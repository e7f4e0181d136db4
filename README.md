# Voice-presence rewards bot — a Dafny model

The bot watches two voice channels of a chat server. Time spent in the
**VP channel** earns VP (a virtual currency). Once per interval, every human
occupant whose stay has lasted `VP_INTERVAL` (300 s) gets one `add_vp`
request for `VP_AMOUNT` (10), and their stay restarts at the tick's instant.
A first entry to the **gems channel** (no gems start recorded) sends one
boost request at once: multiplier 1.05 for `GEMS_DURATION` (3600 s). After
that, a refresh tick re-sends a boost for every human occupant for
`GEMS_REFRESH` (60 s). The bot keeps one piece of state,
`user_voice_data`. It is a dictionary from user id to a record
`{vp_start, gems_start}`, and a missing key reads as both None.
The remote reward API does the actual granting.

The model has six modules:

- `Types` (types.dfy) holds the data model: members, channels, the tracking
  record, the remote requests `AddVp` / `AddGemsBoost`, the API's `Reply`, and
  the constants. It also has `Lookup` and `Touch`: reading the defaultdict,
  and indexing it, which inserts the default record.
- `Presence` (presence.dfy) is the voice-state handler as a function of the
  tracker and one notification (`EventState`, `EventRequests`).
- `VpReward` (vp_reward.dfy) is the VP tick as a loop over the occupant list
  (`VpRun`, one `Visit` per occupant), with the tick's lemmas.
- `GemsBoost` (gems_boost.dfy) is the refresh tick (`GemsRun`).
- `History` (history.dfy) is a run of the bot: notifications and both ticks,
  handled one after another, and what such a run leaves in the tracker.
- `DiscordBot` (bot.dfy) is the class `VoiceTracker`. It holds the dictionary
  and a log of every request sent. Its methods `OnVoiceStateUpdate` (with its two
  blocks `TrackVp` and `TrackGems`), `VpTick` (one `VisitMember` per
  occupant) and `GemsTick` change that state in place the way the handlers do. Each
  method's postcondition ties the new state to the functions above.
  `JoinAndTwoTicks` is a client of the class: a user who joins at 0 is paid at
  300 and at 600, and not at 599.

The inputs are modelled as follows:

- Time is whole seconds.
- The chat client's channel lookup is an `Option<seq<Member>>`: None when the
  channel cannot be resolved.
- The remote API is a parameter `server: Request -> Reply`. A reply is a
  JSON object carrying `success`, or `NotAnObject`. The transport turns every
  network error and every non-200 status into an object with
  `success: false`. A 200 response whose body is valid JSON but not an object
  is handed back as it is. The caller's `result.get('success')` then raises.
  In the VP tick, that exception escapes the loop. The tick's
  `except Exception` swallows it and the tick ends early: that member's start
  time is not reset and later occupants are not visited (`Tick.aborted`).
  In the voice-state handler the same exception happens after every state
  write, so it changes nothing there.

Three behaviours of the code are worth stating plainly:

- A failed grant does not stop the tick, but one reply that is not a JSON
  object ends the whole VP tick. The occupants before it were sent their
  grant and restarted. It was sent its grant but not restarted. Those after
  it were not visited.
- The bot does not check whether an occupant has linked a game account. It
  sends every due occupant's request, and the remote server decides.
- This bot keeps no link codes and no balances. Linking and balances live on
  the remote server.

The start time is tested with `if start_time:`. A `datetime` is always truthy,
so that test is "is not None", and the model writes it that way.

## Model

| member | source | states |
|---|---|---|
| `Presence.EventSeesOnlyView` | discord_bot.py:46 | the voice-state handler treats a missing key exactly like a stored record with both start times None: trackers that yield the same record for every user give trackers that again do, and the same requests |
| `VpReward.VpRunSeesOnlyView` | discord_bot.py:46 | the VP tick treats a missing key exactly like a stored record with both start times None: trackers that yield the same record for every user give the same view, the same requests and the same early exit |
| `Types.Touch` | discord_bot.py:46 | indexing the tracker adds the user's key if it was missing, and leaves every user's observable record unchanged |
| `Presence.EventState` | discord_bot.py:92-126 | a bot's notification leaves the tracker unchanged. Otherwise only the member's record changes. Its key is added exactly when one of the four branches runs. VP start: set to `now` on entry if absent, kept on entry if present, cleared when the member leaves the VP channel for elsewhere, kept otherwise, whatever the gems channel does. Gems start: the same rules against the gems channel, independent of the VP channel |
| `Presence.EventRequests` | discord_bot.py:111-116 | at most one request. There is one exactly when a human member enters the gems channel with no gems start recorded, and it is `add_gems_boost(GEMS_MULTIPLIER, GEMS_DURATION)` for that member |
| `Presence.RepeatedEventIsIdempotent` | discord_bot.py:99-126 | handling the same notification again, at any instant, leaves the tracker as the first handling left it and sends no second boost request |
| `History.VpTrackedIffEntered` | discord_bot.py:99-158 | after any run of notifications and ticks, a user has a VP start time exactly when some notification put them in the VP channel (or one was already recorded) and no later one took them out of it |
| `VpReward.VpTickResult` | discord_bot.py:130-134 | an unresolvable VP channel makes the tick change nothing and send nothing; otherwise the tick is the loop over the channel's occupants |
| `VpReward.Visit` | discord_bot.py:139-158 | one iteration of the tick's loop: an ended tick stays unchanged; at most one request is appended, and only `add_vp(VP_AMOUNT)` for a human whose stay is due; only that member's record can change, and only by restarting it at `now` |
| `VpReward.VpRun` | discord_bot.py:138-158 | the loop over the occupants: at most one request per occupant, and no key is removed (the lemmas below give the rest) |
| `VpReward.AbortedTickShape` | discord_bot.py:149-161 | an aborted tick stopped at one position: the occupants before it ran without an exception, the occupant there is a human whose stay is due and whose reply is not an object, and the outcome is the prefix's plus that one grant, with the occupant's start time left as recorded |
| `VpReward.VpRunKeepsTracked` | discord_bot.py:143-158 | a tick, ended early or not, never records or clears a VP start time; it only restarts one already recorded |
| `VpReward.AbortedTickStops` | discord_bot.py:149-161 | once an exception has ended the tick, the occupants after that point are not visited: the tick's outcome is that of the prefix |
| `VpReward.VpRunFrame` | discord_bot.py:138-158 | a tick never changes gems start times, never changes the record of a user who is not a human occupant, and removes no key. The only keys it adds are human occupants'. A completed tick adds all of them |
| `VpReward.VpRunStarts` | discord_bot.py:145-158 | users who are not eligible keep their VP start time. These are bots, users not in the channel, users with no start, and users whose stay is shorter than `VP_INTERVAL`. A completed tick sets every eligible occupant's start to `now`. Eligible means a human occupant with `now - vp_start >= VP_INTERVAL` |
| `VpReward.VpRunPays` | discord_bot.py:145-149 | every request a tick sends is `add_vp(VP_AMOUNT)` for an eligible occupant. A completed tick sends one to every eligible occupant |
| `VpReward.VpRunGrantsOnce` | discord_bot.py:138-158 | no user receives two grants in one tick, however large the elapsed time, even if the occupant list names them twice |
| `VpReward.VpRunExactlyOnce` | discord_bot.py:138-158 | in a completed tick each eligible occupant receives exactly one grant and every other user none |
| `VpReward.AbortedOnlyByMalformedReply` | discord_bot.py:149-161 | a tick ends early only when the reply to its last request was not a JSON object |
| `VpReward.ObjectRepliesComplete` | discord_bot.py:149-158 | if every reply is a JSON object, the tick visits every occupant |
| `VpReward.SuccessIsIgnored` | discord_bot.py:149-158 | the success flag of the replies has no effect on the tracker or the requests: start times are reset whether or not each grant succeeded |
| `VpReward.SingleOccupantTick` | discord_bot.py:138-158 | for one human occupant whose grant gets an object reply, the tick pays and restarts them at `now` exactly when their stay is due, and otherwise changes and sends nothing |
| `GemsBoost.GemsRun` | discord_bot.py:170-174 | the loop over the occupants: no more requests than occupants, and one per occupant when none is a bot (the lemmas below give the rest) |
| `GemsBoost.GemsTickRequests` | discord_bot.py:164-168 | an unresolvable gems channel means no requests; otherwise the requests are the loop's over the channel's occupants |
| `GemsBoost.GemsRunShape` | discord_bot.py:170-174 | every request of a gems tick is `add_gems_boost(GEMS_MULTIPLIER, GEMS_REFRESH)`, and the recipients are exactly the human occupants |
| `GemsBoost.GemsRunOnePerSeat` | discord_bot.py:170-174 | each user receives exactly as many boosts as the times they occur in the channel as a human member (one each for a list of distinct members; bots none) |
| `DiscordBot.VoiceTracker.constructor` | discord_bot.py:46 | the tracker starts empty with no requests sent |
| `DiscordBot.VoiceTracker.OnVoiceStateUpdate` | discord_bot.py:92-126 | the handler's in-place updates leave the tracker as `EventState` says and append exactly `EventRequests` to the request log |
| `DiscordBot.VoiceTracker.TrackVp` | discord_bot.py:99-108 | the handler's VP block changes only the member's VP start: set to `now` on entry if absent, kept on entry if present, cleared on leaving; the key is added exactly when the member enters or leaves the VP channel |
| `DiscordBot.VoiceTracker.TrackGems` | discord_bot.py:110-126 | the handler's gems block does the same to the gems start, and appends one boost request for `GEMS_DURATION` exactly on an entry with no gems start recorded |
| `DiscordBot.VoiceTracker.VisitMember` | discord_bot.py:139-158 | one iteration of the VP tick's loop changes the tracker and the request log as `Visit` says, and reports whether reading the reply raised |
| `DiscordBot.VoiceTracker.VpTick` | discord_bot.py:130-161 | the loop over the occupants, with its early exit on an exception, leaves the tracker and the request log as `VpTickResult` says |
| `DiscordBot.VoiceTracker.GemsTick` | discord_bot.py:164-177 | the loop appends exactly `GemsTickRequests` to the request log and cannot modify the tracker |

## Left out

- The chat client, intents, command tree and the slash commands `verify`,
  `profile` and `rewards` (discord_bot.py:29-43, 180-215). They are user
  interface and message formatting over a client library.
- `verify_code` and `get_linked` (discord_bot.py:66-70). Only those commands
  use them.
- The HTTP transport inside `api_call` (discord_bot.py:49-64). It is
  network I/O, modelled only by the shape of the reply it hands back.
- The direct messages sent after a successful grant (discord_bot.py:117-121,
  151-156). They are best-effort I/O whose failures are swallowed, and they
  affect no state. The log lines printed throughout are left out for the
  same reason.
- The health-check web server, `main`, the start-up and the task loop
  scheduling (discord_bot.py:79-89, 218-244). This is process plumbing. Each
  handler is modelled as one atomic step, and the order of steps is the
  caller's.
- Interleaving at the handlers' awaits. `vp_task` awaits `add_vp`
  (discord_bot.py:149) before it resets the start time (discord_bot.py:158).
  A leave notification handled during that await clears the start
  (discord_bot.py:107), and the reset then writes it back. The user then
  keeps a start time while absent. So in the program itself
  `History.VpTrackedIffEntered` can fail; it holds for runs of whole steps.
  The same holds for the awaits in the voice-state handler
  (discord_bot.py:116, 119), which come after all its writes.
- The wall clock `datetime.now()` and the float `total_seconds()`. The
  instant is a parameter in whole seconds, so sub-second elapsed times are
  not modelled.
- `GEMS_MULTIPLIER` is the float 1.05. It is carried as 105 hundredths and
  only passed through.
- Reading the channel ids and the token from the environment
  (discord_bot.py:12, 18-19). The channel ids are the tracker's
  configuration.
- Exceptions other than a reply that is not an object. Examples are a
  failure while opening the HTTP session, or an exception the client library
  raises inside the voice-state handler. They are not modelled.
