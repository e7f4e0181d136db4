/** The voice-state handler: how one presence notification changes the
    tracker and which boost request it issues. */
module Presence {
  import opened Types

  /** A voice-state notification: the member, the channel before and after
      (None when not in a voice channel), and the instant it is handled. */
  datatype Event = Event(member: Member, before: Option<ChannelId>, after: Option<ChannelId>, now: Time)

  /** One start field after a notification: an entry records `now` only if
      nothing is recorded yet; otherwise leaving clears it. */
  function NextStart(start: Option<Time>, entered: bool, left: bool, now: Time): Option<Time> {
    if entered then (if start.None? then Some(now) else start)
    else if left then None
    else start
  }

  /** Whether the handler indexes the tracker for this notification (each of
      its four branches reads or writes the member's record). */
  predicate Touches(cfg: Config, e: Event) {
    && !e.member.isBot
    && (|| In(e.after, cfg.vpChannel) || In(e.before, cfg.vpChannel)
        || In(e.after, cfg.gemsChannel) || In(e.before, cfg.gemsChannel))
  }

  /** The tracker after the handler has processed `e`. */
  function EventState(cfg: Config, d: map<UserId, Record>, e: Event): (d': map<UserId, Record>)
    // a bot's notification is ignored
    ensures e.member.isBot ==> d' == d
    // only the member's own record can change, and only its key can be added
    ensures d'.Keys == if Touches(cfg, e) then d.Keys + {e.member.id} else d.Keys
    ensures forall u :: u != e.member.id ==> Lookup(d', u) == Lookup(d, u)
    // VP channel: set-if-absent on entry, cleared on leaving, else kept; the gems channel plays no part
    ensures var was, now := Lookup(d, e.member.id).vpStart, Lookup(d', e.member.id).vpStart;
      && (!e.member.isBot && In(e.after, cfg.vpChannel) && was.None? ==> now == Some(e.now))
      && (In(e.after, cfg.vpChannel) && was.Some? ==> now == was)
      && (!e.member.isBot && !In(e.after, cfg.vpChannel) && In(e.before, cfg.vpChannel) ==> now.None?)
      && (!In(e.after, cfg.vpChannel) && !In(e.before, cfg.vpChannel) ==> now == was)
    // gems channel: the same rules on the other field; the VP channel plays no part
    ensures var was, now := Lookup(d, e.member.id).gemsStart, Lookup(d', e.member.id).gemsStart;
      && (!e.member.isBot && In(e.after, cfg.gemsChannel) && was.None? ==> now == Some(e.now))
      && (In(e.after, cfg.gemsChannel) && was.Some? ==> now == was)
      && (!e.member.isBot && !In(e.after, cfg.gemsChannel) && In(e.before, cfg.gemsChannel) ==> now.None?)
      && (!In(e.after, cfg.gemsChannel) && !In(e.before, cfg.gemsChannel) ==> now == was)
  {
    if !Touches(cfg, e) then d
    else
      var r := Lookup(d, e.member.id);
      d[e.member.id := Record(
        NextStart(r.vpStart, In(e.after, cfg.vpChannel), In(e.before, cfg.vpChannel), e.now),
        NextStart(r.gemsStart, In(e.after, cfg.gemsChannel), In(e.before, cfg.gemsChannel), e.now))]
  }

  /** The requests the handler issues for `e` against tracker `d`. */
  function EventRequests(cfg: Config, d: map<UserId, Record>, e: Event): (reqs: seq<Request>)
    ensures |reqs| <= 1
    // exactly one boost grant on a first entry to the gems channel, none otherwise
    ensures reqs != [] <==>
      !e.member.isBot && In(e.after, cfg.gemsChannel) && Lookup(d, e.member.id).gemsStart.None?
    ensures forall r :: r in reqs ==> r == AddGemsBoost(e.member.id, GEMS_MULTIPLIER, GEMS_DURATION)
  {
    if !e.member.isBot && In(e.after, cfg.gemsChannel) && Lookup(d, e.member.id).gemsStart.None?
    then [AddGemsBoost(e.member.id, GEMS_MULTIPLIER, GEMS_DURATION)]
    else []
  }

  /** The handler sees the tracker only through what it yields: a missing key
      behaves exactly like a stored record with both start times None. */
  lemma EventSeesOnlyView(cfg: Config, d1: map<UserId, Record>, d2: map<UserId, Record>, e: Event)
    requires SameView(d1, d2)
    ensures SameView(EventState(cfg, d1, e), EventState(cfg, d2, e))
    ensures EventRequests(cfg, d1, e) == EventRequests(cfg, d2, e)
  {
  }

  /** A repeated notification (same member and channels, at any later instant)
      changes nothing and issues no second boost grant. */
  lemma RepeatedEventIsIdempotent(cfg: Config, d: map<UserId, Record>, e: Event, later: Time)
    ensures EventState(cfg, EventState(cfg, d, e), e.(now := later)) == EventState(cfg, d, e)
    ensures EventRequests(cfg, EventState(cfg, d, e), e.(now := later)) == []
  {
  }
}
