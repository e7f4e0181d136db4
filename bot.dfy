/** The bot's mutable state and its three handlers: the voice-state event and
    the two periodic ticks. Handlers run one at a time, each to completion. */
module DiscordBot {
  import opened Types
  import opened Presence
  import opened VpReward
  import opened GemsBoost

  /** The per-user tracking dictionary, with the log of every request sent to
      the remote reward API. */
  class VoiceTracker {
    const cfg: Config
    var voiceData: map<UserId, Record>
    var outbox: seq<Request>

    constructor (vpChannel: ChannelId, gemsChannel: ChannelId)
      ensures cfg == Config(vpChannel, gemsChannel)
      ensures voiceData == map[] && outbox == []
    {
      cfg := Config(vpChannel, gemsChannel);
      voiceData := map[];
      outbox := [];
    }

    /** The voice-state handler. */
    method OnVoiceStateUpdate(member: Member, before: Option<ChannelId>, after: Option<ChannelId>, now: Time)
      modifies this
      ensures voiceData == EventState(cfg, old(voiceData), Event(member, before, after, now))
      ensures outbox == old(outbox) + EventRequests(cfg, old(voiceData), Event(member, before, after, now))
    {
      if member.isBot {
        return;
      }
      TrackVp(member.id, before, after, now);
      TrackGems(member.id, before, after, now);
    }

    /** The handler's VP-channel block: set the start on entry if absent,
        clear it on leaving. */
    method TrackVp(id: UserId, before: Option<ChannelId>, after: Option<ChannelId>, now: Time)
      modifies this`voiceData
      ensures var r := Lookup(old(voiceData), id);
        voiceData == if In(after, cfg.vpChannel) || In(before, cfg.vpChannel)
          then old(voiceData)[id := r.(vpStart := NextStart(r.vpStart, In(after, cfg.vpChannel), In(before, cfg.vpChannel), now))]
          else old(voiceData)
    {
      if In(after, cfg.vpChannel) {
        voiceData := Touch(voiceData, id);
        if voiceData[id].vpStart.None? {
          voiceData := voiceData[id := voiceData[id].(vpStart := Some(now))];
        }
      } else if In(before, cfg.vpChannel) {
        voiceData := Touch(voiceData, id);
        voiceData := voiceData[id := voiceData[id].(vpStart := None)];
      }
    }

    /** The handler's gems-channel block: on a first entry set the start and
        send the boost request; clear the start on leaving. */
    method TrackGems(id: UserId, before: Option<ChannelId>, after: Option<ChannelId>, now: Time)
      modifies this
      ensures var r := Lookup(old(voiceData), id);
        voiceData == if In(after, cfg.gemsChannel) || In(before, cfg.gemsChannel)
          then old(voiceData)[id := r.(gemsStart := NextStart(r.gemsStart, In(after, cfg.gemsChannel), In(before, cfg.gemsChannel), now))]
          else old(voiceData)
      ensures var r := Lookup(old(voiceData), id);
        outbox == old(outbox) + if In(after, cfg.gemsChannel) && r.gemsStart.None?
          then [AddGemsBoost(id, GEMS_MULTIPLIER, GEMS_DURATION)] else []
    {
      if In(after, cfg.gemsChannel) {
        voiceData := Touch(voiceData, id);
        if voiceData[id].gemsStart.None? {
          voiceData := voiceData[id := voiceData[id].(gemsStart := Some(now))];
          outbox := outbox + [AddGemsBoost(id, GEMS_MULTIPLIER, GEMS_DURATION)];
        }
      } else if In(before, cfg.gemsChannel) {
        voiceData := Touch(voiceData, id);
        voiceData := voiceData[id := voiceData[id].(gemsStart := None)];
      }
    }

    /** One iteration of the VP tick's loop, for occupant `m`, continuing the
        tick `t` whose requests follow `sent` in the log. `raised` says that
        reading the reply raised, which ends the tick. */
    method VisitMember(m: Member, now: Time, server: Request -> Reply, ghost sent: seq<Request>, ghost t: Tick)
      returns (raised: bool)
      requires !t.aborted && voiceData == t.data && outbox == sent + t.requests
      modifies this
      ensures var t' := Visit(t, m, now, server);
        voiceData == t'.data && outbox == sent + t'.requests && raised == t'.aborted
    {
      raised := false;
      if m.isBot {
        return;
      }
      voiceData := Touch(voiceData, m.id);
      var start := voiceData[m.id].vpStart;
      if start.Some? && now - start.value >= VP_INTERVAL {
        var req := AddVp(m.id, VP_AMOUNT);
        outbox := outbox + [req];
        var reply := server(req);
        if reply.NotAnObject? {
          // reading the reply raises; the tick's handler swallows it and the tick ends
          raised := true;
          return;
        }
        voiceData := voiceData[m.id := voiceData[m.id].(vpStart := Some(now))];
      }
    }

    /** The VP reward tick. `channel` is the VP channel's occupant list as the
        client resolves it; `server` answers each grant request. */
    method VpTick(channel: Option<seq<Member>>, now: Time, server: Request -> Reply)
      modifies this
      ensures var t := VpTickResult(old(voiceData), channel, now, server);
        voiceData == t.data && outbox == old(outbox) + t.requests
    {
      if channel.None? {
        return;
      }
      var members := channel.value;
      var i := 0;
      while i < |members|
        invariant 0 <= i <= |members|
        invariant !VpRun(old(voiceData), members[..i], now, server).aborted
        invariant voiceData == VpRun(old(voiceData), members[..i], now, server).data
        invariant outbox == old(outbox) + VpRun(old(voiceData), members[..i], now, server).requests
      {
        ghost var t := VpRun(old(voiceData), members[..i], now, server);
        assert members[..i + 1][..i] == members[..i];
        assert VpRun(old(voiceData), members[..i + 1], now, server) == Visit(t, members[i], now, server);
        var raised := VisitMember(members[i], now, server, old(outbox), t);
        if raised {
          AbortedTickStops(old(voiceData), members, i + 1, now, server);
          return;
        }
        i := i + 1;
      }
      assert members[..|members|] == members;
    }

    /** The gems boost tick: it only sends requests. */
    method GemsTick(channel: Option<seq<Member>>)
      modifies this`outbox
      ensures outbox == old(outbox) + GemsTickRequests(channel)
    {
      if channel.None? {
        return;
      }
      var members := channel.value;
      for i := 0 to |members|
        invariant outbox == old(outbox) + GemsRun(members[..i])
      {
        assert members[..i + 1][..i] == members[..i];
        if !members[i].isBot {
          outbox := outbox + [AddGemsBoost(members[i].id, GEMS_MULTIPLIER, GEMS_REFRESH)];
        }
      }
      assert members[..|members|] == members;
    }
  }

  /** A user who joins the VP channel at 0 is paid at 300, restarted at 300,
      and paid again at 600, with a server that accepts every grant. */
  method JoinAndTwoTicks() {
    var bot := new VoiceTracker(1, 2);
    var alice := Member(42, false);
    var ok: Request -> Reply := _ => Object(true);
    bot.OnVoiceStateUpdate(alice, None, Some(1), 0);
    assert bot.voiceData == map[42 := Record(Some(0), None)];
    SingleOccupantTick(42, Record(Some(0), None), 300, ok);
    bot.VpTick(Some([alice]), 300, ok);
    assert bot.outbox == [AddVp(42, VP_AMOUNT)];
    SingleOccupantTick(42, Record(Some(300), None), 599, ok);
    bot.VpTick(Some([alice]), 599, ok);
    assert bot.outbox == [AddVp(42, VP_AMOUNT)];
    SingleOccupantTick(42, Record(Some(300), None), 600, ok);
    bot.VpTick(Some([alice]), 600, ok);
    assert bot.voiceData == map[42 := Record(Some(600), None)];
    assert bot.outbox == [AddVp(42, VP_AMOUNT), AddVp(42, VP_AMOUNT)];
  }
}
