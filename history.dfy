/** Runs of the bot: notifications and the two ticks, handled one after
    another, and what such a run leaves in the tracker. */
module History {
  import opened Types
  import opened Presence
  import opened VpReward

  /** One handler invocation, taken as a single atomic step. */
  datatype Step =
    | Notify(event: Event)
    | RewardTick(channel: Option<seq<Member>>, now: Time, server: Request -> Reply)
    | BoostTick(channel: Option<seq<Member>>)

  /** The tracker after one step; the boost tick does not consult it. */
  function Apply(cfg: Config, d: map<UserId, Record>, s: Step): map<UserId, Record> {
    match s
    case Notify(e) => EventState(cfg, d, e)
    case RewardTick(channel, now, server) => VpTickResult(d, channel, now, server).data
    case BoostTick(_) => d
  }

  /** The tracker after the steps `h`, in order, starting from `d`. */
  function Run(cfg: Config, d: map<UserId, Record>, h: seq<Step>): map<UserId, Record>
    decreases |h|
  {
    if h == [] then d
    else Apply(cfg, Run(cfg, d, h[..|h| - 1]), h[|h| - 1])
  }

  /** A notification that puts human `u` in the VP channel. */
  predicate EntersVp(cfg: Config, s: Step, u: UserId) {
    s.Notify? && !s.event.member.isBot && s.event.member.id == u && In(s.event.after, cfg.vpChannel)
  }

  /** A notification that takes human `u` from the VP channel to elsewhere. */
  predicate LeavesVp(cfg: Config, s: Step, u: UserId) {
    && s.Notify? && !s.event.member.isBot && s.event.member.id == u
    && !In(s.event.after, cfg.vpChannel) && In(s.event.before, cfg.vpChannel)
  }

  /** No step from position `k` on takes `u` out of the VP channel. */
  predicate NoVpLeaveFrom(cfg: Config, h: seq<Step>, u: UserId, k: nat) {
    forall j :: k <= j < |h| ==> !LeavesVp(cfg, h[j], u)
  }

  /** `u` entered the VP channel in `h` (or was already tracked in `d`)
      and no later notification took them out of it. */
  ghost predicate InVpAfter(cfg: Config, d: map<UserId, Record>, h: seq<Step>, u: UserId) {
    || (exists i :: 0 <= i < |h| && EntersVp(cfg, h[i], u) && NoVpLeaveFrom(cfg, h, u, i + 1))
    || (Lookup(d, u).vpStart.Some? && NoVpLeaveFrom(cfg, h, u, 0))
  }

  /** A VP start time is recorded for `u` exactly when the most recent
      notification that named the VP channel for `u` named it as the
      destination, whatever ticks ran in between. */
  lemma {:induction false} VpTrackedIffEntered(cfg: Config, d: map<UserId, Record>, h: seq<Step>, u: UserId)
    ensures Lookup(Run(cfg, d, h), u).vpStart.Some? <==> InVpAfter(cfg, d, h, u)
    decreases |h|
  {
    if h != [] {
      var n := |h| - 1;
      var pre, s := h[..n], h[n];
      VpTrackedIffEntered(cfg, d, pre, u);
      assert Run(cfg, d, h) == Apply(cfg, Run(cfg, d, pre), s);
      assert forall j :: 0 <= j < n ==> pre[j] == h[j];
      if EntersVp(cfg, s, u) {
        assert NoVpLeaveFrom(cfg, h, u, n + 1);
      } else if LeavesVp(cfg, s, u) {
        assert !NoVpLeaveFrom(cfg, h, u, 0);
        forall k | 0 < k <= n ensures !NoVpLeaveFrom(cfg, h, u, k) {
          assert LeavesVp(cfg, h[n], u);
        }
      } else {
        var before := Run(cfg, d, pre);
        if s.RewardTick? && s.channel.Some? {
          VpRunKeepsTracked(before, s.channel.value, s.now, s.server);
        }
        assert Lookup(Run(cfg, d, h), u).vpStart.Some? == Lookup(before, u).vpStart.Some?;
        forall k | 0 <= k <= n ensures NoVpLeaveFrom(cfg, h, u, k) <==> NoVpLeaveFrom(cfg, pre, u, k) {
          if NoVpLeaveFrom(cfg, pre, u, k) {
            forall j | k <= j < |h| ensures !LeavesVp(cfg, h[j], u) {
              if j < n { assert h[j] == pre[j]; }
            }
          }
        }
        if InVpAfter(cfg, d, h, u) {
          if i :| 0 <= i < |h| && EntersVp(cfg, h[i], u) && NoVpLeaveFrom(cfg, h, u, i + 1) {
            assert i < n;
            assert EntersVp(cfg, pre[i], u) && NoVpLeaveFrom(cfg, pre, u, i + 1);
          }
        }
        if InVpAfter(cfg, d, pre, u) {
          if i :| 0 <= i < |pre| && EntersVp(cfg, pre[i], u) && NoVpLeaveFrom(cfg, pre, u, i + 1) {
            assert EntersVp(cfg, h[i], u) && NoVpLeaveFrom(cfg, h, u, i + 1);
          }
        }
      }
    }
  }
}
