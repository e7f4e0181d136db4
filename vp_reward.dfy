/** The VP reward tick: one pass over the occupants of the VP channel that
    grants VP_AMOUNT to every human occupant whose recorded stay has reached
    VP_INTERVAL and restarts their stay at the tick's instant. */
module VpReward {
  import opened Types

  /** Progress of one tick: the tracker, the requests issued so far in this
      tick, and whether an exception has ended the tick. */
  datatype Tick = Tick(data: map<UserId, Record>, requests: seq<Request>, aborted: bool)

  /** A recorded stay that has lasted at least one reward interval. */
  predicate Due(start: Option<Time>, now: Time) {
    start.Some? && now - start.value >= VP_INTERVAL
  }

  /** One iteration of the tick's loop, for member `m`. Reading a reply that is
      not a JSON object raises, and the tick's handler ends the whole tick
      before the member's start time is reset. */
  function Visit(t: Tick, m: Member, now: Time, server: Request -> Reply): (t': Tick)
    // an ended tick stays ended and unchanged
    ensures t.aborted ==> t' == t
    // at most one request is appended, and only for a human member whose stay is due
    ensures t.requests <= t'.requests && |t'.requests| <= |t.requests| + 1
    ensures |t'.requests| > |t.requests| ==>
      !m.isBot && Due(Lookup(t.data, m.id).vpStart, now) && t'.requests[|t.requests|] == AddVp(m.id, VP_AMOUNT)
    // only the member's own record can change, and only by restarting it at `now`
    ensures forall u :: u != m.id ==> Lookup(t'.data, u) == Lookup(t.data, u)
    ensures Lookup(t'.data, m.id) == Lookup(t.data, m.id) ||
      Lookup(t'.data, m.id) == Lookup(t.data, m.id).(vpStart := Some(now))
  {
    if t.aborted || m.isBot then t
    else
      var d := Touch(t.data, m.id);
      if !Due(d[m.id].vpStart, now) then t.(data := d)
      else
        var req := AddVp(m.id, VP_AMOUNT);
        if server(req).NotAnObject? then Tick(d, t.requests + [req], true)
        else Tick(d[m.id := d[m.id].(vpStart := Some(now))], t.requests + [req], false)
  }

  /** The tick's loop over the occupants `ms`, in order, from tracker `d`. */
  function VpRun(d: map<UserId, Record>, ms: seq<Member>, now: Time, server: Request -> Reply): (t: Tick)
    // at most one request per occupant visited, and no key is removed
    ensures |t.requests| <= |ms|
    ensures d.Keys <= t.data.Keys
    decreases |ms|
  {
    if ms == [] then Tick(d, [], false)
    else Visit(VpRun(d, ms[..|ms| - 1], now, server), ms[|ms| - 1], now, server)
  }

  /** A whole tick: `channel` is the occupant list of the VP channel, or None
      when the client cannot resolve the channel. */
  function VpTickResult(d: map<UserId, Record>, channel: Option<seq<Member>>, now: Time, server: Request -> Reply): (t: Tick)
    ensures channel.None? ==> t == Tick(d, [], false)
    ensures channel.Some? ==> t == VpRun(d, channel.value, now, server)
  {
    match channel
    case None => Tick(d, [], false)
    case Some(ms) => VpRun(d, ms, now, server)
  }

  /** The human occupants that a tick from `d` at `now` should pay. */
  ghost function Eligible(d: map<UserId, Record>, ms: seq<Member>, now: Time): set<UserId> {
    set u | u in HumanIds(ms) && Due(Lookup(d, u).vpStart, now)
  }

  lemma EligibleSnoc(d: map<UserId, Record>, ms: seq<Member>, now: Time)
    requires ms != []
    ensures var n := |ms| - 1;
      Eligible(d, ms, now) == Eligible(d, ms[..n], now) +
        (if !ms[n].isBot && Due(Lookup(d, ms[n].id).vpStart, now) then {ms[n].id} else {})
  {
  }

  /** Once an exception has ended the tick, the remaining occupants are not
      visited. */
  lemma {:induction false} AbortedTickStops(d: map<UserId, Record>, ms: seq<Member>, k: nat, now: Time, server: Request -> Reply)
    requires k <= |ms|
    requires VpRun(d, ms[..k], now, server).aborted
    ensures VpRun(d, ms, now, server) == VpRun(d, ms[..k], now, server)
    decreases |ms| - k
  {
    if k < |ms| {
      var n := |ms| - 1;
      assert ms[..n][..k] == ms[..k];
      AbortedTickStops(d, ms[..n], k, now, server);
    } else {
      assert ms[..k] == ms;
    }
  }

  /** The tick sees the tracker only through what it yields: a missing key
      behaves exactly like a stored record with both start times None, so
      two such trackers give the same view, requests and early exit. */
  lemma {:induction false} VpRunSeesOnlyView(d1: map<UserId, Record>, d2: map<UserId, Record>, ms: seq<Member>, now: Time, server: Request -> Reply)
    requires SameView(d1, d2)
    ensures var t1, t2 := VpRun(d1, ms, now, server), VpRun(d2, ms, now, server);
      SameView(t1.data, t2.data) && t1.requests == t2.requests && t1.aborted == t2.aborted
    decreases |ms|
  {
    if ms != [] {
      var n := |ms| - 1;
      var p1, p2, m := VpRun(d1, ms[..n], now, server), VpRun(d2, ms[..n], now, server), ms[n];
      VpRunSeesOnlyView(d1, d2, ms[..n], now, server);
      assert VpRun(d1, ms, now, server) == Visit(p1, m, now, server);
      assert VpRun(d2, ms, now, server) == Visit(p2, m, now, server);
      if !p1.aborted && !m.isBot {
        var e1, e2 := Touch(p1.data, m.id), Touch(p2.data, m.id);
        assert e1[m.id] == Lookup(p1.data, m.id) == Lookup(p2.data, m.id) == e2[m.id];
        var r := e1[m.id].(vpStart := Some(now));
        var f1, f2 := e1[m.id := r], e2[m.id := r];
        forall u ensures Lookup(f1, u) == Lookup(f2, u) {
          assert Lookup(e1, u) == Lookup(p1.data, u) == Lookup(p2.data, u) == Lookup(e2, u);
        }
      }
    }
  }

  /** What a tick never touches: the gems start times, the records of users
      who are not human occupants, and the tracker's existing keys; the only
      keys added are human occupants' (all of them when the tick completes). */
  lemma {:induction false} VpRunFrame(d: map<UserId, Record>, ms: seq<Member>, now: Time, server: Request -> Reply)
    ensures var t := VpRun(d, ms, now, server);
      && (forall u :: Lookup(t.data, u).gemsStart == Lookup(d, u).gemsStart)
      && (forall u :: u !in HumanIds(ms) ==> Lookup(t.data, u) == Lookup(d, u))
      && d.Keys <= t.data.Keys <= d.Keys + HumanIds(ms)
      && (!t.aborted ==> t.data.Keys == d.Keys + HumanIds(ms))
    decreases |ms|
  {
    if ms != [] {
      var n := |ms| - 1;
      VpRunFrame(d, ms[..n], now, server);
      HumanIdsSnoc(ms);
    }
  }

  /** A tick never records or clears a VP start: it only restarts one that
      is already recorded. This holds for ticks that end early too. */
  lemma {:induction false} VpRunKeepsTracked(d: map<UserId, Record>, ms: seq<Member>, now: Time, server: Request -> Reply)
    ensures forall u :: Lookup(VpRun(d, ms, now, server).data, u).vpStart.Some? == Lookup(d, u).vpStart.Some?
    decreases |ms|
  {
    if ms != [] {
      VpRunKeepsTracked(d, ms[..|ms| - 1], now, server);
    }
  }

  /** The start times after a tick: a completed tick restarts at `now` the
      stay of exactly the eligible occupants, whether each grant succeeded
      or not; no tick changes the start time of anyone else. */
  lemma {:induction false} VpRunStarts(d: map<UserId, Record>, ms: seq<Member>, now: Time, server: Request -> Reply)
    ensures var t := VpRun(d, ms, now, server);
      && (forall u :: u !in Eligible(d, ms, now) ==> Lookup(t.data, u).vpStart == Lookup(d, u).vpStart)
      && (!t.aborted ==> forall u :: u in Eligible(d, ms, now) ==> Lookup(t.data, u).vpStart == Some(now))
    decreases |ms|
  {
    if ms != [] {
      var n := |ms| - 1;
      VpRunStarts(d, ms[..n], now, server);
      EligibleSnoc(d, ms, now);
    }
  }

  /** The requests one iteration adds: none, or one grant for a human
      member whose recorded stay is due, after which the tick either ends
      or goes on. */
  lemma VisitRequests(t: Tick, m: Member, now: Time, server: Request -> Reply)
    ensures var t' := Visit(t, m, now, server);
      || (t'.requests == t.requests && t'.aborted == t.aborted)
      || (&& !t.aborted && !m.isBot && Due(Lookup(t.data, m.id).vpStart, now)
          && t'.requests == t.requests + [AddVp(m.id, VP_AMOUNT)])
    ensures var t' := Visit(t, m, now, server);
      !t.aborted && !m.isBot && Due(Lookup(t.data, m.id).vpStart, now) ==>
        t'.requests == t.requests + [AddVp(m.id, VP_AMOUNT)]
  {
  }

  /** Every request of a tick is `add_vp(VP_AMOUNT)` for an eligible
      occupant, and a completed tick pays every eligible occupant. */
  lemma {:induction false} VpRunPays(d: map<UserId, Record>, ms: seq<Member>, now: Time, server: Request -> Reply)
    ensures var t := VpRun(d, ms, now, server);
      && (forall i :: 0 <= i < |t.requests| ==>
            t.requests[i] == AddVp(t.requests[i].user, VP_AMOUNT) && t.requests[i].user in Eligible(d, ms, now))
      && (!t.aborted ==> Recipients(t.requests) == Eligible(d, ms, now))
    decreases |ms|
  {
    if ms != [] {
      var n := |ms| - 1;
      var pre, m := VpRun(d, ms[..n], now, server), ms[n];
      VpRunPays(d, ms[..n], now, server);
      VpRunStarts(d, ms[..n], now, server);
      EligibleSnoc(d, ms, now);
      VisitRequests(pre, m, now, server);
      var t := Visit(pre, m, now, server);
      if t.requests != pre.requests {
        RecipientsSnoc(pre.requests, AddVp(m.id, VP_AMOUNT));
      }
    }
  }

  /** No user gets two grants in one tick, however long their stay and even
      if the occupant list names them twice. */
  lemma {:induction false} VpRunGrantsOnce(d: map<UserId, Record>, ms: seq<Member>, now: Time, server: Request -> Reply)
    ensures NoRepeats(VpRun(d, ms, now, server).requests)
    decreases |ms|
  {
    if ms != [] {
      var n := |ms| - 1;
      var pre, m := VpRun(d, ms[..n], now, server), ms[n];
      VpRunGrantsOnce(d, ms[..n], now, server);
      VisitRequests(pre, m, now, server);
      var t := Visit(pre, m, now, server);
      if t.requests != pre.requests {
        VpRunPays(d, ms[..n], now, server);
        VpRunStarts(d, ms[..n], now, server);
        assert m.id !in Recipients(pre.requests);
        var s := pre.requests + [AddVp(m.id, VP_AMOUNT)];
        assert forall i :: 0 <= i < |pre.requests| ==> s[i] == pre.requests[i];
        assert forall i :: 0 <= i < |pre.requests| ==> pre.requests[i].user in Recipients(pre.requests);
      }
    }
  }

  /** The tick ended at position `k`: the occupants before `k` were handled
      without an exception, `ms[k]` is a human whose stay is due, the reply
      to their grant is not a JSON object, and the tick's outcome is the
      prefix's with that one grant sent and their record only read. */
  ghost predicate AbortsAt(d: map<UserId, Record>, ms: seq<Member>, k: nat, now: Time, server: Request -> Reply) {
    && k < |ms|
    && var p, m := VpRun(d, ms[..k], now, server), ms[k];
    && !p.aborted && !m.isBot
    && Due(Lookup(d, m.id).vpStart, now)
    && Due(Lookup(p.data, m.id).vpStart, now)
    && server(AddVp(m.id, VP_AMOUNT)).NotAnObject?
    && VpRun(d, ms, now, server) == Tick(Touch(p.data, m.id), p.requests + [AddVp(m.id, VP_AMOUNT)], true)
  }

  /** An aborted tick stopped at one occupant, whose start time stays as it
      was; `VpRunStarts` and `VpRunPays` on the prefix before that occupant
      then say who was paid and restarted. */
  lemma {:induction false} AbortedTickShape(d: map<UserId, Record>, ms: seq<Member>, now: Time, server: Request -> Reply)
    requires VpRun(d, ms, now, server).aborted
    ensures exists k :: AbortsAt(d, ms, k, now, server)
    decreases |ms|
  {
    var n := |ms| - 1;
    var pre := VpRun(d, ms[..n], now, server);
    if pre.aborted {
      AbortedTickShape(d, ms[..n], now, server);
      var k: nat :| AbortsAt(d, ms[..n], k, now, server);
      assert ms[..n][..k] == ms[..k];
      assert AbortsAt(d, ms, k, now, server);
    } else {
      VpRunStarts(d, ms[..n], now, server);
      assert AbortsAt(d, ms, n, now, server);
    }
  }

  /** A tick ends early only on a reply that is not a JSON object, and then
      that reply answered the tick's last request. */
  lemma {:induction false} AbortedOnlyByMalformedReply(d: map<UserId, Record>, ms: seq<Member>, now: Time, server: Request -> Reply)
    ensures var t := VpRun(d, ms, now, server);
      t.aborted ==> t.requests != [] && server(t.requests[|t.requests| - 1]).NotAnObject?
    decreases |ms|
  {
    if ms != [] {
      AbortedOnlyByMalformedReply(d, ms[..|ms| - 1], now, server);
    }
  }

  /** When every reply is an object the tick visits every occupant. */
  lemma {:induction false} ObjectRepliesComplete(d: map<UserId, Record>, ms: seq<Member>, now: Time, server: Request -> Reply)
    requires forall r :: server(r).Object?
    ensures !VpRun(d, ms, now, server).aborted
    decreases |ms|
  {
    if ms != [] {
      ObjectRepliesComplete(d, ms[..|ms| - 1], now, server);
    }
  }

  /** The success flag of a grant's reply has no effect on the tracker or on
      the requests: start times are reset whether or not the grant succeeded. */
  lemma {:induction false} SuccessIsIgnored(d: map<UserId, Record>, ms: seq<Member>, now: Time, s1: Request -> Reply, s2: Request -> Reply)
    requires forall r :: s1(r).Object? == s2(r).Object?
    ensures VpRun(d, ms, now, s1) == VpRun(d, ms, now, s2)
    decreases |ms|
  {
    if ms != [] {
      SuccessIsIgnored(d, ms[..|ms| - 1], now, s1, s2);
    }
  }

  /** A completed tick issues exactly one grant to each eligible occupant
      and none to anyone else. */
  lemma VpRunExactlyOnce(d: map<UserId, Record>, ms: seq<Member>, now: Time, server: Request -> Reply, u: UserId)
    requires !VpRun(d, ms, now, server).aborted
    ensures GrantsTo(VpRun(d, ms, now, server).requests, u) == if u in Eligible(d, ms, now) then 1 else 0
  {
    VpRunGrantsOnce(d, ms, now, server);
    VpRunPays(d, ms, now, server);
    NoRepeatsGrantsOnce(VpRun(d, ms, now, server).requests, u);
  }

  /** A tick over a single human occupant whose grant gets an object reply:
      paid and restarted at `now` exactly when their stay is due. */
  lemma SingleOccupantTick(u: UserId, r: Record, now: Time, server: Request -> Reply)
    requires server(AddVp(u, VP_AMOUNT)).Object?
    ensures VpRun(map[u := r], [Member(u, false)], now, server) ==
      if Due(r.vpStart, now) then Tick(map[u := r.(vpStart := Some(now))], [AddVp(u, VP_AMOUNT)], false)
      else Tick(map[u := r], [], false)
  {
  }
}
