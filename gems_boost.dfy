/** The gems boost tick: one boost request, lasting one refresh period, for
    every human occupant of the gems channel; the tracker is not consulted. */
module GemsBoost {
  import opened Types

  /** The tick's loop over the occupants `ms`: the requests it issues, in order. */
  function GemsRun(ms: seq<Member>): (reqs: seq<Request>)
    // one request per human seat: never more requests than occupants, and
    // as many as occupants when no occupant is a bot
    ensures |reqs| <= |ms|
    ensures (forall i :: 0 <= i < |ms| ==> !ms[i].isBot) ==> |reqs| == |ms|
    decreases |ms|
  {
    if ms == [] then []
    else
      var n := |ms| - 1;
      GemsRun(ms[..n]) + (if ms[n].isBot then [] else [AddGemsBoost(ms[n].id, GEMS_MULTIPLIER, GEMS_REFRESH)])
  }

  /** A whole tick: `channel` is the occupant list of the gems channel, or
      None when the client cannot resolve the channel. */
  function GemsTickRequests(channel: Option<seq<Member>>): (reqs: seq<Request>)
    ensures channel.None? ==> reqs == []
    ensures channel.Some? ==> reqs == GemsRun(channel.value)
  {
    match channel
    case None => []
    case Some(ms) => GemsRun(ms)
  }

  /** How many times `u` occurs in `ms` as a human member. */
  function HumanSeats(ms: seq<Member>, u: UserId): nat
    decreases |ms|
  {
    if ms == [] then 0
    else HumanSeats(ms[..|ms| - 1], u) + (if !ms[|ms| - 1].isBot && ms[|ms| - 1].id == u then 1 else 0)
  }

  /** Every request of a gems tick is a boost of GEMS_MULTIPLIER for one
      refresh period, and the recipients are exactly the human occupants. */
  lemma {:induction false} GemsRunShape(ms: seq<Member>)
    ensures var reqs := GemsRun(ms);
      && (forall i :: 0 <= i < |reqs| ==> reqs[i] == AddGemsBoost(reqs[i].user, GEMS_MULTIPLIER, GEMS_REFRESH))
      && Recipients(reqs) == HumanIds(ms)
    decreases |ms|
  {
    if ms != [] {
      var n := |ms| - 1;
      var pre := GemsRun(ms[..n]);
      GemsRunShape(ms[..n]);
      HumanIdsSnoc(ms);
      if !ms[n].isBot {
        var r := AddGemsBoost(ms[n].id, GEMS_MULTIPLIER, GEMS_REFRESH);
        assert GemsRun(ms) == pre + [r];
        assert forall i :: 0 <= i < |pre| ==> (pre + [r])[i] == pre[i];
        RecipientsSnoc(pre, r);
      } else {
        assert GemsRun(ms) == pre;
      }
    }
  }

  /** Each human occupant gets exactly one boost per seat, bots none. */
  lemma {:induction false} GemsRunOnePerSeat(ms: seq<Member>, u: UserId)
    ensures GrantsTo(GemsRun(ms), u) == HumanSeats(ms, u)
    decreases |ms|
  {
    if ms != [] {
      var n := |ms| - 1;
      var pre := GemsRun(ms[..n]);
      GemsRunOnePerSeat(ms[..n], u);
      if !ms[n].isBot {
        var r := AddGemsBoost(ms[n].id, GEMS_MULTIPLIER, GEMS_REFRESH);
        assert (pre + [r])[..|pre|] == pre;
      } else {
        assert GemsRun(ms) == pre;
      }
    }
  }
}
