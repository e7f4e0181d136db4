/** Data model of the voice-presence reward bot: identities, the per-user
    tracking record, the outbound reward requests and the remote server's
    replies, and the reward constants. */
module Types {

  datatype Option<+T> = None | Some(value: T)

  /** A chat-platform user, keyed by its numeric id (the tracker's key is the
      decimal string of that id, an injective conversion). */
  type UserId = nat

  type ChannelId = int

  /** Wall-clock instants, in whole seconds. */
  type Time = int

  /** A guild member as the chat client reports it. */
  datatype Member = Member(id: UserId, isBot: bool)

  /** The two monitored voice channels, read from the environment at start-up. */
  datatype Config = Config(vpChannel: ChannelId, gemsChannel: ChannelId)

  /** Per-user tracking record: when the user was last seen entering the VP
      channel and the gems channel, or None. */
  datatype Record = Record(vpStart: Option<Time>, gemsStart: Option<Time>)

  /** The value the tracker's defaultdict produces for a user it has not seen. */
  const EmptyRecord := Record(None, None)

  /** A boost multiplier in hundredths (the source's float 1.05), passed to
      the remote server unchanged. */
  datatype Multiplier = Multiplier(hundredths: nat)

  const VP_AMOUNT: nat := 10
  const VP_INTERVAL: nat := 300
  const GEMS_MULTIPLIER := Multiplier(105)
  const GEMS_DURATION: nat := 3600
  const GEMS_REFRESH: nat := 60

  /** An outbound call to the remote reward API: `add_vp` or `add_gems_boost`. */
  datatype Request =
    | AddVp(user: UserId, amount: nat)
    | AddGemsBoost(user: UserId, multiplier: Multiplier, duration: nat)

  /** What a call to the remote API hands back to its caller. The transport
      turns every network error and every non-200 status into an object with
      success false; a 200 response whose JSON body is not an object is
      returned as it is, and reading `success` from it raises. */
  datatype Reply = Object(success: bool) | NotAnObject

  /** `ch and ch.id == id`: the optional channel is present and is `id`. */
  predicate In(ch: Option<ChannelId>, id: ChannelId) {
    ch.Some? && ch.value == id
  }

  /** The record the tracker yields for `u`: a missing key reads as both None. */
  function Lookup(data: map<UserId, Record>, u: UserId): Record {
    if u in data then data[u] else EmptyRecord
  }

  /** Two trackers that yield the same record for every user. */
  ghost predicate SameView(d1: map<UserId, Record>, d2: map<UserId, Record>) {
    forall u :: Lookup(d1, u) == Lookup(d2, u)
  }

  /** Indexing the defaultdict: a missing key is inserted with the empty
      record; nothing the tracker yields changes. */
  function Touch(data: map<UserId, Record>, u: UserId): (d: map<UserId, Record>)
    ensures d.Keys == data.Keys + {u}
    ensures forall v :: Lookup(d, v) == Lookup(data, v)
  {
    if u in data then data else data[u := EmptyRecord]
  }

  /** The set of users that the requests in `reqs` are addressed to. */
  function Recipients(reqs: seq<Request>): set<UserId> {
    set i | 0 <= i < |reqs| :: reqs[i].user
  }

  /** No user is addressed by two requests of `reqs`. */
  predicate NoRepeats(reqs: seq<Request>) {
    forall i, j :: 0 <= i < j < |reqs| ==> reqs[i].user != reqs[j].user
  }

  /** The ids of the members of `ms` that are not bots. */
  function HumanIds(ms: seq<Member>): set<UserId> {
    set i | 0 <= i < |ms| && !ms[i].isBot :: ms[i].id
  }

  lemma RecipientsSnoc(reqs: seq<Request>, r: Request)
    ensures Recipients(reqs + [r]) == Recipients(reqs) + {r.user}
  {
    var s := reqs + [r];
    assert s[|reqs|] == r;
    assert forall i :: 0 <= i < |reqs| ==> s[i] == reqs[i];
  }

  lemma HumanIdsSnoc(ms: seq<Member>)
    requires ms != []
    ensures var n := |ms| - 1;
      HumanIds(ms) == HumanIds(ms[..n]) + (if ms[n].isBot then {} else {ms[n].id})
  {
  }

  /** How many of the requests in `reqs` are addressed to `u`. */
  function GrantsTo(reqs: seq<Request>, u: UserId): nat
    decreases |reqs|
  {
    if reqs == [] then 0
    else GrantsTo(reqs[..|reqs| - 1], u) + (if reqs[|reqs| - 1].user == u then 1 else 0)
  }

  /** Without repeats, each user is addressed once or not at all. */
  lemma {:induction false} NoRepeatsGrantsOnce(reqs: seq<Request>, u: UserId)
    requires NoRepeats(reqs)
    ensures GrantsTo(reqs, u) == if u in Recipients(reqs) then 1 else 0
    decreases |reqs|
  {
    if reqs != [] {
      var n := |reqs| - 1;
      var pre, r := reqs[..n], reqs[n];
      assert forall i :: 0 <= i < n ==> pre[i] == reqs[i];
      NoRepeatsGrantsOnce(pre, u);
      assert pre + [r] == reqs;
      RecipientsSnoc(pre, r);
    }
  }
}
