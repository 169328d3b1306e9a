/** What the handlers of the replicated counter compute, as functions of what they read. */
module CounterSpec {
  import opened Basics
  import opened Messages

  type Peer = nat

  /** CounterResponse; `None` is a field not set. */
  datatype Response = Response(success: Option<bool>, value: Option<int64>, redirect: Option<Peer>)

  const BLANK: Response := Response(None, None, None)

  /** `_leader_term` while this node does not lead, and a task's `expected_term` when unchecked. */
  const NO_TERM: int := -1

  function Redirected(r: Response, leader: Option<Peer>): Response {
    r.(success := Some(false), redirect := if leader.Some? then leader else r.redirect)
  }

  function Answered(r: Response, value: int64): Response {
    r.(success := Some(true), value := Some(value))
  }

  /** How a fetch_add call is dealt with at once: answered, or submitted to the log. */
  datatype Handling = ReplyNow(response: Response) | Submit(data: Bytes, expectedTerm: int)

  function HandleFetchAdd(leaderTerm: int, request: Message, serializes: bool, checkTerm: bool, leader: Option<Peer>)
    : Handling
  {
    if leaderTerm < 0 then ReplyNow(Redirected(BLANK, leader))
    else if !serializes then ReplyNow(BLANK.(success := Some(false)))
    else Submit(Encode(request), if checkTerm then leaderTerm else NO_TERM)
  }

  function HandleGet(value: int64, leaderTerm: int, leader: Option<Peer>): Response {
    if leaderTerm > 0 then Answered(BLANK, value) else Redirected(BLANK, leader)
  }

  /** A committed entry as on_apply sees it: its bytes, and the request held by its closure
      on the node that proposed it. */
  datatype Item = Item(data: Bytes, request: Option<Message>)

  /** The amount to add; `None` when the log bytes do not parse, which aborts the process. */
  function DeltaOf(item: Item): Option<int64> {
    if item.request.Some? then Some(Int64Of(item.request.value)) else ParseInt64(item.data)
  }

  function ApplyItem(value: int64, item: Item): Option<int64> {
    match DeltaOf(item)
    case None => None
    case Some(d) => Some(Wrap64(value + d))
  }

  /** The value after the first `k` items of a batch, if the process survives them. */
  function ApplyFirst(value: int64, items: seq<Item>, k: nat): Option<int64>
    requires k <= |items|
  {
    if k == 0 then Some(value)
    else match ApplyFirst(value, items, k - 1)
      case None => None
      case Some(v) => ApplyItem(v, items[k - 1])
  }

  /** Once an entry has failed to parse, no later entry is applied. */
  lemma {:induction false} NoneIsFinal(value: int64, items: seq<Item>, i: nat, k: nat)
    requires i <= k <= |items| && ApplyFirst(value, items, i).None?
    ensures ApplyFirst(value, items, k).None?
  {
    if i < k {
      NoneIsFinal(value, items, i, k - 1);
    }
  }

  /** The entry carries the request it was submitted with. */
  ghost predicate Faithful(item: Item) {
    item.request.Some? ==> Received(item.request.value) && item.data == Encode(item.request.value)
  }

  /** The same batch has the same outcome, whichever of its entries come with their closures: the
      proposer, taking the amounts from its requests, ends where a follower parsing the log does. */
  lemma {:induction false} PathsAgree(value: int64, a: seq<Item>, b: seq<Item>, k: nat)
    requires k <= |a| == |b|
    requires forall i | 0 <= i < |a| :: a[i].data == b[i].data && Faithful(a[i]) && Faithful(b[i])
    ensures ApplyFirst(value, a, k) == ApplyFirst(value, b, k)
  {
    hide Faithful, DeltaOf, Encode, ParseInt64, Int64Of, Wrap64, Received;
    if k > 0 {
      PathsAgree(value, a, b, k - 1);
      DeltaIsParsed(a[k - 1]);
      DeltaIsParsed(b[k - 1]);
    }
  }

  lemma DeltaIsParsed(item: Item)
    requires Faithful(item)
    ensures DeltaOf(item) == ParseInt64(item.data)
  {
    hide Encode, ParseInt64, Int64Of, Received;
    if item.request.Some? {
      LogCarriesRequest(item.request.value);
    }
  }
}
