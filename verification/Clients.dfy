/** Any number of senders, each in its loop and with its own amount to add, against the cluster. A
    sender that calls fetch_add may send its request more than once, up to the retries its channel
    allows. What is sent stays in the network until it is delivered, as a call of its own and perhaps
    long after its sender has given up, or for ever. */
module Clients {
  import opened Basics
  import opened Messages
  import opened CounterSpec
  import opened Cluster
  import opened ClusterInvariant
  import opened ClusterTheorems
  import opened ClusterRuns
  import Sender

  /** An RPC under way: how often it was sent, and the calls that have become of it. */
  datatype Outgoing = Outgoing(sent: nat, calls: set<CallId>)

  /** One sender, with its tallies: fetch_adds attempted, requests sent, and successes seen. */
  datatype Client = Client(
    addedBy: int64,
    table: Option<Peer>,
    outgoing: Option<Outgoing>,
    attempts: nat,
    sent: nat,
    acks: nat)

  /** A request in the network, of the sender's `rpc`-th attempt. */
  datatype Request = Request(k: nat, rpc: nat, to: Peer, amount: int64)

  datatype World = World(cluster: State, retries: nat, clients: seq<Client>, network: seq<Request>)

  datatype Action =
    | Inside(e: Event)                                  // a step of the servers and their logs
    | Other(k: nat, turn: Sender.Turn)                  // a turn that sends no fetch_add
    | Begin(k: nat)                                     // a turn that does
    | Send(k: nat)                                      // the request, once or again
    | Deliver(i: nat, call: CallId, serializes: bool, leader: Option<Peer>)
    | Finish(k: nat, turn: Sender.Turn, call: CallId)   // the RPC ends, and with it the turn

  predicate Internal(e: Event) {
    !e.Receive? && !e.LoseRequest? && !e.Acknowledge?
  }

  function Received(r: Request, call: CallId, serializes: bool, leader: Option<Peer>): Event {
    Receive(call, r.to, Encode(Int64Message(r.amount)), serializes, leader)
  }

  /** The reply is the response of one of the calls that have become of this RPC. */
  predicate Answers(w: World, out: Outgoing, reply: Sender.Reply, call: CallId) {
    reply.Replied? ==>
      && call in out.calls && call in w.cluster.calls && w.cluster.calls[call].runs > 0
      && w.cluster.calls[call].response.success == Some(reply.success)
      && (!reply.success ==> reply.redirect == w.cluster.calls[call].response.redirect)
  }

  predicate CanAct(w: World, a: Action) {
    match a
    case Inside(e) => Internal(e) && Guard(w.cluster, e)
    case Other(k, turn) =>
      && k < |w.clients| && w.clients[k].outgoing.None?
      && !(turn.isAdd && Sender.Sends(w.clients[k].table, turn))
    case Begin(k) => k < |w.clients| && w.clients[k].outgoing.None? && w.clients[k].table.Some?
    case Send(k) =>
      && k < |w.clients| && w.clients[k].outgoing.Some? && w.clients[k].table.Some?
      && w.clients[k].outgoing.value.sent <= w.retries
    case Deliver(i, call, serializes, leader) =>
      i < |w.network| && Guard(w.cluster, Received(w.network[i], call, serializes, leader))
    case Finish(k, turn, call) =>
      && k < |w.clients| && w.clients[k].outgoing.Some?
      && turn.isAdd && Sender.Sends(w.clients[k].table, turn)
      && Answers(w, w.clients[k].outgoing.value, turn.reply, call)
  }

  function SetClient(w: World, k: nat, c: Client): World
    requires k < |w.clients|
  {
    w.(clients := w.clients[k := c])
  }

  function Sent(c: Client): Client
    requires c.outgoing.Some?
  {
    c.(sent := c.sent + 1, outgoing := Some(c.outgoing.value.(sent := c.outgoing.value.sent + 1)))
  }

  /** The RPC has ended. */
  function Done(c: Client, turn: Sender.Turn): Client {
    c.(table := Sender.NextLeader(c.table, turn), outgoing := None,
       acks := c.acks + if Sender.Succeeds(c.table, turn) then 1 else 0)
  }

  /** The sender still waits for the attempt that `r` belongs to. */
  predicate Awaits(cs: seq<Client>, r: Request) {
    r.k < |cs| && cs[r.k].outgoing.Some? && cs[r.k].attempts == r.rpc
  }

  function Joined(cs: seq<Client>, r: Request, call: CallId): seq<Client> {
    if !Awaits(cs, r) then cs
    else
      var out := cs[r.k].outgoing.value;
      cs[r.k := cs[r.k].(outgoing := Some(out.(calls := out.calls + {call})))]
  }

  function After(w: World, a: Action): World
    requires CanAct(w, a)
  {
    match a
    case Inside(e) => w.(cluster := Next(w.cluster, e))
    case Other(k, turn) =>
      SetClient(w, k, w.clients[k].(table := Sender.NextLeader(w.clients[k].table, turn)))
    case Begin(k) =>
      SetClient(w, k, w.clients[k].(outgoing := Some(Outgoing(0, {})), attempts := w.clients[k].attempts + 1))
    case Send(k) =>
      var c := w.clients[k];
      SetClient(w, k, Sent(c)).(network := w.network + [Request(k, c.attempts, c.table.value, c.addedBy)])
    case Deliver(i, call, serializes, leader) =>
      var r := w.network[i];
      World(Next(w.cluster, Received(r, call, serializes, leader)), w.retries,
            Joined(w.clients, r, call), w.network[..i] + w.network[i + 1..])
    case Finish(k, turn, call) =>
      var success := Sender.Succeeds(w.clients[k].table, turn);
      SetClient(w, k, Done(w.clients[k], turn))
      .(cluster := if success then Next(w.cluster, Acknowledge(call)) else w.cluster)
  }

  function Acting(w: World, actions: seq<Action>): Option<World>
    decreases |actions|
  {
    if actions == [] then Some(w)
    else if CanAct(w, actions[0]) then Acting(After(w, actions[0]), actions[1..])
    else None
  }

  // ---- Tallies over all senders, in what they would add ----

  function Wanted(cs: seq<Client>): int {
    if cs == [] then 0 else Times(cs[0].addedBy, cs[0].attempts) + Wanted(cs[1..])
  }

  function Offered(cs: seq<Client>): int {
    if cs == [] then 0 else Times(cs[0].addedBy, cs[0].sent) + Offered(cs[1..])
  }

  function Acknowledged(cs: seq<Client>): int {
    if cs == [] then 0 else Times(cs[0].addedBy, cs[0].acks) + Acknowledged(cs[1..])
  }

  function InTransit(rs: seq<Request>): int {
    if rs == [] then 0 else rs[0].amount + InTransit(rs[1..])
  }

  lemma {:induction false} TalliesUpdate(cs: seq<Client>, k: nat, c: Client)
    requires k < |cs|
    ensures Wanted(cs[k := c]) == Wanted(cs) - Times(cs[k].addedBy, cs[k].attempts) + Times(c.addedBy, c.attempts)
    ensures Offered(cs[k := c]) == Offered(cs) - Times(cs[k].addedBy, cs[k].sent) + Times(c.addedBy, c.sent)
    ensures Acknowledged(cs[k := c]) == Acknowledged(cs) - Times(cs[k].addedBy, cs[k].acks) + Times(c.addedBy, c.acks)
    decreases |cs|
  {
    hide Times;
    if k > 0 {
      TalliesUpdate(cs[1..], k - 1, c);
      assert cs[k := c][1..] == cs[1..][k - 1 := c];
    }
  }

  lemma {:induction false} TransitConcat(a: seq<Request>, b: seq<Request>)
    ensures InTransit(a + b) == InTransit(a) + InTransit(b)
    decreases |a|
  {
    if a == [] {
      assert a + b == b;
    } else {
      assert (a + b)[1..] == a[1..] + b;
      TransitConcat(a[1..], b);
    }
  }

  lemma TransitOne(r: Request)
    ensures InTransit([r]) == r.amount
  {
  }

  lemma TransitWithout(rs: seq<Request>, i: nat)
    requires i < |rs|
    ensures InTransit(rs[..i] + rs[i + 1..]) == InTransit(rs) - rs[i].amount
  {
    hide InTransit;
    TransitConcat(rs[..i], rs[i + 1..]);
    TransitConcat(rs[..i] + [rs[i]], rs[i + 1..]);
    TransitConcat(rs[..i], [rs[i]]);
    TransitOne(rs[i]);
    assert rs[..i] + [rs[i]] + rs[i + 1..] == rs;
  }

  // ---- The invariant ----

  /** A sender sends each of its requests at most once more than it may retry. */
  predicate Sparing(c: Client, retries: nat) {
    && (c.outgoing.Some? ==> c.outgoing.value.sent <= retries + 1 && c.attempts > 0)
    && c.sent <= if c.outgoing.Some? then Times(retries + 1, c.attempts - 1) + c.outgoing.value.sent
                 else Times(retries + 1, c.attempts)
  }

  ghost predicate SparingInv(cs: seq<Client>, retries: nat) {
    forall k | 0 <= k < |cs| :: Sparing(cs[k], retries)
  }

  function CallsOf(c: Client): set<CallId> {
    if c.outgoing.Some? then c.outgoing.value.calls else {}
  }

  /** The calls a sender waits for are known, ask for its amount and are not acknowledged. */
  ghost predicate Waits(c: Client, calls: map<CallId, Call>, acked: set<CallId>) {
    && CallsOf(c) <= calls.Keys && CallsOf(c) !! acked
    && forall x | x in CallsOf(c) :: Int64Of(calls[x].request) == c.addedBy
  }

  /** And they are no one else's. */
  ghost predicate OutgoingInv(cs: seq<Client>, calls: map<CallId, Call>, acked: set<CallId>) {
    && (forall k | 0 <= k < |cs| :: Waits(cs[k], calls, acked))
    && (forall j, k | 0 <= j < |cs| && 0 <= k < |cs| && j != k :: CallsOf(cs[j]) !! CallsOf(cs[k]))
  }

  ghost predicate NetworkInv(cs: seq<Client>, rs: seq<Request>) {
    forall i | 0 <= i < |rs| :: rs[i].k < |cs| && rs[i].amount == cs[rs[i].k].addedBy
  }

  /** What was sent has been received or is in the network; what senders have seen acknowledged has
      been. */
  ghost predicate TalliesInv(s: State, cs: seq<Client>, rs: seq<Request>) {
    && s.acked <= s.calls.Keys
    && Amounts(s.calls, s.calls.Keys) + InTransit(rs) == Offered(cs)
    && Amounts(s.calls, s.acked) == Acknowledged(cs)
  }

  ghost predicate WorldInv(w: World) {
    && Inv(w.cluster)
    && OutgoingInv(w.clients, w.cluster.calls, w.cluster.acked)
    && NetworkInv(w.clients, w.network)
    && SparingInv(w.clients, w.retries)
    && TalliesInv(w.cluster, w.clients, w.network)
  }

  // ---- Frames ----

  /** The calls there were still ask for what they asked for. */
  ghost predicate SameRequests(calls: map<CallId, Call>, after: map<CallId, Call>) {
    calls.Keys <= after.Keys && forall c | c in calls :: after[c].request == calls[c].request
  }

  lemma {:induction false} AmountsSame(calls: map<CallId, Call>, after: map<CallId, Call>, ids: set<CallId>)
    requires SameRequests(calls, after) && ids <= calls.Keys
    ensures Amounts(after, ids) == Amounts(calls, ids)
    decreases |ids|
  {
    hide Int64Of;
    if ids != {} {
      var x :| x in ids;
      AmountsPick(calls, ids, x);
      AmountsPick(after, ids, x);
      AmountsSame(calls, after, ids - {x});
    }
  }

  lemma OutgoingSame(cs: seq<Client>, calls: map<CallId, Call>, after: map<CallId, Call>, acked: set<CallId>)
    requires OutgoingInv(cs, calls, acked) && SameRequests(calls, after)
    ensures OutgoingInv(cs, after, acked)
  {
    hide Int64Of, CallsOf;
    forall k | 0 <= k < |cs|
      ensures Waits(cs[k], after, acked)
    {
      assert Waits(cs[k], calls, acked);
    }
  }

  /** One client changes. */
  lemma OutgoingUpdate(cs: seq<Client>, k: nat, c: Client, calls: map<CallId, Call>, acked: set<CallId>)
    requires k < |cs| && OutgoingInv(cs, calls, acked) && Waits(c, calls, acked)
    requires forall j | 0 <= j < |cs| && j != k :: CallsOf(cs[j]) !! CallsOf(c)
    ensures OutgoingInv(cs[k := c], calls, acked)
  {
    hide Waits, CallsOf;
    var ds := cs[k := c];
    assert forall j | 0 <= j < |cs| && j != k :: ds[j] == cs[j];
  }

  /** It changes, but not what it waits for. */
  lemma OutgoingKept(cs: seq<Client>, k: nat, c: Client, calls: map<CallId, Call>, acked: set<CallId>)
    requires k < |cs| && OutgoingInv(cs, calls, acked)
    requires CallsOf(c) == CallsOf(cs[k]) && c.addedBy == cs[k].addedBy
    ensures OutgoingInv(cs[k := c], calls, acked)
  {
    assert Waits(cs[k], calls, acked);
    hide CallsOf;
    OutgoingUpdate(cs, k, c, calls, acked);
  }

  lemma NetworkUpdate(cs: seq<Client>, k: nat, c: Client, rs: seq<Request>)
    requires k < |cs| && c.addedBy == cs[k].addedBy && NetworkInv(cs, rs)
    ensures NetworkInv(cs[k := c], rs)
  {
  }

  lemma SparingUpdate(cs: seq<Client>, k: nat, c: Client, retries: nat)
    requires k < |cs| && SparingInv(cs, retries) && (Sparing(cs[k], retries) ==> Sparing(c, retries))
    ensures SparingInv(cs[k := c], retries)
  {
    hide Sparing;
  }

  // ---- Each action keeps it ----

  lemma ApplyKeepsRequests(s: State, n: Peer)
    requires Guard(s, Apply(n))
    ensures var t := DoApply(s, n);
            t.acked == s.acked && t.calls.Keys == s.calls.Keys && SameRequests(s.calls, t.calls)
  {
    CrashShape(s, n);
    hide DoCrash, ParseInt64, Int64Of, Wrap64, Encode;
  }

  /** The steps inside the group leave the callers' side alone. */
  lemma InternalKeeps(s: State, e: Event)
    requires Guard(s, e) && Internal(e)
    ensures var t := Next(s, e);
            t.acked == s.acked && t.calls.Keys == s.calls.Keys && SameRequests(s.calls, t.calls)
  {
    hide DoCrash, DoApply, ParseInt64, Int64Of, Encode, Parse;
    if e.Crash? {
      CrashShape(s, e.n);
    } else if e.Apply? {
      ApplyKeepsRequests(s, e.n);
    }
  }

  lemma InsideStep(w: World, e: Event)
    requires WorldInv(w) && CanAct(w, Inside(e))
    ensures WorldInv(After(w, Inside(e)))
  {
    hide Inv, Guard, Next, OutgoingInv, NetworkInv, SparingInv, SameRequests, InTransit, Amounts;
    var s, t := w.cluster, Next(w.cluster, e);
    StepKeepsInv(s, e);
    InternalKeeps(s, e);
    OutgoingSame(w.clients, s.calls, t.calls, s.acked);
    AmountsSame(s.calls, t.calls, s.calls.Keys);
    AmountsSame(s.calls, t.calls, s.acked);
  }

  /** A client whose tallies of sent and acknowledged requests and whose calls stay as they were. */
  lemma ClientStep(w: World, k: nat, c: Client)
    requires WorldInv(w) && k < |w.clients| && CallsOf(c) == CallsOf(w.clients[k])
    requires c.addedBy == w.clients[k].addedBy && c.sent == w.clients[k].sent && c.acks == w.clients[k].acks
    requires Sparing(w.clients[k], w.retries) ==> Sparing(c, w.retries)
    ensures WorldInv(SetClient(w, k, c))
  {
    hide Inv, OutgoingInv, NetworkInv, SparingInv, Sparing, CallsOf, Times, Offered, Acknowledged, InTransit, Amounts;
    TalliesUpdate(w.clients, k, c);
    OutgoingKept(w.clients, k, c, w.cluster.calls, w.cluster.acked);
    NetworkUpdate(w.clients, k, c, w.network);
    SparingUpdate(w.clients, k, c, w.retries);
  }

  lemma OtherStep(w: World, k: nat, turn: Sender.Turn)
    requires WorldInv(w) && CanAct(w, Other(k, turn))
    ensures WorldInv(After(w, Other(k, turn)))
  {
    hide WorldInv, Guard, Times;
    ClientStep(w, k, w.clients[k].(table := Sender.NextLeader(w.clients[k].table, turn)));
  }

  lemma BeginStep(w: World, k: nat)
    requires WorldInv(w) && CanAct(w, Begin(k))
    ensures WorldInv(After(w, Begin(k)))
  {
    hide WorldInv, Guard, Times;
    ClientStep(w, k, After(w, Begin(k)).clients[k]);
  }

  lemma TalliesSent(s: State, cs: seq<Client>, k: nat, rs: seq<Request>, r: Request)
    requires TalliesInv(s, cs, rs) && k < |cs| && cs[k].outgoing.Some? && r.amount == cs[k].addedBy
    ensures TalliesInv(s, cs[k := Sent(cs[k])], rs + [r])
  {
    hide Times, Wanted, Offered, Acknowledged, InTransit, Amounts;
    TalliesUpdate(cs, k, Sent(cs[k]));
    OneMore(cs[k].addedBy, cs[k].sent);
    TransitConcat(rs, [r]);
    TransitOne(r);
  }

  lemma NetworkSent(cs: seq<Client>, k: nat, rs: seq<Request>, r: Request)
    requires NetworkInv(cs, rs) && k < |cs| && cs[k].outgoing.Some? && r.k == k && r.amount == cs[k].addedBy
    ensures NetworkInv(cs[k := Sent(cs[k])], rs + [r])
  {
  }

  lemma SparingSent(c: Client, retries: nat)
    requires c.outgoing.Some? && c.outgoing.value.sent <= retries
    ensures Sparing(c, retries) ==> Sparing(Sent(c), retries)
  {
    hide Times;
  }

  lemma SendStep(w: World, k: nat)
    requires WorldInv(w) && CanAct(w, Send(k))
    ensures WorldInv(After(w, Send(k)))
  {
    var c := w.clients[k];
    var r := Request(k, c.attempts, c.table.value, c.addedBy);
    hide Inv, Guard, OutgoingInv, NetworkInv, SparingInv, TalliesInv, Sparing, Next;
    TalliesSent(w.cluster, w.clients, k, w.network, r);
    OutgoingKept(w.clients, k, Sent(c), w.cluster.calls, w.cluster.acked);
    NetworkSent(w.clients, k, w.network, r);
    SparingSent(c, w.retries);
    SparingUpdate(w.clients, k, Sent(c), w.retries);
  }

  /** A delivered request is one more call, for the amount it carries. */
  lemma ReceiveAdds(s: State, call: CallId, n: Peer, d: int64, serializes: bool, leader: Option<Peer>)
    requires Guard(s, Receive(call, n, Encode(Int64Message(d)), serializes, leader))
    ensures var t := Next(s, Receive(call, n, Encode(Int64Message(d)), serializes, leader));
            && t.acked == s.acked && t.calls.Keys == s.calls.Keys + {call}
            && call !in s.calls && Int64Of(t.calls[call].request) == d
            && SameRequests(s.calls, t.calls)
  {
    RequestParses(d);
    SignedRoundTrip(d);
    assert Int64Of(Int64Message(d)) == d;
    hide Encode, Parse, ParseInt64, Int64Of, Int64Message;
    ReceiveShape(s, call, n, Encode(Int64Message(d)), serializes, leader);
  }

  /** The new call joins what its sender waits for, if it still does. */
  lemma OutgoingJoined(cs: seq<Client>, r: Request, call: CallId, calls: map<CallId, Call>, after: map<CallId, Call>,
                       acked: set<CallId>)
    requires OutgoingInv(cs, calls, acked) && SameRequests(calls, after) && acked <= calls.Keys
    requires call !in calls && call in after && Int64Of(after[call].request) == r.amount
    requires r.k < |cs| && r.amount == cs[r.k].addedBy
    ensures OutgoingInv(Joined(cs, r, call), after, acked)
  {
    OutgoingSame(cs, calls, after, acked);
    if Awaits(cs, r) {
      var c := Joined(cs, r, call)[r.k];
      assert CallsOf(c) == CallsOf(cs[r.k]) + {call};
      hide CallsOf, SameRequests, Int64Of;
      assert forall j | 0 <= j < |cs| :: Waits(cs[j], calls, acked);
      assert Waits(cs[r.k], after, acked);
      OutgoingUpdate(cs, r.k, c, after, acked);
    }
  }

  lemma JoinedKeeps(cs: seq<Client>, r: Request, call: CallId, rs: seq<Request>, retries: nat)
    requires NetworkInv(cs, rs) && SparingInv(cs, retries)
    ensures var ds := Joined(cs, r, call);
            && NetworkInv(ds, rs) && SparingInv(ds, retries)
            && Offered(ds) == Offered(cs) && Acknowledged(ds) == Acknowledged(cs)
  {
    hide NetworkInv, SparingInv, Times, Offered, Acknowledged;
    if Awaits(cs, r) {
      var c := Joined(cs, r, call)[r.k];
      TalliesUpdate(cs, r.k, c);
      NetworkUpdate(cs, r.k, c, rs);
      SparingUpdate(cs, r.k, c, retries);
    }
  }

  /** One more call has been received, and nothing acknowledged. */
  lemma AmountsReceived(s: State, t: State, call: CallId, d: int)
    requires s.acked <= s.calls.Keys && t.acked == s.acked && t.calls.Keys == s.calls.Keys + {call}
    requires call !in s.calls && Int64Of(t.calls[call].request) == d && SameRequests(s.calls, t.calls)
    ensures Amounts(t.calls, t.calls.Keys) == Amounts(s.calls, s.calls.Keys) + d
    ensures Amounts(t.calls, t.acked) == Amounts(s.calls, s.acked)
  {
    hide SameRequests, Int64Of, Amounts;
    AmountsSame(s.calls, t.calls, s.calls.Keys);
    AmountsSame(s.calls, t.calls, s.acked);
    AmountsAdd(t.calls, s.calls.Keys, call);
  }

  lemma TalliesReceived(s: State, t: State, call: CallId, cs: seq<Client>, ds: seq<Client>, rs: seq<Request>, i: nat)
    requires TalliesInv(s, cs, rs) && i < |rs| && Offered(ds) == Offered(cs) && Acknowledged(ds) == Acknowledged(cs)
    requires t.acked == s.acked && t.calls.Keys == s.calls.Keys + {call}
    requires call !in s.calls && Int64Of(t.calls[call].request) == rs[i].amount && SameRequests(s.calls, t.calls)
    ensures TalliesInv(t, ds, rs[..i] + rs[i + 1..])
  {
    hide SameRequests, Int64Of, Offered, Acknowledged, InTransit, Amounts;
    AmountsReceived(s, t, call, rs[i].amount);
    TransitWithout(rs, i);
  }

  lemma DeliverStep(w: World, i: nat, call: CallId, serializes: bool, leader: Option<Peer>)
    requires WorldInv(w) && CanAct(w, Deliver(i, call, serializes, leader))
    ensures WorldInv(After(w, Deliver(i, call, serializes, leader)))
  {
    var r := w.network[i];
    var e := Received(r, call, serializes, leader);
    var s, t, rest := w.cluster, Next(w.cluster, e), w.network[..i] + w.network[i + 1..];
    assert NetworkInv(w.clients, rest) && r.k < |w.clients| && r.amount == w.clients[r.k].addedBy;
    assert s.acked <= s.calls.Keys;
    hide *;
    DeliverParts(w, i, call, serializes, leader);
    StepKeepsInv(s, e);
    ReceiveAdds(s, call, r.to, r.amount, serializes, leader);
    OutgoingJoined(w.clients, r, call, s.calls, t.calls, s.acked);
    JoinedKeeps(w.clients, r, call, rest, w.retries);
    TalliesReceived(s, t, call, w.clients, Joined(w.clients, r, call), w.network, i);
    WorldParts(After(w, Deliver(i, call, serializes, leader)));
  }

  lemma DeliverParts(w: World, i: nat, call: CallId, serializes: bool, leader: Option<Peer>)
    requires WorldInv(w) && CanAct(w, Deliver(i, call, serializes, leader))
    ensures i < |w.network|
    ensures var r := w.network[i];
            var e := Received(r, call, serializes, leader);
            && e == Receive(call, r.to, Encode(Int64Message(r.amount)), serializes, leader)
            && Guard(w.cluster, e)
            && After(w, Deliver(i, call, serializes, leader))
               == World(Next(w.cluster, e), w.retries, Joined(w.clients, r, call), w.network[..i] + w.network[i + 1..])
    ensures Inv(w.cluster) && OutgoingInv(w.clients, w.cluster.calls, w.cluster.acked)
    ensures SparingInv(w.clients, w.retries) && TalliesInv(w.cluster, w.clients, w.network)
  {
    hide Inv, OutgoingInv, NetworkInv, SparingInv, TalliesInv, Guard, Next, Joined, Encode, Int64Message;
  }

  lemma WorldParts(w: World)
    requires Inv(w.cluster) && OutgoingInv(w.clients, w.cluster.calls, w.cluster.acked)
    requires NetworkInv(w.clients, w.network) && SparingInv(w.clients, w.retries)
    requires TalliesInv(w.cluster, w.clients, w.network)
    ensures WorldInv(w)
  {
    hide Inv, OutgoingInv, NetworkInv, SparingInv, TalliesInv;
  }

  lemma OneTurnMore(r: nat, n: nat, sent: nat)
    requires sent <= r + 1 && n > 0
    ensures Times(r + 1, n - 1) + sent <= Times(r + 1, n)
  {
    OneMore(r + 1, n - 1);
  }

  lemma SparingDone(c: Client, d: Client, retries: nat)
    requires c.outgoing.Some? && d.outgoing.None? && d.attempts == c.attempts && d.sent == c.sent
    ensures Sparing(c, retries) ==> Sparing(d, retries)
  {
    hide Times;
    if Sparing(c, retries) {
      OneTurnMore(retries, c.attempts, c.outgoing.value.sent);
    }
  }

  /** The RPC ends, with some of its calls acknowledged. */
  lemma OutgoingDone(cs: seq<Client>, k: nat, c: Client, ids: set<CallId>, calls: map<CallId, Call>, acked: set<CallId>)
    requires k < |cs| && c.outgoing.None? && ids <= CallsOf(cs[k]) && OutgoingInv(cs, calls, acked)
    ensures OutgoingInv(cs[k := c], calls, acked + ids)
    ensures forall x | x in ids :: x in calls && x !in acked && Int64Of(calls[x].request) == cs[k].addedBy
  {
    assert CallsOf(c) == {};
    hide CallsOf, Int64Of;
    assert Waits(cs[k], calls, acked);
    var ds := cs[k := c];
    assert forall j | 0 <= j < |cs| && j != k :: ds[j] == cs[j];
    forall j | 0 <= j < |ds|
      ensures Waits(ds[j], calls, acked + ids)
    {
      assert j != k ==> Waits(cs[j], calls, acked);
    }
  }

  lemma AcknowledgeKeeps(s: State, call: CallId)
    requires Inv(s) && Guard(s, Acknowledge(call))
    ensures Inv(Next(s, Acknowledge(call)))
    ensures Next(s, Acknowledge(call)) == s.(acked := s.acked + {call})
  {
    hide Inv;
    StepKeepsInv(s, Acknowledge(call));
  }

  lemma TalliesDone(s: State, cs: seq<Client>, k: nat, c: Client, ids: set<CallId>, rs: seq<Request>)
    requires TalliesInv(s, cs, rs) && k < |cs| && c.addedBy == cs[k].addedBy && c.sent == cs[k].sent
    requires ids == {} ==> c.acks == cs[k].acks
    requires ids != {} ==> c.acks == cs[k].acks + 1 && exists x :: ids == {x}
    requires forall x | x in ids :: x in s.calls && x !in s.acked && Int64Of(s.calls[x].request) == cs[k].addedBy
    ensures TalliesInv(s.(acked := s.acked + ids), cs[k := c], rs)
  {
    hide Times, Wanted, Offered, Acknowledged, InTransit, Amounts, Int64Of;
    TalliesUpdate(cs, k, c);
    if ids == {} {
      assert s.acked + ids == s.acked;
    } else {
      var x :| ids == {x};
      assert x in ids;
      AmountsAdd(s.calls, s.acked, x);
      OneMore(c.addedBy, cs[k].acks);
    }
  }

  lemma DoneKeeps(w: World, k: nat, c: Client, ids: set<CallId>)
    requires WorldInv(w) && k < |w.clients| && w.clients[k].outgoing.Some? && ids <= CallsOf(w.clients[k])
    requires c == w.clients[k].(table := c.table, outgoing := None, acks := c.acks)
    requires ids == {} ==> c.acks == w.clients[k].acks
    requires ids != {} ==> c.acks == w.clients[k].acks + 1 && exists x :: ids == {x}
    requires Inv(w.cluster.(acked := w.cluster.acked + ids))
    ensures WorldInv(SetClient(w, k, c).(cluster := w.cluster.(acked := w.cluster.acked + ids)))
  {
    hide Inv, OutgoingInv, NetworkInv, SparingInv, TalliesInv, CallsOf, Sparing;
    SparingDone(w.clients[k], c, w.retries);
    SparingUpdate(w.clients, k, c, w.retries);
    NetworkUpdate(w.clients, k, c, w.network);
    OutgoingDone(w.clients, k, c, ids, w.cluster.calls, w.cluster.acked);
    TalliesDone(w.cluster, w.clients, k, c, ids, w.network);
  }

  lemma FinishParts(w: World, k: nat, turn: Sender.Turn, call: CallId)
    requires WorldInv(w) && CanAct(w, Finish(k, turn, call))
    ensures k < |w.clients| && w.clients[k].outgoing.Some? && Inv(w.cluster)
    ensures Sender.Succeeds(w.clients[k].table, turn) ==>
              call in CallsOf(w.clients[k]) && Guard(w.cluster, Acknowledge(call))
    ensures After(w, Finish(k, turn, call))
         == SetClient(w, k, Done(w.clients[k], turn))
            .(cluster := if Sender.Succeeds(w.clients[k].table, turn) then Next(w.cluster, Acknowledge(call))
                         else w.cluster)
  {
    hide Inv, OutgoingInv, NetworkInv, SparingInv, TalliesInv, Next;
  }

  lemma FinishStep(w: World, k: nat, turn: Sender.Turn, call: CallId)
    requires WorldInv(w) && CanAct(w, Finish(k, turn, call))
    ensures WorldInv(After(w, Finish(k, turn, call)))
  {
    FinishParts(w, k, turn, call);
    hide WorldInv, CanAct, After, Inv, Guard, Next, CallsOf;
    var ids: set<CallId> := if Sender.Succeeds(w.clients[k].table, turn) then {call} else {};
    if Sender.Succeeds(w.clients[k].table, turn) {
      AcknowledgeKeeps(w.cluster, call);
    } else {
      assert w.cluster.acked + ids == w.cluster.acked;
      assert w.cluster.(acked := w.cluster.acked + ids) == w.cluster;
    }
    DoneKeeps(w, k, Done(w.clients[k], turn), ids);
  }

  lemma ActionKeepsInv(w: World, a: Action)
    requires WorldInv(w) && CanAct(w, a)
    ensures WorldInv(After(w, a))
  {
    hide WorldInv, CanAct, After;
    match a
    case Inside(e) => InsideStep(w, e);
    case Other(k, turn) => OtherStep(w, k, turn);
    case Begin(k) => BeginStep(w, k);
    case Send(k) => SendStep(w, k);
    case Deliver(i, call, serializes, leader) => DeliverStep(w, i, call, serializes, leader);
    case Finish(k, turn, call) => FinishStep(w, k, turn, call);
  }

  /** Who adds what, and how often it may retry, does not change. */
  ghost predicate SameSenders(w: World, v: World) {
    && v.retries == w.retries && |v.clients| == |w.clients|
    && forall k | 0 <= k < |w.clients| :: v.clients[k].addedBy == w.clients[k].addedBy
  }

  lemma ActionKeepsSenders(w: World, a: Action)
    requires CanAct(w, a)
    ensures SameSenders(w, After(w, a))
  {
    hide Guard, Next, Encode, Int64Message;
  }

  lemma {:induction false} ActingKeepsInv(w: World, actions: seq<Action>)
    requires WorldInv(w) && Acting(w, actions).Some?
    ensures WorldInv(Acting(w, actions).value) && SameSenders(w, Acting(w, actions).value)
    decreases |actions|
  {
    hide WorldInv, CanAct, After;
    if actions != [] {
      ActionKeepsInv(w, actions[0]);
      ActionKeepsSenders(w, actions[0]);
      ActingKeepsInv(After(w, actions[0]), actions[1..]);
    }
  }

  // ---- Conservation ----

  /** A group in any state it can reach without having been called, senders about to start, and an
      empty network. */
  ghost predicate Begins(w: World) {
    && Reachable(w.cluster) && w.cluster.calls == map[] && w.cluster.acked == {}
    && w.network == []
    && forall k | 0 <= k < |w.clients| ::
         w.clients[k] == Client(w.clients[k].addedBy, w.clients[k].table, None, 0, 0, 0)
  }

  lemma {:induction false} NoTallies(cs: seq<Client>)
    requires forall k | 0 <= k < |cs| :: cs[k] == Client(cs[k].addedBy, cs[k].table, None, 0, 0, 0)
    ensures Wanted(cs) == Offered(cs) == Acknowledged(cs) == 0
    decreases |cs|
  {
    if cs != [] {
      NoTallies(cs[1..]);
    }
  }

  lemma BeginsInv(w: World)
    requires Begins(w)
    ensures WorldInv(w)
  {
    ReachableInv(w.cluster);
    NoTallies(w.clients);
    NoAmounts(w.cluster.calls);
    assert w.cluster.calls.Keys == {};
    hide Inv, Reachable, Wanted, Offered, Acknowledged;
  }

  predicate NoneNegative(cs: seq<Client>) {
    forall k | 0 <= k < |cs| :: cs[k].addedBy >= 0
  }

  /** Every call asks for what some sender adds. */
  ghost predicate CallsInv(s: State, cs: seq<Client>) {
    forall c | c in s.calls :: exists k | 0 <= k < |cs| :: Int64Of(s.calls[c].request) == cs[k].addedBy
  }

  lemma CallsFrame(s: State, t: State, cs: seq<Client>, ds: seq<Client>)
    requires CallsInv(s, cs) && t.calls.Keys == s.calls.Keys && SameRequests(s.calls, t.calls)
    requires |ds| == |cs| && forall k | 0 <= k < |cs| :: ds[k].addedBy == cs[k].addedBy
    ensures CallsInv(t, ds)
  {
    hide Int64Of;
    forall c | c in t.calls
      ensures exists k | 0 <= k < |ds| :: Int64Of(t.calls[c].request) == ds[k].addedBy
    {
      assert c in t.calls.Keys;
      var k :| 0 <= k < |cs| && Int64Of(s.calls[c].request) == cs[k].addedBy;
      assert ds[k].addedBy == cs[k].addedBy;
    }
  }

  lemma CallsReceived(s: State, t: State, cs: seq<Client>, ds: seq<Client>, call: CallId, j: nat)
    requires CallsInv(s, cs) && t.calls.Keys == s.calls.Keys + {call} && SameRequests(s.calls, t.calls)
    requires |ds| == |cs| && forall k | 0 <= k < |cs| :: ds[k].addedBy == cs[k].addedBy
    requires j < |cs| && Int64Of(t.calls[call].request) == cs[j].addedBy
    ensures CallsInv(t, ds)
  {
    hide Int64Of;
    forall c | c in t.calls
      ensures exists k | 0 <= k < |ds| :: Int64Of(t.calls[c].request) == ds[k].addedBy
    {
      assert c in t.calls.Keys;
      if c in s.calls {
        var k :| 0 <= k < |cs| && Int64Of(s.calls[c].request) == cs[k].addedBy;
        assert ds[k].addedBy == cs[k].addedBy;
      } else {
        assert ds[j].addedBy == cs[j].addedBy;
      }
    }
  }

  lemma SameRequestsAgain(calls: map<CallId, Call>)
    ensures SameRequests(calls, calls)
  {
  }

  lemma ActionKeepsCalls(w: World, a: Action)
    requires WorldInv(w) && CallsInv(w.cluster, w.clients) && CanAct(w, a)
    ensures CallsInv(After(w, a).cluster, After(w, a).clients)
  {
    var v := After(w, a);
    ActionKeepsSenders(w, a);
    SameRequestsAgain(w.cluster.calls);
    if a.Deliver? {
      DeliverParts(w, a.i, a.call, a.serializes, a.leader);
      var r := w.network[a.i];
      assert r.k < |w.clients| && r.amount == w.clients[r.k].addedBy;
      hide WorldInv, CanAct, After, Guard, Next, SameRequests, CallsInv, Encode, Int64Message, Joined, Int64Of;
      ReceiveAdds(w.cluster, a.call, r.to, r.amount, a.serializes, a.leader);
      CallsReceived(w.cluster, v.cluster, w.clients, v.clients, a.call, r.k);
    } else {
      if a.Inside? {
        InternalKeeps(w.cluster, a.e);
      }
      SameCalls(w, a);
      hide WorldInv, CanAct, After, SameRequests, CallsInv;
      CallsFrame(w.cluster, v.cluster, w.clients, v.clients);
    }
  }

  /** Only delivering a request makes a call. */
  lemma SameCalls(w: World, a: Action)
    requires CanAct(w, a) && !a.Deliver?
    requires a.Inside? ==> var t := Next(w.cluster, a.e);
               t.calls.Keys == w.cluster.calls.Keys && SameRequests(w.cluster.calls, t.calls)
    ensures After(w, a).cluster.calls.Keys == w.cluster.calls.Keys
    ensures SameRequests(w.cluster.calls, After(w, a).cluster.calls)
  {
    SameRequestsAgain(w.cluster.calls);
    if a.Finish? && Sender.Succeeds(w.clients[a.k].table, a.turn) {
      AcknowledgeSame(w.cluster, a.call);
    }
    hide Next, SameRequests;
  }

  lemma AcknowledgeSame(s: State, call: CallId)
    requires Guard(s, Acknowledge(call))
    ensures Next(s, Acknowledge(call)).calls == s.calls
  {
  }

  lemma {:induction false} ActingKeepsCalls(w: World, actions: seq<Action>)
    requires WorldInv(w) && CallsInv(w.cluster, w.clients) && Acting(w, actions).Some?
    ensures CallsInv(Acting(w, actions).value.cluster, Acting(w, actions).value.clients)
    decreases |actions|
  {
    hide WorldInv, CallsInv, CanAct, After;
    if actions != [] {
      ActionKeepsInv(w, actions[0]);
      ActionKeepsCalls(w, actions[0]);
      ActingKeepsCalls(After(w, actions[0]), actions[1..]);
    }
  }

  lemma TimesMore(d: nat, m: nat, n: nat)
    requires m <= n
    ensures 0 <= Times(d, m) <= Times(d, n)
  {
  }

  lemma TimesTwice(d: int, r: nat, n: nat)
    ensures r * n >= 0 && Times(d, r * n) == r * Times(d, n)
  {
    assert d * (r * n) == r * (d * n);
  }

  lemma OneClientSparing(c: Client, retries: nat)
    requires Sparing(c, retries) && c.addedBy >= 0
    ensures 0 <= Times(c.addedBy, c.sent) <= (retries + 1) * Times(c.addedBy, c.attempts)
  {
    assert c.sent <= (retries + 1) * c.attempts by {
      if c.outgoing.Some? {
        OneTurnMore(retries, c.attempts, c.outgoing.value.sent);
      }
    }
    hide Times, Sparing;
    TimesMore(c.addedBy, c.sent, (retries + 1) * c.attempts);
    TimesTwice(c.addedBy, retries + 1, c.attempts);
  }

  lemma {:induction false} SparingAll(cs: seq<Client>, retries: nat)
    requires SparingInv(cs, retries) && NoneNegative(cs)
    ensures 0 <= Offered(cs) <= (retries + 1) * Wanted(cs)
    decreases |cs|
  {
    hide Times, Sparing;
    if cs != [] {
      SparingAll(cs[1..], retries);
      OneClientSparing(cs[0], retries);
    }
  }

  lemma {:induction false} NothingNegativeInTransit(cs: seq<Client>, rs: seq<Request>)
    requires NetworkInv(cs, rs) && NoneNegative(cs)
    ensures InTransit(rs) >= 0
    decreases |rs|
  {
    if rs != [] {
      assert rs[0].amount == cs[rs[0].k].addedBy;
      NothingNegativeInTransit(cs, rs[1..]);
    }
  }

  lemma CallsAreNotNegative(s: State, cs: seq<Client>)
    requires CallsInv(s, cs) && NoneNegative(cs)
    ensures forall c | c in s.calls :: Int64Of(s.calls[c].request) >= 0
  {
    hide Int64Of;
  }

  /** What the senders have seen acknowledged is a lower bound of the committed value, and what they
      have sent an upper one, which is at most (retries + 1) times what they meant to add: for any
      senders, from any tables, whatever happens to the group, however long requests stay in the
      network, unless the counter itself wraps. */
  lemma SendersConserve(w: World, actions: seq<Action>)
    requires Begins(w) && Acting(w, actions).Some? && NoneNegative(w.clients)
    requires Sum(Acting(w, actions).value.cluster.log) < TWO_63
    ensures var v := Acting(w, actions).value;
            && Acknowledged(v.clients) <= Fold(v.cluster.log) <= Offered(v.clients)
            && Offered(v.clients) <= (v.retries + 1) * Wanted(v.clients)
            && (v.retries == 0 ==> Fold(v.cluster.log) <= Wanted(v.clients))
  {
    hide *;
    BeginsInv(w);
    BeginsCalls(w);
    ActingKeepsInv(w, actions);
    ActingKeepsCalls(w, actions);
    StillNotNegative(w, Acting(w, actions).value);
    WorldConserves(Acting(w, actions).value);
  }

  lemma BeginsCalls(w: World)
    requires Begins(w)
    ensures CallsInv(w.cluster, w.clients)
  {
    hide Reachable;
  }

  lemma StillNotNegative(w: World, v: World)
    requires SameSenders(w, v) && NoneNegative(w.clients)
    ensures NoneNegative(v.clients)
  {
  }

  lemma WorldConserves(w: World)
    requires WorldInv(w) && CallsInv(w.cluster, w.clients) && NoneNegative(w.clients) && Sum(w.cluster.log) < TWO_63
    ensures Sum(w.cluster.log) == Fold(w.cluster.log)
    ensures Acknowledged(w.clients) <= Fold(w.cluster.log) <= Offered(w.clients)
    ensures Offered(w.clients) <= (w.retries + 1) * Wanted(w.clients)
    ensures w.retries == 0 ==> Fold(w.cluster.log) <= Wanted(w.clients)
  {
    hide Inv, OutgoingInv, NetworkInv, SparingInv, CallsInv, NoneNegative;
    hide Fold, Sum, Int64Of, Wrap64, Amounts, Wanted, Offered, Acknowledged, InTransit;
    CallsAreNotNegative(w.cluster, w.clients);
    SumBetween(w.cluster);
    SparingAll(w.clients, w.retries);
    NothingNegativeInTransit(w.clients, w.network);
    FoldIsWrappedSum(w.cluster.log);
    WrapSmall(Sum(w.cluster.log));
  }

  // ---- The tallies count what happened ----

  datatype Tally = Attempts | Requests | Successes

  predicate Counts(what: Tally, k: nat, a: Action) {
    match what
    case Attempts => a == Begin(k)
    case Requests => a == Send(k)
    case Successes => a.Finish? && a.k == k && a.turn.reply.Replied? && a.turn.reply.success
  }

  function Occurrences(what: Tally, k: nat, actions: seq<Action>): nat {
    if actions == [] then 0
    else (if Counts(what, k, actions[0]) then 1 else 0) + Occurrences(what, k, actions[1..])
  }

  function Tallied(what: Tally, c: Client): nat {
    match what
    case Attempts => c.attempts
    case Requests => c.sent
    case Successes => c.acks
  }

  lemma OneActionTallied(w: World, a: Action, k: nat, what: Tally)
    requires CanAct(w, a) && k < |w.clients|
    ensures |After(w, a).clients| == |w.clients|
    ensures Tallied(what, After(w, a).clients[k])
         == Tallied(what, w.clients[k]) + if Counts(what, k, a) then 1 else 0
  {
    hide Guard, Next, Received, Answers;
  }

  /** Over any run, each sender has counted exactly its attempts, its requests and its successes. */
  lemma {:induction false} TalliesAreCounts(w: World, actions: seq<Action>, k: nat, what: Tally)
    requires Acting(w, actions).Some? && k < |w.clients|
    ensures |Acting(w, actions).value.clients| == |w.clients|
    ensures Tallied(what, Acting(w, actions).value.clients[k])
         == Tallied(what, w.clients[k]) + Occurrences(what, k, actions)
    decreases |actions|
  {
    hide CanAct, After, Counts, Tallied;
    if actions != [] {
      OneActionTallied(w, actions[0], k, what);
      TalliesAreCounts(After(w, actions[0]), actions[1..], k, what);
    }
  }
}
