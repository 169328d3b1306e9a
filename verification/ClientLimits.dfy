/** When counting attempts is enough: what one retry too many does, and exactly when it matters. */
module ClientLimits {
  import opened Basics
  import opened Messages
  import opened CounterSpec
  import opened Cluster
  import opened ClusterInvariant
  import opened ClusterTheorems
  import opened ClusterRuns
  import opened Clients

  ghost predicate Makes(w: World, v: World) {
    exists actions :: Acting(w, actions) == Some(v)
  }

  lemma {:induction false} ActThen(w: World, actions: seq<Action>, a: Action)
    requires Acting(w, actions).Some? && CanAct(Acting(w, actions).value, a)
    ensures Acting(w, actions + [a]) == Some(After(Acting(w, actions).value, a))
    decreases |actions|
  {
    hide CanAct, After;
    if actions == [] {
      assert ([] + [a])[1..] == [];
    } else {
      assert (actions + [a])[1..] == actions[1..] + [a];
      ActThen(After(w, actions[0]), actions[1..], a);
    }
  }

  lemma Act(w: World, v: World, a: Action, u: World)
    requires Makes(w, v) && CanAct(v, a) && u == After(v, a)
    ensures Makes(w, u)
  {
    hide CanAct, After, Acting;
    var actions :| Acting(w, actions) == Some(v);
    ActThen(w, actions, a);
  }

  lemma Stay(w: World)
    ensures Makes(w, w)
  {
    assert Acting(w, []) == Some(w);
  }

  /** One sender, knowing the leader of a group of one. */
  function OneSender(d: int64, retries: nat): World {
    World(FirstLeader(true, 1), retries, [Client(d, Some(0), None, 0, 0, 0)], [])
  }

  lemma OneSenderBegins(d: int64, retries: nat)
    ensures Begins(OneSender(d, retries))
  {
    hide Run;
    FirstLeaderLeads(true, 1);
    Reached(true, 1, FirstLeader(true, 1));
  }

  /** Where the cluster stands when calls 7 and 8, each adding `d`, wait at its leader. */
  function BothWaiting(d: int64): State {
    var request, s := Int64Message(d), FirstLeader(true, 1);
    var c, queued := Call(0, request, 1, BLANK, 0, 1, 0, false, false), Queued(Encode(request), 1);
    s.(attempts := 2, calls := map[7 := c, 8 := c],
       servers := s.servers[0 := LEADING.(closures := map[7 := queued, 8 := queued])])
  }

  /** The sender has sent its request twice. */
  function SentTwice(d: int64, retries: nat): World {
    OneSender(d, retries).(
      clients := [Client(d, Some(0), Some(Outgoing(2, {})), 1, 2, 0)],
      network := [Request(0, 1, 0, d), Request(0, 1, 0, d)])
  }

  lemma TwiceSent(d: int64, retries: nat)
    requires retries > 0
    ensures Makes(OneSender(d, retries), SentTwice(d, retries))
  {
    hide Acting, Guard, Next, FirstLeader;
    var w0 := OneSender(d, retries);
    Stay(w0);
    var w1 := After(w0, Begin(0));
    Act(w0, w0, Begin(0), w1);
    var w2 := After(w1, Send(0));
    Act(w0, w1, Send(0), w2);
    var w3 := After(w2, Send(0));
    Act(w0, w2, Send(0), w3);
    assert w3.network == SentTwice(d, retries).network && w3.clients == SentTwice(d, retries).clients;
  }

  lemma BothReceived(d: int64, retries: nat)
    requires retries > 0
    ensures Makes(OneSender(d, retries),
                  World(BothWaiting(d), retries, [Client(d, Some(0), Some(Outgoing(2, {7, 8})), 1, 2, 0)], []))
  {
    TwiceSent(d, retries);
    hide Encode, Parse, Acting, DoAccept, DoApply, DoRunClosure, DoSave, DoLoad, DoCrash, Int64Message;
    RequestParses(d);
    assert Int64Message(d).known.Some? by { Int64RoundTrip(d); }
    var w0, w1 := OneSender(d, retries), SentTwice(d, retries);
    var w2 := After(w1, Deliver(0, 7, true, None));
    Act(w0, w1, Deliver(0, 7, true, None), w2);
    assert w2.network == [Request(0, 1, 0, d)];
    var w3 := After(w2, Deliver(0, 8, true, None));
    Act(w0, w2, Deliver(0, 8, true, None), w3);
    assert w3.network == [] && {} + {7} == {7} && {7} + {8} == {7, 8};
    assert w3.cluster == BothWaiting(d);
    assert w3.clients == [Client(d, Some(0), Some(Outgoing(2, {7, 8})), 1, 2, 0)];
  }

  function LogOfTwo(d: int64): seq<Entry> {
    [Config(1), Data(1, 7, Encode(Int64Message(d))), Data(1, 8, Encode(Int64Message(d)))]
  }

  /** Both are accepted and committed. */
  lemma BothCommitted(w: World, v: World, d: int64)
    requires Makes(w, v) && v.cluster == BothWaiting(d)
    ensures exists u :: Makes(w, u) && u == v.(cluster := u.cluster) && u.cluster.log == LogOfTwo(d)
  {
    hide Encode, Parse, Acting, DoReceive, DoApply, DoRunClosure, DoSave, DoLoad, DoCrash, Int64Message;
    assert v.cluster.log[0] == Config(1);
    var v1 := After(v, Inside(Accept(0, 7)));
    Act(w, v, Inside(Accept(0, 7)), v1);
    var v2 := After(v1, Inside(Accept(0, 8)));
    Act(w, v1, Inside(Accept(0, 8)), v2);
    var v3 := After(v2, Inside(Commit(7)));
    Act(w, v2, Inside(Commit(7)), v3);
    assert v3.cluster.log[0] == Config(1);
    var v4 := After(v3, Inside(Commit(8)));
    Act(w, v3, Inside(Commit(8)), v4);
  }

  lemma SumOfTwo(d: int64)
    ensures Sum(LogOfTwo(d)) == 2 * d
  {
    Int64RoundTrip(d);
    hide Encode, ParseInt64, Int64Message;
    var bytes, log := Encode(Int64Message(d)), LogOfTwo(d);
    assert log[..0] == [] && log[..1] == [Config(1)] && log[..2] == [Config(1), Data(1, 7, bytes)] && log[..3] == log;
    CommittedOfNothing();
    SumNext(log, 0);
    SumNext(log, 1);
    SumNext(log, 2);
  }

  lemma SumFits(log: seq<Entry>)
    requires 0 <= Sum(log) < TWO_63
    ensures Fold(log) == Sum(log)
  {
    hide Fold, Sum, Wrap64;
    FoldIsWrappedSum(log);
    WrapSmall(Sum(log));
  }

  ghost predicate AllAdd(cs: seq<Client>, d: int64) {
    forall k | 0 <= k < |cs| :: cs[k].addedBy == d
  }

  /** For senders that all add `d`, the committed value never exceeds what they meant to add, in any
      run in which the counter does not wrap, exactly if nothing is retried, or the adds are of
      nothing, or two of them are more than the counter holds. */
  lemma RetriesDecide(d: int64, retries: nat)
    requires d >= 0
    ensures retries == 0 || d == 0 || 2 * d >= TWO_63 <==>
              forall w, v | Begins(w) && AllAdd(w.clients, d) && w.retries == retries && Makes(w, v)
                            && Sum(v.cluster.log) < TWO_63 ::
                Fold(v.cluster.log) <= Wanted(v.clients)
  {
    hide Begins, Makes, Fold, Sum, Wanted, OneSender, BothWaiting, AllAdd, LogOfTwo;
    if retries == 0 || d == 0 || 2 * d >= TWO_63 {
      forall w, v | Begins(w) && AllAdd(w.clients, d) && w.retries == retries && Makes(w, v)
                    && Sum(v.cluster.log) < TWO_63
        ensures Fold(v.cluster.log) <= Wanted(v.clients)
      {
        NoneTooMany(w, v, d);
      }
    } else {
      BothReceived(d, retries);
      OneSenderBegins(d, retries);
      SettingsOfOneSender(d, retries);
      var w := OneSender(d, retries);
      var v := World(BothWaiting(d), retries, [Client(d, Some(0), Some(Outgoing(2, {7, 8})), 1, 2, 0)], []);
      BothCommitted(w, v, d);
      var u :| Makes(w, u) && u == v.(cluster := u.cluster) && u.cluster.log == LogOfTwo(d);
      SumOfTwo(d);
      SumFits(LogOfTwo(d));
      WantedOfOne(v.clients[0]);
      assert u.clients == [v.clients[0]];
    }
  }

  lemma SettingsOfOneSender(d: int64, retries: nat)
    ensures OneSender(d, retries).retries == retries && AllAdd(OneSender(d, retries).clients, d)
  {
  }

  lemma WantedOfOne(c: Client)
    requires c.attempts == 1
    ensures Wanted([c]) == c.addedBy
  {
    assert [c][1..] == [];
    assert Times(c.addedBy, 1) == c.addedBy;
  }

  lemma NoneTooMany(w: World, v: World, d: int64)
    requires Begins(w) && AllAdd(w.clients, d) && d >= 0 && Makes(w, v) && Sum(v.cluster.log) < TWO_63
    requires w.retries == 0 || d == 0 || 2 * d >= TWO_63
    ensures Fold(v.cluster.log) <= Wanted(v.clients)
  {
    hide Begins, Acting, WorldInv, CallsInv, Sum, Fold, Wanted, Offered, Acknowledged;
    var actions :| Acting(w, actions) == Some(v);
    BeginsInv(w);
    BeginsCalls(w);
    ActingKeepsInv(w, actions);
    assert AllAdd(v.clients, d) && NoneNegative(v.clients) && v.retries == w.retries;
    hide *;
    ActingKeepsCalls(w, actions);
    WorldConserves(v);
    CommittedBound(v, d);
    WantedIsMultiple(v.clients, d);
    Multiples(d, Wanted(v.clients), Fold(v.cluster.log), Offered(v.clients), v.retries,
              Attempts(v.clients), |Committed(v.cluster.log)|);
  }

  /** What is committed adds `d` for every committed call. */
  lemma CommittedBound(w: World, d: int64)
    requires WorldInv(w) && CallsInv(w.cluster, w.clients) && AllAdd(w.clients, d)
    ensures Sum(w.cluster.log) == Times(d, |Committed(w.cluster.log)|)
  {
    hide Inv, OutgoingInv, NetworkInv, SparingInv, TalliesInv, Sum, Times, Committed, Int64Of, Amounts;
    LogIsAmounts(w.cluster);
    EqualAmounts(w.cluster.calls, Committed(w.cluster.log), d);
  }

  function Attempts(cs: seq<Client>): nat {
    if cs == [] then 0 else cs[0].attempts + Attempts(cs[1..])
  }

  lemma {:induction false} WantedIsMultiple(cs: seq<Client>, d: int64)
    requires AllAdd(cs, d)
    ensures Wanted(cs) == Times(d, Attempts(cs))
    decreases |cs|
  {
    if cs == [] {
      NoneAtAll(d);
    } else {
      WantedIsMultiple(cs[1..], d);
      TimesSum(d, cs[0].attempts, Attempts(cs[1..]));
    }
  }

  lemma TimesSum(d: int, m: nat, n: nat)
    ensures Times(d, m + n) == Times(d, m) + Times(d, n)
  {
  }

  lemma Multiples(d: nat, wanted: int, value: int, offered: int, retries: nat, attempts: nat, committed: nat)
    requires wanted == Times(d, attempts) && value == Times(d, committed) < TWO_63
    requires value <= offered <= (retries + 1) * wanted
    requires retries == 0 || d == 0 || 2 * d >= TWO_63
    ensures value <= wanted
  {
    assert Times(d, 0) == 0 && Times(d, 1) == d && Times(d, 2) == 2 * d;
    assert wanted == 0 ==> (retries + 1) * wanted == 0;
    if retries > 0 && d > 0 {
      if committed >= 2 {
        TimesMore(d, 2, committed);
      } else if committed == 1 && attempts > 0 {
        TimesMore(d, 1, attempts);
      }
    }
  }
}
