/** Adds and gets together: where each takes effect, that its answer is explained by that, and when
    the places respect the order in which callers saw the operations happen. */
module Linearizability {
  import opened Basics
  import opened Messages
  import opened CounterSpec
  import opened Cluster
  import opened ClusterInvariant
  import opened ClusterTheorems
  import opened ClusterRuns
  import opened ClusterLimits
  import opened ClusterReads

  /** A completed operation, between the state in which it began and the one in which it ended: an
      acknowledged fetch_add, or a get answered with success, which tested its leader term at the start
      and loaded the value at the end. */
  datatype Op =
    | Add(begin: State, end: State, call: CallId)
    | Get(begin: State, es: seq<Event>, end: State, n: Peer)

  ghost predicate Happened(op: Op) {
    match op
    case Add(begin, end, call) =>
      Leads(begin, end) && call !in begin.calls && call in end.calls && Acked(end.calls[call])
    case Get(begin, es, end, n) => Survives(begin, es, end, n) && GetSucceeds(begin, end, n)
  }

  /** Its place in the log of a later state `u`: an add stands at its entry, a get between what it has
      read and the rest. Even places are those of gets, odd ones those of entries. */
  ghost predicate PlacedAt(op: Op, u: State, p: nat) {
    match op
    case Add(_, _, call) => exists i :: At(u.log, call, i) && p == 2 * i + 1
    case Get(_, _, end, n) => n < |end.servers| && p == 2 * end.servers[n].applied
  }

  ghost predicate Answered(op: Op, r: Response) {
    match op
    case Add(_, end, call) => call in end.calls && r == end.calls[call].response
    case Get(begin, _, end, n) =>
      && n < |begin.servers| && n < |end.servers|
      && r == HandleGet(end.servers[n].value, begin.servers[n].leaderTerm, None)
  }

  // ---- Runs, end to end ----

  lemma {:induction false} RunConcat(s: State, es: seq<Event>, fs: seq<Event>)
    requires Run(s, es).Some?
    ensures Run(s, es + fs) == Run(Run(s, es).value, fs)
    decreases |es|
  {
    hide Guard, Next;
    if es == [] {
      assert es + fs == fs;
    } else {
      assert (es + fs)[0] == es[0] && (es + fs)[1..] == es[1..] + fs;
      RunConcat(Next(s, es[0]), es[1..], fs);
    }
  }

  lemma LeadsOn(s: State, t: State, u: State)
    requires Leads(s, t) && Leads(t, u)
    ensures Leads(s, u)
  {
    hide Run;
    var es :| Run(s, es) == Some(t);
    var fs :| Run(t, fs) == Some(u);
    RunConcat(s, es, fs);
  }

  lemma ReachableOn(s: State, t: State)
    requires Reachable(s) && Leads(s, t)
    ensures Reachable(t)
  {
    hide Leads, Init;
    var checkTerm, n :| Leads(Init(checkTerm, n), s);
    LeadsOn(Init(checkTerm, n), s, t);
  }

  lemma HappenedLeads(op: Op)
    requires Happened(op)
    ensures Leads(op.begin, op.end)
  {
    hide Run;
  }

  // ---- Every answer is explained ----

  /** Entry `k` is the one of `call`, and the sum before it is what the call was answered with. */
  ghost predicate Explains(end: State, call: CallId, u: State, k: nat) {
    && call in end.calls && At(u.log, call, k)
    && end.calls[call].response == Response(Some(true), Some(Wrap64(Sum(u.log[..k]))), None)
    && forall j | At(u.log, call, j) :: j == k
  }

  lemma AddIsExplained(end: State, call: CallId, u: State)
    requires Reachable(end) && Inv(u) && end.log <= u.log && call in end.calls && Acked(end.calls[call])
    ensures exists k :: Explains(end, call, u, k)
  {
    FetchAddIsAtomic(end, call);
    hide Inv, Reachable, Sum, Wrap64, Delta, Int64Of, Acked;
    var k: nat :| At(end.log, call, k)
      && end.calls[call].response == Response(Some(true), Some(Wrap64(Sum(end.log[..k]))), None);
    assert At(u.log, call, k) && u.log[..k] == end.log[..k];
    forall j | At(u.log, call, j)
      ensures j == k
    {
      OneEntryEach(u, call, j, k);
    }
    assert Explains(end, call, u, k);
  }

  lemma GetIsExplained(begin: State, es: seq<Event>, end: State, n: Peer, u: State)
    requires Reachable(begin) && Survives(begin, es, end, n) && begin.servers[n].leaderTerm > 0
    requires end.log <= u.log
    ensures n < |end.servers| && end.servers[n].applied <= |u.log|
    ensures HandleGet(end.servers[n].value, begin.servers[n].leaderTerm, None)
         == Response(Some(true), Some(Wrap64(Sum(u.log[..end.servers[n].applied]))), None)
  {
    NoStep(end);
    LeaderReads(begin, es, end, end, n, None);
    hide Reachable, Survives, Leads, Sum, Wrap64, HasAcknowledged;
    assert u.log[..end.servers[n].applied] == end.log[..end.servers[n].applied];
  }

  /** There is one place, and the sum of what comes before it is the answer. */
  ghost predicate Explained(op: Op, u: State) {
    && (exists p: nat :: PlacedAt(op, u, p))
    && forall p: nat | PlacedAt(op, u, p) ::
         && (forall q: nat | PlacedAt(op, u, q) :: p == q)
         && p / 2 <= |u.log|
         && Answered(op, Response(Some(true), Some(Wrap64(Sum(u.log[..p / 2]))), None))
  }

  lemma AddExplained(op: Op, u: State, k: nat)
    requires op.Add? && Explains(op.end, op.call, u, k)
    ensures Explained(op, u)
  {
    hide Sum, Wrap64;
    assert PlacedAt(op, u, 2 * k + 1);
    assert (2 * k + 1) / 2 == k;
    assert forall p: nat | PlacedAt(op, u, p) :: p == 2 * k + 1;
  }

  lemma GetExplained(op: Op, u: State)
    requires op.Get? && op.n < |op.begin.servers| && op.n < |op.end.servers| && op.end.servers[op.n].applied <= |u.log|
    requires HandleGet(op.end.servers[op.n].value, op.begin.servers[op.n].leaderTerm, None)
          == Response(Some(true), Some(Wrap64(Sum(u.log[..op.end.servers[op.n].applied]))), None)
    ensures Explained(op, u)
  {
    hide Sum, Wrap64, HandleGet;
    assert PlacedAt(op, u, 2 * op.end.servers[op.n].applied);
  }

  /** An operation has exactly one place, and its answer is the wrapped sum of all that comes before
      it. This holds in groups of any size. */
  lemma AnswersAreExplained(op: Op, u: State)
    requires Reachable(op.begin) && Happened(op) && Leads(op.end, u)
    ensures Explained(op, u)
  {
    hide Reachable, Leads, Inv, Survives, Acked, Sum, Wrap64, Explained, Explains, HandleGet;
    HappenedLeads(op);
    ReachableOn(op.begin, op.end);
    LeadsExtends(op.end, u);
    ReachableInv(op.end);
    LeadsInv(op.end, u);
    if op.Add? {
      AddIsExplained(op.end, op.call, u);
      var k :| Explains(op.end, op.call, u, k);
      AddExplained(op, u, k);
    } else {
      OnlyLeadersAnswer(op.begin, op.end, op.n);
      GetIsExplained(op.begin, op.es, op.end, op.n, u);
      SurvivorStarts(op.begin, op.es, op.end, op.n);
      GetExplained(op, u);
    }
  }

  lemma SurvivorStarts(s: State, es: seq<Event>, t: State, n: Peer)
    requires Survives(s, es, t, n)
    ensures n < |s.servers|
  {
    hide Run;
  }

  // ---- Real time ----

  /** If `a` ended before `b` began, `a` stands before `b`, or both are gets of the same prefix. Places
      are numbers, so this makes them one total order of all operations, up to the order of gets
      with the same answer. */
  ghost predicate Ordered(a: Op, b: Op, u: State) {
    forall p: nat, q: nat | PlacedAt(a, u, p) && PlacedAt(b, u, q) :: p < q || (p == q && a.Get? && b.Get?)
  }

  lemma AddThenAdd(a: Op, b: Op, u: State)
    requires a.Add? && b.Add? && Reachable(a.begin) && Happened(a) && Happened(b)
    requires Leads(a.end, b.begin) && Leads(b.end, u)
    ensures Ordered(a, b, u)
  {
    ReachableOn(a.begin, a.end);
    LeadsExtends(a.end, b.begin);
    LeadsOn(a.end, b.begin, b.end);
    LeadsOn(a.end, b.end, u);
    hide Reachable, Leads, Acked;
    forall p: nat, q: nat | PlacedAt(a, u, p) && PlacedAt(b, u, q)
      ensures p < q
    {
      assert b.call !in a.end.calls;
      var i: nat :| At(u.log, a.call, i) && p == 2 * i + 1;
      var j: nat :| At(u.log, b.call, j) && q == 2 * j + 1;
      RealTimeOrder(a.end, u, a.call, b.call, i, j);
    }
  }

  lemma GetThenAdd(a: Op, b: Op, u: State)
    requires a.Get? && b.Add? && Reachable(a.begin) && Happened(a) && Happened(b)
    requires Leads(a.end, b.begin) && Leads(b.end, u)
    ensures Ordered(a, b, u)
  {
    LeadsExtends(a.end, b.begin);
    LeadsOn(a.end, b.begin, b.end);
    LeadsOn(a.end, b.end, u);
    hide Reachable, Leads, Acked, Survives;
    forall p: nat, q: nat | PlacedAt(a, u, p) && PlacedAt(b, u, q)
      ensures p < q
    {
      assert b.call !in a.end.calls;
      var j: nat :| At(u.log, b.call, j) && q == 2 * j + 1;
      AddsAfterGetsAreLater(a.begin, a.es, a.end, a.n, u, b.call, j);
    }
  }

  /** The get has read the entry of the add. */
  lemma AddIsRead(a: Op, b: Op, u: State)
    requires a.Add? && b.Get? && Reachable(a.begin) && Happened(a) && Happened(b)
    requires Leads(a.end, b.begin) && Leads(b.end, u) && GetsAreCurrent(b.begin)
    ensures Inv(u) && b.n < |b.end.servers|
    ensures exists k :: At(u.log, a.call, k) && k < b.end.servers[b.n].applied
  {
    hide Leads, Acked, Survives, Inv, Reachable, Within, Run;
    ReachableOn(a.begin, a.end);
    AckedHasRun(a.end, a.call);
    AnswersAreFinal(a.end, b.begin, a.call);
    ReachableOn(a.end, b.begin);
    ReachableInv(b.begin);
    SurvivesKeeps(b.begin, b.es, b.end, b.n);
    LeadsInv(b.end, u);
    LeadsExtends(b.end, u);
    assert Current(b.begin, b.end, b.n);
    assert Within(b.end.log, a.call, b.end.servers[b.n].applied);
    WithinStays(b.end.log, u.log, a.call, b.end.servers[b.n].applied);
  }

  lemma AckedHasRun(s: State, call: CallId)
    requires call in s.calls && Acked(s.calls[call])
    ensures s.calls[call].runs == 1
  {
  }

  lemma WithinStays(log: seq<Entry>, log': seq<Entry>, call: CallId, k: nat)
    requires Within(log, call, k) && log <= log'
    ensures exists i :: At(log', call, i) && i < k
  {
    var i :| At(log, call, i) && i < k;
    assert At(log', call, i);
  }

  lemma AddThenGet(a: Op, b: Op, u: State)
    requires a.Add? && b.Get? && Reachable(a.begin) && Happened(a) && Happened(b)
    requires Leads(a.end, b.begin) && Leads(b.end, u) && GetsAreCurrent(b.begin)
    ensures Ordered(a, b, u)
  {
    AddIsRead(a, b, u);
    hide Happened, GetsAreCurrent, Reachable, Leads, Inv;
    var k :| At(u.log, a.call, k) && k < b.end.servers[b.n].applied;
    forall p: nat, q: nat | PlacedAt(a, u, p) && PlacedAt(b, u, q)
      ensures p < q
    {
      var i :| At(u.log, a.call, i) && p == 2 * i + 1;
      OneEntryEach(u, a.call, k, i);
    }
  }

  lemma GetThenGet(a: Op, b: Op, u: State)
    requires a.Get? && b.Get? && Reachable(a.begin) && Solo(a.begin) && Happened(a) && Happened(b)
    requires Leads(a.end, b.begin) && Leads(b.end, u)
    ensures Ordered(a, b, u)
  {
    ReachableInv(a.begin);
    SoloReadsGrow(a.begin, a.es, a.end, a.n, b.begin, b.es, b.end, b.n);
    hide Reachable, Leads, Survives, Inv, ConfigsElected;
  }

  /** In a run of a group, `a` ended before `b` began, and `u` is what came of it. */
  ghost predicate InSequence(checkTerm: bool, n: nat, a: Op, b: Op, u: State) {
    && Leads(Init(checkTerm, n), a.begin) && Happened(a)
    && Leads(a.end, b.begin) && Happened(b) && Leads(b.end, u)
  }

  /** Every pair of operations of every run is ordered by their places. */
  ghost predicate AllOrdered(checkTerm: bool, n: nat) {
    forall a, b, u | InSequence(checkTerm, n, a, b, u) :: Ordered(a, b, u)
  }

  lemma SoloReached(checkTerm: bool, n: nat, s: State)
    requires n <= 1 && Leads(Init(checkTerm, n), s)
    ensures Reachable(s) && Solo(s) && GetsAreCurrent(s)
  {
    hide Run, Init, GetsAreCurrent, Solo, Inv;
    InitIsSolo(checkTerm, n);
    InitInv(checkTerm, n);
    var es :| Run(Init(checkTerm, n), es) == Some(s);
    RunKeepsSolo(Init(checkTerm, n), es);
    Reached(checkTerm, n, s);
    SoloIsCurrent(s);
  }

  lemma SoloOrdered(checkTerm: bool, n: nat, a: Op, b: Op, u: State)
    requires n <= 1 && InSequence(checkTerm, n, a, b, u)
    ensures Ordered(a, b, u)
  {
    hide Init, Leads, Happened, Ordered, Solo, GetsAreCurrent, Reachable;
    HappenedLeads(a);
    SoloReached(checkTerm, n, a.begin);
    LeadsOn(Init(checkTerm, n), a.begin, a.end);
    LeadsOn(Init(checkTerm, n), a.end, b.begin);
    SoloReached(checkTerm, n, b.begin);
    if a.Add? && b.Add? {
      AddThenAdd(a, b, u);
    } else if a.Add? {
      AddThenGet(a, b, u);
    } else if b.Add? {
      GetThenAdd(a, b, u);
    } else {
      GetThenGet(a, b, u);
    }
  }

  lemma StaleIsNotOrdered(checkTerm: bool, n: nat, s: State)
    requires Leads(Init(checkTerm, n), s) && ReadsStale(s)
    ensures !AllOrdered(checkTerm, n)
  {
    var i := Init(checkTerm, n);
    NoStep(i);
    NoStep(s);
    hide Leads, Init;
    var a, b := Add(i, s, 7), Get(s, [], s, 0);
    assert Happened(a) by { InitHasNoCalls(checkTerm, n); }
    assert Happened(b);
    var k :| At(s.log, 7, k) && k < s.servers[1].applied;
    assert PlacedAt(a, s, 2 * k + 1) && PlacedAt(b, s, 2 * s.servers[0].applied);
    assert InSequence(checkTerm, n, a, b, s) && !Ordered(a, b, s);
  }

  lemma InitHasNoCalls(checkTerm: bool, n: nat)
    ensures Init(checkTerm, n).calls == map[]
  {
  }

  /** Adds and gets are linearizable in all runs, by the places that explain their answers, exactly in
      groups of at most one server. */
  lemma LinearizableAlone(checkTerm: bool, n: nat)
    ensures n <= 1 <==> AllOrdered(checkTerm, n)
  {
    hide Leads, Init, InSequence, Ordered, ReadsStale;
    if n <= 1 {
      forall a, b, u | InSequence(checkTerm, n, a, b, u)
        ensures Ordered(a, b, u)
      {
        SoloOrdered(checkTerm, n, a, b, u);
      }
    } else {
      DeposedLeaderReadsStale(checkTerm, n);
      var s :| Leads(Init(checkTerm, n), s) && ReadsStale(s);
      StaleIsNotOrdered(checkTerm, n, s);
    }
  }

  /** In a group of any size, an add at least stands after all that ended before it began. */
  lemma OrderedBeforeAdds(checkTerm: bool, n: nat, a: Op, b: Op, u: State)
    requires InSequence(checkTerm, n, a, b, u) && b.Add?
    ensures Ordered(a, b, u)
  {
    hide Init, Leads, Happened, Ordered;
    Reached(checkTerm, n, a.begin);
    if a.Add? {
      AddThenAdd(a, b, u);
    } else {
      GetThenAdd(a, b, u);
    }
  }
}
