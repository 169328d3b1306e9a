/** What holds in every state the cluster can reach, and over every run. */
module ClusterTheorems {
  import opened Basics
  import opened Messages
  import opened CounterSpec
  import opened Cluster
  import opened ClusterInvariant

  ghost predicate Leads(s: State, t: State) {
    exists es :: Run(s, es) == Some(t)
  }

  ghost predicate Reachable(s: State) {
    exists checkTerm, n :: Leads(Init(checkTerm, n), s)
  }

  lemma ReachableInv(s: State)
    requires Reachable(s)
    ensures Inv(s)
  {
    hide Inv, Init, Run;
    var checkTerm, n :| Leads(Init(checkTerm, n), s);
    var es :| Run(Init(checkTerm, n), es) == Some(s);
    InitInv(checkTerm, n);
    RunKeepsInv(Init(checkTerm, n), es);
  }

  lemma LeadsInv(s: State, t: State)
    requires Inv(s) && Leads(s, t)
    ensures Inv(t)
  {
    hide Inv, Run;
    var es :| Run(s, es) == Some(t);
    RunKeepsInv(s, es);
  }

  // ---- Replica agreement ----

  /** Wrapping at every step or once at the end gives the same value. */
  lemma {:induction false} FoldIsWrappedSum(log: seq<Entry>)
    ensures Fold(log) == Wrap64(Sum(log))
  {
    hide Delta;
    if log != [] {
      FoldIsWrappedSum(log[..|log| - 1]);
      WrapAdd(Sum(log[..|log| - 1]), Delta(log[|log| - 1]));
    }
  }

  lemma ValueOfPrefix(s: State, n: Peer)
    requires Inv(s) && n < |s.servers|
    ensures s.servers[n].applied <= |s.log|
    ensures s.servers[n].value == Wrap64(Sum(s.log[..s.servers[n].applied]))
  {
    hide LogInv, CallInv, ClosureInv, ClientInv, Encode, Fold, Sum;
    assert ServerInv(s, n);
    FoldIsWrappedSum(s.log[..s.servers[n].applied]);
  }

  /** Every replica holds the wrapped sum of the prefix it has applied, however it got there; so
      replicas that have applied equally much agree. */
  lemma ReplicaAgreement(s: State, n: Peer, m: Peer)
    requires Reachable(s) && n < |s.servers| && m < |s.servers|
    ensures s.servers[n].applied <= |s.log|
    ensures s.servers[n].value == Wrap64(Sum(s.log[..s.servers[n].applied]))
    ensures s.servers[n].applied == s.servers[m].applied ==> s.servers[n].value == s.servers[m].value
  {
    ReachableInv(s);
    ValueOfPrefix(s, n);
    ValueOfPrefix(s, m);
    hide *;
  }

  /** An apply changes its server's value, progress and closures, and the calls; or it aborts. */
  lemma ApplyShape(s: State, n: Peer)
    requires Guard(s, Apply(n))
    ensures var t, sv, e := DoApply(s, n), s.servers[n], s.log[s.servers[n].applied];
            || (t == DoCrash(s, n) && e.Data? && ParseInt64(e.bytes).None?)
            || (&& t == s.(servers := t.servers, calls := t.calls) && |t.servers| == |s.servers|
                && s.calls.Keys <= t.calls.Keys
                && (forall m | 0 <= m < |s.servers| && m != n :: t.servers[m] == s.servers[m])
                && t.servers[n]
                   == sv.(value := t.servers[n].value, applied := sv.applied + 1, closures := Phases(t, n)))
  {
    hide Encode, ParseInt64, Int64Of, Wrap64, DoCrash;
  }

  /** No process ever dies on an entry that does not parse: an apply always applies. */
  lemma ApplyNeverAborts(s: State, n: Peer)
    requires Reachable(s) && Guard(s, Apply(n))
    ensures var e := s.log[s.servers[n].applied]; e.Data? ==> ParseInt64(e.bytes).Some?
    ensures n < |DoApply(s, n).servers| && DoApply(s, n).servers[n].applied == s.servers[n].applied + 1
  {
    ReachableInv(s);
    hide Encode, ParseInt64, Int64Of, Inv, DoCrash, DoApply, Reachable;
    ApplyShape(s, n);
    if s.log[s.servers[n].applied].Data? {
      CommittedBytesParse(s, s.servers[n].applied);
    }
  }

  /** What on_apply is shown of some entries: the bytes of the tasks. */
  function DataOf(entries: seq<Entry>): seq<Bytes> {
    if entries == [] then []
    else
      var last := entries[|entries| - 1];
      DataOf(entries[..|entries| - 1]) + if last.Data? then [last.bytes] else []
  }

  /** `items` begins with the tasks of `entries`, some of them with the requests they carry. */
  ghost predicate Shows(items: seq<Item>, entries: seq<Entry>) {
    var shown := DataOf(entries);
    && |shown| <= |items|
    && forall j | 0 <= j < |shown| :: items[j].data == shown[j] && Faithful(items[j])
  }

  lemma ShownNext(items: seq<Item>, log: seq<Entry>, i: nat, k: nat)
    requires i < k <= |log| && Shows(items, log[i..k])
    ensures Shows(items, log[i..k - 1])
    ensures var m, e := |DataOf(log[i..k - 1])|, log[k - 1];
            if e.Config? then |DataOf(log[i..k])| == m
            else |DataOf(log[i..k])| == m + 1 && items[m].data == e.bytes && Faithful(items[m])
  {
    hide Faithful;
    assert log[i..k][..k - 1 - i] == log[i..k - 1];
  }

  lemma ApplyNext(value: int64, items: seq<Item>, m: nat, e: Entry)
    requires m < |items| && ApplyFirst(value, items, m).Some?
    requires e.Data? && items[m].data == e.bytes && Faithful(items[m]) && ParseInt64(e.bytes).Some?
    ensures ApplyFirst(value, items, m + 1) == Some(Wrap64(ApplyFirst(value, items, m).value + Delta(e)))
  {
    hide ParseInt64, Faithful, DeltaOf, Wrap64;
    DeltaIsParsed(items[m]);
  }

  lemma {:induction false} BatchFolds(s: State, i: nat, k: nat, items: seq<Item>)
    requires Inv(s) && i <= k <= |s.log| && Shows(items, s.log[i..k])
    ensures |DataOf(s.log[i..k])| <= |items|
    ensures ApplyFirst(Fold(s.log[..i]), items, |DataOf(s.log[i..k])|) == Some(Fold(s.log[..k]))
    decreases k
  {
    hide Inv, Faithful, Fold, Delta, Wrap64, ApplyItem;
    if i < k {
      ShownNext(items, s.log, i, k);
      BatchFolds(s, i, k - 1, items);
      FoldNext(s.log, k - 1);
      assert k - 1 + 1 == k;
      hide *;
      if s.log[k - 1].Data? {
        CommittedBytesParse(s, k - 1);
        ApplyNext(Fold(s.log[..i]), items, |DataOf(s.log[i..k - 1])|, s.log[k - 1]);
      }
    }
  }

  /** One call of on_apply, for any stretch of the log and whichever of its tasks come with their
      closures, takes the counter from the fold of what was applied before to the fold of all; and
      so does the part of the batch before any one task, whose call is answered with that. */
  lemma BatchIsFold(s: State, i: nat, k: nat, items: seq<Item>)
    requires Reachable(s) && i <= k <= |s.log| && Shows(items, s.log[i..k])
    ensures ApplyFirst(Fold(s.log[..i]), items, |DataOf(s.log[i..k])|) == Some(Fold(s.log[..k]))
  {
    ReachableInv(s);
    hide *;
    BatchFolds(s, i, k, items);
  }

  // ---- Snapshots ----

  /** Replaying entries on top of a value. */
  function Replay(value: int64, entries: seq<Entry>): int64 {
    if entries == [] then value
    else Wrap64(Replay(value, entries[..|entries| - 1]) + Delta(entries[|entries| - 1]))
  }

  lemma {:induction false} ReplayAfterFold(log: seq<Entry>, i: nat, k: nat)
    requires i <= k <= |log|
    ensures Replay(Fold(log[..i]), log[i..k]) == Fold(log[..k])
    decreases k
  {
    hide Delta, Wrap64;
    if i < k {
      ReplayAfterFold(log, i, k - 1);
      assert log[i..k][..k - i - 1] == log[i..k - 1];
      assert log[..k][..k - 1] == log[..k - 1];
    }
  }

  /** A published snapshot holds the fold at its tag, whatever was applied while it was being
      written; loading it and replaying what follows is replaying the whole log. */
  lemma SnapshotIsolation(s: State, n: Peer, k: nat)
    requires Reachable(s) && n < |s.servers| && s.servers[n].stored.Some?
    requires s.servers[n].stored.value.index <= k <= |s.log|
    ensures var snapshot := s.servers[n].stored.value;
            && snapshot.index <= |s.log|
            && ParseInt64(snapshot.file) == Some(Fold(s.log[..snapshot.index]))
            && Replay(ParseInt64(snapshot.file).value, s.log[snapshot.index..k]) == Fold(s.log[..k])
  {
    hide LogInv, CallInv, ClosureInv, ClientInv, Encode, ParseInt64, Fold, Replay;
    ReachableInv(s);
    assert ServerInv(s, n);
    var index := s.servers[n].stored.value.index;
    Int64RoundTrip(Fold(s.log[..index]));
    ReplayAfterFold(s.log, index, k);
  }

  /** What the background thread writes is what was captured, not what the counter holds by then. */
  lemma SaveWritesTheCapture(s: State, n: Peer, t: State, k: nat)
    requires Reachable(s) && n < |s.servers| && Leads(Next(s, Capture(n)), t)
    requires n < |t.servers| && k < |t.servers[n].jobs| && t.servers[n].jobs[k].index == s.servers[n].applied
    ensures t.servers[n].jobs[k].value == s.servers[n].value
    ensures DoSave(t.servers[n], k, true).stored
         == Some(Snapshot(s.servers[n].applied, Encode(Int64Message(s.servers[n].value))))
  {
    hide LogInv, CallInv, ClosureInv, ClientInv, Encode, ParseInt64, Fold;
    ReachableInv(s);
    CaptureStep(s, n);
    LeadsInv(Next(s, Capture(n)), t);
    assert ServerInv(s, n) && ServerInv(t, n);
    hide Inv;
    LeadsExtends(Next(s, Capture(n)), t);
    FoldOfPrefix(s, t, s.servers[n].applied);
  }

  // ---- Growth over a run ----

  lemma CrashOrApplyExtends(s: State, e: Event)
    requires Guard(s, e) && (e.Crash? || e.Apply?)
    ensures Extends(s, Next(s, e))
    ensures s.calls.Keys <= Next(s, e).calls.Keys
  {
    hide DoCrash, DoApply, DoReceive, DoAccept, DoRunClosure, DoSave, DoLoad, Parse, ParseInt64;
    CrashShape(s, e.n);
    if e.Apply? {
      ApplyShape(s, e.n);
    }
  }

  lemma StepExtends(s: State, e: Event)
    requires Guard(s, e)
    ensures Extends(s, Next(s, e))
    ensures s.calls.Keys <= Next(s, e).calls.Keys
  {
    if e.Crash? || e.Apply? {
      hide *;
      CrashOrApplyExtends(s, e);
    } else {
      hide Encode, ParseInt64, Int64Of, Parse, DoCrash, DoApply, DoReceive;
      if e.Receive? {
        ReceiveShape(s, e.call, e.n, e.wire, e.serializes, e.leader);
      }
    }
  }

  lemma {:induction false} RunExtends(s: State, es: seq<Event>)
    requires Run(s, es).Some?
    ensures Extends(s, Run(s, es).value)
    ensures s.calls.Keys <= Run(s, es).value.calls.Keys
    decreases |es|
  {
    hide Guard, Next;
    if es != [] {
      StepExtends(s, es[0]);
      RunExtends(Next(s, es[0]), es[1..]);
    }
  }

  lemma LeadsExtends(s: State, t: State)
    requires Leads(s, t)
    ensures Extends(s, t) && s.calls.Keys <= t.calls.Keys
  {
    hide Run;
    var es :| Run(s, es) == Some(t);
    RunExtends(s, es);
  }

  // ---- Linearizability ----

  predicate Acked(c: Call) {
    c.runs == 1 && c.response.success == Some(true)
  }

  /** Every successful fetch_add took effect at exactly one place of the log, added what its
      caller asked for, and returned the wrapped sum of everything before that place. */
  lemma FetchAddIsAtomic(s: State, call: CallId)
    requires Reachable(s) && call in s.calls && Acked(s.calls[call])
    ensures exists i ::
              && At(s.log, call, i)
              && Delta(s.log[i]) == Int64Of(s.calls[call].request)
              && s.calls[call].response == Response(Some(true), Some(Wrap64(Sum(s.log[..i]))), None)
              && forall j | At(s.log, call, j) :: j == i
  {
    hide Encode, ParseInt64, Int64Of, Fold, Sum, ServerInv, Delta, Wrap64;
    ReachableInv(s);
    assert CallInv(s, call);
    var i :| At(s.log, call, i)
      && s.calls[call].response == Response(Some(true), Some(Fold(s.log[..i])), None);
    CommittedBytesParse(s, i);
    FoldIsWrappedSum(s.log[..i]);
    hide Inv, LogInv;
  }

  lemma LoggedCallsAreKnown(s: State, call: CallId)
    requires Inv(s) && call !in s.calls
    ensures !Logged(s.log, call)
  {
    hide Encode, ServerInv, CallInv, ClientInv;
    assert forall i | 0 <= i < |s.log| && s.log[i].Data? :: EntryInv(s, s.log[i]);
  }

  lemma AckedIsLogged(s: State, call: CallId)
    requires Inv(s) && call in s.calls && Acked(s.calls[call])
    ensures Logged(s.log, call)
  {
    hide LogInv, ServerInv, ClientInv, Encode, ParseInt64, Int64Of;
    assert CallInv(s, call);
  }

  /** A call that completed before another was received comes before it in the log. */
  lemma RealTimeOrder(s: State, t: State, a: CallId, b: CallId, i: nat, j: nat)
    requires Reachable(s) && Leads(s, t)
    requires a in s.calls && Acked(s.calls[a]) && b !in s.calls
    requires At(t.log, a, i) && At(t.log, b, j)
    ensures i < j
  {
    ReachableInv(s);
    LeadsInv(s, t);
    LeadsExtends(s, t);
    AckedIsLogged(s, a);
    LoggedCallsAreKnown(s, b);
    InvParts(t);
    hide Inv, Leads, Reachable, EntryInv, TaskInv;
    var k :| At(s.log, a, k);
    assert At(t.log, a, k);
    assert j < |s.log| ==> At(s.log, b, j);
  }

  // ---- Completion ----

  /** Each call's `done` is run at most once, and is otherwise held by exactly one closure, at the
      server that took the call, or went down with that server's process. A closure is allocated
      at most once and deleted exactly when its `done` has run; the response is not touched after. */
  lemma ExactlyOnceCompletion(s: State, call: CallId)
    requires Reachable(s) && call in s.calls
    ensures var c := s.calls[call];
            && c.node < |s.servers|
            && (c.runs == 1 <==> call !in Phases(s, c.node) && !c.lost) && c.runs <= 1
            && (call in Phases(s, c.node) ==> !c.lost)
            && (forall n | 0 <= n < |s.servers| && call in Phases(s, n) :: n == c.node)
            && c.news <= 1 && c.deletes == (if c.runs == 1 then c.news else 0)
            && !c.late
  {
    hide Encode, ParseInt64, Int64Of, Fold, LogInv, ValueInv, LeaderInv;
    ReachableInv(s);
    assert CallInv(s, call);
    forall n | 0 <= n < |s.servers| && call in Phases(s, n)
      ensures n == s.calls[call].node
    {
      assert ServerInv(s, n);
      assert ClosureInv(s, n, call, Phases(s, n)[call]);
    }
  }

  /** A completed call reports the truth: a success carries the value and was committed; anything
      else is a failure without a value, and only a failure redirects. */
  lemma TruthfulCompletion(s: State, call: CallId)
    requires Reachable(s) && call in s.calls && s.calls[call].runs == 1
    ensures var r := s.calls[call].response;
            || (r.success == Some(true) && r.value.Some? && r.redirect.None? && Logged(s.log, call))
            || Refused(r)
  {
    hide Encode, ParseInt64, Int64Of, Fold, LogInv, ServerInv;
    ReachableInv(s);
    assert CallInv(s, call);
  }

  lemma CompletedIsNowhere(s: State, call: CallId)
    requires Inv(s) && call in s.calls && s.calls[call].runs == 1
    ensures forall n | 0 <= n < |s.servers| :: call !in Phases(s, n)
  {
    hide LogInv, CallInv, ValueInv, LeaderInv, ClientInv;
    forall n | 0 <= n < |s.servers|
      ensures call !in Phases(s, n)
    {
      assert ServerInv(s, n);
      assert call in Phases(s, n) ==> ClosureInv(s, n, call, Phases(s, n)[call]);
    }
  }

  /** Only a call being received, or with a closure somewhere, is touched by a step. */
  lemma StepKeepsOtherCalls(s: State, e: Event, call: CallId)
    requires Guard(s, e) && call in s.calls
    requires forall n | 0 <= n < |s.servers| :: call !in Phases(s, n)
    ensures call in Next(s, e).calls && Next(s, e).calls[call] == s.calls[call]
  {
    hide Encode, ParseInt64, Int64Of, Parse, Wrap64, ApplyItem, DoCrash;
    if e.Crash? || e.Apply? {
      CrashShape(s, e.n);
    }
  }

  lemma StepKeepsCompleted(s: State, e: Event, call: CallId)
    requires Inv(s) && Guard(s, e) && call in s.calls && s.calls[call].runs == 1
    ensures call in Next(s, e).calls && Next(s, e).calls[call] == s.calls[call]
  {
    hide *;
    CompletedIsNowhere(s, call);
    StepKeepsOtherCalls(s, e, call);
  }

  lemma {:induction false} RunKeepsCompleted(s: State, es: seq<Event>, call: CallId)
    requires Inv(s) && Run(s, es).Some? && call in s.calls && s.calls[call].runs == 1
    ensures call in Run(s, es).value.calls && Run(s, es).value.calls[call] == s.calls[call]
    decreases |es|
  {
    hide Guard, Next, Inv;
    if es != [] {
      StepKeepsInv(s, es[0]);
      StepKeepsCompleted(s, es[0], call);
      RunKeepsCompleted(Next(s, es[0]), es[1..], call);
    }
  }

  /** What has been answered stays answered, and the same, for ever after. */
  lemma AnswersAreFinal(s: State, t: State, call: CallId)
    requires Reachable(s) && Leads(s, t) && call in s.calls && s.calls[call].runs == 1
    ensures call in t.calls && t.calls[call] == s.calls[call]
  {
    hide Inv, Run;
    ReachableInv(s);
    var es :| Run(s, es) == Some(t);
    RunKeepsCompleted(s, es, call);
  }

  /** The step handles `call` while leader_id() returns `p`. */
  predicate Names(e: Event, call: CallId, p: Peer) {
    (e.Receive? || e.RunClosure?) && e.call == call && e.leader == Some(p)
  }

  lemma ApplyKeepsRedirects(s: State, n: Peer, call: CallId)
    requires Guard(s, Apply(n)) && call in DoApply(s, n).calls
    ensures call in s.calls && DoApply(s, n).calls[call].response.redirect == s.calls[call].response.redirect
  {
    hide DoCrash, ParseInt64, Int64Of, Wrap64, Encode;
    CrashShape(s, n);
  }

  lemma StepRedirects(s: State, e: Event, call: CallId, p: Peer)
    requires Guard(s, e) && call in Next(s, e).calls && Next(s, e).calls[call].response.redirect == Some(p)
    ensures Names(e, call, p) || (call in s.calls && s.calls[call].response.redirect == Some(p))
  {
    hide DoCrash, DoApply, ParseInt64, Int64Of, Encode, Parse;
    if e.Crash? {
      CrashShape(s, e.n);
    } else if e.Apply? {
      ApplyKeepsRedirects(s, e.n, call);
    }
  }

  /** Redirects name servers that have won a term, and only servers win. */
  ghost predicate RedirectsInv(s: State) {
    && (forall u | u in s.elected :: s.elected[u] < |s.servers|)
    && forall c | c in s.calls && s.calls[c].response.redirect.Some? ::
         s.calls[c].response.redirect.value in s.elected.Values
  }

  lemma StepElects(s: State, e: Event)
    requires Guard(s, e)
    ensures forall u | u in Next(s, e).elected && u !in s.elected :: Next(s, e).elected[u] < |s.servers|
    ensures s.elected.Values <= Next(s, e).elected.Values
  {
    StepExtends(s, e);
    forall p | p in s.elected.Values
      ensures p in Next(s, e).elected.Values
    {
      var u :| u in s.elected && s.elected[u] == p;
      assert u in Next(s, e).elected;
    }
    if e.Crash? || e.Apply? {
      CrashShape(s, e.n);
    }
    hide Encode, ParseInt64, Int64Of, Parse, DoCrash, DoApply, DoReceive;
    if e.Apply? {
      ApplyShape(s, e.n);
    } else if e.Receive? {
      ReceiveShape(s, e.call, e.n, e.wire, e.serializes, e.leader);
    }
  }

  lemma StepKeepsRedirects(s: State, e: Event)
    requires RedirectsInv(s) && Guard(s, e)
    ensures RedirectsInv(Next(s, e))
  {
    StepElects(s, e);
    StepExtends(s, e);
    forall c | c in Next(s, e).calls && Next(s, e).calls[c].response.redirect.Some?
      ensures Next(s, e).calls[c].response.redirect.value in s.elected.Values
    {
      var p := Next(s, e).calls[c].response.redirect.value;
      StepRedirects(s, e, c, p);
      if Names(e, c, p) {
        NamesWinner(s, e, c, p);
      }
    }
    hide Guard, Next;
  }

  lemma NamesWinner(s: State, e: Event, call: CallId, p: Peer)
    requires Guard(s, e) && Names(e, call, p)
    ensures p in s.elected.Values
  {
    hide Parse;
  }

  lemma {:induction false} RunKeepsRedirects(s: State, es: seq<Event>)
    requires RedirectsInv(s) && Run(s, es).Some?
    ensures RedirectsInv(Run(s, es).value)
    decreases |es|
  {
    hide Guard, Next, RedirectsInv;
    if es != [] {
      StepKeepsRedirects(s, es[0]);
      RunKeepsRedirects(Next(s, es[0]), es[1..]);
    }
  }

  /** A caller is only ever redirected to a server of the group that has won some term. */
  lemma RedirectsNameWinners(s: State, call: CallId)
    requires Reachable(s) && call in s.calls && s.calls[call].response.redirect.Some?
    ensures var p := s.calls[call].response.redirect.value;
            p < |s.servers| && exists u :: u in s.elected && s.elected[u] == p
  {
    hide Run;
    var checkTerm, n :| Leads(Init(checkTerm, n), s);
    var es :| Run(Init(checkTerm, n), es) == Some(s);
    RunKeepsRedirects(Init(checkTerm, n), es);
  }

  // ---- Terms ----

  /** With check_term on, a task gets into the log only in the very term its handler read, even if
      its server lost and regained the leadership in between. */
  lemma AbaFreedom(s: State)
    requires Reachable(s) && s.checkTerm
    ensures forall i | 0 <= i < |s.log| && s.log[i].Data? ::
              s.log[i].call in s.calls && s.log[i].term == s.calls[s.log[i].call].readTerm
    ensures forall c | c in s.inflight :: c in s.calls && s.inflight[c].term == s.calls[c].readTerm
  {
    ReachableInv(s);
    hide Encode, CallInv, ServerInv, ClientInv, Reachable;
    assert forall i | 0 <= i < |s.log| && s.log[i].Data? :: EntryInv(s, s.log[i]);
    assert forall c | c in s.inflight :: TaskInv(s, c, s.inflight[c]);
  }

  // ---- Conservation ----

  /** The calls whose tasks are in the log. */
  function Committed(log: seq<Entry>): set<CallId> {
    set i | 0 <= i < |log| && log[i].Data? :: log[i].call
  }

  lemma CommittedNext(s: State, k: nat)
    requires LogInv(s) && k < |s.log|
    ensures var before, after := Committed(s.log[..k]), Committed(s.log[..k + 1]);
            if s.log[k].Data? then s.log[k].call !in before && after == before + {s.log[k].call}
            else after == before
  {
    hide EntryInv, TaskInv, Encode;
    var e := s.log[k];
    assert s.log[..k + 1] == s.log[..k] + [e];
    if e.Data? {
      assert At(s.log, e.call, k);
      assert forall i | 0 <= i < k && s.log[i].Data? :: At(s.log, s.log[i].call, i);
    }
  }

  function Times(d: int, n: nat): int {
    d * n
  }

  lemma OneMore(d: int, n: nat)
    ensures Times(d, n + 1) == Times(d, n) + d
  {
  }

  /** The plain sum of what the calls `ids` ask to add. */
  ghost function Amounts(calls: map<CallId, Call>, ids: set<CallId>): int
    requires ids <= calls.Keys
  {
    if ids == {} then 0
    else
      var c :| c in ids;
      Int64Of(calls[c].request) + Amounts(calls, ids - {c})
  }

  /** The order in which they are added up makes no difference. */
  lemma {:induction false} AmountsPick(calls: map<CallId, Call>, ids: set<CallId>, x: CallId)
    requires ids <= calls.Keys && x in ids
    ensures Amounts(calls, ids) == Int64Of(calls[x].request) + Amounts(calls, ids - {x})
    decreases |ids|
  {
    hide Int64Of;
    var c :| c in ids && Amounts(calls, ids) == Int64Of(calls[c].request) + Amounts(calls, ids - {c});
    if c != x {
      AmountsPick(calls, ids - {c}, x);
      AmountsPick(calls, ids - {x}, c);
      assert ids - {c} - {x} == ids - {x} - {c};
    }
  }

  lemma AmountsAdd(calls: map<CallId, Call>, ids: set<CallId>, x: CallId)
    requires ids <= calls.Keys && x in calls && x !in ids
    ensures Amounts(calls, ids + {x}) == Amounts(calls, ids) + Int64Of(calls[x].request)
  {
    hide Amounts;
    AmountsPick(calls, ids + {x}, x);
    assert ids + {x} - {x} == ids;
  }

  lemma {:induction false} AmountsGrow(calls: map<CallId, Call>, a: set<CallId>, b: set<CallId>)
    requires a <= b <= calls.Keys && forall c | c in b :: Int64Of(calls[c].request) >= 0
    ensures 0 <= Amounts(calls, a) <= Amounts(calls, b)
    decreases |b|
  {
    hide Int64Of;
    if b != {} {
      var x :| x in b;
      AmountsPick(calls, b, x);
      if x in a {
        AmountsPick(calls, a, x);
        AmountsGrow(calls, a - {x}, b - {x});
      } else {
        AmountsGrow(calls, a, b - {x});
      }
    }
  }

  lemma {:induction false} EqualAmounts(calls: map<CallId, Call>, ids: set<CallId>, d: int)
    requires ids <= calls.Keys && forall c | c in ids :: Int64Of(calls[c].request) == d
    ensures Amounts(calls, ids) == Times(d, |ids|)
    decreases |ids|
  {
    hide Int64Of, Times;
    if ids == {} {
      NoneAtAll(d);
    } else {
      var x :| x in ids;
      AmountsPick(calls, ids, x);
      EqualAmounts(calls, ids - {x}, d);
      OneMore(d, |ids - {x}|);
    }
  }

  lemma NoneAtAll(d: int)
    ensures Times(d, 0) == 0
  {
  }

  lemma CommittedOfNothing()
    ensures Committed([]) == {} && Sum([]) == 0
  {
  }

  lemma SumNext(log: seq<Entry>, k: nat)
    requires k < |log|
    ensures Sum(log[..k + 1]) == Sum(log[..k]) + Delta(log[k])
    ensures log[k].Config? ==> Delta(log[k]) == 0
  {
    hide ParseInt64;
    assert log[..k + 1][..k] == log[..k];
  }

  lemma CommittedAreCalls(s: State, k: nat)
    requires Inv(s) && k <= |s.log|
    ensures Committed(s.log[..k]) <= s.calls.Keys
  {
    hide Encode, ServerInv, CallInv, ClientInv, TaskInv;
    assert forall i | 0 <= i < |s.log| && s.log[i].Data? :: EntryInv(s, s.log[i]);
  }

  /** Any prefix of the log adds up what its calls asked for, each counted once, whatever the
      amounts. */
  lemma {:induction false} SumIsAmounts(s: State, k: nat)
    requires Inv(s) && k <= |s.log|
    ensures Committed(s.log[..k]) <= s.calls.Keys
    ensures Sum(s.log[..k]) == Amounts(s.calls, Committed(s.log[..k]))
  {
    CommittedAreCalls(s, k);
    InvParts(s);
    hide *;
    if k == 0 {
      assert s.log[..0] == [];
      CommittedOfNothing();
      NoAmounts(s.calls);
    } else {
      var j := k - 1;
      SumIsAmounts(s, j);
      CommittedNext(s, j);
      SumNext(s.log, j);
      assert j + 1 == k;
      if s.log[j].Data? {
        CommittedBytesParse(s, j);
        AmountsAdd(s.calls, Committed(s.log[..j]), s.log[j].call);
      }
    }
  }

  lemma NoAmounts(calls: map<CallId, Call>)
    ensures Amounts(calls, {}) == 0
  {
  }

  lemma AckedAreCommitted(s: State)
    requires Inv(s)
    ensures s.acked <= Committed(s.log) <= s.calls.Keys && |s.calls.Keys| <= s.attempts
  {
    hide Encode, ParseInt64, Int64Of, Fold, ServerInv, CallInv;
    forall c | c in s.acked
      ensures c in Committed(s.log)
    {
      assert Acked(s.calls[c]);
      AckedIsLogged(s, c);
      var i :| At(s.log, c, i);
    }
    CommittedAreCalls(s, |s.log|);
    assert s.log[..|s.log|] == s.log;
    assert |s.calls.Keys| == |s.calls|;
  }

  /** The whole log adds up what the committed calls asked for. */
  lemma LogIsAmounts(s: State)
    requires Inv(s)
    ensures s.acked <= Committed(s.log) <= s.calls.Keys
    ensures Sum(s.log) == Amounts(s.calls, Committed(s.log))
  {
    AckedAreCommitted(s);
    SumIsAmounts(s, |s.log|);
    assert s.log[..|s.log|] == s.log;
    hide *;
  }

  /** The committed value is what the committed calls asked for, each counted once, wrapped; for any
      amounts, negative ones and overflow included. */
  lemma ValueIsAmounts(s: State)
    requires Reachable(s)
    ensures s.acked <= Committed(s.log) <= s.calls.Keys
    ensures Fold(s.log) == Wrap64(Amounts(s.calls, Committed(s.log)))
  {
    ReachableInv(s);
    hide *;
    LogIsAmounts(s);
    FoldIsWrappedSum(s.log);
  }

  lemma SumBetween(s: State)
    requires Inv(s) && forall c | c in s.calls :: Int64Of(s.calls[c].request) >= 0
    ensures s.acked <= s.calls.Keys
    ensures 0 <= Amounts(s.calls, s.acked) <= Sum(s.log) <= Amounts(s.calls, s.calls.Keys)
  {
    hide Inv, Sum, Committed, Int64Of, Amounts;
    LogIsAmounts(s);
    AmountsGrow(s.calls, s.acked, Committed(s.log));
    AmountsGrow(s.calls, Committed(s.log), s.calls.Keys);
  }

  /** When no call asks for a negative amount and the counter does not wrap, the committed value lies
      between what the acknowledged calls and what all calls received asked for, whatever is accepted,
      dropped or failed, under any leader changes and crashes. */
  lemma Conservation(s: State)
    requires Reachable(s) && Sum(s.log) < TWO_63
    requires forall c | c in s.calls :: Int64Of(s.calls[c].request) >= 0
    ensures s.acked <= s.calls.Keys
    ensures Amounts(s.calls, s.acked) <= Fold(s.log) <= Amounts(s.calls, s.calls.Keys)
  {
    ReachableInv(s);
    hide *;
    SumBetween(s);
    FoldIsWrappedSum(s.log);
    WrapSmall(Sum(s.log));
  }

  /** When all calls ask for the same amount, that is so many times the calls acknowledged, and the
      requests transmitted. */
  lemma ConservationOfEqualAdds(s: State, addedBy: int64)
    requires Reachable(s) && addedBy >= 0 && Sum(s.log) < TWO_63
    requires forall c | c in s.calls :: Int64Of(s.calls[c].request) == addedBy
    ensures addedBy * |s.acked| <= Fold(s.log) <= addedBy * s.attempts
  {
    Conservation(s);
    ReachableInv(s);
    AckedAreCommitted(s);
    hide Inv, Reachable, Fold, Sum, Int64Of, Amounts, Committed;
    EqualAmounts(s.calls, s.acked, addedBy);
    EqualAmounts(s.calls, s.calls.Keys, addedBy);
    Scale(addedBy, |s.calls.Keys|, s.attempts);
  }

  lemma Scale(d: nat, a: nat, b: nat)
    requires a <= b
    ensures 0 <= d * a <= d * b
  {
  }
}
