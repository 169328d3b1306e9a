/** What each step of the counter's own code does, for every reachable state, and what can still be
    reached from there: when an add that waits can succeed, and that no state is a dead end. */
module ClusterProgress {
  import opened Basics
  import opened Wire
  import opened Messages
  import opened CounterSpec
  import opened Cluster
  import opened ClusterInvariant
  import opened ClusterTheorems
  import opened ClusterRuns
  import opened ClusterLimits
  import opened ClusterReads
  import opened Linearizability

  // ---- Steps ----

  /** A fetch_add is refused at once by a server that does not lead, which names the leader it knows,
      and for a request that does not serialize; in any other case it is submitted, unanswered, in
      the term the server leads. */
  lemma ReceiveOutcome(s: State, call: CallId, n: Peer, wire: Bytes, serializes: bool, leader: Option<Peer>)
    requires Guard(s, Receive(call, n, wire, serializes, leader))
    ensures var t, sv := Next(s, Receive(call, n, wire, serializes, leader)), s.servers[n];
            && call in t.calls && |t.servers| == |s.servers|
            && Some(t.calls[call].request) == Parse(VARINT, wire)
            && t.calls[call].node == n && t.calls[call].readTerm == sv.leaderTerm
            && (sv.leaderTerm < 0 ==>
                  && t.calls[call].runs == 1 && t.calls[call].response == Response(Some(false), None, leader)
                  && t.servers == s.servers)
            && (sv.leaderTerm >= 0 && !serializes ==>
                  && t.calls[call].runs == 1 && t.calls[call].response == Response(Some(false), None, None)
                  && t.servers == s.servers)
            && (sv.leaderTerm >= 0 && serializes ==>
                  var expected := if s.checkTerm then sv.leaderTerm else -1;
                  && t.calls[call].runs == 0 && t.calls[call].response == Response(None, None, None)
                  && t.servers[n] == sv.(closures :=
                       sv.closures[call := Queued(Encode(t.calls[call].request), expected)]))
  {
    hide Encode, Parse, ParseInt64, Int64Of, DoAccept, DoApply, DoRunClosure, DoSave, DoLoad, DoCrash;
  }

  lemma ClosureCompletes(s: State, n: Peer, call: CallId, leader: Option<Peer>)
    requires Inv(s) && Guard(s, RunClosure(n, call, leader))
    ensures call in s.calls
    ensures var t, ok := Next(s, RunClosure(n, call, leader)), Phases(s, n)[call].ok;
            && call in t.calls && n < |t.servers| && call !in Phases(t, n)
            && t.calls[call].runs == 1 && t.calls[call].deletes == 1
            && t.calls[call].response == (if ok then s.calls[call].response else Response(Some(false), None, leader))
            && (ok ==> t.calls[call].response.success == Some(true) && t.calls[call].response.value.Some?)
  {
    ClosureFacts(s, n, call);
    RunClosureShape(s, n, call, leader);
    hide Inv, LogInv, ServerInv, Next, Encode, ParseInt64, Int64Of, Fold;
  }

  /** Running a closure completes its call: with the answer it was given when its entry was applied,
      or with a refusal that names the leader known by then. */
  lemma RunClosureOutcome(s: State, n: Peer, call: CallId, leader: Option<Peer>)
    requires Reachable(s) && Guard(s, RunClosure(n, call, leader))
    ensures call in s.calls
    ensures var t, ok := Next(s, RunClosure(n, call, leader)), Phases(s, n)[call].ok;
            && call in t.calls && n < |t.servers| && call !in Phases(t, n)
            && t.calls[call].runs == 1 && t.calls[call].deletes == 1
            && t.calls[call].response == (if ok then s.calls[call].response else Response(Some(false), None, leader))
            && (ok ==> t.calls[call].response.success == Some(true) && t.calls[call].response.value.Some?)
  {
    ReachableInv(s);
    hide Inv, Reachable, Next;
    ClosureCompletes(s, n, call, leader);
  }

  /** A snapshot is captured with the value and the index of that moment. */
  lemma CaptureOutcome(s: State, n: Peer)
    requires Reachable(s) && Guard(s, Capture(n))
    ensures var t, sv := Next(s, Capture(n)), s.servers[n];
            && |t.servers| == |s.servers| && sv.applied <= |s.log|
            && t.servers[n] == sv.(jobs := sv.jobs + [Job(sv.applied, Wrap64(Sum(s.log[..sv.applied])))])
  {
    ReachableInv(s);
    ValueOfPrefix(s, n);
    hide Inv, Reachable, Sum, Wrap64, DoReceive, DoAccept, DoApply, DoRunClosure, DoSave, DoLoad, DoCrash, Parse;
  }

  /** A save that succeeds publishes what was captured, a save that fails publishes nothing. */
  lemma SaveOutcome(s: State, n: Peer, k: nat, ok: bool)
    requires Reachable(s) && Guard(s, Save(n, k, ok))
    ensures var t, job := Next(s, Save(n, k, ok)), s.servers[n].jobs[k];
            && |t.servers| == |s.servers| && job.index <= |s.log|
            && (ok ==> && t.servers[n].stored.Some? && t.servers[n].stored.value.index == job.index
                       && ParseInt64(t.servers[n].stored.value.file) == Some(Wrap64(Sum(s.log[..job.index]))))
            && (!ok ==> t.servers[n].stored == s.servers[n].stored)
            && t.servers[n].value == s.servers[n].value && t.servers[n].applied == s.servers[n].applied
  {
    ReachableInv(s);
    ServerAt(s, n);
    hide Inv, Reachable, LeaderInv, ClosureInv, Sum, Fold, Wrap64, Encode, ParseInt64, Parse;
    hide DoReceive, DoAccept, DoApply, DoRunClosure, DoLoad, DoCrash;
    var job := s.servers[n].jobs[k];
    FoldIsWrappedSum(s.log[..job.index]);
    Int64RoundTrip(job.value);
  }

  /** A load that succeeds replaces value and index by those of the snapshot, one that fails changes
      nothing. */
  lemma LoadOutcome(s: State, n: Peer, from: Peer, ok: bool)
    requires Reachable(s) && Guard(s, Load(n, from, ok))
    ensures var t, snapshot := Next(s, Load(n, from, ok)), s.servers[from].stored.value;
            && |t.servers| == |s.servers| && snapshot.index <= |s.log|
            && (ok ==> && t.servers[n].applied == snapshot.index
                       && t.servers[n].value == Wrap64(Sum(s.log[..snapshot.index]))
                       && t.servers[n].stored == Some(snapshot))
            && (!ok ==> t == s)
  {
    ReachableInv(s);
    ServerAt(s, from);
    hide Inv, Reachable, LeaderInv, ClosureInv, Sum, Fold, Wrap64, Encode, ParseInt64, Parse;
    hide DoReceive, DoAccept, DoApply, DoRunClosure, DoSave, DoCrash;
    var index := s.servers[from].stored.value.index;
    FoldIsWrappedSum(s.log[..index]);
    Int64RoundTrip(Fold(s.log[..index]));
  }

  /** on_leader_start takes over the term it carries, on_leader_stop ends every leadership. */
  lemma NoticeOutcome(s: State, n: Peer, term: nat)
    requires n < |s.servers|
    ensures Guard(s, LeaderStart(n, term)) ==>
              n < |Next(s, LeaderStart(n, term)).servers| && Next(s, LeaderStart(n, term)).servers[n].leaderTerm == term
    ensures Guard(s, LeaderStop(n))
    ensures n < |Next(s, LeaderStop(n)).servers| && Next(s, LeaderStop(n)).servers[n].leaderTerm == -1
  {
    hide DoReceive, DoAccept, DoApply, DoRunClosure, DoSave, DoLoad, DoCrash, Parse;
  }

  /** A process that dies forgets everything but its published snapshot; whoever it owed an answer
      gets none from it. */
  lemma CrashOutcome(s: State, n: Peer)
    requires n < |s.servers|
    ensures Guard(s, Crash(n))
    ensures var t := Next(s, Crash(n));
            && n < |t.servers| && t.servers[n] == Server(0, -1, 0, None, {}, map[], [], s.servers[n].stored)
            && t.calls.Keys == s.calls.Keys
            && forall c | c in s.calls ::
                 && t.calls[c].lost == (s.calls[c].lost || c in Phases(s, n))
                 && t.calls[c].runs == s.calls[c].runs && t.calls[c].response == s.calls[c].response
  {
    hide DoReceive, DoAccept, DoApply, DoRunClosure, DoSave, DoLoad, Parse;
  }

  /** What was asked, where, and in which term does not change. */
  predicate SameAsked(c: Call, d: Call) {
    d.node == c.node && d.request == c.request && d.readTerm == c.readTerm
  }

  /** Applying an entry advances one server by one entry, fires the closure of that entry if it is
      waiting there, and leaves the others alone. */
  lemma ApplyOutcome(s: State, n: Peer)
    requires Inv(s) && Guard(s, Apply(n))
    ensures var t, sv, e := Next(s, Apply(n)), s.servers[n], s.log[s.servers[n].applied];
            && t == s.(servers := t.servers, calls := t.calls) && |t.servers| == |s.servers|
            && t.calls.Keys == s.calls.Keys && Phases(t, n).Keys == sv.closures.Keys
            && (forall m | 0 <= m < |s.servers| && m != n :: t.servers[m] == s.servers[m])
            && (forall c | c in s.calls :: SameAsked(s.calls[c], t.calls[c]))
            && t.servers[n] == sv.(value := t.servers[n].value, applied := sv.applied + 1, closures := Phases(t, n))
            && (forall c | c in sv.closures :: c in Phases(t, n)
                  && Phases(t, n)[c] == if e.Data? && c == e.call && sv.closures[c].Accepted? then Fired(true)
                                        else sv.closures[c])
  {
    hide Inv, DoApply, DoCrash, ParseInt64, Encode, Int64Of, Wrap64, Delta;
    var e := s.log[s.servers[n].applied];
    if e.Data? {
      CommittedBytesParse(s, s.servers[n].applied);
    }
    if HasClosure(s, n, e) {
      ApplyOwnShape(s, n, DoApply(s, n));
    } else {
      ApplyPlainShape(s, n);
      if e.Data? && e.call in Phases(s, n) {
        ClosureFacts(s, n, e.call);
      }
    }
  }

  // ---- From accepted to acknowledged ----

  ghost predicate CanBeAcked(s: State, call: CallId) {
    exists t :: Leads(s, t) && call in t.calls && Acked(t.calls[call])
  }

  lemma OneStep(s: State, e: Event)
    requires Guard(s, e)
    ensures Leads(s, Next(s, e))
  {
    hide Guard, Next;
    NoStep(s);
    Then(s, s, e, Next(s, e));
  }

  lemma AckedLater(s: State, t: State, call: CallId)
    requires Leads(s, t) && CanBeAcked(t, call)
    ensures CanBeAcked(s, call)
  {
    hide Leads, Acked;
    var u :| Leads(t, u) && call in u.calls && Acked(u.calls[call]);
    LeadsOn(s, t, u);
  }

  lemma FiredSucceeds(s: State, n: Peer, call: CallId)
    requires Inv(s) && n < |s.servers| && call in Phases(s, n) && Phases(s, n)[call] == Fired(true)
    ensures CanBeAcked(s, call)
  {
    hide Inv, Leads, Next;
    var e := RunClosure(n, call, None);
    assert Guard(s, e);
    hide Guard;
    ClosureCompletes(s, n, call, None);
    OneStep(s, e);
    assert Acked(Next(s, e).calls[call]);
  }

  lemma {:induction false} LoggedSucceeds(s: State, n: Peer, call: CallId, i: nat)
    requires Inv(s) && n < |s.servers| && call in Phases(s, n) && Phases(s, n)[call].Accepted?
    requires At(s.log, call, i) && s.servers[n].applied <= i
    ensures CanBeAcked(s, call)
    decreases i - s.servers[n].applied
  {
    hide Inv, Leads, CanBeAcked;
    var e := Apply(n);
    assert Guard(s, e);
    ApplyOutcome(s, n);
    StepKeepsInv(s, e);
    OneStep(s, e);
    hide Guard, Next;
    if s.servers[n].applied == i {
      FiredSucceeds(Next(s, e), n, call);
    } else {
      if At(s.log, call, s.servers[n].applied) {
        OneEntryEach(s, call, i, s.servers[n].applied);
      }
      LoggedSucceeds(Next(s, e), n, call, i);
    }
    AckedLater(s, Next(s, e), call);
  }

  lemma CommitLogs(s: State, call: CallId)
    requires Inv(s) && CanCommit(s, call) && Config(s.inflight[call].term) in s.log
    ensures Guard(s, Commit(call))
    ensures var t := Next(s, Commit(call));
            t.servers == s.servers && At(t.log, call, |s.log|)
  {
    hide Inv, Next;
    TaskFacts(s, call);
    assert Guard(s, Commit(call));
    hide Guard;
    CommitShape(s, Commit(call));
    CommitKeepsServers(s, Commit(call));
  }

  /** An accepted task that no later term has overtaken can still be answered with success. */
  lemma AcceptedSucceeds(s: State, n: Peer, call: CallId)
    requires Inv(s) && n < |s.servers| && call in Phases(s, n) && Phases(s, n)[call].Accepted? && CanCommit(s, call)
    ensures CanBeAcked(s, call)
  {
    hide Inv, Leads, CanBeAcked, CanCommit, Guard, Next;
    if HasConfig(s, call) {
      CommitLogs(s, call);
      ValueOfPrefix(s, n);
      StepKeepsInv(s, Commit(call));
      OneStep(s, Commit(call));
      LoggedSucceeds(Next(s, Commit(call)), n, call, |s.log|);
      AckedLater(s, Next(s, Commit(call)), call);
    } else {
      var e := CommitConfig(TermOf(s, call));
      ConfigFirst(s, call);
      ConfigTouches(s, call);
      StepKeepsInv(s, e);
      OneStep(s, e);
      CommitLogs(Next(s, e), call);
      ValueOfPrefix(Next(s, e), n);
      StepKeepsInv(Next(s, e), Commit(call));
      OneStep(Next(s, e), Commit(call));
      LoggedSucceeds(Next(Next(s, e), Commit(call)), n, call, |Next(s, e).log|);
      AckedLater(Next(s, e), Next(Next(s, e), Commit(call)), call);
      AckedLater(s, Next(s, e), call);
    }
  }

  predicate HasConfig(s: State, call: CallId) {
    call in s.inflight && Config(s.inflight[call].term) in s.log
  }

  function TermOf(s: State, call: CallId): nat {
    if call in s.inflight then s.inflight[call].term else 0
  }

  lemma ConfigTouches(s: State, call: CallId)
    requires Inv(s) && CanCommit(s, call)
    ensures var e := CommitConfig(TermOf(s, call));
            Guard(s, e) && Next(s, e).servers == s.servers && HasConfig(Next(s, e), call) && CanCommit(Next(s, e), call)
  {
    ConfigFirst(s, call);
    TaskFacts(s, call);
    ConfigAppended(s, s.inflight[call].term);
    hide Inv, Guard, Next, CanCommit;
  }

  // ---- When a waiting add can succeed ----

  lemma AcceptTouches(s: State, n: Peer, call: CallId)
    requires Guard(s, Accept(n, call))
    ensures var t := Next(s, Accept(n, call));
            && t.log == s.log && |t.servers| == |s.servers|
            && call in Phases(t, n) && Phases(t, n)[call].Accepted?
            && call in t.inflight && Some(t.inflight[call].term) == s.servers[n].raftTerm
  {
    hide DoReceive, DoApply, DoRunClosure, DoSave, DoLoad, DoCrash, Parse;
  }

  lemma QueuedSucceeds(s: State, n: Peer, call: CallId, term: nat)
    requires Inv(s) && n < |s.servers| && call in Phases(s, n) && Phases(s, n)[call].Queued?
    requires s.servers[n].raftTerm == Some(term) && Phases(s, n)[call].expectedTerm in {NO_TERM, term}
    requires LastTerm(s.log) <= term
    ensures CanBeAcked(s, call)
  {
    hide Inv, Leads, CanBeAcked, Next, LastTerm;
    var e := Accept(n, call);
    assert Guard(s, e);
    hide Guard;
    AcceptTouches(s, n, call);
    StepKeepsInv(s, e);
    OneStep(s, e);
    AcceptedSucceeds(Next(s, e), n, call);
    AckedLater(s, Next(s, e), call);
  }

  /** Some term has not been won, and is none too early. */
  lemma FreshTerm(elected: map<nat, Peer>, least: nat) returns (term: nat)
    ensures term >= least && term >= 1 && term !in elected
  {
    var bound := AboveAll(elected.Keys);
    term := bound + least + 1;
  }

  lemma {:induction false} AboveAll(terms: set<nat>) returns (bound: nat)
    ensures forall u | u in terms :: u <= bound
    decreases |terms|
  {
    if terms == {} {
      bound := 0;
    } else {
      var u :| u in terms;
      bound := AboveAll(terms - {u});
      bound := bound + u;
      assert forall w | w in terms :: w == u || w in terms - {u};
    }
  }

  /** The server steps down, if it leads. */
  lemma SteppedDown(s: State, n: Peer) returns (t: State)
    requires Inv(s) && n < |s.servers|
    ensures Leads(s, t) && Inv(t) && |t.servers| == |s.servers| && t.servers[n].raftTerm == None
    ensures t == s.(servers := t.servers)
    ensures t.servers[n] == s.servers[n].(raftTerm := None)
  {
    hide Inv, Leads;
    if s.servers[n].raftTerm.Some? {
      var e := StepDown(n);
      assert Guard(s, e);
      t := SetServer(s, n, s.servers[n].(raftTerm := None));
      assert t == Next(s, e);
      hide Guard, Next;
      StepKeepsInv(s, e);
      OneStep(s, e);
    } else {
      t := s;
      NoStep(s);
    }
  }

  /** And wins a term later than any. */
  lemma WinsAgain(s: State, n: Peer) returns (t: State, term: nat)
    requires Inv(s) && n < |s.servers| && s.servers[n].raftTerm == None
    ensures Leads(s, t) && Inv(t) && |t.servers| == |s.servers|
    ensures t.log == s.log && t.calls == s.calls && t.checkTerm == s.checkTerm && term in t.elected
    ensures t.servers[n] == s.servers[n].(raftTerm := Some(term), starting := s.servers[n].starting + {term})
    ensures LastTerm(s.log) <= term && term >= 1
  {
    hide Inv, Leads, LastTerm;
    term := FreshTerm(s.elected, LastTerm(s.log));
    var e := Elect(n, term);
    assert Guard(s, e);
    t := Next(s, e);
    StepKeepsInv(s, e);
    OneStep(s, e);
  }

  lemma UncheckedSucceeds(s: State, n: Peer, call: CallId)
    requires Inv(s) && !s.checkTerm && n < |s.servers| && call in Phases(s, n) && Phases(s, n)[call].Queued?
    ensures CanBeAcked(s, call)
  {
    ClosureFacts(s, n, call);
    hide Inv, Leads, CanBeAcked, LogInv, ServerInv, CallInv, Encode, LastTerm;
    assert Phases(s, n)[call].expectedTerm == NO_TERM;
    hide ClosureInv;
    var t := SteppedDown(s, n);
    var u, term := WinsAgain(t, n);
    QueuedSucceeds(u, n, call, term);
    AckedLater(t, u, call);
    AckedLater(s, t, call);
  }

  /** The add of `call`, waiting at `n` in a term it read, cannot get into the log any more. */
  ghost predicate TooLate(s: State, call: CallId) {
    && call in s.calls && s.calls[call].readTerm in s.elected && !Logged(s.log, call)
    && (call in s.inflight ==> s.inflight[call].term < LastTerm(s.log))
    && forall n | 0 <= n < |s.servers| && call in Phases(s, n) && Phases(s, n)[call].Queued? ::
         s.servers[n].raftTerm == Some(s.calls[call].readTerm) ==> s.calls[call].readTerm < LastTerm(s.log)
  }

  lemma ApplyKeepsAsked(s: State, n: Peer, call: CallId)
    requires Inv(s) && Guard(s, Apply(n)) && call in s.calls
    ensures call in Next(s, Apply(n)).calls && SameAsked(s.calls[call], Next(s, Apply(n)).calls[call])
  {
    hide Inv, Guard, Next;
    ApplyOutcome(s, n);
    assert call in Next(s, Apply(n)).calls.Keys;
  }

  lemma StepKeepsAsked(s: State, e: Event, call: CallId)
    requires Inv(s) && Guard(s, e) && call in s.calls
    ensures call in Next(s, e).calls && SameAsked(s.calls[call], Next(s, e).calls[call])
  {
    if e.Apply? {
      hide *;
      ApplyKeepsAsked(s, e.n, call);
    } else if e.Crash? {
      hide Inv, DoCrash, DoReceive, DoAccept, DoApply, DoRunClosure, DoSave, DoLoad, Parse;
      CrashShape(s, e.n);
    } else {
      hide Inv, Encode, ParseInt64, Int64Of, Parse, DoCrash, DoApply, DoReceive, DoSave, DoLoad;
      if e.Receive? {
        ReceiveShape(s, e.call, e.n, e.wire, e.serializes, e.leader);
      }
    }
  }

  /** How the state of a waiting task can change: it waits no more, or where it waits no term is led
      that was won before, unless it was led already. */
  ghost predicate WaitsOn(s: State, sv: Server, tv: Server, call: CallId) {
    call in tv.closures && tv.closures[call].Queued? ==>
      && call in sv.closures && tv.closures[call] == sv.closures[call]
      && (tv.raftTerm.Some? && tv.raftTerm != sv.raftTerm ==> tv.raftTerm.value !in s.elected)
  }

  lemma ApplyWaits(s: State, m: Peer, n: Peer, call: CallId)
    requires Inv(s) && Guard(s, Apply(m)) && n < |s.servers|
    ensures n < |Next(s, Apply(m)).servers| && WaitsOn(s, s.servers[n], Next(s, Apply(m)).servers[n], call)
  {
    ApplyOutcome(s, m);
    hide Inv, Guard, Next;
    assert call in Phases(Next(s, Apply(m)), m).Keys ==> call in s.servers[m].closures;
  }

  /** Steps that handle calls and closures, and leave the term led alone. */
  predicate HandlesCalls(e: Event) {
    e.Receive? || e.Accept? || e.FailTask? || e.RunClosure?
  }

  lemma HandledWaits(s: State, e: Event, n: Peer, call: CallId)
    requires Guard(s, e) && n < |s.servers| && call in s.calls && HandlesCalls(e)
    ensures n < |Next(s, e).servers| && WaitsOn(s, s.servers[n], Next(s, e).servers[n], call)
  {
    hide DoReceive, DoApply, DoSave, DoLoad, DoCrash, Parse, Encode, ParseInt64, Int64Of;
    if e.Receive? {
      ReceiveShape(s, e.call, e.n, e.wire, e.serializes, e.leader);
    }
  }

  lemma ElsewhereWaits(s: State, e: Event, n: Peer, call: CallId)
    requires Guard(s, e) && n < |s.servers| && !HandlesCalls(e) && !e.Apply? && !e.Crash?
    ensures n < |Next(s, e).servers| && WaitsOn(s, s.servers[n], Next(s, e).servers[n], call)
  {
    hide DoReceive, DoAccept, DoApply, DoRunClosure, DoCrash, Parse, Encode, ParseInt64, Int64Message;
  }

  lemma CrashWaits(s: State, m: Peer, n: Peer, call: CallId)
    requires Guard(s, Crash(m)) && n < |s.servers|
    ensures n < |Next(s, Crash(m)).servers| && WaitsOn(s, s.servers[n], Next(s, Crash(m)).servers[n], call)
  {
    hide DoReceive, DoAccept, DoApply, DoRunClosure, DoSave, DoLoad, DoCrash, Parse;
    CrashShape(s, m);
  }

  lemma StepWaits(s: State, e: Event, n: Peer, call: CallId)
    requires Inv(s) && Guard(s, e) && n < |s.servers| && call in s.calls
    ensures n < |Next(s, e).servers| && WaitsOn(s, s.servers[n], Next(s, e).servers[n], call)
  {
    hide *;
    if e.Apply? {
      ApplyWaits(s, e.n, n, call);
    } else if e.Crash? {
      CrashWaits(s, e.n, n, call);
    } else if HandlesCalls(e) {
      HandledWaits(s, e, n, call);
    } else {
      ElsewhereWaits(s, e, n, call);
    }
  }

  /** A task is accepted in the term it was read in. */
  lemma StepAccepts(s: State, e: Event, call: CallId)
    requires Inv(s) && s.checkTerm && Guard(s, e) && !e.Commit? && !e.CommitConfig? && call in s.calls
    requires call in Next(s, e).inflight && call !in s.inflight
    ensures exists n :: 0 <= n < |s.servers| && call in Phases(s, n) && Phases(s, n)[call].Queued?
              && s.servers[n].raftTerm.Some? && s.servers[n].raftTerm.value == s.calls[call].readTerm
              && Next(s, e).inflight[call].term == s.calls[call].readTerm
  {
    TailShape(s, e);
    AcceptTouches(s, e.n, call);
    ClosureFacts(s, e.n, call);
    hide Inv, Next, LogInv, ServerInv, CallInv, Encode;
    assert Phases(s, e.n)[call].expectedTerm == s.calls[call].readTerm;
  }

  /** Of the steps that commit nothing, only accepting a task puts one into a tail, and none changes
      one that is there, but for that. */
  lemma TailShape(s: State, e: Event)
    requires Guard(s, e) && !e.Commit? && !e.CommitConfig?
    ensures forall c | c in Next(s, e).inflight ::
              (c in s.inflight && Next(s, e).inflight[c] == s.inflight[c]) || (e.Accept? && e.call == c)
  {
    if e.Crash? || e.Apply? {
      hide DoReceive, DoAccept, DoApply, DoRunClosure, DoSave, DoLoad, DoCrash, Parse, ParseInt64;
      CrashShape(s, e.n);
      if e.Apply? {
        ApplyShape(s, e.n);
      }
    } else {
      hide DoReceive, DoApply, DoRunClosure, DoSave, DoLoad, DoCrash, Parse, Encode, ParseInt64, Int64Of;
      if e.Receive? {
        ReceiveShape(s, e.call, e.n, e.wire, e.serializes, e.leader);
      } else if e.RunClosure? {
        RunClosureKeepsTasks(s, e.n, e.call, e.leader);
      }
    }
  }

  lemma RunClosureKeepsTasks(s: State, n: Peer, call: CallId, leader: Option<Peer>)
    requires Guard(s, RunClosure(n, call, leader))
    ensures DoRunClosure(s, n, call, leader).inflight == s.inflight
  {
  }

  lemma CommitKeepsTooLate(s: State, e: Event, call: CallId)
    requires Inv(s) && Guard(s, e) && TooLate(s, call) && (e.Commit? || e.CommitConfig?)
    ensures TooLate(Next(s, e), call)
  {
    hide Inv, Guard, Next, LastTerm;
    TaskOf(s, e);
    CommitShape(s, e);
    CommitKeepsServers(s, e);
    StepExtends(s, e);
    var t := Next(s, e);
    assert forall i | At(t.log, call, i) :: At(s.log, call, i);
  }

  lemma StepKeepsTooLate(s: State, e: Event, call: CallId)
    requires Inv(s) && s.checkTerm && Guard(s, e) && TooLate(s, call)
    ensures TooLate(Next(s, e), call)
  {
    if e.Commit? || e.CommitConfig? {
      hide *;
      CommitKeepsTooLate(s, e, call);
    } else {
      hide Inv, Guard, Next, LastTerm, Logged;
      var t := Next(s, e);
      StepExtends(s, e);
      StepTasks(s, e);
      StepKeepsAsked(s, e, call);
      forall n | 0 <= n < |s.servers|
        ensures WaitsOn(s, s.servers[n], t.servers[n], call)
      {
        StepWaits(s, e, n, call);
      }
      if call in t.inflight {
        if call in s.inflight {
          TasksStay(s, e, call);
        } else {
          StepAccepts(s, e, call);
        }
      }
    }
  }

  /** A task already in a log tail is not changed. */
  lemma TasksStay(s: State, e: Event, call: CallId)
    requires Inv(s) && Guard(s, e) && !e.Commit? && !e.CommitConfig?
    requires call in s.inflight && call in Next(s, e).inflight
    ensures Next(s, e).inflight[call] == s.inflight[call]
  {
    TailShape(s, e);
    if e.Accept? && e.call == call {
      ClosureFacts(s, e.n, call);
      hide Inv, LogInv, ServerInv, CallInv, Encode;
      assert false;
    }
    hide Inv, Guard, Next;
  }

  lemma {:induction false} RunKeepsTooLate(s: State, es: seq<Event>, call: CallId)
    requires Inv(s) && s.checkTerm && TooLate(s, call) && Run(s, es).Some?
    ensures TooLate(Run(s, es).value, call)
    decreases |es|
  {
    hide Inv, Guard, Next, TooLate;
    if es != [] {
      StepKeepsInv(s, es[0]);
      StepExtends(s, es[0]);
      StepKeepsTooLate(s, es[0], call);
      RunKeepsTooLate(Next(s, es[0]), es[1..], call);
    }
  }

  lemma TooLateForever(s: State, call: CallId)
    requires Inv(s) && s.checkTerm && TooLate(s, call)
    ensures !CanBeAcked(s, call)
  {
    hide Inv, Run, Acked;
    forall t | Leads(s, t) && call in t.calls
      ensures !Acked(t.calls[call])
    {
      var es :| Run(s, es) == Some(t);
      RunKeepsTooLate(s, es, call);
      LeadsInv(s, t);
      if Acked(t.calls[call]) {
        AckedIsLogged(t, call);
      }
    }
  }

  lemma WaitsInVain(s: State, n: Peer, call: CallId)
    requires Inv(s) && s.checkTerm && n < |s.servers| && call in Phases(s, n) && Phases(s, n)[call].Queued?
    requires call in s.calls
    requires s.servers[n].raftTerm.None? || s.servers[n].raftTerm.value != s.calls[call].readTerm
             || LastTerm(s.log) > s.calls[call].readTerm
    ensures TooLate(s, call)
  {
    ClosureFacts(s, n, call);
    hide Inv, LogInv, Encode, ParseInt64, Int64Of, Fold, ValueInv, LeaderInv, LastTerm;
    forall m | 0 <= m < |s.servers| && call in Phases(s, m)
      ensures m == n
    {
      ClosureFacts(s, m, call);
    }
  }

  /** A submitted add that still waits to be accepted can be answered with success in some
      continuation: with check_term on exactly if its server still leads the very term that was read
      and no later term has committed anything; with it off, always. */
  lemma WaitingAddCanSucceed(s: State, n: Peer, call: CallId)
    requires Reachable(s) && n < |s.servers| && call in Phases(s, n) && Phases(s, n)[call].Queued?
    ensures call in s.calls
    ensures s.checkTerm ==>
              (CanBeAcked(s, call) <==>
                 && s.servers[n].raftTerm.Some? && s.servers[n].raftTerm.value == s.calls[call].readTerm
                 && LastTerm(s.log) <= s.calls[call].readTerm)
    ensures !s.checkTerm ==> CanBeAcked(s, call)
  {
    ReachableInv(s);
    ClosureFacts(s, n, call);
    hide Inv, Reachable, CanBeAcked, LogInv, ServerInv, CallInv, Encode, LastTerm;
    if !s.checkTerm {
      UncheckedSucceeds(s, n, call);
    } else {
      assert Phases(s, n)[call].expectedTerm == s.calls[call].readTerm;
      if s.servers[n].raftTerm.Some? && s.servers[n].raftTerm.value == s.calls[call].readTerm
         && LastTerm(s.log) <= s.calls[call].readTerm {
        QueuedSucceeds(s, n, call, s.servers[n].raftTerm.value);
      } else {
        WaitsInVain(s, n, call);
        TooLateForever(s, call);
      }
    }
  }

  // ---- No dead end ----

  lemma {:induction false} AppliesAll(s: State, n: Peer) returns (t: State)
    requires Inv(s) && n < |s.servers|
    ensures Leads(s, t) && Inv(t) && |t.servers| == |s.servers| && t == s.(servers := t.servers, calls := t.calls)
    ensures t.servers[n].applied == |t.log| && t.calls.Keys == s.calls.Keys
    ensures t.servers[n] == s.servers[n].(value := t.servers[n].value, applied := |t.log|, closures := Phases(t, n))
    decreases |s.log| - s.servers[n].applied
  {
    hide Inv, Leads;
    ValueOfPrefix(s, n);
    if s.servers[n].applied == |s.log| {
      t := s;
      NoStep(s);
    } else {
      var e := Apply(n);
      assert Guard(s, e);
      ApplyOutcome(s, n);
      hide Guard, Next;
      StepKeepsInv(s, e);
      OneStep(s, e);
      t := AppliesAll(Next(s, e), n);
      LeadsOn(s, Next(s, e), t);
    }
  }

  /** The server has won and started a term later than any, with the whole log applied. */
  lemma TakesOver(s: State, n: Peer) returns (t: State, term: nat)
    requires Inv(s) && n < |s.servers|
    ensures Leads(s, t) && Inv(t) && |t.servers| == |s.servers| && t.calls.Keys == s.calls.Keys
    ensures t.servers[n].leaderTerm == term && t.servers[n].raftTerm == Some(term) && term >= 1
    ensures LastTerm(t.log) <= term
  {
    hide Inv, Leads;
    var s1 := SteppedDown(s, n);
    var s2, u := WinsAgain(s1, n);
    term := u;
    var s3 := ConfigIn(s2, n, term);
    var s4 := AppliesAll(s3, n);
    t := Started(s4, n, term);
    LeadsOn(s, s1, s2);
    LeadsOn(s, s2, s3);
    LeadsOn(s, s3, s4);
    LeadsOn(s, s4, t);
  }

  lemma ConfigIn(s: State, n: Peer, term: nat) returns (t: State)
    requires Inv(s) && n < |s.servers| && term in s.elected && LastTerm(s.log) <= term
    ensures Leads(s, t) && Inv(t) && t == s.(log := s.log + [Config(term)])
  {
    hide Inv, Leads, LastTerm, Guard, Next;
    ConfigAppended(s, term);
    StepKeepsInv(s, CommitConfig(term));
    OneStep(s, CommitConfig(term));
    t := Next(s, CommitConfig(term));
  }

  lemma Started(s: State, n: Peer, term: nat) returns (t: State)
    requires Inv(s) && n < |s.servers| && term in s.servers[n].starting
    requires s.servers[n].applied == |s.log| > 0 && s.log[|s.log| - 1] == Config(term)
    ensures Leads(s, t) && Inv(t) && t == s.(servers := t.servers) && |t.servers| == |s.servers|
    ensures t.servers[n].leaderTerm == term && t.servers[n].raftTerm == s.servers[n].raftTerm
  {
    hide Inv, Leads;
    var e := LeaderStop(n);
    var s1 := SetServer(s, n, s.servers[n].(leaderTerm := NO_TERM));
    assert Guard(s, e) && s1 == Next(s, e);
    StepKeepsInv(s, e);
    OneStep(s, e);
    var f := LeaderStart(n, term);
    assert s1.log[..s1.servers[n].applied] == s1.log;
    assert Guard(s1, f);
    t := Next(s1, f);
    StepKeepsInv(s1, f);
    OneStep(s1, f);
    LeadsOn(s, s1, t);
  }

  /** A request to add `v` is received by a leader. */
  lemma RequestSubmitted(s: State, n: Peer, call: CallId, v: int64) returns (t: State)
    requires Inv(s) && n < |s.servers| && call !in s.calls && s.servers[n].leaderTerm > 0
    ensures Leads(s, t) && Inv(t) && t.log == s.log && |t.servers| == |s.servers|
    ensures call in t.calls && t.calls[call].request == Int64Message(v)
    ensures call in Phases(t, n) && Phases(t, n)[call].Queued?
    ensures Phases(t, n)[call].expectedTerm in {NO_TERM, s.servers[n].leaderTerm}
    ensures t.servers[n].raftTerm == s.servers[n].raftTerm
  {
    RequestParses(v);
    assert Int64Message(v).known.Some? by { Int64RoundTrip(v); }
    hide Inv, Leads, Encode, Parse, Int64Message;
    var e := Receive(call, n, Encode(Int64Message(v)), true, None);
    assert Guard(s, e);
    ReceiveOutcome(s, call, n, Encode(Int64Message(v)), true, None);
    StepTasks(s, e);
    hide Guard, Next;
    StepKeepsInv(s, e);
    OneStep(s, e);
    t := Next(s, e);
  }

  /** Whatever has happened, any server can come to lead, take a call to add any amount, and answer it
      with success; and the amount is then in the log. */
  lemma NoDeadEnd(s: State, n: Peer, call: CallId, v: int64)
    requires Reachable(s) && n < |s.servers| && call !in s.calls
    ensures exists t :: Leads(s, t) && call in t.calls && Acked(t.calls[call])
              && exists i :: At(t.log, call, i) && Delta(t.log[i]) == v
  {
    ReachableInv(s);
    hide Inv, Reachable, Leads, Acked, Int64Message, Int64Of, Delta;
    var s1, term := TakesOver(s, n);
    assert call !in s1.calls.Keys;
    var s2 := RequestSubmitted(s1, n, call, v);
    QueuedSucceeds(s2, n, call, term);
    var t :| Leads(s2, t) && call in t.calls && Acked(t.calls[call]);
    LeadsOn(s, s1, s2);
    LeadsOn(s, s2, t);
    AskedStays(s2, t, call);
    AmountOfMessage(v);
    ReachableOn(s, t);
    FetchAddIsAtomic(t, call);
  }

  lemma AmountOfMessage(v: int64)
    ensures Int64Of(Int64Message(v)) == v
  {
    SignedRoundTrip(v);
  }

  lemma {:induction false} RunKeepsAsked(s: State, es: seq<Event>, call: CallId)
    requires Inv(s) && Run(s, es).Some? && call in s.calls
    ensures call in Run(s, es).value.calls && SameAsked(s.calls[call], Run(s, es).value.calls[call])
    decreases |es|
  {
    hide Inv, Guard, Next;
    if es != [] {
      StepKeepsInv(s, es[0]);
      StepKeepsAsked(s, es[0], call);
      RunKeepsAsked(Next(s, es[0]), es[1..], call);
    }
  }

  lemma AskedStays(s: State, t: State, call: CallId)
    requires Inv(s) && Leads(s, t) && call in s.calls
    ensures call in t.calls && SameAsked(s.calls[call], t.calls[call])
  {
    hide Inv, Run;
    var es :| Run(s, es) == Some(t);
    RunKeepsAsked(s, es, call);
  }
}
