/** How far the guarantees go, exactly: when a refused add can still take effect, and what the term
    check is for. */
module ClusterLimits {
  import opened Basics
  import opened Messages
  import opened CounterSpec
  import opened Cluster
  import opened ClusterInvariant
  import opened ClusterTheorems
  import opened ClusterRuns

  // ---- Refused adds ----

  /** The task of `call` is in some log tail and no later term has committed anything. */
  predicate CanCommit(s: State, call: CallId) {
    call in s.inflight && LastTerm(s.log) <= s.inflight[call].term
  }

  /** Completed, and out of the log for good. */
  ghost predicate Out(s: State, call: CallId) {
    call in s.calls && s.calls[call].runs == 1 && !Logged(s.log, call) && !CanCommit(s, call)
  }

  lemma TaskOf(s: State, e: Event)
    requires Inv(s) && Guard(s, e)
    ensures e.Commit? ==> s.inflight[e.call].Data? && s.inflight[e.call].call == e.call
  {
    hide Inv, Encode;
    if e.Commit? {
      TaskFacts(s, e.call);
    }
  }

  lemma TaskFacts(s: State, call: CallId)
    requires Inv(s) && call in s.inflight
    ensures s.inflight[call].Data? && s.inflight[call].call == call && s.inflight[call].term in s.elected
  {
    hide ServerInv, CallInv, ClientInv, Encode;
    assert TaskInv(s, call, s.inflight[call]);
  }

  /** A commit appends one entry, of a term no earlier than any before it. */
  lemma CommitShape(s: State, e: Event)
    requires Guard(s, e) && (e.Commit? || e.CommitConfig?)
    ensures var t := Next(s, e);
            && t.calls == s.calls && |t.log| == |s.log| + 1 && s.log <= t.log
            && LastTerm(s.log) <= LastTerm(t.log)
            && (e.Commit? ==> t.log[|s.log|] == s.inflight[e.call])
            && (t.log[|s.log|].Data? ==> e.Commit? && CanCommit(s, e.call) && t.log[|s.log|] == s.inflight[e.call])
            && forall c | c in t.inflight :: c in s.inflight && t.inflight[c] == s.inflight[c]
  {
    hide DoReceive, DoAccept, DoApply, DoRunClosure, DoSave, DoLoad, DoCrash, Parse;
  }

  lemma CommitKeepsOut(s: State, e: Event, call: CallId)
    requires Inv(s) && Guard(s, e) && Out(s, call) && (e.Commit? || e.CommitConfig?)
    ensures Out(Next(s, e), call)
  {
    TaskOf(s, e);
    CommitShape(s, e);
    hide *;
    AppendKeepsOut(s, Next(s, e), e, call);
  }

  lemma AppendKeepsOut(s: State, t: State, e: Event, call: CallId)
    requires Out(s, call) && t.calls == s.calls && |t.log| == |s.log| + 1 && s.log <= t.log
    requires LastTerm(s.log) <= LastTerm(t.log)
    requires t.log[|s.log|].Data? ==> e.Commit? && CanCommit(s, e.call) && t.log[|s.log|].call == e.call
    requires forall c | c in t.inflight :: c in s.inflight && t.inflight[c] == s.inflight[c]
    ensures Out(t, call)
  {
    assert forall i | At(t.log, call, i) :: At(s.log, call, i);
  }

  /** Only accepting a task puts it into a log tail. */
  lemma StepTasks(s: State, e: Event)
    requires Guard(s, e) && !e.Commit? && !e.CommitConfig?
    ensures Next(s, e).log == s.log
    ensures forall c | c in Next(s, e).inflight :: (c in s.inflight && Next(s, e).inflight[c] == s.inflight[c])
              || (exists n :: 0 <= n < |s.servers| && c in Phases(s, n))
  {
    hide Encode, ParseInt64, Int64Of, Parse, DoCrash, DoApply;
    if e.Crash? || e.Apply? {
      CrashShape(s, e.n);
    }
    if e.Apply? {
      ApplyShape(s, e.n);
    }
  }

  lemma StepKeepsOut(s: State, e: Event, call: CallId)
    requires Inv(s) && Guard(s, e) && Out(s, call)
    ensures Out(Next(s, e), call)
  {
    if e.Commit? || e.CommitConfig? {
      hide *;
      CommitKeepsOut(s, e, call);
    } else {
      hide Inv, Guard, Next, Logged;
      StepKeepsCompleted(s, e, call);
      CompletedIsNowhere(s, call);
      StepTasks(s, e);
    }
  }

  lemma {:induction false} RunKeepsOut(s: State, es: seq<Event>, call: CallId)
    requires Inv(s) && Run(s, es).Some? && Out(s, call)
    ensures Out(Run(s, es).value, call)
    decreases |es|
  {
    hide Inv, Guard, Next, Out;
    if es != [] {
      StepKeepsInv(s, es[0]);
      StepKeepsOut(s, es[0], call);
      RunKeepsOut(Next(s, es[0]), es[1..], call);
    }
  }

  ghost predicate CommitsLater(s: State, call: CallId) {
    exists t :: Leads(s, t) && Logged(t.log, call)
  }

  lemma OutStaysOut(s: State, call: CallId)
    requires Inv(s) && Out(s, call)
    ensures !CommitsLater(s, call)
  {
    hide Inv, Run, Logged;
    forall t | Leads(s, t)
      ensures !Logged(t.log, call)
    {
      var es :| Run(s, es) == Some(t);
      RunKeepsOut(s, es, call);
    }
  }

  /** A refused add takes effect after all exactly if it already has, or its task survives in a
      log tail that no later term has overtaken. */
  lemma RefusedAddCommits(s: State, call: CallId)
    requires Reachable(s) && call in s.calls && s.calls[call].runs == 1 && Refused(s.calls[call].response)
    ensures CommitsLater(s, call) <==> Logged(s.log, call) || CanCommit(s, call)
  {
    ReachableInv(s);
    hide Inv, Run, Reachable, Refused, Logged;
    if Logged(s.log, call) {
      NoStep(s);
    } else if CanCommit(s, call) {
      CommitNow(s, call);
    } else {
      OutStaysOut(s, call);
    }
  }

  lemma CommitNow(s: State, call: CallId)
    requires Inv(s) && CanCommit(s, call)
    ensures CommitsLater(s, call)
  {
    hide Inv, Run, Guard, Next;
    NoStep(s);
    if Config(s.inflight[call].term) in s.log {
      CommitAfter(s, s, call);
    } else {
      var e := CommitConfig(s.inflight[call].term);
      ConfigFirst(s, call);
      StepKeepsInv(s, e);
      Then(s, s, e, Next(s, e));
      CommitAfter(s, Next(s, e), call);
    }
  }

  lemma ConfigAppended(s: State, term: nat)
    requires term in s.elected && LastTerm(s.log) <= term
    ensures Guard(s, CommitConfig(term)) && Next(s, CommitConfig(term)) == s.(log := s.log + [Config(term)])
  {
    hide LastTerm;
  }

  /** The configuration entry of the task's term can be committed first. */
  lemma ConfigFirst(s: State, call: CallId)
    requires Inv(s) && CanCommit(s, call)
    ensures var e := CommitConfig(s.inflight[call].term);
            && Guard(s, e) && CanCommit(Next(s, e), call)
            && Config(Next(s, e).inflight[call].term) in Next(s, e).log
  {
    hide Inv, Guard, Next;
    TaskFacts(s, call);
    ConfigAppended(s, s.inflight[call].term);
    assert (s.log + [Config(s.inflight[call].term)])[|s.log|] == Config(s.inflight[call].term);
  }

  lemma CommitAfter(s: State, t: State, call: CallId)
    requires Leads(s, t) && Inv(t) && CanCommit(t, call) && Config(t.inflight[call].term) in t.log
    ensures CommitsLater(s, call)
  {
    hide Inv, Run, Next;
    var e := Commit(call);
    TaskFacts(t, call);
    assert Guard(t, e);
    hide Guard;
    CommitShape(t, e);
    Then(s, t, e, Next(t, e));
    assert At(Next(t, e).log, call, |t.log|);
  }

  /** A call refused on the spot, by a follower or for a request that did not serialize, never
      takes effect. */
  lemma RefusedAtOnceNeverCommits(s: State, call: CallId)
    requires Reachable(s) && call in s.calls && s.calls[call].news == 0
    ensures !CommitsLater(s, call)
  {
    ReachableInv(s);
    UnsubmittedIsOut(s, call);
    hide *;
    OutStaysOut(s, call);
  }

  /** Whatever is in the log or a log tail was submitted with a closure. */
  lemma TasksWereSubmitted(s: State)
    requires LogInv(s)
    ensures forall c | c in s.inflight :: c in s.calls && s.calls[c].news == 1
    ensures forall c | Logged(s.log, c) :: c in s.calls && s.calls[c].news == 1
  {
    hide Encode;
    assert forall c | c in s.inflight :: TaskInv(s, c, s.inflight[c]);
    assert forall i | 0 <= i < |s.log| && s.log[i].Data? :: EntryInv(s, s.log[i]);
  }

  lemma UnsubmittedIsOut(s: State, call: CallId)
    requires Inv(s) && call in s.calls && s.calls[call].news == 0
    ensures Out(s, call)
  {
    InvParts(s);
    UnsubmittedIsDone(s, call);
    TasksWereSubmitted(s);
    hide Inv, LogInv, Logged;
  }

  lemma UnsubmittedIsDone(s: State, call: CallId)
    requires Inv(s) && call in s.calls && s.calls[call].news == 0
    ensures s.calls[call].runs == 1
  {
    hide LogInv, ServerInv, ClientInv, Encode, ParseInt64, Int64Of;
    assert CallInv(s, call);
  }

  // ---- The term check ----

  ghost predicate EntriesOfReadTerms(s: State) {
    forall i | 0 <= i < |s.log| && s.log[i].Data? ::
      s.log[i].call in s.calls && s.log[i].term == s.calls[s.log[i].call].readTerm
  }

  /** Every entry is of the term its handler read, in every run, exactly if check_term is on. */
  lemma TermCheckDecides(checkTerm: bool, n: nat)
    requires n > 0
    ensures checkTerm <==> forall s | Leads(Init(checkTerm, n), s) :: EntriesOfReadTerms(s)
  {
    hide Run, Init;
    if checkTerm {
      forall s | Leads(Init(checkTerm, n), s)
        ensures EntriesOfReadTerms(s)
      {
        RunsKeepCheckTerm(checkTerm, n, s);
        AbaFreedom(s);
      }
    } else {
      UncheckedTermsCanDiffer(n, 1);
    }
  }

  lemma RunsKeepCheckTerm(checkTerm: bool, n: nat, s: State)
    requires Leads(Init(checkTerm, n), s)
    ensures s.checkTerm == checkTerm && Reachable(s)
  {
    LeadsExtends(Init(checkTerm, n), s);
    Reached(checkTerm, n, s);
  }
}
