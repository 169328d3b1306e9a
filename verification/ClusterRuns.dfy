/** Runs that show where the guarantees end: what the term check is needed for, what a failure
    does not mean, and how far a leader's read may lag. */
module ClusterRuns {
  import opened Basics
  import opened Wire
  import opened Messages
  import opened CounterSpec
  import opened Cluster
  import opened ClusterInvariant
  import opened ClusterTheorems

  lemma {:induction false} RunThenStep(s: State, es: seq<Event>, e: Event)
    requires Run(s, es).Some? && Guard(Run(s, es).value, e)
    ensures Run(s, es + [e]) == Some(Next(Run(s, es).value, e))
    decreases |es|
  {
    hide Guard, Next;
    if es == [] {
      assert ([] + [e])[1..] == [];
    } else {
      assert (es + [e])[1..] == es[1..] + [e];
      RunThenStep(Next(s, es[0]), es[1..], e);
    }
  }

  lemma Then(s: State, t: State, e: Event, u: State)
    requires Leads(s, t) && Guard(t, e) && u == Next(t, e)
    ensures Leads(s, u)
  {
    hide Guard, Next, Run;
    var es :| Run(s, es) == Some(t);
    RunThenStep(s, es, e);
  }

  lemma Reached(checkTerm: bool, n: nat, s: State)
    requires Leads(Init(checkTerm, n), s)
    ensures Reachable(s)
  {
  }

  /** A request to add `v`, as received. */
  lemma RequestParses(v: int64)
    ensures Parse(VARINT, Encode(Int64Message(v))) == Some(Int64Message(v))
  {
    SignedRoundTrip(v);
    RoundTrip(VARINT, Int64Message(v));
  }

  const LEADING: Server := FRESH.(leaderTerm := 1, raftTerm := Some(1), applied := 1)

  /** `n` servers, the first of which leads term 1. */
  function FirstLeader(checkTerm: bool, n: nat): State
    requires n > 0
  {
    Init(checkTerm, n).(
      log := [Config(1)], elected := map[1 := 0],
      servers := Init(checkTerm, n).servers[0 := LEADING])
  }

  /** The first server has won term 1 and its configuration entry is committed. */
  function Won(checkTerm: bool, n: nat): State
    requires n > 0
  {
    Init(checkTerm, n).(
      log := [Config(1)], elected := map[1 := 0],
      servers := Init(checkTerm, n).servers[0 := FRESH.(raftTerm := Some(1), starting := {1})])
  }

  lemma WonLeads(checkTerm: bool, n: nat)
    requires n > 0
    ensures Leads(Init(checkTerm, n), Won(checkTerm, n))
  {
    hide Encode, ParseInt64, Parse, Run, DoReceive, DoAccept, DoApply, DoRunClosure, DoSave, DoLoad, DoCrash;
    var s0 := Init(checkTerm, n);
    NoStep(s0);
    var s1 := SetServer(s0, 0, FRESH.(raftTerm := Some(1), starting := {1})).(elected := map[1 := 0]);
    assert FRESH.starting + {1} == {1};
    Then(s0, s0, Elect(0, 1), s1);
    Then(s0, s1, CommitConfig(1), Won(checkTerm, n));
  }

  lemma FirstLeaderLeads(checkTerm: bool, n: nat)
    requires n > 0
    ensures Leads(Init(checkTerm, n), FirstLeader(checkTerm, n))
  {
    WonLeads(checkTerm, n);
    hide Encode, ParseInt64, Parse, Run, DoReceive, DoAccept, DoRunClosure, DoSave, DoLoad, DoCrash;
    var s0, s2 := Init(checkTerm, n), Won(checkTerm, n);
    var s3 := SetServer(s2, 0, s2.servers[0].(applied := 1));
    Then(s0, s2, Apply(0), s3);
    assert s3.log[..1] == s3.log && Config(1) in s3.log;
    assert s3.servers[0].starting - {1} == {};
    Then(s0, s3, LeaderStart(0, 1), FirstLeader(checkTerm, n));
  }

  lemma NoStep(s: State)
    ensures Leads(s, s)
  {
    assert Run(s, []) == Some(s);
  }

  /** Call 7, adding `v`, waits at the leader to be accepted. */
  function Waiting(checkTerm: bool, n: nat, v: int64): State
    requires n > 0
  {
    var request := Int64Message(v);
    FirstLeader(checkTerm, n).(
      attempts := 1,
      servers := Init(checkTerm, n).servers[0 :=
        SetPhase(LEADING, 7, Queued(Encode(request), if checkTerm then 1 else NO_TERM))],
      calls := map[7 := Call(0, request, 1, BLANK, 0, 1, 0, false, false)])
  }

  lemma WaitingReached(checkTerm: bool, n: nat, v: int64)
    requires n > 0
    ensures Leads(Init(checkTerm, n), Waiting(checkTerm, n, v))
  {
    hide Encode, ParseInt64, Parse, Run, Int64Message;
    var s := FirstLeader(checkTerm, n);
    FirstLeaderLeads(checkTerm, n);
    RequestParses(v);
    assert Int64Message(v).known.Some? by { Int64RoundTrip(v); }
    Then(Init(checkTerm, n), s, Receive(7, 0, Encode(Int64Message(v)), true, None), Waiting(checkTerm, n, v));
  }

  /** Without check_term the ABA problem is real: a handler reads term 1, its server loses the
      leadership and wins it again, and the task gets into the log in term 2. */
  lemma UncheckedTermsCanDiffer(n: nat, v: int64)
    requires n > 0
    ensures exists s ::
              Leads(Init(false, n), s) && 7 in s.calls && s.calls[7].readTerm == 1
              && |s.log| == 3 && s.log[1] == Config(2) && s.log[2].Data? && s.log[2].call == 7 && s.log[2].term == 2
  {
    hide Encode, ParseInt64, Parse, Run, Int64Message;
    var i, s0 := Init(false, n), Waiting(false, n, v);
    WaitingReached(false, n, v);
    var s1 := SetServer(s0, 0, s0.servers[0].(raftTerm := None));
    Then(i, s0, StepDown(0), s1);
    var s2 := Next(s1, Elect(0, 2));
    Then(i, s1, Elect(0, 2), s2);
    var s3 := Next(s2, Accept(0, 7));
    Then(i, s2, Accept(0, 7), s3);
    assert s3.inflight[7].term == 2;
    var s4 := Next(s3, CommitConfig(2));
    Then(i, s3, CommitConfig(2), s4);
    assert s4.log[1] == Config(2);
    var s5 := Next(s4, Commit(7));
    Then(i, s4, Commit(7), s5);
  }

  /** A failure answered to the caller is not a promise that nothing happened: the leader steps
      down, the closure is failed, and the entry is committed all the same. */
  lemma FailedAddCanCommit(v: int64)
    ensures exists s ::
              Reachable(s) && 7 in s.calls && s.calls[7].runs == 1 && Refused(s.calls[7].response)
              && Logged(s.log, 7)
  {
    hide Encode, ParseInt64, Parse, Run, Int64Message, Reachable;
    var i, s0 := Init(true, 1), Waiting(true, 1, v);
    WaitingReached(true, 1, v);
    var s1 := Next(s0, Accept(0, 7));
    Then(i, s0, Accept(0, 7), s1);
    var s2 := SetServer(s1, 0, s1.servers[0].(raftTerm := None));
    Then(i, s1, StepDown(0), s2);
    var s3 := Next(s2, FailTask(0, 7));
    Then(i, s2, FailTask(0, 7), s3);
    var s4 := Next(s3, RunClosure(0, 7, None));
    Then(i, s3, RunClosure(0, 7, None), s4);
    assert s4.log[0] == Config(1);
    var s5 := Next(s4, Commit(7));
    Then(i, s4, Commit(7), s5);
    assert At(s5.log, 7, 1);
    Reached(true, 1, s5);
  }

  /** The first server has stepped down, but its on_leader_stop is still to come. */
  const DEPOSED: Server := LEADING.(raftTerm := None)

  /** Two servers or more: the first still believes it leads term 1, the second leads term 2. */
  function TwoLeaders(checkTerm: bool, n: nat): State
    requires n >= 2
  {
    SecondWon(checkTerm, n).(
      servers := Init(checkTerm, n).servers[0 := DEPOSED]
                                           [1 := FRESH.(leaderTerm := 2, raftTerm := Some(2), applied := 2)])
  }

  /** The second server has won term 2, and committed that, behind the back of the first. */
  function SecondWon(checkTerm: bool, n: nat): State
    requires n >= 2
  {
    FirstLeader(checkTerm, n).(
      log := [Config(1), Config(2)], elected := map[1 := 0, 2 := 1],
      servers := Init(checkTerm, n).servers[0 := DEPOSED][1 := FRESH.(raftTerm := Some(2), starting := {2})])
  }

  lemma FirstDeposed(checkTerm: bool, n: nat)
    requires n >= 2
    ensures Leads(Init(checkTerm, n), SetServer(FirstLeader(checkTerm, n), 0, DEPOSED))
  {
    FirstLeaderLeads(checkTerm, n);
    hide Encode, ParseInt64, Parse, Run, DoReceive, DoAccept, DoApply, DoRunClosure, DoSave, DoLoad, DoCrash;
    var s := FirstLeader(checkTerm, n);
    Then(Init(checkTerm, n), s, StepDown(0), SetServer(s, 0, DEPOSED));
  }

  lemma SecondWonReached(checkTerm: bool, n: nat)
    requires n >= 2
    ensures Leads(Init(checkTerm, n), SecondWon(checkTerm, n))
  {
    FirstDeposed(checkTerm, n);
    hide Encode, ParseInt64, Parse, Run, DoReceive, DoAccept, DoApply, DoRunClosure, DoSave, DoLoad, DoCrash;
    var i, s1 := Init(checkTerm, n), SetServer(FirstLeader(checkTerm, n), 0, DEPOSED);
    var s2 := s1.(elected := map[1 := 0, 2 := 1], servers := SecondWon(checkTerm, n).servers);
    assert FRESH.starting + {2} == {2};
    Then(i, s1, Elect(1, 2), s2);
    Then(i, s2, CommitConfig(2), SecondWon(checkTerm, n));
  }

  lemma TwoApplied(checkTerm: bool, n: nat)
    requires n >= 2
    ensures var s := SecondWon(checkTerm, n);
            Leads(Init(checkTerm, n), SetServer(s, 1, s.servers[1].(applied := 2)))
  {
    SecondWonReached(checkTerm, n);
    hide Encode, ParseInt64, Parse, Run, DoReceive, DoAccept, DoRunClosure, DoSave, DoLoad, DoCrash;
    var i, s2 := Init(checkTerm, n), SecondWon(checkTerm, n);
    var s3 := SetServer(s2, 1, s2.servers[1].(applied := 1));
    Then(i, s2, Apply(1), s3);
    Then(i, s3, Apply(1), SetServer(s2, 1, s2.servers[1].(applied := 2)));
  }

  lemma TwoLeadersReached(checkTerm: bool, n: nat)
    requires n >= 2
    ensures Leads(Init(checkTerm, n), TwoLeaders(checkTerm, n))
  {
    TwoApplied(checkTerm, n);
    hide Encode, ParseInt64, Parse, Run, DoReceive, DoAccept, DoApply, DoRunClosure, DoSave, DoLoad, DoCrash;
    var s2 := SecondWon(checkTerm, n);
    var s4 := SetServer(s2, 1, s2.servers[1].(applied := 2));
    assert s4.log[..2] == s4.log && s4.log[1] == Config(2);
    assert s4.servers[1].starting - {2} == {};
    assert SetServer(s4, 1, s4.servers[1].(leaderTerm := 2, starting := {})) == TwoLeaders(checkTerm, n);
    Then(Init(checkTerm, n), s4, LeaderStart(1, 2), TwoLeaders(checkTerm, n));
  }

  /** An add of 5 has been acknowledged. The second server has applied it and answers a get with 5;
      the first, which says it leads too, has not, and answers with 0. */
  ghost predicate ReadsStale(s: State) {
    && |s.servers| >= 2 && 7 in s.calls && Acked(s.calls[7]) && Int64Of(s.calls[7].request) == 5
    && s.servers[0].leaderTerm > 0
    && HandleGet(s.servers[0].value, s.servers[0].leaderTerm, None) == Response(Some(true), Some(0), None)
    && (forall i | At(s.log, 7, i) :: i >= s.servers[0].applied)
    && s.servers[1].leaderTerm > 0
    && HandleGet(s.servers[1].value, s.servers[1].leaderTerm, None) == Response(Some(true), Some(5), None)
    && (exists i :: At(s.log, 7, i) && i < s.servers[1].applied)
    && s.servers[0].applied <= |s.log| && s.servers[1].applied <= |s.log|
  }

  /** A get is not linearizable across leaders: in any group of two or more, a deposed leader that
      has not yet been told so can still answer, miss an acknowledged add, and go back behind what its
      successor has answered. */
  lemma DeposedLeaderReadsStale(checkTerm: bool, n: nat)
    requires n >= 2
    ensures exists s :: Leads(Init(checkTerm, n), s) && ReadsStale(s)
  {
    hide Encode, ParseInt64, Parse, Run, Int64Message, Int64Of, Wrap64, ReadsStale;
    var i, s0, request := Init(checkTerm, n), TwoLeaders(checkTerm, n), Int64Message(5);
    TwoLeadersReached(checkTerm, n);
    RequestParses(5);
    assert request.known.Some? && Int64Of(request) == 5 by { FiveIsFive(); }
    var s1 := Next(s0, Receive(7, 1, Encode(request), true, None));
    Then(i, s0, Receive(7, 1, Encode(request), true, None), s1);
    assert s1.servers[1].closures == map[7 := Queued(Encode(request), if checkTerm then 2 else NO_TERM)];
    var s2 := Next(s1, Accept(1, 7));
    Then(i, s1, Accept(1, 7), s2);
    assert s2.log[1] == Config(2);
    var s3 := Next(s2, Commit(7));
    Then(i, s2, Commit(7), s3);
    StaleAfterCommit(i, s3);
  }

  lemma FiveIsFive()
    ensures Int64Message(5).known.Some? && Int64Of(Int64Message(5)) == 5
  {
  }

  lemma StaleAfterCommit(i: State, s: State)
    requires Leads(i, s) && |s.servers| >= 2 && s.servers[0] == DEPOSED
    requires s.servers[1].applied == 2 && |s.log| == 3 && At(s.log, 7, 2) && s.log[0].Config? && s.log[1].Config?
    requires s.servers[1].closures == map[7 := Accepted]
    requires s.servers[1].leaderTerm == 2 && s.servers[1].value == 0
    requires 7 in s.calls && s.calls[7].response == BLANK && s.calls[7].runs == 0
    requires Int64Of(s.calls[7].request) == 5
    ensures exists t :: Leads(i, t) && ReadsStale(t)
  {
    hide Encode, ParseInt64, Parse, Run, Int64Message, Int64Of, Wrap64;
    WrapSmall(5);
    var s4 := Next(s, Apply(1));
    Then(i, s, Apply(1), s4);
    assert s4.servers[1].value == 5 && At(s4.log, 7, 2);
    var s5 := Next(s4, RunClosure(1, 7, None));
    Then(i, s4, RunClosure(1, 7, None), s5);
    assert s5.servers[0] == DEPOSED;
    assert ReadsStale(s5);
  }
}
