/** What a get answered by a leader contains. The handler tests the leader term first and loads the
    value afterwards, and anything but its own death may happen in between: the test is made in a
    state `s`, the load in a later state `t`. */
module ClusterReads {
  import opened Basics
  import opened Messages
  import opened CounterSpec
  import opened Cluster
  import opened ClusterInvariant
  import opened ClusterTheorems
  import opened ClusterRuns
  import opened ClusterLimits

  /** `es` leads from `s` to `t`, and the process `n` lives through it. */
  ghost predicate Survives(s: State, es: seq<Event>, t: State, n: Peer) {
    n < |s.servers| && Run(s, es) == Some(t) && Crash(n) !in es
  }

  // ---- How one step can change one server ----

  /** Its process starts anew, or stays in or leaves office, or wins a new term, or takes office with
      that term's entry applied; unless it starts anew, nothing applied is undone. */
  ghost predicate Stands(s: State, sv: Server, tv: Server) {
    || (tv.leaderTerm == NO_TERM && tv.starting == {})
    || (tv.applied >= sv.applied
        && (|| (tv.leaderTerm in {sv.leaderTerm, NO_TERM} && tv.starting == sv.starting)
            || (tv.leaderTerm == sv.leaderTerm && forall u | u in tv.starting :: u in sv.starting || u !in s.elected)
            || TakesOffice(s, sv, tv)))
  }

  ghost predicate TakesOffice(s: State, sv: Server, tv: Server) {
    && sv.leaderTerm == NO_TERM && tv.leaderTerm in sv.starting && tv.starting == sv.starting - {tv.leaderTerm}
    && tv.applied == sv.applied <= |s.log| && Config(tv.leaderTerm) in s.log[..sv.applied]
  }

  predicate ChangesLeadership(e: Event) {
    e.Load? || e.Elect? || e.StepDown? || e.LeaderStart? || e.LeaderStop?
  }

  lemma OtherStands(s: State, e: Event, n: Peer)
    requires Guard(s, e) && n < |s.servers| && !ChangesLeadership(e) && !e.Crash? && !e.Apply?
    ensures n < |Next(s, e).servers|
    ensures var sv, tv := s.servers[n], Next(s, e).servers[n];
            tv.applied == sv.applied && tv.leaderTerm == sv.leaderTerm && tv.starting == sv.starting
  {
    hide Encode, ParseInt64, Int64Of, Parse, DoCrash, DoApply, DoReceive, DoLoad;
    if e.Receive? {
      ReceiveShape(s, e.call, e.n, e.wire, e.serializes, e.leader);
    }
  }

  lemma LeadershipStands(s: State, e: Event, n: Peer)
    requires Guard(s, e) && n < |s.servers| && ChangesLeadership(e)
    ensures n < |Next(s, e).servers| && Stands(s, s.servers[n], Next(s, e).servers[n])
    ensures Next(s, e).servers[n].applied >= s.servers[n].applied
  {
    hide ParseInt64, DoReceive, DoAccept, DoApply, DoRunClosure, DoSave, DoCrash, Parse;
  }

  lemma CrashStands(s: State, m: Peer, n: Peer)
    requires m < |s.servers| && n < |s.servers|
    ensures n < |DoCrash(s, m).servers| && Stands(s, s.servers[n], DoCrash(s, m).servers[n])
    ensures m != n ==> DoCrash(s, m).servers[n] == s.servers[n]
  {
    hide DoCrash;
    CrashShape(s, m);
  }

  lemma ApplyStands(s: State, m: Peer, n: Peer)
    requires Guard(s, Apply(m)) && n < |s.servers|
    ensures n < |DoApply(s, m).servers| && Stands(s, s.servers[n], DoApply(s, m).servers[n])
    ensures m != n ==> DoApply(s, m).servers[n] == s.servers[n]
  {
    hide DoApply, DoCrash, ParseInt64;
    ApplyShape(s, m);
    CrashStands(s, m, n);
  }

  lemma StepStands(s: State, e: Event, n: Peer)
    requires Guard(s, e) && n < |s.servers|
    ensures n < |Next(s, e).servers| && Stands(s, s.servers[n], Next(s, e).servers[n])
    ensures e != Crash(n) && e != Apply(n) ==> Next(s, e).servers[n].applied >= s.servers[n].applied
  {
    if e.Crash? || e.Apply? {
      hide DoCrash, DoApply, Stands, DoReceive, DoAccept, DoRunClosure, DoSave, DoLoad, Parse;
      CrashStands(s, e.n, n);
      if e.Apply? {
        ApplyStands(s, e.n, n);
      }
    } else if ChangesLeadership(e) {
      hide *;
      LeadershipStands(s, e, n);
    } else {
      hide Guard, Next;
      OtherStands(s, e, n);
    }
  }

  lemma StepMoves(s: State, e: Event, n: Peer)
    requires Guard(s, e) && n < |s.servers|
    ensures n < |Next(s, e).servers| && Moves(s, s.servers[n], Next(s, e).servers[n])
  {
    hide Guard, Next;
    StepStands(s, e, n);
  }

  // ---- A living process never goes back ----

  lemma ApplyCounts(s: State, n: Peer)
    requires Inv(s) && Guard(s, Apply(n))
    ensures |DoApply(s, n).servers| == |s.servers|
    ensures DoApply(s, n).servers[n].applied == s.servers[n].applied + 1
  {
    hide Inv, DoApply, DoCrash, ParseInt64, Int64Of, Encode;
    ApplyShape(s, n);
    if s.log[s.servers[n].applied].Data? {
      CommittedBytesParse(s, s.servers[n].applied);
    }
  }

  lemma StepAdvances(s: State, e: Event, n: Peer)
    requires Inv(s) && Guard(s, e) && n < |s.servers| && e != Crash(n)
    ensures n < |Next(s, e).servers| && Next(s, e).servers[n].applied >= s.servers[n].applied
  {
    if e == Apply(n) {
      hide Inv, DoApply;
      ApplyCounts(s, n);
    } else {
      hide *;
      StepStands(s, e, n);
    }
  }

  lemma {:induction false} RunAdvances(s: State, es: seq<Event>, n: Peer)
    requires Inv(s) && Run(s, es).Some? && n < |s.servers| && Crash(n) !in es
    ensures n < |Run(s, es).value.servers| && Run(s, es).value.servers[n].applied >= s.servers[n].applied
    decreases |es|
  {
    hide Inv, Guard, Next;
    if es != [] {
      StepKeepsInv(s, es[0]);
      StepAdvances(s, es[0], n);
      RunAdvances(Next(s, es[0]), es[1..], n);
    }
  }

  // ---- One get ----

  /** Every add acknowledged by `n` to a call that read term `u`, or by anyone from an entry of
      term `u`, is within the first `k` entries. */
  ghost predicate HasAcknowledged(s: State, n: Peer, u: int, k: nat) {
    forall c | c in s.calls && Acked(s.calls[c]) ::
      && (s.calls[c].node == n && s.calls[c].readTerm == u ==> exists i :: At(s.log, c, i) && i < k)
      && forall i | At(s.log, c, i) && s.log[i].term == u :: i < k
  }

  lemma LeaderTermIsWon(s: State, n: Peer)
    requires Inv(s) && n < |s.servers|
    ensures LeaderInv(s, n, s.servers[n])
    ensures s.servers[n].leaderTerm == NO_TERM || s.servers[n].leaderTerm >= 1
  {
    hide LogInv, CallInv, ClientInv, ValueInv, ClosureInv;
    assert ServerInv(s, n);
  }

  /** What a leader, or anyone in the term it leads, has acknowledged is applied here. */
  lemma OwnTermIsBehind(s: State, n: Peer)
    requires Inv(s) && n < |s.servers| && s.servers[n].leaderTerm > 0 && LeaderInv(s, n, s.servers[n])
    ensures HasAcknowledged(s, n, s.servers[n].leaderTerm, s.servers[n].applied)
  {
    hide ServerInv, ClientInv, TaskInv, Encode, ParseInt64, Int64Of, Fold, Succeeded;
    forall c | c in s.calls && Acked(s.calls[c])
      ensures CallInv(s, c)
    {
    }
    assert forall i | 0 <= i < |s.log| && s.log[i].Data? :: EntryInv(s, s.log[i]);
    hide Inv;
  }

  lemma EarlierTermsAreBehind(s: State, t: State, n: Peer)
    requires Inv(t) && Extends(s, t) && n < |s.servers| && LeaderInv(s, n, s.servers[n])
    requires s.servers[n].leaderTerm > 0
    ensures forall i | 0 <= i < |t.log| && t.log[i].term < s.servers[n].leaderTerm :: i < s.servers[n].applied
  {
    hide ServerInv, CallInv, ClientInv, EntryInv;
    var sv := s.servers[n];
    var k :| 0 <= k < sv.applied && k < |s.log| && s.log[k] == Config(sv.leaderTerm);
    assert t.log[k] == Config(sv.leaderTerm);
  }

  /** Every state on the way is as good as the first, and no less is applied at `n`. */
  lemma SurvivesKeeps(s: State, es: seq<Event>, t: State, n: Peer)
    requires Inv(s) && Survives(s, es, t, n)
    ensures Inv(t) && Extends(s, t)
    ensures n < |t.servers| && t.servers[n].applied >= s.servers[n].applied
  {
    hide Inv, Run;
    RunKeepsInv(s, es);
    RunExtends(s, es);
    RunAdvances(s, es, n);
  }

  /** The two tests on `_leader_term`, made in `s`, and what a get that passed them reads in `t`:
      every entry of an earlier term than the one tested, now and in any later state `u`, and every
      add this leadership has acknowledged. */
  lemma LeaderReads(s: State, es: seq<Event>, t: State, u: State, n: Peer, leader: Option<Peer>)
    requires Reachable(s) && Survives(s, es, t, n) && Leads(t, u)
    ensures s.servers[n].leaderTerm > 0 <==> !(s.servers[n].leaderTerm < 0)
    ensures n < |t.servers| && t.servers[n].applied <= |t.log|
    ensures s.servers[n].leaderTerm > 0 ==>
              var term, k := s.servers[n].leaderTerm, t.servers[n].applied;
              && HandleGet(t.servers[n].value, term, leader)
                 == Response(Some(true), Some(Wrap64(Sum(t.log[..k]))), None)
              && (forall i | 0 <= i < |u.log| && u.log[i].term < term :: i < k)
              && HasAcknowledged(s, n, term, k)
  {
    ReachableInv(s);
    SurvivesKeeps(s, es, t, n);
    LeadsInv(t, u);
    LeadsExtends(t, u);
    ValueOfPrefix(t, n);
    LeaderTermIsWon(s, n);
    hide Inv, Reachable, Leads, Survives, Sum, Wrap64, LeaderInv, HasAcknowledged;
    if s.servers[n].leaderTerm > 0 {
      assert Extends(s, u);
      hide Extends;
      EarlierTermsAreBehind(s, u, n);
      OwnTermIsBehind(s, n);
      MoreIsApplied(s, n, s.servers[n].leaderTerm, s.servers[n].applied, t.servers[n].applied);
    }
  }

  /** A get tested in `s` and loaded in `t` answers with success. */
  predicate GetSucceeds(s: State, t: State, n: Peer) {
    && n < |s.servers| && n < |t.servers|
    && HandleGet(t.servers[n].value, s.servers[n].leaderTerm, None).success == Some(true)
  }

  /** Whom a get is answered by: only a server that has won the term it believes to lead, and has
      applied that term's configuration entry, answers with success; any other refuses, without a
      value, and names the leader it knows. */
  lemma GetOutcome(s: State, es: seq<Event>, t: State, n: Peer, leader: Option<Peer>)
    requires Reachable(s) && Survives(s, es, t, n)
    ensures n < |t.servers|
    ensures var term, r := s.servers[n].leaderTerm, HandleGet(t.servers[n].value, s.servers[n].leaderTerm, leader);
            if term >= 1 then
              && r == Response(Some(true), Some(t.servers[n].value), None)
              && GetSucceeds(s, t, n) && WonBy(s, term, n)
              && exists i :: 0 <= i < s.servers[n].applied && i < |s.log| && s.log[i] == Config(term)
            else
              && r == Response(Some(false), None, leader)
              && !GetSucceeds(s, t, n) && term == -1
  {
    ReachableInv(s);
    SurvivesKeeps(s, es, t, n);
    LeaderTermIsWon(s, n);
    hide Inv, Survives, Reachable;
  }

  lemma MoreIsApplied(s: State, n: Peer, u: int, j: nat, k: nat)
    requires HasAcknowledged(s, n, u, j) && j <= k
    ensures HasAcknowledged(s, n, u, k)
  {
    hide Acked;
  }

  /** `call` took effect within the first `k` entries. */
  ghost predicate Within(log: seq<Entry>, call: CallId, k: nat) {
    exists i :: At(log, call, i) && i < k
  }

  /** An acknowledged add that a leader's get does not contain is of a later term than the one the
      handler saw. */
  lemma MissedAddIsLater(s: State, es: seq<Event>, t: State, n: Peer, call: CallId)
    requires Reachable(s) && Survives(s, es, t, n) && s.servers[n].leaderTerm > 0
    requires call in s.calls && Acked(s.calls[call])
    requires n < |t.servers| && !Within(t.log, call, t.servers[n].applied)
    ensures exists i :: At(s.log, call, i) && s.log[i].term > s.servers[n].leaderTerm
  {
    FetchAddIsAtomic(s, call);
    NoStep(t);
    LeaderReads(s, es, t, t, n, None);
    ReachableInv(s);
    SurvivesKeeps(s, es, t, n);
    hide Reachable, Leads, Delta, Int64Of, Wrap64, Sum, Inv, Survives;
    var i :| At(s.log, call, i);
    assert At(t.log, call, i);
    assert s.log[i].term > s.servers[n].leaderTerm;
  }

  /** What a get that is tested in `s` and loads in `t` must not miss. */
  ghost predicate Current(s: State, t: State, n: Peer)
    requires n < |t.servers|
  {
    forall c | c in s.calls && Acked(s.calls[c]) :: Within(t.log, c, t.servers[n].applied)
  }

  /** As long as no later term has committed anything when the handler makes its test, the get
      contains every add acknowledged by then. */
  lemma LeaderReadIsCurrent(s: State, es: seq<Event>, t: State, n: Peer)
    requires Reachable(s) && Survives(s, es, t, n) && s.servers[n].leaderTerm > 0
    requires LastTerm(s.log) <= s.servers[n].leaderTerm
    ensures n < |t.servers| && Current(s, t, n)
  {
    ReachableInv(s);
    SurvivesKeeps(s, es, t, n);
    TermsRise(s);
    hide Within, Acked, Inv, Reachable, Survives;
    forall c | c in s.calls && Acked(s.calls[c])
      ensures Within(t.log, c, t.servers[n].applied)
    {
      if !Within(t.log, c, t.servers[n].applied) {
        MissedAddIsLater(s, es, t, n, c);
      }
    }
  }

  lemma TermsRise(s: State)
    requires Reachable(s)
    ensures forall i | 0 <= i < |s.log| :: s.log[i].term <= LastTerm(s.log)
  {
    ReachableInv(s);
    hide ServerInv, CallInv, ClientInv, EntryInv, TaskInv;
  }

  // ---- Two gets of one leadership ----

  /** Term `u` was started at `n`, will not be again, and while it lasts at least `k` entries are
      applied there. */
  ghost predicate InOffice(s: State, n: Peer, u: nat, k: nat) {
    && n < |s.servers| && u >= 1 && u in s.elected
    && u !in s.servers[n].starting
    && (s.servers[n].leaderTerm == u ==> s.servers[n].applied >= k)
  }

  lemma StepKeepsOffice(s: State, e: Event, n: Peer, u: nat, k: nat)
    requires Guard(s, e) && InOffice(s, n, u, k)
    ensures InOffice(Next(s, e), n, u, k)
  {
    hide Guard, Next;
    StepMoves(s, e, n);
    StepExtends(s, e);
  }

  lemma {:induction false} RunKeepsOffice(s: State, es: seq<Event>, n: Peer, u: nat, k: nat)
    requires Run(s, es).Some? && InOffice(s, n, u, k)
    ensures InOffice(Run(s, es).value, n, u, k)
    decreases |es|
  {
    hide Guard, Next, InOffice;
    if es != [] {
      StepKeepsOffice(s, es[0], n, u, k);
      RunKeepsOffice(Next(s, es[0]), es[1..], n, u, k);
    }
  }

  lemma LeaderIsInOffice(s: State, n: Peer)
    requires Inv(s) && n < |s.servers| && s.servers[n].leaderTerm > 0
    ensures InOffice(s, n, s.servers[n].leaderTerm, s.servers[n].applied)
  {
    LeaderTermIsWon(s, n);
    hide Inv;
  }

  /** Of two gets tested during one leadership, the second starting after the first has loaded its
      value, the second reads at least what the first did. */
  lemma ReadsOfOneLeadershipGrow(s: State, es: seq<Event>, t: State, s': State, es': seq<Event>, t': State, n: Peer)
    requires Reachable(s) && Survives(s, es, t, n) && Leads(t, s') && Survives(s', es', t', n)
    requires s.servers[n].leaderTerm == s'.servers[n].leaderTerm > 0
    ensures n < |t.servers| && n < |t'.servers|
    ensures t.servers[n].applied <= t'.servers[n].applied && t.servers[n].applied <= |t.log| <= |t'.log|
    ensures t.log[..t.servers[n].applied] == t'.log[..t.servers[n].applied]
  {
    ReachableInv(s);
    SurvivesKeeps(s, es, t, n);
    LeadsInv(t, s');
    LeadsExtends(t, s');
    SurvivesKeeps(s', es', t', n);
    ValueOfPrefix(t, n);
    LeaderIsInOffice(s, n);
    var u := s.servers[n].leaderTerm;
    RunKeepsOffice(s, es, n, u, s.servers[n].applied);
    var fs :| Run(t, fs) == Some(s');
    assert InOffice(t, n, u, t.servers[n].applied);
    RunKeepsOffice(t, fs, n, u, t.servers[n].applied);
    hide Inv, Run, Fold, Sum;
  }

  // ---- When reads are current ----

  /** An acknowledged entry `i` is applied, or the process is new to office and the entry that may
      make it a leader comes after `i`. */
  ghost predicate Held(s: State, sv: Server, i: int) {
    || i < sv.applied
    || (&& sv.leaderTerm == NO_TERM
        && forall u, k | u in sv.starting && 0 <= k < |s.log| && s.log[k] == Config(u) :: k > i)
  }

  ghost predicate ConfigsElected(s: State) {
    forall k | 0 <= k < |s.log| && s.log[k].Config? :: s.log[k].term in s.elected
  }

  ghost predicate Solo(s: State) {
    && |s.servers| <= 1 && ConfigsElected(s)
    && forall c, i | c in s.calls && s.calls[c].response.success == Some(true) && At(s.log, c, i) ::
         |s.servers| == 1 && Held(s, s.servers[0], i)
  }

  lemma StepConfigs(s: State, e: Event)
    requires Inv(s) && Guard(s, e) && ConfigsElected(s)
    ensures ConfigsElected(Next(s, e))
  {
    StepExtends(s, e);
    TaskOf(s, e);
    hide Inv;
    if e.CommitConfig? || e.Commit? {
      hide DoReceive, DoAccept, DoApply, DoRunClosure, DoSave, DoLoad, DoCrash, Parse;
    } else {
      StepTasks(s, e);
      hide Guard, Next;
    }
  }

  /** Only applying its own entry makes a call a success. */
  lemma StepSucceeds(s: State, e: Event, call: CallId)
    requires Guard(s, e) && call in Next(s, e).calls && Next(s, e).calls[call].response.success == Some(true)
    ensures (call in s.calls && s.calls[call].response.success == Some(true))
         || (e.Apply? && At(s.log, call, s.servers[e.n].applied))
  {
    hide DoCrash, DoApply, ParseInt64, Int64Of, Encode, Parse;
    if e.Crash? {
      CrashShape(s, e.n);
    } else if e.Apply? {
      ApplySucceeds(s, e.n, call);
    }
  }

  lemma ApplySucceeds(s: State, n: Peer, call: CallId)
    requires Guard(s, Apply(n)) && call in DoApply(s, n).calls
    requires DoApply(s, n).calls[call].response.success == Some(true)
    ensures (call in s.calls && s.calls[call].response.success == Some(true)) || At(s.log, call, s.servers[n].applied)
  {
    CrashShape(s, n);
    hide DoCrash, ParseInt64, Int64Of, Wrap64, Encode;
  }

  lemma HeldStays(s: State, t: State, sv: Server, tv: Server, i: nat)
    requires Stands(s, sv, tv) && s.log == t.log && Held(s, sv, i)
    requires ConfigsElected(s)
    ensures Held(t, tv, i)
  {
  }

  /** Entries committed later come later. */
  lemma HeldExtends(s: State, t: State, sv: Server, i: nat)
    requires s.log <= t.log && i < |s.log| && Held(s, sv, i)
    ensures Held(t, sv, i)
  {
  }

  lemma CommitKeepsServers(s: State, e: Event)
    requires Guard(s, e) && (e.Commit? || e.CommitConfig?)
    ensures Next(s, e).servers == s.servers
  {
    hide DoReceive, DoAccept, DoApply, DoRunClosure, DoSave, DoLoad, DoCrash, Parse;
  }

  lemma StepKeepsHeld(s: State, e: Event, i: nat)
    requires Guard(s, e) && |s.servers| == 1 && i < |s.log| && Held(s, s.servers[0], i)
    requires ConfigsElected(s)
    ensures |Next(s, e).servers| == 1 && Held(Next(s, e), Next(s, e).servers[0], i)
  {
    hide Guard, Next, Held, Stands;
    StepExtends(s, e);
    if e.Commit? || e.CommitConfig? {
      CommitKeepsServers(s, e);
      HeldExtends(s, Next(s, e), s.servers[0], i);
    } else {
      StepTasks(s, e);
      StepStands(s, e, 0);
      HeldStays(s, Next(s, e), s.servers[0], Next(s, e).servers[0], i);
    }
  }

  /** The entry of a call that was already a success is where it was. */
  lemma SucceededAt(s: State, t: State, call: CallId, i: nat)
    requires Inv(s) && LogInv(t) && s.log <= t.log && At(t.log, call, i)
    requires call in s.calls && s.calls[call].response.success == Some(true)
    ensures At(s.log, call, i)
  {
    assert CallInv(s, call) by { hide LogInv, ServerInv, CallInv, ClientInv; }
    hide Inv, ParseInt64, Int64Of, Encode, Fold, EntryInv, TaskInv;
    var k :| At(s.log, call, k);
    assert At(t.log, call, k);
  }

  lemma SuccessIsHeld(s: State, e: Event, call: CallId, i: nat)
    requires Inv(s) && Guard(s, e) && Solo(s) && LogInv(Next(s, e)) && s.log <= Next(s, e).log
    requires call in Next(s, e).calls && Next(s, e).calls[call].response.success == Some(true)
    requires At(Next(s, e).log, call, i)
    ensures |Next(s, e).servers| == 1 && Held(Next(s, e), Next(s, e).servers[0], i)
  {
    hide Inv, LogInv, Guard, Next, Held;
    StepSucceeds(s, e, call);
    if call in s.calls && s.calls[call].response.success == Some(true) {
      SucceededAt(s, Next(s, e), call, i);
      StepKeepsHeld(s, e, i);
    } else {
      ApplyIsAtZero(s, e);
      StepTasks(s, e);
      AppliedIsHeld(s, call, i);
    }
  }

  lemma StepKeepsSolo(s: State, e: Event)
    requires Inv(s) && Guard(s, e) && Solo(s)
    ensures Solo(Next(s, e))
  {
    hide Inv, LogInv, Guard, Next, Held;
    StepKeepsInv(s, e);
    InvParts(Next(s, e));
    StepExtends(s, e);
    StepConfigs(s, e);
    forall c, i | c in Next(s, e).calls && Next(s, e).calls[c].response.success == Some(true)
                  && At(Next(s, e).log, c, i)
      ensures |Next(s, e).servers| == 1 && Held(Next(s, e), Next(s, e).servers[0], i)
    {
      SuccessIsHeld(s, e, c, i);
    }
  }

  lemma ApplyIsAtZero(s: State, e: Event)
    requires Guard(s, e) && e.Apply? && |s.servers| <= 1
    ensures e == Apply(0) && |s.servers| == 1 && Next(s, e) == DoApply(s, 0)
  {
    hide DoApply;
  }

  lemma AppliedIsHeld(s: State, call: CallId, i: nat)
    requires Inv(s) && Guard(s, Apply(0))
    requires At(s.log, call, s.servers[0].applied) && At(s.log, call, i)
    ensures |DoApply(s, 0).servers| == |s.servers| && Held(DoApply(s, 0), DoApply(s, 0).servers[0], i)
  {
    hide Inv, DoApply, Guard;
    ApplyCounts(s, 0);
    OneEntryEach(s, call, i, s.servers[0].applied);
  }

  lemma OneEntryEach(s: State, call: CallId, i: int, j: int)
    requires Inv(s) && At(s.log, call, i) && At(s.log, call, j)
    ensures i == j
  {
    hide ServerInv, CallInv, ClientInv, EntryInv, TaskInv;
  }

  lemma {:induction false} RunKeepsSolo(s: State, es: seq<Event>)
    requires Inv(s) && Solo(s) && Run(s, es).Some?
    ensures Solo(Run(s, es).value)
    decreases |es|
  {
    hide Inv, Solo, Guard, Next;
    if es != [] {
      StepKeepsInv(s, es[0]);
      StepKeepsSolo(s, es[0]);
      RunKeepsSolo(Next(s, es[0]), es[1..]);
    }
  }

  /** However a get is interleaved, it contains every add acknowledged before it began. */
  ghost predicate GetsAreCurrent(s: State) {
    forall es, t, n: Peer | Survives(s, es, t, n) && GetSucceeds(s, t, n) :: Current(s, t, n)
  }

  lemma SoloIsCurrent(s: State)
    requires Reachable(s) && Solo(s)
    ensures GetsAreCurrent(s)
  {
    ReachableInv(s);
    hide *;
    forall es, t, n: Peer | Survives(s, es, t, n) && GetSucceeds(s, t, n)
      ensures n < |t.servers| && Current(s, t, n)
    {
      SurvivesKeeps(s, es, t, n);
      OnlyLeadersAnswer(s, t, n);
      SoloContains(s, t, n);
    }
    AllGetsAreCurrent(s);
  }

  lemma OnlyLeadersAnswer(s: State, t: State, n: Peer)
    requires GetSucceeds(s, t, n)
    ensures n < |s.servers| && n < |t.servers| && s.servers[n].leaderTerm > 0
  {
  }

  lemma AllGetsAreCurrent(s: State)
    requires forall es, t, n: Peer | Survives(s, es, t, n) && GetSucceeds(s, t, n) ::
               n < |t.servers| && Current(s, t, n)
    ensures GetsAreCurrent(s)
  {
    hide Survives, Current, HandleGet;
  }

  lemma SoloContains(s: State, t: State, n: Peer)
    requires Inv(s) && Solo(s) && s.log <= t.log && n < |s.servers| && n < |t.servers|
    requires s.servers[n].leaderTerm > 0 && t.servers[n].applied >= s.servers[n].applied
    ensures Current(s, t, n)
  {
    hide Inv;
    forall c | c in s.calls && Acked(s.calls[c])
      ensures Within(t.log, c, t.servers[n].applied)
    {
      AckedIsLogged(s, c);
      var i :| At(s.log, c, i);
      assert At(t.log, c, i) && Held(s, s.servers[0], i);
    }
  }

  /** No get misses an add acknowledged before it, whatever the runs and interleavings, exactly in
      groups of at most one server. */
  lemma GetsAreCurrentAlone(checkTerm: bool, n: nat)
    ensures n <= 1 <==> forall s | Leads(Init(checkTerm, n), s) :: GetsAreCurrent(s)
  {
    hide Run, Init, GetsAreCurrent, Solo;
    if n <= 1 {
      forall s | Leads(Init(checkTerm, n), s)
        ensures GetsAreCurrent(s)
      {
        InitIsSolo(checkTerm, n);
        InitInv(checkTerm, n);
        var es :| Run(Init(checkTerm, n), es) == Some(s);
        RunKeepsSolo(Init(checkTerm, n), es);
        Reached(checkTerm, n, s);
        SoloIsCurrent(s);
      }
    } else {
      DeposedLeaderReadsStale(checkTerm, n);
      var s :| Leads(Init(checkTerm, n), s) && ReadsStale(s);
      StaleIsNotCurrent(s);
    }
  }

  lemma InitIsSolo(checkTerm: bool, n: nat)
    requires n <= 1
    ensures Solo(Init(checkTerm, n))
  {
  }

  lemma StaleIsNotCurrent(s: State)
    requires ReadsStale(s)
    ensures !GetsAreCurrent(s)
  {
    assert Survives(s, [], s, 0);
    assert !Within(s.log, 7, s.servers[0].applied);
  }

  // ---- When gets are ordered ----

  lemma {:induction false} RunKeepsConfigs(s: State, es: seq<Event>)
    requires Inv(s) && ConfigsElected(s) && Run(s, es).Some?
    ensures ConfigsElected(Run(s, es).value)
    decreases |es|
  {
    hide Inv, ConfigsElected, Guard, Next;
    if es != [] {
      StepKeepsInv(s, es[0]);
      StepConfigs(s, es[0]);
      RunKeepsConfigs(Next(s, es[0]), es[1..]);
    }
  }

  lemma {:induction false} RunKeepsHeld(s: State, es: seq<Event>, i: nat)
    requires Inv(s) && ConfigsElected(s) && Run(s, es).Some?
    requires |s.servers| == 1 && i < |s.log| && Held(s, s.servers[0], i)
    ensures |Run(s, es).value.servers| == 1 && Held(Run(s, es).value, Run(s, es).value.servers[0], i)
    decreases |es|
  {
    hide Inv, ConfigsElected, Guard, Next, Held;
    if es != [] {
      StepKeepsInv(s, es[0]);
      StepExtends(s, es[0]);
      StepConfigs(s, es[0]);
      StepKeepsHeld(s, es[0], i);
      RunKeepsHeld(Next(s, es[0]), es[1..], i);
    }
  }

  /** The one server there is, when it leads again, has applied at least what it had. */
  lemma SoloRegains(s: State, t: State)
    requires Inv(s) && ConfigsElected(s) && |s.servers| == 1 && Leads(s, t)
    ensures |t.servers| == 1
    ensures t.servers[0].leaderTerm > 0 ==> s.servers[0].applied <= t.servers[0].applied
  {
    hide Inv, ConfigsElected, Run;
    ValueOfPrefix(s, 0);
    LeadsExtends(s, t);
    var es :| Run(s, es) == Some(t);
    if s.servers[0].applied > 0 {
      RunKeepsHeld(s, es, s.servers[0].applied - 1);
    }
  }

  /** In a group of one, of two gets tested during any leaderships, the second starting after the first
      has loaded its value, the second reads the same prefix or a longer one. */
  lemma SoloReadsGrow(s: State, es: seq<Event>, t: State, m: Peer, s': State, es': seq<Event>, t': State, n: Peer)
    requires Inv(s) && ConfigsElected(s) && |s.servers| <= 1 && Survives(s, es, t, m)
    requires Leads(t, s') && Survives(s', es', t', n) && s'.servers[n].leaderTerm > 0
    ensures m < |t.servers| && n < |t'.servers|
    ensures t.servers[m].applied <= t'.servers[n].applied <= |t'.log| && t.servers[m].applied <= |t.log|
    ensures t.log <= t'.log
  {
    hide Inv, ConfigsElected, Run;
    SurvivesKeeps(s, es, t, m);
    RunKeepsConfigs(s, es);
    ValueOfPrefix(t, m);
    LeadsInv(t, s');
    LeadsExtends(t, s');
    SoloRegains(t, s');
    SurvivesKeeps(s', es', t', n);
    ValueOfPrefix(t', n);
  }

  lemma LongerHasMore(log: seq<Entry>, log': seq<Entry>, j: nat, k: nat)
    requires log <= log' && j <= k <= |log'| && j <= |log|
    ensures Committed(log[..j]) <= Committed(log'[..k])
  {
    forall i | 0 <= i < j && log[i].Data?
      ensures log[i].call in Committed(log'[..k])
    {
      assert log'[..k][i] == log[i];
    }
  }

  /** Of two gets, anywhere in the group, the second reads every add the first did. */
  ghost predicate InOrder(s: State, t: State, m: Peer, s': State, t': State, n: Peer) {
    GetSucceeds(s, t, m) && GetSucceeds(s', t', n) ==>
      && m < |t.servers| && t.servers[m].applied <= |t.log|
      && n < |t'.servers| && t'.servers[n].applied <= |t'.log|
      && Committed(t.log[..t.servers[m].applied]) <= Committed(t'.log[..t'.servers[n].applied])
  }

  /** However gets are interleaved, one that starts after another has loaded its value never reads
      less. */
  ghost predicate GetsGrow(s: State) {
    forall es, t, m: Peer, s', es', t', n: Peer | Survives(s, es, t, m) && Leads(t, s') && Survives(s', es', t', n) ::
      InOrder(s, t, m, s', t', n)
  }

  lemma SoloGetsGrow(s: State)
    requires Inv(s) && ConfigsElected(s) && |s.servers| <= 1
    ensures GetsGrow(s)
  {
    hide Inv, ConfigsElected, Leads, Committed, Run;
    forall es, t, m: Peer, s', es', t', n: Peer | Survives(s, es, t, m) && Leads(t, s') && Survives(s', es', t', n)
      ensures InOrder(s, t, m, s', t', n)
    {
      if GetSucceeds(s, t, m) && GetSucceeds(s', t', n) {
        OnlyLeadersAnswer(s', t', n);
        SoloReadsGrow(s, es, t, m, s', es', t', n);
        LongerHasMore(t.log, t'.log, t.servers[m].applied, t'.servers[n].applied);
      }
    }
  }

  /** Gets that follow one another, whoever answers them, never read less, exactly in groups of at
      most one server: in any other, a deposed leader can answer after its successor has, without an
      add that the successor's answer contained. */
  lemma GetsGrowAlone(checkTerm: bool, n: nat)
    ensures n <= 1 <==> forall s | Leads(Init(checkTerm, n), s) :: GetsGrow(s)
  {
    hide Run, Init, GetsGrow, Inv, ReadsStale;
    if n <= 1 {
      forall s | Leads(Init(checkTerm, n), s)
        ensures GetsGrow(s)
      {
        InitIsSolo(checkTerm, n);
        InitInv(checkTerm, n);
        var es :| Run(Init(checkTerm, n), es) == Some(s);
        RunKeepsInv(Init(checkTerm, n), es);
        RunKeepsSolo(Init(checkTerm, n), es);
        SoloGetsGrow(s);
      }
    } else {
      DeposedLeaderReadsStale(checkTerm, n);
      var s :| Leads(Init(checkTerm, n), s) && ReadsStale(s);
      StaleGoesBack(s);
    }
  }

  lemma StaleGoesBack(s: State)
    requires ReadsStale(s)
    ensures !GetsGrow(s)
  {
    NoStep(s);
    assert Survives(s, [], s, 1) && Survives(s, [], s, 0);
    var i :| At(s.log, 7, i) && i < s.servers[1].applied;
    assert s.log[..s.servers[1].applied][i] == s.log[i];
    assert 7 in Committed(s.log[..s.servers[1].applied]);
    assert 7 !in Committed(s.log[..s.servers[0].applied]) by {
      assert forall j | 0 <= j < s.servers[0].applied && s.log[j].Data? && s.log[j].call == 7 :: At(s.log, 7, j);
    }
    assert !InOrder(s, s, 1, s, s, 0);
  }

  // ---- Adds after gets ----

  /** An add received only after a get has loaded its value is not in what the get returned. */
  lemma AddsAfterGetsAreLater(s: State, es: seq<Event>, t: State, n: Peer, u: State, call: CallId, i: nat)
    requires Reachable(s) && Survives(s, es, t, n) && Leads(t, u)
    requires call !in t.calls && At(u.log, call, i)
    ensures n < |t.servers| && t.servers[n].applied <= i
  {
    ReachableInv(s);
    SurvivesKeeps(s, es, t, n);
    LeadsExtends(t, u);
    LoggedCallsAreKnown(t, call);
    ValueOfPrefix(t, n);
    hide Inv, Reachable, Leads, Survives;
    assert i < |t.log| ==> At(t.log, call, i);
  }
}
