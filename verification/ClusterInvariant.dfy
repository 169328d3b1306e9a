/** What every reachable state of the cluster satisfies, and that each step keeps it. */
module ClusterInvariant {
  import opened Basics
  import opened Wire
  import opened Messages
  import opened CounterSpec
  import opened Cluster

  ghost predicate Logged(log: seq<Entry>, call: CallId) {
    exists i :: At(log, call, i)
  }

  /** A task comes with a closure, carries the bytes of its call's request, is of a term won by the
      server that took the call and, with check_term on, of the term its handler read. */
  ghost predicate EntryInv(s: State, e: Entry) {
    && e.Data? && e.call in s.calls && s.calls[e.call].news == 1
    && e.bytes == Encode(s.calls[e.call].request)
    && WonBy(s, e.term, s.calls[e.call].node)
    && (s.checkTerm ==> e.term == s.calls[e.call].readTerm)
  }

  /** An accepted task that is not committed. */
  ghost predicate TaskInv(s: State, call: CallId, e: Entry) {
    EntryInv(s, e) && e.call == call && !Logged(s.log, call)
  }

  ghost predicate LogInv(s: State) {
    && (forall i, j | 0 <= i < j < |s.log| :: s.log[i].term <= s.log[j].term)
    && (forall i | 0 <= i < |s.log| && s.log[i].Data? :: EntryInv(s, s.log[i]))
    && (forall c, i, j | At(s.log, c, i) && At(s.log, c, j) :: i == j)
    && (forall c | c in s.inflight :: TaskInv(s, c, s.inflight[c]))
  }

  /** The answer to `call` is the value before its own entry of the log. */
  ghost predicate Succeeded(s: State, call: CallId)
    requires call in s.calls
  {
    exists i :: At(s.log, call, i)
      && s.calls[call].response == Response(Some(true), Some(Fold(s.log[..i])), None)
  }

  predicate Refused(r: Response) {
    r.success == Some(false) && r.value == None
  }

  ghost predicate ValueInv(s: State, sv: Server) {
    && sv.applied <= |s.log| && sv.value == Fold(s.log[..sv.applied])
    && (forall k | 0 <= k < |sv.jobs| ::
          sv.jobs[k].index <= |s.log| && sv.jobs[k].value == Fold(s.log[..sv.jobs[k].index]))
    && (sv.stored.Some? ==> SnapshotInv(s, sv.stored.value))
  }

  ghost predicate SnapshotInv(s: State, snapshot: Snapshot) {
    snapshot.index <= |s.log| && snapshot.file == Encode(Int64Message(Fold(s.log[..snapshot.index])))
  }

  ghost predicate WonBy(s: State, term: int, n: Peer) {
    term >= 1 && term in s.elected && s.elected[term] == n
  }

  ghost predicate LeaderInv(s: State, n: Peer, sv: Server) {
    && (sv.leaderTerm == NO_TERM
        || (&& WonBy(s, sv.leaderTerm, n)
            && exists i :: 0 <= i < sv.applied && i < |s.log| && s.log[i] == Config(sv.leaderTerm)))
    && (sv.raftTerm.Some? ==> WonBy(s, sv.raftTerm.value, n))
    && (forall u | u in sv.starting :: WonBy(s, u, n) && u != sv.leaderTerm)
  }

  ghost predicate ClosureInv(s: State, n: Peer, call: CallId, p: Phase) {
    && call in s.calls && s.calls[call].node == n && s.calls[call].runs == 0 && !s.calls[call].lost
    && match p
       case Queued(bytes, expectedTerm) =>
         && s.calls[call].response == BLANK && bytes == Encode(s.calls[call].request)
         && (s.checkTerm ==> expectedTerm == s.calls[call].readTerm >= 1)
         && (!s.checkTerm ==> expectedTerm == NO_TERM)
         && !Logged(s.log, call) && call !in s.inflight
       case Accepted => s.calls[call].response == BLANK
       case Fired(ok) => if ok then Succeeded(s, call) else s.calls[call].response == BLANK
  }

  ghost predicate ServerInv(s: State, n: Peer)
    requires n < |s.servers|
  {
    && ValueInv(s, s.servers[n])
    && LeaderInv(s, n, s.servers[n])
    && forall c | c in Phases(s, n) :: ClosureInv(s, n, c, Phases(s, n)[c])
  }

  /** While `sv` holds or is about to take the office of `term`, it has applied entry `i`. */
  predicate Behind(sv: Server, term: nat, i: int) {
    sv.leaderTerm == term || term in sv.starting ==> i < sv.applied
  }

  /** Whoever is to run `done` exists exactly once; a closure is deleted when, and only when, its
      `done` has been run; the term the handler read will not be started again; and a success of
      the leadership now in office lies within what its leader has applied. */
  ghost predicate CallInv(s: State, call: CallId)
    requires call in s.calls
  {
    var c := s.calls[call];
    && c.node < |s.servers|
    && (c.runs + (if call in Phases(s, c.node) then 1 else 0) + if c.lost then 1 else 0) == 1
    && c.news <= 1 && (c.runs == 0 ==> c.news == 1)
    && c.deletes == (if c.runs == 1 then c.news else 0)
    && !c.late
    && (c.runs == 1 ==> Succeeded(s, call) || Refused(c.response))
    && (c.readTerm >= 1 ==> WonBy(s, c.readTerm, c.node) && c.readTerm !in s.servers[c.node].starting)
    && (c.readTerm >= 1 && s.servers[c.node].leaderTerm == c.readTerm && c.response.success == Some(true) ==>
          exists i :: At(s.log, call, i) && i < s.servers[c.node].applied)
    && (c.response.success == Some(true) ==>
          exists i :: At(s.log, call, i) && Behind(s.servers[c.node], s.log[i].term, i))
    && ParseInt64(Encode(c.request)) == Some(Int64Of(c.request))
  }

  ghost predicate ClientInv(s: State) {
    && |s.calls| <= s.attempts
    && forall c | c in s.acked ::
         c in s.calls && s.calls[c].runs == 1 && s.calls[c].response.success == Some(true)
  }

  ghost predicate Inv(s: State) {
    && LogInv(s)
    && (forall n | 0 <= n < |s.servers| :: ServerInv(s, n))
    && (forall c | c in s.calls :: CallInv(s, c))
    && ClientInv(s)
  }

  // ---- Frames ----

  /** `t` is `s` with, at most, a longer log, more terms won and other calls, servers or tasks. */
  ghost predicate Extends(s: State, t: State) {
    && s.checkTerm == t.checkTerm && |s.servers| == |t.servers|
    && s.log <= t.log
    && forall u | u in s.elected :: u in t.elected && t.elected[u] == s.elected[u]
  }

  lemma FoldOfPrefix(s: State, t: State, k: nat)
    requires s.log <= t.log && k <= |s.log|
    ensures s.log[..k] == t.log[..k]
  {
  }

  lemma SucceededExtends(s: State, t: State, call: CallId)
    requires Extends(s, t) && call in s.calls && call in t.calls
    requires s.calls[call].response == t.calls[call].response
    requires Succeeded(s, call)
    ensures Succeeded(t, call)
  {
    var i :| At(s.log, call, i) && s.calls[call].response == Response(Some(true), Some(Fold(s.log[..i])), None);
    FoldOfPrefix(s, t, i);
    assert At(t.log, call, i);
  }

  lemma ValueExtends(s: State, t: State, sv: Server)
    requires Extends(s, t) && ValueInv(s, sv)
    ensures ValueInv(t, sv)
  {
    hide Encode;
    FoldOfPrefix(s, t, sv.applied);
    forall k | 0 <= k < |sv.jobs|
      ensures sv.jobs[k].index <= |t.log| && sv.jobs[k].value == Fold(t.log[..sv.jobs[k].index])
    {
      FoldOfPrefix(s, t, sv.jobs[k].index);
    }
    if sv.stored.Some? {
      FoldOfPrefix(s, t, sv.stored.value.index);
    }
  }

  lemma ServerFrame(s: State, t: State, n: Peer)
    requires Extends(s, t) && n < |s.servers| && ServerInv(s, n)
    requires t.servers[n] == s.servers[n]
    requires forall c | c in Phases(s, n) :: c in t.calls && t.calls[c] == s.calls[c]
    requires forall c | c in Phases(s, n) && Phases(s, n)[c].Queued? :: !Logged(t.log, c) && c !in t.inflight
    ensures ServerInv(t, n)
  {
    hide Encode;
    ValueExtends(s, t, s.servers[n]);
    forall c | c in Phases(t, n)
      ensures ClosureInv(t, n, c, Phases(t, n)[c])
    {
      assert ClosureInv(s, n, c, Phases(s, n)[c]);
      if Phases(s, n)[c] == Fired(true) {
        SucceededExtends(s, t, c);
      }
    }
  }

  lemma CallFrame(s: State, t: State, call: CallId)
    requires Extends(s, t) && call in s.calls && CallInv(s, call)
    requires call in t.calls && t.calls[call] == s.calls[call]
    requires var n := s.calls[call].node;
             (call in Phases(s, n) <==> call in Phases(t, n)) && Moves(s, s.servers[n], t.servers[n])
    requires forall i | At(s.log, call, i) :: s.log[i].term in s.elected
    ensures CallInv(t, call)
  {
    hide Encode, ParseInt64, Int64Of;
    var c := s.calls[call];
    if c.runs == 1 && Succeeded(s, call) {
      SucceededExtends(s, t, call);
    }
    if t.servers[c.node].leaderTerm == c.readTerm >= 1 && c.response.success == Some(true) {
      var i :| At(s.log, call, i) && i < s.servers[c.node].applied;
      assert At(t.log, call, i);
    }
    if c.response.success == Some(true) {
      var i :| At(s.log, call, i) && Behind(s.servers[c.node], s.log[i].term, i);
      assert At(t.log, call, i) && Behind(t.servers[c.node], t.log[i].term, i);
    }
  }

  /** How a server's leadership and progress may change: a term in `starting` is started once,
      and while one is there, or in office, nothing applied is undone. */
  predicate Moves(s: State, a: Server, b: Server) {
    && (forall u | u in b.starting :: u !in s.elected || (u in a.starting && b.applied >= a.applied))
    && (b.leaderTerm == NO_TERM
        || (b.applied >= a.applied
            && (b.leaderTerm == a.leaderTerm || (b.leaderTerm in a.starting && b.leaderTerm != a.leaderTerm))))
  }

  /** The step from `s` to `t` touches no server but `n` and no calls but `touched`, all of which
      are at `n`. */
  ghost predicate Local(s: State, t: State, n: Peer, touched: set<CallId>) {
    && Extends(s, t)
    && (forall m | 0 <= m < |s.servers| && m != n :: t.servers[m] == s.servers[m])
    && (forall c | c !in touched :: c in s.calls <==> c in t.calls)
    && (forall c | c in s.calls && c in t.calls && c !in touched :: t.calls[c] == s.calls[c])
    && (forall c | c in s.calls && c in touched :: s.calls[c].node == n)
    && (n < |s.servers| ==>
          && (forall c | c !in touched :: c in Phases(s, n) <==> c in Phases(t, n))
          && Moves(s, s.servers[n], t.servers[n]))
  }

  /** Tasks still queued at other servers than `n` have not got into the log. */
  ghost predicate QueuedOutside(s: State, t: State, n: Peer) {
    forall m, c | 0 <= m < |s.servers| && m != n && c in Phases(s, m) && Phases(s, m)[c].Queued? ::
      !Logged(t.log, c) && c !in t.inflight
  }

  lemma QueuedStayOutside(s: State, t: State, n: Peer)
    requires Inv(s) && t.log == s.log
    requires forall c | c in t.inflight && c !in s.inflight :: c in s.calls && s.calls[c].node == n
    ensures QueuedOutside(s, t, n)
  {
    hide Encode, Fold;
    forall m, c | 0 <= m < |s.servers| && m != n && c in Phases(s, m) && Phases(s, m)[c].Queued?
      ensures !Logged(t.log, c) && c !in t.inflight
    {
      assert ServerInv(s, m);
      assert ClosureInv(s, m, c, Phases(s, m)[c]);
    }
  }

  lemma RestKept(s: State, t: State, n: Peer, touched: set<CallId>)
    requires Inv(s) && Local(s, t, n, touched) && QueuedOutside(s, t, n)
    ensures forall m | 0 <= m < |t.servers| && m != n :: ServerInv(t, m)
    ensures forall c | c in t.calls && c !in touched :: CallInv(t, c)
  {
    hide Encode, ParseInt64, Int64Of, Fold;
    forall m | 0 <= m < |t.servers| && m != n
      ensures ServerInv(t, m)
    {
      assert ServerInv(s, m);
      forall c | c in Phases(s, m)
        ensures c in t.calls && t.calls[c] == s.calls[c]
      {
        assert ClosureInv(s, m, c, Phases(s, m)[c]);
      }
      ServerFrame(s, t, m);
    }
    forall c | c in t.calls && c !in touched
      ensures CallInv(t, c)
    {
      assert c in s.calls && CallInv(s, c);
      assert Moves(s, s.servers[s.calls[c].node], t.servers[s.calls[c].node]);
      assert forall i | At(s.log, c, i) :: EntryInv(s, s.log[i]);
      CallFrame(s, t, c);
    }
  }

  /** The same log and tasks, and calls still carrying the same requests, keep LogInv. */
  lemma LogFrame(s: State, t: State)
    requires LogInv(s) && s.checkTerm == t.checkTerm && s.log == t.log
    requires forall c | c in t.inflight :: c in s.inflight && t.inflight[c] == s.inflight[c]
    requires forall c | c in s.calls ::
               c in t.calls && t.calls[c].request == s.calls[c].request && t.calls[c].readTerm == s.calls[c].readTerm
               && t.calls[c].news == s.calls[c].news && t.calls[c].node == s.calls[c].node
    requires forall u | u in s.elected :: u in t.elected && t.elected[u] == s.elected[u]
    ensures LogInv(t)
  {
    hide Encode;
  }

  /** What a server keeps about its closures depends on their calls, the log and the tasks. */
  lemma ClosuresFrame(s: State, t: State, n: Peer, touched: set<CallId>)
    requires Extends(s, t) && n < |s.servers| && ServerInv(s, n)
    requires forall c | c in Phases(t, n) && c !in touched ::
               && c in Phases(s, n) && Phases(t, n)[c] == Phases(s, n)[c]
               && c in t.calls && c in s.calls && t.calls[c] == s.calls[c]
    requires forall c | c in Phases(t, n) && c !in touched && Phases(t, n)[c].Queued? ::
               !Logged(t.log, c) && c !in t.inflight
    ensures forall c | c in Phases(t, n) && c !in touched :: ClosureInv(t, n, c, Phases(t, n)[c])
  {
    hide Encode, Fold;
    forall c | c in Phases(t, n) && c !in touched
      ensures ClosureInv(t, n, c, Phases(t, n)[c])
    {
      assert ClosureInv(s, n, c, Phases(s, n)[c]);
      if Phases(s, n)[c] == Fired(true) {
        SucceededExtends(s, t, c);
      }
    }
  }

  // ---- Each step ----

  /** The closures of `n` but for `touched` are as they were, and their calls too. */
  lemma ClosuresKept(s: State, t: State, n: Peer, touched: set<CallId>)
    requires Inv(s) && Extends(s, t) && n < |s.servers| && t.log == s.log
    requires forall c | c !in touched :: c in t.inflight ==> c in s.inflight
    requires forall c | c in Phases(t, n) && c !in touched :: c in Phases(s, n) && Phases(t, n)[c] == Phases(s, n)[c]
    requires forall c | c in s.calls && c !in touched :: c in t.calls && t.calls[c] == s.calls[c]
    ensures forall c | c in Phases(t, n) && c !in touched :: ClosureInv(t, n, c, Phases(t, n)[c])
  {
    hide Encode, Fold;
    assert ServerInv(s, n);
    assert forall c | c in Phases(t, n) && c !in touched :: ClosureInv(s, n, c, Phases(s, n)[c]);
    ClosuresFrame(s, t, n, touched);
  }

  /** What a step has to establish itself, when it touches one server and some of its calls. */
  lemma Assemble(s: State, t: State, n: Peer, touched: set<CallId>)
    requires Inv(s) && n < |s.servers| && Local(s, t, n, touched) && QueuedOutside(s, t, n)
    requires LogInv(t) && ClientInv(t)
    requires n < |t.servers| ==> ServerInv(t, n)
    requires forall c | c in touched && c in t.calls :: CallInv(t, c)
    ensures Inv(t)
  {
    hide LogInv, ServerInv, CallInv, ClientInv, QueuedOutside, Moves;
    RestKept(s, t, n, touched);
  }

  /** The step changes one server, though not its closures, and perhaps adds a term won. */
  ghost predicate OneServerOnly(s: State, t: State, n: Peer) {
    && n < |s.servers| && |t.servers| == |s.servers|
    && t == s.(servers := t.servers, elected := t.elected)
    && (forall m | 0 <= m < |s.servers| && m != n :: t.servers[m] == s.servers[m])
    && Phases(t, n) == Phases(s, n)
    && (forall u | u in s.elected :: u in t.elected && t.elected[u] == s.elected[u])
    && Moves(s, s.servers[n], t.servers[n])
  }

  /** Steps of one server that leave log, tasks, calls and closures alone. */
  lemma ServerOnlyStep(s: State, n: Peer, sv: Server, elected: map<nat, Peer>)
    requires Inv(s) && n < |s.servers| && sv.closures == Phases(s, n) && Moves(s, s.servers[n], sv)
    requires forall u | u in s.elected :: u in elected && elected[u] == s.elected[u]
    requires ValueInv(s, sv) && LeaderInv(s.(elected := elected), n, sv)
    ensures Inv(SetServer(s, n, sv).(elected := elected))
  {
    hide Inv, Moves, ValueInv;
    var t := SetServer(s, n, sv).(elected := elected);
    assert OneServerOnly(s, t, n) && t.servers[n] == sv;
    assert LeaderInv(t, n, sv);
    hide SetServer, LeaderInv;
    OneServerOnlyStep(s, t, n);
  }

  lemma OneServerOnlyStep(s: State, t: State, n: Peer)
    requires Inv(s) && OneServerOnly(s, t, n)
    requires ValueInv(s, t.servers[n]) && LeaderInv(t, n, t.servers[n])
    ensures Inv(t)
  {
    InvParts(s);
    hide Inv, Moves, LogInv, ClosureInv, ValueInv, LeaderInv, Local;
    OneServerIsLocal(s, t, n);
    LogFrame(s, t);
    QueuedStayOutside(s, t, n);
    ClosuresKept(s, t, n, {});
    ValueExtends(s, t, t.servers[n]);
    assert ServerInv(t, n) && ClientInv(t);
    hide *;
    Assemble(s, t, n, {});
  }

  lemma OneServerIsLocal(s: State, t: State, n: Peer)
    requires OneServerOnly(s, t, n)
    ensures Local(s, t, n, {})
  {
    hide Moves;
  }

  lemma InvParts(s: State)
    requires Inv(s)
    ensures LogInv(s) && ClientInv(s)
  {
    hide LogInv, ClientInv, ServerInv, CallInv;
  }

  lemma CaptureStep(s: State, n: Peer)
    requires Inv(s) && Guard(s, Capture(n))
    ensures Inv(Next(s, Capture(n)))
  {
    hide Encode, ParseInt64, Int64Of, Fold, Parse, DoReceive, DoAccept, DoApply, DoRunClosure, DoSave, DoLoad, DoCrash;
    assert ServerInv(s, n);
    ServerOnlyStep(s, n, Next(s, Capture(n)).servers[n], s.elected);
  }

  lemma SaveStep(s: State, n: Peer, k: nat, ok: bool)
    requires Inv(s) && Guard(s, Save(n, k, ok))
    ensures Inv(Next(s, Save(n, k, ok)))
  {
    hide Encode, ParseInt64, Int64Of, Fold, Parse, DoReceive, DoAccept, DoApply, DoRunClosure, DoLoad, DoCrash;
    assert ServerInv(s, n);
    ServerOnlyStep(s, n, Next(s, Save(n, k, ok)).servers[n], s.elected);
  }

  lemma LoadStep(s: State, n: Peer, from: Peer, ok: bool)
    requires Inv(s) && Guard(s, Load(n, from, ok))
    ensures Inv(Next(s, Load(n, from, ok)))
  {
    hide Encode, ParseInt64, Int64Of, Fold;
    assert ServerInv(s, n) && ServerInv(s, from);
    if ok {
      var snapshot := s.servers[from].stored.value;
      Int64RoundTrip(Fold(s.log[..snapshot.index]));
      ServerOnlyStep(s, n, Next(s, Load(n, from, ok)).servers[n], s.elected);
    }
  }

  lemma ElectStep(s: State, n: Peer, term: nat)
    requires Inv(s) && Guard(s, Elect(n, term))
    ensures Inv(Next(s, Elect(n, term)))
  {
    hide Encode, ParseInt64, Int64Of, Fold, Parse, DoReceive, DoAccept, DoApply, DoRunClosure, DoSave, DoLoad, DoCrash;
    assert ServerInv(s, n);
    ServerOnlyStep(s, n, Next(s, Elect(n, term)).servers[n], s.elected[term := n]);
  }

  lemma StepDownStep(s: State, n: Peer)
    requires Inv(s) && Guard(s, StepDown(n))
    ensures Inv(Next(s, StepDown(n)))
  {
    hide Encode, ParseInt64, Int64Of, Fold, Parse, DoReceive, DoAccept, DoApply, DoRunClosure, DoSave, DoLoad, DoCrash;
    assert ServerInv(s, n);
    ServerOnlyStep(s, n, Next(s, StepDown(n)).servers[n], s.elected);
  }

  lemma LeaderStartStep(s: State, n: Peer, term: nat)
    requires Inv(s) && Guard(s, LeaderStart(n, term))
    ensures Inv(Next(s, LeaderStart(n, term)))
  {
    hide Encode, ParseInt64, Int64Of, Fold, Parse, DoReceive, DoAccept, DoApply, DoRunClosure, DoSave, DoLoad, DoCrash;
    assert ServerInv(s, n);
    ServerOnlyStep(s, n, Next(s, LeaderStart(n, term)).servers[n], s.elected);
  }

  lemma LeaderStopStep(s: State, n: Peer)
    requires Inv(s) && Guard(s, LeaderStop(n))
    ensures Inv(Next(s, LeaderStop(n)))
  {
    hide Encode, ParseInt64, Int64Of, Fold, Parse, DoReceive, DoAccept, DoApply, DoRunClosure, DoSave, DoLoad, DoCrash;
    assert ServerInv(s, n);
    ServerOnlyStep(s, n, Next(s, LeaderStop(n)).servers[n], s.elected);
  }

  /** Steps of the clients and the log that touch no server and no call. */
  lemma NoServerStep(s: State, t: State)
    requires Inv(s) && Extends(s, t) && t.servers == s.servers && t.calls == s.calls
    requires LogInv(t) && ClientInv(t) && QueuedOutside(s, t, |s.servers|)
    ensures Inv(t)
  {
    hide Encode, ParseInt64, Int64Of, Fold, Moves, ClosureInv, EntryInv, CallInv, LogInv;
    RestKept(s, t, |s.servers|, {});
  }

  lemma ClientShape(s: State, e: Event)
    requires Guard(s, e) && (e.LoseRequest? || e.Acknowledge? || e.Drop?)
    ensures var t := Next(s, e);
            && t == s.(inflight := t.inflight, attempts := t.attempts, acked := t.acked)
            && forall c | c in t.inflight :: c in s.inflight && t.inflight[c] == s.inflight[c]
  {
    hide DoReceive, DoAccept, DoApply, DoRunClosure, DoSave, DoLoad, DoCrash, Parse;
  }

  lemma ClientStep(s: State, e: Event)
    requires Inv(s) && Guard(s, e) && (e.LoseRequest? || e.Acknowledge? || e.Drop?)
    ensures Inv(Next(s, e))
  {
    hide Inv, Guard, Next, LogInv, ClientInv, QueuedOutside;
    ClientShape(s, e);
    ClientStepFrame(s, Next(s, e));
    AcknowledgeInv(s, e);
    NoServerStep(s, Next(s, e));
  }

  lemma ClientStepFrame(s: State, t: State)
    requires Inv(s) && t == s.(inflight := t.inflight, attempts := t.attempts, acked := t.acked)
    requires forall c | c in t.inflight :: c in s.inflight && t.inflight[c] == s.inflight[c]
    ensures LogInv(t) && QueuedOutside(s, t, |s.servers|) && Extends(s, t)
  {
    hide ServerInv, CallInv, ClientInv;
    LogFrame(s, t);
    hide LogInv;
    QueuedStayOutside(s, t, |s.servers|);
  }

  lemma AcknowledgeInv(s: State, e: Event)
    requires Inv(s) && Guard(s, e) && (e.LoseRequest? || e.Acknowledge? || e.Drop?)
    ensures ClientInv(Next(s, e))
  {
    hide Encode, ParseInt64, Int64Of, Fold, LogInv, ServerInv, Succeeded, Parse,
         DoReceive, DoAccept, DoApply, DoRunClosure, DoSave, DoLoad, DoCrash;
    assert e.Acknowledge? ==> CallInv(s, e.call);
  }

  lemma CommitLogInv(s: State, t: State, e: Entry)
    requires LogInv(s) && LastTerm(s.log) <= e.term
    requires t == s.(log := s.log + [e], inflight := t.inflight)
    requires forall c | c in t.inflight ::
               c in s.inflight && t.inflight[c] == s.inflight[c] && (e.Data? ==> c != e.call)
    requires e.Data? ==> EntryInv(s, e) && !Logged(s.log, e.call)
    ensures LogInv(t)
  {
    hide Encode, EntryInv;
    forall c, i | At(t.log, c, i)
      ensures if i < |s.log| then At(s.log, c, i) else e.Data? && c == e.call
    {
    }
    forall i | 0 <= i < |t.log| && t.log[i].Data?
      ensures EntryInv(t, t.log[i])
    {
      SameCallsSameEntryInv(s, t, t.log[i]);
    }
    forall c | c in t.inflight
      ensures TaskInv(t, c, t.inflight[c])
    {
      assert TaskInv(s, c, s.inflight[c]);
      SameCallsSameEntryInv(s, t, t.inflight[c]);
    }
  }

  lemma SameCallsSameEntryInv(s: State, t: State, e: Entry)
    requires s.calls == t.calls && s.checkTerm == t.checkTerm && s.elected == t.elected
    ensures EntryInv(s, e) == EntryInv(t, e)
  {
    hide Encode;
  }

  lemma CommitStep(s: State, e: Event)
    requires Inv(s) && Guard(s, e) && (e.Commit? || e.CommitConfig?)
    ensures Inv(Next(s, e))
  {
    hide Encode, ParseInt64, Int64Of, Fold, EntryInv, CallInv, ServerInv;
    var t := Next(s, e);
    assert e.Commit? ==> TaskInv(s, e.call, s.inflight[e.call]);
    CommitLogInv(s, t, if e.Commit? then s.inflight[e.call] else Config(e.term));
    hide LogInv, Logged;
    CommitQueuedOutside(s, e);
    hide QueuedOutside;
    NoServerStep(s, t);
  }

  lemma CommitQueuedOutside(s: State, e: Event)
    requires Inv(s) && Guard(s, e) && (e.Commit? || e.CommitConfig?)
    ensures QueuedOutside(s, Next(s, e), |s.servers|)
  {
    hide Encode, ParseInt64, Int64Of, Fold, EntryInv, CallInv, ValueInv, LeaderInv;
    var t := Next(s, e);
    assert e.Commit? ==> TaskInv(s, e.call, s.inflight[e.call]);
    hide LogInv;
    forall m, c | 0 <= m < |s.servers| && c in Phases(s, m) && Phases(s, m)[c].Queued?
      ensures !Logged(t.log, c) && c !in t.inflight
    {
      assert ServerInv(s, m);
      assert ClosureInv(s, m, c, Phases(s, m)[c]);
      assert forall i | At(t.log, c, i) :: At(s.log, c, i);
    }
  }

  /** The step touches at most one call, its closure and its task, all of server `n`. */
  ghost predicate OneCall(s: State, t: State, n: Peer, call: CallId) {
    && n < |s.servers| == |t.servers|
    && t == s.(servers := t.servers, calls := t.calls, inflight := t.inflight, attempts := t.attempts)
    && (forall m | 0 <= m < |s.servers| && m != n :: t.servers[m] == s.servers[m])
    && t.calls.Keys == s.calls.Keys + {call}
    && (forall c | c in s.calls && c != call :: t.calls[c] == s.calls[c])
    && (call in s.calls ==> s.calls[call].node == n && s.calls[call].runs == 0)
    && (forall c | c != call :: c in Phases(t, n) <==> c in Phases(s, n))
    && (forall c | c in Phases(t, n) && c != call :: Phases(t, n)[c] == Phases(s, n)[c])
    && (forall c | c != call :: c in t.inflight ==> c in s.inflight)
    && (call in t.inflight ==> call in s.inflight || call in s.calls)
    && |t.calls| <= t.attempts
    && Moves(s, s.servers[n], t.servers[n])
  }

  lemma OneCallStep(s: State, t: State, n: Peer, call: CallId)
    requires Inv(s) && OneCall(s, t, n, call) && LogInv(t)
    requires ValueInv(s, t.servers[n]) && LeaderInv(s, n, t.servers[n])
    requires call in Phases(t, n) ==> ClosureInv(t, n, call, Phases(t, n)[call])
    requires CallInv(t, call)
    ensures Inv(t)
  {
    OneCallLocal(s, t, n, call);
    hide Inv, Moves, LogInv, CallInv, ClientInv, QueuedOutside, Local, ClosureInv;
    ClosuresKept(s, t, n, {call});
    OneServer(s, t, n, call);
    hide *;
    Assemble(s, t, n, {call});
  }

  lemma OneCallLocal(s: State, t: State, n: Peer, call: CallId)
    requires Inv(s) && OneCall(s, t, n, call)
    ensures Local(s, t, n, {call}) && Extends(s, t) && QueuedOutside(s, t, n) && ClientInv(t)
  {
    InvParts(s);
    hide Inv, Moves;
    OneCallIsLocal(s, t, n, call);
    hide Local;
    ClientFrame(s, t);
    hide ClientInv, QueuedOutside;
    QueuedStayOutside(s, t, n);
  }

  lemma OneCallIsLocal(s: State, t: State, n: Peer, call: CallId)
    requires OneCall(s, t, n, call)
    ensures Local(s, t, n, {call}) && Extends(s, t)
  {
    hide Moves;
    assert forall c | c !in {call} :: c in s.calls <==> c in t.calls by {
      assert forall c :: c in t.calls.Keys <==> c in s.calls.Keys || c == call;
    }
  }

  lemma OneServer(s: State, t: State, n: Peer, call: CallId)
    requires OneCall(s, t, n, call) && ValueInv(s, t.servers[n]) && LeaderInv(s, n, t.servers[n])
    requires forall c | c in Phases(t, n) && c !in {call} :: ClosureInv(t, n, c, Phases(t, n)[c])
    requires call in Phases(t, n) ==> ClosureInv(t, n, call, Phases(t, n)[call])
    ensures ServerInv(t, n)
  {
    hide ClosureInv, Encode, Fold;
    ValueExtends(s, t, t.servers[n]);
  }

  /** What is known of a call whose closure is at `n`. */
  lemma ClosureFacts(s: State, n: Peer, call: CallId)
    requires Inv(s) && n < |s.servers| && call in Phases(s, n)
    ensures ServerInv(s, n) && ClosureInv(s, n, call, Phases(s, n)[call])
    ensures call in s.calls && CallInv(s, call)
    ensures LogInv(s) && ClientInv(s)
  {
    hide LogInv, ClientInv, CallInv, ValueInv, LeaderInv, Encode, Fold;
    assert ServerInv(s, n);
    assert ClosureInv(s, n, call, Phases(s, n)[call]);
  }

  lemma AcceptStep(s: State, n: Peer, call: CallId)
    requires Inv(s) && Guard(s, Accept(n, call))
    ensures Inv(Next(s, Accept(n, call)))
  {
    hide Inv, LogInv, EntryInv, ClosureInv, CallInv, OneCall;
    ClosureFacts(s, n, call);
    AcceptLogInv(s, n, call);
    AcceptOneCall(s, n, call);
    hide *;
    OneCallStep(s, Next(s, Accept(n, call)), n, call);
  }

  lemma AcceptOneCall(s: State, n: Peer, call: CallId)
    requires Guard(s, Accept(n, call)) && ServerInv(s, n)
    requires call in s.calls && CallInv(s, call) && ClientInv(s)
    ensures var t := Next(s, Accept(n, call));
            && OneCall(s, t, n, call) && CallInv(t, call)
            && ValueInv(s, t.servers[n]) && LeaderInv(s, n, t.servers[n])
            && call in Phases(t, n) && ClosureInv(t, n, call, Phases(t, n)[call])
  {
    hide Encode, ParseInt64, Int64Of, Fold, Parse, DoReceive, DoApply, DoRunClosure, DoSave, DoLoad, DoCrash;
    assert ClosureInv(s, n, call, Phases(s, n)[call]);
    CallFrame(s, Next(s, Accept(n, call)), call);
  }

  /** A call still to be completed was submitted with a closure. */
  lemma AllocatedOnce(s: State, call: CallId)
    requires Inv(s) && call in s.calls && s.calls[call].runs == 0
    ensures s.calls[call].news == 1
  {
    hide LogInv, ServerInv, ClientInv, Encode, ParseInt64, Int64Of;
    assert CallInv(s, call);
  }

  lemma AcceptLogInv(s: State, n: Peer, call: CallId)
    requires Inv(s) && Guard(s, Accept(n, call))
    ensures LogInv(Next(s, Accept(n, call)))
  {
    hide Encode, ParseInt64, Int64Of, Fold, CallInv, ValueInv;
    var t := Next(s, Accept(n, call));
    assert ServerInv(s, n) && ClosureInv(s, n, call, Phases(s, n)[call]);
    assert s.calls[call].news == 1 by { AllocatedOnce(s, call); }
    assert TaskInv(t, call, t.inflight[call]);
    hide EntryInv, ClosureInv, ServerInv;
    forall e: Entry
      ensures EntryInv(s, e) == EntryInv(t, e)
    {
      SameCallsSameEntryInv(s, t, e);
    }
  }

  lemma FailTaskStep(s: State, n: Peer, call: CallId)
    requires Inv(s) && Guard(s, FailTask(n, call))
    ensures Inv(Next(s, FailTask(n, call)))
  {
    hide Inv, LogInv, EntryInv, ClosureInv, CallInv, OneCall;
    ClosureFacts(s, n, call);
    LogFrame(s, Next(s, FailTask(n, call)));
    FailTaskOneCall(s, n, call);
    hide *;
    OneCallStep(s, Next(s, FailTask(n, call)), n, call);
  }

  lemma FailTaskOneCall(s: State, n: Peer, call: CallId)
    requires Guard(s, FailTask(n, call)) && LogInv(s) && ServerInv(s, n)
    requires call in s.calls && CallInv(s, call) && ClientInv(s)
    ensures var t := Next(s, FailTask(n, call));
            && OneCall(s, t, n, call) && CallInv(t, call)
            && ValueInv(s, t.servers[n]) && LeaderInv(s, n, t.servers[n])
            && call in Phases(t, n) && ClosureInv(t, n, call, Phases(t, n)[call])
  {
    hide Encode, ParseInt64, Int64Of, Fold, Parse, DoReceive, DoAccept, DoApply, DoRunClosure, DoSave, DoLoad, DoCrash;
    assert ClosureInv(s, n, call, Phases(s, n)[call]);
    assert forall i | At(s.log, call, i) :: EntryInv(s, s.log[i]);
    CallFrame(s, Next(s, FailTask(n, call)), call);
  }

  lemma ClientFrame(s: State, t: State)
    requires ClientInv(s) && t.acked == s.acked && |t.calls| <= t.attempts
    requires forall c | c in s.calls && s.calls[c].runs == 1 :: c in t.calls && t.calls[c] == s.calls[c]
    ensures ClientInv(t)
  {
  }

  lemma ReceiveStep(s: State, call: CallId, n: Peer, wire: Bytes, serializes: bool, leader: Option<Peer>)
    requires Inv(s) && Guard(s, Receive(call, n, wire, serializes, leader))
    ensures Inv(Next(s, Receive(call, n, wire, serializes, leader)))
  {
    var t := Next(s, Receive(call, n, wire, serializes, leader));
    NewCallIsNowhere(s, n, call);
    assert ServerInv(s, n);
    ReceiveCallInv(s, call, n, wire, serializes, leader);
    ReceiveOneCall(s, call, n, wire, serializes, leader);
    hide *;
    OneCallStep(s, t, n, call);
  }

  lemma ReceiveOneCall(s: State, call: CallId, n: Peer, wire: Bytes, serializes: bool, leader: Option<Peer>)
    requires Guard(s, Receive(call, n, wire, serializes, leader)) && LogInv(s) && ClientInv(s) && ServerInv(s, n)
    ensures var t := Next(s, Receive(call, n, wire, serializes, leader));
            OneCall(s, t, n, call) && LogInv(t) && ValueInv(s, t.servers[n]) && LeaderInv(s, n, t.servers[n])
  {
    var t := Next(s, Receive(call, n, wire, serializes, leader));
    assert call !in s.calls;
    hide *;
    ReceiveShape(s, call, n, wire, serializes, leader);
    NewCallOneCall(s, t, n, call);
  }

  /** The one new call, and perhaps its closure, is all that receiving adds. */
  ghost predicate AddsCall(s: State, t: State, n: Peer, call: CallId) {
    && n < |s.servers| && |t.servers| == |s.servers| && call in t.calls
    && t == s.(servers := t.servers, calls := s.calls[call := t.calls[call]], attempts := s.attempts + 1)
    && (forall m | 0 <= m < |s.servers| && m != n :: t.servers[m] == s.servers[m])
    && (t.servers[n] == s.servers[n]
        || (call in Phases(t, n) && t.servers[n] == SetPhase(s.servers[n], call, Phases(t, n)[call])))
  }

  lemma ReceiveShape(s: State, call: CallId, n: Peer, wire: Bytes, serializes: bool, leader: Option<Peer>)
    requires Guard(s, Receive(call, n, wire, serializes, leader))
    ensures AddsCall(s, Next(s, Receive(call, n, wire, serializes, leader)), n, call)
  {
    hide Encode, Parse, ParseInt64, Int64Of;
  }

  lemma NewCallOneCall(s: State, t: State, n: Peer, call: CallId)
    requires AddsCall(s, t, n, call) && call !in s.calls && LogInv(s) && ClientInv(s) && ServerInv(s, n)
    ensures OneCall(s, t, n, call) && LogInv(t) && ValueInv(s, t.servers[n]) && LeaderInv(s, n, t.servers[n])
  {
    SamePlace(s, n, t.servers[n]);
    hide ServerInv, ValueInv, LeaderInv, EntryInv;
    LogFrame(s, t);
    hide LogInv;
    NewCallTouchesOne(s, t, n, call);
  }

  lemma NewCallTouchesOne(s: State, t: State, n: Peer, call: CallId)
    requires AddsCall(s, t, n, call) && call !in s.calls && ClientInv(s)
    ensures OneCall(s, t, n, call)
  {
    OneMoreCall(s.calls, call, t.calls[call]);
    assert Moves(s, s.servers[n], t.servers[n]);
    hide Moves;
  }

  lemma OneMoreCall(calls: map<CallId, Call>, call: CallId, c: Call)
    requires call !in calls
    ensures |calls[call := c]| == |calls| + 1 && calls[call := c].Keys == calls.Keys + {call}
  {
  }

  /** A server that differs in its closures alone. */
  lemma SamePlace(s: State, n: Peer, sv: Server)
    requires n < |s.servers| && ValueInv(s, s.servers[n]) && LeaderInv(s, n, s.servers[n])
    requires sv == s.servers[n].(closures := sv.closures)
    ensures ValueInv(s, sv) && LeaderInv(s, n, sv)
  {
    hide Encode, Fold;
  }

  lemma ReceiveCallInv(s: State, call: CallId, n: Peer, wire: Bytes, serializes: bool, leader: Option<Peer>)
    requires Guard(s, Receive(call, n, wire, serializes, leader)) && ServerInv(s, n)
    requires !Logged(s.log, call) && call !in s.inflight && call !in Phases(s, n)
    ensures var t := Next(s, Receive(call, n, wire, serializes, leader));
            && CallInv(t, call)
            && (call in Phases(t, n) ==> ClosureInv(t, n, call, Phases(t, n)[call]))
  {
    hide Encode, ParseInt64, Int64Of, Fold, Parse, ValueInv;
    var request := Parse(VARINT, wire).value;
    assert Received(request);
    LogCarriesRequest(request);
  }

  lemma NewCallIsNowhere(s: State, n: Peer, call: CallId)
    requires Inv(s) && call !in s.calls && n < |s.servers|
    ensures !Logged(s.log, call) && call !in s.inflight && call !in Phases(s, n)
  {
    hide Encode, ParseInt64, Int64Of, Fold, CallInv;
    forall i | 0 <= i < |s.log| && s.log[i].Data?
      ensures s.log[i].call in s.calls
    {
      assert EntryInv(s, s.log[i]);
    }
    assert call in s.inflight ==> TaskInv(s, call, s.inflight[call]);
    assert ServerInv(s, n);
    assert call in Phases(s, n) ==> ClosureInv(s, n, call, Phases(s, n)[call]);
  }

  /** Applying one more entry is one more step of the fold. */
  lemma FoldNext(log: seq<Entry>, i: nat)
    requires i < |log|
    ensures Fold(log[..i + 1]) == Wrap64(Fold(log[..i]) + Delta(log[i]))
    ensures log[i].Config? ==> Fold(log[..i + 1]) == Fold(log[..i])
  {
    hide ParseInt64;
    assert log[..i + 1][..i] == log[..i];
    WrapSmall(Fold(log[..i]));
  }

  /** The bytes of a committed task parse, to the amount its caller asked for. */
  lemma CommittedBytesParse(s: State, i: nat)
    requires Inv(s) && i < |s.log| && s.log[i].Data?
    ensures s.log[i].call in s.calls
    ensures ParseInt64(s.log[i].bytes) == Some(Int64Of(s.calls[s.log[i].call].request))
    ensures Delta(s.log[i]) == Int64Of(s.calls[s.log[i].call].request)
  {
    hide Encode, ParseInt64, Int64Of, Fold;
    assert EntryInv(s, s.log[i]);
    assert CallInv(s, s.log[i].call);
  }

  /** An apply without a closure changes the value and the progress of one server. */
  lemma ApplyPlainShape(s: State, n: Peer)
    requires Guard(s, Apply(n)) && !HasClosure(s, n, s.log[s.servers[n].applied])
    requires var e := s.log[s.servers[n].applied]; e.Data? ==> ParseInt64(e.bytes).Some?
    ensures var sv, e := s.servers[n], s.log[s.servers[n].applied];
            var v := if e.Config? then sv.value else Wrap64(sv.value + Delta(e));
            DoApply(s, n) == SetServer(s, n, sv.(value := v, applied := sv.applied + 1))
  {
    hide Encode, ParseInt64, Int64Of, Wrap64, DoCrash;
  }

  /** One more entry folded into the value. */
  lemma ValueNext(s: State, sv: Server, tv: Server)
    requires ValueInv(s, sv) && sv.applied < |s.log|
    requires tv == sv.(value := tv.value, applied := sv.applied + 1, closures := tv.closures)
    requires var e := s.log[sv.applied];
             tv.value == if e.Config? then sv.value else Wrap64(sv.value + Delta(e))
    ensures ValueInv(s, tv)
  {
    hide Encode, Fold, Delta, Wrap64;
    FoldNext(s.log, sv.applied);
  }

  lemma ApplyPlainStep(s: State, n: Peer)
    requires Inv(s) && Guard(s, Apply(n)) && !HasClosure(s, n, s.log[s.servers[n].applied])
    requires var e := s.log[s.servers[n].applied]; e.Data? ==> ParseInt64(e.bytes).Some?
    requires ServerInv(s, n)
    ensures Inv(DoApply(s, n))
  {
    hide Inv, Encode, ParseInt64, Delta, Wrap64, ValueInv, ClosureInv, DoApply;
    ApplyPlainShape(s, n);
    var tv := DoApply(s, n).servers[n];
    ValueNext(s, s.servers[n], tv);
    ServerOnlyStep(s, n, tv, s.elected);
  }

  lemma ServerAt(s: State, n: Peer)
    requires Inv(s) && n < |s.servers|
    ensures ServerInv(s, n)
  {
    hide LogInv, ServerInv, CallInv, ClientInv;
  }

  lemma ApplyStep(s: State, n: Peer)
    requires Inv(s) && Guard(s, Apply(n))
    ensures Inv(Next(s, Apply(n)))
  {
    hide Inv, ServerInv, Encode, ParseInt64, Int64Of, Delta, Wrap64, DoApply;
    ServerAt(s, n);
    if s.log[s.servers[n].applied].Data? {
      CommittedBytesParse(s, s.servers[n].applied);
    }
    if HasClosure(s, n, s.log[s.servers[n].applied]) {
      ApplyOwnStep(s, n, DoApply(s, n));
    } else {
      ApplyPlainStep(s, n);
    }
  }

  lemma ApplyOwnStep(s: State, n: Peer, t: State)
    requires Inv(s) && Guard(s, Apply(n)) && t == DoApply(s, n)
    requires HasClosure(s, n, s.log[s.servers[n].applied])
    ensures Inv(t)
  {
    hide DoApply, Inv;
    var call := s.log[s.servers[n].applied].call;
    ApplyOwnValue(s, n, t);
    ApplyOwnCallInv(s, n, t);
    ApplyOwnOneCall(s, n, t);
    hide *;
    OneCallStep(s, t, n, call);
  }

  lemma ApplyOwnValue(s: State, n: Peer, t: State)
    requires Inv(s) && Guard(s, Apply(n)) && t == DoApply(s, n)
    requires HasClosure(s, n, s.log[s.servers[n].applied])
    ensures n < |t.servers| && ValueInv(s, t.servers[n])
  {
    hide DoApply, Inv, ValueInv, ClosureInv, Delta, Wrap64, Int64Of, ParseInt64, Encode;
    ServerAt(s, n);
    CommittedBytesParse(s, s.servers[n].applied);
    ApplyOwnShape(s, n, t);
    ValueNext(s, s.servers[n], t.servers[n]);
  }

  lemma ApplyOwnShape(s: State, n: Peer, t: State)
    requires Guard(s, Apply(n)) && t == DoApply(s, n) && HasClosure(s, n, s.log[s.servers[n].applied])
    ensures var sv, call := s.servers[n], s.log[s.servers[n].applied].call;
            && n < |t.servers|
            && t.servers[n].value == Wrap64(sv.value + Int64Of(s.calls[call].request))
            && t == SetServer(s, n,
                      SetPhase(sv.(value := t.servers[n].value, applied := sv.applied + 1), call, Fired(true)))
                    .(calls := s.calls[call := Respond(s.calls[call], Answered(s.calls[call].response, sv.value))])
  {
    hide Encode, ParseInt64, Int64Of, Wrap64;
  }

  lemma ApplyOwnOneCall(s: State, n: Peer, t: State)
    requires Inv(s) && Guard(s, Apply(n)) && t == DoApply(s, n)
    requires HasClosure(s, n, s.log[s.servers[n].applied])
    ensures OneCall(s, t, n, s.log[s.servers[n].applied].call) && LogInv(t) && LeaderInv(s, n, t.servers[n])
  {
    hide DoApply, Inv, LogInv, ValueInv, EntryInv;
    var call := s.log[s.servers[n].applied].call;
    ApplyOwnShape(s, n, t);
    ClosureFacts(s, n, call);
    LogFrame(s, t);
    ApplyOwnTouchesOne(s, n, t);
  }

  lemma ApplyOwnTouchesOne(s: State, n: Peer, t: State)
    requires Inv(s) && Guard(s, Apply(n)) && t == DoApply(s, n)
    requires HasClosure(s, n, s.log[s.servers[n].applied])
    ensures OneCall(s, t, n, s.log[s.servers[n].applied].call)
  {
    hide DoApply, Inv, LogInv, ServerInv, CallInv;
    var call := s.log[s.servers[n].applied].call;
    ApplyOwnShape(s, n, t);
    ClosureFacts(s, n, call);
    assert t.calls.Keys == s.calls.Keys;
    assert |t.calls| == |s.calls|;
    assert Moves(s, s.servers[n], t.servers[n]);
    hide Moves, ClosureInv;
  }

  lemma ApplyOwnCallInv(s: State, n: Peer, t: State)
    requires Inv(s) && Guard(s, Apply(n)) && t == DoApply(s, n)
    requires HasClosure(s, n, s.log[s.servers[n].applied])
    ensures var call := s.log[s.servers[n].applied].call;
            call in t.calls && CallInv(t, call) && call in Phases(t, n) && ClosureInv(t, n, call, Phases(t, n)[call])
  {
    hide Encode, ParseInt64, Int64Of, Fold, DoApply, Inv, LogInv, LeaderInv;
    var sv, call := s.servers[n], s.log[s.servers[n].applied].call;
    ApplyOwnShape(s, n, t);
    ClosureFacts(s, n, call);
    assert At(t.log, call, sv.applied);
    assert Succeeded(t, call);
  }

  lemma RunClosureStep(s: State, n: Peer, call: CallId, leader: Option<Peer>)
    requires Inv(s) && Guard(s, RunClosure(n, call, leader))
    ensures Inv(Next(s, RunClosure(n, call, leader)))
  {
    hide Inv, LogInv, EntryInv, ClosureInv, CallInv, OneCall;
    var t := Next(s, RunClosure(n, call, leader));
    ClosureFacts(s, n, call);
    LogFrame(s, t);
    RunClosureCallInv(s, n, call, leader);
    hide *;
    OneCallStep(s, t, n, call);
  }

  lemma RunClosureShape(s: State, n: Peer, call: CallId, leader: Option<Peer>)
    requires Guard(s, RunClosure(n, call, leader)) && call in s.calls
    ensures var t, sv, c := Next(s, RunClosure(n, call, leader)), s.servers[n], s.calls[call];
            var answered := if sv.closures[call].ok then c else Respond(c, Redirected(c.response, leader));
            t == SetServer(s, n, sv.(closures := sv.closures - {call}))
                 .(calls := s.calls[call := RunDone(answered).(deletes := c.deletes + 1)])
  {
  }

  lemma RunClosureCallInv(s: State, n: Peer, call: CallId, leader: Option<Peer>)
    requires Guard(s, RunClosure(n, call, leader)) && ServerInv(s, n)
    requires call in s.calls && CallInv(s, call) && ClientInv(s)
    ensures var t := Next(s, RunClosure(n, call, leader));
            && OneCall(s, t, n, call) && CallInv(t, call) && call !in Phases(t, n)
            && ValueInv(s, t.servers[n]) && LeaderInv(s, n, t.servers[n])
  {
    var t := Next(s, RunClosure(n, call, leader));
    RunClosureShape(s, n, call, leader);
    SamePlace(s, n, t.servers[n]);
    assert ClosureInv(s, n, call, Phases(s, n)[call]);
    hide Next, ServerInv, ValueInv, LeaderInv, OneCall, CallInv;
    RunClosureTouchesOne(s, n, call, leader);
    OneCallExtends(s, t, n, call);
    hide ClosureInv;
    RunClosureCompletes(s, n, call, leader);
  }

  lemma RunClosureCompletes(s: State, n: Peer, call: CallId, leader: Option<Peer>)
    requires Guard(s, RunClosure(n, call, leader)) && call in s.calls && CallInv(s, call)
    requires ClosureInv(s, n, call, Phases(s, n)[call])
    requires Extends(s, Next(s, RunClosure(n, call, leader)))
    ensures call in Next(s, RunClosure(n, call, leader)).calls && CallInv(Next(s, RunClosure(n, call, leader)), call)
  {
    var t := Next(s, RunClosure(n, call, leader));
    RunClosureShape(s, n, call, leader);
    hide Next, Encode, ParseInt64, Int64Of, Fold;
    if Phases(s, n)[call].ok {
      SucceededExtends(s, t, call);
    }
  }

  lemma OneCallExtends(s: State, t: State, n: Peer, call: CallId)
    requires OneCall(s, t, n, call)
    ensures Extends(s, t)
  {
    hide Moves;
  }

  lemma RunClosureTouchesOne(s: State, n: Peer, call: CallId, leader: Option<Peer>)
    requires Guard(s, RunClosure(n, call, leader)) && call in s.calls && ClientInv(s)
    requires s.calls[call].node == n && s.calls[call].runs == 0
    ensures OneCall(s, Next(s, RunClosure(n, call, leader)), n, call)
  {
    hide Parse, DoReceive, DoAccept, DoApply, DoSave, DoLoad, DoCrash;
    var t := Next(s, RunClosure(n, call, leader));
    assert t.calls.Keys == s.calls.Keys;
    assert |t.calls| == |s.calls|;
  }

  lemma CrashStep(s: State, n: Peer)
    requires Inv(s) && Guard(s, Crash(n))
    ensures Inv(Next(s, Crash(n)))
  {
    hide Inv, DoCrash;
    CrashCallInv(s, n);
    CrashLocal(s, n);
    CrashLog(s, n);
    CrashClients(s, n);
    CrashedServerInv(s, n);
    hide *;
    Assemble(s, DoCrash(s, n), n, Phases(s, n).Keys);
    NextCrash(s, n);
  }

  lemma NextCrash(s: State, n: Peer)
    requires Guard(s, Crash(n))
    ensures Next(s, Crash(n)) == DoCrash(s, n)
  {
    hide DoCrash;
  }

  /** A crash loses the pending replies of one process and all it kept but its snapshot. */
  lemma CrashShape(s: State, n: Peer)
    requires n < |s.servers|
    ensures var t := DoCrash(s, n);
            && t == s.(servers := s.servers[n := FRESH.(stored := s.servers[n].stored)], calls := t.calls)
            && t.calls.Keys == s.calls.Keys
            && (forall c | c in s.calls && c in Phases(s, n) :: t.calls[c] == s.calls[c].(lost := true))
            && (forall c | c in s.calls && c !in Phases(s, n) :: t.calls[c] == s.calls[c])
            && (forall c | c in s.calls ::
                  c in t.calls && t.calls[c].request == s.calls[c].request && t.calls[c].readTerm == s.calls[c].readTerm
                  && t.calls[c].news == s.calls[c].news && t.calls[c].node == s.calls[c].node)
  {
  }

  lemma CrashLocal(s: State, n: Peer)
    requires Inv(s) && n < |s.servers|
    ensures Local(s, DoCrash(s, n), n, Phases(s, n).Keys)
  {
    hide DoCrash, Inv, CallInv;
    CrashShape(s, n);
    CrashCallInv(s, n);
    var t := DoCrash(s, n);
    assert t.servers[n] == FRESH.(stored := s.servers[n].stored);
  }

  lemma CrashLog(s: State, n: Peer)
    requires Inv(s) && n < |s.servers|
    ensures LogInv(DoCrash(s, n)) && QueuedOutside(s, DoCrash(s, n), n)
  {
    assert LogInv(s);
    hide DoCrash, LogInv, Inv;
    CrashShape(s, n);
    QueuedStayOutside(s, DoCrash(s, n), n);
    hide QueuedOutside;
    LogFrame(s, DoCrash(s, n));
  }

  lemma CrashClients(s: State, n: Peer)
    requires Inv(s) && n < |s.servers|
    ensures ClientInv(DoCrash(s, n))
  {
    assert ClientInv(s);
    hide DoCrash, CallInv, Inv;
    CrashShape(s, n);
    CrashCallInv(s, n);
    assert |DoCrash(s, n).calls| == |s.calls|;
    ClientFrame(s, DoCrash(s, n));
  }

  lemma CrashedServerInv(s: State, n: Peer)
    requires Inv(s) && n < |s.servers|
    ensures ServerInv(DoCrash(s, n), n)
  {
    hide Encode, ParseInt64, Int64Of, EntryInv, CallInv, Fold, LogInv, DoCrash;
    assert ServerInv(s, n);
    hide Inv;
    CrashShape(s, n);
    FoldOfNothing();
    assert s.log[..0] == [];
  }

  lemma FoldOfNothing()
    ensures Fold([]) == 0
  {
  }

  lemma CrashCallInv(s: State, n: Peer)
    requires Inv(s) && n < |s.servers|
    ensures forall c | c in Phases(s, n) ::
              c in s.calls && c in DoCrash(s, n).calls && CallInv(DoCrash(s, n), c)
              && s.calls[c].node == n && s.calls[c].runs == 0
  {
    hide DoCrash, Inv;
    CrashShape(s, n);
    forall c | c in Phases(s, n)
      ensures c in s.calls && c in DoCrash(s, n).calls && CallInv(DoCrash(s, n), c)
      ensures s.calls[c].node == n && s.calls[c].runs == 0
    {
      hide Encode, ParseInt64, Int64Of, Fold, LogInv, ValueInv;
      ClosureFacts(s, n, c);
    }
  }

  // ---- Runs ----

  lemma StepKeepsInv(s: State, e: Event)
    requires Inv(s) && Guard(s, e)
    ensures Inv(Next(s, e))
  {
    hide Inv, Guard, Next;
    match e
    case Receive(call, n, wire, serializes, leader) => ReceiveStep(s, call, n, wire, serializes, leader);
    case LoseRequest => ClientStep(s, e);
    case Accept(n, call) => AcceptStep(s, n, call);
    case FailTask(n, call) => FailTaskStep(s, n, call);
    case Commit(_) => CommitStep(s, e);
    case CommitConfig(_) => CommitStep(s, e);
    case Drop(_) => ClientStep(s, e);
    case Apply(n) => ApplyStep(s, n);
    case RunClosure(n, call, leader) => RunClosureStep(s, n, call, leader);
    case Capture(n) => CaptureStep(s, n);
    case Save(n, k, ok) => SaveStep(s, n, k, ok);
    case Load(n, from, ok) => LoadStep(s, n, from, ok);
    case Elect(n, term) => ElectStep(s, n, term);
    case StepDown(n) => StepDownStep(s, n);
    case LeaderStart(n, term) => LeaderStartStep(s, n, term);
    case LeaderStop(n) => LeaderStopStep(s, n);
    case Crash(n) => CrashStep(s, n);
    case Acknowledge(_) => ClientStep(s, e);
  }

  lemma InitInv(checkTerm: bool, n: nat)
    ensures Inv(Init(checkTerm, n))
  {
    hide Encode;
    var s := Init(checkTerm, n);
    assert s.log[..0] == [];
  }

  lemma {:induction false} RunKeepsInv(s: State, es: seq<Event>)
    requires Inv(s) && Run(s, es).Some?
    ensures Inv(Run(s, es).value)
    decreases |es|
  {
    hide Inv, Guard, Next;
    if es != [] {
      StepKeepsInv(s, es[0]);
      RunKeepsInv(Next(s, es[0]), es[1..]);
    }
  }
}
