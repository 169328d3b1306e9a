/** A replication group of counters and its callers, as a state machine over interleaved steps.
    The handlers are those of CounterSpec. Raft itself is not modelled: what braft promises the
    state machine stands in the guards, which leave everything else to chance. */
module Cluster {
  import opened Basics
  import opened Wire
  import opened Messages
  import opened CounterSpec

  /** Identifies one fetch_add RPC; a retry is another call. */
  type CallId = nat

  /** A log entry: a configuration change, which never reaches on_apply, or a task. */
  datatype Entry = Config(term: nat) | Data(term: nat, call: CallId, bytes: Bytes)

  /** Where a FetchAddClosure is: with a task not yet accepted, with an accepted task, or about
      to be run, with or without an error status. */
  datatype Phase = Queued(bytes: Bytes, expectedTerm: int) | Accepted | Fired(ok: bool)

  /** SnapshotArg of a save in flight, tagged by braft with the applied index. */
  datatype Job = Job(index: nat, value: int64)

  /** A published snapshot: its tag and the bytes of its "data" file. */
  datatype Snapshot = Snapshot(index: nat, file: Bytes)

  /** One process: the Counter object, and what braft keeps around it. */
  datatype Server = Server(
    value: int64,                   // _value
    leaderTerm: int,                // _leader_term
    applied: nat,                   // entries applied so far
    raftTerm: Option<nat>,          // the term this node leads, as braft knows it now
    starting: set<nat>,             // terms won whose on_leader_start is not yet delivered
    closures: map<CallId, Phase>,
    jobs: seq<Job>,
    stored: Option<Snapshot>)

  const FRESH: Server := Server(0, NO_TERM, 0, None, {}, map[], [], None)

  /** One fetch_add RPC: what the server read and wrote, and what became of `done` and of the
      heap-allocated closure. The tallies are kept independently of one another. */
  datatype Call = Call(
    node: Peer,
    request: Message,
    readTerm: int,       // the leader term the handler read
    response: Response,
    runs: nat,           // times `done` was run
    news: nat,           // closures allocated
    deletes: nat,        // closures deleted
    late: bool,          // the response was written after `done` was run
    lost: bool)          // the process died holding `done`

  datatype State = State(
    checkTerm: bool,
    log: seq<Entry>,                // committed, agreed, append-only
    inflight: map<CallId, Entry>,   // accepted, in some log tail, not committed
    servers: seq<Server>,
    calls: map<CallId, Call>,
    elected: map<nat, Peer>,        // who won each term
    attempts: nat,                  // fetch_add requests transmitted by clients
    acked: set<CallId>)             // calls whose success reached the client

  function Init(checkTerm: bool, n: nat): State {
    State(checkTerm, [], map[], seq(n, _ => FRESH), map[], map[], 0, {})
  }

  // ---- The counter value of a log ----

  function Delta(e: Entry): int64 {
    match e
    case Config(_) => 0
    case Data(_, _, bytes) => match ParseInt64(bytes) case Some(d) => d case None => 0
  }

  /** The value after applying a whole log from 0, wrapping at every step. */
  function Fold(log: seq<Entry>): int64 {
    if log == [] then 0 else Wrap64(Fold(log[..|log| - 1]) + Delta(log[|log| - 1]))
  }

  /** The plain sum of what a log adds. */
  function Sum(log: seq<Entry>): int {
    if log == [] then 0 else Sum(log[..|log| - 1]) + Delta(log[|log| - 1])
  }

  /** Entry `i` of the log is the task of `call`. */
  predicate At(log: seq<Entry>, call: CallId, i: int) {
    0 <= i < |log| && log[i].Data? && log[i].call == call
  }

  function LastTerm(log: seq<Entry>): nat {
    if log == [] then 0 else log[|log| - 1].term
  }

  // ---- Steps ----

  datatype Event =
    | Receive(call: CallId, n: Peer, wire: Bytes, serializes: bool, leader: Option<Peer>)
    | LoseRequest                                   // a transmission that reaches no server
    | Accept(n: Peer, call: CallId)                 // braft takes the task into its log
    | FailTask(n: Peer, call: CallId)                   // braft fails the task's closure
    | Commit(call: CallId)
    | CommitConfig(term: nat)
    | Drop(call: CallId)                            // an uncommitted tail is truncated
    | Apply(n: Peer)                                // one turn of the on_apply loop
    | RunClosure(n: Peer, call: CallId, leader: Option<Peer>)
    | Capture(n: Peer)                              // on_snapshot_save
    | Save(n: Peer, k: nat, ok: bool)               // save_snapshot, in the background
    | Load(n: Peer, from: Peer, ok: bool)           // on_snapshot_load
    | Elect(n: Peer, term: nat)
    | StepDown(n: Peer)
    | LeaderStart(n: Peer, term: nat)               // on_leader_start is delivered
    | LeaderStop(n: Peer)                           // on_leader_stop is delivered
    | Crash(n: Peer)                                // and restart, as a fresh process
    | Acknowledge(call: CallId)                     // a success reaches the client in time

  function Phases(s: State, n: Peer): map<CallId, Phase>
    requires n < |s.servers|
  {
    s.servers[n].closures
  }

  /** What leader_id() may return: nothing, or a server that has won some term. */
  predicate HasLed(s: State, leader: Option<Peer>) {
    leader.Some? ==> leader.value in s.elected.Values
  }

  /** What braft, and the network, promise about each step. */
  predicate Guard(s: State, e: Event) {
    match e
    case Receive(call, n, wire, _, leader) =>
      && n < |s.servers| && call !in s.calls && Parse(VARINT, wire).Some? && Parse(VARINT, wire).value.known.Some?
      && HasLed(s, leader)
    case LoseRequest => true
    case Accept(n, call) =>
      // a task whose expected_term is not the term being led is never accepted
      && n < |s.servers| && call in Phases(s, n) && Phases(s, n)[call].Queued?
      && s.servers[n].raftTerm.Some?
      && Phases(s, n)[call].expectedTerm in {NO_TERM, s.servers[n].raftTerm.value}
    case FailTask(n, call) => n < |s.servers| && call in Phases(s, n) && !Phases(s, n)[call].Fired?
    case Commit(call) =>
      // the first entry of a term is its configuration entry
      call in s.inflight && LastTerm(s.log) <= s.inflight[call].term && Config(s.inflight[call].term) in s.log
    case CommitConfig(term) => term in s.elected && LastTerm(s.log) <= term
    case Drop(call) => call in s.inflight
    case Apply(n) => n < |s.servers| && s.servers[n].applied < |s.log|
    case RunClosure(n, call, leader) =>
      n < |s.servers| && call in Phases(s, n) && Phases(s, n)[call].Fired? && HasLed(s, leader)
    case Capture(n) => n < |s.servers|
    case Save(n, k, _) => n < |s.servers| && k < |s.servers[n].jobs|
    case Load(n, from, _) =>
      && n < |s.servers| && from < |s.servers| && s.servers[from].stored.Some?
      && s.servers[n].raftTerm.None? && s.servers[n].leaderTerm <= 0
      && s.servers[n].applied <= s.servers[from].stored.value.index
    case Elect(n, term) => n < |s.servers| && term >= 1 && term !in s.elected && s.servers[n].raftTerm.None?
    case StepDown(n) => n < |s.servers| && s.servers[n].raftTerm.Some?
    case LeaderStart(n, term) =>
      // delivered once this term's configuration entry, hence all earlier ones, are applied here
      && n < |s.servers| && term in s.servers[n].starting && s.servers[n].leaderTerm == NO_TERM
      && s.servers[n].applied <= |s.log|
      && Config(term) in s.log[..s.servers[n].applied]
    case LeaderStop(n) => n < |s.servers|
    case Crash(n) => n < |s.servers|
    case Acknowledge(call) =>
      call in s.calls && s.calls[call].runs > 0 && s.calls[call].response.success == Some(true)
  }

  function SetServer(s: State, n: Peer, sv: Server): State
    requires n < |s.servers|
  {
    s.(servers := s.servers[n := sv])
  }

  function SetPhase(sv: Server, call: CallId, p: Phase): Server {
    sv.(closures := sv.closures[call := p])
  }

  function Respond(c: Call, r: Response): Call {
    c.(response := r, late := c.late || c.runs > 0)
  }

  function RunDone(c: Call): Call {
    c.(runs := c.runs + 1)
  }

  function DoReceive(s: State, call: CallId, n: Peer, wire: Bytes, serializes: bool, leader: Option<Peer>): State
    requires Guard(s, Receive(call, n, wire, serializes, leader))
  {
    var sv, request := s.servers[n], Parse(VARINT, wire).value;
    var c := Call(n, request, sv.leaderTerm, BLANK, 0, 0, 0, false, false);
    match HandleFetchAdd(sv.leaderTerm, request, serializes, s.checkTerm, leader)
    case ReplyNow(r) => s.(calls := s.calls[call := RunDone(Respond(c, r))], attempts := s.attempts + 1)
    case Submit(bytes, expectedTerm) =>
      SetServer(s, n, SetPhase(sv, call, Queued(bytes, expectedTerm)))
      .(calls := s.calls[call := c.(news := 1)], attempts := s.attempts + 1)
  }

  function DoAccept(s: State, n: Peer, call: CallId): State
    requires Guard(s, Accept(n, call))
  {
    var sv := s.servers[n];
    SetServer(s, n, SetPhase(sv, call, Accepted))
    .(inflight := s.inflight[call := Data(sv.raftTerm.value, call, sv.closures[call].bytes)])
  }

  /** The closure that comes with an entry: only where its task was accepted and still pending. */
  predicate HasClosure(s: State, n: Peer, e: Entry)
    requires n < |s.servers|
  {
    e.Data? && e.call in Phases(s, n) && Phases(s, n)[e.call].Accepted? && e.call in s.calls
  }

  function DoApply(s: State, n: Peer): State
    requires Guard(s, Apply(n))
  {
    var sv, e := s.servers[n], s.log[s.servers[n].applied];
    if e.Config? then SetServer(s, n, sv.(applied := sv.applied + 1))
    else
      var request := if HasClosure(s, n, e) then Some(s.calls[e.call].request) else None;
      match ApplyItem(sv.value, Item(e.bytes, request))
      case None => DoCrash(s, n)  // CHECK failed
      case Some(v) =>
        var after := sv.(value := v, applied := sv.applied + 1);
        if request.None? then SetServer(s, n, after)
        else
          var c := s.calls[e.call];
          SetServer(s, n, SetPhase(after, e.call, Fired(true)))
          .(calls := s.calls[e.call := Respond(c, Answered(c.response, sv.value))])
  }

  function DoRunClosure(s: State, n: Peer, call: CallId, leader: Option<Peer>): State
    requires Guard(s, RunClosure(n, call, leader))
  {
    var sv := s.servers[n];
    var t := SetServer(s, n, sv.(closures := sv.closures - {call}));
    if call !in s.calls then t
    else
      var c := s.calls[call];
      var answered := if sv.closures[call].ok then c else Respond(c, Redirected(c.response, leader));
      t.(calls := s.calls[call := RunDone(answered).(deletes := c.deletes + 1)])
  }

  function DoSave(sv: Server, k: nat, ok: bool): Server
    requires k < |sv.jobs|
  {
    var job := sv.jobs[k];
    sv.(jobs := sv.jobs[..k] + sv.jobs[k + 1..],
        stored := if ok then Some(Snapshot(job.index, Encode(Int64Message(job.value)))) else sv.stored)
  }

  function DoLoad(sv: Server, snapshot: Snapshot): Server {
    match ParseInt64(snapshot.file)
    case None => sv
    case Some(v) => sv.(value := v, applied := snapshot.index, stored := Some(snapshot))
  }

  function DoCrash(s: State, n: Peer): State
    requires n < |s.servers|
  {
    SetServer(s, n, FRESH.(stored := s.servers[n].stored))
    .(calls := map call | call in s.calls ::
        if call in Phases(s, n) then s.calls[call].(lost := true) else s.calls[call])
  }

  function Next(s: State, e: Event): State
    requires Guard(s, e)
  {
    match e
    case Receive(call, n, wire, serializes, leader) => DoReceive(s, call, n, wire, serializes, leader)
    case LoseRequest => s.(attempts := s.attempts + 1)
    case Accept(n, call) => DoAccept(s, n, call)
    case FailTask(n, call) => SetServer(s, n, SetPhase(s.servers[n], call, Fired(false)))
    case Commit(call) => s.(log := s.log + [s.inflight[call]], inflight := s.inflight - {call})
    case CommitConfig(term) => s.(log := s.log + [Config(term)])
    case Drop(call) => s.(inflight := s.inflight - {call})
    case Apply(n) => DoApply(s, n)
    case RunClosure(n, call, leader) => DoRunClosure(s, n, call, leader)
    case Capture(n) =>
      var sv := s.servers[n];
      SetServer(s, n, sv.(jobs := sv.jobs + [Job(sv.applied, sv.value)]))
    case Save(n, k, ok) => SetServer(s, n, DoSave(s.servers[n], k, ok))
    case Load(n, from, ok) =>
      if ok then SetServer(s, n, DoLoad(s.servers[n], s.servers[from].stored.value)) else s
    case Elect(n, term) =>
      var sv := s.servers[n];
      SetServer(s, n, sv.(raftTerm := Some(term), starting := sv.starting + {term})).(elected := s.elected[term := n])
    case StepDown(n) => SetServer(s, n, s.servers[n].(raftTerm := None))
    case LeaderStart(n, term) =>
      SetServer(s, n, s.servers[n].(leaderTerm := term, starting := s.servers[n].starting - {term}))
    case LeaderStop(n) => SetServer(s, n, s.servers[n].(leaderTerm := NO_TERM))
    case Crash(n) => DoCrash(s, n)
    case Acknowledge(call) => s.(acked := s.acked + {call})
  }

  /** The state after a run from `s`, if every step of it was possible. */
  function Run(s: State, es: seq<Event>): Option<State>
    decreases |es|
  {
    if es == [] then Some(s)
    else if Guard(s, es[0]) then Run(Next(s, es[0]), es[1..])
    else None
  }
}
