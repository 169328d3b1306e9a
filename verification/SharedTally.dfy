/** The sender threads of the multi-thread echo test: each makes a number of calls and adds one
    to a shared counter for every call that succeeds, holding a mutex around the increment.
    The increment is a read followed by a write, and threads interleave at every step. */
module SharedTally {
  import opened Basics

  datatype Pc =
    | Calling             // at the top of the loop, or waiting for the reply
    | Locking             // call succeeded, at m.lock()
    | Locked              // holds the mutex
    | HasRead(seen: int)  // threads_number read into a register
    | HasWritten          // register plus one written back
    | Returned

  datatype Thread = Thread(pc: Pc, i: nat)

  /** `useMutex` is true in the test; false removes lock and unlock, for comparison. */
  datatype State = State(useMutex: bool, loops: nat, owner: Option<nat>, number: int, errors: nat, threads: seq<Thread>)

  function Start(useMutex: bool, n: nat, loops: nat): State {
    State(useMutex, loops, None, 0, 0, seq(n, _ => Thread(Calling, 0)))
  }

  /** Thread `t` takes its next step; `ok` is the outcome of the call if one is pending. A thread
      that has to wait for the mutex, or has returned, stays where it is. */
  function Step(s: State, t: nat, ok: bool): State
    requires t < |s.threads|
  {
    var th := s.threads[t];
    match th.pc
    case Calling =>
      if th.i >= s.loops then s.(threads := s.threads[t := th.(pc := Returned)])
      else if ok then s.(threads := s.threads[t := th.(pc := Locking)])
      else s.(errors := s.errors + 1, threads := s.threads[t := th.(i := th.i + 1)])
    case Locking =>
      if s.useMutex && s.owner.Some? then s
      else s.(owner := if s.useMutex then Some(t) else None, threads := s.threads[t := th.(pc := Locked)])
    case Locked => s.(threads := s.threads[t := th.(pc := HasRead(s.number))])
    case HasRead(seen) => s.(number := seen + 1, threads := s.threads[t := th.(pc := HasWritten)])
    case HasWritten => s.(owner := None, threads := s.threads[t := Thread(Calling, th.i + 1)])
    case Returned => s
  }

  /** The state after a schedule: which thread moves and how its pending call turns out. */
  function Run(s: State, schedule: seq<(nat, bool)>): State
    decreases |schedule|
  {
    if schedule == [] then s
    else
      var (t, ok) := schedule[0];
      Run(if t < |s.threads| then Step(s, t, ok) else s, schedule[1..])
  }

  predicate Critical(th: Thread) {
    th.pc.Locked? || th.pc.HasRead? || th.pc.HasWritten?
  }

  predicate AllReturned(s: State) {
    forall t | 0 <= t < |s.threads| :: s.threads[t].pc.Returned?
  }

  /** Calls of one thread that have been counted, as an increment or as an error. */
  function Counted(th: Thread): nat {
    th.i + if th.pc.HasWritten? then 1 else 0
  }

  function TotalCounted(ts: seq<Thread>): nat {
    if ts == [] then 0 else Counted(ts[0]) + TotalCounted(ts[1..])
  }

  /** No two increments can overlap: there is a lock, or no second thread, or no call to make. */
  predicate Safe(useMutex: bool, n: nat, loops: nat) {
    useMutex || n < 2 || loops == 0
  }

  ghost predicate OwnerInv(s: State) {
    s.useMutex ==>
      && (forall t | 0 <= t < |s.threads| :: Critical(s.threads[t]) <==> s.owner == Some(t))
      && (s.owner.Some? ==> s.owner.value < |s.threads|)
  }

  ghost predicate ReadInv(s: State) {
    forall t | 0 <= t < |s.threads| :: s.threads[t].pc.HasRead? ==> s.threads[t].pc.seen == s.number
  }

  ghost predicate LoopInv(s: State) {
    forall t | 0 <= t < |s.threads| ::
      var th := s.threads[t];
      && th.i <= s.loops
      && (th.pc.Returned? ==> th.i == s.loops)
      && (Critical(th) || th.pc.Locking? ==> th.i < s.loops)
  }

  ghost predicate Inv(s: State) {
    && Safe(s.useMutex, |s.threads|, s.loops)
    && OwnerInv(s) && ReadInv(s) && LoopInv(s)
    && s.number + s.errors == TotalCounted(s.threads)
  }

  lemma {:induction false} TotalUpdate(ts: seq<Thread>, t: nat, th: Thread)
    requires t < |ts|
    ensures TotalCounted(ts[t := th]) == TotalCounted(ts) - Counted(ts[t]) + Counted(th)
    decreases |ts|
  {
    if t > 0 {
      TotalUpdate(ts[1..], t - 1, th);
      assert ts[t := th][1..] == ts[1..][t - 1 := th];
    }
  }

  lemma {:induction false} TotalUniform(ts: seq<Thread>, k: nat)
    requires forall t | 0 <= t < |ts| :: Counted(ts[t]) == k
    ensures TotalCounted(ts) == |ts| * k
    decreases |ts|
  {
    if ts != [] {
      TotalUniform(ts[1..], k);
    }
  }

  lemma AtMostOne(s: State, a: nat, b: nat)
    requires Safe(s.useMutex, |s.threads|, s.loops) && OwnerInv(s) && LoopInv(s)
    requires a < |s.threads| && b < |s.threads| && Critical(s.threads[a]) && Critical(s.threads[b])
    ensures a == b
  {
  }

  lemma StepKeepsReads(s: State, t: nat, ok: bool)
    requires Inv(s) && t < |s.threads|
    ensures ReadInv(Step(s, t, ok))
  {
    forall u | 0 <= u < |s.threads| && u != t && s.threads[u].pc.HasRead?
      ensures Step(s, t, ok).number == s.number
    {
      if s.threads[t].pc.HasRead? {
        AtMostOne(s, t, u);
      }
    }
    hide OwnerInv, LoopInv, Safe;
  }

  lemma StepKeepsOwner(s: State, t: nat, ok: bool)
    requires Inv(s) && t < |s.threads|
    ensures OwnerInv(Step(s, t, ok)) && LoopInv(Step(s, t, ok))
  {
    hide ReadInv, Safe, TotalCounted;
  }

  lemma StepKeepsInv(s: State, t: nat, ok: bool)
    requires Inv(s) && t < |s.threads|
    ensures Inv(Step(s, t, ok))
  {
    StepKeepsReads(s, t, ok);
    StepKeepsOwner(s, t, ok);
    TotalUpdate(s.threads, t, Step(s, t, ok).threads[t]);
    hide ReadInv, OwnerInv, LoopInv;
  }

  lemma {:induction false} RunKeepsInv(s: State, schedule: seq<(nat, bool)>)
    requires Inv(s)
    ensures Inv(Run(s, schedule))
    ensures |Run(s, schedule).threads| == |s.threads| && Run(s, schedule).loops == s.loops
    ensures Run(s, schedule).useMutex == s.useMutex
    decreases |schedule|
  {
    hide Inv;
    if schedule != [] {
      var (t, ok) := schedule[0];
      if t < |s.threads| {
        StepKeepsInv(s, t, ok);
        RunKeepsInv(Step(s, t, ok), schedule[1..]);
      } else {
        RunKeepsInv(s, schedule[1..]);
      }
    }
  }

  lemma StartInv(useMutex: bool, n: nat, loops: nat)
    requires Safe(useMutex, n, loops)
    ensures Inv(Start(useMutex, n, loops))
  {
    TotalUniform(Start(useMutex, n, loops).threads, 0);
  }

  /** In every interleaving at most one thread is between lock and unlock. */
  lemma MutualExclusion(n: nat, loops: nat, schedule: seq<(nat, bool)>, a: nat, b: nat)
    requires a < n && b < n && a != b
    ensures var s := Run(Start(true, n, loops), schedule);
            |s.threads| == n && !(Critical(s.threads[a]) && Critical(s.threads[b]))
  {
    StartInv(true, n, loops);
    RunKeepsInv(Start(true, n, loops), schedule);
  }

  /** No update is lost: once all threads are joined, increments and errors add up to the calls
      made, so the test's expectation holds exactly when no call failed. */
  lemma NoLostUpdates(useMutex: bool, n: nat, loops: nat, schedule: seq<(nat, bool)>)
    requires Safe(useMutex, n, loops) && AllReturned(Run(Start(useMutex, n, loops), schedule))
    ensures var s := Run(Start(useMutex, n, loops), schedule);
            && s.number + s.errors == n * loops
            && (s.number == n * loops <==> s.errors == 0)
  {
    StartInv(useMutex, n, loops);
    RunKeepsInv(Start(useMutex, n, loops), schedule);
    TotalUniform(Run(Start(useMutex, n, loops), schedule).threads, loops);
  }

  // ---- What is counted where ----

  /** Whether the step makes a call: the thread is at the top of its loop, with loops to go. */
  predicate Calls(s: State, t: nat) {
    t < |s.threads| && s.threads[t].pc.Calling? && s.threads[t].i < s.loops
  }

  /** The calls a schedule makes that turn out as `outcome`. */
  function CallsMade(s: State, schedule: seq<(nat, bool)>, outcome: bool): nat
    decreases |schedule|
  {
    if schedule == [] then 0
    else
      var (t, ok) := schedule[0];
      (if Calls(s, t) && ok == outcome then 1 else 0)
      + CallsMade(if t < |s.threads| then Step(s, t, ok) else s, schedule[1..], outcome)
  }

  /** Successful calls on their way to the increment. */
  function OnTheWay(ts: seq<Thread>): nat {
    if ts == [] then 0
    else (if ts[0].pc.Locking? || ts[0].pc.Locked? || ts[0].pc.HasRead? then 1 else 0) + OnTheWay(ts[1..])
  }

  lemma {:induction false} OnTheWayUpdate(ts: seq<Thread>, t: nat, th: Thread)
    requires t < |ts|
    ensures OnTheWay(ts[t := th]) == OnTheWay(ts) - OnTheWay([ts[t]]) + OnTheWay([th])
    decreases |ts|
  {
    assert [ts[t]][1..] == [] && [th][1..] == [];
    if t > 0 {
      OnTheWayUpdate(ts[1..], t - 1, th);
      assert ts[t := th][1..] == ts[1..][t - 1 := th];
    }
  }

  lemma {:induction false} NoneOnTheWay(ts: seq<Thread>)
    requires forall t | 0 <= t < |ts| :: ts[t].pc.Returned? || ts[t].pc.Calling?
    ensures OnTheWay(ts) == 0
    decreases |ts|
  {
    if ts != [] {
      NoneOnTheWay(ts[1..]);
    }
  }

  /** A step counts a failed call as an error at once, and a successful one as an increment in the
      end. */
  lemma StepCounts(s: State, t: nat, ok: bool)
    requires Inv(s) && t < |s.threads|
    ensures var u := Step(s, t, ok);
            && u.errors == s.errors + (if Calls(s, t) && !ok then 1 else 0)
            && u.number + OnTheWay(u.threads)
            == s.number + OnTheWay(s.threads) + (if Calls(s, t) && ok then 1 else 0)
  {
    OnTheWayUpdate(s.threads, t, Step(s, t, ok).threads[t]);
  }

  lemma {:induction false} RunCounts(s: State, schedule: seq<(nat, bool)>)
    requires Inv(s)
    ensures var u := Run(s, schedule);
            && u.errors == s.errors + CallsMade(s, schedule, false)
            && u.number + OnTheWay(u.threads)
            == s.number + OnTheWay(s.threads) + CallsMade(s, schedule, true)
    decreases |schedule|
  {
    hide Inv, OnTheWay;
    if schedule != [] {
      var (t, ok) := schedule[0];
      if t < |s.threads| {
        StepCounts(s, t, ok);
        StepKeepsInv(s, t, ok);
        RunCounts(Step(s, t, ok), schedule[1..]);
      } else {
        RunCounts(s, schedule[1..]);
      }
    }
  }

  /** In every interleaving the errors are the calls that failed; and once all threads are joined,
      `threads_number` is the calls that succeeded. */
  lemma CountedAsTheyEnded(useMutex: bool, n: nat, loops: nat, schedule: seq<(nat, bool)>)
    requires Safe(useMutex, n, loops)
    ensures var start := Start(useMutex, n, loops);
            var s := Run(start, schedule);
            && s.errors == CallsMade(start, schedule, false)
            && s.number <= CallsMade(start, schedule, true)
            && (AllReturned(s) ==> s.number == CallsMade(start, schedule, true))
  {
    var start := Start(useMutex, n, loops);
    StartInv(useMutex, n, loops);
    NoneOnTheWay(start.threads);
    RunCounts(start, schedule);
    hide Run, Start, CallsMade;
    if AllReturned(Run(start, schedule)) {
      NoneOnTheWay(Run(start, schedule).threads);
    }
  }

  // ---- The joins return ----

  /** Unless all threads have returned, one can move. */
  lemma SomeThreadCanMove(s: State)
    requires Inv(s) && !AllReturned(s)
    ensures exists t | 0 <= t < |s.threads| :: Step(s, t, true) != s
  {
    var t :| 0 <= t < |s.threads| && !s.threads[t].pc.Returned?;
    var u := if s.useMutex && s.threads[t].pc.Locking? && s.owner.Some? then s.owner.value else t;
    assert Step(s, u, true).threads[u] != s.threads[u];
  }

  /** Steps a thread has left to take. */
  function Left(th: Thread, loops: nat): int {
    6 * (loops - th.i) +
    match th.pc
    case Calling => 1
    case Locking => 0
    case Locked => -1
    case HasRead(_) => -2
    case HasWritten => -3
    case Returned => 0
  }

  function TotalLeft(ts: seq<Thread>, loops: nat): int {
    if ts == [] then 0 else Left(ts[0], loops) + TotalLeft(ts[1..], loops)
  }

  lemma {:induction false} LeftUpdate(ts: seq<Thread>, t: nat, th: Thread, loops: nat)
    requires t < |ts|
    ensures TotalLeft(ts[t := th], loops) == TotalLeft(ts, loops) - Left(ts[t], loops) + Left(th, loops)
    decreases |ts|
  {
    if t > 0 {
      LeftUpdate(ts[1..], t - 1, th, loops);
      assert ts[t := th][1..] == ts[1..][t - 1 := th];
    }
  }

  lemma {:induction false} LeftNonNegative(ts: seq<Thread>, loops: nat)
    requires forall t | 0 <= t < |ts| :: ts[t].i <= loops && (Critical(ts[t]) ==> ts[t].i < loops)
    ensures TotalLeft(ts, loops) >= 0
    decreases |ts|
  {
    if ts != [] {
      LeftNonNegative(ts[1..], loops);
    }
  }

  lemma {:induction false} LeftUniform(ts: seq<Thread>, loops: nat)
    requires forall t | 0 <= t < |ts| :: ts[t] == Thread(Calling, 0)
    ensures TotalLeft(ts, loops) == |ts| * (6 * loops + 1)
    decreases |ts|
  {
    if ts != [] {
      LeftUniform(ts[1..], loops);
    }
  }

  /** Every step that changes anything brings the end nearer, and the distance is never negative. */
  lemma MovingApproachesTheEnd(s: State, t: nat, ok: bool)
    requires Inv(s) && t < |s.threads|
    ensures 0 <= TotalLeft(s.threads, s.loops)
    ensures Step(s, t, ok) != s ==> TotalLeft(Step(s, t, ok).threads, s.loops) < TotalLeft(s.threads, s.loops)
  {
    LeftNonNegative(s.threads, s.loops);
    LeftUpdate(s.threads, t, Step(s, t, ok).threads[t], s.loops);
  }

  /** The moves of a schedule that change anything. */
  function Moves(s: State, schedule: seq<(nat, bool)>): nat
    decreases |schedule|
  {
    if schedule == [] then 0
    else
      var (t, ok) := schedule[0];
      var next := if t < |s.threads| then Step(s, t, ok) else s;
      (if next != s then 1 else 0) + Moves(next, schedule[1..])
  }

  lemma {:induction false} MovesBound(s: State, schedule: seq<(nat, bool)>)
    requires Inv(s)
    ensures Moves(s, schedule) <= TotalLeft(s.threads, s.loops)
    decreases |schedule|
  {
    if schedule == [] {
      LeftNonNegative(s.threads, s.loops);
    } else {
      var (t, ok) := schedule[0];
      if t < |s.threads| {
        StepKeepsInv(s, t, ok);
        MovingApproachesTheEnd(s, t, ok);
        MovesBound(Step(s, t, ok), schedule[1..]);
      } else {
        MovesBound(s, schedule[1..]);
      }
    }
  }

  /** No schedule makes more than n * (6 * loops + 1) moves, and until all threads have returned
      there is a move to make: whoever keeps moving threads sees every join return. */
  lemma JoinsReturn(n: nat, loops: nat, schedule: seq<(nat, bool)>)
    ensures Moves(Start(true, n, loops), schedule) <= n * (6 * loops + 1)
    ensures var s := Run(Start(true, n, loops), schedule);
            AllReturned(s) || exists t | 0 <= t < |s.threads| :: Step(s, t, true) != s
  {
    var start := Start(true, n, loops);
    StartInv(true, n, loops);
    LeftUniform(start.threads, loops);
    MovesBound(start, schedule);
    RunKeepsInv(start, schedule);
    var s := Run(start, schedule);
    if !AllReturned(s) {
      SomeThreadCanMove(s);
    }
  }

  // ---- Without the mutex ----

  lemma {:induction false} RunTwice(s: State, a: seq<(nat, bool)>, b: seq<(nat, bool)>)
    ensures Run(s, a + b) == Run(Run(s, a), b)
    decreases |a|
  {
    if a == [] {
      assert a + b == b;
    } else {
      var (t, ok) := a[0];
      assert (a + b)[0] == a[0] && (a + b)[1..] == a[1..] + b;
      RunTwice(if t < |s.threads| then Step(s, t, ok) else s, a[1..], b);
    }
  }

  /** The first two threads moving in turn, `k` times, their calls succeeding. */
  function InTurn(k: nat): seq<(nat, bool)> {
    if k == 0 then [] else [(0, true), (1, true)] + InTurn(k - 1)
  }

  lemma RunInTurn(s: State, k: nat, next: State)
    requires |s.threads| >= 2 && k > 0 && next == Step(Step(s, 0, true), 1, true)
    ensures Run(s, InTurn(k)) == Run(next, InTurn(k - 1))
  {
    var schedule := [(0, true), (1, true)] + InTurn(k - 1);
    assert schedule[1..] == [(1, true)] + InTurn(k - 1) && schedule[1..][1..] == InTurn(k - 1);
  }

  /** No lock anywhere: the first two threads stand at the same place, the others at the start. */
  function BothAt(n: nat, loops: nat, pc: Pc, i: nat, number: int): State
    requires n >= 2
  {
    var th := Thread(pc, i);
    State(false, loops, None, number, 0, Start(false, n, loops).threads[0 := th][1 := th])
  }

  /** Where two threads standing at the same place get by moving in turn. */
  function Abreast(n: nat, loops: nat, pc: Pc, i: nat, number: int): State
    requires n >= 2
  {
    match pc
    case Calling => BothAt(n, loops, Locking, i, number)
    case Locking => BothAt(n, loops, Locked, i, number)
    case Locked => BothAt(n, loops, HasRead(number), i, number)
    case HasRead(seen) => BothAt(n, loops, HasWritten, i, seen + 1)
    case HasWritten => BothAt(n, loops, Calling, i + 1, number)
    case Returned => BothAt(n, loops, Returned, i, number)
  }

  lemma BothMove(n: nat, loops: nat, pc: Pc, i: nat, number: int, k: nat)
    requires n >= 2 && k > 0 && (pc.Calling? ==> i < loops)
    ensures Run(BothAt(n, loops, pc, i, number), InTurn(k)) == Run(Abreast(n, loops, pc, i, number), InTurn(k - 1))
  {
    hide Run, InTurn;
    RunInTurn(BothAt(n, loops, pc, i, number), k, Abreast(n, loops, pc, i, number));
  }

  lemma NoMoves(s: State)
    ensures Run(s, InTurn(0)) == s
  {
  }

  lemma AllAtTheStart(n: nat, loops: nat)
    requires n >= 2
    ensures Start(false, n, loops) == BothAt(n, loops, Calling, 0, 0)
  {
  }

  /** Both threads read before either writes: two calls succeed and one is counted. */
  lemma Race(n: nat, loops: nat)
    requires n >= 2 && loops >= 1
    ensures Run(Start(false, n, loops), InTurn(5)) == BothAt(n, loops, Calling, 1, 1)
  {
    hide BothAt, Step, Start, Run, InTurn;
    AllAtTheStart(n, loops);
    BothMove(n, loops, Calling, 0, 0, 5);
    BothMove(n, loops, Locking, 0, 0, 4);
    BothMove(n, loops, Locked, 0, 0, 3);
    BothMove(n, loops, HasRead(0), 0, 0, 2);
    BothMove(n, loops, HasWritten, 0, 1, 1);
    NoMoves(BothAt(n, loops, Calling, 1, 1));
  }

  /** No thread is on its way to an increment. */
  predicate Idle(s: State) {
    forall t | 0 <= t < |s.threads| ::
      var th := s.threads[t];
      (th.pc.Calling? && th.i <= s.loops) || (th.pc.Returned? && th.i == s.loops)
  }

  /** A thread of an idle state that has not returned counts an error, or returns. */
  lemma FailOne(s: State, t: nat)
    requires Idle(s) && t < |s.threads| && !s.threads[t].pc.Returned?
    ensures var u := Step(s, t, false);
            && Idle(u) && |u.threads| == |s.threads| && u.loops == s.loops
            && u.number + u.errors - TotalCounted(u.threads) == s.number + s.errors - TotalCounted(s.threads)
            && 0 <= TotalLeft(u.threads, s.loops) < TotalLeft(s.threads, s.loops)
  {
    var u := Step(s, t, false);
    TotalUpdate(s.threads, t, u.threads[t]);
    LeftUpdate(s.threads, t, u.threads[t], s.loops);
    LeftNonNegative(u.threads, s.loops);
  }

  /** From an idle state all threads can return, with all their remaining calls counted as errors. */
  lemma {:induction false} FailTheRest(s: State) returns (schedule: seq<(nat, bool)>)
    requires Idle(s)
    ensures var u := Run(s, schedule);
            && AllReturned(u) && Idle(u) && |u.threads| == |s.threads| && u.loops == s.loops
            && u.number + u.errors - TotalCounted(u.threads) == s.number + s.errors - TotalCounted(s.threads)
    decreases TotalLeft(s.threads, s.loops)
  {
    hide Idle, Step, TotalCounted, TotalLeft;
    if AllReturned(s) {
      schedule := [];
    } else {
      var t: nat :| t < |s.threads| && !s.threads[t].pc.Returned?;
      FailOne(s, t);
      var rest := FailTheRest(Step(s, t, false));
      schedule := [(t, false)] + rest;
      assert schedule[1..] == rest;
    }
  }

  /** Every schedule keeps every update exactly if the mutex is used, or there are no two threads
      with a call to make; otherwise some schedule loses one. */
  lemma MutexDecides(useMutex: bool, n: nat, loops: nat)
    ensures Safe(useMutex, n, loops) <==>
              forall schedule | AllReturned(Run(Start(useMutex, n, loops), schedule)) ::
                var s := Run(Start(useMutex, n, loops), schedule);
                s.number + s.errors == n * loops
  {
    if Safe(useMutex, n, loops) {
      forall schedule | AllReturned(Run(Start(useMutex, n, loops), schedule))
        ensures var s := Run(Start(useMutex, n, loops), schedule);
                s.number + s.errors == n * loops
      {
        NoLostUpdates(useMutex, n, loops, schedule);
      }
    } else {
      var schedule := OneLost(n, loops);
    }
  }

  lemma OneLost(n: nat, loops: nat) returns (schedule: seq<(nat, bool)>)
    requires n >= 2 && loops >= 1
    ensures var s := Run(Start(false, n, loops), schedule);
            AllReturned(s) && s.number + s.errors == n * loops - 1
  {
    Race(n, loops);
    var start, raced := Start(false, n, loops), BothAt(n, loops, Calling, 1, 1);
    RacedCount(n, loops);
    var rest := FailTheRest(raced);
    schedule := InTurn(5) + rest;
    RunTwice(start, InTurn(5), rest);
    TotalUniform(Run(raced, rest).threads, loops);
  }

  lemma RacedCount(n: nat, loops: nat)
    requires n >= 2 && loops >= 1
    ensures TotalCounted(BothAt(n, loops, Calling, 1, 1).threads) == 2 && Idle(BothAt(n, loops, Calling, 1, 1))
  {
    var th, ts := Thread(Calling, 1), Start(false, n, loops).threads;
    TotalUniform(ts, 0);
    TotalUpdate(ts, 0, th);
    TotalUpdate(ts[0 := th], 1, th);
  }
}
