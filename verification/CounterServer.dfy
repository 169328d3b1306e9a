/** The Counter state machine, its closures and the RPC objects it answers through, as objects. */
module CounterServer {
  import opened Basics
  import opened Messages
  import opened CounterSpec

  class CounterResponse {
    var success: Option<bool>
    var value: Option<int64>
    var redirect: Option<Peer>

    constructor ()
      ensures View() == BLANK
    {
      success, value, redirect := None, None, None;
    }

    function View(): Response
      reads this
    {
      Response(success, value, redirect)
    }
  }

  /** google::protobuf::Closure of one RPC: running it sends the response as it then stands. */
  class RpcDone {
    const response: CounterResponse
    var sent: seq<Response>

    constructor (response: CounterResponse)
      ensures this.response == response && sent == []
    {
      this.response := response;
      sent := [];
    }

    method Run()
      modifies this
      ensures sent == old(sent) + [response.View()]
    {
      sent := sent + [response.View()];
    }
  }

  /** braft::Node, as far as the counter uses it. */
  class RaftNode {
    var leader: Option<Peer>
    var tasks: seq<Task>

    constructor ()
      ensures leader == None && tasks == []
    {
      leader, tasks := None, [];
    }

    method Apply(task: Task)
      modifies `tasks
      ensures tasks == old(tasks) + [task]
    {
      tasks := tasks + [task];
    }
  }

  datatype Task = Task(data: Bytes, expectedTerm: int, done: FetchAddClosure)

  class FetchAddClosure {
    const counter: Counter
    const request: Message
    const response: CounterResponse
    const done: RpcDone
    var ok: bool
    ghost var deleted: bool

    constructor (counter: Counter, request: Message, response: CounterResponse, done: RpcDone)
      ensures this.counter == counter && this.request == request && this.response == response && this.done == done
      ensures ok && !deleted
    {
      this.counter, this.request, this.response, this.done := counter, request, response, done;
      ok, deleted := true, false;
    }

    /** Answers the RPC exactly once, last of all, and deletes the closure. */
    method Run()
      requires !deleted && done.response == response
      modifies this, response, done
      ensures deleted && ok == old(ok)
      ensures response.View() == if ok then old(response.View()) else Redirected(old(response.View()), counter.Leader())
      ensures old(ok) ==> done.sent == old(done.sent) + [old(response.View())]
      ensures !old(ok) && old(response.View()) == BLANK ==>
                done.sent == old(done.sent) + [Response(Some(false), None, counter.Leader())]
      ensures done.sent == old(done.sent) + [response.View()]
    {
      if !ok {
        counter.Redirect(response);
      }
      done.Run();
      deleted := true;
    }
  }

  /** One entry under braft's iterator; `done` is set on the node that proposed it. */
  datatype Entry = Entry(data: Bytes, done: FetchAddClosure?)

  function ItemOf(e: Entry): Item {
    Item(e.data, if e.done == null then None else Some(e.done.request))
  }

  function Items(es: seq<Entry>): (items: seq<Item>)
    ensures |items| == |es| && forall i | 0 <= i < |es| :: items[i] == ItemOf(es[i])
  {
    seq(|es|, i requires 0 <= i < |es| => ItemOf(es[i]))
  }

  /** What the call behind an entry would be answered now. */
  function ViewOf(e: Entry): Response
    reads if e.done == null then {} else {e.done.response}
  {
    if e.done == null then BLANK else e.done.response.View()
  }

  /** `toRun` are the closures that come with `es`, all of them and in order; `at` tells where. */
  ghost predicate AllClosures(es: seq<Entry>, toRun: seq<FetchAddClosure>, at: seq<nat>) {
    && |at| == |toRun|
    && (forall j, k | 0 <= j < k < |at| :: at[j] < at[k])
    && (forall k | 0 <= k < |at| :: at[k] < |es| && es[at[k]].done == toRun[k])
    && (forall i | 0 <= i < |es| && es[i].done != null :: i in at)
  }

  lemma OneMoreClosure(es: seq<Entry>, k: nat, toRun: seq<FetchAddClosure>, at: seq<nat>)
    requires k < |es| && AllClosures(es[..k], toRun, at)
    ensures if es[k].done == null then AllClosures(es[..k + 1], toRun, at)
            else AllClosures(es[..k + 1], toRun + [es[k].done], at + [k])
  {
    if es[k].done != null {
      assert forall i | i in at :: i in at + [k];
      assert (at + [k])[|at|] == k;
    }
  }

  class SnapshotWriter {
    var file: Option<Bytes>
    var listed: bool

    constructor ()
      ensures file == None && !listed
    {
      file, listed := None, false;
    }
  }

  class SnapshotDone {
    var ok: bool
    var runs: nat

    constructor ()
      ensures ok && runs == 0
    {
      ok, runs := true, 0;
    }
  }

  datatype SnapshotArg = SnapshotArg(value: int64, writer: SnapshotWriter, done: SnapshotDone)

  class Counter {
    const checkTerm: bool
    var node: RaftNode?
    var value: int64
    var leaderTerm: int

    constructor (checkTerm: bool)
      ensures this.checkTerm == checkTerm && node == null && value == 0 && leaderTerm == NO_TERM
    {
      this.checkTerm := checkTerm;
      node, value, leaderTerm := null, 0, NO_TERM;
    }

    /** The leader this node knows of. */
    function Leader(): Option<Peer>
      reads this, node
    {
      if node == null then None else node.leader
    }

    /** One task has been submitted, with a new closure that owns `done`. */
    twostate predicate Submitted(before: seq<Task>, data: Bytes, expectedTerm: int,
                                 request: Message, response: CounterResponse, done: RpcDone)
      reads this, node, if node == null then {} else set t | t in node.tasks :: t.done
    {
      && node != null && |node.tasks| == |before| + 1 && node.tasks[..|before|] == before
      && var task := node.tasks[|before|];
      && task.data == data && task.expectedTerm == expectedTerm
      && fresh(task.done) && task.done.ok && !task.done.deleted
      && task.done.counter == this && task.done.request == request
      && task.done.response == response && task.done.done == done
    }

    /** `alive` is false when there is a task to submit but no node yet, as while start() has not
        returned: the null pointer is dereferenced, with nothing sent and nothing submitted. */
    method FetchAdd(request: Message, response: CounterResponse, done: RpcDone, serializes: bool) returns (alive: bool)
      requires done.response == response && response.View() == BLANK
      modifies response, done, node
      ensures Leader() == old(Leader())
      ensures match HandleFetchAdd(leaderTerm, request, serializes, checkTerm, Leader())
              case ReplyNow(r) =>
                && alive
                && response.View() == r && done.sent == old(done.sent) + [r]
                && (node != null ==> node.tasks == old(node.tasks))
              case Submit(data, expectedTerm) =>
                && response.View() == BLANK && done.sent == old(done.sent)
                && alive == (node != null)
                && (alive ==> Submitted(old(node.tasks), data, expectedTerm, request, response, done))
      ensures leaderTerm < 0 ==> done.sent == old(done.sent) + [Response(Some(false), None, Leader())]
      ensures leaderTerm >= 0 && !serializes ==> done.sent == old(done.sent) + [Response(Some(false), None, None)]
      ensures leaderTerm >= 0 && serializes && node != null ==>
                Submitted(old(node.tasks), Encode(request), if checkTerm then leaderTerm else -1,
                          request, response, done)
    {
      var term := leaderTerm;
      if term < 0 {
        Redirect(response);
        done.Run();
        return true;
      }
      if !serializes {
        response.success := Some(false);
        done.Run();
        return true;
      }
      var log := Encode(request);
      var closure := new FetchAddClosure(this, request, response, done);
      var task := Task(log, if checkTerm then term else NO_TERM, closure);
      if node == null {
        return false;
      }
      node.Apply(task);
      return true;
    }

    method Get(response: CounterResponse)
      requires response.View() == BLANK
      modifies response
      ensures response.View() == HandleGet(value, leaderTerm, Leader())
      ensures leaderTerm > 0 ==> response.View() == Response(Some(true), Some(value), None)
      ensures leaderTerm <= 0 ==> response.View() == Response(Some(false), None, Leader())
    {
      var leading := IsLeader();
      if !leading {
        Redirect(response);
        return;
      }
      response.success := Some(true);
      response.value := Some(value);
    }

    method IsLeader() returns (yes: bool)
      ensures yes == (leaderTerm > 0)
    {
      yes := leaderTerm > 0;
    }

    method Redirect(response: CounterResponse)
      modifies response
      ensures response.View() == Redirected(old(response.View()), Leader())
      ensures response.success == Some(false) && response.value == old(response.value)
      ensures response.redirect == if Leader().Some? then Leader() else old(response.redirect)
    {
      response.success := Some(false);
      if node != null {
        var leader := node.leader;
        if leader.Some? {
          response.redirect := leader;
        }
      }
    }

    /** One turn of the on_apply loop; `alive` is false if the entry's bytes do not parse. */
    method ApplyEntry(e: Entry) returns (alive: bool)
      modifies `value, if e.done == null then {} else {e.done.response}
      ensures alive == ApplyItem(old(value), ItemOf(e)).Some?
      ensures alive ==> Some(value) == ApplyItem(old(value), ItemOf(e))
      ensures alive && e.done != null ==>
                ViewOf(e) == Answered(old(ViewOf(e)), old(value))
      ensures alive <==> e.done != null || ParseInt64(e.data).Some?
      ensures alive ==>
                value == Wrap64(old(value)
                                + if e.done != null then Int64Of(e.done.request) else ParseInt64(e.data).value)
      ensures e.done != null ==>
                e.done.response.success == Some(true) && e.done.response.value == Some(old(value))
    {
      var delta;
      if e.done != null {
        delta := Int64Of(e.done.request);
      } else {
        match ParseInt64(e.data)
        case Some(d) => delta := d;
        case None => return false;
      }
      var prev := value;
      value := Wrap64(value + delta);
      if e.done != null {
        e.done.response.success := Some(true);
        e.done.response.value := Some(prev);
      }
      alive := true;
    }

    /** Folds a batch into the value and answers the calls proposed here with the value before
        their own entry; all closures that came with the batch, at the places `at`, are run later,
        outside this call. */
    method OnApply(es: seq<Entry>) returns (alive: bool, toRun: seq<FetchAddClosure>, ghost at: seq<nat>)
      requires forall i, j | 0 <= i < j < |es| && es[i].done != null && es[j].done != null ::
                 es[i].done.response != es[j].done.response
      modifies `value, set e | e in es && e.done != null :: e.done.response
      ensures alive == ApplyFirst(old(value), Items(es), |es|).Some?
      ensures alive ==> Some(value) == ApplyFirst(old(value), Items(es), |es|) && AllClosures(es, toRun, at)
      ensures alive ==> forall i | 0 <= i < |es| && es[i].done != null ::
                var before := ApplyFirst(old(value), Items(es), i);
                && before.Some? && ViewOf(es[i]) == Answered(old(ViewOf(es[i])), before.value)
                && es[i].done.response.success == Some(true) && es[i].done.response.value == before
    {
      ghost var start, items := value, Items(es);
      toRun, at := [], [];
      hide ApplyItem, ItemOf, Items;
      for k := 0 to |es|
        invariant Some(value) == ApplyFirst(start, items, k) && AllClosures(es[..k], toRun, at)
        invariant forall i | 0 <= i < k && es[i].done != null ::
                    var before := ApplyFirst(start, items, i);
                    before.Some? && ViewOf(es[i]) == Answered(old(ViewOf(es[i])), before.value)
        invariant forall i | k <= i < |es| :: ViewOf(es[i]) == old(ViewOf(es[i]))
      {
        hide Answered, ViewOf, AllClosures;
        OneMoreClosure(es, k, toRun, at);
        alive := ApplyEntry(es[k]);
        if !alive {
          NoneIsFinal(start, items, k + 1, |es|);
          return;
        }
        if es[k].done != null {
          toRun, at := toRun + [es[k].done], at + [k];
        }
      }
      assert es[..|es|] == es;
      alive := true;
    }

    /** Captures the value; the copy, not this object, is what the background thread will write. */
    method OnSnapshotSave(writer: SnapshotWriter, done: SnapshotDone) returns (arg: SnapshotArg)
      ensures arg == SnapshotArg(value, writer, done)
    {
      arg := SnapshotArg(value, writer, done);
    }

    static method SaveSnapshot(arg: SnapshotArg, saves: bool, adds: bool)
      modifies arg.writer, arg.done
      ensures arg.done.runs == old(arg.done.runs) + 1
      ensures arg.done.ok == (old(arg.done.ok) && saves && adds)
      ensures saves ==> arg.writer.file == Some(Encode(Int64Message(arg.value)))
      ensures !saves ==> arg.writer.file == old(arg.writer.file)
      ensures arg.writer.listed == (old(arg.writer.listed) || (saves && adds))
    {
      if !saves {
        arg.done.ok := false;
        arg.done.runs := arg.done.runs + 1;
        return;
      }
      arg.writer.file := Some(Encode(Int64Message(arg.value)));
      if !adds {
        arg.done.ok := false;
      } else {
        arg.writer.listed := true;
      }
      arg.done.runs := arg.done.runs + 1;
    }

    /** `file` is the "data" file of the snapshot, if it is listed. */
    method OnSnapshotLoad(file: Option<Bytes>) returns (status: int)
      requires leaderTerm <= 0
      modifies `value
      ensures status == 0 <==> file.Some? && ParseInt64(file.value).Some?
      ensures status == 0 ==> Some(value) == ParseInt64(file.value)
      ensures status != 0 ==> value == old(value)
    {
      if file.None? {
        return -1;
      }
      match ParseInt64(file.value)
      case None => return -1;
      case Some(v) =>
        value := v;
        return 0;
    }

    method OnLeaderStart(term: int)
      modifies `leaderTerm
      ensures leaderTerm == term
    {
      leaderTerm := term;
    }

    method OnLeaderStop()
      modifies `leaderTerm
      ensures leaderTerm == NO_TERM
    {
      leaderTerm := NO_TERM;
    }
  }
}
