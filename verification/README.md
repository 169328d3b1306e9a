# A verified model of the replicated counter and its messages

This Dafny project models the parts of the repository that carry state or arithmetic, and proves
what they are for:

- the counter replicated over braft (`server.cpp`) and the client that drives it (`client.cpp`),
  as objects and as a cluster that takes one step at a time;
- the generated `EchoRequest` message (`echo.pb.cc`, `echo.pb.h`): parser, two writers, size,
  merge, copy, swap and the string it shares with a static default, over the Protocol Buffers
  wire format written out from the varint up;
- the sender threads of the multi-thread echo test, with the mutex they share;
- the array merge sort of the compaction notes.

`dafny verify dfyconfig.toml` checks everything.

## How it is laid out

| file | what it holds |
|---|---|
| `Basics.dfy` | optional values, bytes, two's complement `int64_t` |
| `Varint.dfy`, `Wire.dfy` | base-128 varints, fixed-width integers, tags, strings, nested groups, unknown field sets |
| `Messages.dfy` | what a message with one required field 1 means: encode, parse, merge |
| `Grammar.dfy` | which bytes spell which fields, said without reading them, and that the parser accepts exactly those |
| `Writers.dfy` | the stream writer and the array writer, each walking unknown fields and groups |
| `EchoRequest.dfy` | the generated object, its accessors and its parser, as classes |
| `StringOwners.dfy` | many such objects over one heap of strings |
| `CounterSpec.dfy` | what the counter's handlers compute, as functions of what they read |
| `CounterServer.dfy` | `Counter`, `FetchAddClosure` and the RPC objects, as classes |
| `Cluster.dfy` | the group: servers, logs, calls, and the guard and effect of every step |
| `ClusterInvariant.dfy` | what every reachable state satisfies, step by step |
| `ClusterTheorems.dfy` | agreement, linearizability, completion, redirects, snapshots, conservation |
| `ClusterRuns.dfy`, `ClusterLimits.dfy` | runs on which a stronger promise fails, and exactly when it does |
| `ClusterProgress.dfy` | what each step does, said outright, and what can still be reached: no dead ends |
| `ClusterReads.dfy` | gets: what they contain, and exactly when they miss nothing |
| `Linearizability.dfy` | adds and gets in one order, and exactly when it respects real time |
| `Sender.dfy` | the client loop, its route table, and its convergence |
| `Clients.dfy` | any number of such loops against the cluster, with retries and late deliveries |
| `ClientLimits.dfy` | exactly when retries can add more than was attempted |
| `SharedTally.dfy` | threads interleaving around `threads_number++` |
| `MergeSort.dfy` | the in-place merge sort and its comparison count |

The handlers appear twice, for two purposes. `CounterServer` has the objects, whose methods are
proved to do what the functions of `CounterSpec` say, last write and last closure included.
`Cluster` uses those same functions as the steps of a group in which anything may happen between
two steps: tasks are accepted, failed, committed or dropped; entries are applied one at a time;
closures run later; snapshots are captured, written in the background, and loaded; leaders are
elected, start, step down and stop, each notification on its own; processes crash and restart.
braft is not part of this model. What it promises is stated as the guard of each step, and only
there (`Cluster.Guard`):

- one agreed, append-only log of non-decreasing terms, applied in order, in which a term's
  configuration entry comes before its tasks;
- a closure comes only with a task of the same process;
- a task whose `expected_term` is not the term being led is never accepted;
- at most one winner of a term, which at that moment leads no other;
- `on_leader_start` comes once for a term won, after the term's configuration entry is applied and
  after the previous leadership's `on_leader_stop`; it may come late, when the server has lost that
  term or won another;
- `leader_id()` returns nothing or a server that has won some term;
- a snapshot carries the index applied when it was captured, and is loaded only where no term is
  led, on_leader_stop has been delivered (so the CHECK at line 268 of `server.cpp` holds by this
  promise) and no more than that index is applied.

The remaining guards say only that what a step uses exists.

## Where the code and its comments or documents part

- `get` says it is safe to answer because the node leads. It is as long as no later term has
  committed anything (`ClusterReads.LeaderReadIsCurrent`); but a deposed leader that has not been told
  still answers, with a value that can miss an acknowledged add
  and go back behind what an earlier get has returned (`ClusterRuns.DeposedLeaderReadsStale`). Gets
  never do either, in all runs, exactly in groups of at most one server
  (`ClusterReads.GetsAreCurrentAlone`, `ClusterReads.GetsGrowAlone`); and that is exactly when adds
  and gets together are linearizable (`Linearizability.LinearizableAlone`).
- A sender's channel may retry a request, and one that timed out may still arrive, so one turn can
  be received, and added, more than once, and after the sender has moved on. The upper bound of
  `Clients.SendersConserve` counts requests sent; `ClientLimits.RetriesDecide` says exactly when
  counting turns would do. An attempt, in `Cluster`, is one request transmitted.
- While `start()` has not stored `_node`, a handler that already sees a leader term dereferences a
  null pointer (`CounterServer.Counter.FetchAdd`).
- `set_allocated_message`, given the string the message owns already, deletes it and keeps it
  (`EchoRequests.EchoRequest.SetAllocatedMessage`).
- A refused `fetch_add` may still take effect (`ClusterRuns.FailedAddCanCommit`); it does exactly
  if its task is in the log or survives in a tail no later term has overtaken
  (`ClusterLimits.RefusedAddCommits`), and never if it was refused on the spot.
- When `channel.Init` fails, the client neither clears nor refreshes its route table, so it tries
  the same address for ever (`Sender.Convergence`).
- The round trip of a message depends on its top-level unknown fields only: field 1 inside an
  unknown group is harmless, since skipping a group never looks for it.
- The multi-thread test expects as many increments as calls; failed calls are counted elsewhere,
  so it holds exactly when no call fails.

## Model

| member | source | states |
|---|---|---|
| ClusterTheorems.FetchAddIsAtomic | Source Codes/BRAFT/example_counter/server.cpp:183-222 | in every reachable state a successful fetch_add took effect at exactly one log index, added what its caller asked for, and returned the wrapped sum of all entries before that index |
| ClusterTheorems.RealTimeOrder | Source Codes/BRAFT/example_counter/server.cpp:102-136 | a call that completed before another was received has the smaller log index |
| ClusterTheorems.ReplicaAgreement | Source Codes/BRAFT/example_counter/server.cpp:183-222 | every server's value is the wrapped sum of the prefix it has applied, by whatever mix of own applies, parsed entries, snapshot loads and restarts; equal prefixes, equal values |
| ClusterTheorems.FoldIsWrappedSum | Source Codes/BRAFT/example_counter/server.cpp:208-209 | wrapping at every addition or once at the end gives the same 64-bit value |
| Basics.WrapMeans | Source Codes/BRAFT/example_counter/server.cpp:208-209 | what 64 bits keep of a number differs from it by a multiple of 2^64 |
| ClusterTheorems.ApplyNeverAborts | Source Codes/BRAFT/example_counter/server.cpp:200-203 | no committed entry ever fails the CHECK on parsing: an apply step always applies |
| ClusterTheorems.ExactlyOnceCompletion | Source Codes/BRAFT/example_counter/server.cpp:105-135 | each call's `done` has been run at most once and is otherwise owned by exactly one closure at the server that took the call, or died with its process; the closure is allocated at most once, deleted exactly when `done` has run, and the response is not written afterwards |
| ClusterTheorems.TruthfulCompletion | Source Codes/BRAFT/example_counter/server.cpp:316-326 | a completed call is a success with a value whose entry is committed, without redirect, or a failure without a value |
| ClusterTheorems.RedirectsNameWinners | Source Codes/BRAFT/example_counter/server.cpp:172-180 | a redirect names a server of the group that has won some term, given that leader_id() returns nothing else |
| ClusterTheorems.AnswersAreFinal | Source Codes/BRAFT/example_counter/server.cpp:316-326 | over any continuation of a run, nothing about a completed call ever changes |
| ClusterProgress.ReceiveOutcome | Source Codes/BRAFT/example_counter/server.cpp:102-136 | a fetch_add received by a server that does not lead is answered at once with failure and the leader it knows; by a leader whose request does not serialize, with failure alone; else it is unanswered and waits with the bytes of its request and the term read, or -1 without check_term; no other server changes |
| ClusterProgress.RunClosureOutcome | Source Codes/BRAFT/example_counter/server.cpp:316-326 | in every reachable state, running a closure answers its call once and deletes the closure: with the success and value it carries, or with failure, no value and the leader known |
| ClusterProgress.WaitingAddCanSucceed | Source Codes/BRAFT/example_counter/server.cpp:112-135 | an add that waits to be accepted can be answered with success in some continuation if and only if its server leads the very term that was read and no later term has committed, with check_term on; and always, with it off |
| ClusterProgress.NoDeadEnd | Source Codes/BRAFT/example_counter/server.cpp:102-222 | from every reachable state every server can come to lead, take a new call for any amount, and answer it with success, with an entry of that amount in the log |
| ClusterProgress.ApplyOutcome | Source Codes/BRAFT/example_counter/server.cpp:183-222 | applying an entry advances one server by one entry, fires the closure that waits for that entry there, and leaves all others alone |
| ClusterProgress.CrashOutcome | Source Codes/BRAFT/example_counter/server.cpp:65-69 | a process that dies restarts with value 0 and leader term -1 and keeps only its published snapshot; exactly the calls whose closures it held are lost |
| ClusterTheorems.SnapshotIsolation | Source Codes/BRAFT/example_counter/server.cpp:224-282 | a published snapshot parses to the fold at its index whatever was applied meanwhile, and loading it and replaying the suffix equals replaying the whole log |
| ClusterTheorems.SaveWritesTheCapture | Source Codes/BRAFT/example_counter/server.cpp:254-264 | however long a run goes on between capture and save, what is written is the value and the index at capture |
| ClusterProgress.CaptureOutcome | Source Codes/BRAFT/example_counter/server.cpp:254-264 | a snapshot is captured with the wrapped sum and the index of that moment, and nothing else changes |
| ClusterProgress.SaveOutcome | Source Codes/BRAFT/example_counter/server.cpp:230-252 | a save that succeeds publishes a file that parses to what was captured; one that fails publishes nothing |
| ClusterProgress.LoadOutcome | Source Codes/BRAFT/example_counter/server.cpp:266-282 | after a load that succeeds the value is the wrapped sum up to the snapshot's index; one that fails changes nothing |
| ClusterProgress.NoticeOutcome | Source Codes/BRAFT/example_counter/server.cpp:284-291 | on_leader_start takes over the term it carries, on_leader_stop ends any leadership |
| ClusterTheorems.AbaFreedom | Source Codes/BRAFT/example_counter/server.cpp:112-135 | with check_term on, every entry, committed or in a tail, is of exactly the term its handler read |
| ClusterLimits.TermCheckDecides | Source Codes/BRAFT/example_counter/server.cpp:130-133 | for any group, all entries of all runs are of the term read if and only if check_term is on |
| ClusterRuns.UncheckedTermsCanDiffer | Source Codes/BRAFT/example_counter/server.cpp:130-133 | a run without check_term in which a task read in term 1 is committed in term 2, after that term's configuration entry |
| ClusterReads.LeaderReads | Source Codes/BRAFT/example_counter/server.cpp:138-153 | the tests `> 0` and `< 0` on the leader term agree; a get that tests the term in one state and loads the value in any later one, whatever the process lived through in between, returns the wrapped sum of a prefix with every entry of an earlier term than the one tested, present and future, and every add acknowledged by this leadership or from its term |
| ClusterReads.GetOutcome | Source Codes/BRAFT/example_counter/server.cpp:138-153 | a get, tested and loaded in any two states of one process, succeeds exactly if the leader term tested is positive: the server has then won that term and applied its configuration entry, and the value loaded is the answer; otherwise that term is -1 and the get is refused with the leader known |
| ClusterReads.ReadsOfOneLeadershipGrow | Source Codes/BRAFT/example_counter/server.cpp:138-153 | of two such gets tested during one leadership, one after the other, the second reads the same prefix or a longer one |
| ClusterReads.LeaderReadIsCurrent | Source Codes/BRAFT/example_counter/server.cpp:138-150 | if no later term has committed anything when the term is tested, the get contains every add acknowledged by then |
| ClusterReads.GetsAreCurrentAlone | Source Codes/BRAFT/example_counter/server.cpp:138-150 | all gets of all runs contain every add acknowledged before they began if and only if the group has at most one server |
| ClusterReads.GetsGrowAlone | Source Codes/BRAFT/example_counter/server.cpp:138-150 | of any two gets of any run, whoever answers them and in whatever leaderships, the later contains every add the earlier did if and only if the group has at most one server |
| ClusterReads.AddsAfterGetsAreLater | Source Codes/BRAFT/example_counter/server.cpp:138-150 | an add received after a get has loaded its value is not in what that get returned |
| Linearizability.AnswersAreExplained | Source Codes/BRAFT/example_counter/server.cpp:138-222 | in groups of any size, each acknowledged add and each answered get has exactly one place in the log, and its answer is the wrapped sum of all entries before that place |
| Linearizability.LinearizableAlone | Source Codes/BRAFT/example_counter/server.cpp:102-222 | these places respect real time in all runs, between any adds and gets, if and only if the group has at most one server |
| Linearizability.OrderedBeforeAdds | Source Codes/BRAFT/example_counter/server.cpp:102-222 | in groups of any size, an add stands after every add and get that ended before it was received |
| ClusterReads.MissedAddIsLater | Source Codes/BRAFT/example_counter/server.cpp:138-150 | an acknowledged add missing from a leader's get is of a later term than the one tested |
| ClusterRuns.DeposedLeaderReadsStale | Source Codes/BRAFT/example_counter/server.cpp:148-149 | in any group of two or more, a run in which an add of 5 was acknowledged, one server answers a get with 5 and another still answers with 0 |
| ClusterLimits.RefusedAddCommits | Source Codes/BRAFT/example_counter/server.cpp:316-326 | a refused add can take effect in some continuation if and only if it already has, or its task is in a tail no later term has overtaken |
| ClusterLimits.RefusedAtOnceNeverCommits | Source Codes/BRAFT/example_counter/server.cpp:112-122 | a call refused before a closure was made never takes effect |
| ClusterRuns.FailedAddCanCommit | Source Codes/BRAFT/example_counter/server.cpp:316-326 | a run in which a call answered with failure is in the log |
| ClusterTheorems.Conservation | Source Codes/BRAFT/example_counter/server.cpp:183-222 | with non-negative amounts of any size and a log whose sum does not wrap, what acknowledged calls asked for <= committed value <= what received calls asked for, under any losses, failures and leader changes |
| ClusterTheorems.ConservationOfEqualAdds | Source Codes/BRAFT/example_counter/client.cpp:70-75 | with equal amounts: added_by times acknowledged adds <= committed value <= added_by times requests transmitted |
| ClusterTheorems.ValueIsAmounts | Source Codes/BRAFT/example_counter/server.cpp:183-222 | the committed value is the wrapped total of what the committed calls asked for, each counted once, for any amounts |
| Clients.SendersConserve | Source Codes/BRAFT/example_counter/client.cpp:36-99 | for any senders in their loops against the cluster, each with its own non-negative added_by, from any tables, with requests delivered at any later time or never, unless the counter wraps: total of added_by times successes seen <= committed value <= total of added_by times requests sent <= (retries + 1) times the total of added_by times adds attempted; without retries, that total itself |
| ClientLimits.RetriesDecide | Source Codes/BRAFT/example_counter/client.cpp:54-75 | for senders that all add d, the committed value stays within d times adds attempted in all runs in which the counter does not wrap if and only if nothing is retried, or d is 0, or 2 * d does not fit an int64 |
| Clients.ActionKeepsInv | Source Codes/BRAFT/example_counter/client.cpp:36-99 | every action of senders, network and cluster keeps the tallies, the ownership of pending calls and the cluster's invariant |
| Clients.TalliesAreCounts | Source Codes/BRAFT/example_counter/client.cpp:54-92 | over any run each sender has counted exactly the fetch_adds it began, the requests it sent and the successful replies it got |
| ClusterTheorems.SumIsAmounts | Source Codes/BRAFT/example_counter/server.cpp:208-209 | each prefix of the log sums to what its calls asked for, each counted once |
| ClusterInvariant.StepKeepsInv | Source Codes/BRAFT/example_counter/server.cpp:100-326 | every step of every server and client keeps the invariant from which the theorems follow |
| ClusterInvariant.RunKeepsInv | Source Codes/BRAFT/example_counter/server.cpp:100-326 | and so does every run |
| ClusterInvariant.InitInv | Source Codes/BRAFT/example_counter/server.cpp:65-69 | a fresh group, with values 0 and leader terms -1, satisfies it |
| ClusterInvariant.ReceiveStep | Source Codes/BRAFT/example_counter/server.cpp:102-136 | receiving a fetch_add keeps the invariant, whether it is refused or submitted |
| ClusterInvariant.ApplyStep | Source Codes/BRAFT/example_counter/server.cpp:183-222 | applying one entry keeps it, with or without a closure |
| ClusterInvariant.RunClosureStep | Source Codes/BRAFT/example_counter/server.cpp:316-326 | running a closure keeps it, with or without an error status |
| ClusterInvariant.LoadStep | Source Codes/BRAFT/example_counter/server.cpp:266-282 | loading a snapshot, or failing to, keeps it |
| ClusterInvariant.CommittedBytesParse | Source Codes/BRAFT/example_counter/server.cpp:199-204 | the bytes of a committed task parse to the amount its caller asked for |
| CounterSpec.PathsAgree | Source Codes/BRAFT/example_counter/server.cpp:191-204 | the same batch has the same outcome whichever of its entries come with closures: proposer path equals follower path |
| CounterSpec.NoneIsFinal | Source Codes/BRAFT/example_counter/server.cpp:202 | after an entry fails to parse no later entry of the batch is applied |
| ClusterTheorems.BatchIsFold | Source Codes/BRAFT/example_counter/server.cpp:183-222 | one on_apply over any stretch of the log, closures or not, takes the counter from the fold of the prefix before it to the fold of the prefix after it |
| CounterServer.Counter.FetchAdd | Source Codes/BRAFT/example_counter/server.cpp:102-136 | a server that does not lead sends failure and the leader it knows, at once; a leader whose request does not serialize sends failure without redirect; otherwise one task with the bytes of the request, the term read if check_term is on and -1 if not, and a fresh closure owning `done`, is submitted and nothing sent; or, with no node yet, the process dies with neither |
| CounterServer.Counter.Get | Source Codes/BRAFT/example_counter/server.cpp:138-150 | a leader answers success with the value and no redirect; any other server answers failure, no value, and the leader it knows |
| CounterServer.Counter.Redirect | Source Codes/BRAFT/example_counter/server.cpp:172-180 | failure, and a redirect exactly to a known leader |
| CounterServer.Counter.ApplyEntry | Source Codes/BRAFT/example_counter/server.cpp:184-215 | one turn of the loop: the value grows by the amount of the closure's request, or of the parsed bytes where there is no closure, and the call is answered success with the value before; the process dies exactly if bytes that are needed do not parse |
| CounterServer.Counter.OnApply | Source Codes/BRAFT/example_counter/server.cpp:183-222 | the batch is folded in order; the i-th call is answered success with the fold of the entries before it; the closures to run are those of all entries that carry one, each once, in the order of their places; the process survives exactly if all bytes needed parse |
| CounterServer.Counter.SaveSnapshot | Source Codes/BRAFT/example_counter/server.cpp:230-252 | `done` runs once, with an error unless both writes succeed; the file, if written, encodes the captured value |
| CounterServer.Counter.OnSnapshotLoad | Source Codes/BRAFT/example_counter/server.cpp:266-282 | status 0 exactly if the file is there and parses, and then its value is stored; otherwise the value is unchanged |
| CounterServer.FetchAddClosure.Run | Source Codes/BRAFT/example_counter/server.cpp:316-326 | the response is redirected on error only, then sent exactly once, and the closure is deleted |
| Sender.Convergence | Source Codes/BRAFT/example_counter/client.cpp:36-91 | in a group with a stable leader, of any k turns, k at least 4: some succeed if and only if the table is empty or names a server a channel can be opened to, and then all but three do, all but two if a refresh finds the leader, and all of them from the leader |
| Sender.FailureIsProgress | Source Codes/BRAFT/example_counter/client.cpp:39-91 | a turn that does not succeed uses up exactly one of the turns the table still has to waste; one from the leader succeeds and leaves the table alone |
| Sender.SuccessesFrom | Source Codes/BRAFT/example_counter/client.cpp:36-99 | of any k turns in such a group, exactly k minus the turns to be wasted succeed, none if that is negative |
| Sender.SuccessStays | Source Codes/BRAFT/example_counter/client.cpp:92-99 | once a turn has succeeded every later one does |
| Sender.NeverLeaves | Source Codes/BRAFT/example_counter/client.cpp:55-59 | from a table naming an address no channel opens to, no number of turns succeeds |
| Sender.RouteTable.Iterate | Source Codes/BRAFT/example_counter/client.cpp:36-99 | one turn, case by case: an empty table takes what the refresh finds, a failed channel and a success change nothing, a failed RPC empties the table, a redirect to a peer is followed |
| Sender.RouteTable.Run | Source Codes/BRAFT/example_counter/client.cpp:36-99 | over any turns, acknowledged adds are those sent and answered with success, at most the attempts |
| Messages.RoundTrip | Our Codes/project1/echo.pb.cc:196-249 | parse(serialize(m)) = m if and only if no top-level unknown field would be taken for field 1 |
| Messages.ConcatenationIsMerge | Our Codes/project1/echo.pb.cc:305-313 | parsing two serialized messages end to end gives MergeFrom, if and only if both are unambiguous |
| Messages.ParseConcatenation | Our Codes/project1/echo.pb.cc:196-232 | for any accepted bytes x and any y, x followed by y parses exactly if y does, and to the merge |
| Messages.ReparseIsStable | Our Codes/project1/echo.pb.cc:196-249 | parse, serialize and parse again equals parse, on every accepted input |
| Messages.ParsedIsUnambiguous | Our Codes/project1/echo.pb.cc:196-232 | the parser only produces messages that can be written and survive the round trip |
| Messages.MergeKeepsUnambiguous | Our Codes/project1/echo.pb.cc:305-313 | merging keeps that |
| Messages.AmbiguousMessageIsChanged | Our Codes/project1/echo.pb.cc:196-249 | a message holding an unknown field 1 string reads back as a message with that string set |
| Messages.LastOneWins | Our Codes/project1/echo.pb.cc:202-216 | of several occurrences of field 1 the last is kept |
| Messages.AbsorbIsMerge | Our Codes/project1/echo.pb.cc:196-232 | running the parse loop on a message already holding data is merging into it |
| Messages.LogCarriesRequest | Source Codes/BRAFT/example_counter/server.cpp:116-121 | a received request, negative values and unknown fields included, is parsed out of its own serialization with the same value |
| Messages.Int64RoundTrip | Source Codes/BRAFT/example_counter/server.cpp:238-246 | any int64 survives a Snapshot or FetchAddRequest, in at most eleven bytes |
| Grammar.Int64OnTheWire | Source Codes/BRAFT/example_counter/server.cpp:199-204 | the byte 8 and a varint, short or long, parse to the int64 congruent to the sum of its digits modulo 2^64 |
| Messages.Int64Written | Source Codes/BRAFT/example_counter/server.cpp:116-121 | an int64 is written as the byte 8 and the varint of the number modulo 2^64 |
| Messages.Int64Means | Source Codes/BRAFT/example_counter/server.cpp:197 | the value of the field is congruent to the varint modulo 2^64, whatever the unknown fields |
| Messages.OneFieldMeans | Our Codes/project1/echo.pb.cc:199-224 | the field with number 1 and the wire type asked for is the known one, every other is kept as unknown; without it an int64 message is refused |
| Messages.KnownComesFirst | Our Codes/project1/echo.pb.cc:234-249 | the known field is written before the unknown ones, these in their order |
| Grammar.ScansExactly | Our Codes/project1/echo.pb.cc:199-229 | bytes are read to their end as given fields if and only if they spell these fields in the wire format's grammar: tags and lengths in varints of at most ten bytes, read modulo 2^32, no zero tag, groups closed by the end tag of their own number |
| Grammar.ParsesExactly | Our Codes/project1/echo.pb.cc:196-232 | a message is accepted if and only if its bytes spell some fields, and it is what these come to |
| Grammar.SpelledOnce | Our Codes/project1/echo.pb.cc:199-229 | no bytes spell two different sequences of fields |
| Grammar.StringOnTheWire | Our Codes/project1/echo.pb.cc:202-209 | the byte 10, the varint of a length, short or long, and so many bytes parse to that string |
| Wire.ScanEncodedFields | Our Codes/project1/echo.pb.cc:245-248 | fields written one after another, nested groups included, are read back one after another whatever follows |
| Wire.ReadEncodedField | Our Codes/project1/echo.pb.cc:222-223 | each single field of every wire type is read back |
| Wire.ScanExtend | Our Codes/project1/echo.pb.cc:199-229 | what was read does not depend on what follows, and a scan that ended with its input goes on into appended bytes |
| Wire.ScanIsValid | Our Codes/project1/echo.pb.cc:222-223 | whatever is skipped into the unknown fields can be written back |
| Wire.SizeIsEncodedLength | Our Codes/project1/echo.pb.cc:281-285 | the computed size of unknown fields, nested ones included, is the number of bytes written |
| Wire.FieldSizeIsLength | Our Codes/project1/echo.pb.cc:273-279 | and so for each single field |
| Wire.FieldMeans | Our Codes/project1/echo.pb.cc:245-248 | a field is written as the varint of 8 times its number plus its wire type, then a varint, eight bytes, a length and bytes, the fields of a group and its end tag, or four bytes, and these have the value of the field |
| Wire.EncodeInOrder | Our Codes/project1/echo.pb.cc:245-248 | fields are written in their order |
| Varint.RoundTrip | Our Codes/project1/echo.pb.cc:222-223 | every 64-bit value is recovered from its varint, whatever follows |
| Varint.RoundTrip32 | Our Codes/project1/echo.pb.cc:199 | and every 32-bit tag or length |
| Varint.DecodeMeans | Our Codes/project1/echo.pb.cc:199 | reading succeeds exactly on bytes whose first byte below 128 is among the first ten, stops behind it, and gives the sum of the low seven bits of byte i times 128^i, modulo 2^64 or 2^32 |
| Varint.EncodeMeans | Our Codes/project1/echo.pb.cc:245-248 | a number is written as such bytes |
| Varint.SizeIsLength | Our Codes/project1/echo.pb.cc:276-278 | the size by comparison is the length of the encoding |
| Varint.FixedRoundTrip | Our Codes/project1/echo.pb.cc:222-223 | little-endian fixed-width integers are recovered |
| Varint.DecodeFixedMeans | Our Codes/project1/echo.pb.cc:222-223 | a fixed-width integer is read exactly where there are bytes enough, and is the sum of byte i times 256^i |
| EchoRequests.EchoRequest.MergePartialFromCodedStream | Our Codes/project1/echo.pb.cc:196-232 | the loop terminates on all bytes, fails exactly on bytes that cannot be scanned, absorbs exactly the fields scanned, and leaves the stream where the scan stopped |
| EchoRequests.EchoRequest.Turn | Our Codes/project1/echo.pb.cc:199-229 | one turn; leaving through ExpectAtEnd has the same outcome as reading one more tag |
| EchoRequests.EchoRequest.ParsePartial | Our Codes/project1/echo.pb.cc:196-232 | clear and parse agrees with Parse, on acceptance and on the result |
| Writers.OutputStream.WriteUnknown | Our Codes/project1/echo.pb.cc:245-248 | the stream writer, field by field and group by group, appends exactly the encoding of the unknown fields |
| Writers.WriteFieldsToArray | Our Codes/project1/echo.pb.cc:263-266 | the array writer, by its own walk over fields and groups, stores the same bytes at the target and touches nothing else |
| Writers.WriteStringToArray | Our Codes/project1/echo.pb.cc:258-260 | and so for a tagged string |
| EchoRequests.EchoRequest.SerializeWithCachedSizes | Our Codes/project1/echo.pb.cc:234-249 | appends exactly the encoding of the message |
| EchoRequests.EchoRequest.SerializeWithCachedSizesToArray | Our Codes/project1/echo.pb.cc:251-268 | writes the same bytes at the target, returns their end and touches nothing else |
| EchoRequests.EchoRequest.ByteSize | Our Codes/project1/echo.pb.cc:270-291 | size and cached size are the number of bytes either writer emits |
| EchoRequests.EchoRequest.constructor | Our Codes/project1/echo.pb.cc:131-149 | an empty message sharing the static string |
| EchoRequests.EchoRequest.CopyOf | Our Codes/project1/echo.pb.cc:139-143 | the same value in a string of its own |
| EchoRequests.EchoRequest.Destroy | Our Codes/project1/echo.pb.cc:151-161 | deletes exactly the owned string |
| EchoRequests.EchoRequest.Clear | Our Codes/project1/echo.pb.cc:184-194 | the empty message, keeping its string |
| EchoRequests.EchoRequest.MergeFrom | Our Codes/project1/echo.pb.cc:305-313 | the value is Merge of the two; no string is shared or deleted |
| EchoRequests.EchoRequest.CopyFrom | Our Codes/project1/echo.pb.cc:321-325 | the value is the other's, self-copy included |
| EchoRequests.EchoRequest.Swap | Our Codes/project1/echo.pb.cc:333-340 | values, strings and cached sizes change places, self-swap included |
| EchoRequests.EchoRequest.IsInitialized | Our Codes/project1/echo.pb.cc:327-331 | true exactly when the message is set |
| EchoRequests.EchoRequest.HasMessage | Our Codes/project1/echo.pb.h:281-283 | the has-bit |
| EchoRequests.EchoRequest.ClearMessage | Our Codes/project1/echo.pb.h:290-295 | unset and empty, keeping its string |
| EchoRequests.EchoRequest.SetMessage | Our Codes/project1/echo.pb.h:299-319 | set to the given bytes in an owned string, allocated if there was none |
| EchoRequests.EchoRequest.MutableMessage | Our Codes/project1/echo.pb.h:320-326 | set, keeping its bytes, and the pointer is to the owned string |
| EchoRequests.EchoRequest.ReleaseMessage | Our Codes/project1/echo.pb.h:327-336 | the owned string, if any, is the caller's now and the message is unset |
| EchoRequests.EchoRequest.SetAllocatedMessage | Our Codes/project1/echo.pb.h:337-348 | the old string is deleted, the new one owned, null unsets; the object stays valid if and only if the new string is not the one it already owned |
| StringOwners.Caller.Run | Our Codes/project1/echo.pb.h:281-348 | after any sequence of operations on any number of messages and their destruction, the strings ever allocated, during the run included, are exactly those deleted, once, and those the caller holds |
| StringOwners.Caller.Do | Our Codes/project1/echo.pb.h:281-348 | every operation keeps: set implies an owned, unshared string; unset implies empty; nothing leaks or is deleted twice |
| StringOwners.Caller.Swap | Our Codes/project1/echo.pb.cc:333-340 | among many messages, the two change values and no other does |
| StringOwners.Caller.MergeFrom | Our Codes/project1/echo.pb.cc:305-313 | among many messages, only the target changes, to Merge of the two |
| StringOwners.Caller.SetAllocated | Our Codes/project1/echo.pb.h:337-348 | a string the caller holds passes to one message, whose old string is deleted; other messages are untouched |
| StringOwners.Caller.Release | Our Codes/project1/echo.pb.h:327-336 | the string passes to the caller; other messages are untouched |
| StringOwners.Caller.Destroy | Our Codes/project1/echo.pb.cc:151-161 | exactly the strings of that message are deleted and all other values stay |
| SharedTally.NoLostUpdates | Our Codes/BRPC/multi_threaded_echo_c++/client_test.cpp:44-76 | in every interleaving, once all threads are joined, increments plus errors equal threads times loops; the test's expectation holds exactly if no call failed |
| SharedTally.CountedAsTheyEnded | Our Codes/BRPC/multi_threaded_echo_c++/client_test.cpp:60-72 | in every interleaving the errors are exactly the calls that failed, the increments never exceed those that succeeded, and once all threads have returned they are exactly those |
| SharedTally.MutualExclusion | Our Codes/BRPC/multi_threaded_echo_c++/client_test.cpp:61-63 | in every interleaving no two threads are between lock and unlock |
| SharedTally.MutexDecides | Our Codes/BRPC/multi_threaded_echo_c++/client_test.cpp:61-63 | all schedules keep every update if and only if the mutex is used, or there are fewer than two threads, or no calls to make |
| SharedTally.JoinsReturn | Our Codes/BRPC/multi_threaded_echo_c++/client_test.cpp:166-168 | no schedule makes more than threads times (6 times loops plus 1) moves, and until all threads have returned there is a move to make |
| SharedTally.SomeThreadCanMove | Our Codes/BRPC/multi_threaded_echo_c++/client_test.cpp:166-168 | until all have returned some thread can move |
| SharedTally.MovingApproachesTheEnd | Our Codes/BRPC/multi_threaded_echo_c++/client_test.cpp:166-168 | and every move brings the end nearer, so the joins return |
| MergeSort.SortedIsSorted | Notes/Another/RocksDB/Compaction.md:68-85 | what Sort computes is the ascending permutation of the input |
| MergeSort.SortCostBound | Notes/Another/RocksDB/Compaction.md:68-98 | at most n times ceil(log2 n) element comparisons |
| MergeSort.SortCostAtLeast | Notes/Another/RocksDB/Compaction.md:68-98 | at least n times floor(log2 n), less n - 1, halved |
| MergeSort.CeilLog2IsLeast | Notes/Another/RocksDB/Compaction.md:68-85 | the bound's logarithm is the least exponent whose power of two reaches n |
| MergeSort.FloorLog2IsGreatest | Notes/Another/RocksDB/Compaction.md:68-85 | and the lower bound's logarithm the greatest exponent whose power of two does not exceed n |
| MergeSort.MergedAscends | Notes/Another/RocksDB/Compaction.md:87-98 | merging ascending inputs ascends |
| MergeSort.MergedIsPermutation | Notes/Another/RocksDB/Compaction.md:87-98 | merging loses and invents nothing |
| MergeSort.Sort | Notes/Another/RocksDB/Compaction.md:68-85 | in place: the first n elements become Sorted of what they were, the rest of the array is untouched, and the comparisons made are SortCost |
| MergeSort.Merge | Notes/Another/RocksDB/Compaction.md:87-98 | the target holds Merged of the two inputs, nothing beyond it changes, and the comparisons made are MergeCost |

## Left out

- Raft's elections and replication: braft is not part of this model, beyond the guards above.
- brpc servers, channels, flags, logging, sleeps, latency recording, SSL and the `main` functions: plumbing. An RPC is a call that may reach no server, or whose success may not reach its client.
- `counter.pb.h`, `counter.pb.cc` and the Protocol Buffers library are not part of this model; what they do with an int64 field, a string field and unknown fields follows the Protocol Buffers Encoding specification.
- Cluster.Guard: a received fetch_add request parses and has its required field, since brpc answers others before the handler runs.
- Cluster.DoReceive: reading the leader term and submitting the task are one step; whatever happens in between in the source happens here before the task is accepted.
- CounterServer.Counter.Get: the test and the load are one call here; ClusterReads separates them.
- Cluster: the window in which a process leads before start() has stored its node, in which a fetch_add would kill it.
- ClusterTheorems.Conservation: for non-negative amounts and a log that sums to less than 2^63; with a wrap the bounds mean nothing, and ClusterTheorems.ValueIsAmounts is what remains.
- Clients: senders that crash or quit in the middle of a call; and the one route table that the senders of a process share, here one table each, which Clients.Other may move between turns.
- Sender.Convergence: the group is stable from the first turn on; what the route table makes of an empty redirect is left open, since its code is not part of this model.
- EchoRequests.EchoRequest.ByteSize: for messages shorter than 2^31 bytes, the range of `int`.
- EchoRequests.EchoRequest.ParsePartial: what a failed parse leaves in the message is not stated beyond its ownership invariant.
- EchoRequests.EchoRequest.SetAllocatedMessage: requires a string that is allocated and not deleted; any other pointer is the caller's error.
- StringOwners.Caller.WriteThroughMutable: a pointer from mutable_message is used at once and not kept.
- SharedTally: the unprotected `log_id++`, an unsynchronised update with no promise to keep; overflow of `threads_number`; the process aborting on a failed call under `dont_fail`.
- MergeSort.Sort: n is at most the length of the array; the temporary arrays are garbage collected rather than deleted.
- The recursion limit and the total size limit of the Protocol Buffers parser, and UTF-8 verification, which alters no value.
- Descriptors, reflection, `GetMetadata`, service dispatch, and `EchoResponse`, which repeats EchoRequest line for line.
- Disk failures in snapshots beyond "a failed save publishes nothing, a failed load changes nothing".
- Echo servers, `LeetCode.md`, scripts and the prose of the notes: no state, or only easy members.
