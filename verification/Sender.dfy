/** The client's sender loop: pick the leader from the route table, call it, and let each kind of
    failure steer the table. */
module Sender {
  import opened Basics
  import opened CounterSpec

  /** What came back for an RPC. */
  datatype Reply = RpcFailed | Replied(success: bool, redirect: Option<Peer>)

  /** What the world answers during one turn of the loop. The route table belongs to braft, which
      is not part of this model; `nowhereClears` is what it makes of an empty redirect. */
  datatype Turn = Turn(
    refreshed: Option<Peer>,  // refresh_leader's finding, if it succeeds
    channelOpens: bool,
    isAdd: bool,              // fetch_add rather than get
    reply: Reply,
    nowhereClears: bool)

  function NextLeader(table: Option<Peer>, turn: Turn): Option<Peer> {
    if table.None? then turn.refreshed
    else if !turn.channelOpens then table
    else match turn.reply
      case RpcFailed => None
      case Replied(true, _) => table
      case Replied(false, Some(peer)) => Some(peer)
      case Replied(false, None) => if turn.nowhereClears then None else table
  }

  predicate Sends(table: Option<Peer>, turn: Turn) {
    table.Some? && turn.channelOpens
  }

  predicate Succeeds(table: Option<Peer>, turn: Turn) {
    Sends(table, turn) && turn.reply.Replied? && turn.reply.success
  }

  /** The table after the first `k` turns. */
  function LeaderAfter(table: Option<Peer>, turns: seq<Turn>, k: nat): Option<Peer>
    requires k <= |turns|
  {
    if k == 0 then table else NextLeader(LeaderAfter(table, turns, k - 1), turns[k - 1])
  }

  /** The turns among the first `k` that sent a fetch_add, and those whose fetch_add succeeded. */
  function AddsSent(table: Option<Peer>, turns: seq<Turn>, k: nat): set<nat>
    requires k <= |turns|
  {
    set i: nat | i < k && turns[i].isAdd && Sends(LeaderAfter(table, turns, i), turns[i])
  }

  function AddsAcked(table: Option<Peer>, turns: seq<Turn>, k: nat): set<nat>
    requires k <= |turns|
  {
    set i: nat | i < k && turns[i].isAdd && Succeeds(LeaderAfter(table, turns, i), turns[i])
  }

  class RouteTable {
    var leader: Option<Peer>

    constructor ()
      ensures leader == None
    {
      leader := None;
    }

    /** One turn of the loop body: a refresh if the leader is unknown, nothing if no channel opens,
        and otherwise a call. A failed call clears the table, a redirect moves it, a success leaves it
        alone. */
    method Iterate(turn: Turn) returns (sent: bool, success: bool)
      modifies this
      ensures leader == NextLeader(old(leader), turn)
      ensures sent == Sends(old(leader), turn) && success == Succeeds(old(leader), turn)
      ensures sent <==> old(leader).Some? && turn.channelOpens
      ensures old(leader).None? ==> leader == turn.refreshed
      ensures old(leader).Some? && !sent ==> leader == old(leader)
      ensures sent ==>
                match turn.reply
                case RpcFailed => leader == None && !success
                case Replied(true, _) => leader == old(leader) && success
                case Replied(false, Some(peer)) => leader == Some(peer) && !success
                case Replied(false, None) => leader in {old(leader), None} && !success
      ensures !sent ==> !success
    {
      sent, success := false, false;
      if leader.None? {
        leader := turn.refreshed;
        return;
      }
      if !turn.channelOpens {
        return;
      }
      sent := true;
      if turn.reply.RpcFailed? {
        leader := None;
        return;
      }
      if !turn.reply.success {
        if turn.reply.redirect.Some? {
          leader := turn.reply.redirect;
        } else if turn.nowhereClears {
          leader := None;
        }
        return;
      }
      success := true;
    }

    /** The loop, until the process is asked to quit after `turns`. Every add acknowledged was sent
        in the very turn that acknowledges it. */
    method Run(turns: seq<Turn>) returns (attempted: nat, acked: nat)
      modifies this
      ensures leader == LeaderAfter(old(leader), turns, |turns|)
      ensures attempted == |AddsSent(old(leader), turns, |turns|)|
      ensures acked == |AddsAcked(old(leader), turns, |turns|)| <= attempted
    {
      ghost var start := leader;
      attempted, acked := 0, 0;
      for k := 0 to |turns|
        invariant leader == LeaderAfter(start, turns, k)
        invariant attempted == |AddsSent(start, turns, k)|
        invariant acked == |AddsAcked(start, turns, k)| <= attempted
      {
        CountNext(start, turns, k);
        var sent, success := Iterate(turns[k]);
        if turns[k].isAdd && sent {
          attempted := attempted + 1;
          if success {
            acked := acked + 1;
          }
        }
      }
    }
  }

  lemma CountNext(table: Option<Peer>, turns: seq<Turn>, k: nat)
    requires k < |turns|
    ensures |AddsSent(table, turns, k + 1)| == |AddsSent(table, turns, k)|
              + if turns[k].isAdd && Sends(LeaderAfter(table, turns, k), turns[k]) then 1 else 0
    ensures |AddsAcked(table, turns, k + 1)| == |AddsAcked(table, turns, k)|
              + if turns[k].isAdd && Succeeds(LeaderAfter(table, turns, k), turns[k]) then 1 else 0
  {
    SentNext(table, turns, k);
    AckedNext(table, turns, k);
    hide *;
  }

  lemma SentNext(table: Option<Peer>, turns: seq<Turn>, k: nat)
    requires k < |turns|
    ensures k !in AddsSent(table, turns, k)
    ensures AddsSent(table, turns, k + 1) == AddsSent(table, turns, k)
              + if turns[k].isAdd && Sends(LeaderAfter(table, turns, k), turns[k]) then {k} else {}
  {
    hide Sends, LeaderAfter;
  }

  lemma AckedNext(table: Option<Peer>, turns: seq<Turn>, k: nat)
    requires k < |turns|
    ensures k !in AddsAcked(table, turns, k)
    ensures AddsAcked(table, turns, k + 1) == AddsAcked(table, turns, k)
              + if turns[k].isAdd && Succeeds(LeaderAfter(table, turns, k), turns[k]) then {k} else {}
  {
    hide Succeeds, LeaderAfter;
  }

  // ---- Convergence on a stable leader ----

  /** A group whose leader no longer changes, all of whose live servers know it and answer; a refresh
      may find any of them. */
  datatype Group = Group(leader: Peer, found: Peer, live: set<Peer>, channels: set<Peer>)

  predicate Stable(g: Group) {
    g.leader in g.live && g.found in g.live && g.live <= g.channels
  }

  /** What such a group answers to a client with this table. */
  function Answer(g: Group, table: Option<Peer>, isAdd: bool): Turn {
    var reply := if table.None? || table.value !in g.live then RpcFailed
                 else if table.value == g.leader then Replied(true, None)
                 else Replied(false, Some(g.leader));
    Turn(Some(g.found), table.Some? && table.value in g.channels, isAdd, reply, false)
  }

  /** How many of the next `k` turns succeed; `adds` tells which requests are adds. */
  function Successes(g: Group, table: Option<Peer>, k: nat, adds: nat -> bool): nat
    decreases k
  {
    if k == 0 then 0
    else
      var turn := Answer(g, table, adds(k));
      (if Succeeds(table, turn) then 1 else 0) + Successes(g, NextLeader(table, turn), k - 1, adds)
  }

  /** Turns that fail first: none with a table that is right, one with a live follower, two at most
      with an empty table, three at most with a dead server. */
  function Wasted(g: Group, table: Option<Peer>): nat {
    if table == Some(g.leader) then 0
    else if table.Some? && table.value in g.live then 1
    else
      (if table.None? then 1 else 2) + if g.found == g.leader then 0 else 1
  }

  predicate CanLeave(g: Group, table: Option<Peer>) {
    table.None? || table.value in g.channels
  }

  /** Every turn that does not succeed wastes exactly one of the turns to be wasted. */
  lemma FailureIsProgress(g: Group, table: Option<Peer>, isAdd: bool)
    requires Stable(g) && CanLeave(g, table)
    ensures var turn := Answer(g, table, isAdd);
            var next := NextLeader(table, turn);
            if table == Some(g.leader) then Succeeds(table, turn) && next == table
            else !Succeeds(table, turn) && CanLeave(g, next) && Wasted(g, next) == Wasted(g, table) - 1
  {
  }

  lemma {:induction false} SuccessesFrom(g: Group, table: Option<Peer>, k: nat, adds: nat -> bool)
    requires Stable(g) && CanLeave(g, table)
    ensures Successes(g, table, k, adds) == if k <= Wasted(g, table) then 0 else k - Wasted(g, table)
    decreases k
  {
    if k > 0 {
      FailureIsProgress(g, table, adds(k));
      SuccessesFrom(g, NextLeader(table, Answer(g, table, adds(k))), k - 1, adds);
    }
  }

  lemma {:induction false} NeverLeaves(g: Group, table: Option<Peer>, k: nat, adds: nat -> bool)
    requires !CanLeave(g, table)
    ensures Successes(g, table, k, adds) == 0
    decreases k
  {
    if k > 0 {
      NeverLeaves(g, table, k - 1, adds);
    }
  }

  /** With a stable leader all but the first few turns succeed, three at most and two if a refresh
      finds the leader itself, unless the table names a server no channel can be opened to: that
      branch never clears the table, and then no turn ever succeeds. */
  lemma Convergence(g: Group, table: Option<Peer>, k: nat, adds: nat -> bool)
    requires Stable(g) && k >= 4
    ensures Successes(g, table, k, adds) > 0 <==> CanLeave(g, table)
    ensures CanLeave(g, table) ==> Successes(g, table, k, adds) >= k - 3
    ensures CanLeave(g, table) && g.found == g.leader ==> Successes(g, table, k, adds) >= k - 2
    ensures table == Some(g.leader) ==> Successes(g, table, k, adds) == k
  {
    if CanLeave(g, table) {
      SuccessesFrom(g, table, k, adds);
    } else {
      NeverLeaves(g, table, k, adds);
    }
  }

  /** Once a turn has succeeded, every later one does. */
  lemma SuccessStays(g: Group, table: Option<Peer>, isAdd: bool, k: nat, adds: nat -> bool)
    requires Stable(g) && Succeeds(table, Answer(g, table, isAdd))
    ensures Successes(g, NextLeader(table, Answer(g, table, isAdd)), k, adds) == k
  {
    FailureIsProgress(g, table, isAdd);
    SuccessesFrom(g, table, k, adds);
  }
}
