/** Many EchoRequests over one heap of strings, used in any order by a caller that keeps no
    string pointer it has not been handed: no string is shared, and each string allocated is
    deleted exactly once or in the caller's hands. */
module StringOwners {
  import opened Basics
  import opened Wire
  import opened Messages
  import opened EchoRequests

  datatype Op =
    | New
    | CopyConstruct(i: nat)
    | Destroy(i: nat)
    | Set(i: nat, text: Bytes)
    | WriteThroughMutable(i: nat, text: Bytes)
    | Release(i: nat)
    | SetAllocated(i: nat, p: Str?)
    | ClearMessage(i: nat)
    | Clear(i: nat)
    | MergeFrom(i: nat, j: nat)
    | CopyFrom(i: nat, j: nat)
    | Swap(i: nat, j: nat)
    | ParseInto(i: nat, s: Bytes)
    | NewString(text: Bytes)
    | DeleteString(p: Str?)

  class Caller {
    const heap: StringHeap
    var messages: seq<EchoRequest>
    var held: set<Str>  // strings handed to the caller and not yet deleted or handed back

    ghost function Repr(): set<object>
      reads this, heap
    {
      {this, heap} + (set m | m in messages) + heap.live
    }

    ghost predicate Valid()
      reads this, heap, heap.empty, messages, set m | m in messages :: m.message
    {
      && (forall m | m in messages :: m.heap == heap && m.Valid())
      && (forall i, j | 0 <= i < j < |messages| :: messages[i] != messages[j])
      && (forall m, n | m in messages && n in messages && m != n :: m.Owned() !! n.Owned())
      && (forall m | m in messages :: m.Owned() !! held)
      && held <= heap.live
      && (forall s | s in heap.live :: s in held || exists m :: m in messages && s in m.Owned())
      && heap.Valid()
    }

    constructor ()
      ensures Valid() && fresh(Repr()) && messages == [] && held == {}
      ensures heap.created == {}
    {
      heap := new StringHeap();
      messages, held := [], {};
    }

    /** What was deleted stays deleted, and nothing that was allocated is forgotten. */
    twostate predicate Accounted()
      reads heap
    {
      old(heap.deleted) <= heap.deleted && old(heap.created) <= heap.created
    }

    /** The messages are the same objects, and all but those at `i` and `j` mean what they meant. */
    twostate predicate OthersKept(i: nat, j: nat)
      reads this, messages, set m | m in messages :: m.message
    {
      && messages == old(messages)
      && forall k | 0 <= k < |messages| && k != i && k != j :: messages[k].Value() == old(messages[k].Value())
    }

    /** Every message but the one at `i` is untouched, and so is its string. */
    twostate predicate OnlyTouched(i: nat)
      reads this, heap.empty, messages, set m | m in messages :: m.message
    {
      && messages == old(messages)
      && heap.empty.text == []
      && forall k | 0 <= k < |messages| && k != i :: unchanged(messages[k]) && unchanged(messages[k].message)
    }

    /** The strings of the message at `i` and of the caller have been redistributed among them;
        new ones may have come in, and what neither holds now was deleted. */
    twostate predicate Redistributed(i: nat)
      requires i < |messages| && i < |old(messages)|
      reads this, heap, messages
    {
      var mine := old(messages[i].Owned()) + old(held);
      && messages[i].Owned() !! held
      && (forall s | s in messages[i].Owned() + held :: s in mine || fresh(s))
      && heap.live == (old(heap.live) - mine) + messages[i].Owned() + held
      && heap.deleted == old(heap.deleted) + (mine - messages[i].Owned() - held)
    }

    twostate lemma OneMessageChanged(i: nat)
      requires old(Valid()) && i < |messages| && OnlyTouched(i)
      requires messages[i].Valid() && Redistributed(i)
      ensures Valid() && fresh(Repr() - old(Repr())) && Accounted() && OthersKept(i, i)
    {
      forall m | m in messages
        ensures m.Valid() && m.heap == heap && m.Owned() !! held
        ensures m != messages[i] ==> m.Owned() == old(m.Owned()) && m.Owned() !! messages[i].Owned()
      {
        var k :| 0 <= k < |messages| && messages[k] == m;
        if k != i {
          assert m.Owned() == old(m.Owned()) && m.Owned() !! old(messages[i].Owned()) && m.Owned() !! old(held);
        }
      }
    }

    lemma Separate(i: nat)
      requires Valid() && i < |messages|
      ensures messages[i].Valid() && messages[i].heap == heap && messages[i].Owned() !! held
      ensures forall k | 0 <= k < |messages| && k != i ::
                messages[k] != messages[i] && messages[k].Valid() && messages[k].Owned() !! messages[i].Owned()
    {
      assert messages[i] in messages;
      forall k | 0 <= k < |messages| && k != i
        ensures messages[k] != messages[i] && messages[k].Valid() && messages[k].Owned() !! messages[i].Owned()
      {
        assert messages[k] in messages && messages[if i < k then i else k] != messages[if i < k then k else i];
      }
    }

    method Set(i: nat, text: Bytes)
      requires Valid() && i < |messages|
      modifies Repr()
      ensures Valid() && fresh(Repr() - old(Repr())) && Accounted() && OthersKept(i, i)
      ensures messages[i].Value() == old(messages[i].Value()).(known := Some(BytesField(1, text)))
    {
      Separate(i);
      messages[i].SetMessage(text);
      OneMessageChanged(i);
    }

    method WriteThroughMutable(i: nat, text: Bytes)
      requires Valid() && i < |messages|
      modifies Repr()
      ensures Valid() && fresh(Repr() - old(Repr())) && Accounted() && OthersKept(i, i)
      ensures messages[i].Value() == old(messages[i].Value()).(known := Some(BytesField(1, text)))
    {
      Separate(i);
      var p := messages[i].MutableMessage();
      p.text := text;
      OneMessageChanged(i);
    }

    method Release(i: nat)
      requires Valid() && i < |messages|
      modifies Repr()
      ensures Valid() && fresh(Repr() - old(Repr())) && Accounted() && OthersKept(i, i)
      ensures messages[i].Value() == old(messages[i].Value()).(known := None)
      ensures held == old(held) + old(messages[i].Owned())
    {
      Separate(i);
      var p := messages[i].ReleaseMessage();
      if p != null {
        held := held + {p};
      }
      OneMessageChanged(i);
    }

    method SetAllocated(i: nat, p: Str?)
      requires Valid() && i < |messages| && (p != null ==> p in held)
      modifies Repr()
      ensures Valid() && fresh(Repr() - old(Repr())) && Accounted() && OthersKept(i, i)
      ensures messages[i].Value() == old(messages[i].Value()).(
                known := if p == null then None else Some(BytesField(1, old(p.text))))
      ensures held == old(held) - {p} && heap.deleted == old(heap.deleted) + old(messages[i].Owned())
    {
      Separate(i);
      assert p != null ==> p !in messages[i].Owned() && p != heap.empty;
      messages[i].SetAllocatedMessage(p);
      held := held - {p};
      OneMessageChanged(i);
    }

    method ClearMessage(i: nat)
      requires Valid() && i < |messages|
      modifies Repr()
      ensures Valid() && fresh(Repr() - old(Repr())) && Accounted() && OthersKept(i, i)
      ensures messages[i].Value() == old(messages[i].Value()).(known := None)
    {
      Separate(i);
      messages[i].ClearMessage();
      OneMessageChanged(i);
    }

    method Clear(i: nat)
      requires Valid() && i < |messages|
      modifies Repr()
      ensures Valid() && fresh(Repr() - old(Repr())) && Accounted() && OthersKept(i, i)
      ensures messages[i].Value() == EMPTY
    {
      Separate(i);
      messages[i].Clear();
      OneMessageChanged(i);
    }

    method MergeFrom(i: nat, j: nat)
      requires Valid() && i < |messages| && j < |messages| && i != j
      modifies Repr()
      ensures Valid() && fresh(Repr() - old(Repr())) && Accounted() && OthersKept(i, i)
      ensures messages[i].Value() == Merge(old(messages[i].Value()), messages[j].Value())
    {
      Separate(i);
      messages[i].MergeFrom(messages[j]);
      OneMessageChanged(i);
    }

    method CopyFrom(i: nat, j: nat)
      requires Valid() && i < |messages| && j < |messages|
      modifies Repr()
      ensures Valid() && fresh(Repr() - old(Repr())) && Accounted() && OthersKept(i, i)
      ensures messages[i].Value() == old(messages[j].Value())
    {
      Separate(i);
      messages[i].CopyFrom(messages[j]);
      OneMessageChanged(i);
    }

    method ParseInto(i: nat, s: Bytes) returns (ok: bool)
      requires Valid() && i < |messages|
      modifies Repr()
      ensures Valid() && fresh(Repr() - old(Repr())) && Accounted() && OthersKept(i, i)
      ensures ok == Parse(LENGTH_DELIMITED, s).Some?
      ensures ok ==> Some(messages[i].Value()) == Parse(LENGTH_DELIMITED, s)
    {
      Separate(i);
      ok := messages[i].ParsePartial(s);
      OneMessageChanged(i);
    }

    method Swap(i: nat, j: nat)
      requires Valid() && i < |messages| && j < |messages|
      modifies Repr()
      ensures Valid() && fresh(Repr() - old(Repr())) && Accounted() && OthersKept(i, j)
      ensures messages[i].Value() == old(messages[j].Value()) && messages[j].Value() == old(messages[i].Value())
    {
      hide EchoRequest.Value;
      Separate(i);
      Separate(j);
      var a, b := messages[i], messages[j];
      a.Swap(b);
      assert a in messages && b in messages;
    }

    method NewMessage()
      requires Valid()
      modifies Repr()
      ensures Valid() && fresh(Repr() - old(Repr())) && Accounted()
      ensures |messages| == |old(messages)| + 1 && messages[..|old(messages)|] == old(messages)
      ensures forall k | 0 <= k < |old(messages)| :: messages[k].Value() == old(messages[k].Value())
      ensures messages[|old(messages)|].Value() == EMPTY
    {
      hide EchoRequest.Value;
      var m := new EchoRequest(heap);
      messages := messages + [m];
      assert forall n | n in old(messages) :: n in messages && n.Owned() == old(n.Owned());
    }

    method CopyConstruct(i: nat)
      requires Valid() && i < |messages|
      modifies Repr()
      ensures Valid() && fresh(Repr() - old(Repr())) && Accounted()
      ensures |messages| == |old(messages)| + 1 && messages[..|old(messages)|] == old(messages)
      ensures forall k | 0 <= k < |old(messages)| :: messages[k].Value() == old(messages[k].Value())
      ensures messages[|old(messages)|].Value() == old(messages[i].Value())
    {
      NewMessage();
      CopyFrom(|messages| - 1, i);
    }

    method Destroy(i: nat)
      requires Valid() && i < |messages|
      modifies Repr()
      ensures Valid() && fresh(Repr() - old(Repr())) && Accounted()
      ensures messages == old(messages)[..i] + old(messages)[i + 1..] && held == old(held)
      ensures forall m | m in messages :: m.Value() == old(m.Value())
      ensures heap.deleted == old(heap.deleted) + old(messages[i].Owned())
    {
      hide EchoRequest.Value;
      Separate(i);
      var gone := messages[i];
      gone.Destroy();
      messages := messages[..i] + messages[i + 1..];
      forall m | m in messages
        ensures m in old(messages) && m != gone && m.Owned() !! gone.Owned() && m.Valid()
      {
      }
      forall s | s in heap.live && s !in held
        ensures exists m :: m in messages && s in m.Owned()
      {
        var m :| m in old(messages) && s in m.Owned();
        assert m in messages;
      }
    }

    method NewString(text: Bytes)
      requires Valid()
      modifies Repr()
      ensures Valid() && fresh(Repr() - old(Repr())) && Accounted()
      ensures messages == old(messages) && forall m | m in messages :: m.Value() == old(m.Value())
    {
      hide EchoRequest.Value;
      var s := heap.New();
      s.text := text;
      held := held + {s};
      assert forall m | m in messages :: m.Owned() == old(m.Owned()) && s !in m.Owned();
    }

    method DeleteString(p: Str)
      requires Valid() && p in held
      modifies Repr()
      ensures Valid() && fresh(Repr() - old(Repr())) && Accounted()
      ensures messages == old(messages) && forall m | m in messages :: m.Value() == old(m.Value())
      ensures held == old(held) - {p} && heap.deleted == old(heap.deleted) + {p}
    {
      heap.Delete(p);
      held := held - {p};
    }

    method Do(op: Op)
      requires Valid()
      modifies Repr()
      ensures Valid() && fresh(Repr() - old(Repr())) && Accounted()
    {
      var n := |messages|;
      match op
      case New => NewMessage();
      case CopyConstruct(i) => if i < n { CopyConstruct(i); }
      case Destroy(i) => if i < n { Destroy(i); }
      case Set(i, text) => if i < n { Set(i, text); }
      case WriteThroughMutable(i, text) => if i < n { WriteThroughMutable(i, text); }
      case Release(i) => if i < n { Release(i); }
      case SetAllocated(i, p) => if i < n && (p == null || p in held) { SetAllocated(i, p); }
      case ClearMessage(i) => if i < n { ClearMessage(i); }
      case Clear(i) => if i < n { Clear(i); }
      case MergeFrom(i, j) => if i < n && j < n && i != j { MergeFrom(i, j); }
      case CopyFrom(i, j) => if i < n && j < n { CopyFrom(i, j); }
      case Swap(i, j) => if i < n && j < n { Swap(i, j); }
      case ParseInto(i, s) => if i < n { var ok := ParseInto(i, s); }
      case NewString(text) => NewString(text);
      case DeleteString(p) => if p != null && p in held { DeleteString(p); }
    }

    /** After any operations and the destruction of every message, each string ever allocated, before
        or during them, was either deleted, once, or is held by the caller: none leaks, none is
        deleted twice. */
    method Run(ops: seq<Op>)
      requires Valid()
      modifies Repr()
      ensures Valid() && messages == [] && Accounted()
      ensures heap.created == held + heap.deleted && held !! heap.deleted
    {
      for k := 0 to |ops|
        invariant Valid() && fresh(Repr() - old(Repr())) && Accounted()
      {
        Do(ops[k]);
      }
      while messages != []
        invariant Valid() && fresh(Repr() - old(Repr())) && Accounted()
        decreases |messages|
      {
        Destroy(|messages| - 1);
      }
    }
  }
}
