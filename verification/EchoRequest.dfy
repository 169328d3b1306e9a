/** The generated EchoRequest object: a lazily allocated string that shares one static empty
    string while unset, a has-bit word, unknown fields and a cached size. */
module EchoRequests {
  import opened Basics
  import opened Wire
  import opened Messages
  import Varint
  import opened Writers

  /** std::string. */
  class Str {
    var text: Bytes

    constructor ()
      ensures text == []
    {
      text := [];
    }
  }

  /** `new`, `delete` and the static kEmptyString. `created` are all the strings ever allocated,
      `live` those not yet deleted; nothing can be deleted twice. */
  class StringHeap {
    const empty: Str
    ghost var created: set<Str>
    ghost var live: set<Str>
    ghost var deleted: set<Str>

    constructor ()
      ensures created == live == {} && deleted == {} && fresh(empty) && empty.text == []
    {
      empty := new Str();
      created, live, deleted := {}, {}, {};
    }

    /** Every string ever allocated is live or was deleted, and not both. */
    ghost predicate Valid()
      reads this, empty
    {
      && empty.text == [] && empty !in live
      && created == live + deleted && live !! deleted
    }

    method New() returns (s: Str)
      modifies this
      ensures fresh(s) && s.text == []
      ensures live == old(live) + {s} && deleted == old(deleted) && created == old(created) + {s}
    {
      s := new Str();
      created, live := created + {s}, live + {s};
    }

    method Delete(s: Str)
      requires s in live
      modifies this
      ensures live == old(live) - {s} && deleted == old(deleted) + {s} && created == old(created)
    {
      live, deleted := live - {s}, deleted + {s};
    }
  }

  /** CodedInputStream over what is left of a byte string. */
  class InputStream {
    var rest: Bytes
    var lastTag: uint32
    var atEnd: bool  // the last tag read was a place where the message may end

    constructor (s: Bytes)
      ensures rest == s
    {
      rest, lastTag, atEnd := s, 0, false;
    }

    ghost predicate StoppedAt(t: TagRead)
      reads this
    {
      rest == t.rest && lastTag == t.tag && atEnd == t.atEnd
    }

    method NextTag() returns (tag: uint32)
      modifies this
      ensures StoppedAt(ReadTag(old(rest))) && tag == lastTag
    {
      var t := ReadTag(rest);
      rest, lastTag, atEnd := t.rest, t.tag, t.atEnd;
      tag := t.tag;
    }

    /** May say no even at the end of the input: only a buffer boundary is looked at. */
    method ExpectAtEnd() returns (yes: bool)
      modifies this
      ensures yes ==> old(rest) == [] && StoppedAt(TagRead(0, [], true))
      ensures !yes ==> StoppedAt(TagRead(old(lastTag), old(rest), old(atEnd)))
    {
      var atBufferEnd: bool := *;
      yes := atBufferEnd && rest == [];
      if yes {
        lastTag, atEnd := 0, true;
      }
    }

    method ReadString(into: Str) returns (ok: bool)
      modifies this, into
      ensures ok == ReadBytes(old(rest)).Got?
      ensures ok ==> Got(into.text, rest) == ReadBytes(old(rest))
    {
      match ReadBytes(rest)
      case Fail => ok := false;
      case Got(s, r) => into.text, rest, ok := s, r, true;
    }

    method SkipField(tag: uint32) returns (r: Option<Field>)
      modifies this
      ensures r.Some? == ReadField(tag, old(rest)).Got?
      ensures r.Some? ==> Got(r.value, rest) == ReadField(tag, old(rest))
    {
      match ReadField(tag, rest)
      case Fail => r := None;
      case Got(f, left) => r, rest := Some(f), left;
    }
  }

  predicate Stops(t: TagRead) {
    t.tag == 0 || t.tag % 8 == END_GROUP
  }

  lemma ScanStopped(seen: seq<Field>, s: Bytes)
    requires Stops(ReadTag(s))
    ensures Prepend(seen, ScanFields(s)) == Scan(seen, ReadTag(s))
  {
    assert seen + [] == seen;
  }

  lemma TookField(m: Message, seen: seq<Field>, s: Bytes)
    requires !Stops(ReadTag(s))
    requires ReadField(ReadTag(s).tag, ReadTag(s).rest).Got?
    ensures var f := ReadField(ReadTag(s).tag, ReadTag(s).rest);
            && Prepend(seen, ScanFields(s)) == Prepend(seen + [f.value], ScanFields(f.rest))
            && Absorb(LENGTH_DELIMITED, m, seen + [f.value])
            == Take(LENGTH_DELIMITED, Absorb(LENGTH_DELIMITED, m, seen), f.value)
  {
    var f := ReadField(ReadTag(s).tag, ReadTag(s).rest);
    PrependTwice(seen, [f.value], ScanFields(f.rest));
    AbsorbTwice(LENGTH_DELIMITED, m, seen, [f.value]);
  }

  class EchoRequest {
    const heap: StringHeap
    var message: Str
    var hasBits: bv32
    var unknown: seq<Field>
    var cachedSize: int

    /** The has-bit implies an owned string; no has-bit implies an empty one. */
    ghost predicate Valid()
      reads this, heap, heap.empty, message
    {
      && heap.Valid()
      && (hasBits == 0 || hasBits == 1)
      && (message != heap.empty ==> message in heap.live)
      && (hasBits == 1 ==> message != heap.empty)
      && (hasBits == 0 ==> message.text == [])
    }

    /** The string this object has to delete, if any. */
    ghost function Owned(): set<Str>
      reads this
    {
      if message == heap.empty then {} else {message}
    }

    /** What the object means. */
    ghost function Value(): Message
      reads this, message
    {
      Message(if hasBits & 1 != 0 then Some(BytesField(1, message.text)) else None, unknown)
    }

    constructor (heap: StringHeap)
      requires heap.Valid()
      ensures Valid() && Value() == EMPTY && Owned() == {} && this.heap == heap
    {
      this.heap := heap;
      cachedSize := 0;
      message := heap.empty;
      hasBits := 0;
      unknown := [];
    }

    constructor CopyOf(from: EchoRequest)
      requires from.Valid()
      modifies from.heap
      ensures Valid() && heap == from.heap && Value() == old(from.Value())
      ensures fresh(Owned()) && heap.deleted == old(from.heap.deleted)
      ensures heap.live == old(from.heap.live) + Owned()
    {
      heap := from.heap;
      cachedSize := 0;
      message := from.heap.empty;
      hasBits := 0;
      unknown := [];
      new;
      MergeFrom(from);
      assert [] + from.unknown == from.unknown;
    }

    method Destroy()
      requires Valid()
      modifies heap
      ensures heap.live == old(heap.live) - Owned() && heap.deleted == old(heap.deleted) + Owned()
      ensures heap.Valid()
    {
      if message != heap.empty {
        heap.Delete(message);
      }
    }

    method HasMessage() returns (yes: bool)
      ensures yes == Value().known.Some?
    {
      yes := hasBits & 1 != 0;
    }

    method ClearMessage()
      requires Valid()
      modifies this, Owned()
      ensures Valid() && Value() == old(Value()).(known := None) && message == old(message)
    {
      if message != heap.empty {
        message.text := [];
      }
      hasBits := hasBits & !1;
    }

    method MutableMessage() returns (p: Str)
      requires Valid()
      modifies this, heap
      ensures Valid() && p == message && Owned() == {p}
      ensures Value() == old(Value()).(known := Some(BytesField(1, old(message.text))))
      ensures old(Owned()) <= Owned() && fresh(Owned() - old(Owned()))
      ensures heap.live == old(heap.live) + Owned() && heap.deleted == old(heap.deleted)
    {
      hasBits := hasBits | 1;
      if message == heap.empty {
        message := heap.New();
      }
      p := message;
    }

    method SetMessage(value: Bytes)
      requires Valid()
      modifies this, heap, Owned()
      ensures Valid() && Owned() != {}
      ensures Value() == old(Value()).(known := Some(BytesField(1, value)))
      ensures old(Owned()) <= Owned() && fresh(Owned() - old(Owned()))
      ensures heap.live == old(heap.live) + Owned() && heap.deleted == old(heap.deleted)
    {
      hasBits := hasBits | 1;
      if message == heap.empty {
        message := heap.New();
      }
      message.text := value;
    }

    /** Hands the string, with its bytes, to the caller. */
    method ReleaseMessage() returns (p: Str?)
      requires Valid()
      modifies this
      ensures Valid() && Value() == old(Value()).(known := None) && Owned() == {}
      ensures p == if old(Owned()) == {} then null else old(message)
    {
      hasBits := hasBits & !1;
      if message == heap.empty {
        return null;
      }
      p := message;
      message := heap.empty;
    }

    /** Takes `p` over from the caller. The object stays valid exactly if `p` is not the string it
        owns already, which is deleted and kept. */
    method SetAllocatedMessage(p: Str?)
      requires Valid()
      requires p != null ==> p in heap.live
      modifies this, heap
      ensures Valid() <==> p == null || p != old(message)
      ensures Owned() == if p == null then {} else {p}
      ensures Value() == old(Value()).(known := if p == null then None else Some(BytesField(1, p.text)))
      ensures heap.live == old(heap.live) - old(Owned()) && heap.deleted == old(heap.deleted) + old(Owned())
    {
      if message != heap.empty {
        heap.Delete(message);
      }
      if p != null {
        hasBits := hasBits | 1;
        message := p;
      } else {
        hasBits := hasBits & !1;
        message := heap.empty;
      }
    }

    method Clear()
      requires Valid()
      modifies this, Owned()
      ensures Valid() && Value() == EMPTY && message == old(message)
    {
      if hasBits & 0xff != 0 {
        var has := HasMessage();
        if has {
          if message != heap.empty {
            message.text := [];
          }
        }
      }
      hasBits := 0;
      unknown := [];
    }

    method MergeFrom(from: EchoRequest)
      requires Valid() && from.Valid() && from != this && from.heap == heap
      requires Owned() !! from.Owned()
      modifies this, heap, Owned()
      ensures Valid() && Value() == Merge(old(Value()), old(from.Value()))
      ensures old(Owned()) <= Owned() && fresh(Owned() - old(Owned()))
      ensures heap.live == old(heap.live) + Owned() && heap.deleted == old(heap.deleted)
    {
      if from.hasBits & 0xff != 0 {
        var has := from.HasMessage();
        if has {
          SetMessage(from.message.text);
        }
      }
      unknown := unknown + from.unknown;
    }

    method CopyFrom(from: EchoRequest)
      requires Valid() && from.Valid() && from.heap == heap
      requires from == this || Owned() !! from.Owned()
      modifies this, heap, Owned()
      ensures Valid() && Value() == old(from.Value())
      ensures old(Owned()) <= Owned() && fresh(Owned() - old(Owned()))
      ensures heap.live == old(heap.live) + Owned() && heap.deleted == old(heap.deleted)
    {
      if from == this {
        return;
      }
      Clear();
      MergeFrom(from);
      assert [] + from.unknown == from.unknown;
    }

    method Swap(other: EchoRequest)
      requires Valid() && other.Valid() && other.heap == heap
      modifies this, other
      ensures Valid() && other.Valid()
      ensures Value() == old(other.Value()) && other.Value() == old(Value())
      ensures message == old(other.message) && other.message == old(message)
      ensures cachedSize == old(other.cachedSize) && other.cachedSize == old(cachedSize)
    {
      if other != this {
        message, other.message := other.message, message;
        hasBits, other.hasBits := other.hasBits, hasBits;
        unknown, other.unknown := other.unknown, unknown;
        cachedSize, other.cachedSize := other.cachedSize, cachedSize;
      }
    }

    method IsInitialized() returns (yes: bool)
      requires Valid()
      ensures yes == Value().known.Some?
    {
      yes := hasBits & 1 == 1;
    }

    /** ReadString into mutable_message(). */
    method ReadMessage(input: InputStream) returns (ok: bool)
      requires Valid()
      modifies this, heap, Owned(), input
      ensures Valid()
      ensures ok == ReadBytes(old(input.rest)).Got?
      ensures ok ==> && Value() == old(Value()).(known := Some(BytesField(1, ReadBytes(old(input.rest)).value)))
                     && input.rest == ReadBytes(old(input.rest)).rest
      ensures old(Owned()) <= Owned() && fresh(Owned() - old(Owned()))
      ensures heap.live == old(heap.live) + Owned() && heap.deleted == old(heap.deleted)
    {
      var p := MutableMessage();
      ok := input.ReadString(p);
    }

    /** SkipField into mutable_unknown_fields(). */
    method SkipUnknown(input: InputStream, tag: uint32) returns (ok: bool)
      requires Valid()
      modifies `unknown, input
      ensures ok == ReadField(tag, old(input.rest)).Got?
      ensures ok ==> && unknown == old(unknown) + [ReadField(tag, old(input.rest)).value]
                     && input.rest == ReadField(tag, old(input.rest)).rest
    {
      var f := input.SkipField(tag);
      ok := f.Some?;
      if ok {
        unknown := unknown + [f.value];
      }
    }

    /** One turn of the parse loop: `done` when the loop is left. Noticing the end of the input
        here, through ExpectAtEnd, or through the next tag leaves the stream in the same state. */
    method Turn(input: InputStream) returns (ok: bool, done: bool)
      requires Valid()
      modifies this, heap, Owned(), input
      ensures Valid()
      ensures old(Owned()) <= Owned() && fresh(Owned() - old(Owned()))
      ensures heap.live == old(heap.live) + Owned() && heap.deleted == old(heap.deleted)
      ensures var t := ReadTag(old(input.rest));
              if Stops(t) then
                ok && done && input.StoppedAt(t) && Value() == old(Value())
              else
                var f := ReadField(t.tag, t.rest);
                && ok == f.Got?
                && (ok ==> Value() == Take(LENGTH_DELIMITED, old(Value()), f.value) && input.rest == f.rest)
                && (ok && done ==> f.rest == [] && input.StoppedAt(ReadTag([])))
    {
      done := true;
      var tag := input.NextTag();
      if tag == 0 {
        return true, true;
      }
      if tag / 8 == 1 && tag % 8 == LENGTH_DELIMITED {
        ok := ReadMessage(input);
        if ok {
          done := input.ExpectAtEnd();
        }
      } else {
        if tag % 8 == END_GROUP {
          return true, true;
        }
        ok := SkipUnknown(input, tag);
        done := !ok;
      }
    }

    /** The parse loop. It succeeds exactly when the fields can all be scanned, and then it has
        absorbed them and left the stream where the scan stopped. */
    method MergePartialFromCodedStream(input: InputStream) returns (ok: bool)
      requires Valid()
      modifies this, heap, Owned(), input
      ensures Valid()
      ensures ok == ScanFields(old(input.rest)).Scan?
      ensures ok ==> Value() == Absorb(LENGTH_DELIMITED, old(Value()), ScanFields(old(input.rest)).fields)
      ensures ok ==> input.StoppedAt(ScanFields(old(input.rest)).stop)
      ensures old(Owned()) <= Owned() && fresh(Owned() - old(Owned()))
      ensures heap.live == old(heap.live) + Owned() && heap.deleted == old(heap.deleted)
    {
      ghost var m := Value();
      ghost var seen: seq<Field> := [];
      var done := false;
      ok := true;
      while ok && !done
        invariant Valid()
        invariant ok && !done ==> ScanFields(old(input.rest)) == Prepend(seen, ScanFields(input.rest))
        invariant ok && done ==> exists t :: input.StoppedAt(t) && ScanFields(old(input.rest)) == Scan(seen, t)
        invariant !ok ==> ScanFields(old(input.rest)).Bad?
        invariant ok ==> Value() == Absorb(LENGTH_DELIMITED, m, seen)
        invariant old(Owned()) <= Owned() && fresh(Owned() - old(Owned()))
        invariant heap.live == old(heap.live) + Owned() && heap.deleted == old(heap.deleted)
        decreases ok && !done, |input.rest|
      {
        ghost var here := input.rest;
        ok, done := Turn(input);
        if Stops(ReadTag(here)) {
          ScanStopped(seen, here);
        } else if ok {
          ghost var f := ReadField(ReadTag(here).tag, ReadTag(here).rest).value;
          TookField(m, seen, here);
          seen := seen + [f];
          if done {
            ScanStopped(seen, []);
          }
        }
      }
    }

    /** ParsePartialFromArray: Clear, merge, and insist that the input was consumed. */
    method ParsePartial(s: Bytes) returns (ok: bool)
      requires Valid()
      modifies this, heap, Owned()
      ensures Valid()
      ensures ok == Parse(LENGTH_DELIMITED, s).Some?
      ensures ok ==> Some(Value()) == Parse(LENGTH_DELIMITED, s)
      ensures heap.live == old(heap.live) + Owned() && heap.deleted == old(heap.deleted)
      ensures old(Owned()) <= Owned() && fresh(Owned() - old(Owned()))
    {
      Clear();
      var input := new InputStream(s);
      ok := MergePartialFromCodedStream(input);
      ok := ok && input.atEnd;
    }

    method SerializeWithCachedSizes(output: OutputStream)
      requires Valid()
      modifies output
      ensures output.out == old(output.out) + Encode(Value())
    {
      var has := HasMessage();
      if has {
        output.WriteString(1, message.text);
      }
      if unknown != [] {
        output.WriteUnknown(unknown);
      }
    }

    method SerializeWithCachedSizesToArray(buf: array<byte>, target: nat) returns (end: nat)
      requires Valid()
      requires target + |Encode(Value())| <= buf.Length
      modifies buf
      ensures end == target + |Encode(Value())|
      ensures buf[..] == Spliced(old(buf[..]), target, Encode(Value()))
    {
      end := target;
      ghost var was, first, rest := buf[..], EncodeField(BytesField(1, message.text)), EncodeFields(unknown);
      var has := HasMessage();
      if has {
        assert Encode(Value()) == first + rest;
        end := WriteStringToArray(1, message.text, buf, end);
        SpliceTwice(was, target, first, rest);
      } else {
        assert Encode(Value()) == rest;
        assert Spliced(was, target, []) == was;
      }
      if unknown != [] {
        end := WriteFieldsToArray(unknown, buf, end);
      } else {
        assert first + rest == first;
      }
    }

    /** The size, by arithmetic on lengths, is the number of bytes either writer emits. */
    method ByteSize() returns (size: int)
      requires Valid() && Writable(LENGTH_DELIMITED, Value())
      requires |Encode(Value())| < TWO_31
      modifies `cachedSize
      ensures size == cachedSize == |Encode(Value())|
    {
      var total := 0;
      if hasBits & 0xff != 0 {
        var has := HasMessage();
        if has {
          total := total + 1 + Varint.Size(|message.text|) + |message.text|;
          FieldSizeIsLength(BytesField(1, message.text));
        }
      }
      SizeIsEncodedLength(unknown);
      if unknown != [] {
        total := total + SizeOf(unknown);
      }
      cachedSize := total;
      size := total;
    }
  }
}
