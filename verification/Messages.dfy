/** Generated messages with one required field numbered 1. EchoRequest has a string there;
    FetchAddRequest and Snapshot have an int64. `wire` is the wire type of that field; every
    other field, and a field 1 of another wire type, is unknown. */
module Messages {
  import opened Basics
  import opened Wire
  import Varint

  datatype Message = Message(known: Option<Field>, unknown: seq<Field>)

  const EMPTY: Message := Message(None, [])

  predicate Matches(wire: nat, f: Field) {
    f.num == 1 && WireOf(f) == wire
  }

  /** No unknown field would be taken for the known one if it were read back. Fields inside
      groups do not count: skipping a group never looks for field 1. */
  predicate Unambiguous(wire: nat, fs: seq<Field>) {
    forall i | 0 <= i < |fs| :: !Matches(wire, fs[i])
  }

  ghost predicate Writable(wire: nat, m: Message) {
    && (m.known.Some? ==> Matches(wire, m.known.value) && Valid(m.known.value))
    && AllValid(m.unknown)
  }

  // ---- The operations ----

  function Fields(m: Message): seq<Field> {
    (if m.known.Some? then [m.known.value] else []) + m.unknown
  }

  /** SerializeWithCachedSizes: the known field if its has-bit is set, then the unknown ones. */
  function Encode(m: Message): Bytes {
    (if m.known.Some? then EncodeField(m.known.value) else []) + EncodeFields(m.unknown)
  }

  function Merge(a: Message, b: Message): Message {
    Message(if b.known.Some? then b.known else a.known, a.unknown + b.unknown)
  }

  /** One turn of the parse loop: keep the field or add it to the unknown ones. */
  function Take(wire: nat, m: Message, f: Field): Message {
    if Matches(wire, f) then m.(known := Some(f)) else m.(unknown := m.unknown + [f])
  }

  function Absorb(wire: nat, m: Message, fs: seq<Field>): Message
    decreases |fs|
  {
    if fs == [] then m else Absorb(wire, Take(wire, m, fs[0]), fs[1..])
  }

  /** ParsePartialFrom: the loop must not fail and must stop where the input ends. */
  function Parse(wire: nat, s: Bytes): Option<Message> {
    var r := ScanFields(s);
    if r.Scan? && r.stop.atEnd then Some(Absorb(wire, EMPTY, r.fields)) else None
  }

  // ---- Absorbing fields is merging ----

  lemma {:induction false} AbsorbIsMerge(wire: nat, m: Message, fs: seq<Field>)
    ensures Absorb(wire, m, fs) == Merge(m, Absorb(wire, EMPTY, fs))
    decreases |fs|
  {
    if fs == [] {
      assert m.unknown + [] == m.unknown;
    } else {
      var rest := Absorb(wire, EMPTY, fs[1..]);
      AbsorbIsMerge(wire, Take(wire, m, fs[0]), fs[1..]);
      AbsorbIsMerge(wire, Take(wire, EMPTY, fs[0]), fs[1..]);
      assert m.unknown + [fs[0]] + rest.unknown == m.unknown + ([] + [fs[0]] + rest.unknown);
      assert m.unknown + ([] + rest.unknown) == m.unknown + rest.unknown;
    }
  }

  lemma {:induction false} AbsorbTwice(wire: nat, m: Message, a: seq<Field>, b: seq<Field>)
    ensures Absorb(wire, m, a + b) == Absorb(wire, Absorb(wire, m, a), b)
    decreases |a|
  {
    if a == [] {
      assert a + b == b;
    } else {
      assert (a + b)[0] == a[0] && (a + b)[1..] == a[1..] + b;
      AbsorbTwice(wire, Take(wire, m, a[0]), a[1..], b);
    }
  }

  lemma {:induction false} AbsorbUnambiguous(wire: nat, m: Message, fs: seq<Field>)
    requires Unambiguous(wire, fs)
    ensures Absorb(wire, m, fs) == m.(unknown := m.unknown + fs)
    decreases |fs|
  {
    if fs == [] {
      assert m.unknown + [] == m.unknown;
    } else {
      AbsorbUnambiguous(wire, Take(wire, m, fs[0]), fs[1..]);
      assert m.unknown + [fs[0]] + fs[1..] == m.unknown + fs by { assert fs == [fs[0]] + fs[1..]; }
    }
  }

  /** A matching field is lost from the unknown ones, whatever else happens. */
  lemma {:induction false} AbsorbCounts(wire: nat, fs: seq<Field>)
    ensures |Absorb(wire, EMPTY, fs).unknown| <= |fs|
    ensures |Absorb(wire, EMPTY, fs).unknown| == |fs| ==> Unambiguous(wire, fs)
    decreases |fs|
  {
    if fs != [] {
      AbsorbCounts(wire, fs[1..]);
      AbsorbIsMerge(wire, Take(wire, EMPTY, fs[0]), fs[1..]);
      assert forall i | 0 < i < |fs| :: fs[i] == fs[1..][i - 1];
    }
  }

  /** "Last One Wins": of several field 1s the last is kept. */
  lemma {:induction false} LastOneWins(wire: nat, m: Message, fs: seq<Field>, i: nat)
    requires i < |fs| && Matches(wire, fs[i])
    requires forall j | i < j < |fs| :: !Matches(wire, fs[j])
    ensures Absorb(wire, m, fs).known == Some(fs[i])
  {
    assert fs == fs[..i + 1] + fs[i + 1..] && fs[..i + 1] == fs[..i] + [fs[i]];
    AbsorbTwice(wire, m, fs[..i + 1], fs[i + 1..]);
    AbsorbTwice(wire, m, fs[..i], [fs[i]]);
    AbsorbUnambiguous(wire, Absorb(wire, m, fs[..i + 1]), fs[i + 1..]);
  }

  // ---- Parsing bytes laid end to end is merging ----

  /** For any accepted `x`, appending `y` merges what `y` parses to, and fails just when `y` does. */
  lemma ParseConcatenation(wire: nat, x: Bytes, y: Bytes)
    requires Parse(wire, x).Some?
    ensures Parse(wire, x + y).Some? <==> Parse(wire, y).Some?
    ensures Parse(wire, y).Some? ==>
              Parse(wire, x + y) == Some(Merge(Parse(wire, x).value, Parse(wire, y).value))
  {
    ScanExtend(x, y);
    var a, b := ScanFields(x), ScanFields(y);
    if b.Scan? {
      AbsorbTwice(wire, EMPTY, a.fields, b.fields);
      AbsorbIsMerge(wire, Absorb(wire, EMPTY, a.fields), b.fields);
    }
  }

  lemma EncodeIsFields(m: Message)
    ensures Encode(m) == EncodeFields(Fields(m))
  {
    if m.known.Some? {
      assert Fields(m)[1..] == m.unknown;
    } else {
      assert Fields(m) == m.unknown;
    }
  }

  /** The parser's view of a serialized message, ambiguous or not. */
  lemma ParseEncoded(wire: nat, m: Message)
    requires Writable(wire, m)
    ensures Parse(wire, Encode(m)) == Some(Absorb(wire, EMPTY, Fields(m)))
  {
    EncodeIsFields(m);
    ScanEncodedFields(Fields(m), []);
    assert EncodeFields(Fields(m)) + [] == EncodeFields(Fields(m));
    assert Fields(m) + [] == Fields(m);
  }

  lemma AbsorbOwnFields(wire: nat, m: Message)
    requires Writable(wire, m)
    ensures |Absorb(wire, EMPTY, Fields(m)).unknown| <= |m.unknown|
    ensures |Absorb(wire, EMPTY, Fields(m)).unknown| == |m.unknown| ==> Unambiguous(wire, m.unknown)
    ensures Unambiguous(wire, m.unknown) ==> Absorb(wire, EMPTY, Fields(m)) == m
  {
    if m.known.Some? {
      assert Fields(m)[1..] == m.unknown;
      AbsorbIsMerge(wire, EMPTY.(known := m.known), m.unknown);
    } else {
      assert Fields(m) == m.unknown;
    }
    AbsorbCounts(wire, m.unknown);
    if Unambiguous(wire, m.unknown) {
      AbsorbUnambiguous(wire, EMPTY.(known := m.known), m.unknown);
      assert [] + m.unknown == m.unknown;
    }
  }

  /** Round trip, exactly when it holds. */
  lemma RoundTrip(wire: nat, m: Message)
    requires Writable(wire, m)
    ensures Parse(wire, Encode(m)) == Some(m) <==> Unambiguous(wire, m.unknown)
  {
    ParseEncoded(wire, m);
    AbsorbOwnFields(wire, m);
  }

  /** Parsing two serialized messages laid end to end gives MergeFrom, exactly when it does. */
  lemma ConcatenationIsMerge(wire: nat, a: Message, b: Message)
    requires Writable(wire, a) && Writable(wire, b)
    ensures Parse(wire, Encode(a) + Encode(b)) == Some(Merge(a, b))
        <==> Unambiguous(wire, a.unknown) && Unambiguous(wire, b.unknown)
  {
    ParseEncoded(wire, a);
    ParseEncoded(wire, b);
    ParseConcatenation(wire, Encode(a), Encode(b));
    AbsorbOwnFields(wire, a);
    AbsorbOwnFields(wire, b);
  }

  /** Ambiguity does lose data: a message holding an unknown field 1 of the known wire type
      is changed by writing and reading it. */
  lemma AmbiguousMessageIsChanged(text: Bytes)
    requires |text| < TWO_31
    ensures var m := Message(None, [BytesField(1, text)]);
            && Writable(LENGTH_DELIMITED, m)
            && Parse(LENGTH_DELIMITED, Encode(m)) == Some(Message(Some(BytesField(1, text)), []))
  {
    var m := Message(None, [BytesField(1, text)]);
    ParseEncoded(LENGTH_DELIMITED, m);
    assert Fields(m) == m.unknown;
    LastOneWins(LENGTH_DELIMITED, EMPTY, m.unknown, 0);
    AbsorbCounts(LENGTH_DELIMITED, m.unknown);
  }

  // ---- Only unambiguous messages are ever parsed ----

  lemma {:induction false} AbsorbKeepsUnambiguous(wire: nat, m: Message, fs: seq<Field>)
    requires Writable(wire, m) && Unambiguous(wire, m.unknown) && AllValid(fs)
    ensures Writable(wire, Absorb(wire, m, fs)) && Unambiguous(wire, Absorb(wire, m, fs).unknown)
    decreases |fs|
  {
    if fs != [] {
      assert Valid(fs[0]);
      AbsorbKeepsUnambiguous(wire, Take(wire, m, fs[0]), fs[1..]);
    }
  }

  lemma ParsedIsUnambiguous(wire: nat, s: Bytes)
    requires Parse(wire, s).Some?
    ensures Writable(wire, Parse(wire, s).value) && Unambiguous(wire, Parse(wire, s).value.unknown)
  {
    ScanIsValid(s);
    AbsorbKeepsUnambiguous(wire, EMPTY, ScanFields(s).fields);
  }

  lemma MergeKeepsUnambiguous(wire: nat, a: Message, b: Message)
    requires Writable(wire, a) && Unambiguous(wire, a.unknown)
    requires Writable(wire, b) && Unambiguous(wire, b.unknown)
    ensures Writable(wire, Merge(a, b)) && Unambiguous(wire, Merge(a, b).unknown)
  {
  }

  /** Whatever was accepted once is reproduced by writing it and parsing again. */
  lemma ReparseIsStable(wire: nat, s: Bytes)
    requires Parse(wire, s).Some?
    ensures Parse(wire, Encode(Parse(wire, s).value)) == Parse(wire, s)
  {
    ParsedIsUnambiguous(wire, s);
    RoundTrip(wire, Parse(wire, s).value);
  }

  // ---- Messages whose field 1 is a required int64 ----

  function Int64Message(v: int64): Message {
    Message(Some(VarintField(1, ToUnsigned(v))), [])
  }

  /** The `value()` of a FetchAddRequest or a Snapshot; 0, the default, when it is unset. */
  function Int64Of(m: Message): int64 {
    if m.known.Some? && m.known.value.VarintField? then ToSigned(m.known.value.v) else 0
  }

  /** ParseFromZeroCopyStream: the required field must be present. */
  function ParseInt64(s: Bytes): Option<int64> {
    match Parse(VARINT, s)
    case Some(m) => if m.known.Some? then Some(Int64Of(m)) else None
    case None => None
  }

  /** A received FetchAddRequest: parsed from some bytes, with its required field present. */
  ghost predicate Received(m: Message) {
    m.known.Some? && exists s :: Parse(VARINT, s) == Some(m)
  }

  /** The value a follower parses out of the log is the one the proposer holds in its request,
      negative values and unknown fields included. */
  lemma LogCarriesRequest(m: Message)
    requires Received(m)
    ensures ParseInt64(Encode(m)) == Some(Int64Of(m))
  {
    var s :| Parse(VARINT, s) == Some(m);
    ReparseIsStable(VARINT, s);
  }

  /** Any int64 is carried, in at most eleven bytes. */
  lemma Int64RoundTrip(v: int64)
    ensures ParseInt64(Encode(Int64Message(v))) == Some(v)
    ensures |Encode(Int64Message(v))| <= 11
    ensures Received(Int64Message(v))
  {
    var m := Int64Message(v);
    SignedRoundTrip(v);
    RoundTrip(VARINT, m);
    Varint.SizeIsLength(ToUnsigned(v));
    assert TagOf(m.known.value) == 8 && |Varint.Encode(8)| == 1;
    assert EncodeField(m.known.value) == Varint.Encode(8) + Varint.Encode(ToUnsigned(v));
    assert EncodeFields(m.unknown) == [];
  }

  // ---- What the bytes mean ----

  /** The known field is written first, the unknown ones after it in their order. */
  lemma KnownComesFirst(m: Message, fs: seq<Field>)
    ensures m.known.Some? ==> EncodeField(m.known.value) <= Encode(m)
    ensures Encode(m.(unknown := m.unknown + fs)) == Encode(m) + EncodeFields(fs)
  {
    EncodeInOrder(m.unknown, fs);
  }

  /** The value is the one congruent to the varint modulo 2^64, whatever the unknown fields. */
  lemma Int64Means(u: uint64, unknown: seq<Field>)
    ensures (Int64Of(Message(Some(VarintField(1, u)), unknown)) - u) % TWO_64 == 0
  {
  }

  lemma NothingLeft()
    ensures ReadTag([]) == TagRead(0, [], true)
  {
  }

  lemma ScanOne(f: Field)
    requires Valid(f)
    ensures ScanFields(EncodeField(f)) == Scan([f], TagRead(0, [], true))
  {
    hide Valid, EncodeField, ReadField;
    ScanEncodedFields([f], []);
    assert EncodeFields([f]) == EncodeField(f) by {
      assert [f][1..] == [] && EncodeFields([]) == [];
    }
    assert EncodeField(f) + [] == EncodeField(f) && [f] + [] == [f];
    NothingLeft();
  }

  lemma AbsorbAlone(wire: nat, f: Field)
    requires wire < 8
    ensures Absorb(wire, EMPTY, [f]) == if TagOf(f) == 8 + wire then Message(Some(f), []) else Message(None, [f])
  {
    TagParts(f);
    assert [f][1..] == [];
  }

  /** Of the fields on the wire, the one with number 1 and the wire type asked for is the known one,
      and every other is kept as unknown; an int64 message without its field is refused. */
  lemma OneFieldMeans(wire: nat, f: Field)
    requires Valid(f) && wire < 8
    ensures Parse(wire, EncodeField(f)) ==
              Some(if TagOf(f) == 8 + wire then Message(Some(f), []) else Message(None, [f]))
    ensures ParseInt64(EncodeField(f)).Some? <==> TagOf(f) == 8
  {
    hide ScanFields, Absorb, EncodeField, Valid, TagOf, Int64Of;
    ScanOne(f);
    AbsorbAlone(wire, f);
    AbsorbAlone(VARINT, f);
  }

  /** And so an int64 is written: the tag 8, then the varint of the number modulo 2^64. */
  lemma Int64Written(v: int64)
    ensures var s := Encode(Int64Message(v));
            && |s| > 1 && s[0] == 8 && Varint.IsVarint(s[1..])
            && Varint.Value(s[1..]) < TWO_64 && (Varint.Value(s[1..]) - v) % TWO_64 == 0
  {
    var m := Int64Message(v);
    Varint.EncodeMeans(ToUnsigned(v));
    assert Encode(m) == EncodeField(m.known.value) + [];
    assert EncodeField(m.known.value) == [8] + Varint.Encode(ToUnsigned(v));
    assert Encode(m)[1..] == Varint.Encode(ToUnsigned(v));
  }
}
