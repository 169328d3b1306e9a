/** Tagged fields of the Protocol Buffers wire format ("Message Structure", "Length-Delimited
    Records", "Groups"): the sets of unknown fields a generated message carries, how they are
    read, skipped into a set, and written back. */
module Wire {
  import opened Basics
  import Varint

  const VARINT: nat := 0
  const FIXED64: nat := 1
  const LENGTH_DELIMITED: nat := 2
  const START_GROUP: nat := 3
  const END_GROUP: nat := 4
  const FIXED32: nat := 5

  datatype Field =
    | VarintField(num: nat, v: uint64)
    | Fixed64Field(num: nat, v: uint64)
    | BytesField(num: nat, text: Bytes)
    | GroupField(num: nat, fields: seq<Field>)
    | Fixed32Field(num: nat, w: uint32)

  function WireOf(f: Field): nat {
    match f
    case VarintField(_, _) => VARINT
    case Fixed64Field(_, _) => FIXED64
    case BytesField(_, _) => LENGTH_DELIMITED
    case GroupField(_, _) => START_GROUP
    case Fixed32Field(_, _) => FIXED32
  }

  function TagOf(f: Field): nat {
    f.num * 8 + WireOf(f)
  }

  /** A field that can be put on the wire: its tag is a nonzero 32-bit number, and a string
      is shorter than 2^31 bytes, as are those inside groups. */
  ghost predicate Valid(f: Field) {
    && 0 < TagOf(f) < TWO_32
    && (f.BytesField? ==> |f.text| < TWO_31)
    && (f.GroupField? ==> forall g | g in f.fields :: Valid(g))
  }

  ghost predicate AllValid(fs: seq<Field>) {
    forall f | f in fs :: Valid(f)
  }

  // ---- Writing ----

  function EncodeField(f: Field): Bytes
    decreases f, 1
  {
    Varint.Encode(TagOf(f)) + EncodePayload(f)
  }

  function EncodePayload(f: Field): Bytes
    decreases f, 0
  {
    match f
    case VarintField(_, v) => Varint.Encode(v)
    case Fixed64Field(_, v) => Varint.EncodeFixed(v, 8)
    case BytesField(_, text) => Varint.Encode(|text|) + text
    case GroupField(num, fields) => EncodeFields(fields) + Varint.Encode(num * 8 + END_GROUP)
    case Fixed32Field(_, w) => Varint.EncodeFixed(w, 4)
  }

  /** SerializeUnknownFields: the fields of a set, in the order they were added. */
  function EncodeFields(fs: seq<Field>): Bytes
    decreases fs
  {
    if fs == [] then [] else EncodeField(fs[0]) + EncodeFields(fs[1..])
  }

  /** ComputeUnknownFieldsSize: computed from the values, without encoding them. */
  function SizeOf(fs: seq<Field>): nat
    decreases fs
  {
    if fs == [] then 0 else FieldSize(fs[0]) + SizeOf(fs[1..])
  }

  function FieldSize(f: Field): nat
    decreases f
  {
    Varint.Size(TagOf(f)) +
    match f
    case VarintField(_, v) => Varint.Size(v)
    case Fixed64Field(_, _) => 8
    case BytesField(_, text) => Varint.Size(|text|) + |text|
    case GroupField(num, fields) => SizeOf(fields) + Varint.Size(num * 8 + END_GROUP)
    case Fixed32Field(_, _) => 4
  }

  lemma {:induction false} SizeIsEncodedLength(fs: seq<Field>)
    requires AllValid(fs)
    ensures SizeOf(fs) == |EncodeFields(fs)|
    decreases fs, 1
  {
    if fs != [] {
      assert Valid(fs[0]);
      FieldSizeIsLength(fs[0]);
      SizeIsEncodedLength(fs[1..]);
    }
  }

  lemma {:induction false} FieldSizeIsLength(f: Field)
    requires Valid(f)
    ensures FieldSize(f) == |EncodeField(f)|
    decreases f, 0
  {
    Varint.SizeIsLength(TagOf(f));
    match f {
      case VarintField(_, v) => Varint.SizeIsLength(v);
      case BytesField(_, text) => Varint.SizeIsLength(|text|);
      case GroupField(num, fields) =>
        SizeIsEncodedLength(fields);
        Varint.SizeIsLength(num * 8 + END_GROUP);
      case _ =>
    }
  }

  // ---- Reading ----

  /** What ReadTag leaves: tag 0 at the end of the input and on a malformed tag, of which
      only the first is a place where a message may end. */
  datatype TagRead = TagRead(tag: uint32, rest: Bytes, atEnd: bool)

  function ReadTag(s: Bytes): (t: TagRead)
    ensures t.tag != 0 ==> |t.rest| < |s| && !t.atEnd
    ensures |t.rest| <= |s|
  {
    if s == [] then TagRead(0, [], true)
    else match Varint.Decode32(s)
      case Fail => TagRead(0, s, false)
      case Got(tag, rest) => TagRead(tag, rest, false)
  }

  function ReadBytes(s: Bytes): (r: Read<Bytes>)
    ensures r.Got? ==> |r.rest| < |s| && |r.value| < TWO_31
  {
    match Varint.Decode32(s)
    case Fail => Fail
    case Got(n, rest) => if n >= TWO_31 || n > |rest| then Fail else Got(rest[..n], rest[n..])
  }

  /** The fields read before a loop over tags stopped, and the tag it stopped at. */
  datatype Scan = Bad | Scan(fields: seq<Field>, stop: TagRead)

  /** SkipMessage: fields up to a zero or an end-group tag. */
  function ScanFields(s: Bytes): (r: Scan)
    ensures r.Scan? ==> |r.stop.rest| <= |s| && (r.stop.tag == 0 || r.stop.tag % 8 == END_GROUP)
    ensures r.Scan? && r.stop.tag != 0 ==> |r.stop.rest| < |s|
    decreases |s|, 0
  {
    var t := ReadTag(s);
    if t.tag == 0 || t.tag % 8 == END_GROUP then Scan([], t)
    else match ReadField(t.tag, t.rest)
      case Fail => Bad
      case Got(f, rest) => Prepend([f], ScanFields(rest))
  }

  function Prepend(fs: seq<Field>, r: Scan): Scan {
    if r.Bad? then Bad else Scan(fs + r.fields, r.stop)
  }

  /** SkipField: the rest of a field whose tag has been read; a group must be closed by the
      end tag of its own number. */
  function ReadField(tag: uint32, s: Bytes): (r: Read<Field>)
    ensures r.Got? ==> |r.rest| <= |s| && TagOf(r.value) == tag && tag % 8 != END_GROUP
    decreases |s|, 1
  {
    var num := tag / 8;
    match tag % 8
    case 0 => (match Varint.Decode(s) case Fail => Fail case Got(v, rest) => Got(VarintField(num, v), rest))
    case 1 => (match Varint.DecodeFixed(s, 8)
               case Fail => Fail
               case Got(v, rest) => Eight(); Got(Fixed64Field(num, v), rest))
    case 2 => (match ReadBytes(s) case Fail => Fail case Got(v, rest) => Got(BytesField(num, v), rest))
    case 3 => (match ScanFields(s)
               case Bad => Fail
               case Scan(fs, stop) =>
                 if stop.tag == num * 8 + END_GROUP then Got(GroupField(num, fs), stop.rest) else Fail)
    case 5 => (match Varint.DecodeFixed(s, 4)
               case Fail => Fail
               case Got(w, rest) => Four(); Got(Fixed32Field(num, w), rest))
    case _ => Fail
  }

  lemma Four()
    ensures Varint.Pow256(4) == TWO_32
  {
  }

  lemma Eight()
    ensures Varint.Pow256(8) == TWO_64
  {
    assert Varint.Pow256(8) == 256 * 256 * 256 * 256 * Varint.Pow256(4);
  }

  // ---- Reading inverts writing ----

  lemma ReadTagOf(tag: uint32, rest: Bytes)
    ensures ReadTag(Varint.Encode(tag) + rest) == TagRead(tag, rest, false)
  {
    Varint.RoundTrip32(tag, rest);
  }

  lemma ReadEncodedBytes(text: Bytes, rest: Bytes)
    requires |text| < TWO_31
    ensures ReadBytes(Varint.Encode(|text|) + text + rest) == Got(text, rest)
  {
    Varint.RoundTrip32(|text|, text + rest);
    assert Varint.Encode(|text|) + text + rest == Varint.Encode(|text|) + (text + rest);
    assert (text + rest)[..|text|] == text && (text + rest)[|text|..] == rest;
  }

  lemma ScanStops(tag: uint32, rest: Bytes)
    requires tag % 8 == END_GROUP
    ensures ScanFields(Varint.Encode(tag) + rest) == Scan([], TagRead(tag, rest, false))
  {
    ReadTagOf(tag, rest);
  }

  lemma ReadGroup(tag: uint32, s: Bytes, fields: seq<Field>, rest: Bytes)
    requires tag % 8 == START_GROUP && tag + 1 < TWO_32
    requires ScanFields(s) == Scan(fields, TagRead(tag + 1, rest, false))
    ensures ReadField(tag, s) == Got(GroupField(tag / 8, fields), rest)
  {
    assert tag + 1 == tag / 8 * 8 + END_GROUP;
  }

  lemma {:induction false} ReadEncodedGroup(f: Field, rest: Bytes)
    requires Valid(f) && f.GroupField?
    ensures ReadField(TagOf(f), EncodePayload(f) + rest) == Got(f, rest)
    decreases f, 0
  {
    var end := Varint.Encode(TagOf(f) + 1);
    TagParts(f);
    ScanStops(TagOf(f) + 1, rest);
    ScanEncodedFields(f.fields, end + rest);
    assert EncodePayload(f) + rest == EncodeFields(f.fields) + (end + rest);
    assert f.fields + [] == f.fields;
    ReadGroup(TagOf(f), EncodePayload(f) + rest, f.fields, rest);
  }

  lemma TagParts(f: Field)
    ensures TagOf(f) / 8 == f.num && TagOf(f) % 8 == WireOf(f)
  {
  }

  lemma {:induction false} ReadEncodedField(f: Field, rest: Bytes)
    requires Valid(f)
    ensures ReadField(TagOf(f), EncodePayload(f) + rest) == Got(f, rest)
    decreases f, 1
  {
    TagParts(f);
    if f.VarintField? {
      Varint.RoundTrip(f.v, rest);
    } else if f.Fixed64Field? {
      Eight();
      Varint.FixedRoundTrip(f.v, 8, rest);
    } else if f.Fixed32Field? {
      Four();
      Varint.FixedRoundTrip(f.w, 4, rest);
    } else if f.BytesField? {
      ReadEncodedBytes(f.text, rest);
    } else {
      ReadEncodedGroup(f, rest);
    }
  }

  /** Fields written one after another are read back one after another, whatever follows. */
  lemma {:induction false} ScanEncodedFields(fs: seq<Field>, rest: Bytes)
    requires AllValid(fs)
    ensures ScanFields(EncodeFields(fs) + rest) == Prepend(fs, ScanFields(rest))
    decreases fs, 2
  {
    if fs == [] {
      assert EncodeFields(fs) + rest == rest;
    } else {
      var f, tail := fs[0], EncodeFields(fs[1..]) + rest;
      assert Valid(f);
      assert EncodeFields(fs) == Varint.Encode(TagOf(f)) + EncodePayload(f) + EncodeFields(fs[1..]);
      assert EncodeFields(fs) + rest == Varint.Encode(TagOf(f)) + (EncodePayload(f) + tail);
      ReadTagOf(TagOf(f), EncodePayload(f) + tail);
      ReadEncodedField(f, tail);
      ScanEncodedFields(fs[1..], rest);
      assert fs == [f] + fs[1..];
      PrependTwice([f], fs[1..], ScanFields(rest));
    }
  }

  lemma PrependTwice(a: seq<Field>, b: seq<Field>, r: Scan)
    ensures Prepend(a, Prepend(b, r)) == Prepend(a + b, r)
  {
    if r.Scan? {
      assert a + (b + r.fields) == a + b + r.fields;
    }
  }

  // ---- What is read does not depend on what follows ----

  lemma ReadTagExtend(s: Bytes, t: Bytes)
    requires ReadTag(s).tag != 0
    ensures ReadTag(s + t) == TagRead(ReadTag(s).tag, ReadTag(s).rest + t, false)
  {
    Varint.DigitsExtend(s, t, 0);
  }

  lemma {:induction false} ReadFieldExtend(tag: uint32, s: Bytes, t: Bytes)
    requires ReadField(tag, s).Got?
    ensures ReadField(tag, s + t) == Got(ReadField(tag, s).value, ReadField(tag, s).rest + t)
    decreases |s|, 1
  {
    match tag % 8 {
      case 0 => Varint.DigitsExtend(s, t, 0);
      case 1 => Varint.FixedExtend(s, t, 8);
      case 2 =>
        Varint.DigitsExtend(s, t, 0);
        var r := Varint.Decode32(s);
        assert (r.rest + t)[..r.value] == r.rest[..r.value];
        assert (r.rest + t)[r.value..] == r.rest[r.value..] + t;
      case 3 => ScanExtend(s, t);
      case 5 => Varint.FixedExtend(s, t, 4);
      case _ =>
    }
  }

  /** A scan that ended with its input goes on into whatever is appended; one that stopped at an
      end-group tag is unaffected. */
  lemma {:induction false} ScanExtend(s: Bytes, t: Bytes)
    requires ScanFields(s).Scan?
    ensures var r := ScanFields(s);
            && (r.stop.atEnd ==> ScanFields(s + t) == Prepend(r.fields, ScanFields(t)))
            && (r.stop.tag != 0 ==> ScanFields(s + t) == Scan(r.fields, r.stop.(rest := r.stop.rest + t)))
    decreases |s|, 0
  {
    var u := ReadTag(s);
    if u.tag == 0 {
      if u.atEnd {
        assert s + t == t;
      }
    } else {
      ReadTagExtend(s, t);
      if u.tag % 8 != END_GROUP {
        ReadFieldExtend(u.tag, u.rest, t);
        var f := ReadField(u.tag, u.rest);
        ScanExtend(f.rest, t);
        PrependTwice([f.value], ScanFields(f.rest).fields, ScanFields(t));
      }
    }
  }

  // ---- Only writable fields are ever read ----

  lemma {:induction false} ReadFieldIsValid(tag: uint32, s: Bytes)
    requires 0 < tag && ReadField(tag, s).Got?
    ensures Valid(ReadField(tag, s).value)
    decreases |s|, 1
  {
    if tag % 8 == START_GROUP {
      ScanIsValid(s);
    }
  }

  lemma {:induction false} ScanIsValid(s: Bytes)
    requires ScanFields(s).Scan?
    ensures AllValid(ScanFields(s).fields)
    decreases |s|, 0
  {
    var t := ReadTag(s);
    if t.tag != 0 && t.tag % 8 != END_GROUP {
      ReadFieldIsValid(t.tag, t.rest);
      ScanIsValid(ReadField(t.tag, t.rest).rest);
    }
  }

  // ---- What the bytes mean ----

  /** The number that a field's kind has on the wire ("Message Structure"). */
  lemma WireTypes(f: Field)
    ensures f.VarintField? ==> TagOf(f) == 8 * f.num
    ensures f.Fixed64Field? ==> TagOf(f) == 8 * f.num + 1
    ensures f.BytesField? ==> TagOf(f) == 8 * f.num + 2
    ensures f.GroupField? ==> TagOf(f) == 8 * f.num + 3
    ensures f.Fixed32Field? ==> TagOf(f) == 8 * f.num + 5
  {
  }

  /** A field is written as the varint of its tag, followed by: a varint; eight bytes; the varint of
      the length and the bytes; the fields of the group and the varint of its end tag; four bytes. */
  lemma FieldMeans(f: Field)
    requires Valid(f)
    ensures exists k | 0 < k <= |EncodeField(f)| ::
              var s := EncodeField(f);
              && Varint.IsVarint(s[..k]) && Varint.Value(s[..k]) == TagOf(f)
              && s[k..] == EncodePayload(f)
    ensures var p := EncodePayload(f);
            match f
            case VarintField(_, v) => Varint.IsVarint(p) && Varint.Value(p) == v
            case Fixed64Field(_, v) => |p| == 8 && Varint.FixedValue(p) == v
            case Fixed32Field(_, w) => |p| == 4 && Varint.FixedValue(p) == w
            case BytesField(_, text) => p == Varint.Encode(|text|) + text
            case GroupField(num, fields) => p == EncodeFields(fields) + Varint.Encode(8 * num + 4)
  {
    var k := |Varint.Encode(TagOf(f))|;
    Varint.EncodeMeans(TagOf(f));
    assert EncodeField(f)[..k] == Varint.Encode(TagOf(f)) && EncodeField(f)[k..] == EncodePayload(f);
    match f
    case VarintField(_, v) => Varint.EncodeMeans(v);
    case Fixed64Field(_, v) => Eight(); FixedMeans(v, 8);
    case Fixed32Field(_, w) => Four(); FixedMeans(w, 4);
    case BytesField(_, _) =>
    case GroupField(_, _) =>
  }

  lemma FixedMeans(n: nat, k: nat)
    requires n < Varint.Pow256(k)
    ensures Varint.FixedValue(Varint.EncodeFixed(n, k)) == n
  {
    var s := Varint.EncodeFixed(n, k);
    Varint.FixedRoundTrip(n, k, []);
    Varint.DecodeFixedMeans(s, k);
    assert s + [] == s && s[..k] == s;
  }

  /** Fields are written in their order. */
  lemma {:induction false} EncodeInOrder(a: seq<Field>, b: seq<Field>)
    ensures EncodeFields(a + b) == EncodeFields(a) + EncodeFields(b)
    decreases |a|
  {
    if a == [] {
      assert a + b == b;
    } else {
      assert (a + b)[0] == a[0] && (a + b)[1..] == a[1..] + b;
      EncodeInOrder(a[1..], b);
    }
  }
}
