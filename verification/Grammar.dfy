/** Which bytes a parser has to accept, said without reading them: the grammar of the Protocol
    Buffers wire format. A varint may have more digits than it needs, up to ten, and its value is
    taken modulo the width it is read into. */
module Grammar {
  import opened Basics
  import opened Wire
  import opened Messages
  import Varint

  predicate SpellsVarint(s: Bytes, n: nat, modulus: nat)
    requires modulus > 0
  {
    Varint.IsVarint(s) && |s| <= 10 && Varint.Value(s) % modulus == n
  }

  /** What follows the tag of a field. */
  ghost predicate SpellsPayload(s: Bytes, f: Field)
    decreases f, 0
  {
    match f
    case VarintField(_, v) => SpellsVarint(s, v, TWO_64)
    case Fixed64Field(_, v) => |s| == 8 && Varint.FixedValue(s) == v
    case Fixed32Field(_, w) => |s| == 4 && Varint.FixedValue(s) == w
    case BytesField(_, text) =>
      |text| < TWO_31 && exists k | 0 <= k <= |s| :: SpellsVarint(s[..k], |text|, TWO_32) && s[k..] == text
    case GroupField(num, fields) =>
      exists k | 0 <= k <= |s| :: SpellsAll(s[..k], fields) && SpellsVarint(s[k..], 8 * num + 4, TWO_32)
  }

  /** A tag, which must not be zero, and what follows it. */
  ghost predicate Spells(s: Bytes, f: Field)
    decreases f, 1
  {
    TagOf(f) != 0 && exists k | 0 <= k <= |s| :: SpellsVarint(s[..k], TagOf(f), TWO_32) && SpellsPayload(s[k..], f)
  }

  ghost predicate SpellsAll(s: Bytes, fs: seq<Field>)
    decreases fs, 2
  {
    if fs == [] then s == []
    else exists k | 0 <= k <= |s| :: Spells(s[..k], fs[0]) && SpellsAll(s[k..], fs[1..])
  }

  // ---- What is spelled is read ----

  lemma ReadVarint(d: Bytes, rest: Bytes)
    requires Varint.IsVarint(d) && |d| <= 10
    ensures Varint.Decode(d + rest) == Got(Varint.Value(d) % TWO_64, rest)
    ensures Varint.Decode32(d + rest) == Got(Varint.Value(d) % TWO_32, rest)
  {
    Varint.DecodeMeans(d + rest);
    assert (d + rest)[..|d|] == d && (d + rest)[|d|..] == rest;
  }

  lemma ReadSpelledTag(d: Bytes, tag: nat, rest: Bytes)
    requires SpellsVarint(d, tag, TWO_32)
    ensures ReadTag(d + rest) == TagRead(tag, rest, false)
  {
    ReadVarint(d, rest);
  }

  lemma ReadSpelledFixed(s: Bytes, rest: Bytes)
    ensures Varint.DecodeFixed(s + rest, |s|) == Got(Varint.FixedValue(s), rest)
  {
    Varint.DecodeFixedMeans(s + rest, |s|);
    assert (s + rest)[..|s|] == s && (s + rest)[|s|..] == rest;
  }

  lemma ReadSpelledBytes(d: Bytes, text: Bytes, rest: Bytes)
    requires |text| < TWO_31 && SpellsVarint(d, |text|, TWO_32)
    ensures ReadBytes(d + text + rest) == Got(text, rest)
  {
    ReadVarint(d, text + rest);
    assert d + text + rest == d + (text + rest);
    assert (text + rest)[..|text|] == text && (text + rest)[|text|..] == rest;
  }

  lemma ScanEnds(s: Bytes)
    requires ReadTag(s).tag == 0 || ReadTag(s).tag % 8 == END_GROUP
    ensures ScanFields(s) == Scan([], ReadTag(s))
  {
  }

  lemma ScanGoesOn(s: Bytes)
    requires ReadTag(s).tag != 0 && ReadTag(s).tag % 8 != END_GROUP
    ensures var field := ReadField(ReadTag(s).tag, ReadTag(s).rest);
            ScanFields(s) == if field.Got? then Prepend([field.value], ScanFields(field.rest)) else Bad
  {
  }

  lemma ReadSpelledEnd(s: Bytes, num: nat, rest: Bytes)
    requires SpellsVarint(s, 8 * num + 4, TWO_32)
    ensures ScanFields(s + rest) == Scan([], TagRead(8 * num + 4, rest, false))
  {
    hide SpellsVarint, ScanFields;
    ReadSpelledTag(s, 8 * num + 4, rest);
    ScanEnds(s + rest);
  }

  lemma GroupSplits(s: Bytes, f: Field) returns (k: nat)
    requires f.GroupField? && SpellsPayload(s, f)
    ensures k <= |s| && SpellsAll(s[..k], f.fields) && SpellsVarint(s[k..], 8 * f.num + 4, TWO_32)
  {
    hide SpellsAll, SpellsVarint;
    k :| 0 <= k <= |s| && SpellsAll(s[..k], f.fields) && SpellsVarint(s[k..], 8 * f.num + 4, TWO_32);
  }

  lemma {:induction false} ReadSpelledGroup(s: Bytes, f: Field, rest: Bytes)
    requires f.GroupField? && SpellsPayload(s, f) && TagOf(f) < TWO_32
    ensures ReadField(TagOf(f), s + rest) == Got(f, rest)
    decreases f, 0
  {
    hide SpellsAll, SpellsPayload, SpellsVarint, ScanFields, ReadField;
    var k := GroupSplits(s, f);
    ReadSpelledEnd(s[k..], f.num, rest);
    ScanSpelled(s[..k], f.fields, s[k..] + rest);
    assert s + rest == s[..k] + (s[k..] + rest);
    assert f.fields + [] == f.fields;
    TagParts(f);
    ReadGroup(TagOf(f), s + rest, f.fields, rest);
  }

  lemma ReadSpelledText(s: Bytes, f: Field, rest: Bytes)
    requires f.BytesField? && SpellsPayload(s, f) && TagOf(f) < TWO_32
    ensures ReadField(TagOf(f), s + rest) == Got(f, rest)
  {
    hide SpellsVarint, ReadBytes;
    TagParts(f);
    var k :| 0 <= k <= |s| && SpellsVarint(s[..k], |f.text|, TWO_32) && s[k..] == f.text;
    ReadSpelledBytes(s[..k], f.text, rest);
    assert s[..k] + f.text == s;
  }

  lemma ReadSpelledNumber(s: Bytes, f: Field, rest: Bytes)
    requires !f.BytesField? && !f.GroupField? && SpellsPayload(s, f) && TagOf(f) < TWO_32
    ensures ReadField(TagOf(f), s + rest) == Got(f, rest)
  {
    hide Varint.Value, Varint.IsVarint, Varint.Decode, Varint.DecodeFixed;
    TagParts(f);
    if f.VarintField? {
      ReadVarint(s, rest);
    } else {
      ReadSpelledFixed(s, rest);
    }
  }

  lemma {:induction false} ReadSpelled(s: Bytes, f: Field, rest: Bytes)
    requires SpellsPayload(s, f) && TagOf(f) < TWO_32
    ensures ReadField(TagOf(f), s + rest) == Got(f, rest)
    decreases f, 1
  {
    hide SpellsPayload, ReadField;
    match f
    case BytesField(_, _) => ReadSpelledText(s, f, rest);
    case GroupField(_, _) => ReadSpelledGroup(s, f, rest);
    case _ => ReadSpelledNumber(s, f, rest);
  }

  lemma {:induction false} ScanSpelledOne(s: Bytes, f: Field, rest: Bytes)
    requires Spells(s, f)
    ensures ScanFields(s + rest) == Prepend([f], ScanFields(rest))
    decreases f, 2
  {
    hide SpellsPayload, SpellsVarint, ScanFields, ReadField, ReadTag;
    var k :| 0 <= k <= |s| && SpellsVarint(s[..k], TagOf(f), TWO_32) && SpellsPayload(s[k..], f);
    ReadSpelledTag(s[..k], TagOf(f), s[k..] + rest);
    ReadSpelled(s[k..], f, rest);
    assert s + rest == s[..k] + (s[k..] + rest);
    TagParts(f);
    ScanGoesOn(s + rest);
  }

  lemma AllSplits(s: Bytes, fs: seq<Field>) returns (k: nat)
    requires SpellsAll(s, fs) && fs != []
    ensures k <= |s| && Spells(s[..k], fs[0]) && SpellsAll(s[k..], fs[1..])
  {
    hide Spells;
    k :| 0 <= k <= |s| && Spells(s[..k], fs[0]) && SpellsAll(s[k..], fs[1..]);
  }

  /** Whatever spells fields is read as these fields, whatever follows. */
  lemma {:induction false} ScanSpelled(s: Bytes, fs: seq<Field>, rest: Bytes)
    requires SpellsAll(s, fs)
    ensures ScanFields(s + rest) == Prepend(fs, ScanFields(rest))
    decreases fs, 3
  {
    hide Spells, ScanFields;
    if fs == [] {
      assert s + rest == rest;
    } else {
      hide SpellsAll;
      var k := AllSplits(s, fs);
      ScanSpelledOne(s[..k], fs[0], s[k..] + rest);
      ScanSpelled(s[k..], fs[1..], rest);
      assert s + rest == s[..k] + (s[k..] + rest) && fs == [fs[0]] + fs[1..];
      PrependTwice([fs[0]], fs[1..], ScanFields(rest));
    }
  }

  // ---- What is read was spelled ----

  lemma VarintRead(s: Bytes) returns (k: nat)
    requires Varint.Decode(s).Got? || Varint.Decode32(s).Got?
    ensures k <= |s| && Varint.IsVarint(s[..k]) && k <= 10
    ensures Varint.Decode(s) == Got(Varint.Value(s[..k]) % TWO_64, s[k..])
    ensures Varint.Decode32(s) == Got(Varint.Value(s[..k]) % TWO_32, s[k..])
  {
    Varint.DecodeMeans(s);
    k :| 0 <= k <= |s| && k <= 10 && Varint.IsVarint(s[..k]);
  }

  lemma TagWasSpelled(s: Bytes) returns (k: nat)
    requires ReadTag(s).tag != 0
    ensures k <= |s| && SpellsVarint(s[..k], ReadTag(s).tag, TWO_32) && ReadTag(s).rest == s[k..]
  {
    k := VarintRead(s);
  }

  lemma BytesWereSpelled(s: Bytes, num: nat) returns (k: nat)
    requires ReadBytes(s).Got?
    ensures k <= |s| && ReadBytes(s).rest == s[k..] && SpellsPayload(s[..k], BytesField(num, ReadBytes(s).value))
  {
    var j := VarintRead(s);
    var text := ReadBytes(s).value;
    k := j + |text|;
    assert s[..k][..j] == s[..j] && s[..k][j..] == text && s[k..] == s[j..][|text|..];
  }

  lemma {:induction false} GroupWasSpelled(tag: uint32, s: Bytes) returns (k: nat)
    requires tag % 8 == START_GROUP && ReadField(tag, s).Got?
    ensures k <= |s| && ReadField(tag, s).rest == s[k..] && SpellsPayload(s[..k], ReadField(tag, s).value)
    decreases |s|, 2
  {
    var r := ScanFields(s);
    var j := ScanWasSpelled(s);
    var e := TagWasSpelled(s[j..]);
    k := j + e;
    assert s[..k][..j] == s[..j] && s[..k][j..] == s[j..][..e] && s[k..] == s[j..][e..];
  }

  lemma {:induction false} PayloadWasSpelled(tag: uint32, s: Bytes) returns (k: nat)
    requires ReadField(tag, s).Got?
    ensures k <= |s| && ReadField(tag, s).rest == s[k..] && SpellsPayload(s[..k], ReadField(tag, s).value)
    decreases |s|, 3
  {
    match tag % 8
    case 0 => k := VarintRead(s);
    case 1 => k := 8; Varint.DecodeFixedMeans(s, 8);
    case 2 => k := BytesWereSpelled(s, tag / 8);
    case 3 => k := GroupWasSpelled(tag, s);
    case _ => k := 4; Varint.DecodeFixedMeans(s, 4);
  }

  lemma {:induction false} FieldWasSpelled(s: Bytes) returns (k: nat)
    requires ReadTag(s).tag != 0 && ReadField(ReadTag(s).tag, ReadTag(s).rest).Got?
    ensures var field := ReadField(ReadTag(s).tag, ReadTag(s).rest);
            k <= |s| && field.rest == s[k..] && Spells(s[..k], field.value)
    decreases |s|, 0
  {
    var i := TagWasSpelled(s);
    var j := PayloadWasSpelled(ReadTag(s).tag, s[i..]);
    k := i + j;
    hide SpellsPayload, SpellsVarint, ReadField, ReadTag;
    assert s[..k][..i] == s[..i] && s[..k][i..] == s[i..][..j] && s[k..] == s[i..][j..];
  }

  /** Whatever is scanned spells the fields found, up to where the scan stopped. */
  lemma {:induction false} ScanWasSpelled(s: Bytes) returns (k: nat)
    requires ScanFields(s).Scan?
    ensures k <= |s| && SpellsAll(s[..k], ScanFields(s).fields) && ReadTag(s[k..]) == ScanFields(s).stop
    decreases |s|, 1
  {
    hide ScanFields, ReadField, Spells, TagOf;
    if ReadTag(s).tag == 0 || ReadTag(s).tag % 8 == END_GROUP {
      ScanEnds(s);
      k := 0;
      assert s[..0] == [] && s[0..] == s;
    } else {
      ScanGoesOn(s);
      hide ReadTag;
      var i := FieldWasSpelled(s);
      var j := ScanWasSpelled(s[i..]);
      k := i + j;
      assert s[..k][..i] == s[..i] && s[..k][i..] == s[i..][..j] && s[k..] == s[i..][j..];
      assert ScanFields(s).fields[1..] == ScanFields(s[i..]).fields;
    }
  }

  // ---- The parser accepts exactly the grammar ----

  lemma ScansExactly(s: Bytes, fs: seq<Field>)
    ensures ScanFields(s) == Scan(fs, TagRead(0, [], true)) <==> SpellsAll(s, fs)
  {
    NothingLeft();
    if SpellsAll(s, fs) {
      ScanSpelled(s, fs, []);
      assert s + [] == s && fs + [] == fs;
    }
    if ScanFields(s) == Scan(fs, TagRead(0, [], true)) {
      var k := ScanWasSpelled(s);
      assert s[..k] == s;
    }
  }

  lemma ScanAtEnd(s: Bytes)
    requires ScanFields(s).Scan? && ScanFields(s).stop.atEnd
    ensures ScanFields(s).stop == TagRead(0, [], true)
  {
    hide ScanFields;
    var k := ScanWasSpelled(s);
  }

  /** A message is accepted exactly if its bytes spell some fields, and it is what these come to. */
  lemma ParsesExactly(wire: nat, s: Bytes, m: Message)
    ensures Parse(wire, s) == Some(m) <==> exists fs :: SpellsAll(s, fs) && m == Absorb(wire, EMPTY, fs)
  {
    hide SpellsAll, Absorb, ScanFields;
    if Parse(wire, s) == Some(m) {
      ScanAtEnd(s);
      ScansExactly(s, ScanFields(s).fields);
    }
    if fs :| SpellsAll(s, fs) && m == Absorb(wire, EMPTY, fs) {
      ScansExactly(s, fs);
    }
  }

  /** No bytes spell two different sequences of fields. */
  lemma SpelledOnce(s: Bytes, fs: seq<Field>, gs: seq<Field>)
    requires SpellsAll(s, fs) && SpellsAll(s, gs)
    ensures fs == gs
  {
    hide SpellsAll, ScanFields;
    ScansExactly(s, fs);
    ScansExactly(s, gs);
  }

  // ---- The two kinds of field 1 ----

  lemma SameModulo(a: int, b: int)
    requires (a - b % TWO_64) % TWO_64 == 0
    ensures (a - b) % TWO_64 == 0
  {
    assert a - b == a - b % TWO_64 - b / TWO_64 * TWO_64;
    ModShift(a - b % TWO_64, -(b / TWO_64));
  }

  lemma SpellOne(tag: byte, s: Bytes, f: Field)
    requires TagOf(f) == tag && 0 < tag < 128 && SpellsPayload(s, f)
    ensures ScanFields([tag] + s) == Scan([f], TagRead(0, [], true))
  {
    hide SpellsPayload, ScanFields;
    var t := [tag] + s;
    assert t[..1] == [tag] && t[1..] == s && Varint.Value([tag]) == tag;
    assert t[..|t|] == t && t[|t|..] == [] && [f][1..] == [];
    assert Spells(t[..|t|], [f][0]) && SpellsAll(t[|t|..], [f][1..]);
    ScansExactly(t, [f]);
  }

  lemma ParseSpelled(d: Bytes, f: Field)
    requires f == VarintField(1, Varint.Value(d) % TWO_64) && Varint.IsVarint(d) && |d| <= 10
    ensures ParseInt64([8] + d) == Some(Int64Of(Message(Some(f), [])))
  {
    hide ScanFields, Absorb, Int64Of, Varint.Value, Varint.IsVarint;
    SpellOne(8, d, f);
    AbsorbAlone(VARINT, f);
  }

  /** The tag 8, then a varint: the int64 congruent to the sum of its digits, whether written in the
      fewest bytes or not. */
  lemma Int64OnTheWire(d: Bytes)
    requires Varint.IsVarint(d) && |d| <= 10
    ensures ParseInt64([8] + d).Some? && (ParseInt64([8] + d).value - Varint.Value(d)) % TWO_64 == 0
  {
    hide ParseInt64, Int64Of, Varint.Value, Varint.IsVarint;
    var u := Varint.Value(d) % TWO_64;
    ParseSpelled(d, VarintField(1, u));
    Int64Means(u, []);
    SameModulo(ParseInt64([8] + d).value, Varint.Value(d));
  }

  /** The tag 10, then the varint of a length, then so many bytes: the string of these bytes. */
  lemma StringOnTheWire(d: Bytes, text: Bytes)
    requires SpellsVarint(d, |text|, TWO_32) && |text| < TWO_31
    ensures Parse(LENGTH_DELIMITED, [10] + (d + text)) == Some(Message(Some(BytesField(1, text)), []))
  {
    var f := BytesField(1, text);
    hide ScanFields, Absorb, SpellsVarint;
    assert (d + text)[..|d|] == d && (d + text)[|d|..] == text;
    SpellOne(10, d + text, f);
    AbsorbAlone(LENGTH_DELIMITED, f);
  }
}
