/** The two ways a message is put into bytes: appended to a stream, or stored into a buffer from a
    target on. Each walks the unknown fields and the groups nested in them by itself. */
module Writers {
  import opened Basics
  import opened Wire
  import Varint

  // ---- Into a stream ----

  /** CodedOutputStream. */
  class OutputStream {
    var out: Bytes

    constructor ()
      ensures out == []
    {
      out := [];
    }

    method WriteVarint(n: nat)
      modifies this
      ensures out == old(out) + Varint.Encode(n)
    {
      var v := n;
      while v >= 128
        invariant out + Varint.Encode(v) == old(out) + Varint.Encode(n)
      {
        ghost var before := out;
        out := out + [v % 128 + 128];
        assert before + Varint.Encode(v) == out + Varint.Encode(v / 128);
        v := v / 128;
      }
      out := out + [v];
    }

    method WriteFixed(n: nat, k: nat)
      modifies this
      ensures out == old(out) + Varint.EncodeFixed(n, k)
    {
      var v, left := n, k;
      while left > 0
        invariant out + Varint.EncodeFixed(v, left) == old(out) + Varint.EncodeFixed(n, k)
      {
        ghost var before := out;
        out := out + [v % 256];
        assert before + Varint.EncodeFixed(v, left) == out + Varint.EncodeFixed(v / 256, left - 1);
        v, left := v / 256, left - 1;
      }
      assert out + [] == out;
    }

    /** WriteString. */
    method WriteString(num: nat, text: Bytes)
      modifies this
      ensures out == old(out) + EncodeField(BytesField(num, text))
    {
      WriteVarint(num * 8 + LENGTH_DELIMITED);
      WriteVarint(|text|);
      out := out + text;
    }

    method WriteField(f: Field)
      modifies this
      ensures out == old(out) + EncodeField(f)
      decreases f, 0
    {
      WriteVarint(TagOf(f));
      match f
      case VarintField(_, v) => WriteVarint(v);
      case Fixed64Field(_, v) => WriteFixed(v, 8);
      case BytesField(_, text) =>
        WriteVarint(|text|);
        out := out + text;
      case GroupField(num, fields) =>
        WriteUnknown(fields);
        WriteVarint(num * 8 + END_GROUP);
      case Fixed32Field(_, w) => WriteFixed(w, 4);
    }

    /** SerializeUnknownFields. */
    method WriteUnknown(fs: seq<Field>)
      modifies this
      ensures out == old(out) + EncodeFields(fs)
      decreases fs, 1
    {
      for i := 0 to |fs|
        invariant out + EncodeFields(fs[i..]) == old(out) + EncodeFields(fs)
      {
        FieldsNext(fs, i, out);
        WriteField(fs[i]);
      }
      assert out + [] == out;
    }
  }

  // ---- Into a buffer ----

  /** `buf` from `target` on, overwritten with `s` and otherwise as it was. */
  function Spliced(buf: seq<byte>, target: nat, s: Bytes): seq<byte>
    requires target + |s| <= |buf|
  {
    buf[..target] + s + buf[target + |s|..]
  }

  lemma SpliceTwice(buf: seq<byte>, target: nat, s: Bytes, t: Bytes)
    requires target + |s| + |t| <= |buf|
    ensures Spliced(Spliced(buf, target, s), target + |s|, t) == Spliced(buf, target, s + t)
  {
  }

  /** One more byte after those already spliced in. */
  lemma SpliceByte(buf: seq<byte>, target: nat, s: Bytes, b: byte)
    requires target + |s| < |buf|
    ensures Spliced(buf, target, s)[target + |s| := b] == Spliced(buf, target, s + [b])
  {
  }

  method CopyBytes(buf: array<byte>, target: nat, s: Bytes) returns (end: nat)
    requires target + |s| <= buf.Length
    modifies buf
    ensures end == target + |s| && buf[..] == Spliced(old(buf[..]), target, s)
  {
    ghost var was := buf[..];
    for i := 0 to |s|
      invariant buf[..] == Spliced(was, target, s[..i])
    {
      SpliceByte(was, target, s[..i], s[i]);
      ghost var here := buf[..];
      buf[target + i] := s[i];
      assert buf[..] == here[target + i := s[i]] && s[..i] + [s[i]] == s[..i + 1];
    }
    end := target + |s|;
    assert s[..|s|] == s;
  }

  /** WriteVarint64ToArray. */
  method WriteVarintToArray(n: nat, buf: array<byte>, target: nat) returns (end: nat)
    requires target + |Varint.Encode(n)| <= buf.Length
    modifies buf
    ensures end == target + |Varint.Encode(n)| && buf[..] == Spliced(old(buf[..]), target, Varint.Encode(n))
  {
    ghost var was, done: Bytes := buf[..], [];
    var v := n;
    end := target;
    while v >= 128
      invariant end == target + |done| && done + Varint.Encode(v) == Varint.Encode(n)
      invariant buf[..] == Spliced(was, target, done)
    {
      SpliceByte(was, target, done, v % 128 + 128);
      buf[end] := v % 128 + 128;
      assert done + Varint.Encode(v) == done + [v % 128 + 128] + Varint.Encode(v / 128);
      done := done + [v % 128 + 128];
      v, end := v / 128, end + 1;
    }
    SpliceByte(was, target, done, v);
    buf[end] := v;
    end := end + 1;
  }

  method WriteFixedToArray(n: nat, k: nat, buf: array<byte>, target: nat) returns (end: nat)
    requires target + k <= buf.Length
    modifies buf
    ensures end == target + k && buf[..] == Spliced(old(buf[..]), target, Varint.EncodeFixed(n, k))
  {
    ghost var was, done: Bytes := buf[..], [];
    var v, left := n, k;
    end := target;
    while left > 0
      invariant end == target + |done| && |done| + left == k
      invariant done + Varint.EncodeFixed(v, left) == Varint.EncodeFixed(n, k)
      invariant buf[..] == Spliced(was, target, done)
    {
      SpliceByte(was, target, done, v % 256);
      buf[end] := v % 256;
      assert done + Varint.EncodeFixed(v, left) == done + [v % 256] + Varint.EncodeFixed(v / 256, left - 1);
      done := done + [v % 256];
      v, left, end := v / 256, left - 1, end + 1;
    }
    assert done + [] == done;
  }

  /** WriteStringToArray: tag, length and bytes written at `target` on. */
  method WriteStringToArray(num: nat, text: Bytes, buf: array<byte>, target: nat) returns (end: nat)
    requires target + |EncodeField(BytesField(num, text))| <= buf.Length
    modifies buf
    ensures end == target + |EncodeField(BytesField(num, text))|
    ensures buf[..] == Spliced(old(buf[..]), target, EncodeField(BytesField(num, text)))
  {
    ghost var was, tag := buf[..], Varint.Encode(num * 8 + LENGTH_DELIMITED);
    ghost var payload := EncodePayload(BytesField(num, text));
    assert EncodeField(BytesField(num, text)) == tag + payload;
    hide *;
    end := WriteVarintToArray(num * 8 + LENGTH_DELIMITED, buf, target);
    end := WriteBytesToArray(num, text, buf, end);
    SpliceTwice(was, target, tag, payload);
  }

  method WriteBytesToArray(num: nat, text: Bytes, buf: array<byte>, target: nat) returns (end: nat)
    requires target + |EncodePayload(BytesField(num, text))| <= buf.Length
    modifies buf
    ensures end == target + |EncodePayload(BytesField(num, text))|
    ensures buf[..] == Spliced(old(buf[..]), target, EncodePayload(BytesField(num, text)))
  {
    ghost var was, size := buf[..], Varint.Encode(|text|);
    assert EncodePayload(BytesField(num, text)) == size + text;
    hide *;
    end := WriteVarintToArray(|text|, buf, target);
    end := CopyBytes(buf, end, text);
    SpliceTwice(was, target, size, text);
  }

  method WriteGroupToArray(num: nat, fields: seq<Field>, buf: array<byte>, target: nat) returns (end: nat)
    requires target + |EncodePayload(GroupField(num, fields))| <= buf.Length
    modifies buf
    ensures end == target + |EncodePayload(GroupField(num, fields))|
    ensures buf[..] == Spliced(old(buf[..]), target, EncodePayload(GroupField(num, fields)))
    decreases fields, 2
  {
    ghost var was, inner, close := buf[..], EncodeFields(fields), Varint.Encode(num * 8 + END_GROUP);
    assert EncodePayload(GroupField(num, fields)) == inner + close;
    hide *;
    end := WriteFieldsToArray(fields, buf, target);
    end := WriteVarintToArray(num * 8 + END_GROUP, buf, end);
    SpliceTwice(was, target, inner, close);
  }

  method WritePayloadToArray(f: Field, buf: array<byte>, target: nat) returns (end: nat)
    requires target + |EncodePayload(f)| <= buf.Length
    modifies buf
    ensures end == target + |EncodePayload(f)| && buf[..] == Spliced(old(buf[..]), target, EncodePayload(f))
    decreases f, 0
  {
    match f
    case VarintField(_, v) => end := WriteVarintToArray(v, buf, target);
    case Fixed64Field(_, v) => end := WriteFixedToArray(v, 8, buf, target);
    case BytesField(num, text) => end := WriteBytesToArray(num, text, buf, target);
    case GroupField(num, fields) => end := WriteGroupToArray(num, fields, buf, target);
    case Fixed32Field(_, w) => end := WriteFixedToArray(w, 4, buf, target);
  }

  method WriteFieldToArray(f: Field, buf: array<byte>, target: nat) returns (end: nat)
    requires target + |EncodeField(f)| <= buf.Length
    modifies buf
    ensures end == target + |EncodeField(f)| && buf[..] == Spliced(old(buf[..]), target, EncodeField(f))
    decreases f, 1
  {
    ghost var was, tag, payload := buf[..], Varint.Encode(TagOf(f)), EncodePayload(f);
    assert EncodeField(f) == tag + payload;
    hide *;
    end := WriteVarintToArray(TagOf(f), buf, target);
    end := WritePayloadToArray(f, buf, end);
    SpliceTwice(was, target, tag, payload);
  }

  /** SerializeUnknownFieldsToArray. */
  method WriteFieldsToArray(fs: seq<Field>, buf: array<byte>, target: nat) returns (end: nat)
    requires target + |EncodeFields(fs)| <= buf.Length
    modifies buf
    ensures end == target + |EncodeFields(fs)| && buf[..] == Spliced(old(buf[..]), target, EncodeFields(fs))
    decreases fs, 1
  {
    ghost var was, done: Bytes := buf[..], [];
    end := target;
    for i := 0 to |fs|
      invariant end == target + |done| && done + EncodeFields(fs[i..]) == EncodeFields(fs)
      invariant buf[..] == Spliced(was, target, done)
    {
      FieldsNext(fs, i, done);
      end := WriteFieldToArray(fs[i], buf, end);
      SpliceTwice(was, target, done, EncodeField(fs[i]));
      done := done + EncodeField(fs[i]);
    }
    assert done + [] == done;
  }

  lemma FieldsNext(fs: seq<Field>, i: nat, done: Bytes)
    requires i < |fs|
    ensures done + EncodeFields(fs[i..]) == done + EncodeField(fs[i]) + EncodeFields(fs[i + 1..])
  {
    assert fs[i..][1..] == fs[i + 1..];
  }
}
