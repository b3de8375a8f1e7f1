/**
 UTF-16 code units, as section 2 of RFC 2781 defines them, and the length in code units that
 activity snapshots use to refer to transcript text. Python text is a sequence of code points;
 a lone surrogate cannot be encoded.
 */
module Utf16 {
  import opened Common

  type CodePoint = c: int | 0 <= c < 0x110000
  type Unit = u: int | 0 <= u < 0x10000
  type Byte = b: int | 0 <= b < 0x100
  type Text = seq<CodePoint>

  predicate Surrogate(c: int) {
    0xD800 <= c < 0xE000
  }

  /** Text that `encode("utf-16-le")` accepts. */
  predicate Encodable(t: Text) {
    forall i :: 0 <= i < |t| ==> !Surrogate(t[i])
  }

  function EncodePoint(c: CodePoint): (us: seq<Unit>)
    ensures |us| == if c < 0x10000 then 1 else 2
  {
    if c < 0x10000 then [c]
    else [0xD800 + (c - 0x10000) / 0x400, 0xDC00 + (c - 0x10000) % 0x400]
  }

  function Encode(t: Text): seq<Unit> {
    if t == [] then [] else EncodePoint(t[0]) + Encode(t[1..])
  }

  function Joined(h: Unit, l: Unit): (c: CodePoint)
    requires 0xD800 <= h < 0xDC00 <= l < 0xE000
    ensures c >= 0x10000
  {
    var high: int, low: int := h - 0xD800, l - 0xDC00;
    0x10000 + high * 0x400 + low
  }

  /** Section 2.2: None where a surrogate does not stand in a pair. */
  function Decode(us: seq<Unit>): Option<Text> {
    if us == [] then Some([])
    else if !Surrogate(us[0]) then
      var rest := Decode(us[1..]);
      if rest.None? then None else Some([us[0]] + rest.value)
    else if us[0] >= 0xDC00 || |us| == 1 || !(0xDC00 <= us[1] < 0xE000) then None
    else
      var c := Joined(us[0], us[1]);
      var rest := Decode(us[2..]);
      if rest.None? then None else Some([c] + rest.value)
  }

  /** The little-endian byte form. */
  function Bytes(us: seq<Unit>): seq<Byte> {
    if us == [] then [] else [us[0] % 0x100, us[0] / 0x100] + Bytes(us[1..])
  }

  /** `len(value.encode("utf-16-le")) // 2`; None stands for the encoding error. */
  function Utf16Length(t: Text): Option<nat> {
    if Encodable(t) then Some(|Bytes(Encode(t))| / 2) else None
  }

  lemma {:induction false} BytesPerUnit(us: seq<Unit>)
    ensures |Bytes(us)| == 2 * |us|
  {
    if us != [] {
      BytesPerUnit(us[1..]);
    }
  }

  function Supplementary(t: Text): nat {
    if t == [] then 0 else (if t[0] >= 0x10000 then 1 else 0) + Supplementary(t[1..])
  }

  lemma {:induction false} EncodedUnits(t: Text)
    ensures |Encode(t)| == |t| + Supplementary(t)
  {
    if t != [] {
      EncodedUnits(t[1..]);
    }
  }

  /** The length counts code units: one a code point, two outside the basic plane. */
  lemma LengthCountsUnits(t: Text)
    ensures Encodable(t) <==> Utf16Length(t).Some?
    ensures Encodable(t) ==> Utf16Length(t) == Some(|Encode(t)|) && |Encode(t)| == |t| + Supplementary(t)
  {
    BytesPerUnit(Encode(t));
    EncodedUnits(t);
  }

  lemma Associative<T>(x: seq<T>, y: seq<T>, z: seq<T>)
    ensures x + (y + z) == x + y + z
  {
  }

  lemma {:induction false} EncodeConcat(a: Text, b: Text)
    ensures Encode(a + b) == Encode(a) + Encode(b)
  {
    if a == [] {
      assert a + b == b;
    } else {
      EncodeConcat(a[1..], b);
      assert (a + b)[0] == a[0] && (a + b)[1..] == a[1..] + b;
      Associative(EncodePoint(a[0]), Encode(a[1..]), Encode(b));
    }
  }

  /** Lengths add up, and a concatenation is encodable exactly when both parts are. */
  lemma LengthAdds(a: Text, b: Text)
    ensures Utf16Length(a + b).Some? <==> Utf16Length(a).Some? && Utf16Length(b).Some?
    ensures Utf16Length(a + b).Some? ==> Utf16Length(a + b).value == Utf16Length(a).value + Utf16Length(b).value
  {
    LengthCountsUnits(a);
    LengthCountsUnits(b);
    LengthCountsUnits(a + b);
    EncodeConcat(a, b);
    assert Encodable(a + b) ==> Encodable(a) && Encodable(b) by {
      if Encodable(a + b) {
        assert forall i :: 0 <= i < |a| ==> a[i] == (a + b)[i];
        assert forall i :: 0 <= i < |b| ==> b[i] == (a + b)[|a| + i];
      }
    }
  }

  lemma PairRoundTrip(c: CodePoint)
    requires c >= 0x10000
    ensures var us := EncodePoint(c);
      && 0xD800 <= us[0] < 0xDC00 <= us[1] < 0xE000
      && Joined(us[0], us[1]) == c
  {
  }

  /** Decoding undoes encoding, so equal units mean equal text. */
  lemma {:induction false} DecodeUndoesEncode(t: Text)
    requires Encodable(t)
    ensures Decode(Encode(t)) == Some(t)
  {
    if t != [] {
      var rest := t[1..];
      assert Encodable(rest);
      DecodeUndoesEncode(rest);
      assert t == [t[0]] + rest;
      if t[0] < 0x10000 {
        assert !Surrogate(t[0]);
        assert Encode(t)[1..] == Encode(rest);
      } else {
        PairRoundTrip(t[0]);
        assert Encode(t)[2..] == Encode(rest);
      }
    }
  }

  /** Every well-formed unit sequence is the encoding of exactly what it decodes to. */
  lemma {:induction false} EncodeUndoesDecode(us: seq<Unit>)
    requires Decode(us).Some?
    ensures Encodable(Decode(us).value) && Encode(Decode(us).value) == us
  {
    if us != [] {
      if !Surrogate(us[0]) {
        EncodeUndoesDecode(us[1..]);
        assert Decode(us).value[1..] == Decode(us[1..]).value;
      } else {
        EncodeUndoesDecode(us[2..]);
        var c := Decode(us).value[0];
        assert Decode(us).value[1..] == Decode(us[2..]).value;
        PairUndone(us[0], us[1]);
        assert us == [us[0], us[1]] + us[2..];
      }
    }
  }

  lemma PairUndone(h: Unit, l: Unit)
    requires 0xD800 <= h < 0xDC00 <= l < 0xE000
    ensures EncodePoint(Joined(h, l)) == [h, l]
  {
    var d: int := Joined(h, l) - 0x10000;
    assert d / 0x400 == h - 0xD800 && d % 0x400 == l - 0xDC00;
  }
}
