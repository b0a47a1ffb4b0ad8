/** The UTF-8 check behind message and name validation (src/common/validator.cc:24-68), against the
    encoding of sections 3 and 4 of RFC 3629. Masks and shifts are written as division and remainder. */
module Utf8 {
  import opened Wrappers

  // ---------------------------------------------------------------- the encoding

  /** A Unicode scalar value: a code point that is not a surrogate. */
  predicate Scalar(c: int) {
    0 <= c <= 0x10ffff && !(0xd800 <= c <= 0xdfff)
  }

  /** C0, DEL or C1. */
  predicate Control(c: int) {
    c <= 0x1f || 0x7f <= c <= 0x9f
  }

  function Encode(c: int): Bytes
    requires Scalar(c)
  {
    if c < 0x80 then [c]
    else if c < 0x800 then [0xc0 + c / 64, 0x80 + c % 64]
    else if c < 0x10000 then [0xe0 + c / 4096, 0x80 + c / 64 % 64, 0x80 + c % 64]
    else [0xf0 + c / 262144, 0x80 + c / 4096 % 64, 0x80 + c / 64 % 64, 0x80 + c % 64]
  }

  predicate Scalars(text: seq<int>) {
    forall i :: 0 <= i < |text| ==> Scalar(text[i])
  }

  function EncodeAll(text: seq<int>): Bytes
    requires Scalars(text)
  {
    if text == [] then [] else EncodeAll(text[..|text| - 1]) + Encode(text[|text| - 1])
  }

  ghost predicate HasControl(text: seq<int>) {
    exists i :: 0 <= i < |text| && Control(text[i])
  }

  // ---------------------------------------------------------------- one character

  /** How many bytes a lead byte announces; 0 for a byte that cannot lead. */
  function Length(lead: byte): nat {
    if lead <= 0x7f then 1
    else if lead / 32 == 6 then 2
    else if lead / 16 == 14 then 3
    else if lead / 8 == 30 then 4
    else 0
  }

  function Payload(lead: byte): nat {
    if lead <= 0x7f then lead
    else if lead / 32 == 6 then lead % 32
    else if lead / 16 == 14 then lead % 16
    else lead % 8
  }

  /** The payload bits of a lead value and its continuation bytes. */
  function Value(start: nat, tail: Bytes): nat {
    if tail == [] then start else Value(start, tail[..|tail| - 1]) * 64 + tail[|tail| - 1] % 64
  }

  predicate Continuations(tail: Bytes) {
    forall i :: 0 <= i < |tail| ==> tail[i] / 64 == 2
  }

  /** Too many bytes for the value, beyond the last code point, or a surrogate. */
  predicate Rejected(length: nat, c: nat) {
    || (length == 2 && c < 0x80) || (length == 3 && c < 0x800) || (length == 4 && c < 0x10000)
    || c > 0x10ffff || 0xd800 <= c <= 0xdfff
  }

  /** The code point at the front of some bytes, if there is a well-formed one. */
  function First(b: Bytes): Option<int>
    requires b != []
  {
    var length := Length(b[0]);
    if length == 0 || length > |b| || !Continuations(b[1..length]) then None
    else
      var c := Value(Payload(b[0]), b[1..length]);
      if Rejected(length, c) then None else Some(c)
  }

  lemma Values(start: nat, tail: Bytes)
    ensures |tail| == 1 ==> Value(start, tail) == start * 64 + tail[0] % 64
    ensures |tail| == 2 ==> Value(start, tail) == (start * 64 + tail[0] % 64) * 64 + tail[1] % 64
    ensures |tail| == 3 ==> Value(start, tail) == ((start * 64 + tail[0] % 64) * 64 + tail[1] % 64) * 64 + tail[2] % 64
  {
    if |tail| == 2 {
      Values(start, tail[..1]);
    } else if |tail| == 3 {
      Values(start, tail[..2]);
    }
  }

  /** Base-64 digits: splitting and joining are inverse. */
  lemma Digit(high: nat, low: nat)
    requires low < 64
    ensures (high * 64 + low) / 64 == high && (high * 64 + low) % 64 == low
  {
  }

  lemma Digits(c: nat)
    ensures c / 4096 == c / 64 / 64 && c / 262144 == c / 64 / 64 / 64 && c / 4096 % 64 == c / 64 / 64 % 64
    ensures c / 64 * 64 + c % 64 == c
    ensures (c / 4096 * 64 + c / 64 % 64) * 64 + c % 64 == c
    ensures ((c / 262144 * 64 + c / 4096 % 64) * 64 + c / 64 % 64) * 64 + c % 64 == c
  {
  }

  lemma Sound2(a: byte, x: byte, c: nat)
    requires Length(a) == 2 && x / 64 == 2
    requires c == Payload(a) * 64 + x % 64 && !Rejected(2, c)
    ensures Scalar(c) && Encode(c) == [a, x]
  {
    Digit(Payload(a), x % 64);
  }

  lemma Sound3(a: byte, x: byte, y: byte, c: nat)
    requires Length(a) == 3 && x / 64 == 2 && y / 64 == 2
    requires c == (Payload(a) * 64 + x % 64) * 64 + y % 64 && !Rejected(3, c)
    ensures Scalar(c) && Encode(c) == [a, x, y]
  {
    Digit(Payload(a), x % 64);
    Digit(Payload(a) * 64 + x % 64, y % 64);
    Digits(c);
  }

  lemma Sound4(a: byte, x: byte, y: byte, z: byte, c: nat)
    requires Length(a) == 4 && x / 64 == 2 && y / 64 == 2 && z / 64 == 2
    requires c == ((Payload(a) * 64 + x % 64) * 64 + y % 64) * 64 + z % 64 && !Rejected(4, c)
    ensures Scalar(c) && Encode(c) == [a, x, y, z]
  {
    Digit(Payload(a), x % 64);
    Digit(Payload(a) * 64 + x % 64, y % 64);
    Digit((Payload(a) * 64 + x % 64) * 64 + y % 64, z % 64);
    Digits(c);
  }

  /** What First finds is a scalar value, and its encoding is there. */
  lemma FirstIsSound(b: Bytes)
    requires b != [] && First(b).Some?
    ensures Scalar(First(b).value) && Encode(First(b).value) == b[..Length(b[0])] <= b
  {
    var length := Length(b[0]);
    var tail, c := b[1..length], First(b).value;
    Values(Payload(b[0]), tail);
    hide Encode, Value, Rejected, Payload;
    if length == 1 {
      FirstAscii(b);
    } else if length == 2 {
      Sound2(b[0], tail[0], c);
      assert b[..2] == [b[0], tail[0]];
    } else if length == 3 {
      Sound3(b[0], tail[0], tail[1], c);
      assert b[..3] == [b[0], tail[0], tail[1]];
    } else {
      Sound4(b[0], tail[0], tail[1], tail[2], c);
      assert b[..4] == [b[0], tail[0], tail[1], tail[2]];
    }
  }

  lemma FirstAscii(b: Bytes)
    requires b != [] && Length(b[0]) == 1
    ensures First(b) == Some(b[0]) && Scalar(b[0]) && Encode(b[0]) == b[..1]
  {
    assert b[1..1] == [];
  }

  /** The lead byte of an encoding announces its length, and the other bytes continue it. */
  lemma EncodeShape(c: int)
    requires Scalar(c)
    ensures var e := Encode(c);
      1 <= |e| <= 4 && Length(e[0]) == |e| && Continuations(e[1..]) && !Rejected(|e|, c)
  {
  }

  lemma Low(d: nat)
    requires d < 64
    ensures (0x80 + d) % 64 == d
  {
  }

  lemma Leads(c: nat)
    ensures c < 0x80 ==> Payload(c) == c
    ensures c < 0x800 ==> Payload(0xc0 + c / 64) == c / 64
    ensures c < 0x10000 ==> Payload(0xe0 + c / 4096) == c / 4096
    ensures c < 0x200000 ==> Payload(0xf0 + c / 262144) == c / 262144
  {
  }

  /** The bits of an encoding are the code point. */
  lemma EncodeBits(c: int)
    requires Scalar(c)
    ensures var e := Encode(c);
      && (|e| == 1 ==> Payload(e[0]) == c)
      && (|e| == 2 ==> Payload(e[0]) * 64 + e[1] % 64 == c)
      && (|e| == 3 ==> (Payload(e[0]) * 64 + e[1] % 64) * 64 + e[2] % 64 == c)
  {
    Digits(c);
    Leads(c);
    hide Payload;
    if c < 0x80 {
    } else if c < 0x800 {
      Low(c % 64);
    } else if c < 0x10000 {
      Low(c % 64);
      Low(c / 64 % 64);
    }
  }

  lemma EncodeBits4(c: int)
    requires Scalar(c) && c >= 0x10000
    ensures var e := Encode(c); ((Payload(e[0]) * 64 + e[1] % 64) * 64 + e[2] % 64) * 64 + e[3] % 64 == c
  {
    Digits(c);
    Leads(c);
    hide Payload;
    Low(c % 64);
    Low(c / 64 % 64);
    Low(c / 4096 % 64);
  }

  /** First finds every encoded scalar value. */
  lemma FirstIsComplete(c: int, b: Bytes)
    requires Scalar(c) && Encode(c) <= b
    ensures First(b) == Some(c) && Length(b[0]) == |Encode(c)|
  {
    EncodeShape(c);
    EncodeBits(c);
    if c >= 0x10000 { EncodeBits4(c); }
    hide Encode, Rejected, Payload, Length;
    var e := Encode(c);
    assert e == b[..|e|] && b[0] == e[0];
    var tail := b[1..|e|];
    assert tail == e[1..];
    Values(Payload(e[0]), tail);
    assert |e| == 1 ==> Value(Payload(e[0]), tail) == c;
  }

  /** No character's encoding starts another's. */
  lemma PrefixFree(c: int, d: int, b: Bytes)
    requires Scalar(c) && Scalar(d) && Encode(c) <= b && Encode(d) <= b
    ensures c == d
  {
    FirstIsComplete(c, b);
    FirstIsComplete(d, b);
  }

  // ---------------------------------------------------------------- the decoder

  /** One turn of the decoder's loop: reads the code point at i, or fails. */
  method Next(value: Bytes, i: nat) returns (ok: bool, length: nat, c: nat)
    requires i < |value|
    ensures ok <==> First(value[i..]).Some?
    ensures ok ==> First(value[i..]) == Some(c) && length == Length(value[i]) <= |value| - i
  {
    var lead := value[i];
    ghost var b := value[i..];
    length, c := Length(lead), Payload(lead);
    if length == 0 || i + length > |value| {
      return false, length, c;
    }
    var j := 1;
    while j < length
      invariant 1 <= j <= length
      invariant Continuations(b[1..j]) && c == Value(Payload(lead), b[1..j])
    {
      assert b[j] == value[i + j];
      if value[i + j] / 64 != 2 {
        assert b[1..length][j - 1] / 64 != 2;
        return false, length, c;
      }
      assert b[1..j + 1][..|b[1..j + 1]| - 1] == b[1..j];
      c := c * 64 + value[i + j] % 64;
      j := j + 1;
    }
    ok := !Rejected(length, c);
  }

  /** Text is the longest decodable start of the bytes, and nothing decodable follows it. */
  ghost predicate Decoded(value: Bytes, text: seq<int>) {
    && Scalars(text)
    && EncodeAll(text) <= value
    && forall c :: Scalar(c) ==> !(Encode(c) <= value[|EncodeAll(text)|..])
  }

  ghost predicate WellFormed(value: Bytes) {
    exists text :: Scalars(text) && EncodeAll(text) == value
  }

  /** Accepts exactly the concatenations of encoded scalar values, and reports the number of characters
      and whether one of them is a control; on rejected bytes, those of the part before the fault. */
  method DecodeUtf8(value: Bytes) returns (ok: bool, count: nat, control: bool)
    ensures ok <==> WellFormed(value)
    ensures exists text :: Decoded(value, text)
    ensures forall text :: Decoded(value, text) ==> count == |text| && (control <==> HasControl(text))
  {
    count, control := 0, false;
    var i := 0;
    ghost var text := [];
    while i < |value|
      invariant i <= |value|
      invariant Scalars(text) && EncodeAll(text) == value[..i]
      invariant count == |text| && (control <==> HasControl(text))
      decreases |value| - i
    {
      var more, length, c := Next(value, i);
      if !more {
        Stuck(value, text, i);
        OneDecoding(value, text);
        return false, count, control;
      }
      Extend(value, text, i);
      text := text + [c];
      if Control(c) {
        control := true;
      }
      count := count + 1;
      i := i + length;
    }
    assert value[..i] == value;
    WholeIsLongest(value, text);
    OneDecoding(value, text);
    ok := true;
  }

  lemma Extend(value: Bytes, text: seq<int>, i: nat)
    requires i < |value| && Scalars(text) && EncodeAll(text) == value[..i] && First(value[i..]).Some?
    ensures var c, length := First(value[i..]).value, Length(value[i]);
      && 0 < length <= |value| - i && Scalars(text + [c])
      && EncodeAll(text + [c]) == value[..i + length]
      && (HasControl(text + [c]) <==> HasControl(text) || Control(c))
  {
    var b := value[i..];
    FirstIsSound(b);
    var c, length := First(b).value, Length(b[0]);
    var next := text + [c];
    assert next[..|next| - 1] == text;
    assert value[..i] + b[..length] == value[..i + length];
    if HasControl(text) {
      var k :| 0 <= k < |text| && Control(text[k]);
      assert Control(next[k]);
    }
    if Control(c) { assert Control(next[|text|]); }
  }

  lemma Stuck(value: Bytes, text: seq<int>, i: nat)
    requires i < |value| && Scalars(text) && EncodeAll(text) == value[..i] && First(value[i..]).None?
    ensures Decoded(value, text)
  {
    forall c | Scalar(c) ensures !(Encode(c) <= value[i..]) {
      if Encode(c) <= value[i..] { FirstIsComplete(c, value[i..]); }
    }
  }

  /** For well-formed bytes the longest decoding is that of all of them. */
  lemma WholeIsLongest(value: Bytes, text: seq<int>)
    requires Scalars(text) && EncodeAll(text) == value
    ensures Decoded(value, text)
  {
    assert value[|value|..] == [];
  }

  lemma {:induction false} EncodeAllPrefix(text: seq<int>, k: nat)
    requires Scalars(text) && k <= |text|
    ensures EncodeAll(text[..k]) <= EncodeAll(text)
    decreases |text|
  {
    if k == |text| {
      assert text[..k] == text;
    } else {
      var init := text[..|text| - 1];
      assert init[..k] == text[..k];
      EncodeAllPrefix(init, k);
    }
  }

  lemma StartsRest(a: Bytes, b: Bytes, value: Bytes)
    requires a + b <= value
    ensures a <= value && b <= value[|a|..]
  {
    assert value[..|a + b|][|a|..] == b;
  }

  /** The bytes after an encoded start are where its next character is encoded. */
  lemma NextEncoded(value: Bytes, text: seq<int>, k: nat)
    requires Scalars(text) && k < |text| && EncodeAll(text) <= value
    ensures EncodeAll(text[..k]) <= value && Encode(text[k]) <= value[|EncodeAll(text[..k])|..]
  {
    hide Encode;
    EncodeAllPrefix(text, k + 1);
    assert text[..k + 1][..k] == text[..k];
    StartsRest(EncodeAll(text[..k]), Encode(text[k]), value);
  }

  /** Whatever else decodes a start of the bytes is a start of the longest decoding. */
  lemma {:induction false} LongestDecoding(value: Bytes, text: seq<int>, other: seq<int>)
    requires Decoded(value, text) && Scalars(other) && EncodeAll(other) <= value
    ensures other <= text
    decreases |other|
  {
    if other != [] {
      hide EncodeAll, Encode;
      var k := |other| - 1;
      NextEncoded(value, other, k);
      LongestDecoding(value, text, other[..k]);
      var init := other[..k];
      if init != text {
        assert init == text[..k];
        NextEncoded(value, text, k);
        PrefixFree(other[k], text[k], value[|EncodeAll(init)|..]);
      }
    }
  }

  /** The longest decoding is the only one, and decides whether the bytes are well formed. */
  lemma OneDecoding(value: Bytes, text: seq<int>)
    requires Decoded(value, text)
    ensures forall other :: Decoded(value, other) ==> other == text
    ensures WellFormed(value) <==> EncodeAll(text) == value
  {
    forall other | Decoded(value, other) ensures other == text {
      LongestDecoding(value, text, other);
      LongestDecoding(value, other, text);
    }
    if WellFormed(value) {
      var other :| Scalars(other) && EncodeAll(other) == value;
      LongestDecoding(value, text, other);
      EncodeAllPrefix(text, |other|);
      assert text[..|other|] == other;
    }
  }
}
