/**
 UTF-8 as RFC 3629, sections 3 and 4, defines it, and the decoder that skips what is not
 well formed, as `bytes.decode("utf-8", errors="ignore")` does. That decoder drops the
 longest ill-formed piece at once; dropping one byte at a time gives the same text, because
 what remains of such a piece are continuation bytes, which never start a character
 (ContinuationsVanish below).
 */
module Utf8 {
  import opened Wrappers

  type Scalar = c: int | 0 <= c < 0xD800 || 0xE000 <= c <= 0x10FFFF

  type Byte = b: int | 0 <= b < 256

  type Text = seq<Scalar>

  function EncodeOne(c: Scalar): seq<Byte> {
    if c < 0x80 then [c]
    else if c < 0x800 then [0xC0 + c / 64, 0x80 + c % 64]
    else if c < 0x1_0000 then [0xE0 + c / 64 / 64, 0x80 + c / 64 % 64, 0x80 + c % 64]
    else [0xF0 + c / 64 / 64 / 64, 0x80 + c / 64 / 64 % 64, 0x80 + c / 64 % 64, 0x80 + c % 64]
  }

  function Encode(text: Text): seq<Byte> {
    if text == [] then [] else EncodeOne(text[0]) + Encode(text[1..])
  }

  predicate Continuation(b: Byte) {
    0x80 <= b < 0xC0
  }

  /** The ranges of a second byte that exclude overlong forms, surrogates and values above 10FFFF. */
  predicate SecondByte(first: Byte, b: Byte) {
    if first == 0xE0 then 0xA0 <= b < 0xC0
    else if first == 0xED then 0x80 <= b < 0xA0
    else if first == 0xF0 then 0x90 <= b < 0xC0
    else if first == 0xF4 then 0x80 <= b < 0x90
    else Continuation(b)
  }

  /** The character at the front of the bytes and its length, if the bytes start with a well-formed one. */
  function DecodeOne(bytes: seq<Byte>): Option<(Scalar, nat)>
    requires bytes != []
  {
    var b: int := bytes[0];
    if b < 0x80 then Some((b, 1))
    else if 0xC2 <= b < 0xE0 && |bytes| >= 2 && Continuation(bytes[1]) then
      Some((Value(0, 0, b - 0xC0, bytes[1] - 0x80), 2))
    else if 0xE0 <= b < 0xF0 && |bytes| >= 3 && SecondByte(b, bytes[1]) && Continuation(bytes[2]) then
      Some((Value(0, b - 0xE0, bytes[1] - 0x80, bytes[2] - 0x80), 3))
    else if 0xF0 <= b < 0xF5 && |bytes| >= 4 && SecondByte(b, bytes[1]) && Continuation(bytes[2]) && Continuation(bytes[3]) then
      Some((Value(b - 0xF0, bytes[1] - 0x80, bytes[2] - 0x80, bytes[3] - 0x80), 4))
    else None
  }

  /** The number whose digits in base 64 are given. */
  function Value(d3: int, d2: int, d1: int, d0: int): int {
    ((d3 * 64 + d2) * 64 + d1) * 64 + d0
  }

  function DecodeIgnore(bytes: seq<Byte>): Text
    decreases |bytes|
  {
    if bytes == [] then []
    else match DecodeOne(bytes)
      case Some((c, k)) => [c] + DecodeIgnore(bytes[k..])
      case None => DecodeIgnore(bytes[1..])
  }

  // ---------- the decoder accepts exactly the encodings ----------

  lemma DecodeEncodeOne(c: Scalar, rest: seq<Byte>)
    ensures DecodeOne(EncodeOne(c) + rest) == Some((c, |EncodeOne(c)|))
  {
    Digits(c / 64 / 64 / 64, c / 64 / 64 % 64, c / 64 % 64, c % 64);
    var bytes := EncodeOne(c) + rest;
    assert forall i :: 0 <= i < |EncodeOne(c)| ==> bytes[i] == EncodeOne(c)[i];
  }

  /** Digits below 64 are recovered by division. */
  lemma Digits(d3: int, d2: int, d1: int, d0: int)
    requires 0 <= d2 < 64 && 0 <= d1 < 64 && 0 <= d0 < 64
    ensures var c := Value(d3, d2, d1, d0);
      c % 64 == d0 && c / 64 % 64 == d1 && c / 64 / 64 % 64 == d2 && c / 64 / 64 / 64 == d3
  {
  }

  lemma EncodeDecodeOne(bytes: seq<Byte>)
    requires bytes != [] && DecodeOne(bytes).Some?
    ensures var (c, k) := DecodeOne(bytes).value; 1 <= k <= |bytes| && EncodeOne(c) == bytes[..k]
  {
    var (c, k) := DecodeOne(bytes).value;
    if k == 2 {
      Digits(0, 0, bytes[0] - 0xC0, bytes[1] - 0x80);
    } else if k == 3 {
      Digits(0, bytes[0] - 0xE0, bytes[1] - 0x80, bytes[2] - 0x80);
    } else if k == 4 {
      Digits(bytes[0] - 0xF0, bytes[1] - 0x80, bytes[2] - 0x80, bytes[3] - 0x80);
    }
  }

  lemma DecodeOneMore(c: Scalar, rest: seq<Byte>)
    ensures DecodeIgnore(EncodeOne(c) + rest) == [c] + DecodeIgnore(rest)
  {
    DecodeEncodeOne(c, rest);
    assert (EncodeOne(c) + rest)[|EncodeOne(c)|..] == rest;
  }

  /** Well-formed bytes decode to the text they encode, whatever follows them. */
  lemma {:induction false} DecodeEncode(text: Text, rest: seq<Byte>)
    ensures DecodeIgnore(Encode(text) + rest) == text + DecodeIgnore(rest)
  {
    if text == [] {
      assert Encode(text) + rest == rest;
    } else {
      Regroup(EncodeOne(text[0]), Encode(text[1..]), rest);
      DecodeOneMore(text[0], Encode(text[1..]) + rest);
      DecodeEncode(text[1..], rest);
      assert text == [text[0]] + text[1..];
      Regroup([text[0]], text[1..], DecodeIgnore(rest));
    }
  }

  lemma {:induction false} RoundTrip(text: Text)
    ensures DecodeIgnore(Encode(text)) == text
  {
    DecodeEncode(text, []);
    assert Encode(text) + [] == Encode(text);
  }

  lemma {:induction false} ContinuationsVanish(bytes: seq<Byte>, rest: seq<Byte>)
    requires forall i :: 0 <= i < |bytes| ==> Continuation(bytes[i])
    ensures DecodeIgnore(bytes + rest) == DecodeIgnore(rest)
  {
    if bytes == [] {
      assert bytes + rest == rest;
    } else {
      assert DecodeOne(bytes + rest).None?;
      assert (bytes + rest)[1..] == bytes[1..] + rest;
      ContinuationsVanish(bytes[1..], rest);
    }
  }

  /** A character cut short at its end decodes to nothing. */
  lemma CutCharacter(c: Scalar, n: nat)
    requires n < |EncodeOne(c)|
    ensures DecodeIgnore(EncodeOne(c)[..n]) == []
  {
    var cut := EncodeOne(c)[..n];
    if n > 0 {
      assert DecodeOne(cut).None?;
      ContinuationsVanish(cut[1..], []);
      assert cut[1..] + [] == cut[1..];
    }
  }

  lemma {:induction false} EncodeConcat(a: Text, b: Text)
    ensures Encode(a + b) == Encode(a) + Encode(b)
  {
    if a == [] {
      assert a + b == b;
    } else {
      assert (a + b)[1..] == a[1..] + b;
      EncodeConcat(a[1..], b);
    }
  }

  // ---------- cutting encoded text ----------

  /** How many characters from the front fit into n bytes. */
  function FrontCount(text: Text, n: nat): (k: nat)
    ensures k <= |text|
  {
    if text == [] || |EncodeOne(text[0])| > n then 0 else 1 + FrontCount(text[1..], n - |EncodeOne(text[0])|)
  }

  /** Where the longest end of the text that fits into n bytes begins. */
  function BackStart(text: Text, n: nat): (k: nat)
    ensures k <= |text|
  {
    if |Encode(text)| <= n then 0 else 1 + BackStart(text[1..], n)
  }

  /** Decoding the first n bytes gives the longest beginning of the text that fits into them. */
  lemma {:induction false} FirstBytes(text: Text, n: nat)
    requires n <= |Encode(text)|
    ensures var k := FrontCount(text, n);
      DecodeIgnore(Encode(text)[..n]) == text[..k] && |Encode(text[..k])| <= n &&
      (k < |text| ==> |Encode(text[..k + 1])| > n)
  {
    if text != [] {
      var one := EncodeOne(text[0]);
      if |one| > n {
        assert Encode(text)[..n] == one[..n];
        CutCharacter(text[0], n);
        assert text[..1][1..] == [];
        assert Encode(text[..1]) == one + Encode([]);
      } else {
        var k := FrontCount(text[1..], n - |one|);
        FirstBytes(text[1..], n - |one|);
        var rest := Encode(text[1..])[..n - |one|];
        assert Encode(text)[..n] == one + rest;
        DecodeEncodeOne(text[0], rest);
        assert (one + rest)[|one|..] == rest;
        assert text[..k + 1][1..] == text[1..][..k];
        if k + 1 < |text| {
          assert text[..k + 2][1..] == text[1..][..k + 1];
        }
      }
    }
  }

  /** Decoding the last n bytes gives the longest end of the text that fits into them. */
  lemma {:induction false} LastBytes(text: Text, n: nat)
    requires n <= |Encode(text)|
    ensures DecodeIgnore(Encode(text)[|Encode(text)| - n..]) == text[BackStart(text, n)..]
  {
    if |Encode(text)| <= n {
      RoundTrip(text);
      assert text[0..] == text && Encode(text)[0..] == Encode(text);
    } else {
      Behind(text, BackStart(text[1..], n));
      if n <= |Encode(text[1..])| {
        LastBytes(text[1..], n);
        BytesBehindFirst(text, n);
      } else {
        CutAtFront(text, n);
      }
    }
  }

  lemma Behind(text: Text, k: nat)
    requires text != [] && k < |text|
    ensures text[k + 1..] == text[1..][k..]
  {
  }

  lemma BytesBehindFirst(text: Text, n: nat)
    requires text != [] && n <= |Encode(text[1..])|
    ensures Encode(text)[|Encode(text)| - n..] == Encode(text[1..])[|Encode(text[1..])| - n..]
  {
  }

  lemma {:induction false} BackStartIsLeast(text: Text, n: nat)
    ensures var k := BackStart(text, n);
      |Encode(text[k..])| <= n && (k > 0 ==> |Encode(text[k - 1..])| > n)
  {
    if |Encode(text)| <= n {
      assert text[0..] == text;
    } else {
      BackStartIsLeast(text[1..], n);
      var k := BackStart(text[1..], n);
      assert text[k + 1..] == text[1..][k..];
      assert text[k..] == if k == 0 then text else text[1..][k - 1..];
    }
  }

  /** The last bytes reach into the first character, but not to its start. */
  lemma CutAtFront(text: Text, n: nat)
    requires text != [] && |Encode(text[1..])| < n < |Encode(text)|
    ensures DecodeIgnore(Encode(text)[|Encode(text)| - n..]) == text[1..]
  {
    var rest := Encode(text[1..]);
    var cut := EncodeOne(text[0])[|EncodeOne(text[0])| - (n - |rest|)..];
    assert Encode(text)[|Encode(text)| - n..] == cut + rest;
    ContinuationsVanish(cut, rest);
    RoundTrip(text[1..]);
  }
}
