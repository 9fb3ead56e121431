/**
 Telling text from binary: strict UTF-8, UTF-16 with a byte order mark, and UTF-16
 without one when its zero bytes give the byte order away (RFC 3629 and sections 2.1,
 2.2 and 3.2 of RFC 2781).
 */
module Utf16Text {
  import opened Options

  type Byte = x: int | 0 <= x < 0x100
  type Unit = x: int | 0 <= x < 0x10000

  predicate IsScalar(c: int) {
    0 <= c < 0xD800 || 0xE000 <= c < 0x110000
  }

  type Scalar = c: int | 0 <= c < 0xD800 || 0xE000 <= c < 0x110000

  datatype ByteOrder = LittleEndian | BigEndian

  // ---------------------------------------------------------------------------
  // UTF-16 code units

  function EncodeScalar(c: Scalar): (us: seq<Unit>)
    ensures 1 <= |us| <= 2
  {
    if c < 0x10000 then
      var u: Unit := c;
      [u]
    else
      var offset: int := c - 0x10000;
      var high: Unit, low: Unit := 0xD800 + offset / 0x400, 0xDC00 + offset % 0x400;
      [high, low]
  }

  function Encode(text: seq<Scalar>): seq<Unit> {
    if text == [] then [] else EncodeScalar(text[0]) + Encode(text[1..])
  }

  predicate High(u: Unit) { 0xD800 <= u <= 0xDBFF }
  predicate Low(u: Unit) { 0xDC00 <= u <= 0xDFFF }

  /** Every high surrogate is followed by a low one, and every low one follows a high one. */
  predicate Paired(us: seq<Unit>) {
    if us == [] then true
    else if High(us[0]) then |us| >= 2 && Low(us[1]) && Paired(us[2..])
    else !Low(us[0]) && Paired(us[1..])
  }

  function Decode(us: seq<Unit>): seq<Scalar>
    requires Paired(us)
  {
    if us == [] then []
    else if High(us[0]) then [0x10000 + (us[0] - 0xD800) * 0x400 + (us[1] - 0xDC00)] + Decode(us[2..])
    else [us[0]] + Decode(us[1..])
  }

  /** Encoding gives paired units, from which decoding recovers the text. */
  lemma {:induction false} EncodeThenDecode(text: seq<Scalar>)
    ensures Paired(Encode(text)) && Decode(Encode(text)) == text
  {
    if text != [] {
      EncodeThenDecode(text[1..]);
      var first, rest := EncodeScalar(text[0]), Encode(text[1..]);
      assert (first + rest)[|first|..] == rest;
      assert text == [text[0]] + text[1..];
    }
  }

  /** Paired units are the encoding of what they decode to. */
  lemma {:induction false} DecodeThenEncode(us: seq<Unit>)
    requires Paired(us)
    ensures Encode(Decode(us)) == us
  {
    if us != [] {
      var n := if High(us[0]) then 2 else 1;
      DecodeThenEncode(us[n..]);
      assert Decode(us)[1..] == Decode(us[n..]);
      assert us == us[..n] + us[n..];
      assert EncodeScalar(Decode(us)[0]) == us[..n];
    }
  }

  /** Accepts exactly the encodings of sequences of Unicode scalar values. */
  method ValidUtf16Units(us: seq<Unit>) returns (ok: bool)
    ensures ok <==> Paired(us)
    ensures ok <==> exists text: seq<Scalar> :: Encode(text) == us
  {
    var index := 0;
    ok := true;
    assert us[0..] == us;
    while index < |us| && ok
      invariant 0 <= index <= |us|
      invariant Paired(us) <==> ok && Paired(us[index..])
      decreases |us| - index, ok
    {
      var unit := us[index];
      assert us[index..][1..] == us[index + 1..];
      if High(unit) {
        if index + 1 >= |us| || !Low(us[index + 1]) {
          ok := false;
        } else {
          assert us[index..][2..] == us[index + 2..];
          index := index + 2;
        }
      } else if Low(unit) {
        ok := false;
      } else {
        index := index + 1;
      }
    }
    if ok {
      DecodeThenEncode(us);
    } else {
      forall text: seq<Scalar>
        ensures Encode(text) != us
      {
        EncodeThenDecode(text);
      }
    }
  }

  // ---------------------------------------------------------------------------
  // Bytes

  function UpperByte(u: Unit): Byte { u / 0x100 }
  function LowerByte(u: Unit): Byte { u % 0x100 }

  /** The two bytes of each unit in turn. */
  function Bytes(us: seq<Unit>, order: ByteOrder): seq<Byte> {
    seq(2 * |us|, k requires 0 <= k < 2 * |us| =>
      if (k % 2 == 1) == order.LittleEndian? then UpperByte(us[k / 2]) else LowerByte(us[k / 2]))
  }

  function Join(upper: Byte, lower: Byte): Unit {
    var n: int := upper;
    n * 0x100 + lower
  }

  function UnitAt(bs: seq<Byte>, i: nat, order: ByteOrder): Unit
    requires 2 * i + 1 < |bs|
  {
    if order.LittleEndian? then Join(bs[2 * i + 1], bs[2 * i]) else Join(bs[2 * i], bs[2 * i + 1])
  }

  lemma BytesAt(us: seq<Unit>, order: ByteOrder, i: nat)
    requires i < |us|
    ensures Bytes(us, order)[2 * i] == if order.LittleEndian? then LowerByte(us[i]) else UpperByte(us[i])
    ensures Bytes(us, order)[2 * i + 1] == if order.LittleEndian? then UpperByte(us[i]) else LowerByte(us[i])
  {
    assert (2 * i) / 2 == i && (2 * i + 1) / 2 == i;
  }

  lemma UnitOfBytes(us: seq<Unit>, order: ByteOrder, i: nat)
    requires i < |us|
    ensures UnitAt(Bytes(us, order), i, order) == us[i]
  {
    BytesAt(us, order, i);
  }

  lemma SplitJoined(upper: Byte, lower: Byte)
    ensures UpperByte(Join(upper, lower)) == upper && LowerByte(Join(upper, lower)) == lower
  {
  }

  lemma PairBack(bs: seq<Byte>, us: seq<Unit>, order: ByteOrder, i: nat)
    requires |bs| == 2 * |us| && i < |us| && us[i] == UnitAt(bs, i, order)
    ensures Bytes(us, order)[2 * i] == bs[2 * i] && Bytes(us, order)[2 * i + 1] == bs[2 * i + 1]
  {
    SplitJoined(bs[2 * i], bs[2 * i + 1]);
    SplitJoined(bs[2 * i + 1], bs[2 * i]);
    BytesAt(us, order, i);
  }

  lemma BytesOfUnits(bs: seq<Byte>, us: seq<Unit>, order: ByteOrder)
    requires |bs| == 2 * |us| && forall i | 0 <= i < |us| :: us[i] == UnitAt(bs, i, order)
    ensures Bytes(us, order) == bs
  {
    forall k | 0 <= k < |bs|
      ensures Bytes(us, order)[k] == bs[k]
    {
      var i := k / 2;
      assert us[i] == UnitAt(bs, i, order);
      PairBack(bs, us, order, i);
      assert k == 2 * i || k == 2 * i + 1;
    }
  }

  // ---------------------------------------------------------------------------
  // UTF-8

  predicate Continuation(b: Byte) { 0x80 <= b < 0xC0 }
  function Low6(b: Byte): int { b % 0x40 }

  /** The scalar at the front of the bytes and how many bytes it takes; none if they are not well formed. */
  function Utf8Front(bs: seq<Byte>): (r: Option<(Scalar, nat)>)
    requires bs != []
    ensures r.Some? ==> 1 <= r.value.1 <= |bs|
  {
    var b: int := bs[0];
    if b < 0x80 then Some((b, 1))
    else if b < 0xC2 then None
    else if b < 0xE0 then
      if |bs| >= 2 && Continuation(bs[1]) then Some(((b - 0xC0) * 0x40 + Low6(bs[1]), 2)) else None
    else if b < 0xF0 then
      if |bs| >= 3 && Continuation(bs[1]) && Continuation(bs[2]) then
        var c := (b - 0xE0) * 0x1000 + Low6(bs[1]) * 0x40 + Low6(bs[2]);
        if c >= 0x800 && IsScalar(c) then Some((c, 3)) else None
      else None
    else if b < 0xF5 then
      if |bs| >= 4 && Continuation(bs[1]) && Continuation(bs[2]) && Continuation(bs[3]) then
        var c := (b - 0xF0) * 0x40000 + Low6(bs[1]) * 0x1000 + Low6(bs[2]) * 0x40 + Low6(bs[3]);
        if 0x10000 <= c < 0x110000 then Some((c, 4)) else None
      else None
    else None
  }

  function Utf8Decode(bs: seq<Byte>): Option<seq<Scalar>> {
    if bs == [] then Some([])
    else
      var front := Utf8Front(bs);
      if front.None? then None
      else
        var rest := Utf8Decode(bs[front.value.1..]);
        if rest.None? then None else Some([front.value.0] + rest.value)
  }

  function Trail(n: nat): Byte { 0x80 + n % 0x40 }

  function Utf8Scalar(c: Scalar): (bs: seq<Byte>)
    ensures 1 <= |bs| <= 4
  {
    var n: nat := c;
    if n < 0x80 then [n]
    else if n < 0x800 then [0xC0 + n / 0x40, Trail(n)]
    else if n < 0x10000 then [0xE0 + n / 0x1000, Trail(n / 0x40), Trail(n)]
    else [0xF0 + n / 0x40000, Trail(n / 0x1000), Trail(n / 0x40), Trail(n)]
  }

  function Utf8Encode(text: seq<Scalar>): seq<Byte> {
    if text == [] then [] else Utf8Scalar(text[0]) + Utf8Encode(text[1..])
  }

  /** Digits of base 0x40, as trailing bytes carry them. */
  lemma LastDigit(q: nat, r: nat)
    requires r < 0x40
    ensures (q * 0x40 + r) / 0x40 == q && Trail(q * 0x40 + r) == 0x80 + r
  {
  }

  lemma LastDigitOf(n: nat)
    ensures n == n / 0x40 * 0x40 + Low6(Trail(n))
  {
  }

  lemma Digits(n: nat)
    ensures n == n / 0x1000 * 0x1000 + Low6(Trail(n / 0x40)) * 0x40 + Low6(Trail(n))
  {
    var q := n / 0x40;
    LastDigitOf(n);
    LastDigitOf(q);
    assert q / 0x40 == n / 0x1000;
  }

  lemma FourDigits(n: nat)
    ensures n == n / 0x40000 * 0x40000 + Low6(Trail(n / 0x1000)) * 0x1000 +
                 Low6(Trail(n / 0x40)) * 0x40 + Low6(Trail(n))
  {
    var q := n / 0x1000;
    Digits(n);
    LastDigitOf(q);
    assert q / 0x40 == n / 0x40000;
  }

  lemma FrontOfShort(c: Scalar, rest: seq<Byte>)
    requires c < 0x800
    ensures Utf8Front(Utf8Scalar(c) + rest) == Some((c, |Utf8Scalar(c)|))
  {
    LastDigitOf(c);
  }

  lemma FrontOfThree(c: Scalar, rest: seq<Byte>)
    requires 0x800 <= c < 0x10000
    ensures Utf8Front(Utf8Scalar(c) + rest) == Some((c, 3))
  {
    Digits(c);
    var bs := Utf8Scalar(c) + rest;
    assert bs[0] == 0xE0 + c / 0x1000 && bs[1] == Trail(c / 0x40) && bs[2] == Trail(c);
  }

  lemma FrontOfFour(c: Scalar, rest: seq<Byte>)
    requires 0x10000 <= c
    ensures Utf8Front(Utf8Scalar(c) + rest) == Some((c, 4))
  {
    FourDigits(c);
    var bs := Utf8Scalar(c) + rest;
    assert bs[0] == 0xF0 + c / 0x40000 && bs[1] == Trail(c / 0x1000) && bs[2] == Trail(c / 0x40) && bs[3] == Trail(c);
  }

  /** The bytes of a scalar, whatever follows them, are read as that scalar. */
  lemma {:induction false} FrontOfScalar(c: Scalar, rest: seq<Byte>)
    ensures Utf8Front(Utf8Scalar(c) + rest) == Some((c, |Utf8Scalar(c)|))
  {
    if c < 0x800 {
      FrontOfShort(c, rest);
    } else if c < 0x10000 {
      FrontOfThree(c, rest);
    } else {
      FrontOfFour(c, rest);
    }
  }

  lemma ThreeJoined(a: nat, b: nat, d: nat)
    requires b < 0x40 && d < 0x40
    ensures var n := a * 0x1000 + b * 0x40 + d;
      n / 0x1000 == a && Trail(n / 0x40) == 0x80 + b && Trail(n) == 0x80 + d
  {
    var q := a * 0x40 + b;
    LastDigit(q, d);
    LastDigit(a, b);
    assert (q * 0x40 + d) / 0x1000 == q / 0x40;
  }

  lemma FourJoined(z: nat, a: nat, b: nat, d: nat)
    requires a < 0x40 && b < 0x40 && d < 0x40
    ensures var n := z * 0x40000 + a * 0x1000 + b * 0x40 + d;
      n / 0x40000 == z && Trail(n / 0x1000) == 0x80 + a && Trail(n / 0x40) == 0x80 + b && Trail(n) == 0x80 + d
  {
    var q := z * 0x40 + a;
    ThreeJoined(q, b, d);
    LastDigit(z, a);
    assert (q * 0x1000 + b * 0x40 + d) / 0x40000 == q / 0x40;
  }

  lemma TwoBytes(bs: seq<Byte>, c: Scalar)
    requires bs != [] && Utf8Front(bs) == Some((c, 2))
    ensures Utf8Scalar(c) == bs[..2]
  {
    LastDigit(bs[0] - 0xC0, Low6(bs[1]));
    assert bs[..2] == [bs[0], bs[1]];
  }

  lemma ThreeBytes(bs: seq<Byte>, c: Scalar)
    requires bs != [] && Utf8Front(bs) == Some((c, 3))
    ensures Utf8Scalar(c) == bs[..3]
  {
    ThreeJoined(bs[0] - 0xE0, Low6(bs[1]), Low6(bs[2]));
    assert bs[..3] == [bs[0], bs[1], bs[2]];
  }

  lemma FourBytes(bs: seq<Byte>, c: Scalar)
    requires bs != [] && Utf8Front(bs) == Some((c, 4))
    ensures Utf8Scalar(c) == bs[..4]
  {
    FourJoined(bs[0] - 0xF0, Low6(bs[1]), Low6(bs[2]), Low6(bs[3]));
    assert bs[..4] == [bs[0], bs[1], bs[2], bs[3]];
  }

  /** What is read as a scalar are the bytes of that scalar. */
  lemma {:induction false} ScalarOfFront(bs: seq<Byte>)
    requires bs != [] && Utf8Front(bs).Some?
    ensures Utf8Scalar(Utf8Front(bs).value.0) == bs[..Utf8Front(bs).value.1]
  {
    var (c, n) := Utf8Front(bs).value;
    if n == 2 {
      TwoBytes(bs, c);
    } else if n == 3 {
      ThreeBytes(bs, c);
    } else if n == 4 {
      FourBytes(bs, c);
    }
  }

  lemma {:induction false} Utf8EncodeThenDecode(text: seq<Scalar>)
    ensures Utf8Decode(Utf8Encode(text)) == Some(text)
  {
    if text != [] {
      var first, rest := Utf8Scalar(text[0]), Utf8Encode(text[1..]);
      FrontOfScalar(text[0], rest);
      assert (first + rest)[|first|..] == rest;
      Utf8EncodeThenDecode(text[1..]);
      assert text == [text[0]] + text[1..];
    }
  }

  lemma {:induction false} Utf8EncodeFirst(c: Scalar, rest: seq<Scalar>)
    ensures Utf8Encode([c] + rest) == Utf8Scalar(c) + Utf8Encode(rest)
  {
    assert ([c] + rest)[1..] == rest;
  }

  lemma {:induction false} Utf8DecodeFirst(bs: seq<Byte>) returns (c: Scalar, n: nat, rest: seq<Scalar>)
    requires bs != [] && Utf8Decode(bs).Some?
    ensures 1 <= n <= |bs| && Utf8Scalar(c) + bs[n..] == bs
    ensures Utf8Decode(bs[n..]) == Some(rest) && Utf8Decode(bs) == Some([c] + rest)
  {
    c, n := Utf8Front(bs).value.0, Utf8Front(bs).value.1;
    rest := Utf8Decode(bs[n..]).value;
    ScalarOfFront(bs);
    assert bs == bs[..n] + bs[n..];
  }

  lemma {:induction false} Utf8DecodeThenEncode(bs: seq<Byte>)
    requires Utf8Decode(bs).Some?
    ensures Utf8Encode(Utf8Decode(bs).value) == bs
    decreases |bs|
  {
    if bs != [] {
      var c, n, rest := Utf8DecodeFirst(bs);
      Utf8DecodeThenEncode(bs[n..]);
      Utf8EncodeFirst(c, rest);
    }
  }

  /** Bytes are read as a text if and only if they are its UTF-8 encoding. */
  lemma Utf8Exactly(bs: seq<Byte>, text: seq<Scalar>)
    ensures Utf8Decode(bs) == Some(text) <==> Utf8Encode(text) == bs
  {
    Utf8EncodeThenDecode(text);
    if Utf8Decode(bs).Some? {
      Utf8DecodeThenEncode(bs);
    }
  }

  // ---------------------------------------------------------------------------
  // The byte order of unmarked text

  /** How many of the first `n` pairs have a zero in their first (`offset` 0) or second (`offset` 1) byte. */
  function Zeros(bs: seq<Byte>, n: nat, offset: nat): (z: nat)
    requires 2 * n <= |bs| && offset <= 1
    ensures z <= n
  {
    if n == 0 then 0 else Zeros(bs, n - 1, offset) + if bs[2 * (n - 1) + offset] == 0 then 1 else 0
  }

  /** Three fifths of the pairs, rounded up, and more than on the other side. */
  function Majority(pairs: nat, little: nat, big: nat): Option<ByteOrder> {
    var minimum := (pairs * 3 + 4) / 5;
    if pairs < 2 then None
    else if little >= minimum && little > big then Some(LittleEndian)
    else if big >= minimum && big > little then Some(BigEndian)
    else None
  }

  function OrderByZeros(bs: seq<Byte>): Option<ByteOrder> {
    Majority(|bs| / 2, Zeros(bs, |bs| / 2, 1), Zeros(bs, |bs| / 2, 0))
  }

  method AlternatingNulByteOrder(bs: seq<Byte>) returns (r: Option<ByteOrder>)
    ensures r == OrderByZeros(bs)
  {
    var pairs := |bs| / 2;
    if pairs < 2 {
      return None;
    }
    var little, big := 0, 0;
    var index := 0;
    while index + 1 < |bs|
      invariant 0 <= index <= |bs| && index % 2 == 0
      invariant little == Zeros(bs, index / 2, 1) && big == Zeros(bs, index / 2, 0)
    {
      if bs[index + 1] == 0 {
        little := little + 1;
      }
      if bs[index] == 0 {
        big := big + 1;
      }
      index := index + 2;
    }
    var minimum := (pairs * 3 + 4) / 5;
    if little >= minimum && little > big {
      return Some(LittleEndian);
    }
    if big >= minimum && big > little {
      return Some(BigEndian);
    }
    r := None;
  }

  predicate IsAscii(text: seq<Scalar>) {
    forall i | 0 <= i < |text| :: 0 < text[i] < 0x80
  }

  lemma {:induction false} AsciiUnits(text: seq<Scalar>)
    requires IsAscii(text)
    ensures |Encode(text)| == |text| && forall i | 0 <= i < |text| :: Encode(text)[i] == text[i]
  {
    if text != [] {
      AsciiUnits(text[1..]);
    }
  }

  lemma {:induction false} AllZeros(bs: seq<Byte>, n: nat, offset: nat)
    requires 2 * n <= |bs| && offset <= 1
    requires forall i | 0 <= i < n :: bs[2 * i + offset] == 0
    ensures Zeros(bs, n, offset) == n
  {
    if n > 0 {
      AllZeros(bs, n - 1, offset);
    }
  }

  lemma {:induction false} NoZeros(bs: seq<Byte>, n: nat, offset: nat)
    requires 2 * n <= |bs| && offset <= 1
    requires forall i | 0 <= i < n :: bs[2 * i + offset] != 0
    ensures Zeros(bs, n, offset) == 0
  {
    if n > 0 {
      NoZeros(bs, n - 1, offset);
    }
  }

  lemma AsciiBytes(text: seq<Scalar>, order: ByteOrder, i: nat)
    requires IsAscii(text) && i < |text| && |Encode(text)| == |text| && Encode(text)[i] == text[i]
    ensures (Bytes(Encode(text), order)[2 * i] == 0) == order.BigEndian?
    ensures (Bytes(Encode(text), order)[2 * i + 1] == 0) == order.LittleEndian?
  {
    BytesAt(Encode(text), order, i);
  }

  lemma ClearMajority(n: nat)
    requires n >= 2
    ensures Majority(n, n, 0) == Some(LittleEndian) && Majority(n, 0, n) == Some(BigEndian)
  {
  }

  lemma ZerosTell(bs: seq<Byte>, n: nat, order: ByteOrder)
    requires |bs| == 2 * n && n >= 2
    requires forall i | 0 <= i < n ::
               (bs[2 * i + 0] == 0) == order.BigEndian? && (bs[2 * i + 1] == 0) == order.LittleEndian?
    ensures OrderByZeros(bs) == Some(order)
  {
    assert |bs| / 2 == n;
    ClearMajority(n);
    if order.LittleEndian? {
      AllZeros(bs, n, 1);
      NoZeros(bs, n, 0);
    } else {
      AllZeros(bs, n, 0);
      NoZeros(bs, n, 1);
    }
  }

  /** Unmarked ASCII text of two or more characters is always given the right byte order. */
  lemma AsciiOrder(text: seq<Scalar>, order: ByteOrder)
    requires IsAscii(text) && |text| >= 2
    ensures OrderByZeros(Bytes(Encode(text), order)) == Some(order)
  {
    AsciiUnits(text);
    var n, bs := |text|, Bytes(Encode(text), order);
    forall i | 0 <= i < n
      ensures (bs[2 * i + 0] == 0) == order.BigEndian? && (bs[2 * i + 1] == 0) == order.LittleEndian?
    {
      AsciiBytes(text, order, i);
    }
    ZerosTell(bs, n, order);
  }

  // ---------------------------------------------------------------------------
  // Text or not

  /** Which characters print is the standard library's table; the model takes it as a parameter. */
  predicate PlausibleChar(c: Scalar, isPrint: Scalar -> bool) {
    c != 0 && c != 0xFFFD && (c == 0x0A || c == 0x0D || c == 0x09 || isPrint(c))
  }

  predicate Plausible(text: seq<Scalar>, isPrint: Scalar -> bool) {
    text != [] && forall i | 0 <= i < |text| :: PlausibleChar(text[i], isPrint)
  }

  method PlausibleText(text: seq<Scalar>, isPrint: Scalar -> bool) returns (ok: bool)
    ensures ok <==> Plausible(text, isPrint)
  {
    if text == [] {
      return false;
    }
    for i := 0 to |text|
      invariant forall k | 0 <= k < i :: PlausibleChar(text[k], isPrint)
    {
      var c := text[i];
      if c == 0 || c == 0xFFFD {
        return false;
      }
      if c == 0x0A || c == 0x0D || c == 0x09 {
        continue;
      }
      if !isPrint(c) {
        return false;
      }
    }
    return true;
  }

  function Mark(order: ByteOrder): seq<Byte> {
    if order.LittleEndian? then [0xFF, 0xFE] else [0xFE, 0xFF]
  }

  ghost predicate PlainUtf8(data: seq<Byte>) {
    0 !in data && exists text: seq<Scalar> :: Utf8Encode(text) == data
  }

  lemma PlainUtf8Decodes(data: seq<Byte>)
    ensures PlainUtf8(data) <==> 0 !in data && Utf8Decode(data).Some?
  {
    if Utf8Decode(data).Some? {
      Utf8Exactly(data, Utf8Decode(data).value);
    }
    if text: seq<Scalar> :| Utf8Encode(text) == data {
      Utf8Exactly(data, text);
    }
  }

  /** How the bytes are read as UTF-16: the byte order and the bytes it applies to. */
  function Layout(data: seq<Byte>): (r: Option<(ByteOrder, seq<Byte>)>)
    ensures r.Some? ==> |data| >= 4 && |r.value.1| > 0 && |r.value.1| % 2 == 0
  {
    if |data| < 4 || |data| % 2 != 0 then None
    else if Mark(LittleEndian) <= data then Some((LittleEndian, data[2..]))
    else if Mark(BigEndian) <= data then Some((BigEndian, data[2..]))
    else if OrderByZeros(data).Some? then Some((OrderByZeros(data).value, data))
    else None
  }

  /**
   What the bytes say: the text whose UTF-8 encoding they are, if they hold no zero byte, else the
   one plausible text whose UTF-16 encoding they are.
   */
  ghost predicate Says(data: seq<Byte>, text: seq<Scalar>, isPrint: Scalar -> bool) {
    if PlainUtf8(data) then Utf8Encode(text) == data
    else
      && Layout(data).Some?
      && Plausible(text, isPrint)
      && Layout(data).value.1 == Bytes(Encode(text), Layout(data).value.0)
  }

  method UnitsOf(payload: seq<Byte>, order: ByteOrder) returns (us: seq<Unit>)
    requires |payload| % 2 == 0
    ensures Bytes(us, order) == payload
  {
    us := [];
    while |us| < |payload| / 2
      invariant |us| <= |payload| / 2
      invariant forall i | 0 <= i < |us| :: us[i] == UnitAt(payload, i, order)
    {
      us := us + [UnitAt(payload, |us|, order)];
    }
    BytesOfUnits(payload, us, order);
  }

  /** Different units have different bytes, and different texts different units. */
  lemma BytesDetermine(us: seq<Unit>, vs: seq<Unit>, order: ByteOrder)
    requires Bytes(us, order) == Bytes(vs, order)
    ensures us == vs
  {
    assert 2 * |us| == |Bytes(us, order)| == |Bytes(vs, order)| == 2 * |vs|;
    forall i | 0 <= i < |us|
      ensures us[i] == vs[i]
    {
      UnitOfBytes(us, order, i);
      UnitOfBytes(vs, order, i);
    }
  }

  lemma SaysOneText(data: seq<Byte>, one: seq<Scalar>, other: seq<Scalar>, isPrint: Scalar -> bool)
    requires Says(data, one, isPrint) && Says(data, other, isPrint)
    ensures one == other
  {
    if PlainUtf8(data) {
      Utf8Exactly(data, one);
      Utf8Exactly(data, other);
    } else {
      BytesDetermine(Encode(one), Encode(other), Layout(data).value.0);
      EncodeThenDecode(one);
      EncodeThenDecode(other);
    }
  }

  /** Finds the text the bytes say, exactly when they say one. */
  method DecodeText(data: seq<Byte>, isPrint: Scalar -> bool) returns (r: Option<seq<Scalar>>)
    ensures r.Some? ==> Says(data, r.value, isPrint)
    ensures r.None? ==> forall text: seq<Scalar> :: !Says(data, text, isPrint)
  {
    PlainUtf8Decodes(data);
    if Utf8Decode(data).Some? && 0 !in data {
      Utf8Exactly(data, Utf8Decode(data).value);
      return Utf8Decode(data);
    }
    if |data| < 4 || |data| % 2 != 0 {
      return None;
    }
    var payload, order := data, LittleEndian;
    if [0xFF, 0xFE] <= data {
      payload := data[2..];
    } else if [0xFE, 0xFF] <= data {
      order, payload := BigEndian, data[2..];
    } else {
      var guess := AlternatingNulByteOrder(data);
      if guess.None? {
        return None;
      }
      order := guess.value;
    }
    assert Layout(data) == Some((order, payload));
    var us := UnitsOf(payload, order);
    var ok := ValidUtf16Units(us);
    if ok {
      DecodeThenEncode(us);
      ok := PlausibleText(Decode(us), isPrint);
    }
    r := if ok then Some(Decode(us)) else None;
    if !ok {
      forall text: seq<Scalar>
        ensures !Says(data, text, isPrint)
      {
        if Says(data, text, isPrint) {
          BytesDetermine(Encode(text), us, order);
          EncodeThenDecode(text);
        }
      }
    }
  }

  lemma EncodeNonEmpty(text: seq<Scalar>)
    requires text != []
    ensures Encode(text) != []
  {
  }

  lemma SaysLaidOut(data: seq<Byte>, text: seq<Scalar>, order: ByteOrder, isPrint: Scalar -> bool)
    requires !PlainUtf8(data) && Plausible(text, isPrint) && Layout(data) == Some((order, Bytes(Encode(text), order)))
    ensures Says(data, text, isPrint)
  {
  }

  lemma MarkIsNotUtf8(data: seq<Byte>)
    requires data != [] && data[0] >= 0xF5
    ensures !PlainUtf8(data)
  {
    assert Utf8Front(data).None?;
    PlainUtf8Decodes(data);
  }

  lemma MarkedLayout(payload: seq<Byte>, order: ByteOrder)
    requires |payload| >= 2 && |payload| % 2 == 0
    ensures Layout(Mark(order) + payload) == Some((order, payload)) && !PlainUtf8(Mark(order) + payload)
  {
    var data := Mark(order) + payload;
    assert data[..2] == Mark(order) && data[2..] == payload;
    MarkIsNotUtf8(data);
  }

  /** Plausible text with a byte order mark in front is read back, in either byte order. */
  lemma MarkedRoundTrip(text: seq<Scalar>, order: ByteOrder, isPrint: Scalar -> bool)
    requires Plausible(text, isPrint)
    ensures Says(Mark(order) + Bytes(Encode(text), order), text, isPrint)
  {
    var payload := Bytes(Encode(text), order);
    assert |payload| == 2 * |Encode(text)| >= 2 by { EncodeNonEmpty(text); }
    MarkedLayout(payload, order);
    SaysLaidOut(Mark(order) + payload, text, order, isPrint);
  }

  lemma SmallFirstByte(us: seq<Unit>, order: ByteOrder)
    requires us != [] && us[0] < 0x80
    ensures Bytes(us, order)[0] < 0x80 && 0 in Bytes(us, order)
  {
    var bs := Bytes(us, order);
    BytesAt(us, order, 0);
    assert bs[2 * 0] == bs[0] && bs[2 * 0 + 1] == bs[1];
    assert UpperByte(us[0]) == 0 && LowerByte(us[0]) < 0x80;
  }

  lemma UnmarkedLayout(data: seq<Byte>, pairs: nat)
    requires |data| == 2 * pairs >= 4 && data[0] < 0x80
    ensures OrderByZeros(data).Some? ==> Layout(data) == Some((OrderByZeros(data).value, data))
  {
    assert Mark(LittleEndian)[0] != data[0] && Mark(BigEndian)[0] != data[0];
  }

  /** Unmarked plausible ASCII text of two or more characters is read back, in either byte order. */
  lemma UnmarkedRoundTrip(text: seq<Scalar>, order: ByteOrder, isPrint: Scalar -> bool)
    requires IsAscii(text) && |text| >= 2 && Plausible(text, isPrint)
    ensures Says(Bytes(Encode(text), order), text, isPrint)
  {
    var us := Encode(text);
    var data := Bytes(us, order);
    assert |us| == |text| && us[0] == text[0] by { AsciiUnits(text); }
    AsciiOrder(text, order);
    SmallFirstByte(us, order);
    UnmarkedLayout(data, |text|);
  }
}
