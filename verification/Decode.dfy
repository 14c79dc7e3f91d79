/** Text decoding and paging (text-runtime.js, lines 4-58 and 81-93). JavaScript strings are
    sequences of UTF-16 code units; UTF-8 decoding is a parameter, known only on ASCII. */
module Decode {

  type Byte = x: int | 0 <= x < 0x100

  type Unit = x: int | 0 <= x < 0x1_0000

  datatype Encoding = Utf8Bom | Utf16Le | Utf16Be | Utf8

  datatype DecodeResult = Decoded(text: seq<Unit>, encoding: Encoding) | BinaryText

  type Utf8Decoder = seq<Byte> -> seq<Unit>

  predicate IsAscii(b: seq<Byte>) {
    forall x :: x in b ==> x < 0x80
  }

  function AsUnits(b: seq<Byte>): seq<Unit> {
    seq(|b|, i requires 0 <= i < |b| => b[i])
  }

  /** UTF-8 leaves ASCII bytes as they are (section 3 of RFC 3629). */
  ghost predicate AsciiFaithful(utf8: Utf8Decoder) {
    forall b :: IsAscii(b) ==> utf8(b) == AsUnits(b)
  }

  // ---------- UTF-16 in both byte orders ----------

  function Join(low: int, high: int): Unit
    requires 0 <= low < 0x100 && 0 <= high < 0x100
  {
    low + 0x100 * high
  }

  function FromLe(b: seq<Byte>): seq<Unit> {
    if |b| < 2 then [] else [Join(b[0], b[1])] + FromLe(b[2..])
  }

  function FromBe(b: seq<Byte>): seq<Unit> {
    if |b| < 2 then [] else [Join(b[1], b[0])] + FromBe(b[2..])
  }

  function ToLe(w: seq<Unit>): seq<Byte> {
    if w == [] then [] else [w[0] % 0x100, w[0] / 0x100] + ToLe(w[1..])
  }

  function ToBe(w: seq<Unit>): seq<Byte> {
    if w == [] then [] else [w[0] / 0x100, w[0] % 0x100] + ToBe(w[1..])
  }

  lemma {:induction false} LeRoundTrip(w: seq<Unit>)
    ensures FromLe(ToLe(w)) == w
  {
    if w != [] {
      LeRoundTrip(w[1..]);
      assert ToLe(w)[2..] == ToLe(w[1..]);
      assert w == [w[0]] + w[1..];
    }
  }

  lemma {:induction false} BeRoundTrip(w: seq<Unit>)
    ensures FromBe(ToBe(w)) == w
  {
    if w != [] {
      BeRoundTrip(w[1..]);
      assert ToBe(w)[2..] == ToBe(w[1..]);
      assert w == [w[0]] + w[1..];
    }
  }

  predicate Swapped(a: seq<Byte>, b: seq<Byte>) {
    && |a| == |b| - |b| % 2
    && forall k :: 0 <= k < |a| / 2 ==> a[2 * k] == b[2 * k + 1] && a[2 * k + 1] == b[2 * k]
  }

  lemma {:induction false} SwappedDecodes(a: seq<Byte>, b: seq<Byte>)
    requires Swapped(a, b)
    ensures FromLe(a) == FromBe(b)
    decreases |a|
  {
    if |a| >= 2 {
      assert a[2 * 0] == b[2 * 0 + 1] && a[2 * 0 + 1] == b[2 * 0];
      forall k | 0 <= k < |a[2..]| / 2
        ensures a[2..][2 * k] == b[2..][2 * k + 1] && a[2..][2 * k + 1] == b[2..][2 * k]
      {
        assert a[2 * (k + 1)] == b[2 * (k + 1) + 1] && a[2 * (k + 1) + 1] == b[2 * (k + 1)];
      }
      SwappedDecodes(a[2..], b[2..]);
    }
  }

  /** The buffer is filled pair by pair in the other byte order and read as little-endian. */
  method SwapUtf16(buffer: seq<Byte>) returns (text: seq<Unit>)
    ensures text == FromBe(buffer)
  {
    var evenLength := |buffer| - |buffer| % 2;
    var swapped := new Byte[evenLength](_ => 0);
    var index := 0;
    while index < evenLength
      invariant 0 <= index <= evenLength && index % 2 == 0
      invariant forall k :: 0 <= k < index / 2 ==> swapped[2 * k] == buffer[2 * k + 1] && swapped[2 * k + 1] == buffer[2 * k]
    {
      swapped[index] := buffer[index + 1];
      swapped[index + 1] := buffer[index];
      index := index + 2;
    }
    SwappedDecodes(swapped[..], buffer);
    text := FromLe(swapped[..]);
  }

  // ---------- guessing a byte order from where the zeros are ----------

  function Zeros(b: seq<Byte>, parity: nat): nat {
    if b == [] then 0
    else Zeros(b[..|b| - 1], parity) + if (|b| - 1) % 2 == parity && b[|b| - 1] == 0 then 1 else 0
  }

  function Ratio(part: nat, whole: nat): real {
    if whole == 0 then 0.0 else part as real / whole as real
  }

  datatype Guess = NoGuess | GuessLe | GuessBe

  function GuessOf(b: seq<Byte>): Guess {
    if |b| < 4 then NoGuess
    else
      var er := Ratio(Zeros(b, 0), (|b| + 1) / 2);
      var odd := Ratio(Zeros(b, 1), |b| / 2);
      if odd >= 0.25 && er <= 0.05 then GuessLe
      else if er >= 0.25 && odd <= 0.05 then GuessBe
      else NoGuess
  }

  method Utf16Guess(buffer: seq<Byte>) returns (guess: Guess)
    ensures guess == GuessOf(buffer)
  {
    if |buffer| < 4 {
      return NoGuess;
    }
    var evenNull, oddNull, even, odd := 0, 0, 0, 0;
    for index := 0 to |buffer|
      invariant evenNull == Zeros(buffer[..index], 0) && oddNull == Zeros(buffer[..index], 1)
      invariant even == (index + 1) / 2 && odd == index / 2
    {
      assert buffer[..index + 1][..index] == buffer[..index];
      if index % 2 == 0 {
        even := even + 1;
        if buffer[index] == 0 {
          evenNull := evenNull + 1;
        }
      } else {
        odd := odd + 1;
        if buffer[index] == 0 {
          oddNull := oddNull + 1;
        }
      }
    }
    assert buffer[..|buffer|] == buffer;
    var er, or_ := Ratio(evenNull, even), Ratio(oddNull, odd);
    if or_ >= 0.25 && er <= 0.05 {
      return GuessLe;
    }
    if er >= 0.25 && or_ <= 0.05 {
      return GuessBe;
    }
    return NoGuess;
  }

  // ---------- decode ----------

  function AllZeros(b: seq<Byte>): nat {
    if b == [] then 0 else AllZeros(b[..|b| - 1]) + if b[|b| - 1] == 0 then 1 else 0
  }

  function ZeroTolerance(n: nat): nat {
    if n / 100 > 2 then n / 100 else 2
  }

  function DecodeOf(utf8: Utf8Decoder, b: seq<Byte>): DecodeResult {
    if [0xEF, 0xBB, 0xBF] <= b then Decoded(utf8(b[3..]), Utf8Bom)
    else if [0xFF, 0xFE] <= b then Decoded(FromLe(b[2..]), Utf16Le)
    else if [0xFE, 0xFF] <= b then Decoded(FromBe(b[2..]), Utf16Be)
    else
      match GuessOf(b)
      case GuessLe => Decoded(FromLe(b), Utf16Le)
      case GuessBe => Decoded(FromBe(b), Utf16Be)
      case NoGuess => if AllZeros(b) > ZeroTolerance(|b|) then BinaryText else Decoded(utf8(b), Utf8)
  }

  method DecodeBuffer(utf8: Utf8Decoder, buffer: seq<Byte>) returns (r: DecodeResult)
    ensures r == DecodeOf(utf8, buffer)
  {
    if |buffer| >= 3 && buffer[0] == 0xEF && buffer[1] == 0xBB && buffer[2] == 0xBF {
      return Decoded(utf8(buffer[3..]), Utf8Bom);
    }
    if |buffer| >= 2 && buffer[0] == 0xFF && buffer[1] == 0xFE {
      return Decoded(FromLe(buffer[2..]), Utf16Le);
    }
    if |buffer| >= 2 && buffer[0] == 0xFE && buffer[1] == 0xFF {
      var text := SwapUtf16(buffer[2..]);
      return Decoded(text, Utf16Be);
    }
    var guess := Utf16Guess(buffer);
    if guess == GuessLe {
      return Decoded(FromLe(buffer), Utf16Le);
    }
    if guess == GuessBe {
      var text := SwapUtf16(buffer);
      return Decoded(text, Utf16Be);
    }
    var nul := 0;
    for index := 0 to |buffer|
      invariant nul == AllZeros(buffer[..index])
    {
      assert buffer[..index + 1][..index] == buffer[..index];
      if buffer[index] == 0 {
        nul := nul + 1;
      }
    }
    assert buffer[..|buffer|] == buffer;
    if nul > ZeroTolerance(|buffer|) {
      return BinaryText;
    }
    return Decoded(utf8(buffer), Utf8);
  }

  // ---------- what the guess and the rejection look at ----------

  /** The positions of the zero bytes among those of one parity. */
  function ZerosAt(b: seq<Byte>, parity: nat): set<int> {
    set i | 0 <= i < |b| && b[i] == 0 && i % 2 == parity
  }

  lemma ZerosAtLast(b: seq<Byte>, parity: nat)
    requires b != []
    ensures var n := |b| - 1;
      ZerosAt(b, parity) == ZerosAt(b[..n], parity) + if b[n] == 0 && n % 2 == parity then {n} else {}
  {
  }

  lemma {:induction false} ZerosMeaning(b: seq<Byte>, parity: nat)
    ensures Zeros(b, parity) == |ZerosAt(b, parity)|
  {
    if b != [] {
      ZerosMeaning(b[..|b| - 1], parity);
      ZerosAtLast(b, parity);
      assert |b| - 1 !in ZerosAt(b[..|b| - 1], parity);
    }
  }

  lemma {:induction false} AllZerosMeaning(b: seq<Byte>)
    ensures AllZeros(b) == |ZerosAt(b, 0)| + |ZerosAt(b, 1)|
  {
    ZerosMeaning(b, 0);
    ZerosMeaning(b, 1);
    AllByParity(b);
  }

  lemma {:induction false} AllByParity(b: seq<Byte>)
    ensures AllZeros(b) == Zeros(b, 0) + Zeros(b, 1)
  {
    if b != [] {
      AllByParity(b[..|b| - 1]);
    }
  }

  lemma Scales(r: real, q: real, w: real)
    requires w > 0.0
    ensures r >= q <==> r * w >= q * w
    ensures r <= q <==> r * w <= q * w
  {
    if r > q {
      assert (r - q) * w > 0.0;
    } else if r < q {
      assert (q - r) * w > 0.0;
    }
  }

  lemma Bound(r: real, p: real, w: real, q: real)
    requires w > 0.0 && r * w == p
    ensures r >= q <==> p >= q * w
    ensures r <= q <==> p <= q * w
  {
    Scales(r, q, w);
  }

  lemma RatioMeans(part: nat, whole: nat)
    requires whole > 0
    ensures Ratio(part, whole) >= 0.25 <==> 4 * part >= whole
    ensures Ratio(part, whole) <= 0.05 <==> 20 * part <= whole
  {
    var r := RatioTimes(part, whole);
    Bound(r, part as real, whole as real, 0.25);
    Bound(r, part as real, whole as real, 0.05);
    InQuarters(part, whole);
    InTwentieths(part, whole);
  }

  lemma RatioTimes(part: nat, whole: nat) returns (r: real)
    requires whole > 0
    ensures r == Ratio(part, whole) && r * (whole as real) == part as real
  {
    r := Ratio(part, whole);
  }

  lemma InQuarters(part: nat, whole: nat)
    ensures part as real >= 0.25 * whole as real <==> 4 * part >= whole
  {
  }

  lemma InTwentieths(part: nat, whole: nat)
    ensures part as real <= 0.05 * whole as real <==> 20 * part <= whole
  {
  }

  /** At least four bytes, a quarter of those of one parity zero and at most a twentieth of the others. */
  predicate LooksUtf16(b: seq<Byte>, many: nat, few: nat) {
    |b| >= 4 && 4 * |ZerosAt(b, many)| >= (|b| + 1 - many) / 2 && 20 * |ZerosAt(b, few)| <= (|b| + 1 - few) / 2
  }

  lemma GuessMeaning(b: seq<Byte>)
    ensures GuessOf(b) == GuessLe <==> LooksUtf16(b, 1, 0)
    ensures GuessOf(b) == GuessBe <==> LooksUtf16(b, 0, 1)
  {
    ZerosMeaning(b, 0);
    ZerosMeaning(b, 1);
    if |b| >= 4 {
      RatioMeans(Zeros(b, 0), (|b| + 1) / 2);
      RatioMeans(Zeros(b, 1), |b| / 2);
    }
  }

  predicate HasMark(b: seq<Byte>) {
    [0xEF, 0xBB, 0xBF] <= b || [0xFF, 0xFE] <= b || [0xFE, 0xFF] <= b
  }

  /** A buffer is rejected as binary exactly when it has no byte-order mark, does not look like UTF-16,
      and more than two of its bytes, and more than one in a hundred, are zero. */
  lemma BinaryIff(utf8: Utf8Decoder, b: seq<Byte>)
    ensures var zeros := |ZerosAt(b, 0)| + |ZerosAt(b, 1)|;
      DecodeOf(utf8, b) == BinaryText <==>
        !HasMark(b) && !LooksUtf16(b, 1, 0) && !LooksUtf16(b, 0, 1) && zeros > 2 && zeros > |b| / 100
  {
    GuessMeaning(b);
    AllZerosMeaning(b);
  }

  /** Every other buffer is decoded: as its mark says, else as what it looks like, else as UTF-8. */
  lemma DecodedAs(utf8: Utf8Decoder, b: seq<Byte>)
    requires DecodeOf(utf8, b).Decoded?
    ensures var r := DecodeOf(utf8, b);
      && (r.encoding == Utf8Bom <==> [0xEF, 0xBB, 0xBF] <= b)
      && (r.encoding == Utf16Le <==> [0xFF, 0xFE] <= b || (!HasMark(b) && LooksUtf16(b, 1, 0)))
      && (r.encoding == Utf16Be <==> [0xFE, 0xFF] <= b || (!HasMark(b) && LooksUtf16(b, 0, 1)))
      && (r.encoding == Utf8Bom ==> r.text == utf8(b[3..])) && (r.encoding == Utf8 ==> r.text == utf8(b))
  {
    GuessMeaning(b);
    assert [0xEF, 0xBB, 0xBF] <= b ==> b[0] == 0xEF;
    assert [0xFF, 0xFE] <= b ==> b[0] == 0xFF;
    assert [0xFE, 0xFF] <= b ==> b[0] == 0xFE;
  }

  lemma {:induction false} LePair(b: seq<Byte>, i: nat, k: nat)
    requires k == 2 * i && k + 1 < |b|
    ensures i < |FromLe(b)| && FromLe(b)[i] == (b[k] as int) + 256 * (b[k + 1] as int)
    decreases i
  {
    if i > 0 {
      LePair(b[2..], i - 1, k - 2);
    }
  }

  lemma {:induction false} BePair(b: seq<Byte>, i: nat, k: nat)
    requires k == 2 * i && k + 1 < |b|
    ensures i < |FromBe(b)| && FromBe(b)[i] == 256 * (b[k] as int) + (b[k + 1] as int)
    decreases i
  {
    if i > 0 {
      BePair(b[2..], i - 1, k - 2);
    }
  }

  /** UTF-16 is read pair by pair, in either order, and a last odd byte is dropped. */
  lemma PairsMeaning(b: seq<Byte>)
    ensures |FromLe(b)| == |b| / 2 && |FromBe(b)| == |b| / 2
    ensures forall i, k :: 0 <= i < |b| / 2 && k == 2 * i ==>
      && FromLe(b)[i] == (b[k] as int) + 256 * (b[k + 1] as int)
      && FromBe(b)[i] == 256 * (b[k] as int) + (b[k + 1] as int)
  {
    PairsCount(b);
    forall i, k | 0 <= i < |b| / 2 && k == 2 * i
      ensures FromLe(b)[i] == (b[k] as int) + 256 * (b[k + 1] as int)
      ensures FromBe(b)[i] == 256 * (b[k] as int) + (b[k + 1] as int)
    {
      LePair(b, i, k);
      BePair(b, i, k);
    }
  }

  lemma {:induction false} PairsCount(b: seq<Byte>)
    ensures |FromLe(b)| == |b| / 2 && |FromBe(b)| == |b| / 2
  {
    if |b| >= 2 {
      PairsCount(b[2..]);
    }
  }

  // ---------- round trips ----------

  /** Any sequence of code units, unpaired surrogates included, written as UTF-16 with a byte-order
      mark in either order (sections 3.2 and 4.3 of RFC 2781) decodes back to itself. */
  lemma BomRoundTrip(utf8: Utf8Decoder, w: seq<Unit>)
    ensures DecodeOf(utf8, [0xFF, 0xFE] + ToLe(w)) == Decoded(w, Utf16Le)
    ensures DecodeOf(utf8, [0xFE, 0xFF] + ToBe(w)) == Decoded(w, Utf16Be)
  {
    LeRoundTrip(w);
    BeRoundTrip(w);
    var le, be := [0xFF, 0xFE] + ToLe(w), [0xFE, 0xFF] + ToBe(w);
    assert le[2..] == ToLe(w) && be[2..] == ToBe(w);
    assert le[..2] == [0xFF, 0xFE] && be[..2] == [0xFE, 0xFF] && be[0] == 0xFE;
  }

  /** ASCII text without NUL. */
  predicate PlainAscii(w: seq<Unit>) {
    forall u :: u in w ==> 0 < u < 0x80
  }

  function AsBytes(w: seq<Unit>): (b: seq<Byte>)
    requires PlainAscii(w)
    ensures |b| == |w| && forall i :: 0 <= i < |w| ==> b[i] == w[i]
  {
    if w == [] then []
    else
      assert w[0] in w && forall u :: u in w[1..] ==> u in w;
      var x: Byte := w[0];
      [x] + AsBytes(w[1..])
  }

  lemma {:induction false} NoZeros(b: seq<Byte>)
    requires forall i :: 0 <= i < |b| ==> b[i] != 0
    ensures Zeros(b, 0) == 0 && Zeros(b, 1) == 0 && AllZeros(b) == 0
  {
    if b != [] {
      NoZeros(b[..|b| - 1]);
    }
  }

  lemma NoGuessWithoutZeros(b: seq<Byte>)
    requires Zeros(b, 0) == 0 && Zeros(b, 1) == 0
    ensures GuessOf(b) == NoGuess
  {
  }

  /** Plain ASCII decodes correctly from UTF-8, whatever its length. */
  lemma AsciiFromUtf8(utf8: Utf8Decoder, w: seq<Unit>)
    requires AsciiFaithful(utf8) && PlainAscii(w)
    ensures DecodeOf(utf8, AsBytes(w)) == Decoded(w, Utf8)
  {
    var b := AsBytes(w);
    assert forall i :: 0 <= i < |w| ==> w[i] in w;
    NoZeros(b);
    NoMark(b);
    NoGuessWithoutZeros(b);
    assert IsAscii(b);
    assert AsUnits(b) == w;
  }

  lemma {:induction false} LeZeros(w: seq<Unit>)
    requires PlainAscii(w)
    ensures |ToLe(w)| == 2 * |w|
    ensures forall i :: 0 <= i < |ToLe(w)| ==> (ToLe(w)[i] == 0 <==> i % 2 == 1)
    ensures forall i :: 0 <= i < |ToLe(w)| ==> ToLe(w)[i] < 0x80
  {
    if w != [] {
      assert w[0] in w && forall u :: u in w[1..] ==> u in w;
      LeZeros(w[1..]);
      assert forall i :: 2 <= i < |ToLe(w)| ==> ToLe(w)[i] == ToLe(w[1..])[i - 2];
    }
  }

  lemma {:induction false} BeZeros(w: seq<Unit>)
    requires PlainAscii(w)
    ensures |ToBe(w)| == 2 * |w|
    ensures forall i :: 0 <= i < |ToBe(w)| ==> (ToBe(w)[i] == 0 <==> i % 2 == 0)
    ensures forall i :: 0 <= i < |ToBe(w)| ==> ToBe(w)[i] < 0x80
  {
    if w != [] {
      assert w[0] in w && forall u :: u in w[1..] ==> u in w;
      BeZeros(w[1..]);
      assert forall i :: 2 <= i < |ToBe(w)| ==> ToBe(w)[i] == ToBe(w[1..])[i - 2];
    }
  }

  lemma {:induction false} ZerosByParity(b: seq<Byte>, parity: nat)
    requires parity < 2 && forall i :: 0 <= i < |b| ==> (b[i] == 0 <==> i % 2 == parity)
    ensures Zeros(b, parity) == if parity == 0 then (|b| + 1) / 2 else |b| / 2
    ensures Zeros(b, 1 - parity) == 0
  {
    if b != [] {
      ZerosByParity(b[..|b| - 1], parity);
    }
  }

  lemma FullRatio(n: nat)
    requires n > 0
    ensures Ratio(n, n) == 1.0 && Ratio(0, n) == 0.0
  {
  }

  lemma LeGuess(b: seq<Byte>)
    requires |b| >= 4 && |b| % 2 == 0
    requires forall i :: 0 <= i < |b| ==> (b[i] == 0 <==> i % 2 == 1)
    ensures GuessOf(b) == GuessLe
  {
    ZerosByParity(b, 1);
    FullRatio(|b| / 2);
  }

  lemma BeGuess(b: seq<Byte>)
    requires |b| >= 4 && |b| % 2 == 0
    requires forall i :: 0 <= i < |b| ==> (b[i] == 0 <==> i % 2 == 0)
    ensures GuessOf(b) == GuessBe
  {
    ZerosByParity(b, 0);
    FullRatio(|b| / 2);
  }

  lemma LongAsciiLe(utf8: Utf8Decoder, w: seq<Unit>)
    requires PlainAscii(w) && |w| >= 2
    ensures DecodeOf(utf8, ToLe(w)) == Decoded(w, Utf16Le)
  {
    LeZeros(w);
    LeGuess(ToLe(w));
    LeRoundTrip(w);
    NoMark(ToLe(w));
  }

  lemma LongAsciiBe(utf8: Utf8Decoder, w: seq<Unit>)
    requires PlainAscii(w) && |w| >= 2
    ensures DecodeOf(utf8, ToBe(w)) == Decoded(w, Utf16Be)
  {
    BeZeros(w);
    BeGuess(ToBe(w));
    BeRoundTrip(w);
    NoMark(ToBe(w));
  }

  /** A buffer that starts with an ASCII byte has no byte-order mark. */
  lemma NoMark(b: seq<Byte>)
    requires b != [] ==> b[0] < 0x80
    ensures !([0xEF, 0xBB, 0xBF] <= b) && !([0xFF, 0xFE] <= b) && !([0xFE, 0xFF] <= b)
  {
  }

  lemma ShortBuffer(utf8: Utf8Decoder, b: seq<Byte>)
    requires AsciiFaithful(utf8) && |b| <= 2 && forall i :: 0 <= i < |b| ==> b[i] < 0x80
    ensures DecodeOf(utf8, b) == Decoded(AsUnits(b), Utf8)
  {
    NoMark(b);
    FewZeros(b);
    assert IsAscii(b);
  }

  /** Plain ASCII in UTF-16 without a byte-order mark is read back correctly exactly when it is not a
      single character: one character makes too short a buffer for the guess and is read as UTF-8. */
  lemma AsciiFromUtf16Iff(utf8: Utf8Decoder, w: seq<Unit>)
    requires AsciiFaithful(utf8) && PlainAscii(w)
    ensures DecodeOf(utf8, ToLe(w)).Decoded? && (DecodeOf(utf8, ToLe(w)).text == w <==> |w| != 1)
    ensures DecodeOf(utf8, ToBe(w)).Decoded? && (DecodeOf(utf8, ToBe(w)).text == w <==> |w| != 1)
  {
    if |w| >= 2 {
      LongAsciiLe(utf8, w);
      LongAsciiBe(utf8, w);
    } else {
      LeZeros(w);
      BeZeros(w);
      ShortBuffer(utf8, ToLe(w));
      ShortBuffer(utf8, ToBe(w));
      assert |AsUnits(ToLe(w))| == 2 * |w| && |AsUnits(ToBe(w))| == 2 * |w|;
    }
  }

  lemma {:induction false} FewZeros(b: seq<Byte>)
    ensures AllZeros(b) <= |b|
  {
    if b != [] {
      FewZeros(b[..|b| - 1]);
    }
  }

  // ---------- paging ----------

  datatype Page = Page(start: nat, text: seq<Unit>, returnedChars: nat, truncated: bool)

  /** Zero means 12000; the rest is clamped to 256..1000000. */
  function PageSize(maxChars: int): nat {
    var wanted := if maxChars == 0 then 12000 else maxChars;
    var capped := if wanted < 1_000_000 then wanted else 1_000_000;
    if capped > 256 then capped else 256
  }

  function PageOf(text: seq<Unit>, start: int, maxChars: int): Page {
    var from := if start > 0 then start else 0;
    var lo := if from < |text| then from else |text|;
    var hi := if from + PageSize(maxChars) < |text| then from + PageSize(maxChars) else |text|;
    var slice := text[lo..hi];
    Page(from, slice, |slice|, from + |slice| < |text|)
  }

  /** The pages of one reading, the first at `start`: each starts where the one before it ended, and
      only the last is not truncated. The page sizes are the caller's and may differ. */
  ghost predicate IsReading(text: seq<Unit>, start: nat, sizes: seq<int>, pages: seq<Page>)
    decreases |pages|
  {
    && 0 < |pages| <= |sizes|
    && pages[0] == PageOf(text, start, sizes[0])
    && (if pages[0].truncated then IsReading(text, start + pages[0].returnedChars, sizes[1..], pages[1..]) else |pages| == 1)
  }

  function Concat(pages: seq<Page>): seq<Unit> {
    if pages == [] then [] else pages[0].text + Concat(pages[1..])
  }

  lemma PageMeaning(text: seq<Unit>, start: nat, maxChars: int)
    requires start <= |text|
    ensures var p := PageOf(text, start, maxChars);
      && p.start == start && p.text == text[start..start + p.returnedChars]
      && (p.truncated ==> 256 <= p.returnedChars <= |text| - start)
      && (!p.truncated ==> p.returnedChars == |text| - start)
  {
  }

  /** A page is as long as was asked for, 12000 by default and never outside 256 to 1000000, or the rest
      of the text; beyond its end it is empty. */
  lemma PageLength(text: seq<Unit>, start: int, maxChars: int)
    ensures var p := PageOf(text, start, maxChars);
      var from := if start < 0 then 0 else start;
      var size := if maxChars == 0 then 12000 else if maxChars < 256 then 256 else if maxChars > 1_000_000 then 1_000_000 else maxChars;
      && p.start == from && |p.text| == p.returnedChars
      && p.returnedChars == (if from >= |text| then 0 else if |text| - from < size then |text| - from else size)
      && (p.truncated <==> from + size < |text|) && (from <= |text| ==> p.text == text[from..from + p.returnedChars])
  {
  }

  /** Paging loses nothing and repeats nothing: the pages concatenate to the rest of the text, and
      there are at most one more than a 256th of its length. */
  lemma {:induction false} PagesCoverText(text: seq<Unit>, start: nat, sizes: seq<int>, pages: seq<Page>)
    requires start <= |text| && IsReading(text, start, sizes, pages)
    ensures Concat(pages) == text[start..] && 256 * (|pages| - 1) <= |text| - start
    decreases |pages|
  {
    var p := pages[0];
    PageMeaning(text, start, sizes[0]);
    if p.truncated {
      PagesCoverText(text, start + p.returnedChars, sizes[1..], pages[1..]);
      assert p.text + text[start + p.returnedChars..] == text[start..];
    } else {
      assert pages[1..] == [];
      assert p.text + [] == text[start..];
    }
  }

  /** Reading on until a page is not truncated always ends. */
  lemma {:induction false} PagingEnds(text: seq<Unit>, start: nat, sizes: seq<int>)
    requires start <= |text| && |text| - start < |sizes|
    ensures exists pages :: IsReading(text, start, sizes, pages)
    decreases |text| - start
  {
    var p := PageOf(text, start, sizes[0]);
    PageMeaning(text, start, sizes[0]);
    if p.truncated {
      PagingEnds(text, start + p.returnedChars, sizes[1..]);
      var rest :| IsReading(text, start + p.returnedChars, sizes[1..], rest);
      assert ([p] + rest)[1..] == rest;
      assert IsReading(text, start, sizes, [p] + rest);
    } else {
      assert IsReading(text, start, sizes, [p]);
    }
  }
}
