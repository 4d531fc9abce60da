/** FindEscape of base/json.h: the search for the next byte a JSON string must escape, eight bytes at a time. */
module JsonScan {

  /** A control character, a quote or a backslash. */
  predicate MustEscape(c: bv8) {
    c < 0x20 || c == 0x22 || c == 0x5C
  }

  const ONES: bv64 := 0x0101010101010101
  const HIGHS: bv64 := 0x8080808080808080

  /** The three-way borrow mask of a word. */
  function Hits(w: bv64): bv64 {
    var q := w ^ (ONES * 0x22);
    var b := w ^ (ONES * 0x5C);
    (((w - ONES * 0x20) & !w) | ((q - ONES) & !q) | ((b - ONES) & !b)) & HIGHS
  }

  /** What memcpy makes of up to eight bytes on a little-endian machine: the first byte is the lowest. */
  function Word(b: seq<bv8>): bv64 {
    if b == [] then 0 else Join(b[0], Word(b[1..]))
  }

  /** std::countr_zero on the low n bits. */
  function CountrZero(x: bv64, n: nat): (k: nat)
    ensures k <= n
    decreases n
  {
    if n == 0 || x & 1 == 1 then 0 else 1 + CountrZero(x >> 1, n - 1)
  }

  /** The lowest byte of a word, and the word without it. */
  function Low(x: bv64): bv64 {
    x & 0xFF
  }

  function Rest(x: bv64): bv64 {
    x >> 8
  }

  // ----- counting by bytes -------------------------------------------------------------

  lemma CountZeroByte(x: bv64, n: nat)
    requires n >= 8 && Low(x) == 0
    ensures CountrZero(x, n) == 8 + CountrZero(Rest(x), n - 8)
  {
    assert x & 1 == 0;
    assert CountrZero(x, n) == 1 + CountrZero(x >> 1, n - 1);
    assert (x >> 1) & 1 == 0 && (x >> 1) >> 1 == x >> 2;
    assert CountrZero(x >> 1, n - 1) == 1 + CountrZero(x >> 2, n - 2);
    assert (x >> 2) & 1 == 0 && (x >> 2) >> 1 == x >> 3;
    assert CountrZero(x >> 2, n - 2) == 1 + CountrZero(x >> 3, n - 3);
    assert (x >> 3) & 1 == 0 && (x >> 3) >> 1 == x >> 4;
    assert CountrZero(x >> 3, n - 3) == 1 + CountrZero(x >> 4, n - 4);
    assert (x >> 4) & 1 == 0 && (x >> 4) >> 1 == x >> 5;
    assert CountrZero(x >> 4, n - 4) == 1 + CountrZero(x >> 5, n - 5);
    assert (x >> 5) & 1 == 0 && (x >> 5) >> 1 == x >> 6;
    assert CountrZero(x >> 5, n - 5) == 1 + CountrZero(x >> 6, n - 6);
    assert (x >> 6) & 1 == 0 && (x >> 6) >> 1 == x >> 7;
    assert CountrZero(x >> 6, n - 6) == 1 + CountrZero(x >> 7, n - 7);
    assert (x >> 7) & 1 == 0 && (x >> 7) >> 1 == x >> 8;
    assert CountrZero(x >> 7, n - 7) == 1 + CountrZero(x >> 8, n - 8);
  }

  lemma CountHighBit(x: bv64, n: nat)
    requires n >= 8 && Low(x) == 0x80
    ensures CountrZero(x, n) == 7
  {
    assert x & 1 == 0;
    assert CountrZero(x, n) == 1 + CountrZero(x >> 1, n - 1);
    assert (x >> 1) & 1 == 0 && (x >> 1) >> 1 == x >> 2;
    assert CountrZero(x >> 1, n - 1) == 1 + CountrZero(x >> 2, n - 2);
    assert (x >> 2) & 1 == 0 && (x >> 2) >> 1 == x >> 3;
    assert CountrZero(x >> 2, n - 2) == 1 + CountrZero(x >> 3, n - 3);
    assert (x >> 3) & 1 == 0 && (x >> 3) >> 1 == x >> 4;
    assert CountrZero(x >> 3, n - 3) == 1 + CountrZero(x >> 4, n - 4);
    assert (x >> 4) & 1 == 0 && (x >> 4) >> 1 == x >> 5;
    assert CountrZero(x >> 4, n - 4) == 1 + CountrZero(x >> 5, n - 5);
    assert (x >> 5) & 1 == 0 && (x >> 5) >> 1 == x >> 6;
    assert CountrZero(x >> 5, n - 5) == 1 + CountrZero(x >> 6, n - 6);
    assert (x >> 6) & 1 == 0 && (x >> 6) >> 1 == x >> 7;
    assert CountrZero(x >> 6, n - 6) == 1 + CountrZero(x >> 7, n - 7);
    assert (x >> 7) & 1 == 1;
  }

  /** The index of the lowest non-zero byte, when it is 0x80, is what countr_zero(x) >> 3 computes. */
  lemma {:induction false} LowestByte(x: bv64, i: nat, n: nat)
    requires n >= 8 * i + 8 && ZeroBelow(x, i) && ByteAt(x, i) == 0x80
    ensures CountrZero(x, n) == 8 * i + 7
    decreases i
  {
    hide Low, Rest, CountrZero;
    if i == 0 {
      CountHighBit(x, n);
    } else {
      CountZeroByte(x, n);
      LowestByte(Rest(x), i - 1, n - 8);
    }
  }

  function ByteAt(x: bv64, i: nat): bv64
    decreases i
  {
    if i == 0 then Low(x) else ByteAt(Rest(x), i - 1)
  }

  predicate ZeroBelow(x: bv64, i: nat)
    decreases i
  {
    i == 0 || (Low(x) == 0 && ZeroBelow(Rest(x), i - 1))
  }

  // ----- the mask ----------------------------------------------------------------------

  /** The low n bytes agree. */
  predicate SameLow(x: bv64, y: bv64, n: nat)
    decreases n
  {
    n == 0 || (Low(x) == Low(y) && SameLow(Rest(x), Rest(y), n - 1))
  }

  function LowMask(n: nat): bv64
    decreases n
  {
    if n == 0 then 0 else (LowMask(n - 1) << 8) | 0xFF
  }

  /** The low n bytes of x. */
  function Keep(x: bv64, n: nat): bv64 {
    x & LowMask(n)
  }

  lemma KeepStep(x: bv64, n: nat)
    requires n > 0
    ensures Rest(Keep(x, n)) == Keep(Rest(x), n - 1) && Low(Keep(x, n)) == Low(x)
  {
    var m := LowMask(n - 1);
    assert (x & ((m << 8) | 0xFF)) >> 8 == (x >> 8) & m;
  }

  lemma {:induction false} KeepSame(x: bv64, n: nat)
    ensures SameLow(Keep(x, n), x, n)
    decreases n
  {
    hide Low, Rest, Keep;
    if n > 0 {
      KeepStep(x, n);
      KeepSame(Rest(x), n - 1);
    }
  }

  lemma {:induction false} SameByte(x: bv64, y: bv64, n: nat, i: nat)
    requires SameLow(x, y, n) && i < n
    ensures ByteAt(x, i) == ByteAt(y, i)
    ensures ZeroBelow(x, i) == ZeroBelow(y, i)
    ensures CleanBelow(x, i) == CleanBelow(y, i)
    decreases i
  {
    hide Low, Rest, EscapeWord;
    if i > 0 {
      SameByte(Rest(x), Rest(y), n - 1, i - 1);
    }
  }

  lemma LowMasks()
    ensures LowMask(7) == 0x00FFFFFFFFFFFFFF && LowMask(8) == 0xFFFFFFFFFFFFFFFF
  {
    assert LowMask(1) == 0xFF;
    assert LowMask(2) == 0xFFFF;
    assert LowMask(3) == 0xFFFFFF;
    assert LowMask(4) == 0xFFFFFFFF;
    assert LowMask(5) == 0xFFFFFFFFFF;
    assert LowMask(6) == 0xFFFFFFFFFFFF;
  }

  function Low7(x: bv64): bv64 {
    x & 0x00FFFFFFFFFFFFFF
  }

  lemma Keep7(x: bv64)
    ensures Keep(x, 7) == Low7(x)
  {
    LowMasks();
  }

  lemma KeepAll(x: bv64)
    ensures Keep(x, 8) == x
  {
    LowMasks();
    hide LowMask;
  }

  predicate EscapeWord(c: bv64) {
    c < 0x20 || c == 0x22 || c == 0x5C
  }

  predicate CleanBelow(w: bv64, i: nat)
    decreases i
  {
    i == 0 || (!EscapeWord(Low(w)) && CleanBelow(Rest(w), i - 1))
  }

  /** The lowest byte is judged exactly. */
  lemma HitsLowest(w: bv64)
    ensures Low(Hits(w)) == if EscapeWord(Low(w)) then 0x80 else 0
  {
  }

  /** A clean byte borrows nothing from the bytes above it. */
  lemma HitsShift(w: bv64)
    requires !EscapeWord(Low(w))
    ensures Rest(Hits(w)) == Low7(Hits(Rest(w)))
  {
  }

  lemma HitsRest(w: bv64)
    requires !EscapeWord(Low(w))
    ensures SameLow(Rest(Hits(w)), Hits(Rest(w)), 7)
  {
    hide *;
    HitsShift(w);
    Keep7(Hits(Rest(w)));
    KeepSame(Hits(Rest(w)), 7);
  }

  /** Above clean bytes, the first byte of the mask that can be flagged is flagged exactly when it must be escaped. */
  lemma {:induction false} FirstHit(w: bv64, i: nat)
    requires i < 8 && CleanBelow(w, i)
    ensures ZeroBelow(Hits(w), i)
    ensures ByteAt(Hits(w), i) == if EscapeWord(ByteAt(w, i)) then 0x80 else 0
    decreases i
  {
    hide Hits, Low, Rest, EscapeWord, SameLow;
    HitsLowest(w);
    if i > 0 {
      FirstHit(Rest(w), i - 1);
      HitsRest(w);
      SameByte(Rest(Hits(w)), Hits(Rest(w)), 7, i - 1);
    }
  }

  // ----- words of text -----------------------------------------------------------------

  /** A byte below a word. */
  function Join(c: bv8, x: bv64): bv64 {
    c as bv64 | (x << 8)
  }

  lemma JoinSplits(c: bv8, x: bv64)
    ensures EscapeWord(Low(Join(c, x))) == MustEscape(c) && Rest(Join(c, x)) == Low7(x)
  {
  }

  /** Dropping the first byte of the text drops the lowest byte of the word. */
  lemma WordTail(b: seq<bv8>)
    requires b != []
    ensures EscapeWord(Low(Word(b))) == MustEscape(b[0])
    ensures SameLow(Rest(Word(b)), Word(b[1..]), 7)
  {
    assert Word(b) == Join(b[0], Word(b[1..]));
    hide *;
    JoinSplits(b[0], Word(b[1..]));
    Keep7(Word(b[1..]));
    KeepSame(Word(b[1..]), 7);
  }

  /** The bytes of the word are the bytes of the text. */
  lemma {:induction false} WordBytes(b: seq<bv8>, i: nat)
    requires i < |b| <= 8 && forall j | 0 <= j < i :: !MustEscape(b[j])
    ensures EscapeWord(ByteAt(Word(b), i)) == MustEscape(b[i])
    ensures CleanBelow(Word(b), i)
    decreases b
  {
    hide Low, Rest, EscapeWord, MustEscape, Word, SameLow;
    WordTail(b);
    if i > 0 {
      WordBytes(b[1..], i - 1);
      SameByte(Rest(Word(b)), Word(b[1..]), 7, i - 1);
    }
  }

  lemma {:induction false} ZeroByte(i: nat)
    ensures ByteAt(0, i) == 0
    decreases i
  {
    if i > 0 {
      ZeroByte(i - 1);
    }
  }

  lemma ZeroAll(x: bv64)
    requires ZeroBelow(x, 7) && ByteAt(x, 7) == 0
    ensures x == 0
  {
    hide ZeroBelow, ByteAt, Keep;
    ZeroTop(x, 7);
    ZeroWord(x, 8);
    KeepAll(x);
  }

  lemma {:induction false} ZeroTop(x: bv64, i: nat)
    requires ZeroBelow(x, i) && ByteAt(x, i) == 0
    ensures ZeroBelow(x, i + 1)
    decreases i
  {
    hide Low, Rest;
    if i > 0 {
      ZeroTop(Rest(x), i - 1);
    }
  }

  lemma ZeroJoin(x: bv64)
    requires Low(x) == 0 && Rest(x) == 0
    ensures x == 0
  {
  }

  lemma {:induction false} ZeroWord(x: bv64, n: nat)
    requires ZeroBelow(x, n)
    ensures Keep(x, n) == 0
    decreases n
  {
    if n > 0 {
      ZeroWord(Rest(x), n - 1);
      KeepStep(x, n);
      hide Low, Rest, Keep;
      ZeroJoin(Keep(x, n));
    }
  }

  /** The mask of eight bytes is zero exactly when none needs an escape, and otherwise the lowest flagged byte is the
      first that does. */
  lemma WordScan(b: seq<bv8>)
    requires |b| == 8
    ensures Hits(Word(b)) == 0 <==> forall i | 0 <= i < 8 :: !MustEscape(b[i])
    ensures Hits(Word(b)) != 0 ==>
              var k := CountrZero(Hits(Word(b)), 64) / 8;
              k < 8 && MustEscape(b[k]) && forall i | 0 <= i < k :: !MustEscape(b[i])
  {
    hide Hits, Word, CountrZero, MustEscape, EscapeWord;
    if k :| 0 <= k < 8 && MustEscape(b[k]) && forall i | 0 <= i < k :: !MustEscape(b[i]) {
      WordBytes(b, k);
      FirstHit(Word(b), k);
      ZeroByte(k);
      LowestByte(Hits(Word(b)), k, 64);
    } else {
      NoneEscapes(b, 8);
      WordBytes(b, 7);
      FirstHit(Word(b), 7);
      ZeroAll(Hits(Word(b)));
    }
  }

  lemma {:induction false} NoneEscapes(b: seq<bv8>, n: nat)
    requires n <= |b| && !exists k :: 0 <= k < n && MustEscape(b[k]) && forall i | 0 <= i < k :: !MustEscape(b[i])
    ensures forall i | 0 <= i < n :: !MustEscape(b[i])
    decreases n
  {
    if n > 0 {
      NoneEscapes(b, n - 1);
    }
  }

  /** The first position from begin that must be escaped, or the end: word by word, then byte by byte. */
  method FindEscape(text: seq<bv8>, begin: nat) returns (at: nat)
    requires begin <= |text|
    ensures begin <= at <= |text|
    ensures forall i | begin <= i < at :: !MustEscape(text[i])
    ensures at < |text| ==> MustEscape(text[at])
  {
    hide Hits, Word, CountrZero;
    at := begin;
    while |text| - at >= 8
      invariant begin <= at <= |text|
      invariant forall i | begin <= i < at :: !MustEscape(text[i])
    {
      var b := text[at..at + 8];
      var hit := Hits(Word(b));
      WordScan(b);
      assert forall i | at <= i < at + 8 :: text[i] == b[i - at];
      if hit != 0 {
        at := at + CountrZero(hit, 64) / 8;
        return;
      }
      at := at + 8;
    }
    while at != |text|
      invariant begin <= at <= |text|
      invariant forall i | begin <= i < at :: !MustEscape(text[i])
    {
      if MustEscape(text[at]) {
        break;
      }
      at := at + 1;
    }
  }
}
