/** The 64-bit Murmur hash (base/murmur.cc) and the packing of bytes under it (HashBytes of orly/compiler.cc). */
module Murmur {
  import opened JsonScan

  // ----- the steps ---------------------------------------------------------------------

  /** The five multipliers. */
  datatype Multiplier = First | Second | Five | Third | Fourth

  /** Multiplication modulo 2^64. */
  function Times(x: bv64, m: Multiplier): bv64 {
    match m
    case First => x * 0x87c37b91114253d5
    case Second => x * 0x4cf5ad432745937f
    case Five => x * 5
    case Third => x * 0xff51afd7ed558ccd
    case Fourth => x * 0xc4ceb9fe1a85ec53
  }

  /** Multiplication by the inverse modulo 2^64. */
  function Undo(x: bv64, m: Multiplier): bv64 {
    match m
    case First => x * 0xa98409e882ce4d7d
    case Second => x * 0xa81e14edd9de2c7f
    case Five => x * 0xcccccccccccccccd
    case Third => x * 0x4f74430c22a54005
    case Fourth => x * 0x9cb4b2f8129337db
  }

  function Rotate31(x: bv64): bv64 {
    (x << 31) | (x >> 33)
  }

  function Back31(x: bv64): bv64 {
    (x >> 31) | (x << 33)
  }

  function Rotate27(x: bv64): bv64 {
    (x << 27) | (x >> 37)
  }

  function Back27(x: bv64): bv64 {
    (x >> 27) | (x << 37)
  }

  function Plus(x: bv64): bv64 {
    x + 0x52dce729
  }

  function Minus(x: bv64): bv64 {
    x - 0x52dce729
  }

  function Xor(x: bv64, y: bv64): bv64 {
    x ^ y
  }

  function Shift33(x: bv64): bv64 {
    x ^ (x >> 33)
  }

  /** The bits of a word, mixed. */
  function Mix(w: bv64): bv64 {
    Times(Rotate31(Times(w, First)), Second)
  }

  function Unmix(y: bv64): bv64 {
    Undo(Back31(Undo(y, Second)), First)
  }

  /** A mixed word folded into the hash. */
  function Fold(hash: bv64, mixed: bv64): bv64 {
    Plus(Times(Rotate27(Xor(hash, mixed)), Five))
  }

  /** What the xor in Fold gave. */
  function Unfold(hash: bv64): bv64 {
    Back27(Undo(Minus(hash), Five))
  }

  /** The bits of the hash, mixed at the end. */
  function Finish(hash: bv64): bv64 {
    Shift33(Times(Shift33(Times(Shift33(hash), Third)), Fourth))
  }

  function Unfinish(hash: bv64): bv64 {
    Shift33(Undo(Shift33(Undo(Shift33(hash), Fourth)), Third))
  }

  // ----- every step can be undone ------------------------------------------------------

  // The solver proves that a multiplier and its inverse cancel by rewriting, which needs the products written out; the
  // predicates carry the facts from there to the functions.

  /** y with the multiplier undone is x. */
  predicate Undone(x: bv64, y: bv64, m: Multiplier) {
    match m
    case First => y * 0xa98409e882ce4d7d == x
    case Second => y * 0xa81e14edd9de2c7f == x
    case Five => y * 0xcccccccccccccccd == x
    case Third => y * 0x4f74430c22a54005 == x
    case Fourth => y * 0x9cb4b2f8129337db == x
  }

  /** y multiplied is x. */
  predicate Redone(x: bv64, y: bv64, m: Multiplier) {
    match m
    case First => y * 0x87c37b91114253d5 == x
    case Second => y * 0x4cf5ad432745937f == x
    case Five => y * 5 == x
    case Third => y * 0xff51afd7ed558ccd == x
    case Fourth => y * 0xc4ceb9fe1a85ec53 == x
  }

  lemma FirstCancels(x: bv64)
    ensures Undone(x, x * 0x87c37b91114253d5, First) && Redone(x, x * 0xa98409e882ce4d7d, First)
  {
  }

  lemma FirstIsUndone(x: bv64)
    ensures Undone(x, Times(x, First), First) && Redone(x, Undo(x, First), First)
  {
    hide Undone, Redone;
    FirstCancels(x);
  }

  lemma SecondCancels(x: bv64)
    ensures Undone(x, x * 0x4cf5ad432745937f, Second) && Redone(x, x * 0xa81e14edd9de2c7f, Second)
  {
  }

  lemma SecondIsUndone(x: bv64)
    ensures Undone(x, Times(x, Second), Second) && Redone(x, Undo(x, Second), Second)
  {
    hide Undone, Redone;
    SecondCancels(x);
  }

  lemma FiveCancels(x: bv64)
    ensures Undone(x, x * 5, Five) && Redone(x, x * 0xcccccccccccccccd, Five)
  {
  }

  lemma FiveIsUndone(x: bv64)
    ensures Undone(x, Times(x, Five), Five) && Redone(x, Undo(x, Five), Five)
  {
    hide Undone, Redone;
    FiveCancels(x);
  }

  lemma ThirdCancels(x: bv64)
    ensures Undone(x, x * 0xff51afd7ed558ccd, Third) && Redone(x, x * 0x4f74430c22a54005, Third)
  {
  }

  lemma ThirdIsUndone(x: bv64)
    ensures Undone(x, Times(x, Third), Third) && Redone(x, Undo(x, Third), Third)
  {
    hide Undone, Redone;
    ThirdCancels(x);
  }

  lemma FourthCancels(x: bv64)
    ensures Undone(x, x * 0xc4ceb9fe1a85ec53, Fourth) && Redone(x, x * 0x9cb4b2f8129337db, Fourth)
  {
  }

  lemma FourthIsUndone(x: bv64)
    ensures Undone(x, Times(x, Fourth), Fourth) && Redone(x, Undo(x, Fourth), Fourth)
  {
    hide Undone, Redone;
    FourthCancels(x);
  }

  lemma TimesIsUndone(x: bv64, m: Multiplier)
    ensures Undone(x, Times(x, m), m) && Redone(x, Undo(x, m), m)
  {
    hide Undone, Redone, Times, Undo;
    match m {
      case First => FirstIsUndone(x);
      case Second => SecondIsUndone(x);
      case Five => FiveIsUndone(x);
      case Third => ThirdIsUndone(x);
      case Fourth => FourthIsUndone(x);
    }
  }

  lemma UndoneIs(x: bv64, y: bv64, m: Multiplier)
    ensures Undone(x, y, m) ==> Undo(y, m) == x
    ensures Redone(x, y, m) ==> Times(y, m) == x
  {
  }

  /** Each multiplier is odd, so multiplying by it is undone by multiplying by its inverse modulo 2^64. */
  lemma TimesInverts(x: bv64, m: Multiplier)
    ensures Undo(Times(x, m), m) == x && Times(Undo(x, m), m) == x
  {
    hide Times, Undo, Undone, Redone;
    TimesIsUndone(x, m);
    UndoneIs(x, Times(x, m), m);
    UndoneIs(x, Undo(x, m), m);
  }

  predicate Shifted(x: bv64, y: bv64) {
    y ^ (y >> 33) == x
  }

  lemma ShiftsCancel(x: bv64)
    ensures Shifted(x, x ^ (x >> 33))
  {
  }

  lemma ShiftShifted(x: bv64)
    ensures Shifted(x, Shift33(x))
  {
    hide Shifted;
    ShiftsCancel(x);
  }

  lemma ShiftedIsShift(x: bv64, y: bv64)
    requires Shifted(x, y)
    ensures Shift33(y) == x
  {
  }

  lemma Shift33Inverts(x: bv64)
    ensures Shift33(Shift33(x)) == x
  {
    hide Shifted, Shift33;
    ShiftShifted(x);
    ShiftedIsShift(x, Shift33(x));
  }

  lemma RotationsInvert(x: bv64)
    ensures Back31(Rotate31(x)) == x && Rotate31(Back31(x)) == x
    ensures Back27(Rotate27(x)) == x && Rotate27(Back27(x)) == x
    ensures Minus(Plus(x)) == x && Plus(Minus(x)) == x
  {
  }

  lemma XorInverts(x: bv64, y: bv64)
    ensures Xor(Xor(x, y), y) == x && Xor(Xor(x, y), x) == y && Xor(y, Xor(x, y)) == x
  {
  }

  /** Mixing is a bijection of the words. */
  lemma MixInverts(w: bv64)
    ensures Unmix(Mix(w)) == w && Mix(Unmix(w)) == w
  {
    hide Times, Undo, Rotate31, Back31;
    var x, y := Times(w, First), Undo(w, Second);
    TimesInverts(w, First);
    RotationsInvert(x);
    TimesInverts(Rotate31(x), Second);
    TimesInverts(w, Second);
    RotationsInvert(y);
    TimesInverts(Back31(y), First);
  }

  lemma FinishInverts(hash: bv64)
    ensures Unfinish(Finish(hash)) == hash && Finish(Unfinish(hash)) == hash
  {
    hide Times, Undo, Shift33;
    var a := Shift33(hash);
    var b := Times(a, Third);
    var c := Shift33(b);
    Shift33Inverts(hash);
    TimesInverts(a, Third);
    Shift33Inverts(b);
    TimesInverts(c, Fourth);
    Shift33Inverts(Times(c, Fourth));
    var e := Undo(a, Fourth);
    var f := Shift33(e);
    TimesInverts(a, Fourth);
    Shift33Inverts(e);
    TimesInverts(f, Third);
    Shift33Inverts(Undo(f, Third));
  }

  /** With either argument fixed, folding is a bijection in the other. */
  lemma FoldInverts(hash: bv64, mixed: bv64)
    ensures Unfold(Fold(hash, mixed)) == Xor(hash, mixed)
    ensures Fold(Xor(Unfold(hash), mixed), mixed) == hash
    ensures Fold(mixed, Xor(Unfold(hash), mixed)) == hash
  {
    hide Times, Undo, Rotate27, Back27, Plus, Minus, Xor;
    var x := Xor(hash, mixed);
    var r := Rotate27(x);
    TimesInverts(r, Five);
    RotationsInvert(x);
    RotationsInvert(Times(r, Five));
    var m := Minus(hash);
    RotationsInvert(hash);
    TimesInverts(m, Five);
    RotationsInvert(Undo(m, Five));
    XorInverts(Unfold(hash), mixed);
  }

  // ----- the hash ----------------------------------------------------------------------

  /** The words folded into the hash one after the other. */
  function Absorb(words: seq<bv64>, hash: bv64): bv64
    decreases words
  {
    if words == [] then hash else Absorb(words[1..], Fold(hash, Mix(words[0])))
  }

  function Hash(words: seq<bv64>, seed: bv64): bv64 {
    Finish(Absorb(words, seed))
  }

  method Murmur(words: seq<bv64>, seed: bv64) returns (hash: bv64)
    ensures hash == Hash(words, seed)
  {
    hide Mix, Fold, Finish;
    hash := seed;
    assert words[0..] == words;
    for i := 0 to |words|
      invariant Absorb(words[i..], hash) == Absorb(words, seed)
    {
      assert words[i..][0] == words[i] && words[i..][1..] == words[i + 1..];
      var word := Mix(words[i]);
      hash := Fold(hash, word);
    }
    hash := Finish(hash);
  }

  /** The hash before the words, from the hash after them. */
  function Unabsorb(words: seq<bv64>, hash: bv64): bv64
    decreases words
  {
    if words == [] then hash else Xor(Unfold(Unabsorb(words[1..], hash)), Mix(words[0]))
  }

  lemma {:induction false} AbsorbInverts(words: seq<bv64>, hash: bv64)
    ensures Unabsorb(words, Absorb(words, hash)) == hash
    ensures Absorb(words, Unabsorb(words, hash)) == hash
    decreases words
  {
    hide Fold, Unfold, Mix, Xor;
    if words != [] {
      var m := Mix(words[0]);
      AbsorbInverts(words[1..], Fold(hash, m));
      FoldInverts(hash, m);
      XorInverts(hash, m);
      AbsorbInverts(words[1..], hash);
      FoldInverts(Unabsorb(words[1..], hash), m);
    }
  }

  function SeedOf(words: seq<bv64>, hash: bv64): bv64 {
    Unabsorb(words, Unfinish(hash))
  }

  /** For fixed words the hash is a bijection in the seed. */
  lemma SeedIsBijective(words: seq<bv64>, seed: bv64)
    ensures SeedOf(words, Hash(words, seed)) == seed
    ensures Hash(words, SeedOf(words, seed)) == seed
  {
    hide Finish, Unfinish, Absorb, Unabsorb;
    FinishInverts(Absorb(words, seed));
    AbsorbInverts(words, seed);
    AbsorbInverts(words, Unfinish(seed));
    FinishInverts(seed);
  }

  lemma {:induction false} AbsorbSplits(a: seq<bv64>, b: seq<bv64>, hash: bv64)
    ensures Absorb(a + b, hash) == Absorb(b, Absorb(a, hash))
    decreases a
  {
    hide Fold, Mix;
    if a == [] {
      assert a + b == b;
    } else {
      assert (a + b)[1..] == a[1..] + b;
      AbsorbSplits(a[1..], b, Fold(hash, Mix(a[0])));
    }
  }

  /** The word at position i that gives this hash, the other words and the seed being as they are. */
  function WordOf(words: seq<bv64>, i: nat, seed: bv64, hash: bv64): bv64
    requires i < |words|
  {
    Unmix(Xor(Unfold(Unabsorb(words[i + 1..], Unfinish(hash))), Absorb(words[..i], seed)))
  }

  lemma HashAround(words: seq<bv64>, i: nat, word: bv64, seed: bv64)
    requires i < |words|
    ensures Hash(words[i := word], seed)
         == Finish(Absorb(words[i + 1..], Fold(Absorb(words[..i], seed), Mix(word))))
  {
    hide Fold, Mix, Finish;
    assert words[i := word] == words[..i] + ([word] + words[i + 1..]);
    AbsorbSplits(words[..i], [word] + words[i + 1..], seed);
    assert ([word] + words[i + 1..])[1..] == words[i + 1..];
  }

  /** For a fixed seed and fixed other words the hash is a bijection in each single word. */
  lemma WordIsBijective(words: seq<bv64>, i: nat, seed: bv64, word: bv64)
    requires i < |words|
    ensures WordOf(words, i, seed, Hash(words[i := word], seed)) == word
    ensures Hash(words[i := WordOf(words, i, seed, word)], seed) == word
  {
    hide Fold, Unfold, Mix, Unmix, Finish, Unfinish, Absorb, Unabsorb, Xor;
    var before, after := Absorb(words[..i], seed), words[i + 1..];
    HashAround(words, i, word, seed);
    var folded := Fold(before, Mix(word));
    FinishInverts(Absorb(after, folded));
    AbsorbInverts(after, folded);
    FoldInverts(before, Mix(word));
    XorInverts(before, Mix(word));
    MixInverts(word);
    var target := Unabsorb(after, Unfinish(word));
    var w := WordOf(words, i, seed, word);
    HashAround(words, i, w, seed);
    MixInverts(Xor(Unfold(target), before));
    FoldInverts(target, before);
    AbsorbInverts(after, Unfinish(word));
    FinishInverts(word);
  }

  // ----- bytes -------------------------------------------------------------------------

  function Min(a: nat, b: nat): nat {
    if a < b then a else b
  }

  /** The bytes copied into zeroed words. */
  function Chunks(bytes: seq<bv8>): seq<bv64> {
    if bytes == [] then []
    else
      var n := Min(8, |bytes|);
      [Word(bytes[..n])] + Chunks(bytes[n..])
  }

  /** The k low bits of a number, the lowest first. */
  function Bits(n: nat, k: nat): (b: seq<bool>)
    ensures |b| == k
    decreases k
  {
    if k == 0 then [] else [n % 2 == 1] + Bits(n / 2, k - 1)
  }

  function Bit(b: bool): bv8 {
    if b then 1 else 0
  }

  function ToByte(b: seq<bool>): bv8
    requires |b| == 8
  {
    Bit(b[0]) | (Bit(b[1]) << 1) | (Bit(b[2]) << 2) | (Bit(b[3]) << 3)
    | (Bit(b[4]) << 4) | (Bit(b[5]) << 5) | (Bit(b[6]) << 6) | (Bit(b[7]) << 7)
  }

  /** The k low bytes of a size in memory. */
  function SizeBytes(n: nat, k: nat): (b: seq<bv8>)
    ensures |b| == k
    decreases k
  {
    if k == 0 then [] else [ToByte(Bits(n % 256, 8))] + SizeBytes(n / 256, k - 1)
  }

  const TWO64: nat := 0x1_0000_0000_0000_0000

  /** The words HashBytes hashes: the bytes, zero-padded, and their number. */
  function Pack(bytes: seq<bv8>): seq<bv64> {
    Chunks(bytes) + [Word(SizeBytes(|bytes|, 8))]
  }

  lemma {:induction false} ChunkCount(bytes: seq<bv8>)
    ensures |Chunks(bytes)| == (|bytes| + 7) / 8
  {
    if bytes != [] {
      ChunkCount(bytes[Min(8, |bytes|)..]);
    }
  }

  lemma JoinLow(c: bv8, x: bv64)
    ensures Low(Join(c, x)) == c as bv64
  {
  }

  lemma {:induction false} WordByte(b: seq<bv8>, i: nat)
    requires i < |b| <= 8
    ensures ByteAt(Word(b), i) == b[i] as bv64
    decreases b
  {
    assert Word(b) == Join(b[0], Word(b[1..]));
    JoinLow(b[0], Word(b[1..]));
    WordTail(b);
    hide Low, Rest, Join, Word, SameLow, EscapeWord, MustEscape;
    if i > 0 {
      WordByte(b[1..], i - 1);
      SameByte(Rest(Word(b)), Word(b[1..]), 7, i - 1);
    }
  }

  lemma ByteIsInjective(a: bv8, b: bv8)
    requires a as bv64 == b as bv64
    ensures a == b
  {
  }

  /** A word holds its bytes. */
  lemma WordIsInjective(a: seq<bv8>, b: seq<bv8>)
    requires |a| == |b| <= 8 && Word(a) == Word(b)
    ensures a == b
  {
    forall i | 0 <= i < |a| ensures a[i] == b[i] {
      WordByte(a, i);
      WordByte(b, i);
      hide ByteAt, Word;
      ByteIsInjective(a[i], b[i]);
    }
  }

  lemma ToByteIsInjective(a: seq<bool>, b: seq<bool>)
    requires |a| == |b| == 8 && ToByte(a) == ToByte(b)
    ensures a == b
  {
  }

  function Power2(k: nat): nat {
    if k == 0 then 1 else 2 * Power2(k - 1)
  }

  lemma {:induction false} BitsAreInjective(m: nat, n: nat, k: nat)
    requires Bits(m, k) == Bits(n, k) && m < Power2(k) && n < Power2(k)
    ensures m == n
    decreases k
  {
    if k > 0 {
      var a, b := Bits(m, k), Bits(n, k);
      assert a[0] == b[0] && a[1..] == b[1..];
      assert a[1..] == Bits(m / 2, k - 1) && b[1..] == Bits(n / 2, k - 1);
      BitsAreInjective(m / 2, n / 2, k - 1);
    }
  }

  lemma ByteOfIsInjective(m: nat, n: nat)
    requires m < 256 && n < 256 && ToByte(Bits(m, 8)) == ToByte(Bits(n, 8))
    ensures m == n
  {
    hide ToByte, Bits;
    ToByteIsInjective(Bits(m, 8), Bits(n, 8));
    assert Power2(2) == 4 && Power2(4) == 16 && Power2(6) == 64 && Power2(8) == 256;
    BitsAreInjective(m, n, 8);
  }

  lemma {:induction false} SizeIsInjective(m: nat, n: nat, k: nat)
    requires SizeBytes(m, k) == SizeBytes(n, k) && m < Power256(k) && n < Power256(k)
    ensures m == n
    decreases k
  {
    hide ToByte, Bits;
    if k > 0 {
      var a, b := SizeBytes(m, k), SizeBytes(n, k);
      assert a[0] == b[0] && a[1..] == b[1..];
      ByteOfIsInjective(m % 256, n % 256);
      assert a[1..] == SizeBytes(m / 256, k - 1) && b[1..] == SizeBytes(n / 256, k - 1);
      SizeIsInjective(m / 256, n / 256, k - 1);
    }
  }

  function Power256(k: nat): nat {
    if k == 0 then 1 else 256 * Power256(k - 1)
  }

  lemma Power256Of8()
    ensures Power256(8) == TWO64
  {
    assert Power256(1) == 0x100 && Power256(2) == 0x10000 && Power256(3) == 0x1000000;
    assert Power256(4) == 0x1_0000_0000 && Power256(5) == 0x100_0000_0000;
    assert Power256(6) == 0x1_0000_0000_0000 && Power256(7) == 0x100_0000_0000_0000;
  }

  lemma {:induction false} ChunksAreInjective(a: seq<bv8>, b: seq<bv8>)
    requires |a| == |b| && Chunks(a) == Chunks(b)
    ensures a == b
    decreases a
  {
    if a != [] {
      var n := Min(8, |a|);
      assert Chunks(a)[0] == Chunks(b)[0] && Chunks(a)[1..] == Chunks(b)[1..];
      hide Word;
      WordIsInjective(a[..n], b[..n]);
      ChunksAreInjective(a[n..], b[n..]);
      assert a == a[..n] + a[n..] && b == b[..n] + b[n..];
    }
  }

  /** Different byte strings are packed into different words. */
  lemma PackIsInjective(a: seq<bv8>, b: seq<bv8>)
    requires |a| < TWO64 && |b| < TWO64 && Pack(a) == Pack(b)
    ensures a == b
  {
    hide Word;
    var x, y := Pack(a), Pack(b);
    assert x[|x| - 1] == Word(SizeBytes(|a|, 8)) && y[|y| - 1] == Word(SizeBytes(|b|, 8));
    WordIsInjective(SizeBytes(|a|, 8), SizeBytes(|b|, 8));
    Power256Of8();
    SizeIsInjective(|a|, |b|, 8);
    assert Chunks(a) == x[..|x| - 1] && Chunks(b) == y[..|y| - 1];
    ChunksAreInjective(a, b);
  }

  /** words holds the chunks of the first at bytes. */
  ghost predicate PackedTo(words: seq<bv64>, bytes: seq<bv8>, at: nat) {
    at <= |bytes| && words + Chunks(bytes[at..]) == Chunks(bytes)
  }

  lemma PackStep(words: seq<bv64>, bytes: seq<bv8>, at: nat)
    requires PackedTo(words, bytes, at) && at < |bytes|
    ensures var n := Min(8, |bytes| - at); PackedTo(words + [Word(bytes[at..at + n])], bytes, at + n)
  {
    var n, rest := Min(8, |bytes| - at), bytes[at..];
    assert rest[..n] == bytes[at..at + n] && rest[n..] == bytes[at + n..];
    var word, more := Word(bytes[at..at + n]), Chunks(bytes[at + n..]);
    assert Chunks(rest) == [word] + more;
    hide *;
    assert words + ([word] + more) == (words + [word]) + more;
  }

  lemma PackEnds(words: seq<bv64>, bytes: seq<bv8>)
    ensures PackedTo([], bytes, 0)
    ensures PackedTo(words, bytes, |bytes|) ==> words == Chunks(bytes)
  {
    assert bytes[0..] == bytes && bytes[|bytes|..] == [];
    assert [] + Chunks(bytes) == Chunks(bytes) && words + [] == words;
  }

  /** The vector HashBytes fills: the copy of the bytes, then the size. */
  method PackWords(bytes: seq<bv8>) returns (words: seq<bv64>)
    ensures words == Pack(bytes)
  {
    hide PackedTo, Word, Chunks, SizeBytes;
    words := [];
    PackEnds(words, bytes);
    var at := 0;
    while at < |bytes|
      invariant 0 <= at <= |bytes| && PackedTo(words, bytes, at)
    {
      PackStep(words, bytes, at);
      var n := Min(8, |bytes| - at);
      words, at := words + [Word(bytes[at..at + n])], at + n;
    }
    PackEnds(words, bytes);
    words := words + [Word(SizeBytes(|bytes|, 8))];
  }

  method HashBytes(bytes: seq<bv8>) returns (hash: bv64)
    ensures hash == Hash(Pack(bytes), 0)
  {
    hide Hash, Pack;
    var words := PackWords(bytes);
    hash := Murmur(words, 0);
  }

  // ----- in numbers --------------------------------------------------------------------

  lemma TwoWordsSteps()
    ensures Mix(0x1) == 0x34e09d0b6bdefe38 && Fold(0x2a, 0x34e09d0b6bdefe38) == 0xc8dad7b32b1fffb1
    ensures Mix(0x123456789abcdef0) == 0x1669c001e9aee87
    ensures Fold(0xc8dad7b32b1fffb1, 0x1669c001e9aee87) == 0x5ccab0e26252fa
    ensures Finish(0x5ccab0e26252fa) == 0x17e212c5cddac8aa
  {
  }

  /** The hash of two words, in numbers. */
  lemma TwoWords()
    ensures Hash([0x1, 0x123456789abcdef0], 42) == 0x17e212c5cddac8aa
  {
    hide Mix, Fold, Finish;
    TwoWordsSteps();
    assert [0x1, 0x123456789abcdef0][1..] == [0x123456789abcdef0];
    assert [0x123456789abcdef0][1..] == [];
    assert Absorb([0x123456789abcdef0], 0xc8dad7b32b1fffb1) == 0x5ccab0e26252fa;
    assert Absorb([0x1, 0x123456789abcdef0], 0x2a) == 0x5ccab0e26252fa;
  }

  lemma ThreeWordsSteps()
    ensures Mix(0x69726373796c726f) == 0x4ba5887facbc1c90 && Fold(0x0, 0x4ba5887facbc1c90) == 0xf2fd6476deaec478
    ensures Mix(0x7470) == 0x4b695b741c42185c && Fold(0xf2fd6476deaec478, 0x4b695b741c42185c) == 0x6e7502660fdc1101
    ensures Mix(0xa) == 0xaf6494047b11cfab && Fold(0x6e7502660fdc1101, 0xaf6494047b11cfab) == 0x62402acb0107a6a8
    ensures Finish(0x62402acb0107a6a8) == 0xebe20d5959a18c73
  {
  }

  /** The hash of three words, in numbers. */
  lemma ThreeWords()
    ensures Hash([0x69726373796c726f, 0x7470, 0xa], 0) == 0xebe20d5959a18c73
  {
    hide Mix, Fold, Finish;
    ThreeWordsSteps();
    assert [0x69726373796c726f, 0x7470, 0xa][1..] == [0x7470, 0xa];
    assert [0x7470, 0xa][1..] == [0xa];
    assert [0xa][1..] == [];
    assert Absorb([0xa], 0x6e7502660fdc1101) == 0x62402acb0107a6a8;
    assert Absorb([0x7470, 0xa], 0xf2fd6476deaec478) == 0x62402acb0107a6a8;
    assert Absorb([0x69726373796c726f, 0x7470, 0xa], 0x0) == 0x62402acb0107a6a8;
  }

  lemma EightBytesJoins()
    ensures Join(0x6f, 0x69726373796c72) == 0x69726373796c726f
    ensures Join(0x72, 0x69726373796c) == 0x69726373796c72
    ensures Join(0x6c, 0x6972637379) == 0x69726373796c
    ensures Join(0x79, 0x69726373) == 0x6972637379
    ensures Join(0x73, 0x697263) == 0x69726373
    ensures Join(0x63, 0x6972) == 0x697263
    ensures Join(0x72, 0x69) == 0x6972
    ensures Join(0x69, 0x0) == 0x69
  {
  }

  lemma {:induction false} EightBytes()
    ensures Word([0x6f, 0x72, 0x6c, 0x79, 0x73, 0x63, 0x72, 0x69]) == 0x69726373796c726f
  {
    hide Join;
    EightBytesJoins();
    assert [0x6f, 0x72, 0x6c, 0x79, 0x73, 0x63, 0x72, 0x69][1..] == [0x72, 0x6c, 0x79, 0x73, 0x63, 0x72, 0x69];
    assert [0x72, 0x6c, 0x79, 0x73, 0x63, 0x72, 0x69][1..] == [0x6c, 0x79, 0x73, 0x63, 0x72, 0x69];
    assert [0x6c, 0x79, 0x73, 0x63, 0x72, 0x69][1..] == [0x79, 0x73, 0x63, 0x72, 0x69];
    assert [0x79, 0x73, 0x63, 0x72, 0x69][1..] == [0x73, 0x63, 0x72, 0x69];
    assert [0x73, 0x63, 0x72, 0x69][1..] == [0x63, 0x72, 0x69];
    assert [0x63, 0x72, 0x69][1..] == [0x72, 0x69];
    assert [0x72, 0x69][1..] == [0x69];
    assert [0x69][1..] == [];
    assert Word([0x69]) == 0x69;
    assert Word([0x72, 0x69]) == 0x6972;
    assert Word([0x63, 0x72, 0x69]) == 0x697263;
    assert Word([0x73, 0x63, 0x72, 0x69]) == 0x69726373;
    assert Word([0x79, 0x73, 0x63, 0x72, 0x69]) == 0x6972637379;
    assert Word([0x6c, 0x79, 0x73, 0x63, 0x72, 0x69]) == 0x69726373796c;
    assert Word([0x72, 0x6c, 0x79, 0x73, 0x63, 0x72, 0x69]) == 0x69726373796c72;
    assert Word([0x6f, 0x72, 0x6c, 0x79, 0x73, 0x63, 0x72, 0x69]) == 0x69726373796c726f;
  }

  lemma TwoBytesJoins()
    ensures Join(0x70, 0x74) == 0x7470
    ensures Join(0x74, 0x0) == 0x74
  {
  }

  lemma {:induction false} TwoBytes()
    ensures Word([0x70, 0x74]) == 0x7470
  {
    hide Join;
    TwoBytesJoins();
    assert [0x70, 0x74][1..] == [0x74];
    assert [0x74][1..] == [];
    assert Word([0x74]) == 0x74;
    assert Word([0x70, 0x74]) == 0x7470;
  }

  lemma TenAsBytesJoins()
    ensures Join(0xa, 0x0) == 0xa
    ensures Join(0x0, 0x0) == 0x0
    ensures Join(0x0, 0x0) == 0x0
    ensures Join(0x0, 0x0) == 0x0
    ensures Join(0x0, 0x0) == 0x0
    ensures Join(0x0, 0x0) == 0x0
    ensures Join(0x0, 0x0) == 0x0
    ensures Join(0x0, 0x0) == 0x0
  {
  }

  lemma {:induction false} TenAsBytes()
    ensures Word([0xa, 0x0, 0x0, 0x0, 0x0, 0x0, 0x0, 0x0]) == 0xa
  {
    hide Join;
    TenAsBytesJoins();
    assert [0xa, 0x0, 0x0, 0x0, 0x0, 0x0, 0x0, 0x0][1..] == [0x0, 0x0, 0x0, 0x0, 0x0, 0x0, 0x0];
    assert [0x0, 0x0, 0x0, 0x0, 0x0, 0x0, 0x0][1..] == [0x0, 0x0, 0x0, 0x0, 0x0, 0x0];
    assert [0x0, 0x0, 0x0, 0x0, 0x0, 0x0][1..] == [0x0, 0x0, 0x0, 0x0, 0x0];
    assert [0x0, 0x0, 0x0, 0x0, 0x0][1..] == [0x0, 0x0, 0x0, 0x0];
    assert [0x0, 0x0, 0x0, 0x0][1..] == [0x0, 0x0, 0x0];
    assert [0x0, 0x0, 0x0][1..] == [0x0, 0x0];
    assert [0x0, 0x0][1..] == [0x0];
    assert [0x0][1..] == [];
    assert Word([0x0]) == 0x0;
    assert Word([0x0, 0x0]) == 0x0;
    assert Word([0x0, 0x0, 0x0]) == 0x0;
    assert Word([0x0, 0x0, 0x0, 0x0]) == 0x0;
    assert Word([0x0, 0x0, 0x0, 0x0, 0x0]) == 0x0;
    assert Word([0x0, 0x0, 0x0, 0x0, 0x0, 0x0]) == 0x0;
    assert Word([0x0, 0x0, 0x0, 0x0, 0x0, 0x0, 0x0]) == 0x0;
    assert Word([0xa, 0x0, 0x0, 0x0, 0x0, 0x0, 0x0, 0x0]) == 0xa;
  }

  lemma {:induction false} ByteTen()
    ensures ToByte(Bits(10, 8)) == 10
  {
    assert Bits(0, 0) == [];
    assert Bits(0, 1) == [false];
    assert Bits(0, 2) == [false, false];
    assert Bits(0, 3) == [false, false, false];
    assert Bits(0, 4) == [false, false, false, false];
    assert Bits(1, 5) == [true, false, false, false, false];
    assert Bits(2, 6) == [false, true, false, false, false, false];
    assert Bits(5, 7) == [true, false, true, false, false, false, false];
    assert Bits(10, 8) == [false, true, false, true, false, false, false, false];
  }

  lemma {:induction false} ByteZero()
    ensures ToByte(Bits(0, 8)) == 0
  {
    assert Bits(0, 0) == [];
    assert Bits(0, 1) == [false];
    assert Bits(0, 2) == [false, false];
    assert Bits(0, 3) == [false, false, false];
    assert Bits(0, 4) == [false, false, false, false];
    assert Bits(0, 5) == [false, false, false, false, false];
    assert Bits(0, 6) == [false, false, false, false, false, false];
    assert Bits(0, 7) == [false, false, false, false, false, false, false];
    assert Bits(0, 8) == [false, false, false, false, false, false, false, false];
  }

  lemma {:induction false} SizeTen()
    ensures SizeBytes(10, 8) == [0xa, 0x0, 0x0, 0x0, 0x0, 0x0, 0x0, 0x0]
  {
    hide Bits, ToByte;
    ByteTen();
    ByteZero();
    assert SizeBytes(0, 0) == [];
    assert SizeBytes(0, 1) == [0x0];
    assert SizeBytes(0, 2) == [0x0, 0x0];
    assert SizeBytes(0, 3) == [0x0, 0x0, 0x0];
    assert SizeBytes(0, 4) == [0x0, 0x0, 0x0, 0x0];
    assert SizeBytes(0, 5) == [0x0, 0x0, 0x0, 0x0, 0x0];
    assert SizeBytes(0, 6) == [0x0, 0x0, 0x0, 0x0, 0x0, 0x0];
    assert SizeBytes(0, 7) == [0x0, 0x0, 0x0, 0x0, 0x0, 0x0, 0x0];
  }

  /** The hash of the bytes of "orlyscript", in numbers: eight bytes and then two make a word each, the first byte the
      lowest, and the number of the bytes is the last word. */
  lemma TenBytes()
    ensures Hash(Pack([0x6f, 0x72, 0x6c, 0x79, 0x73, 0x63, 0x72, 0x69, 0x70, 0x74]), 0) == 0xebe20d5959a18c73
  {
    hide Word, SizeBytes, Hash;
    var bytes: seq<bv8> := [0x6f, 0x72, 0x6c, 0x79, 0x73, 0x63, 0x72, 0x69, 0x70, 0x74];
    assert bytes[..8] == [0x6f, 0x72, 0x6c, 0x79, 0x73, 0x63, 0x72, 0x69] && bytes[8..] == [0x70, 0x74];
    var rest: seq<bv8> := [0x70, 0x74];
    assert rest[..2] == rest && rest[2..] == [];
    EightBytes();
    TwoBytes();
    TenAsBytes();
    SizeTen();
    assert Chunks(rest) == [0x7470];
    assert Pack(bytes) == [0x69726373796c726f, 0x7470, 0xa];
    ThreeWords();
  }
}
