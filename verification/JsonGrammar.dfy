/** The JSON of base/json.h without numbers, as a grammar: trees, the text a tree is written as and the value it means.
    It is stated in characters, apart from the printer and the reader, and both are proved against it. */
module JsonGrammar {
  import opened Common
  import opened JsonScan
  import opened Json

  /** An ASCII character. */
  function Byte(c: char): bv8 {
    if c as int < 128 then c as int as bv8 else 0
  }

  function Bytes(s: string): Text {
    seq(|s|, i requires 0 <= i < |s| => Byte(s[i]))
  }

  // ----- strings -----------------------------------------------------------------------

  /** What stands for a few bytes of a string: a byte for itself, a letter behind a backslash, or four hex digits behind
      a backslash and a u, with the bytes they stand for. */
  datatype Piece =
    | Plain(byte: bv8)
    | Short(letter: char)
    | Unicode(h3: char, h2: char, h1: char, h0: char, bytes: Text)

  predicate IsShort(letter: char) {
    letter in "\"\\/bfnrt"
  }

  function ShortMeans(letter: char): bv8 {
    match letter
    case 'b' => 0x08  // backspace
    case 't' => 0x09  // tab
    case 'n' => 0x0A  // line feed
    case 'f' => 0x0C  // form feed
    case 'r' => 0x0D  // carriage return
    case c => Byte(c)
  }

  predicate IsHex(c: char) {
    c in "0123456789" || c in "abcdef" || c in "ABCDEF"
  }

  function HexMeans(c: char): bv32 {
    match c
    case '0' => 0 case '1' => 1 case '2' => 2 case '3' => 3 case '4' => 4
    case '5' => 5 case '6' => 6 case '7' => 7 case '8' => 8 case '9' => 9
    case 'a' | 'A' => 10 case 'b' | 'B' => 11 case 'c' | 'C' => 12
    case 'd' | 'D' => 13 case 'e' | 'E' => 14 case _ => 15
  }

  function CodeUnit(h3: char, h2: char, h1: char, h0: char): bv32 {
    (HexMeans(h3) << 12) | (HexMeans(h2) << 8) | (HexMeans(h1) << 4) | HexMeans(h0)
  }

  /** The table of section 3 of RFC 3629, for code points of up to 16 bits: the marks of the lead and of the following
      bytes, and where the bits of the code point are. The shortest form is the only one. */
  predicate IsUtf8(val: bv32, b: Text) {
    if val < 0x80 then |b| == 1 && b[0] as bv32 == val
    else if val < 0x800 then |b| == 2 && CarryTwo(val, b[0], b[1])
    else |b| == 3 && Marked(b[0], b[1], b[2]) && Joined(b[0], b[1], b[2]) == val
  }

  predicate CarryTwo(val: bv32, x: bv8, y: bv8) {
    x & 0xE0 == 0xC0 && y & 0xC0 == 0x80 && ((x & 0x1F) as bv32 << 6) | (y & 0x3F) as bv32 == val
  }

  /** Three bytes with the marks of the table, and the bits they carry. */
  predicate Marked(x: bv8, y: bv8, z: bv8) {
    x & 0xF0 == 0xE0 && y & 0xC0 == 0x80 && z & 0xC0 == 0x80
  }

  function Joined(x: bv8, y: bv8, z: bv8): bv32 {
    ((x & 0x0F) as bv32 << 12) | ((y & 0x3F) as bv32 << 6) | (z & 0x3F) as bv32
  }

  predicate PieceOk(p: Piece) {
    match p
    case Plain(c) => c != Byte('"') && c != Byte('\\')
    case Short(letter) => IsShort(letter)
    case Unicode(h3, h2, h1, h0, bytes) =>
      IsHex(h3) && IsHex(h2) && IsHex(h1) && IsHex(h0) && IsUtf8(CodeUnit(h3, h2, h1, h0), bytes)
  }

  function PieceText(p: Piece): Text {
    match p
    case Plain(c) => [c]
    case Short(letter) => [Byte('\\'), Byte(letter)]
    case Unicode(h3, h2, h1, h0, _) => [Byte('\\'), Byte('u'), Byte(h3), Byte(h2), Byte(h1), Byte(h0)]
  }

  function PieceMeans(p: Piece): Text {
    match p
    case Plain(c) => [c]
    case Short(letter) => [ShortMeans(letter)]
    case Unicode(_, _, _, _, bytes) => bytes
  }

  predicate PiecesOk(ps: seq<Piece>) {
    forall i | 0 <= i < |ps| :: PieceOk(ps[i])
  }

  function PiecesText(ps: seq<Piece>): Text {
    if ps == [] then [] else PieceText(ps[0]) + PiecesText(ps[1..])
  }

  function PiecesMean(ps: seq<Piece>): Text {
    if ps == [] then [] else PieceMeans(ps[0]) + PiecesMean(ps[1..])
  }

  function QuoteText(ps: seq<Piece>): Text {
    [Byte('"')] + PiecesText(ps) + [Byte('"')]
  }

  /** Text no piece begins and that does not close a string either, with the error it makes. */
  predicate Stuck(s: Text, e: SyntaxError) {
    match e
    case MissingClosingQuote => s == []
    case BadEscape =>
      s != [] && s[0] == Byte('\\') && (|s| > 1 ==> forall c | IsShort(c) || c == 'u' :: s[1] != Byte(c))
    case BadHex =>
      && |s| > 1 && s[0] == Byte('\\') && s[1] == Byte('u')
      && (|s| < 6 || exists i | 2 <= i < 6 :: forall c | IsHex(c) :: s[i] != Byte(c))
    case _ => false
  }

  // ----- the characters in numbers -----------------------------------------------------

  lemma Marks()
    ensures Byte('"') == QUOTE && Byte('\\') == BACKSLASH && Byte('/') == SLASH && Byte('u') == 0x75
    ensures Byte(',') == COMMA && Byte(':') == COLON
    ensures Byte('[') == OPEN_ARRAY && Byte(']') == CLOSE_ARRAY && Byte('{') == OPEN_OBJECT && Byte('}') == CLOSE_OBJECT
  {
  }

  lemma ShortOf(c: char)
    requires IsShort(c)
    ensures Byte(c) != 0x75 && ShortEscape(Byte(c)) == Some(ShortMeans(c))
  {
    hide Byte;
    Marks();
    ShortBytes();
  }

  lemma ShortBytes()
    ensures Byte('b') == 0x62 && Byte('f') == 0x66 && Byte('n') == 0x6E && Byte('r') == 0x72 && Byte('t') == 0x74
  {
  }

  /** The letter of a short escape. */
  lemma LetterOf(b: bv8) returns (c: char)
    requires ShortEscape(b).Some?
    ensures IsShort(c) && Byte(c) == b
  {
    c := if b == QUOTE then '"' else if b == BACKSLASH then '\\' else if b == SLASH then '/'
         else if b == 0x62 then 'b' else if b == 0x66 then 'f' else if b == 0x6E then 'n'
         else if b == 0x72 then 'r' else 't';
  }

  lemma HexOf(c: char)
    requires IsHex(c)
    ensures HexValue(Byte(c)) == Some(HexMeans(c)) && HexMeans(c) < 16
  {
    if c in "0123456789" {
      DecimalOf(c);
    } else if c in "abcdef" {
      LowerOf(c);
    } else {
      UpperOf(c);
    }
  }

  lemma DecimalBytes()
    ensures Byte('0') == 0x30 && Byte('1') == 0x31 && Byte('2') == 0x32 && Byte('3') == 0x33 && Byte('4') == 0x34
    ensures Byte('5') == 0x35 && Byte('6') == 0x36 && Byte('7') == 0x37 && Byte('8') == 0x38 && Byte('9') == 0x39
  {
  }

  lemma DecimalOf(c: char)
    requires c in "0123456789"
    ensures HexValue(Byte(c)) == Some(HexMeans(c)) && HexMeans(c) < 16
  {
    hide Byte;
    DecimalBytes();
  }

  lemma LowerBytes()
    ensures Byte('a') == 0x61 && Byte('b') == 0x62 && Byte('c') == 0x63
    ensures Byte('d') == 0x64 && Byte('e') == 0x65 && Byte('f') == 0x66
  {
  }

  lemma LowerOf(c: char)
    requires c in "abcdef"
    ensures HexValue(Byte(c)) == Some(HexMeans(c)) && HexMeans(c) < 16
  {
    hide Byte;
    LowerBytes();
  }

  lemma UpperBytes()
    ensures Byte('A') == 0x41 && Byte('B') == 0x42 && Byte('C') == 0x43
    ensures Byte('D') == 0x44 && Byte('E') == 0x45 && Byte('F') == 0x46
  {
  }

  lemma UpperOf(c: char)
    requires c in "ABCDEF"
    ensures HexValue(Byte(c)) == Some(HexMeans(c)) && HexMeans(c) < 16 && 0x41 <= Byte(c) <= 0x46
  {
    hide Byte;
    UpperBytes();
  }

  /** The hex digit a byte is. */
  lemma DigitOf(b: bv8) returns (c: char)
    requires HexValue(b).Some?
    ensures IsHex(c) && Byte(c) == b
  {
    hide LowDigit, HighDigit, Byte;
    if b <= 0x39 {
      c := LowDigit(b);
      LowDigitIs(b);
    } else {
      c := HighDigit(b);
      HighDigitIs(b);
    }
  }

  function LowDigit(b: bv8): char {
    if b == 0x30 then '0' else if b == 0x31 then '1' else if b == 0x32 then '2' else if b == 0x33 then '3'
    else if b == 0x34 then '4' else if b == 0x35 then '5' else if b == 0x36 then '6' else if b == 0x37 then '7'
    else if b == 0x38 then '8' else '9'
  }

  lemma LowDigitIs(b: bv8)
    requires 0x30 <= b <= 0x39
    ensures LowDigit(b) in "0123456789" && Byte(LowDigit(b)) == b
  {
  }

  function HighDigit(b: bv8): char {
    if b == 0x41 then 'A' else if b == 0x42 then 'B' else if b == 0x43 then 'C' else if b == 0x44 then 'D'
    else if b == 0x45 then 'E' else if b == 0x46 then 'F' else if b == 0x61 then 'a' else if b == 0x62 then 'b'
    else if b == 0x63 then 'c' else if b == 0x64 then 'd' else if b == 0x65 then 'e' else 'f'
  }

  lemma HighDigitIs(b: bv8)
    requires 0x41 <= b <= 0x46 || 0x61 <= b <= 0x66
    ensures (HighDigit(b) in "abcdef" || HighDigit(b) in "ABCDEF") && Byte(HighDigit(b)) == b
  {
  }

  /** The reader's arithmetic on four digits is the code unit. */
  lemma UnitOf(a: bv32, b: bv32, c: bv32, d: bv32)
    requires a < 16 && b < 16 && c < 16 && d < 16
    ensures AddDigit(AddDigit(AddDigit(AddDigit(0, a), b), c), d) == (a << 12) | (b << 8) | (c << 4) | d <= 0xFFFF
  {
  }

  /** The reader's bytes for a code unit are its UTF-8 and nothing else is: one, two or three bytes. */
  lemma Utf8Iff(val: bv32, b: Text)
    requires val <= 0xFFFF
    ensures IsUtf8(val, b) <==> b == Utf8(val)
  {
    if val < 0x80 {
      OneByte(val, b);
    } else if val < 0x800 {
      TwoBytes(val, b);
    } else {
      ThreeBytes(val, b);
    }
  }

  lemma OneByte(val: bv32, b: Text)
    requires val < 0x80
    ensures IsUtf8(val, b) <==> b == Utf8(val)
  {
    if |b| == 1 {
      assert b[0] as bv32 == val <==> b[0] == LowByte(val);
    }
  }

  lemma TwoBytes(val: bv32, b: Text)
    requires 0x80 <= val < 0x800
    ensures IsUtf8(val, b) <==> b == Utf8(val)
  {
    hide LowByte, CarryTwo;
    if |b| == 2 {
      TwoBits(val, b[0], b[1]);
      assert b == [b[0], b[1]];
    }
  }

  lemma TwoBits(val: bv32, x: bv8, y: bv8)
    requires 0x80 <= val < 0x800
    ensures CarryTwo(val, x, y) <==> x == LowByte(0xC0 | (val >> 6)) && y == LowByte(0x80 | (val & 0x3F))
  {
  }

  lemma ThreeBytes(val: bv32, b: Text)
    requires 0x800 <= val <= 0xFFFF
    ensures IsUtf8(val, b) <==> b == Utf8(val)
  {
    hide Marked, Joined, Utf8;
    Join(val);
    if IsUtf8(val, b) {
      Split(b[0], b[1], b[2]);
      assert b == [b[0], b[1], b[2]];
    }
  }

  lemma Split(x: bv8, y: bv8, z: bv8)
    requires Marked(x, y, z) && 0x800 <= Joined(x, y, z)
    ensures Utf8(Joined(x, y, z)) == [x, y, z]
  {
    hide Marked, Joined, LowByte;
    SplitBits(x, y, z);
  }

  lemma SplitBits(x: bv8, y: bv8, z: bv8)
    requires Marked(x, y, z)
    ensures x == LowByte(0xE0 | (Joined(x, y, z) >> 12))
    ensures y == LowByte(0x80 | ((Joined(x, y, z) >> 6) & 0x3F)) && z == LowByte(0x80 | (Joined(x, y, z) & 0x3F))
  {
  }

  lemma Join(val: bv32)
    requires 0x800 <= val <= 0xFFFF
    ensures |Utf8(val)| == 3 && Marked(Utf8(val)[0], Utf8(val)[1], Utf8(val)[2])
    ensures Joined(Utf8(val)[0], Utf8(val)[1], Utf8(val)[2]) == val
  {
    hide Marked, Joined, LowByte;
    JoinBits(val, LowByte(0xE0 | (val >> 12)), LowByte(0x80 | ((val >> 6) & 0x3F)), LowByte(0x80 | (val & 0x3F)));
  }

  lemma JoinBits(val: bv32, x: bv8, y: bv8, z: bv8)
    requires val <= 0xFFFF
    requires x == LowByte(0xE0 | (val >> 12)) && y == LowByte(0x80 | ((val >> 6) & 0x3F))
    requires z == LowByte(0x80 | (val & 0x3F))
    ensures Marked(x, y, z) && Joined(x, y, z) == val
  {
  }

  // ----- reading a quoted string -------------------------------------------------------

  lemma HexRead(h3: char, h2: char, h1: char, h0: char, more: Text)
    requires IsHex(h3) && IsHex(h2) && IsHex(h1) && IsHex(h0)
    ensures Hex4([Byte(h3), Byte(h2), Byte(h1), Byte(h0)] + more) == Some(CodeUnit(h3, h2, h1, h0))
    ensures CodeUnit(h3, h2, h1, h0) <= 0xFFFF
  {
    hide Byte, HexValue, IsHex, HexMeans, AddDigit;
    HexOf(h3);
    HexOf(h2);
    HexOf(h1);
    HexOf(h0);
    UnitOf(HexMeans(h3), HexMeans(h2), HexMeans(h1), HexMeans(h0));
  }

  /** A piece is read as what it stands for. */
  lemma PieceRead(p: Piece, more: Text, acc: Text)
    requires PieceOk(p)
    ensures Unquote(PieceText(p) + more, acc) == Unquote(more, acc + PieceMeans(p))
  {
    hide Byte, ShortMeans, ShortEscape, CodeUnit, IsUtf8, Utf8, Hex4, IsHex, IsShort;
    var s := PieceText(p) + more;
    Marks();
    match p {
      case Plain(c) =>
        assert s[1..] == more;
      case Short(letter) =>
        ShortOf(letter);
        assert s[2..] == more;
      case Unicode(h3, h2, h1, h0, bytes) =>
        HexRead(h3, h2, h1, h0, more);
        Utf8Iff(CodeUnit(h3, h2, h1, h0), bytes);
        assert s[2..] == [Byte(h3), Byte(h2), Byte(h1), Byte(h0)] + more;
        assert s[6..] == more;
    }
  }

  lemma {:induction false} PiecesRead(ps: seq<Piece>, tail: Text, acc: Text)
    requires PiecesOk(ps)
    ensures Unquote(PiecesText(ps) + tail, acc) == Unquote(tail, acc + PiecesMean(ps))
    decreases ps
  {
    hide PieceText, PieceMeans, PieceOk, Unquote;
    if ps == [] {
      assert PiecesText(ps) + tail == tail && acc + PiecesMean(ps) == acc;
    } else {
      var more := PiecesText(ps[1..]) + tail;
      assert PiecesText(ps) + tail == PieceText(ps[0]) + more;
      PieceRead(ps[0], more, acc);
      PiecesRead(ps[1..], tail, acc + PieceMeans(ps[0]));
      assert acc + PieceMeans(ps[0]) + PiecesMean(ps[1..]) == acc + PiecesMean(ps);
    }
  }

  /** Text that begins with four digits, cut there. */
  lemma UnitAt(s: Text) returns (p: Piece)
    requires |s| > 1 && s[0] == BACKSLASH && s[1] == 0x75 && Hex4(s[2..]).Some?
    ensures PieceOk(p) && |s| >= 6 && s == PieceText(p) + s[6..] && |PieceText(p)| == 6
  {
    hide Byte, HexValue, IsHex, HexMeans, AddDigit, IsUtf8, Utf8, CodeUnit;
    Marks();
    var a := DigitOf(s[2]);
    var b := DigitOf(s[3]);
    var c := DigitOf(s[4]);
    var d := DigitOf(s[5]);
    var val := CodeUnit(a, b, c, d);
    HexRead(a, b, c, d, []);
    p := Unicode(a, b, c, d, Utf8(val));
    Utf8Iff(val, Utf8(val));
    assert s == PieceText(p) + s[6..];
  }

  lemma BadUnit(s: Text)
    requires |s| > 1 && s[0] == BACKSLASH && s[1] == 0x75
    ensures Stuck(s, BadHex) <==> Hex4(s[2..]) == None
  {
    hide Byte, HexValue, IsHex, HexMeans, AddDigit;
    Marks();
    if |s| >= 6 {
      forall i | 2 <= i < 6
        ensures HexValue(s[i]) == None <==> forall c | IsHex(c) :: s[i] != Byte(c)
      {
        NotHex(s[i]);
      }
      assert s[2..][0] == s[2] && s[2..][1] == s[3] && s[2..][2] == s[4] && s[2..][3] == s[5];
    }
  }

  lemma NotHex(b: bv8)
    ensures HexValue(b) == None <==> forall c | IsHex(c) :: b != Byte(c)
  {
    hide Byte, HexValue, IsHex, HexMeans;
    if HexValue(b).Some? {
      var c := DigitOf(b);
    } else {
      forall c | IsHex(c) ensures b != Byte(c) {
        HexOf(c);
      }
    }
  }

  lemma NotShort(b: bv8)
    ensures b != 0x75 && ShortEscape(b) == None <==> forall c | IsShort(c) || c == 'u' :: b != Byte(c)
  {
    hide Byte, ShortEscape, IsShort, ShortMeans;
    Marks();
    if ShortEscape(b).Some? {
      var c := LetterOf(b);
    } else {
      forall c | IsShort(c) ensures b != Byte(c) {
        ShortOf(c);
      }
    }
  }

  /** Text that does not close the string begins with a piece, or is stuck and refused with that error. */
  lemma NextPiece(s: Text, acc: Text) returns (p: Option<Piece>, e: SyntaxError)
    requires s == [] || s[0] != QUOTE
    ensures p.Some? ==>
              && PieceOk(p.value) && 0 < |PieceText(p.value)| <= |s|
              && s == PieceText(p.value) + s[|PieceText(p.value)|..]
    ensures p.None? ==> Stuck(s, e) && Unquote(s, acc) == Err(e)
  {
    hide Byte, ShortMeans, ShortEscape, CodeUnit, IsUtf8, Utf8, Hex4, IsHex, IsShort;
    Marks();
    p, e := None, MissingClosingQuote;
    if s != [] && s[0] != BACKSLASH {
      p := Some(Plain(s[0]));
    } else if s != [] && |s| == 1 {
      e := BadEscape;
    } else if s != [] && s[1] == 0x75 {
      BadUnit(s);
      if Hex4(s[2..]).Some? {
        var u := UnitAt(s);
        p := Some(u);
      }
      e := BadHex;
    } else if s != [] {
      NotShort(s[1]);
      if ShortEscape(s[1]).Some? {
        var c := LetterOf(s[1]);
        p := Some(Short(c));
        assert s == PieceText(Short(c)) + s[2..];
      }
      e := BadEscape;
    }
  }

  lemma StuckIsRefused(s: Text, e: SyntaxError, acc: Text)
    requires Stuck(s, e)
    ensures Unquote(s, acc) == Err(e)
  {
    hide Byte, ShortEscape, Hex4, IsHex, IsShort;
    Marks();
    if |s| > 1 && e == BadHex {
      BadUnit(s);
    } else if |s| > 1 {
      NotShort(s[1]);
    }
  }

  /** Every text is pieces up to a closing quote or up to where it is stuck. */
  lemma {:induction false} SplitPieces(s: Text) returns (ps: seq<Piece>, tail: Text)
    ensures PiecesOk(ps) && s == PiecesText(ps) + tail
    ensures (tail != [] && tail[0] == QUOTE) || exists e :: Stuck(tail, e)
    decreases |s|
  {
    hide PieceOk, PieceText, Stuck, Unquote;
    ps, tail := [], s;
    if s == [] || s[0] != QUOTE {
      var p, e := NextPiece(s, []);
      if p.Some? {
        var n := |PieceText(p.value)|;
        var rest;
        rest, tail := SplitPieces(s[n..]);
        ps := [p.value] + rest;
        assert s == PieceText(p.value) + (PiecesText(rest) + tail) == PieceText(p.value) + PiecesText(rest) + tail;
        assert ps[1..] == rest;
      }
    }
  }

  /** The text is the pieces in quotes and what follows, and the pieces stand for text. */
  predicate Denotes(ps: seq<Piece>, s: Text, text: Text, rest: Text) {
    PiecesOk(ps) && s == QuoteText(ps) + rest && PiecesMean(ps) == text
  }

  /** After an opening quote and some pieces the text is stuck. */
  predicate StuckAfter(ps: seq<Piece>, s: Text, tail: Text, e: SyntaxError) {
    PiecesOk(ps) && s == [Byte('"')] + PiecesText(ps) + tail && Stuck(tail, e)
  }

  lemma QuotedRead(ps: seq<Piece>, s: Text, text: Text, rest: Text)
    requires Denotes(ps, s, text, rest)
    ensures ReadQuoted(s) == Ok((text, rest))
  {
    hide Byte, PiecesOk, PiecesMean, PiecesText;
    Marks();
    var tail := [QUOTE] + rest;
    assert s[1..] == PiecesText(ps) + tail;
    PiecesRead(ps, tail, []);
    assert Unquote(tail, PiecesMean(ps)) == Ok((PiecesMean(ps), rest)) by {
      assert tail[1..] == rest;
    }
    assert [] + PiecesMean(ps) == PiecesMean(ps);
  }

  lemma StuckRead(ps: seq<Piece>, s: Text, tail: Text, e: SyntaxError)
    requires StuckAfter(ps, s, tail, e)
    ensures ReadQuoted(s) == Err(e) && e != MissingOpeningQuote
  {
    hide Byte, PiecesOk, PiecesMean, PiecesText, Unquote;
    Marks();
    assert s[1..] == PiecesText(ps) + tail;
    PiecesRead(ps, tail, []);
    StuckIsRefused(tail, e, [] + PiecesMean(ps));
  }

  /** What a text that begins with a quote is: a string and the rest, or stuck. */
  lemma QuotedSplit(s: Text) returns (ps: seq<Piece>, tail: Text, e: SyntaxError)
    requires At(s, QUOTE)
    ensures if tail != [] && tail[0] == QUOTE then Denotes(ps, s, PiecesMean(ps), tail[1..])
            else StuckAfter(ps, s, tail, e)
  {
    hide PiecesOk, PiecesMean, PiecesText, Stuck, Byte;
    Marks();
    ps, tail := SplitPieces(s[1..]);
    e := MissingClosingQuote;
    if tail == [] || tail[0] != QUOTE {
      e :| Stuck(tail, e);
      assert s == [QUOTE] + PiecesText(ps) + tail;
    } else {
      assert s == QuoteText(ps) + tail[1..];
    }
  }

  /** The reader accepts exactly the texts that denote a string and returns what they denote. */
  lemma QuotedIff(s: Text, text: Text, rest: Text)
    ensures ReadQuoted(s) == Ok((text, rest)) <==> exists ps :: Denotes(ps, s, text, rest)
  {
    hide Denotes, StuckAfter, ReadQuoted;
    if ps :| Denotes(ps, s, text, rest) {
      QuotedRead(ps, s, text, rest);
    }
    if ReadQuoted(s) == Ok((text, rest)) {
      assert At(s, QUOTE) by {
        NoQuote(s);
      }
      var ps, tail, e := QuotedSplit(s);
      if tail != [] && tail[0] == QUOTE {
        QuotedRead(ps, s, PiecesMean(ps), tail[1..]);
      } else {
        StuckRead(ps, s, tail, e);
      }
    }
  }

  lemma NoQuote(s: Text)
    ensures !At(s, QUOTE) <==> ReadQuoted(s) == Err(MissingOpeningQuote)
  {
    hide StuckAfter, Denotes, PiecesMean;
    if At(s, QUOTE) {
      var ps, tail, e := QuotedSplit(s);
      if tail != [] && tail[0] == QUOTE {
        QuotedRead(ps, s, PiecesMean(ps), tail[1..]);
      } else {
        StuckRead(ps, s, tail, e);
      }
    }
  }

  /** The reader refuses exactly the other texts, and the error says where they are stuck. */
  lemma QuotedError(s: Text, e: SyntaxError)
    ensures ReadQuoted(s) == Err(e)
            <==> if e == MissingOpeningQuote then s == [] || s[0] != Byte('"')
                 else exists ps, tail :: StuckAfter(ps, s, tail, e)
  {
    hide Denotes, StuckAfter, ReadQuoted, Byte;
    Marks();
    NoQuote(s);
    if ps, tail :| StuckAfter(ps, s, tail, e) {
      StuckRead(ps, s, tail, e);
    }
    if ReadQuoted(s) == Err(e) && e != MissingOpeningQuote {
      var ps, tail, f := QuotedSplit(s);
      if tail != [] && tail[0] == QUOTE {
        QuotedRead(ps, s, PiecesMean(ps), tail[1..]);
      } else {
        StuckRead(ps, s, tail, f);
      }
    }
  }

  // ----- writing a quoted string -------------------------------------------------------

  /** A control character, a quote or a backslash may not stand for itself: section 7 of RFC 8259. */
  predicate Special(c: bv8) {
    c < 0x20 || c == Byte('"') || c == Byte('\\')
  }

  /** The piece the printer chooses for a byte: itself if it may stand for itself, else the short escape if there is
      one, else the code unit in lower case. */
  predicate Chosen(p: Piece, c: bv8) {
    && PieceOk(p) && PieceMeans(p) == [c]
    && match p
       case Plain(_) => !Special(c)
       case Short(letter) => Special(c)
       case Unicode(h3, h2, h1, h0, _) =>
         && Special(c) && (forall letter | IsShort(letter) :: ShortMeans(letter) != c)
         && h3 == h2 == '0' && h1 !in "ABCDEF" && h0 !in "ABCDEF"
  }

  lemma NibbleDigit(n: bv8) returns (c: char)
    requires n < 16
    ensures IsHex(c) && c !in "ABCDEF" && Byte(c) == HexDigit(n) && HexMeans(c) == n as bv32
  {
    hide Byte, HexValue, IsHex, HexMeans;
    HexBack(n);
    c := DigitOf(HexDigit(n));
    HexOf(c);
    if c in "ABCDEF" {
      UpperOf(c);
    }
  }

  /** What is written for one byte. */
  lemma EscapedPiece(c: bv8) returns (p: Piece)
    ensures Chosen(p, c) && Escaped(c) == PieceText(p)
  {
    hide Byte, IsHex, HexMeans, HexValue, AddDigit, IsUtf8, Utf8, HexDigit, IsShort, ShortMeans, ShortEscape;
    Marks();
    if !MustEscape(c) {
      p := Plain(c);
    } else if |Escaped(c)| == 2 {
      EscapedShort(c);
      var letter := LetterOf(Escaped(c)[1]);
      ShortOf(letter);
      p := Short(letter);
    } else {
      NoShort(c);
      p := ControlPiece(c);
    }
  }

  lemma NoShort(c: bv8)
    requires |Escaped(c)| == 6
    ensures forall letter | IsShort(letter) :: ShortMeans(letter) != c
  {
  }

  lemma EscapedShort(c: bv8)
    requires |Escaped(c)| == 2
    ensures Escaped(c)[0] == BACKSLASH && ShortEscape(Escaped(c)[1]) == Some(c)
  {
  }

  lemma ControlPiece(c: bv8) returns (p: Piece)
    requires c < 0x20
    ensures p.Unicode? && PieceOk(p) && PieceMeans(p) == [c]
    ensures p.h3 == p.h2 == '0' && p.h1 !in "ABCDEF" && p.h0 !in "ABCDEF"
    ensures PieceText(p) == [BACKSLASH, 0x75, 0x30, 0x30, HexDigit((c >> 4) & 0xF), HexDigit(c & 0xF)]
  {
    hide Byte, IsHex, HexMeans, HexValue, AddDigit, IsUtf8, Utf8, HexDigit;
    Marks();
    NibblesBack(c);
    ControlBack(c, []);
    var hi := NibbleDigit((c >> 4) & 0xF);
    var lo := NibbleDigit(c & 0xF);
    ZeroDigit();
    HexOf('0');
    UnitOf(0, 0, ((c >> 4) & 0xF) as bv32, (c & 0xF) as bv32);
    Utf8Iff(c as bv32, [c]);
    p := Unicode('0', '0', hi, lo, [c]);
  }

  lemma ZeroDigit()
    ensures IsHex('0') && Byte('0') == 0x30 && HexMeans('0') == 0
  {
  }

  /** Everything the printer writes for a string denotes that string, with the chosen piece for each byte. */
  lemma {:induction false} QuotedDenotes(text: Text) returns (ps: seq<Piece>)
    ensures Denotes(ps, Quoted(text), text, []) && |ps| == |text|
    ensures forall i | 0 <= i < |ps| :: Chosen(ps[i], text[i])
  {
    hide Byte, PiecesOk, Chosen, PiecesText, EscapeAll, PiecesMean;
    Marks();
    ps := EscapedPieces(text);
    assert Quoted(text) == QuoteText(ps) + [];
  }

  lemma {:induction false} EscapedPieces(text: Text) returns (ps: seq<Piece>)
    ensures PiecesOk(ps) && PiecesText(ps) == EscapeAll(text) && PiecesMean(ps) == text && |ps| == |text|
    ensures forall i | 0 <= i < |ps| :: Chosen(ps[i], text[i])
  {
    hide Byte, PieceOk, Special, PieceText, Escaped, PieceMeans;
    if text == [] {
      ps := [];
    } else {
      var p := EscapedPiece(text[0]);
      var rest := EscapedPieces(text[1..]);
      ps := [p] + rest;
      assert ps[1..] == rest && text == [text[0]] + text[1..];
    }
  }

  // ----- values ------------------------------------------------------------------------

  const BLANKS := " \t\n\U{0B}\U{0C}\r"
  const PUNCTUATION := "[]{},:\""

  predicate Blank(c: bv8) {
    c in Bytes(BLANKS)
  }

  /** A character of a word without quotes. */
  predicate Bare(c: bv8) {
    !Blank(c) && c !in Bytes(PUNCTUATION)
  }

  predicate AllBlank(s: Text) {
    forall i | 0 <= i < |s| :: Blank(s[i])
  }

  predicate AllBare(s: Text) {
    forall i | 0 <= i < |s| :: Bare(s[i])
  }

  /** A value with the blanks before it. */
  datatype Tree =
    | Word(ws: Text, word: Text)
    | Quote(ws: Text, pieces: seq<Piece>)
    | List(ws: Text, items: Items)
    | Dict(ws: Text, fields: Fields)

  /** The rest of an array: a comma or none, with the blanks before it, then an item or the end. */
  datatype Items =
    | EndItems(comma: Option<Text>, ws: Text)
    | Item(comma: Option<Text>, item: Tree, more: Items)

  datatype Fields =
    | EndFields(comma: Option<Text>, ws: Text)
    | Field(comma: Option<Text>, key: Key, colon: Text, value: Tree, more: Fields)

  datatype Key =
    | BareKey(ws: Text, word: Text)
    | QuotedKey(ws: Text, pieces: seq<Piece>)

  function CommaText(comma: Option<Text>): Text {
    match comma
    case None => []
    case Some(ws) => ws + [Byte(',')]
  }

  function TreeText(t: Tree): Text
    decreases t, 1
  {
    t.ws + Core(t)
  }

  function Core(t: Tree): Text
    decreases t, 0
  {
    match t
    case Word(_, word) => word
    case Quote(_, pieces) => QuoteText(pieces)
    case List(_, items) => [Byte('[')] + ItemsText(items)
    case Dict(_, fields) => [Byte('{')] + FieldsText(fields)
  }

  function ItemsText(items: Items): Text {
    match items
    case EndItems(comma, ws) => CommaText(comma) + (ws + [Byte(']')])
    case Item(comma, item, more) => CommaText(comma) + (TreeText(item) + ItemsText(more))
  }

  function KeyText(key: Key): Text {
    match key
    case BareKey(ws, word) => ws + word
    case QuotedKey(ws, pieces) => ws + QuoteText(pieces)
  }

  function FieldsText(fields: Fields): Text {
    match fields
    case EndFields(comma, ws) => CommaText(comma) + (ws + [Byte('}')])
    case Field(comma, key, colon, value, more) =>
      CommaText(comma) + (KeyText(key) + (colon + ([Byte(':')] + (TreeText(value) + FieldsText(more)))))
  }

  function WordMeans(word: Text): Json {
    if word == Bytes("null") then Null
    else if word == Bytes("true") then Bool(true)
    else if word == Bytes("false") then Bool(false)
    else String(word)
  }

  function Meaning(t: Tree): Json {
    match t
    case Word(_, word) => WordMeans(word)
    case Quote(_, pieces) => String(PiecesMean(pieces))
    case List(_, items) => Array(Elements(items))
    case Dict(_, fields) => Object(Members(fields, []))
  }

  function Elements(items: Items): seq<Json> {
    match items
    case EndItems(_, _) => []
    case Item(_, item, more) => [Meaning(item)] + Elements(more)
  }

  function KeyMeans(key: Key): Text {
    match key
    case BareKey(_, word) => word
    case QuotedKey(_, pieces) => PiecesMean(pieces)
  }

  /** The fields assigned one after the other: of two with the same key the last one stays. */
  function Members(fields: Fields, ms: seq<Member>): seq<Member> {
    match fields
    case EndFields(_, _) => ms
    case Field(_, key, _, value, more) => Members(more, Insert(ms, KeyMeans(key), Meaning(value)))
  }

  /** A word goes on as far as it can; an empty one stands only at the end or right before one of four marks. */
  predicate Follows(t: Tree, after: Text) {
    t.Word? && after != [] ==> if t.word == [] then after[0] in Bytes("]},:") else !Bare(after[0])
  }

  predicate CommaOk(comma: Option<Text>) {
    comma.Some? ==> AllBlank(comma.value)
  }

  /** Between items there is a comma; before the end there may be one, but not if there is no item. An empty item is
      possible only before a comma. */
  predicate ItemsOk(items: Items, first: bool) {
    match items
    case EndItems(comma, ws) => CommaOk(comma) && AllBlank(ws) && (first ==> comma.None?)
    case Item(comma, item, more) =>
      && CommaOk(comma) && (comma.None? <==> first) && TreeOk(item) && ItemsOk(more, false)
      && Follows(item, ItemsText(more)) && (item.Word? && item.word == [] ==> !At(ItemsText(more), Byte(']')))
  }

  predicate KeyOk(key: Key) {
    match key
    case BareKey(ws, word) => AllBlank(ws) && AllBare(word)
    case QuotedKey(ws, pieces) => AllBlank(ws) && PiecesOk(pieces)
  }

  predicate FieldsOk(fields: Fields, first: bool) {
    match fields
    case EndFields(comma, ws) => CommaOk(comma) && AllBlank(ws) && (first ==> comma.None?)
    case Field(comma, key, colon, value, more) =>
      && CommaOk(comma) && (comma.None? <==> first) && KeyOk(key) && AllBlank(colon) && TreeOk(value)
      && FieldsOk(more, false) && Follows(value, FieldsText(more))
  }

  /** A word does not begin like a number. */
  predicate TreeOk(t: Tree) {
    match t
    case Word(ws, word) => AllBlank(ws) && AllBare(word) && (word != [] ==> word[0] !in Bytes("+-0123456789"))
    case Quote(ws, pieces) => AllBlank(ws) && PiecesOk(pieces)
    case List(ws, items) => AllBlank(ws) && ItemsOk(items, true)
    case Dict(ws, fields) => AllBlank(ws) && FieldsOk(fields, true)
  }

  // ----- the classes of characters -----------------------------------------------------

  lemma BlankIs(c: bv8)
    ensures Blank(c) <==> IsSpace(c)
  {
    BlankBytes();
  }

  lemma BlankBytes()
    ensures Bytes(BLANKS) == [0x20, 0x09, 0x0A, 0x0B, 0x0C, 0x0D]
  {
  }

  lemma PunctuationBytes()
    ensures Bytes(PUNCTUATION)
            == [OPEN_ARRAY, CLOSE_ARRAY, OPEN_OBJECT, CLOSE_OBJECT, COMMA, COLON, QUOTE]
  {
  }

  lemma BareIs(c: bv8)
    ensures Bare(c) <==> !EndsRaw(c)
  {
    hide Bytes, Blank;
    BlankIs(c);
    PunctuationBytes();
  }

  lemma NumberBytes()
    ensures Bytes("+-0123456789") == [0x2B, 0x2D, 0x30, 0x31, 0x32, 0x33, 0x34, 0x35, 0x36, 0x37, 0x38, 0x39]
  {
  }

  lemma NumberIs(c: bv8)
    ensures c in Bytes("+-0123456789") <==> StartsNumber(c)
  {
    hide Bytes;
    NumberBytes();
  }

  lemma WordIs(word: Text)
    ensures WordMeans(word) == FromRaw(word)
  {
    hide Bytes;
    WordBytes();
  }

  lemma WordBytes()
    ensures Bytes("null") == NULL_TEXT && Bytes("true") == TRUE_TEXT && Bytes("false") == FALSE_TEXT
  {
  }

  lemma MarkBytes()
    ensures Bytes("]},:") == [CLOSE_ARRAY, CLOSE_OBJECT, COMMA, COLON]
  {
  }

  // ----- every text of a tree is read as what it means ---------------------------------

  lemma {:induction false} SkipBlanks(ws: Text, s: Text)
    requires AllBlank(ws)
    ensures SkipSpace(ws + s) == SkipSpace(s)
    decreases ws
  {
    hide Blank;
    if ws == [] {
      assert ws + s == s;
    } else {
      BlankIs(ws[0]);
      assert (ws + s)[1..] == ws[1..] + s;
      SkipBlanks(ws[1..], s);
    }
  }

  lemma {:induction false} SkipAgain(s: Text)
    ensures var t := SkipSpace(s); (t != [] ==> !IsSpace(t[0])) && SkipSpace(t) == t
  {
    if s != [] && IsSpace(s[0]) {
      SkipAgain(s[1..]);
    }
  }

  lemma SkipBefore(ws: Text, s: Text)
    requires AllBlank(ws) && (s != [] ==> !Blank(s[0]))
    ensures SkipSpace(ws + s) == s
  {
    hide Blank;
    SkipBlanks(ws, s);
    if s != [] {
      BlankIs(s[0]);
    }
  }

  lemma RawRead(word: Text, rest: Text)
    requires AllBare(word) && (rest != [] ==> !Bare(rest[0]))
    ensures ReadRaw(word + rest) == (word, rest)
  {
    hide Bare, EndsRaw;
    forall i | 0 <= i < |word| ensures !EndsRaw(word[i]) {
      BareIs(word[i]);
    }
    ReadRawSplits(word, rest);
    if rest != [] {
      BareIs(rest[0]);
    }
    assert word + [] == word;
  }

  predicate IsClose(close: bv8) {
    close == CLOSE_ARRAY || close == CLOSE_OBJECT
  }

  lemma MarkNotBlank(c: bv8)
    requires c in [OPEN_ARRAY, CLOSE_ARRAY, OPEN_OBJECT, CLOSE_OBJECT, COMMA, COLON, QUOTE]
    ensures !Blank(c) && !Bare(c)
  {
    hide Blank, Bare;
    BlankIs(c);
    BareIs(c);
  }

  lemma SepEnds(comma: Option<Text>, ws: Text, rest: Text, close: bv8, first: bool)
    requires IsClose(close) && CommaOk(comma) && AllBlank(ws) && (first ==> comma.None?)
    ensures ParseSep(CommaText(comma) + (ws + [close]) + rest, close, first) == Ok((false, rest))
  {
    hide Blank, Bare, SkipSpace, Byte;
    Marks();
    MarkNotBlank(close);
    var tail := [close] + rest;
    SkipBefore(ws, tail);
    var s := CommaText(comma) + (ws + [close]) + rest;
    assert tail[1..] == rest;
    match comma {
      case None =>
        assert s == ws + tail;
      case Some(gap) =>
        MarkNotBlank(COMMA);
        assert s == gap + ([COMMA] + (ws + tail));
        SkipBefore(gap, [COMMA] + (ws + tail));
        assert ([COMMA] + (ws + tail))[1..] == ws + tail;
    }
  }

  lemma SepNext(comma: Option<Text>, s: Text, close: bv8, first: bool)
    requires IsClose(close) && CommaOk(comma) && (comma.None? <==> first) && !At(SkipSpace(s), close)
    ensures ParseSep(CommaText(comma) + s, close, first) == Ok((true, SkipSpace(s)))
  {
    hide Blank, Bare, SkipSpace, Byte;
    Marks();
    match comma {
      case None =>
        assert CommaText(comma) + s == s;
        SkipAgain(s);
      case Some(gap) =>
        MarkNotBlank(COMMA);
        assert CommaText(comma) + s == gap + ([COMMA] + s);
        SkipBefore(gap, [COMMA] + s);
        assert ([COMMA] + s)[1..] == s;
    }
  }

  /** What the reader sees after the blanks. */
  lemma CoreSeen(t: Tree, after: Text)
    requires TreeOk(t) && Follows(t, after)
    ensures SkipSpace(TreeText(t) + after) == Core(t) + after
    ensures !At(Core(t) + after, CLOSE_OBJECT) || (t.Word? && t.word == [])
    ensures !At(Core(t) + after, CLOSE_ARRAY) || (t.Word? && t.word == [])
  {
    hide Blank, Bare, SkipSpace, Byte, ItemsOk, FieldsOk, ItemsText, FieldsText, PiecesText, Bytes;
    Marks();
    MarkBytes();
    var s := Core(t) + after;
    if s != [] {
      assert !Blank(s[0]) by {
        if t.Word? && t.word != [] {
          BareNotBlank(t.word[0]);
        } else {
          assert s[0] in [OPEN_ARRAY, CLOSE_ARRAY, OPEN_OBJECT, CLOSE_OBJECT, COMMA, COLON, QUOTE];
          MarkNotBlank(s[0]);
        }
      }
    }
    if t.Word? && t.word != [] {
      MarkNotBlank(CLOSE_ARRAY);
      MarkNotBlank(CLOSE_OBJECT);
    }
    assert TreeText(t) + after == t.ws + s;
    SkipBefore(t.ws, s);
  }

  lemma BareNotBlank(c: bv8)
    requires Bare(c)
    ensures !Blank(c)
  {
  }

  lemma ParseSkips(s: Text)
    ensures Parse(SkipSpace(s)) == Parse(s)
  {
    SkipAgain(s);
  }

  lemma WordRead(t: Tree, rest: Text)
    requires t.Word? && TreeOk(t) && Follows(t, rest)
    ensures Parse(TreeText(t) + rest) == Ok((Meaning(t), rest))
  {
    hide Blank, Bare, SkipSpace, Byte, Bytes, IsSpace, AllBlank, AllBare, ReadRaw, FromRaw, WordMeans, ParseElems,
      ParseMembers;
    Marks();
    MarkBytes();
    CoreSeen(t, rest);
    var s := t.word + rest;
    if t.word != [] {
      assert Bare(t.word[0]) by {
        FirstBare(t.word);
      }
      MarkNotBlank(OPEN_ARRAY);
      MarkNotBlank(OPEN_OBJECT);
      MarkNotBlank(QUOTE);
      NumberIs(t.word[0]);
    } else if rest != [] {
      MarkNotBlank(rest[0]);
    }
    RawRead(t.word, rest);
    WordIs(t.word);
    assert Core(t) + rest == s;
  }

  lemma FirstBare(word: Text)
    requires AllBare(word) && word != []
    ensures Bare(word[0])
  {
  }

  lemma QuoteRead(t: Tree, rest: Text)
    requires t.Quote? && TreeOk(t)
    ensures Parse(TreeText(t) + rest) == Ok((Meaning(t), rest))
  {
    hide Blank, SkipSpace, Byte, PiecesOk, PiecesMean, PiecesText, ReadQuoted, ParseElems, ParseMembers;
    Marks();
    CoreSeen(t, rest);
    QuotedRead(t.pieces, Core(t) + rest, PiecesMean(t.pieces), rest);
  }

  /** A key and the colon after it. */
  lemma KeyRead(key: Key, colon: Text, tail: Text)
    requires KeyOk(key) && AllBlank(colon)
    ensures var r := ReadKey(SkipSpace(KeyText(key) + (colon + ([Byte(':')] + tail))));
            r.Ok? && r.value.0 == KeyMeans(key) && SkipSpace(r.value.1) == [COLON] + tail
    ensures !At(SkipSpace(KeyText(key) + (colon + ([Byte(':')] + tail))), CLOSE_OBJECT)
  {
    hide Blank, Bare, SkipSpace, Byte, Bytes, PiecesOk, PiecesMean, PiecesText, ReadQuoted, ReadRaw;
    Marks();
    MarkNotBlank(COLON);
    var after := colon + ([COLON] + tail);
    SkipBefore(colon, [COLON] + tail);
    match key {
      case QuotedKey(ws, pieces) =>
        var s := QuoteText(pieces) + after;
        MarkNotBlank(QUOTE);
        assert KeyText(key) + after == ws + s;
        SkipBefore(ws, s);
        QuotedRead(pieces, s, PiecesMean(pieces), after);
      case BareKey(ws, word) =>
        assert KeyText(key) + after == ws + (word + after);
        if word == [] {
          assert word + after == after;
          SkipBlanks(ws, after);
          SkipBefore([], [COLON] + tail);
          RawRead([], [COLON] + tail);
          assert [] + ([COLON] + tail) == [COLON] + tail;
        } else {
          BareNotBlank(word[0]);
          SkipBefore(ws, word + after);
          MarkNotBlank(CLOSE_OBJECT);
          MarkNotBlank(QUOTE);
          if colon != [] {
            BlankNotBare(colon[0]);
          }
          RawRead(word, after);
        }
    }
  }

  lemma BlankNotBare(c: bv8)
    requires Blank(c)
    ensures !Bare(c)
  {
  }

  lemma {:induction false} ItemsHead(items: Items)
    requires ItemsOk(items, false)
    ensures ItemsText(items) != []
  {
  }

  lemma Extend(t: Tree, after: Text, rest: Text)
    requires Follows(t, after) && after != []
    ensures Follows(t, after + rest)
  {
    assert (after + rest)[0] == after[0];
  }

  lemma {:induction false} ItemsRead(items: Items, rest: Text, acc: seq<Json>)
    requires ItemsOk(items, acc == [])
    ensures ParseElems(ItemsText(items) + rest, acc) == Ok((Array(acc + Elements(items)), rest))
    decreases items
  {
    hide Follows, CommaText, CommaOk, TreeText, AllBlank, SkipSpace, Byte, ParseSep, Parse;
    Marks();
    match items {
      case EndItems(comma, ws) =>
        SepEnds(comma, ws, rest, CLOSE_ARRAY, acc == []);
        assert acc + Elements(items) == acc;
      case Item(comma, item, more) =>
        var tail := ItemsText(more) + rest;
        assert ItemsText(items) + rest == CommaText(comma) + (TreeText(item) + tail);
        ItemsHead(more);
        Extend(item, ItemsText(more), rest);
        CoreSeen(item, tail);
        ItemNotClosed(item, ItemsText(more), rest);
        SepNext(comma, TreeText(item) + tail, CLOSE_ARRAY, acc == []);
        ParseSkips(TreeText(item) + tail);
        TreeRead(item, tail);
        ItemsRead(more, rest, acc + [Meaning(item)]);
        assert acc + [Meaning(item)] + Elements(more) == acc + Elements(items);
    }
  }

  lemma ItemNotClosed(t: Tree, after: Text, rest: Text)
    requires TreeOk(t) && Follows(t, after + rest) && after != []
    requires t.Word? && t.word == [] ==> !At(after, Byte(']'))
    ensures !At(SkipSpace(TreeText(t) + (after + rest)), CLOSE_ARRAY)
  {
    hide TreeText, SkipSpace, Byte, Follows, TreeOk;
    Marks();
    CoreSeen(t, after + rest);
    if t.Word? && t.word == [] {
      assert Core(t) + (after + rest) == after + rest;
    }
  }

  lemma {:induction false} FieldsRead(fields: Fields, rest: Text, acc: seq<Member>)
    requires FieldsOk(fields, acc == [])
    ensures ParseMembers(FieldsText(fields) + rest, acc) == Ok((Object(Members(fields, acc)), rest))
    decreases fields
  {
    hide Follows, CommaText, CommaOk, TreeText, AllBlank, SkipSpace, Byte, ParseSep, Parse, KeyText, KeyOk, Insert,
      ParseMember;
    Marks();
    match fields {
      case EndFields(comma, ws) =>
        SepEnds(comma, ws, rest, CLOSE_OBJECT, acc == []);
      case Field(comma, key, colon, value, more) =>
        var tail := FieldsText(more) + rest;
        var s := KeyText(key) + (colon + ([COLON] + (TreeText(value) + tail)));
        FieldSplits(fields, rest);
        KeyRead(key, colon, TreeText(value) + tail);
        SepNext(comma, s, CLOSE_OBJECT, acc == []);
        Extend(value, FieldsText(more), rest);
        TreeRead(value, tail);
        FieldRead(key, colon, value, tail);
        var ms := Insert(acc, KeyMeans(key), Meaning(value));
        InsertSome(acc, KeyMeans(key), Meaning(value));
        FieldsRead(more, rest, ms);
    }
  }

  lemma InsertSome(ms: seq<Member>, key: Text, value: Json)
    ensures Insert(ms, key, value) != []
  {
  }

  lemma FieldSplits(fields: Fields, rest: Text)
    requires fields.Field?
    ensures FieldsText(fields) + rest
            == CommaText(fields.comma)
               + (KeyText(fields.key)
                  + (fields.colon + ([COLON] + (TreeText(fields.value) + (FieldsText(fields.more) + rest)))))
    ensures FieldsText(fields.more) != []
  {
    hide TreeText, KeyText, CommaText, Byte;
    Marks();
    var c, k, l := CommaText(fields.comma), KeyText(fields.key), fields.colon;
    var v, m := TreeText(fields.value), FieldsText(fields.more);
    assert FieldsText(fields) == c + (k + (l + ([COLON] + (v + m))));
    Regroup(c, k + (l + ([COLON] + (v + m))), rest);
    Regroup(k, l + ([COLON] + (v + m)), rest);
    Regroup(l, [COLON] + (v + m), rest);
    Regroup([COLON], v + m, rest);
    Regroup(v, m, rest);
  }

  lemma FieldRead(key: Key, colon: Text, value: Tree, tail: Text)
    requires KeyOk(key) && AllBlank(colon) && Parse(TreeText(value) + tail) == Ok((Meaning(value), tail))
    ensures ParseMember(SkipSpace(KeyText(key) + (colon + ([COLON] + (TreeText(value) + tail)))))
            == Ok(((KeyMeans(key), Meaning(value)), tail))
  {
    hide TreeText, AllBlank, SkipSpace, Byte, Parse, KeyText, KeyOk, ReadKey;
    Marks();
    var rest := TreeText(value) + tail;
    var s := KeyText(key) + (colon + ([COLON] + rest));
    KeyRead(key, colon, rest);
    SkipAgain(s);
    assert ([COLON] + rest)[1..] == rest;
  }

  /** The reader reads the text of every tree, whatever blanks, escapes and trailing commas it has, as what it means,
      and leaves what follows. */
  lemma {:induction false} TreeRead(t: Tree, rest: Text)
    requires TreeOk(t) && Follows(t, rest)
    ensures Parse(TreeText(t) + rest) == Ok((Meaning(t), rest))
    decreases t
  {
    hide SkipSpace, Byte, ParseElems, ParseMembers, ItemsText, FieldsText, AllBlank, ItemsOk, FieldsOk, Follows;
    Marks();
    match t {
      case Word(_, _) => WordRead(t, rest);
      case Quote(_, _) => QuoteRead(t, rest);
      case List(_, items) =>
        CoreSeen(t, rest);
        assert (Core(t) + rest)[1..] == ItemsText(items) + rest;
        ItemsRead(items, rest, []);
        assert [] + Elements(items) == Elements(items);
      case Dict(_, fields) =>
        CoreSeen(t, rest);
        assert (Core(t) + rest)[1..] == FieldsText(fields) + rest;
        FieldsRead(fields, rest, []);
    }
  }

  // ----- every text the reader accepts is the text of a tree ---------------------------

  lemma {:induction false} SplitBlanks(s: Text) returns (ws: Text)
    ensures AllBlank(ws) && s == ws + SkipSpace(s)
  {
    hide Blank, IsSpace;
    ws := [];
    if s != [] && IsSpace(s[0]) {
      BlankIs(s[0]);
      var more := SplitBlanks(s[1..]);
      ws := [s[0]] + more;
      assert s == [s[0]] + s[1..];
    }
  }

  lemma {:induction false} SplitRaw(s: Text)
    ensures var (word, rest) := ReadRaw(s); s == word + rest && AllBare(word) && (rest != [] ==> !Bare(rest[0]))
  {
    hide Bare, EndsRaw;
    if s != [] {
      BareIs(s[0]);
    }
    if s == [] || EndsRaw(s[0]) {
      assert [] + s == s;
    } else {
      SplitRaw(s[1..]);
      var (word, rest) := ReadRaw(s[1..]);
      assert ReadRaw(s) == ([s[0]] + word, rest);
      assert s == [s[0]] + (word + rest) == [s[0]] + word + rest;
    }
  }

  lemma SplitEnd(s: Text, close: bv8, first: bool) returns (comma: Option<Text>, ws: Text)
    requires ParseSep(s, close, first).Ok? && !ParseSep(s, close, first).value.0
    ensures CommaOk(comma) && AllBlank(ws) && (first ==> comma.None?)
    ensures s == CommaText(comma) + (ws + [close]) + ParseSep(s, close, first).value.1
  {
    hide AllBlank, SkipSpace, Byte;
    Marks();
    var t := SkipSpace(s);
    ws := SplitBlanks(s);
    comma := None;
    if At(t, close) {
      assert t == [close] + t[1..];
    } else {
      SkipAgain(s);
      comma := Some(ws);
      ws := SplitBlanks(t[1..]);
      var u := SkipSpace(t[1..]);
      assert t == [COMMA] + t[1..] && u == [close] + u[1..];
    }
  }

  lemma SplitNext(s: Text, close: bv8, first: bool) returns (comma: Option<Text>, body: Text)
    requires ParseSep(s, close, first).Ok? && ParseSep(s, close, first).value.0
    ensures CommaOk(comma) && (comma.None? <==> first) && s == CommaText(comma) + body
    ensures SkipSpace(body) == ParseSep(s, close, first).value.1 && !At(SkipSpace(body), close)
    ensures |body| <= |s| && (!first ==> |body| < |s|)
  {
    hide AllBlank, SkipSpace, Byte;
    Marks();
    var t := SkipSpace(s);
    comma, body := None, s;
    if first {
      SkipAgain(s);
    } else {
      var ws := SplitBlanks(s);
      comma, body := Some(ws), t[1..];
      assert t == [COMMA] + t[1..];
    }
  }

  lemma SplitWord(s: Text) returns (t: Tree)
    requires var u := SkipSpace(s);
             !At(u, OPEN_ARRAY) && !At(u, OPEN_OBJECT) && !At(u, QUOTE) && (u != [] ==> !StartsNumber(u[0]))
    ensures t.Word? && TreeOk(t) && Parse(s) == Ok((Meaning(t), Parse(s).value.1))
    ensures Follows(t, Parse(s).value.1) && s == TreeText(t) + Parse(s).value.1
  {
    hide Blank, Bare, SkipSpace, Byte, Bytes, FromRaw, WordMeans, StartsNumber;
    Marks();
    var u := SkipSpace(s);
    var ws := SplitBlanks(s);
    var (word, rest) := ReadRaw(u);
    SplitRaw(u);
    t := Word(ws, word);
    WordIs(word);
    if word != [] {
      NumberIs(word[0]);
    } else if rest != [] {
      assert u[0] == rest[0];
      EmptyBefore(s);
    }
    assert s == ws + word + rest;
  }

  lemma EmptyBefore(s: Text)
    requires var u := SkipSpace(s);
             u != [] && !Bare(u[0]) && u[0] != OPEN_ARRAY && u[0] != OPEN_OBJECT && u[0] != QUOTE
    ensures SkipSpace(s)[0] in Bytes("]},:")
  {
    hide Bare, Bytes, SkipSpace;
    MarkBytes();
    SkipAgain(s);
    BareIs(SkipSpace(s)[0]);
  }

  lemma SplitQuote(s: Text) returns (t: Tree)
    requires At(SkipSpace(s), QUOTE) && Parse(s).Ok?
    ensures t.Quote? && TreeOk(t) && Parse(s) == Ok((Meaning(t), Parse(s).value.1))
    ensures s == TreeText(t) + Parse(s).value.1
  {
    hide AllBlank, SkipSpace, ReadQuoted, PiecesOk, PiecesMean, QuoteText, ParseElems, ParseMembers;
    var u := SkipSpace(s);
    var ws := SplitBlanks(s);
    var text, rest := ReadQuoted(u).value.0, ReadQuoted(u).value.1;
    QuotedIff(u, text, rest);
    var ps :| Denotes(ps, u, text, rest);
    t := Quote(ws, ps);
    assert s == ws + QuoteText(ps) + rest;
  }

  lemma SplitKey(s: Text) returns (key: Key, colon: Text, tail: Text)
    requires ParseMember(s).Ok?
    ensures KeyOk(key) && AllBlank(colon) && s == KeyText(key) + (colon + ([Byte(':')] + tail))
    ensures |tail| < |s| && Parse(tail).Ok?
    ensures ParseMember(s) == Ok(((KeyMeans(key), Parse(tail).value.0), Parse(tail).value.1))
  {
    hide AllBlank, SkipSpace, ReadQuoted, PiecesOk, PiecesMean, QuoteText, Byte, ReadRaw, Parse, AllBare;
    Marks();
    var u := SkipSpace(s);
    var ws := SplitBlanks(s);
    var text, rest := ReadKey(u).value.0, ReadKey(u).value.1;
    colon := SplitBlanks(rest);
    var v := SkipSpace(rest);
    tail := v[1..];
    assert v == [COLON] + tail;
    if At(u, QUOTE) {
      QuotedIff(u, text, rest);
      var ps :| Denotes(ps, u, text, rest);
      key := QuotedKey(ws, ps);
      assert s == (ws + QuoteText(ps)) + rest;
    } else {
      SplitRaw(u);
      key := BareKey(ws, text);
      assert s == (ws + text) + rest;
    }
  }

  lemma {:induction false} SplitItems(s: Text, acc: seq<Json>) returns (items: Items)
    requires ParseElems(s, acc).Ok?
    ensures ItemsOk(items, acc == []) && s == ItemsText(items) + ParseElems(s, acc).value.1
    ensures ParseElems(s, acc).value.0 == Array(acc + Elements(items))
    decreases |s|, if acc == [] then 2 else 1
  {
    hide CommaText, CommaOk, TreeText, AllBlank, SkipSpace, Byte, ParseSep, Parse, TreeOk, Follows;
    Marks();
    var more, t := ParseSep(s, CLOSE_ARRAY, acc == []).value.0, ParseSep(s, CLOSE_ARRAY, acc == []).value.1;
    if !more {
      var comma, ws := SplitEnd(s, CLOSE_ARRAY, acc == []);
      items := EndItems(comma, ws);
      assert acc + Elements(items) == acc;
    } else {
      var comma, body := SplitNext(s, CLOSE_ARRAY, acc == []);
      ParseSkips(body);
      var item := SplitTree(body);
      var u := Parse(body).value.1;
      var rest := SplitItems(u, acc + [Meaning(item)]);
      ItemsHead(rest);
      items := Item(comma, item, rest);
      Shorten(item, ItemsText(rest), ParseElems(s, acc).value.1);
      EmptyNotClosed(item, body, ItemsText(rest), ParseElems(s, acc).value.1);
      assert acc + [Meaning(item)] + Elements(rest) == acc + Elements(items);
      Regroup(TreeText(item), ItemsText(rest), ParseElems(s, acc).value.1);
      Regroup(CommaText(comma), TreeText(item) + ItemsText(rest), ParseElems(s, acc).value.1);
    }
  }

  lemma Shorten(t: Tree, after: Text, rest: Text)
    requires Follows(t, after + rest) && after != []
    ensures Follows(t, after)
  {
    assert (after + rest)[0] == after[0];
  }

  lemma EmptyNotClosed(t: Tree, body: Text, after: Text, rest: Text)
    requires TreeOk(t) && Follows(t, after + rest) && body == TreeText(t) + (after + rest)
    requires !At(SkipSpace(body), CLOSE_ARRAY)
    ensures t.Word? && t.word == [] ==> !At(after, Byte(']'))
  {
    hide TreeText, SkipSpace, Byte, Follows, TreeOk;
    Marks();
    CoreSeen(t, after + rest);
    if t.Word? && t.word == [] && after != [] {
      assert (Core(t) + (after + rest))[0] == after[0];
    }
  }

  lemma {:induction false} SplitFields(s: Text, acc: seq<Member>) returns (fields: Fields)
    requires ParseMembers(s, acc).Ok?
    ensures FieldsOk(fields, acc == []) && s == FieldsText(fields) + ParseMembers(s, acc).value.1
    ensures ParseMembers(s, acc).value.0 == Object(Members(fields, acc))
    decreases |s|, 2
  {
    hide CommaText, CommaOk, TreeText, AllBlank, SkipSpace, Byte, ParseSep, Parse, TreeOk, Follows, ParseMember, KeyOk,
      KeyText, Insert;
    Marks();
    var more, t := ParseSep(s, CLOSE_OBJECT, acc == []).value.0, ParseSep(s, CLOSE_OBJECT, acc == []).value.1;
    if !more {
      var comma, ws := SplitEnd(s, CLOSE_OBJECT, acc == []);
      fields := EndFields(comma, ws);
    } else {
      var comma, body := SplitNext(s, CLOSE_OBJECT, acc == []);
      MemberSkips(body);
      var key, colon, tail := SplitKey(body);
      var value := SplitTree(tail);
      var u := Parse(tail).value.1;
      InsertSome(acc, KeyMeans(key), Meaning(value));
      var rest := SplitFields(u, Insert(acc, KeyMeans(key), Meaning(value)));
      fields := Field(comma, key, colon, value, rest);
      FieldSplits(fields, ParseMembers(s, acc).value.1);
      Shorten(value, FieldsText(rest), ParseMembers(s, acc).value.1);
    }
  }

  lemma MemberSkips(s: Text)
    ensures ParseMember(SkipSpace(s)) == ParseMember(s)
  {
    SkipAgain(s);
  }

  /** Whatever the reader accepts is the text of a tree and what it leaves, and it returns what the tree means. */
  lemma {:induction false} SplitTree(s: Text) returns (t: Tree)
    requires Parse(s).Ok?
    ensures TreeOk(t) && Follows(t, Parse(s).value.1)
    ensures s == TreeText(t) + Parse(s).value.1 && Parse(s).value.0 == Meaning(t)
    decreases |s|, 0
  {
    hide AllBlank, SkipSpace, Byte, ItemsOk, FieldsOk, ItemsText, FieldsText, ParseElems, ParseMembers, ReadQuoted;
    Marks();
    var u := SkipSpace(s);
    if At(u, OPEN_ARRAY) {
      var ws := SplitBlanks(s);
      var items := SplitItems(u[1..], []);
      t := List(ws, items);
      assert u == [OPEN_ARRAY] + u[1..];
      assert [] + Elements(items) == Elements(items);
    } else if At(u, OPEN_OBJECT) {
      var ws := SplitBlanks(s);
      var fields := SplitFields(u[1..], []);
      t := Dict(ws, fields);
      assert u == [OPEN_OBJECT] + u[1..];
    } else if At(u, QUOTE) {
      t := SplitQuote(s);
    } else {
      t := SplitWord(s);
    }
  }

  /** The text is the tree's and what follows, and the tree means the value. */
  predicate Writes(t: Tree, s: Text, v: Json, rest: Text) {
    TreeOk(t) && Follows(t, rest) && s == TreeText(t) + rest && Meaning(t) == v
  }

  /** The reader accepts exactly the texts of the grammar and returns what they mean. */
  lemma ParseIff(s: Text, v: Json, rest: Text)
    ensures Parse(s) == Ok((v, rest)) <==> exists t :: Writes(t, s, v, rest)
  {
    hide Parse, TreeOk, Follows, TreeText, Meaning;
    if t :| Writes(t, s, v, rest) {
      TreeRead(t, rest);
    }
    if Parse(s) == Ok((v, rest)) {
      var t := SplitTree(s);
      assert Writes(t, s, v, rest);
    }
  }

  // ----- what is written ---------------------------------------------------------------

  predicate StrictPieces(ps: seq<Piece>) {
    forall i | 0 <= i < |ps| && ps[i].Plain? :: ps[i].byte >= 0x20
  }

  /** The trees whose text is JSON by RFC 8259 and has no blanks: keys in quotes, no words but three, no control
      characters in strings and no comma before the end. */
  predicate Strict(t: Tree) {
    match t
    case Word(ws, word) => ws == [] && word in {Bytes("null"), Bytes("true"), Bytes("false")}
    case Quote(ws, pieces) => ws == [] && StrictPieces(pieces)
    case List(ws, items) => ws == [] && StrictItems(items)
    case Dict(ws, fields) => ws == [] && StrictFields(fields)
  }

  predicate StrictItems(items: Items) {
    match items
    case EndItems(comma, ws) => comma.None? && ws == []
    case Item(comma, item, more) => (comma.Some? ==> comma.value == []) && Strict(item) && StrictItems(more)
  }

  predicate StrictFields(fields: Fields) {
    match fields
    case EndFields(comma, ws) => comma.None? && ws == []
    case Field(comma, key, colon, value, more) =>
      && (comma.Some? ==> comma.value == []) && key.QuotedKey? && key.ws == [] && StrictPieces(key.pieces)
      && colon == [] && Strict(value) && StrictFields(more)
  }

  lemma PrintedPieces(text: Text) returns (ps: seq<Piece>)
    ensures PiecesOk(ps) && StrictPieces(ps) && Quoted(text) == QuoteText(ps) && PiecesMean(ps) == text
  {
    hide Byte, Quoted, QuoteText, PiecesMean;
    ps := QuotedDenotes(text);
    assert Quoted(text) == QuoteText(ps) + [] == QuoteText(ps);
  }

  lemma PrintedWord(v: Json) returns (t: Tree)
    requires v.Null? || v.Bool?
    ensures t.Word? && t.word != [] && TreeOk(t) && Strict(t) && TreeText(t) == Print(v) && Meaning(t) == v
  {
    hide Bytes, Blank, Bare, FromRaw, WordMeans, StartsNumber, AllBare;
    WordBytes();
    var word := Print(v);
    t := Word([], word);
    ThreeWords(v);
    NumberIs(word[0]);
    WordIs(word);
    assert TreeText(t) == [] + word == word;
  }

  lemma ThreeWords(v: Json)
    requires v.Null? || v.Bool?
    ensures AllBare(Print(v)) && Print(v) != [] && !StartsNumber(Print(v)[0]) && FromRaw(Print(v)) == v
  {
    hide Bare;
    var word := Print(v);
    assert forall i | 0 <= i < |word| :: !EndsRaw(word[i]);
    forall i | 0 <= i < |word| ensures Bare(word[i]) {
      BareIs(word[i]);
    }
  }

  /** A comma before every item but the first. */
  function Gap(i: nat): Option<Text> {
    if i == 0 then None else Some([])
  }

  lemma GapText(i: nat)
    ensures CommaText(Gap(i)) == Separator(i) && CommaOk(Gap(i)) && (Gap(i).None? <==> i == 0)
    ensures Gap(i).Some? ==> Gap(i).value == []
  {
    Marks();
  }

  /** What follows a printed item or field ends a word. */
  lemma AfterPrinted(t: Tree, after: Text)
    requires after != [] && after[0] in [COMMA, CLOSE_ARRAY, CLOSE_OBJECT] && (t.Word? ==> t.word != [])
    ensures Follows(t, after)
  {
    hide Bare, Bytes;
    MarkNotBlank(after[0]);
  }

  lemma {:induction false} PrintedItems(elems: seq<Json>, i: nat) returns (items: Items)
    requires i <= |elems| && forall k | 0 <= k < |elems| :: Valid(elems[k])
    ensures ItemsOk(items, i == 0) && StrictItems(items) && Elements(items) == elems[i..]
    ensures ItemsText(items) == PrintElems(elems, i) + [CLOSE_ARRAY]
    decreases elems, |elems| - i
  {
    hide Byte, TreeOk, TreeText, Strict, Meaning, Print, Follows, Valid, CommaText, CommaOk, Gap;
    Marks();
    NoBlanks();
    if i == |elems| {
      items := EndItems(None, []);
      EndText(CLOSE_ARRAY);
    } else {
      var t := PrintedTree(elems[i]);
      var more := PrintedItems(elems, i + 1);
      GapText(i);
      HeadOfRest(PrintElems(elems, i + 1), CLOSE_ARRAY);
      ElemsHead(elems, i + 1);
      AfterPrinted(t, ItemsText(more));
      items := Item(Gap(i), t, more);
      Regroup(Separator(i) + Print(elems[i]), PrintElems(elems, i + 1), [CLOSE_ARRAY]);
      Regroup(Separator(i), Print(elems[i]), PrintElems(elems, i + 1) + [CLOSE_ARRAY]);
      assert elems[i..] == [elems[i]] + elems[i + 1..];
    }
  }

  lemma NoBlanks()
    ensures AllBlank([])
  {
  }

  lemma EndText(close: bv8)
    ensures CommaOk(None) && CommaText(None) + ([] + [close]) == [] + [close]
  {
  }

  lemma ElemsHead(elems: seq<Json>, i: nat)
    requires 0 < i <= |elems|
    ensures PrintElems(elems, i) == [] || PrintElems(elems, i)[0] == COMMA
  {
  }

  lemma FieldsHead(ms: seq<Member>, i: nat)
    requires 0 < i <= |ms|
    ensures PrintMembers(ms, i) == [] || PrintMembers(ms, i)[0] == COMMA
  {
  }

  lemma HeadOfRest(s: Text, close: bv8)
    ensures s + [close] != [] && (s == [] ==> (s + [close])[0] == close) && (s != [] ==> (s + [close])[0] == s[0])
  {
  }

  lemma {:induction false} PrintedFields(ms: seq<Member>, i: nat) returns (fields: Fields)
    requires i <= |ms| && Sorted(ms) && forall k | 0 <= k < |ms| :: Valid(ms[k].value)
    ensures FieldsOk(fields, i == 0) && StrictFields(fields) && Members(fields, ms[..i]) == ms
    ensures FieldsText(fields) == PrintMembers(ms, i) + [CLOSE_OBJECT]
    decreases ms, |ms| - i
  {
    hide Byte, TreeOk, TreeText, Strict, Meaning, Print, Follows, Valid, CommaText, CommaOk, Gap, Insert,
      PiecesOk, StrictPieces, QuoteText, Quoted, PiecesMean, AllBlank;
    Marks();
    NoBlanks();
    if i == |ms| {
      fields := EndFields(None, []);
      EndText(CLOSE_OBJECT);
      assert ms[..i] == ms;
    } else {
      var m := ms[i];
      var ps := PrintedPieces(m.key);
      var t := PrintedTree(m.value);
      var more := PrintedFields(ms, i + 1);
      GapText(i);
      HeadOfRest(PrintMembers(ms, i + 1), CLOSE_OBJECT);
      FieldsHead(ms, i + 1);
      AfterPrinted(t, FieldsText(more));
      fields := Field(Gap(i), QuotedKey([], ps), [], t, more);
      InsertLast(ms[..i], m.key, m.value);
      assert ms[..i] + [Member(m.key, m.value)] == ms[..i + 1];
      FieldText(ms, i, fields);
    }
  }

  lemma FieldText(ms: seq<Member>, i: nat, fields: Fields)
    requires i < |ms| && fields.Field? && fields.colon == [] && fields.key.QuotedKey? && fields.key.ws == []
    requires CommaText(fields.comma) == Separator(i) && QuoteText(fields.key.pieces) == Quoted(ms[i].key)
    requires TreeText(fields.value) == Print(ms[i].value)
    requires FieldsText(fields.more) == PrintMembers(ms, i + 1) + [CLOSE_OBJECT]
    ensures FieldsText(fields) == PrintMembers(ms, i) + [CLOSE_OBJECT]
  {
    hide Byte, TreeText, Print, CommaText, QuoteText, Quoted;
    Marks();
    var c, k, v, m, end := Separator(i), Quoted(ms[i].key), Print(ms[i].value), PrintMembers(ms, i + 1), [CLOSE_OBJECT];
    assert KeyText(fields.key) == [] + k == k;
    assert [] + ([COLON] + (v + (m + end))) == [COLON] + (v + (m + end));
    assert FieldsText(fields) == c + (k + ([COLON] + (v + (m + end))));
    Regroup(c, k + ([COLON] + (v + m)), end);
    Regroup(k, [COLON] + (v + m), end);
    Regroup([COLON], v + m, end);
    Regroup(v, m, end);
  }

  /** What the printer writes for a value is the text of a strict tree that means the value. */
  lemma {:induction false} PrintedTree(v: Json) returns (t: Tree)
    requires Valid(v)
    ensures TreeOk(t) && Strict(t) && TreeText(t) == Print(v) && Meaning(t) == v
    ensures t.Word? ==> t.word != []
    decreases v
  {
    hide Byte, ItemsOk, FieldsOk, ItemsText, FieldsText, StrictItems, StrictFields, Elements, Members, AllBlank,
      PiecesOk, StrictPieces, PiecesMean, QuoteText, Quoted;
    Marks();
    NoBlanks();
    match v {
      case Null => t := PrintedWord(v);
      case Bool(_) => t := PrintedWord(v);
      case String(text) =>
        var ps := PrintedPieces(text);
        t := Quote([], ps);
        assert TreeText(t) == [] + QuoteText(ps) == QuoteText(ps);
      case Array(elems) =>
        var items := PrintedItems(elems, 0);
        t := List([], items);
        assert elems[0..] == elems;
        assert TreeText(t) == [OPEN_ARRAY] + ItemsText(items);
        Regroup([OPEN_ARRAY], PrintElems(elems, 0), [CLOSE_ARRAY]);
      case Object(ms) =>
        var fields := PrintedFields(ms, 0);
        t := Dict([], fields);
        assert ms[..0] == [];
        assert TreeText(t) == [OPEN_OBJECT] + FieldsText(fields);
        Regroup([OPEN_OBJECT], PrintMembers(ms, 0), [CLOSE_OBJECT]);
    }
  }
}
