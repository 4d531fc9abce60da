/** TJson of base/json.h without numbers: the text AppendTo writes, and what Read makes of a text. */
module Json {
  import opened Common
  import opened JsonScan

  type Text = seq<bv8>

  /** The members of an object are those of a std::map: strictly increasing keys, compared byte by byte. */
  datatype Json =
    | Null
    | Bool(flag: bool)
    | String(text: Text)
    | Array(elems: seq<Json>)
    | Object(members: seq<Member>)

  datatype Member = Member(key: Text, value: Json)

  datatype SyntaxError =
    | MissingOpeningQuote
    | MissingClosingQuote
    | BadHex
    | BadEscape
    | ExpectedComma
    | ExpectedColon
    | Number  // outside this model

  const QUOTE: bv8 := 0x22
  const BACKSLASH: bv8 := 0x5C
  const SLASH: bv8 := 0x2F
  const COMMA: bv8 := 0x2C
  const COLON: bv8 := 0x3A
  const OPEN_ARRAY: bv8 := 0x5B
  const CLOSE_ARRAY: bv8 := 0x5D
  const OPEN_OBJECT: bv8 := 0x7B
  const CLOSE_OBJECT: bv8 := 0x7D
  const NULL_TEXT: Text := [0x6E, 0x75, 0x6C, 0x6C]
  const TRUE_TEXT: Text := [0x74, 0x72, 0x75, 0x65]
  const FALSE_TEXT: Text := [0x66, 0x61, 0x6C, 0x73, 0x65]

  // ----- keys --------------------------------------------------------------------------

  /** std::string's order. */
  predicate Less(a: Text, b: Text)
    decreases a
  {
    if b == [] then false
    else if a == [] then true
    else a[0] < b[0] || (a[0] == b[0] && Less(a[1..], b[1..]))
  }

  lemma {:induction false} LessIsTotal(a: Text, b: Text)
    ensures Less(a, b) || a == b || Less(b, a)
    ensures Less(a, b) ==> a != b && !Less(b, a)
    decreases a
  {
    if a != [] && b != [] && a[0] == b[0] {
      LessIsTotal(a[1..], b[1..]);
      assert a == [a[0]] + a[1..] && b == [b[0]] + b[1..];
    }
  }

  lemma {:induction false} LessIsTransitive(a: Text, b: Text, c: Text)
    requires Less(a, b) && Less(b, c)
    ensures Less(a, c)
    decreases a
  {
    if a != [] && a[0] == b[0] == c[0] {
      LessIsTransitive(a[1..], b[1..], c[1..]);
    }
  }

  /** Up to k the two are the same, and there a ends or has the smaller byte. */
  predicate SmallerAt(a: Text, b: Text, k: nat) {
    k <= |a| && k < |b| && (forall i | 0 <= i < k :: a[i] == b[i]) && (k < |a| ==> a[k] < b[k])
  }

  /** The first byte that differs decides, and a prefix is smaller. */
  lemma {:induction false} LessIff(a: Text, b: Text)
    ensures Less(a, b) <==> exists k :: SmallerAt(a, b, k)
    decreases a
  {
    if a == [] || b == [] || a[0] != b[0] {
      assert Less(a, b) <==> SmallerAt(a, b, 0);
    } else {
      LessIff(a[1..], b[1..]);
      forall k: nat {
        SmallerShift(a, b, k);
      }
      assert !SmallerAt(a, b, 0);
      assert forall k: nat | SmallerAt(a, b, k) :: SmallerAt(a[1..], b[1..], k - 1);
    }
  }

  lemma SmallerShift(a: Text, b: Text, k: nat)
    requires a != [] && b != [] && a[0] == b[0]
    ensures SmallerAt(a[1..], b[1..], k) <==> SmallerAt(a, b, k + 1)
  {
    if SmallerAt(a[1..], b[1..], k) {
      assert forall i | 0 < i <= k :: a[i] == a[1..][i - 1] && b[i] == b[1..][i - 1];
    }
  }

  predicate Sorted(ms: seq<Member>) {
    forall i, j | 0 <= i < j < |ms| :: Less(ms[i].key, ms[j].key)
  }

  /** The value is one the program can hold: every object has its keys in order. */
  predicate Valid(v: Json) {
    match v
    case Array(elems) => forall i | 0 <= i < |elems| :: Valid(elems[i])
    case Object(ms) => Sorted(ms) && forall i | 0 <= i < |ms| :: Valid(ms[i].value)
    case _ => true
  }

  /** temp[key] = value on a std::map. */
  function Insert(ms: seq<Member>, key: Text, value: Json): seq<Member> {
    if ms == [] then [Member(key, value)]
    else if ms[0].key == key then [Member(key, value)] + ms[1..]
    else if Less(key, ms[0].key) then [Member(key, value)] + ms
    else [ms[0]] + Insert(ms[1..], key, value)
  }

  /** A key above all the others goes to the end. */
  lemma {:induction false} InsertLast(ms: seq<Member>, key: Text, value: Json)
    requires forall i | 0 <= i < |ms| :: Less(ms[i].key, key)
    ensures Insert(ms, key, value) == ms + [Member(key, value)]
  {
    if ms != [] {
      LessIsTotal(ms[0].key, key);
      InsertLast(ms[1..], key, value);
    }
  }

  /** Assigning keeps the keys in order and finds the new value under its key and the old values under theirs. */
  lemma {:induction false} InsertIsMapUpdate(ms: seq<Member>, key: Text, value: Json)
    requires Sorted(ms)
    ensures Sorted(Insert(ms, key, value))
    ensures forall m :: m in Insert(ms, key, value) <==> m == Member(key, value) || (m in ms && m.key != key)
  {
    var r := Insert(ms, key, value);
    if ms != [] {
      LessIsTotal(ms[0].key, key);
      var rest := ms[1..];
      assert ms == [ms[0]] + rest;
      if ms[0].key == key {
        forall m | m in rest ensures m.key != key {
          LessIsTotal(ms[0].key, m.key);
        }
      } else if Less(key, ms[0].key) {
        forall m | m in ms ensures Less(key, m.key) && m.key != key {
          if m != ms[0] {
            LessIsTransitive(key, ms[0].key, m.key);
          }
          LessIsTotal(key, m.key);
        }
      } else {
        InsertIsMapUpdate(rest, key, value);
        assert forall m | m in Insert(rest, key, value) :: Less(ms[0].key, m.key);
      }
    }
  }

  // ----- printing ----------------------------------------------------------------------

  function HexDigit(n: bv8): bv8 {
    if n < 10 then 0x30 + n else 0x61 + (n - 10)
  }

  /** What AppendString writes for one byte. */
  function Escaped(c: bv8): Text {
    if !MustEscape(c) then [c]
    else if c == BACKSLASH || c == QUOTE then [BACKSLASH, c]
    else if c == 0x08 then [BACKSLASH, 0x62]
    else if c == 0x0C then [BACKSLASH, 0x66]
    else if c == 0x0A then [BACKSLASH, 0x6E]
    else if c == 0x0D then [BACKSLASH, 0x72]
    else if c == 0x09 then [BACKSLASH, 0x74]
    else [BACKSLASH, 0x75, 0x30, 0x30, HexDigit((c >> 4) & 0xF), HexDigit(c & 0xF)]
  }

  function EscapeAll(text: Text): Text {
    if text == [] then [] else Escaped(text[0]) + EscapeAll(text[1..])
  }

  function Quoted(text: Text): Text {
    [QUOTE] + EscapeAll(text) + [QUOTE]
  }

  /** What AppendTo writes. */
  function Print(v: Json): Text {
    match v
    case Null => NULL_TEXT
    case Bool(b) => if b then TRUE_TEXT else FALSE_TEXT
    case String(text) => Quoted(text)
    case Array(elems) => [OPEN_ARRAY] + PrintElems(elems, 0) + [CLOSE_ARRAY]
    case Object(ms) => [OPEN_OBJECT] + PrintMembers(ms, 0) + [CLOSE_OBJECT]
  }

  function Separator(i: nat): Text {
    if i == 0 then [] else [COMMA]
  }

  /** The elements from the i-th on, a comma before each but the first of all. */
  function PrintElems(elems: seq<Json>, i: nat): Text
    requires i <= |elems|
    decreases elems, |elems| - i
  {
    if i == |elems| then [] else Separator(i) + Print(elems[i]) + PrintElems(elems, i + 1)
  }

  function PrintMembers(ms: seq<Member>, i: nat): Text
    requires i <= |ms|
    decreases ms, |ms| - i
  {
    if i == |ms| then []
    else Separator(i) + (Quoted(ms[i].key) + ([COLON] + (Print(ms[i].value) + PrintMembers(ms, i + 1))))
  }

  // ----- reading -----------------------------------------------------------------------

  /** What an operation reads, and the rest of the input. */
  type Parsed<T> = Result<(T, Text), SyntaxError>

  predicate IsSpace(c: bv8) {
    c == 0x20 || 0x09 <= c <= 0x0D
  }

  /** std::ws. */
  function SkipSpace(s: Text): (r: Text)
    ensures |r| <= |s|
  {
    if s != [] && IsSpace(s[0]) then SkipSpace(s[1..]) else s
  }

  /** peek() == c. */
  predicate At(s: Text, c: bv8) {
    s != [] && s[0] == c
  }

  function HexValue(c: bv8): Option<bv32> {
    if 0x30 <= c <= 0x39 then Some((c - 0x30) as bv32)
    else if 0x41 <= c <= 0x46 then Some((c - 0x41 + 10) as bv32)
    else if 0x61 <= c <= 0x66 then Some((c - 0x61 + 10) as bv32)
    else None
  }

  function AddDigit(val: bv32, digit: bv32): bv32 {
    val * 16 + digit
  }

  /** Four hex digits after the u of an escape. */
  function Hex4(s: Text): Option<bv32> {
    if |s| < 4 then None
    else
      match (HexValue(s[0]), HexValue(s[1]), HexValue(s[2]), HexValue(s[3]))
      case (Some(a), Some(b), Some(c), Some(d)) => Some(AddDigit(AddDigit(AddDigit(AddDigit(0, a), b), c), d))
      case _ => None
  }

  function LowByte(val: bv32): bv8 {
    (val & 0xFF) as bv8
  }

  /** The UTF-8 bytes of a code unit. */
  function Utf8(val: bv32): Text {
    if val <= 0x7F then [LowByte(val)]
    else if val <= 0x7FF then [LowByte(0xC0 | (val >> 6)), LowByte(0x80 | (val & 0x3F))]
    else [LowByte(0xE0 | (val >> 12)), LowByte(0x80 | ((val >> 6) & 0x3F)), LowByte(0x80 | (val & 0x3F))]
  }

  function ShortEscape(c: bv8): Option<bv8> {
    if c == BACKSLASH || c == QUOTE || c == SLASH then Some(c)
    else if c == 0x62 then Some(0x08)
    else if c == 0x66 then Some(0x0C)
    else if c == 0x6E then Some(0x0A)
    else if c == 0x72 then Some(0x0D)
    else if c == 0x74 then Some(0x09)
    else None
  }

  /** The loop of ReadQuotedString: s is what follows the opening quote and the characters in acc. */
  function Unquote(s: Text, acc: Text): (r: Parsed<Text>)
    ensures r.Ok? ==> |r.value.1| < |s|
    decreases |s|
  {
    if s == [] then Err(MissingClosingQuote)
    else if s[0] == QUOTE then Ok((acc, s[1..]))
    else if s[0] != BACKSLASH then Unquote(s[1..], acc + [s[0]])
    else if |s| == 1 then Err(BadEscape)
    else if s[1] == 0x75 then
      match Hex4(s[2..])
      case None => Err(BadHex)
      case Some(val) => Unquote(s[6..], acc + Utf8(val))
    else
      match ShortEscape(s[1])
      case None => Err(BadEscape)
      case Some(c) => Unquote(s[2..], acc + [c])
  }

  function ReadQuoted(s: Text): (r: Parsed<Text>)
    ensures r.Ok? ==> |r.value.1| < |s|
  {
    if !At(s, QUOTE) then Err(MissingOpeningQuote) else Unquote(s[1..], [])
  }

  /** The characters that end a raw string. */
  predicate EndsRaw(c: bv8) {
    IsSpace(c) || c == OPEN_ARRAY || c == OPEN_OBJECT || c == CLOSE_OBJECT || c == CLOSE_ARRAY || c == COMMA
    || c == COLON || c == QUOTE
  }

  function ReadRaw(s: Text): (r: (Text, Text))
    ensures |r.1| <= |s|
  {
    if s == [] || EndsRaw(s[0]) then ([], s)
    else
      var (text, rest) := ReadRaw(s[1..]);
      ([s[0]] + text, rest)
  }

  /** ReadString: quoted or raw. */
  function ReadKey(s: Text): (r: Parsed<Text>)
    ensures r.Ok? ==> |r.value.1| <= |s|
  {
    if At(s, QUOTE) then ReadQuoted(s) else Ok(ReadRaw(s))
  }

  /** Whether a list goes on. */
  function ParseSep(s: Text, close: bv8, atStart: bool): (r: Parsed<bool>)
    ensures r.Ok? ==> |r.value.1| <= |s| && (!atStart ==> |r.value.1| < |s|)
  {
    var t := SkipSpace(s);
    if At(t, close) then Ok((false, t[1..]))
    else if !atStart && !At(t, COMMA) then Err(ExpectedComma)
    else
      var u := SkipSpace(if atStart then t else t[1..]);
      if At(u, close) then Ok((false, u[1..])) else Ok((true, u))
  }

  predicate StartsNumber(c: bv8) {
    c == 0x2B || c == 0x2D || 0x30 <= c <= 0x39
  }

  function FromRaw(text: Text): Json {
    if text == NULL_TEXT then Null
    else if text == TRUE_TEXT then Bool(true)
    else if text == FALSE_TEXT then Bool(false)
    else String(text)
  }

  /** Read. */
  function Parse(s: Text): (r: Parsed<Json>)
    ensures r.Ok? ==> |r.value.1| <= |s|
    decreases |s|, 0
  {
    var t := SkipSpace(s);
    if At(t, OPEN_ARRAY) then ParseElems(t[1..], [])
    else if At(t, OPEN_OBJECT) then ParseMembers(t[1..], [])
    else if At(t, QUOTE) then
      match ReadQuoted(t)
      case Ok((text, rest)) => Ok((String(text), rest))
      case Err(e) => Err(e)
    else if t != [] && StartsNumber(t[0]) then Err(Number)
    else
      var (text, rest) := ReadRaw(t);
      Ok((FromRaw(text), rest))
  }

  /** The loop over the elements of an array, those in acc already read. */
  function ParseElems(s: Text, acc: seq<Json>): (r: Parsed<Json>)
    ensures r.Ok? ==> |r.value.1| <= |s|
    decreases |s|, if acc == [] then 2 else 1
  {
    match ParseSep(s, CLOSE_ARRAY, acc == [])
    case Err(e) => Err(e)
    case Ok((more, t)) =>
      if !more then Ok((Array(acc), t))
      else
        match Parse(t)
        case Err(e) => Err(e)
        case Ok((elem, u)) => ParseElems(u, acc + [elem])
  }

  /** One member: a key, a colon and a value. */
  function ParseMember(s: Text): (r: Parsed<(Text, Json)>)
    ensures r.Ok? ==> |r.value.1| < |s|
    decreases |s|, 1
  {
    match ReadKey(SkipSpace(s))
    case Err(e) => Err(e)
    case Ok((key, t)) =>
      var u := SkipSpace(t);
      if !At(u, COLON) then Err(ExpectedColon)
      else
        match Parse(u[1..])
        case Err(e) => Err(e)
        case Ok((value, rest)) => Ok(((key, value), rest))
  }

  function ParseMembers(s: Text, acc: seq<Member>): (r: Parsed<Json>)
    ensures r.Ok? ==> |r.value.1| <= |s|
    decreases |s|, 2
  {
    match ParseSep(s, CLOSE_OBJECT, acc == [])
    case Err(e) => Err(e)
    case Ok((more, t)) =>
      if !more then Ok((Object(acc), t))
      else
        match ParseMember(t)
        case Err(e) => Err(e)
        case Ok(((key, value), u)) => ParseMembers(u, Insert(acc, key, value))
  }

  // ----- reading back what was printed -------------------------------------------------

  lemma HexBack(n: bv8)
    requires n < 16
    ensures HexValue(HexDigit(n)) == Some(n as bv32)
  {
  }

  lemma NibblesBack(c: bv8)
    ensures (c >> 4) & 0xF < 16 && c & 0xF < 16
    ensures AddDigit(AddDigit(AddDigit(AddDigit(0, 0), 0), ((c >> 4) & 0xF) as bv32), (c & 0xF) as bv32) == c as bv32
    ensures LowByte(c as bv32) == c
    ensures c < 0x20 ==> c as bv32 <= 0x7F
  {
  }

  lemma ControlBack(c: bv8, more: Text)
    requires c < 0x20
    ensures Hex4([0x30, 0x30, HexDigit((c >> 4) & 0xF), HexDigit(c & 0xF)] + more) == Some(c as bv32)
    ensures Utf8(c as bv32) == [c]
  {
    var hi, lo := (c >> 4) & 0xF, c & 0xF;
    NibblesBack(c);
    HexBack(hi);
    HexBack(lo);
    assert HexValue(0x30) == Some(0);
  }

  /** Unescaping undoes the escape of one byte. */
  lemma UnquoteOne(c: bv8, more: Text, acc: Text)
    ensures Unquote(Escaped(c) + more, acc) == Unquote(more, acc + [c])
  {
    var s := Escaped(c) + more;
    if !MustEscape(c) {
      assert s[1..] == more;
    } else if |Escaped(c)| == 2 {
      assert s[2..] == more;
    } else {
      ControlBack(c, more);
      assert s[2..] == [0x30, 0x30, HexDigit((c >> 4) & 0xF), HexDigit(c & 0xF)] + more;
      assert s[6..] == more;
    }
  }

  lemma UnquoteEnd(rest: Text, acc: Text)
    ensures Unquote([QUOTE] + rest, acc) == Ok((acc, rest))
  {
    assert ([QUOTE] + rest)[1..] == rest;
  }

  /** Reading back a string gives the string and leaves what follows it. */
  lemma {:induction false} UnquoteBack(text: Text, rest: Text, acc: Text)
    ensures Unquote(EscapeAll(text) + [QUOTE] + rest, acc) == Ok((acc + text, rest))
    decreases text
  {
    hide Unquote, Escaped;
    if text == [] {
      assert EscapeAll(text) + [QUOTE] + rest == [QUOTE] + rest;
      UnquoteEnd(rest, acc);
      assert acc + text == acc;
    } else {
      var more := EscapeAll(text[1..]) + [QUOTE] + rest;
      assert EscapeAll(text) + [QUOTE] + rest == Escaped(text[0]) + more;
      UnquoteOne(text[0], more, acc);
      UnquoteBack(text[1..], rest, acc + [text[0]]);
      assert acc + [text[0]] + text[1..] == acc + text;
    }
  }

  lemma ReadQuotedBack(text: Text, rest: Text)
    ensures ReadQuoted(Quoted(text) + rest) == Ok((text, rest))
  {
    assert (Quoted(text) + rest)[1..] == EscapeAll(text) + [QUOTE] + rest;
    UnquoteBack(text, rest, []);
    assert [] + text == text;
  }

  /** A raw string that something ends. */
  predicate Stops(rest: Text) {
    rest == [] || EndsRaw(rest[0])
  }

  lemma {:induction false} ReadRawSplits(text: Text, rest: Text)
    requires forall i | 0 <= i < |text| :: !EndsRaw(text[i])
    ensures ReadRaw(text + rest) == (text + ReadRaw(rest).0, ReadRaw(rest).1)
    decreases text
  {
    if text == [] {
      assert text + rest == rest;
      assert text + ReadRaw(rest).0 == ReadRaw(rest).0;
    } else {
      assert (text + rest)[1..] == text[1..] + rest;
      ReadRawSplits(text[1..], rest);
      assert [text[0]] + (text[1..] + ReadRaw(rest).0) == text + ReadRaw(rest).0;
    }
  }

  /** null, true and false come back exactly when what follows ends a raw string. */
  lemma WordBack(v: Json, rest: Text)
    requires v.Null? || v.Bool?
    ensures Parse(Print(v) + rest) == Ok((v, rest)) <==> Stops(rest)
  {
    var text := Print(v);
    assert forall i | 0 <= i < |text| :: !EndsRaw(text[i]) && !StartsNumber(text[i]);
    ReadRawSplits(text, rest);
    assert (text + rest)[0] == text[0];
    assert SkipSpace(text + rest) == text + rest;
    var (more, left) := ReadRaw(rest);
    assert Parse(text + rest) == Ok((FromRaw(text + more), left));
    if Stops(rest) {
      assert text + more == text;
    } else {
      assert |left| < |rest| by {
        assert |ReadRaw(rest[1..]).1| <= |rest[1..]|;
      }
    }
  }

  predicate Standalone(v: Json, rest: Text) {
    v.Null? || v.Bool? ==> Stops(rest)
  }

  /** The first character of a printed value is neither space nor a closing mark nor a comma. */
  lemma PrintHead(v: Json)
    ensures Print(v) != []
    ensures var c := Print(v)[0]; !IsSpace(c) && c != CLOSE_ARRAY && c != CLOSE_OBJECT && c != COMMA && !StartsNumber(c)
  {
  }

  /** ParseSep goes on to the next item of a printed list and stops at its end. */
  lemma SepGoesOn(close: bv8, i: nat, item: Text)
    requires close == CLOSE_ARRAY || close == CLOSE_OBJECT
    requires item != [] && !IsSpace(item[0]) && item[0] != close
    ensures ParseSep(Separator(i) + item, close, i == 0) == Ok((true, item))
  {
    var s := Separator(i) + item;
    assert SkipSpace(item) == item;
    if i == 0 {
      assert s == item;
    } else {
      assert SkipSpace(s) == s && s[1..] == item;
    }
  }

  lemma SepStops(close: bv8, rest: Text, atStart: bool)
    requires close == CLOSE_ARRAY || close == CLOSE_OBJECT
    ensures ParseSep([close] + rest, close, atStart) == Ok((false, rest))
  {
    assert SkipSpace([close] + rest) == [close] + rest;
    assert ([close] + rest)[1..] == rest;
  }

  lemma TailStops(s: Text, close: bv8, rest: Text)
    requires s == [] || s[0] == COMMA
    requires close == CLOSE_ARRAY || close == CLOSE_OBJECT
    ensures Stops(s + [close] + rest) && Stops(s + ([close] + rest))
  {
  }

  lemma NextElem(elems: seq<Json>, i: nat, tail: Text)
    requires i < |elems|
    ensures ParseSep(Separator(i) + (Print(elems[i]) + tail), CLOSE_ARRAY, i == 0) == Ok((true, Print(elems[i]) + tail))
  {
    hide Print, ParseSep;
    PrintHead(elems[i]);
    SepGoesOn(CLOSE_ARRAY, i, Print(elems[i]) + tail);
  }

  lemma {:induction false} ElemsBack(elems: seq<Json>, i: nat, rest: Text)
    requires i <= |elems| && forall k | 0 <= k < |elems| :: Valid(elems[k])
    ensures ParseElems(PrintElems(elems, i) + [CLOSE_ARRAY] + rest, elems[..i]) == Ok((Array(elems), rest))
    decreases elems, |elems| - i
  {
    hide Print, Parse, ParseSep, Stops, Valid;
    if i == |elems| {
      assert PrintElems(elems, i) + [CLOSE_ARRAY] + rest == [CLOSE_ARRAY] + rest;
      SepStops(CLOSE_ARRAY, rest, i == 0);
      assert elems[..i] == elems;
    } else {
      var tail := PrintElems(elems, i + 1) + [CLOSE_ARRAY] + rest;
      assert PrintElems(elems, i) + [CLOSE_ARRAY] + rest == Separator(i) + (Print(elems[i]) + tail);
      NextElem(elems, i, tail);
      TailStops(PrintElems(elems, i + 1), CLOSE_ARRAY, rest);
      RoundTrip(elems[i], tail);
      ElemsBack(elems, i + 1, rest);
      assert elems[..i] + [elems[i]] == elems[..i + 1];
      assert elems[..i] == [] <==> i == 0;
    }
  }

  lemma MemberBack(key: Text, value: Json, tail: Text)
    requires Parse(Print(value) + tail) == Ok((value, tail))
    ensures ParseMember(Quoted(key) + ([COLON] + (Print(value) + tail))) == Ok(((key, value), tail))
  {
    hide Parse, Unquote, EscapeAll, Print, ReadRaw;
    var t := [COLON] + (Print(value) + tail);
    var s := Quoted(key) + t;
    assert s[0] == QUOTE;
    assert SkipSpace(s) == s;
    ReadQuotedBack(key, t);
    assert SkipSpace(t) == t && At(t, COLON);
    assert t[1..] == Print(value) + tail;
    hide ReadQuoted, Quoted, SkipSpace;
    assert ReadKey(s) == Ok((key, t));
  }

  /** The printed members from the i-th on, up to the end of the input. */
  function MembersText(ms: seq<Member>, i: nat, rest: Text): Text
    requires i <= |ms|
  {
    PrintMembers(ms, i) + ([CLOSE_OBJECT] + rest)
  }

  lemma NextMember(ms: seq<Member>, i: nat, rest: Text)
    requires i < |ms| && Sorted(ms)
    ensures var tail := MembersText(ms, i + 1, rest);
            && Stops(tail)
            && MembersText(ms, i, rest)
               == Separator(i) + (Quoted(ms[i].key) + ([COLON] + (Print(ms[i].value) + tail)))
    ensures Insert(ms[..i], ms[i].key, ms[i].value) == ms[..i + 1]
  {
    TailStops(PrintMembers(ms, i + 1), CLOSE_OBJECT, rest);
    InsertLast(ms[..i], ms[i].key, ms[i].value);
    assert ms[..i] + [ms[i]] == ms[..i + 1];
    var q, p, more, end := Quoted(ms[i].key), Print(ms[i].value), PrintMembers(ms, i + 1), [CLOSE_OBJECT] + rest;
    assert PrintMembers(ms, i) == Separator(i) + (q + ([COLON] + (p + more)));
    hide *;
    Regroup(Separator(i), q + ([COLON] + (p + more)), end);
    Regroup(q, [COLON] + (p + more), end);
    Regroup([COLON], p + more, end);
    Regroup(p, more, end);
  }

  lemma Regroup(a: Text, b: Text, c: Text)
    ensures (a + b) + c == a + (b + c)
  {
  }

  lemma {:induction false} MembersBack(ms: seq<Member>, i: nat, rest: Text)
    requires i <= |ms| && Sorted(ms) && forall k | 0 <= k < |ms| :: Valid(ms[k].value)
    ensures ParseMembers(MembersText(ms, i, rest), ms[..i]) == Ok((Object(ms), rest))
    decreases ms, |ms| - i
  {
    if i == |ms| {
      assert MembersText(ms, i, rest) == [CLOSE_OBJECT] + rest;
      SepStops(CLOSE_OBJECT, rest, i == 0);
      assert ms[..i] == ms;
    } else {
      var m, tail := ms[i], MembersText(ms, i + 1, rest);
      var item := Quoted(m.key) + ([COLON] + (Print(m.value) + tail));
      assert item[0] == QUOTE;
      NextMember(ms, i, rest);
      hide Print, Quoted, Parse, ParseMember, ParseSep, MembersText, Insert, PrintMembers, Sorted;
      SepGoesOn(CLOSE_OBJECT, i, item);
      RoundTrip(m.value, tail);
      MemberBack(m.key, m.value, tail);
      MembersBack(ms, i + 1, rest);
      assert ms[..i] == [] <==> i == 0;
    }
  }

  /** Reading the text of a value gives the value back and consumes exactly that text: always for strings, arrays
      and objects, and for null, true and false exactly when what follows ends a raw string. */
  lemma {:induction false} RoundTrip(v: Json, rest: Text)
    requires Valid(v)
    ensures Parse(Print(v) + rest) == Ok((v, rest)) <==> Standalone(v, rest)
    decreases v
  {
    var s := Print(v) + rest;
    PrintHead(v);
    assert SkipSpace(s) == s;
    match v {
      case Null => WordBack(v, rest);
      case Bool(_) => WordBack(v, rest);
      case String(text) => ReadQuotedBack(text, rest);
      case Array(elems) =>
        assert s[1..] == PrintElems(elems, 0) + [CLOSE_ARRAY] + rest;
        ElemsBack(elems, 0, rest);
      case Object(ms) =>
        assert s[1..] == MembersText(ms, 0, rest);
        MembersBack(ms, 0, rest);
    }
  }

  // ----- every value read is one the program can hold ----------------------------------

  lemma {:induction false} ParseIsValid(s: Text)
    ensures Parse(s).Ok? ==> Valid(Parse(s).value.0)
    decreases |s|, 0
  {
    var t := SkipSpace(s);
    if At(t, OPEN_ARRAY) {
      ElemsAreValid(t[1..], []);
    } else if At(t, OPEN_OBJECT) {
      MembersAreValid(t[1..], []);
    }
  }

  lemma {:induction false} ElemsAreValid(s: Text, acc: seq<Json>)
    requires forall i | 0 <= i < |acc| :: Valid(acc[i])
    ensures ParseElems(s, acc).Ok? ==> Valid(ParseElems(s, acc).value.0)
    decreases |s|, if acc == [] then 2 else 1
  {
    match ParseSep(s, CLOSE_ARRAY, acc == []) {
      case Err(_) =>
      case Ok((more, t)) =>
        if more {
          ParseIsValid(t);
          match Parse(t) {
            case Err(_) =>
            case Ok((elem, u)) => ElemsAreValid(u, acc + [elem]);
          }
        }
    }
  }

  lemma {:induction false} MembersAreValid(s: Text, acc: seq<Member>)
    requires Sorted(acc) && forall m | m in acc :: Valid(m.value)
    ensures ParseMembers(s, acc).Ok? ==> Valid(ParseMembers(s, acc).value.0)
    decreases |s|, 2
  {
    match ParseSep(s, CLOSE_OBJECT, acc == []) {
      case Err(_) =>
      case Ok((more, t)) =>
        if more {
          MemberIsValid(t);
          match ParseMember(t) {
            case Err(_) =>
            case Ok(((key, value), u)) =>
              InsertIsMapUpdate(acc, key, value);
              MembersAreValid(u, Insert(acc, key, value));
          }
        } else {
          assert forall i | 0 <= i < |acc| :: acc[i] in acc;
        }
    }
  }

  lemma {:induction false} MemberIsValid(s: Text)
    ensures ParseMember(s).Ok? ==> Valid(ParseMember(s).value.0.1)
    decreases |s|, 1
  {
    match ReadKey(SkipSpace(s)) {
      case Err(_) =>
      case Ok((key, t)) =>
        var u := SkipSpace(t);
        if At(u, COLON) {
          ParseIsValid(u[1..]);
        }
    }
  }

  /** Where it fails: true with a letter behind it reads back as one word. */
  lemma WordRunsOn()
    ensures Parse(Print(Bool(true)) + [0x78]) == Ok((String(Print(Bool(true)) + [0x78]), []))
    ensures !(Parse(Print(Bool(true)) + [0x78]) == Ok((Bool(true), [0x78])))
  {
    var text, rest := Print(Bool(true)), [0x78];
    assert forall i | 0 <= i < |text| :: !EndsRaw(text[i]) && !StartsNumber(text[i]);
    ReadRawSplits(text, rest);
    assert (text + rest)[0] == text[0] && SkipSpace(text + rest) == text + rest;
    assert ReadRaw([]) == ([], []);
    assert !EndsRaw(rest[0]) && rest[1..] == [] && [rest[0]] + [] == rest;
    assert |text + rest| == 5 && (text + rest)[4] == 0x78 && (|FALSE_TEXT| == 5 ==> FALSE_TEXT[4] != 0x78);
  }
}
