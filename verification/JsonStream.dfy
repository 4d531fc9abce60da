/** The code of base/json.h that appends to a string and consumes a stream, against the functions of Json. */
module JsonStream {
  import opened Common
  import opened JsonScan
  import opened Json

  lemma {:induction false} EscapeAllSplits(a: Text, b: Text)
    ensures EscapeAll(a + b) == EscapeAll(a) + EscapeAll(b)
    decreases a
  {
    if a == [] {
      assert a + b == b;
    } else {
      assert (a + b)[1..] == a[1..] + b;
      EscapeAllSplits(a[1..], b);
      Regroup(Escaped(a[0]), EscapeAll(a[1..]), EscapeAll(b));
    }
  }

  lemma {:induction false} EscapeAllClean(a: Text)
    requires forall i | 0 <= i < |a| :: !MustEscape(a[i])
    ensures EscapeAll(a) == a
    decreases a
  {
    if a != [] {
      EscapeAllClean(a[1..]);
    }
  }

  /** A clean run and the byte after it. */
  lemma EscapeRun(text: Text, run: nat, it: nat)
    requires run <= it < |text| && forall i | run <= i < it :: !MustEscape(text[i])
    ensures EscapeAll(text[..it + 1]) == EscapeAll(text[..run]) + text[run..it] + Escaped(text[it])
  {
    assert EscapeAll([text[it]]) == Escaped(text[it]) by {
      assert [text[it]][1..] == [];
    }
    hide EscapeAll, Escaped, MustEscape;
    EscapeAllClean(text[run..it]);
    EscapeAllSplits(text[..run], text[run..it]);
    assert text[..run] + text[run..it] == text[..it];
    EscapeAllSplits(text[..it], [text[it]]);
    assert text[..it] + [text[it]] == text[..it + 1];
  }

  /** One member of an object with the comma before it. */
  function MemberText(ms: seq<Member>, i: nat): Text
    requires i < |ms|
  {
    Separator(i) + (Quoted(ms[i].key) + ([COLON] + Print(ms[i].value)))
  }

  lemma MemberTextFirst(ms: seq<Member>, i: nat)
    requires i < |ms|
    ensures PrintMembers(ms, i) == MemberText(ms, i) + PrintMembers(ms, i + 1)
  {
    var q, p, more := Quoted(ms[i].key), Print(ms[i].value), PrintMembers(ms, i + 1);
    assert PrintMembers(ms, i) == Separator(i) + (q + ([COLON] + (p + more)));
    assert MemberText(ms, i) == Separator(i) + (q + ([COLON] + p));
    hide *;
    Regroup(Separator(i), q + ([COLON] + p), more);
    Regroup(q, [COLON] + p, more);
    Regroup([COLON], p, more);
  }

  lemma ArrayText(elems: seq<Json>)
    ensures Print(Array(elems)) == [OPEN_ARRAY] + PrintElems(elems, 0) + [CLOSE_ARRAY]
    ensures PrintElems(elems, |elems|) == []
  {
  }

  lemma ElemsText(elems: seq<Json>, i: nat)
    requires i < |elems|
    ensures PrintElems(elems, i) == Separator(i) + Print(elems[i]) + PrintElems(elems, i + 1)
  {
  }

  class Writer {
    var out: Text

    constructor ()
      ensures out == []
    {
      out := [];
    }

    /** The escape of one byte FindEscape stopped at. */
    method AppendEscape(c: bv8)
      requires MustEscape(c)
      modifies this
      ensures out == old(out) + Escaped(c)
    {
      if c == BACKSLASH {
        out := out + [BACKSLASH, BACKSLASH];
      } else if c == QUOTE {
        out := out + [BACKSLASH, QUOTE];
      } else if c == 0x08 {
        out := out + [BACKSLASH, 0x62];
      } else if c == 0x0C {
        out := out + [BACKSLASH, 0x66];
      } else if c == 0x0A {
        out := out + [BACKSLASH, 0x6E];
      } else if c == 0x0D {
        out := out + [BACKSLASH, 0x72];
      } else if c == 0x09 {
        out := out + [BACKSLASH, 0x74];
      } else {
        out := out + [BACKSLASH, 0x75, 0x30, 0x30];
        out := out + [HexDigit((c >> 4) & 0xF)];
        out := out + [HexDigit(c & 0xF)];
      }
    }

    /** Runs that need no escape are appended whole. */
    method AppendString(text: Text)
      modifies this
      ensures out == old(out) + Quoted(text)
    {
      hide MustEscape, Escaped;
      out := out + [QUOTE];
      var run := 0;
      var it := FindEscape(text, 0);
      while it != |text|
        invariant run <= it <= |text|
        invariant forall i | run <= i < it :: !MustEscape(text[i])
        invariant it < |text| ==> MustEscape(text[it])
        invariant out == old(out) + [QUOTE] + EscapeAll(text[..run])
        decreases |text| - it
      {
        out := out + text[run..it];
        AppendEscape(text[it]);
        EscapeRun(text, run, it);
        run := it + 1;
        it := FindEscape(text, it + 1);
      }
      EscapeAllClean(text[run..]);
      EscapeAllSplits(text[..run], text[run..]);
      assert text[..run] + text[run..] == text;
      hide EscapeAll;
      out := out + text[run..];
      Regroup(old(out) + [QUOTE], EscapeAll(text[..run]), text[run..]);
      Regroup(old(out), [QUOTE], EscapeAll(text));
      out := out + [QUOTE];
      Regroup(old(out), [QUOTE] + EscapeAll(text), [QUOTE]);
    }

    /** AppendTo. */
    method Append(v: Json)
      modifies this
      ensures out == old(out) + Print(v)
      decreases v, 2
    {
      match v {
        case Null => out := out + NULL_TEXT;
        case Bool(flag) => out := out + if flag then TRUE_TEXT else FALSE_TEXT;
        case String(text) => AppendString(text);
        case Array(elems) => AppendArray(elems);
        case Object(members) => AppendObject(members);
      }
    }

    method AppendArray(elems: seq<Json>)
      modifies this
      ensures out == old(out) + Print(Array(elems))
      decreases elems, 0
    {
      hide Print, PrintElems;
      ArrayText(elems);
      out := out + [OPEN_ARRAY];
      ghost var start := out;
      var sep := false;
      for i := 0 to |elems|
        invariant sep == (i > 0)
        invariant out + PrintElems(elems, i) == start + PrintElems(elems, 0)
      {
        ElemsText(elems, i);
        ghost var before := out;
        if sep {
          out := out + [COMMA];
        } else {
          sep := true;
        }
        Append(elems[i]);
        assert out == before + (Separator(i) + Print(elems[i]));
        Regroup(before, Separator(i) + Print(elems[i]), PrintElems(elems, i + 1));
      }
      assert out == start + PrintElems(elems, 0);
      out := out + [CLOSE_ARRAY];
      Regroup(old(out), [OPEN_ARRAY], PrintElems(elems, 0));
      Regroup(old(out), [OPEN_ARRAY] + PrintElems(elems, 0), [CLOSE_ARRAY]);
    }

    method AppendMember(members: seq<Member>, i: nat)
      requires i < |members|
      modifies this
      ensures out == old(out) + MemberText(members, i)
      decreases members, 0
    {
      hide Print, Quoted;
      var m := members[i];
      if i > 0 {
        out := out + [COMMA];
      }
      ghost var start := out;
      assert start == old(out) + Separator(i);
      AppendString(m.key);
      out := out + [COLON];
      Append(m.value);
      Regroup(start + Quoted(m.key), [COLON], Print(m.value));
      Regroup(start, Quoted(m.key), [COLON] + Print(m.value));
      Regroup(old(out), Separator(i), Quoted(m.key) + ([COLON] + Print(m.value)));
    }

    method AppendObject(members: seq<Member>)
      modifies this
      ensures out == old(out) + Print(Object(members))
      decreases members, 1
    {
      assert Print(Object(members)) == [OPEN_OBJECT] + PrintMembers(members, 0) + [CLOSE_OBJECT];
      assert PrintMembers(members, |members|) == [];
      hide Print, MemberText, PrintMembers;
      out := out + [OPEN_OBJECT];
      ghost var start := out;
      for i := 0 to |members|
        invariant out + PrintMembers(members, i) == start + PrintMembers(members, 0)
      {
        ghost var before := out;
        AppendMember(members, i);
        MemberTextFirst(members, i);
        Regroup(before, MemberText(members, i), PrintMembers(members, i + 1));
      }
      assert out == start + PrintMembers(members, 0);
      out := out + [CLOSE_OBJECT];
      Regroup(old(out), [OPEN_OBJECT], PrintMembers(members, 0));
      Regroup(old(out), [OPEN_OBJECT] + PrintMembers(members, 0), [CLOSE_OBJECT]);
    }
  }

  /** An operation on a stream does what the function says: the same value and the same rest, or the same error. */
  ghost predicate Agrees<T>(spec: Parsed<T>, r: Result<T, SyntaxError>, rest: Text) {
    match spec
    case Ok((value, left)) => r == Ok(value) && rest == left
    case Err(e) => r == Err(e)
  }

  lemma SkipTwice(s: Text)
    ensures SkipSpace(SkipSpace(s)) == SkipSpace(s)
  {
  }

  /** An input stream; rest is what has not been consumed. */
  class Reader {
    var rest: Text

    constructor (input: Text)
      ensures rest == input
    {
      rest := input;
    }

    function Peek(): Option<bv8>
      reads this
    {
      if rest == [] then None else Some(rest[0])
    }

    method Ignore()
      requires rest != []
      modifies this
      ensures rest == old(rest)[1..]
    {
      rest := rest[1..];
    }

    method SkipWhite()
      modifies this
      ensures rest == SkipSpace(old(rest))
    {
      while rest != [] && IsSpace(rest[0])
        invariant SkipSpace(rest) == SkipSpace(old(rest))
        decreases |rest|
      {
        Ignore();
      }
    }

    /** The digit loop of a \u escape. On entry the stream stands at the u, on exit at the last digit. */
    method ReadHex() returns (r: Result<bv32, SyntaxError>)
      requires rest != []
      modifies this
      ensures match Hex4(old(rest)[1..])
              case None => r == Err(BadHex)
              case Some(val) => r == Ok(val) && |old(rest)| >= 5 && rest == old(rest)[4..]
    {
      var val: bv32 := 0;
      ghost var s := rest[1..];
      hide HexValue, AddDigit;
      for i := 0 to 4
        invariant |s| >= i && rest == old(rest)[i..] && s == old(rest)[1..]
        invariant forall k | 0 <= k < i :: HexValue(s[k]).Some?
        invariant val == HexSoFar(s, i)
      {
        Ignore();
        match Peek() {
          case None => return Err(BadHex);
          case Some(c) =>
            match HexValue(c) {
              case None => return Err(BadHex);
              case Some(d) => val := AddDigit(val, d);
            }
        }
      }
      HexAll(s);
      r := Ok(val);
    }

    /** The escape after a backslash: its bytes, with the stream behind it. */
    method ReadEscape() returns (r: Result<Text, SyntaxError>)
      modifies this
      ensures if old(rest) == [] then r == Err(BadEscape)
              else if old(rest)[0] == 0x75 then
                match Hex4(old(rest)[1..])
                case None => r == Err(BadHex)
                case Some(val) => r == Ok(Utf8(val)) && |old(rest)| >= 5 && rest == old(rest)[5..]
              else
                match ShortEscape(old(rest)[0])
                case None => r == Err(BadEscape)
                case Some(c) => r == Ok([c]) && rest == old(rest)[1..]
    {
      hide Hex4, Utf8, ShortEscape;
      match Peek() {
        case None => return Err(BadEscape);
        case Some(c) =>
          if c == 0x75 {
            var val := ReadHex();
            if val.Err? {
              return Err(val.error);
            }
            r := Ok(Utf8(val.value));
          } else {
            match ShortEscape(c) {
              case None => return Err(BadEscape);
              case Some(d) => r := Ok([d]);
            }
          }
      }
      Ignore();
    }

    method ReadQuotedString() returns (r: Result<Text, SyntaxError>)
      modifies this
      ensures Agrees(ReadQuoted(old(rest)), r, rest)
    {
      if Peek() != Some(QUOTE) {
        return Err(MissingOpeningQuote);
      }
      Ignore();
      var accum: Text := [];
      while true
        invariant Unquote(rest, accum) == ReadQuoted(old(rest))
        decreases |rest|
      {
        hide Hex4, Utf8, ShortEscape;
        match Peek() {
          case None => return Err(MissingClosingQuote);
          case Some(c) =>
            Ignore();
            if c == QUOTE {
              return Ok(accum);
            } else if c == BACKSLASH {
              ghost var after := rest;
              var e := ReadEscape();
              if e.Err? {
                return Err(e.error);
              }
              accum := accum + e.value;
            } else {
              accum := accum + [c];
            }
        }
      }
    }

    method ReadRawString() returns (text: Text)
      modifies this
      ensures (text, rest) == ReadRaw(old(rest))
    {
      hide EndsRaw;
      text := [];
      assert text + ReadRaw(rest).0 == ReadRaw(rest).0;
      while rest != [] && !EndsRaw(rest[0])
        invariant var (more, left) := ReadRaw(rest); ReadRaw(old(rest)) == (text + more, left)
        decreases |rest|
      {
        var c := rest[0];
        ghost var more := ReadRaw(rest[1..]).0;
        assert text + ([c] + more) == (text + [c]) + more;
        Ignore();
        text := text + [c];
      }
      assert text + [] == text;
    }

    method ReadString() returns (r: Result<Text, SyntaxError>)
      modifies this
      ensures Agrees(ReadKey(old(rest)), r, rest)
    {
      if Peek() == Some(QUOTE) {
        r := ReadQuotedString();
      } else {
        var text := ReadRawString();
        r := Ok(text);
      }
    }

    /** Whether a list goes on. */
    method NextItem(close: bv8, atStart: bool) returns (r: Result<bool, SyntaxError>)
      modifies this
      ensures Agrees(ParseSep(old(rest), close, atStart), r, rest)
    {
      hide SkipSpace;
      SkipWhite();
      if Peek() == Some(close) {
        Ignore();
        return Ok(false);
      }
      if !atStart {
        if Peek() != Some(COMMA) {
          return Err(ExpectedComma);
        }
        Ignore();
      }
      SkipWhite();
      SkipTwice(old(rest));
      if Peek() == Some(close) {
        Ignore();
        return Ok(false);
      }
      r := Ok(true);
    }

    /** Read. */
    method Read() returns (r: Result<Json, SyntaxError>)
      modifies this
      ensures Agrees(Parse(old(rest)), r, rest)
      decreases |rest|, 0
    {
      hide SkipSpace, StartsNumber, FromRaw;
      SkipWhite();
      match Peek() {
        case None =>
          var text := ReadRawString();
          r := Ok(FromRaw(text));
        case Some(c) =>
          if c == OPEN_ARRAY {
            Ignore();
            r := ReadElements();
          } else if c == OPEN_OBJECT {
            Ignore();
            r := ReadMembers();
          } else if c == QUOTE {
            var text := ReadQuotedString();
            r := if text.Ok? then Ok(String(text.value)) else Err(text.error);
          } else if StartsNumber(c) {
            r := Err(Number);
          } else {
            var text := ReadRawString();
            r := Ok(FromRaw(text));
          }
      }
    }

    method ReadElements() returns (r: Result<Json, SyntaxError>)
      modifies this
      ensures Agrees(ParseElems(old(rest), []), r, rest)
      decreases |rest|, 1
    {
      hide ParseSep, Parse;
      var temp: seq<Json> := [];
      while true
        invariant |rest| <= |old(rest)| && ParseElems(rest, temp) == ParseElems(old(rest), [])
        decreases |rest|, temp == []
      {
        var more := NextItem(CLOSE_ARRAY, temp == []);
        if more.Err? {
          return Err(more.error);
        } else if !more.value {
          return Ok(Array(temp));
        }
        var elem := Read();
        if elem.Err? {
          return elem;
        }
        temp := temp + [elem.value];
      }
    }

    /** A key, a colon and a value. */
    method ReadMember() returns (r: Result<(Text, Json), SyntaxError>)
      modifies this
      ensures Agrees(ParseMember(old(rest)), r, rest)
      decreases |rest|, 1
    {
      hide SkipSpace, ReadKey, Parse;
      SkipWhite();
      var key := ReadString();
      if key.Err? {
        return Err(key.error);
      }
      SkipWhite();
      if Peek() != Some(COLON) {
        return Err(ExpectedColon);
      }
      Ignore();
      var value := Read();
      r := if value.Ok? then Ok((key.value, value.value)) else Err(value.error);
    }

    method ReadMembers() returns (r: Result<Json, SyntaxError>)
      modifies this
      ensures Agrees(ParseMembers(old(rest), []), r, rest)
      decreases |rest|, 2
    {
      hide ParseSep, ParseMember;
      var temp: seq<Member> := [];
      while true
        invariant |rest| <= |old(rest)| && ParseMembers(rest, temp) == ParseMembers(old(rest), [])
        decreases |rest|
      {
        var more := NextItem(CLOSE_OBJECT, temp == []);
        if more.Err? {
          return Err(more.error);
        } else if !more.value {
          return Ok(Object(temp));
        }
        var member := ReadMember();
        if member.Err? {
          return Err(member.error);
        }
        temp := Insert(temp, member.value.0, member.value.1);
      }
    }
  }

  /** The value of the first n digits. */
  ghost function HexSoFar(s: Text, n: nat): bv32
    requires n <= |s| && forall k | 0 <= k < n :: HexValue(s[k]).Some?
  {
    if n == 0 then 0 else AddDigit(HexSoFar(s, n - 1), HexValue(s[n - 1]).value)
  }

  lemma HexAll(s: Text)
    requires |s| >= 4 && forall k | 0 <= k < 4 :: HexValue(s[k]).Some?
    ensures Hex4(s) == Some(HexSoFar(s, 4))
  {
    hide AddDigit, HexValue;
    assert HexSoFar(s, 1) == AddDigit(0, HexValue(s[0]).value);
    assert HexSoFar(s, 2) == AddDigit(HexSoFar(s, 1), HexValue(s[1]).value);
    assert HexSoFar(s, 3) == AddDigit(HexSoFar(s, 2), HexValue(s[2]).value);
  }

  /** What Append writes, Read reads back. */
  method WriteThenRead(v: Json) returns (r: Result<Json, SyntaxError>, left: Text)
    requires Valid(v)
    ensures r == Ok(v) && left == []
  {
    var w := new Writer();
    w.Append(v);
    RoundTrip(v, []);
    assert w.out == Print(v) + [];
    var reader := new Reader(w.out);
    r := reader.Read();
    left := reader.rest;
  }
}
