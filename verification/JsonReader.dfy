/** A reader for JSON text (RFC 8259), and the round trip of trace files through it. */
module JsonReader {
  import opened Options
  import opened TracePersistence

  /** What a reader took from the front of its text, and the text behind it. */
  datatype Scan<T> = Fail | Done(value: T, rest: string)

  // ---- Strings (section 7) -------------------------------------------------------------------------

  function HexValue(c: char): (v: Option<nat>)
    ensures v.Some? ==> v.value < 16
  {
    if '0' <= c <= '9' then Some(c as nat - '0' as nat)
    else if 'a' <= c <= 'f' then Some(c as nat - 'a' as nat + 10)
    else if 'A' <= c <= 'F' then Some(c as nat - 'A' as nat + 10)
    else None
  }

  /** Four hexadecimal digits after `\u`. */
  function ReadUnit(s: string): (r: Scan<nat>)
    ensures r.Done? ==> |r.rest| < |s| && r.value < 0x1_0000
  {
    if |s| < 6 || s[0] != '\\' || s[1] != 'u' then Fail
    else
      var a, b, c, d := HexValue(s[2]), HexValue(s[3]), HexValue(s[4]), HexValue(s[5]);
      if a.Some? && b.Some? && c.Some? && d.Some? then
        Done(4096 * a.value + 256 * b.value + 16 * c.value + d.value, s[6..])
      else Fail
  }

  /** A `\u` escape, or two that make a surrogate pair. */
  function ReadUnicode(s: string): (r: Scan<char>)
    ensures r.Done? ==> |r.rest| < |s|
  {
    var high := ReadUnit(s);
    if high.Fail? then Fail
    else if 0xD800 <= high.value < 0xDC00 then
      var low := ReadUnit(high.rest);
      if low.Done? && 0xDC00 <= low.value < 0xE000 then
        Done((0x1_0000 + 1024 * (high.value - 0xD800) + (low.value - 0xDC00)) as char, low.rest)
      else Fail
    else if 0xDC00 <= high.value < 0xE000 then Fail
    else Done(high.value as char, high.rest)
  }

  /** What a backslash and this letter stand for. */
  function Short(e: char): Option<char> {
    if e == '\"' || e == '\\' || e == '/' then Some(e)
    else if e == 'n' then Some('\n')
    else if e == 'r' then Some('\r')
    else if e == 't' then Some('\t')
    else if e == 'b' then Some(8 as char)
    else if e == 'f' then Some(12 as char)
    else None
  }

  function ReadChar(s: string): (r: Scan<char>)
    ensures r.Done? ==> |r.rest| < |s|
  {
    if |s| == 0 || s[0] == '\"' || s[0] < ' ' then Fail
    else if s[0] != '\\' then Done(s[0], s[1..])
    else if |s| == 1 then Fail
    else if Short(s[1]).Some? then Done(Short(s[1]).value, s[2..])
    else ReadUnicode(s)
  }

  /** The rest of a string, its closing quote included. */
  function ReadChars(s: string): (r: Scan<string>)
    ensures r.Done? ==> |r.rest| < |s|
    decreases |s|
  {
    if |s| > 0 && s[0] == '\"' then Done("", s[1..])
    else
      var c := ReadChar(s);
      if c.Fail? then Fail
      else
        var more := ReadChars(c.rest);
        if more.Fail? then Fail else Done([c.value] + more.value, more.rest)
  }

  // ---- Numbers (section 6) ---------------------------------------------------------------------------

  predicate Digit(c: char) {
    '0' <= c <= '9'
  }

  predicate NumberChar(c: char) {
    Digit(c) || c == '-' || c == '+' || c == '.' || c == 'e' || c == 'E'
  }

  function Digits(s: string): (n: nat)
    ensures n <= |s|
  {
    if |s| > 0 && Digit(s[0]) then 1 + Digits(s[1..]) else 0
  }

  predicate Exponent(s: string) {
    s == "" ||
    ((s[0] == 'e' || s[0] == 'E') &&
     var t := if |s| > 1 && (s[1] == '+' || s[1] == '-') then s[2..] else s[1..];
     |t| > 0 && Digits(t) == |t|)
  }

  predicate Fraction(s: string) {
    if |s| > 0 && s[0] == '.' then
      var n := Digits(s[1..]);
      n > 0 && Exponent(s[1 + n..])
    else Exponent(s)
  }

  /** A number as the grammar has it: no leading zeros, digits on both sides of the point. */
  predicate IsNumber(s: string) {
    var t := if |s| > 0 && s[0] == '-' then s[1..] else s;
    var n := Digits(t);
    n > 0 && (t[0] == '0' ==> n == 1) && Fraction(t[n..])
  }

  function NumberLength(s: string): (n: nat)
    ensures n <= |s|
  {
    if |s| > 0 && NumberChar(s[0]) then 1 + NumberLength(s[1..]) else 0
  }

  // ---- Values ------------------------------------------------------------------------------------------

  predicate Blank(c: char) {
    c == ' ' || c == '\t' || c == '\n' || c == '\r'
  }

  function Skip(s: string): (r: string)
    ensures |r| <= |s|
  {
    if |s| > 0 && Blank(s[0]) then Skip(s[1..]) else s
  }

  /** `dict(pairs)`: of fields with one key the last value counts. */
  function AsDict(fields: seq<Field>): seq<Field> {
    if |fields| == 0 then []
    else
      var init, last := AsDict(fields[..|fields| - 1]), fields[|fields| - 1];
      if exists i :: 0 <= i < |init| && init[i].key == last.key then
        seq(|init|, i requires 0 <= i < |init| => if init[i].key == last.key then last else init[i])
      else init + [last]
  }

  predicate Starts(s: string, word: string) {
    |word| <= |s| && s[..|word|] == word
  }

  function ReadString(s: string): (r: Scan<Json>)
    requires |s| > 0
    ensures r.Done? ==> |r.rest| < |s|
  {
    var r := ReadChars(s[1..]);
    if r.Fail? then Fail else Done(Str(r.value), r.rest)
  }

  /** A literal name or a number. */
  function ReadWord(s: string): (r: Scan<Json>)
    ensures r.Done? ==> |r.rest| < |s|
  {
    if Starts(s, "null") then Done(Null, s[4..])
    else if Starts(s, "true") then Done(Bool(true), s[4..])
    else if Starts(s, "false") then Done(Bool(false), s[5..])
    else
      var n := NumberLength(s);
      if n > 0 && IsNumber(s[..n]) then Done(Num(s[..n]), s[n..]) else Fail
  }

  function ReadValue(text: string): (r: Scan<Json>)
    ensures r.Done? ==> |r.rest| < |text|
    decreases |text|, 2
  {
    var s := Skip(text);
    if |s| == 0 then Fail
    else if s[0] == '\"' then ReadString(s)
    else if s[0] == '[' then ReadArray(s)
    else if s[0] == '{' then ReadObject(s)
    else ReadWord(s)
  }

  function ReadArray(s: string): (r: Scan<Json>)
    requires |s| > 0
    ensures r.Done? ==> |r.rest| < |s|
    decreases |s|, 0
  {
    var t := Skip(s[1..]);
    if |t| > 0 && t[0] == ']' then Done(Arr([]), t[1..])
    else
      var r := ReadItems(s[1..]);
      if r.Fail? then Fail else Done(Arr(r.value), r.rest)
  }

  function ReadObject(s: string): (r: Scan<Json>)
    requires |s| > 0
    ensures r.Done? ==> |r.rest| < |s|
    decreases |s|, 0
  {
    var t := Skip(s[1..]);
    if |t| > 0 && t[0] == '}' then Done(Obj([]), t[1..])
    else
      var r := ReadFields(s[1..]);
      if r.Fail? then Fail else Done(Obj(AsDict(r.value)), r.rest)
  }

  /** Values up to the closing bracket. */
  function ReadItems(s: string): (r: Scan<seq<Json>>)
    ensures r.Done? ==> |r.rest| < |s|
    decreases |s|, 3
  {
    var v := ReadValue(s);
    if v.Fail? then Fail
    else
      var t := Skip(v.rest);
      if |t| > 0 && t[0] == ']' then Done([v.value], t[1..])
      else if |t| > 0 && t[0] == ',' then
        var more := ReadItems(t[1..]);
        if more.Fail? then Fail else Done([v.value] + more.value, more.rest)
      else Fail
  }

  function ReadKey(text: string): (r: Scan<string>)
    ensures r.Done? ==> |r.rest| < |text|
  {
    var s := Skip(text);
    if |s| == 0 || s[0] != '\"' then Fail
    else
      var r := ReadChars(s[1..]);
      if r.Fail? then Fail
      else
        var t := Skip(r.rest);
        if |t| > 0 && t[0] == ':' then Done(r.value, t[1..]) else Fail
  }

  /** Fields up to the closing brace. */
  function ReadFields(s: string): (r: Scan<seq<Field>>)
    ensures r.Done? ==> |r.rest| < |s|
    decreases |s|, 3
  {
    var k := ReadKey(s);
    if k.Fail? then Fail
    else
      var v := ReadValue(k.rest);
      if v.Fail? then Fail
      else
        var t := Skip(v.rest);
        if |t| > 0 && t[0] == '}' then Done([Field(k.value, v.value)], t[1..])
        else if |t| > 0 && t[0] == ',' then
          var more := ReadFields(t[1..]);
          if more.Fail? then Fail else Done([Field(k.value, v.value)] + more.value, more.rest)
        else Fail
  }

  /** `json.loads`; `None` where it raises. */
  function Read(text: string): Option<Json> {
    var r := ReadValue(text);
    if r.Done? && Skip(r.rest) == "" then Some(r.value) else None
  }

  // ---- Reading what was printed: strings ---------------------------------------------------------------

  lemma HexRead(n: nat)
    requires n < 16
    ensures HexValue(HexDigit(n)) == Some(n)
  {
  }

  lemma HexSum(n: nat)
    requires n < 0x1_0000
    ensures n == 4096 * (n / 4096) + 256 * (n / 256 % 16) + 16 * (n / 16 % 16) + n % 16
  {
    var a, b := n / 16, n / 256;
    assert b == a / 16 && n / 4096 == b / 16;
    assert n == 16 * a + n % 16;
    assert a == 16 * b + a % 16;
    assert b == 16 * (b / 16) + b % 16;
  }

  lemma UnitRead(n: nat, rest: string)
    requires n < 0x1_0000
    ensures ReadUnit(UnicodeEscape(n) + rest) == Done(n, rest)
  {
    var e := UnicodeEscape(n);
    var s := e + rest;
    HexRead(n / 4096);
    HexRead(n / 256 % 16);
    HexRead(n / 16 % 16);
    HexRead(n % 16);
    HexSum(n);
    assert |e| == 6 && e[0] == '\\' && e[1] == 'u' && e[2] == HexDigit(n / 4096);
    assert e[3] == HexDigit(n / 256 % 16) && e[4] == HexDigit(n / 16 % 16) && e[5] == HexDigit(n % 16);
    assert s[6..] == rest;
  }

  lemma PairRead(m: nat, rest: string)
    requires m < 0x10_0000
    ensures ReadUnicode(SurrogatePair(m) + rest) == Done((0x1_0000 + m) as char, rest)
  {
    hide ReadUnit, UnicodeEscape;
    var high, low := UnicodeEscape(0xD800 + m / 1024), UnicodeEscape(0xDC00 + m % 1024);
    assert SurrogatePair(m) + rest == high + (low + rest);
    UnitRead(0xD800 + m / 1024, low + rest);
    UnitRead(0xDC00 + m % 1024, rest);
    assert 1024 * (m / 1024) + m % 1024 == m;
  }

  lemma UnicodeStarts(n: nat, rest: string)
    requires n < 0x1_0000
    ensures var s := UnicodeEscape(n) + rest;
            |s| >= 6 && s[0] == '\\' && s[1] == 'u' && ReadChar(s) == ReadUnicode(s)
  {
    var e := UnicodeEscape(n);
    assert e[0] == '\\' && e[1] == 'u';
  }

  lemma ShortRead(e: char, c: char, rest: string)
    requires Short(e) == Some(c)
    ensures ReadChar(['\\', e] + rest) == Done(c, rest)
  {
    var s := ['\\', e] + rest;
    assert s[0] == '\\' && s[1] == e && s[2..] == rest;
  }

  lemma PlainRead(c: char, rest: string)
    requires c != '\"' && c != '\\' && c >= ' '
    ensures ReadChar([c] + rest) == Done(c, rest)
  {
    assert ([c] + rest)[1..] == rest;
  }

  lemma UnicodeCharRead(c: char, rest: string)
    requires c as nat < 0x1_0000
    ensures ReadChar(UnicodeEscape(c as nat) + rest) == Done(c, rest)
  {
    UnicodeStarts(c as nat, rest);
    UnitRead(c as nat, rest);
  }

  lemma PairCharRead(m: nat, rest: string)
    requires m < 0x10_0000
    ensures ReadChar(SurrogatePair(m) + rest) == Done((0x1_0000 + m) as char, rest)
  {
    var high, low := UnicodeEscape(0xD800 + m / 1024), UnicodeEscape(0xDC00 + m % 1024);
    assert SurrogatePair(m) + rest == high + (low + rest);
    UnicodeStarts(0xD800 + m / 1024, low + rest);
    PairRead(m, rest);
  }

  /** Characters with an escape of two letters. */
  lemma ShortCharRead(c: char, rest: string)
    requires c == '\"' || c == '\\' || c == '\n' || c == '\r' || c == '\t' || c == 8 as char || c == 12 as char
    ensures ReadChar(Escape(c) + rest) == Done(c, rest)
  {
    var e := if c == '\n' then 'n' else if c == '\r' then 'r' else if c == '\t' then 't'
             else if c == 8 as char then 'b' else if c == 12 as char then 'f' else c;
    assert Escape(c) == ['\\', e];
    ShortRead(e, c, rest);
  }

  lemma CharRead(c: char, rest: string)
    ensures ReadChar(Escape(c) + rest) == Done(c, rest)
  {
    if c == '\"' || c == '\\' || c == '\n' || c == '\r' || c == '\t' || c == 8 as char || c == 12 as char {
      ShortCharRead(c, rest);
    } else {
      LongCharRead(c, rest);
    }
  }

  predicate IsLong(c: char) {
    c != '\"' && c != '\\' && c != '\n' && c != '\r' && c != '\t' && c != 8 as char && c != 12 as char
  }

  lemma PrintableRead(c: char, rest: string)
    requires IsLong(c) && PrintableChar(c)
    ensures ReadChar(Escape(c) + rest) == Done(c, rest)
  {
    assert Escape(c) == [c];
    PlainRead(c, rest);
  }

  lemma UnitEscapeRead(c: char, rest: string)
    requires IsLong(c) && !PrintableChar(c) && c as nat < 0x1_0000
    ensures ReadChar(Escape(c) + rest) == Done(c, rest)
  {
    assert Escape(c) == UnicodeEscape(c as nat);
    UnicodeCharRead(c, rest);
  }

  lemma PairEscapeRead(c: char, m: nat, rest: string)
    requires c as nat == 0x1_0000 + m
    ensures ReadChar(Escape(c) + rest) == Done(c, rest)
  {
    assert Escape(c) == SurrogatePair(m);
    PairCharRead(m, rest);
  }

  lemma LongCharRead(c: char, rest: string)
    requires IsLong(c)
    ensures ReadChar(Escape(c) + rest) == Done(c, rest)
  {
    if c as nat >= 0x1_0000 {
      PairEscapeRead(c, c as nat - 0x1_0000, rest);
    } else if PrintableChar(c) {
      PrintableRead(c, rest);
    } else {
      UnitEscapeRead(c, rest);
    }
  }

  lemma CharsStep(s: string, c: char, t: string, more: string, rest: string)
    requires ReadChar(s) == Done(c, t) && ReadChars(t) == Done(more, rest)
    ensures ReadChars(s) == Done([c] + more, rest)
  {
  }

  lemma {:induction false} CharsRead(s: string, rest: string)
    ensures ReadChars(Escaped(s) + "\"" + rest) == Done(s, rest)
    decreases |s|
  {
    if |s| == 0 {
      assert Escaped(s) + "\"" + rest == "\"" + rest;
      assert ("\"" + rest)[1..] == rest;
    } else {
      var more := Escaped(s[1..]) + "\"" + rest;
      assert Escaped(s) + "\"" + rest == Escape(s[0]) + more;
      CharRead(s[0], more);
      CharsRead(s[1..], rest);
      CharsStep(Escape(s[0]) + more, s[0], more, s[1..], rest);
      assert [s[0]] + s[1..] == s;
    }
  }

  // ---- Reading what was printed: scalars -----------------------------------------------------------------

  /** The text goes on with something that no number goes on with. */
  ghost predicate Stops(rest: string) {
    |rest| > 0 ==> !NumberChar(rest[0])
  }

  lemma {:induction false} DigitsAreNumberChars(s: string)
    ensures forall i :: 0 <= i < Digits(s) ==> NumberChar(s[i])
  {
    if |s| > 0 && Digit(s[0]) {
      DigitsAreNumberChars(s[1..]);
      assert forall i :: 0 < i < Digits(s) ==> s[i] == s[1..][i - 1];
    }
  }

  ghost predicate AllNumberChars(s: string) {
    forall i :: 0 <= i < |s| ==> NumberChar(s[i])
  }

  lemma AllJoin(s: string, n: nat)
    requires n <= |s| && AllNumberChars(s[..n]) && AllNumberChars(s[n..])
    ensures AllNumberChars(s)
  {
    forall i | 0 <= i < |s|
      ensures NumberChar(s[i])
    {
      assert s[i] == if i < n then s[..n][i] else s[n..][i - n];
    }
  }

  lemma DigitsAll(s: string)
    ensures AllNumberChars(s[..Digits(s)])
  {
    DigitsAreNumberChars(s);
  }

  lemma ExponentChars(s: string)
    requires Exponent(s)
    ensures AllNumberChars(s)
  {
    if s != "" {
      var k := if |s| > 1 && (s[1] == '+' || s[1] == '-') then 2 else 1;
      DigitsAll(s[k..]);
      assert s[k..][..Digits(s[k..])] == s[k..];
      AllJoin(s, k);
    }
  }

  lemma FractionChars(s: string)
    requires Fraction(s)
    ensures AllNumberChars(s)
  {
    if |s| > 0 && s[0] == '.' {
      var n := Digits(s[1..]);
      DigitsAll(s[1..]);
      ExponentChars(s[1 + n..]);
      assert s[1..][n..] == s[1 + n..];
      AllJoin(s[1..], n);
      AllJoin(s, 1);
    } else {
      ExponentChars(s);
    }
  }

  lemma NumberChars(s: string)
    requires IsNumber(s)
    ensures AllNumberChars(s) && |s| > 0 && (s[0] == '-' || Digit(s[0]))
  {
    var k := if |s| > 0 && s[0] == '-' then 1 else 0;
    var t := s[k..];
    assert k == 0 ==> t == s;
    DigitsAll(t);
    FractionChars(t[Digits(t)..]);
    AllJoin(t, Digits(t));
    AllJoin(s, k);
  }

  lemma {:induction false} NumberLengthIs(s: string, rest: string)
    requires AllNumberChars(s) && Stops(rest)
    ensures NumberLength(s + rest) == |s|
    decreases |s|
  {
    if |s| == 0 {
      assert s + rest == rest;
    } else {
      assert (s + rest)[1..] == s[1..] + rest && (s + rest)[0] == s[0];
      NumberLengthIs(s[1..], rest);
    }
  }

  /** A value that starts with none of the special characters is a word. */
  lemma WordRead(s: string)
    requires |s| > 0 && !Blank(s[0]) && s[0] != '\"' && s[0] != '[' && s[0] != '{'
    ensures ReadValue(s) == ReadWord(s)
  {
  }

  lemma NumberRead(s: string, rest: string)
    requires IsNumber(s) && Stops(rest)
    ensures ReadValue(s + rest) == Done(Num(s), rest)
  {
    var text := s + rest;
    NumberChars(s);
    NumberLengthIs(s, rest);
    assert text[0] == s[0] && text[..|s|] == s && text[|s|..] == rest;
    WordRead(text);
    NotAName(text);
  }

  lemma NotAName(s: string)
    requires |s| > 0 && (s[0] == '-' || Digit(s[0]))
    ensures !Starts(s, "null") && !Starts(s, "true") && !Starts(s, "false")
  {
    assert "null"[0] == 'n' && "true"[0] == 't' && "false"[0] == 'f';
    assert |s| >= 4 ==> s[..4][0] == s[0];
    assert |s| >= 5 ==> s[..5][0] == s[0];
  }

  lemma NameRead(word: string, rest: string)
    requires word == "null" || word == "true" || word == "false"
    ensures ReadValue(word + rest) ==
            Done(if word == "null" then Null else Bool(word == "true"), rest)
  {
    var s := word + rest;
    assert s[0] == word[0] && s[..|word|] == word && s[|word|..] == rest;
    WordRead(s);
    if word != "null" {
      assert s[..4][0] == s[0] && "null"[0] == 'n';
    }
    if word == "false" {
      assert s[..4][0] == s[0] && "true"[0] == 't';
    }
  }

  /** Numbers are numbers, and no object has a key twice: what a dict prints. */
  ghost predicate Clean(v: Json)
    decreases v
  {
    match v
    case Num(text) => IsNumber(text)
    case Arr(items) => forall i :: 0 <= i < |items| ==> Clean(items[i])
    case Obj(fields) => DistinctKeys(fields) && forall i :: 0 <= i < |fields| ==> Clean(fields[i].value)
    case _ => true
  }

  ghost predicate DistinctKeys(fields: seq<Field>) {
    forall i, j :: 0 <= i < j < |fields| ==> fields[i].key != fields[j].key
  }

  lemma {:induction false} AsDictSame(fields: seq<Field>)
    requires DistinctKeys(fields)
    ensures AsDict(fields) == fields
  {
    if |fields| > 0 {
      AsDictSame(fields[..|fields| - 1]);
    }
  }

  lemma StringRead(t: string, rest: string)
    ensures ReadValue(Quoted(t) + rest) == Done(Str(t), rest)
  {
    hide ReadChars, Escaped;
    var s := Quoted(t) + rest;
    assert s[0] == '\"' && s[1..] == Escaped(t) + "\"" + rest;
    CharsRead(t, rest);
    assert Skip(s) == s;
  }

  lemma ScalarRead(v: Json, rest: string)
    requires !v.Arr? && !v.Obj? && Clean(v) && Stops(rest)
    ensures ReadValue(Scalar(v) + rest) == Done(v, rest)
  {
    match v
    case Null => NameRead("null", rest);
    case Bool(b) => NameRead(if b then "true" else "false", rest);
    case Num(text) => NumberRead(text, rest);
    case Str(t) => StringRead(t, rest);
  }

  // ---- Reading what was printed: white space and brackets --------------------------------------------------

  ghost predicate Solid(s: string) {
    |s| > 0 && !Blank(s[0])
  }

  lemma {:induction false} SkipSpaces(n: nat, s: string)
    requires Solid(s)
    ensures Skip(Spaces(n) + s) == s
    decreases n
  {
    if n == 0 {
      assert Spaces(0) + s == s;
    } else {
      assert (Spaces(n) + s)[1..] == Spaces(n - 1) + s;
      SkipSpaces(n - 1, s);
    }
  }

  lemma SkipLine(n: nat, s: string)
    requires Solid(s)
    ensures Skip("\n" + Spaces(n) + s) == s
  {
    assert ("\n" + Spaces(n) + s)[1..] == Spaces(n) + s;
    SkipSpaces(n, s);
  }

  lemma ValueSkips(text: string, s: string)
    requires Skip(text) == s && Solid(s)
    ensures ReadValue(text) == ReadValue(s)
  {
    assert Skip(s) == s;
  }

  lemma KeySkips(text: string, s: string)
    requires Skip(text) == s && Solid(s)
    ensures ReadKey(text) == ReadKey(s)
  {
    assert Skip(s) == s;
  }

  /** Values that follow the text `s` of the first one, up to the bracket. */
  lemma ItemsStep(s: string, v: Json, t: string, more: Scan<seq<Json>>)
    requires ReadValue(s).Done? && ReadValue(s).value == v && Skip(ReadValue(s).rest) == t && |t| > 0
    requires t[0] == ',' ==> ReadItems(t[1..]) == more && more.Done?
    ensures t[0] == ']' ==> ReadItems(s) == Done([v], t[1..])
    ensures t[0] == ',' ==> ReadItems(s) == Done([v] + more.value, more.rest)
  {
  }

  lemma FieldsStep(s: string, f: Field, u: string, t: string, more: Scan<seq<Field>>)
    requires ReadKey(s) == Done(f.key, u)
    requires ReadValue(u).Done? && ReadValue(u).value == f.value && Skip(ReadValue(u).rest) == t && |t| > 0
    requires t[0] == ',' ==> ReadFields(t[1..]) == more && more.Done?
    ensures t[0] == '}' ==> ReadFields(s) == Done([f], t[1..])
    ensures t[0] == ',' ==> ReadFields(s) == Done([f] + more.value, more.rest)
  {
  }

  lemma KeyRead(key: string, rest: string)
    ensures ReadKey(Quoted(key) + ": " + rest) == Done(key, " " + rest)
  {
    hide ReadChars, Escaped;
    var s := Quoted(key) + ": " + rest;
    var after := ": " + rest;
    assert s == "\"" + (Escaped(key) + "\"" + after);
    assert s[1..] == Escaped(key) + "\"" + after;
    CharsRead(key, after);
    assert after[1..] == " " + rest;
  }

  /** The first character decides which reader goes on. */
  lemma Bracketed(text: string)
    requires |text| > 0
    ensures text[0] == '[' ==> ReadValue(text) == ReadArray(text)
    ensures text[0] == '{' ==> ReadValue(text) == ReadObject(text)
  {
    assert text[0] == '[' || text[0] == '{' ==> Skip(text) == text;
  }

  lemma ArrayRead(items: seq<Json>, s: string, rest: string)
    requires |items| > 0 && ReadItems(s) == Done(items, rest) && |Skip(s)| > 0 && Skip(s)[0] != ']'
    ensures ReadValue("[" + s) == Done(Arr(items), rest)
  {
    var text := "[" + s;
    assert text[0] == '[' && text[1..] == s;
    Bracketed(text);
  }

  lemma ObjectRead(fields: seq<Field>, s: string, rest: string)
    requires DistinctKeys(fields) && ReadFields(s) == Done(fields, rest) && |Skip(s)| > 0 && Skip(s)[0] != '}'
    ensures ReadValue("{" + s) == Done(Obj(fields), rest)
  {
    ObjectIs(fields, s, rest);
    AsDictSame(fields);
  }

  lemma ObjectIs(fields: seq<Field>, s: string, rest: string)
    requires ReadFields(s) == Done(fields, rest) && |Skip(s)| > 0 && Skip(s)[0] != '}'
    ensures ReadValue("{" + s) == Done(Obj(AsDict(fields)), rest)
  {
    var text := "{" + s;
    assert text[0] == '{' && text[1..] == s;
    Bracketed(text);
  }

  lemma EmptyRead(rest: string)
    ensures ReadValue("[]" + rest) == Done(Arr([]), rest)
    ensures ReadValue("{}" + rest) == Done(Obj([]), rest)
  {
    var a, o := "[]" + rest, "{}" + rest;
    assert a[0] == '[' && a[1..] == "]" + rest && ("]" + rest)[1..] == rest;
    assert o[0] == '{' && o[1..] == "}" + rest && ("}" + rest)[1..] == rest;
    Bracketed(a);
    Bracketed(o);
  }

  // ---- The compact form --------------------------------------------------------------------------------------

  /** Printed values start with no space and no closing bracket. */
  ghost predicate Opens(s: string) {
    Solid(s) && s[0] != ']' && s[0] != '}' && s[0] != ','
  }

  lemma ScalarOpens(v: Json)
    requires !v.Arr? && !v.Obj? && Clean(v)
    ensures Opens(Scalar(v))
  {
    if v.Num? {
      NumberChars(v.text);
    }
  }

  lemma CompactOpens(v: Json)
    requires Clean(v)
    ensures Opens(Compact(v))
  {
    if !v.Arr? && !v.Obj? {
      ScalarOpens(v);
    }
  }

  lemma {:induction false} CompactRead(v: Json, rest: string)
    requires Clean(v) && Stops(rest)
    ensures ReadValue(Compact(v) + rest) == Done(v, rest)
    decreases v, 3
  {
    hide ReadValue;
    match v
    case Arr(items) =>
      if |items| == 0 {
        assert Compact(v) == "[]";
        EmptyRead(rest);
      } else {
        CompactArrayRead(items, rest);
      }
    case Obj(fields) =>
      if |fields| == 0 {
        assert Compact(v) == "{}";
        EmptyRead(rest);
      } else {
        CompactObjectRead(fields, rest);
      }
    case _ => ScalarRead(v, rest);
  }

  lemma {:induction false} CompactArrayRead(items: seq<Json>, rest: string)
    requires |items| > 0 && forall i :: 0 <= i < |items| ==> Clean(items[i])
    ensures ReadValue("[" + CompactItems(items) + "]" + rest) == Done(Arr(items), rest)
    decreases items, 2
  {
    var s := CompactItems(items) + ("]" + rest);
    assert "[" + CompactItems(items) + "]" + rest == "[" + s;
    CompactItemsRead(items, rest);
    CompactOpens(items[0]);
    assert s[0] == Compact(items[0])[0];
    assert Skip(s) == s;
    ArrayRead(items, s, rest);
  }

  lemma {:induction false} CompactObjectRead(fields: seq<Field>, rest: string)
    requires |fields| > 0 && DistinctKeys(fields) && forall i :: 0 <= i < |fields| ==> Clean(fields[i].value)
    ensures ReadValue("{" + CompactFields(fields) + "}" + rest) == Done(Obj(fields), rest)
    decreases fields, 2
  {
    hide ReadFields, ReadValue, Compact, Clean;
    var s := CompactFields(fields) + ("}" + rest);
    assert "{" + CompactFields(fields) + "}" + rest == "{" + s;
    CompactFieldsRead(fields, rest);
    assert s[0] == '\"';
    assert Skip(s) == s;
    ObjectRead(fields, s, rest);
  }

  lemma {:induction false} CompactItemsRead(items: seq<Json>, rest: string)
    requires |items| > 0 && forall i :: 0 <= i < |items| ==> Clean(items[i])
    ensures ReadItems(CompactItems(items) + ("]" + rest)) == Done(items, rest)
    decreases items, 1
  {
    if |items| == 1 {
      assert CompactItems(items) == Compact(items[0]) + "" && items == [items[0]];
      assert CompactItems(items) == Compact(items[0]);
      LastItemRead(items[0], rest);
    } else {
      var more := CompactItems(items[1..]) + ("]" + rest);
      assert CompactItems(items) + ("]" + rest) == Compact(items[0]) + ("," + (" " + more));
      CompactItemsRead(items[1..], rest);
      CompactOpens(items[1]);
      assert more[0] == Compact(items[1])[0];
      ItemThenMore(items[0], items[1..], more, rest);
      assert items == [items[0]] + items[1..];
    }
  }

  lemma {:induction false} LastItemRead(v: Json, rest: string)
    requires Clean(v)
    ensures ReadItems(Compact(v) + ("]" + rest)) == Done([v], rest)
    decreases v, 4
  {
    var t := "]" + rest;
    assert t[1..] == rest;
    CompactRead(v, t);
    ItemsStep(Compact(v) + t, v, t, Fail);
  }

  lemma {:induction false} ItemThenMore(v: Json, vs: seq<Json>, more: string, rest: string)
    requires Clean(v) && Solid(more) && ReadItems(more) == Done(vs, rest)
    ensures ReadItems(Compact(v) + ("," + (" " + more))) == Done([v] + vs, rest)
    decreases v, 4
  {
    var t := "," + (" " + more);
    assert t[1..] == " " + more && (" " + more)[1..] == more;
    CompactRead(v, t);
    ItemsSkip(" ", more);
    ItemsStep(Compact(v) + t, v, t, Done(vs, rest));
  }

  /** White space in front of a value or of a key does not matter. */
  lemma ItemsSkip(white: string, s: string)
    requires Solid(s) && Skip(white + s) == s
    ensures ReadItems(white + s) == ReadItems(s)
  {
    ValueSkips(white + s, s);
  }

  lemma FieldsSkip(white: string, s: string)
    requires Solid(s) && Skip(white + s) == s
    ensures ReadFields(white + s) == ReadFields(s)
  {
    KeySkips(white + s, s);
  }

  lemma FieldText(key: string, value: string, close: string)
    ensures key + ": " + value + "" + close == key + ": " + (value + close)
  {
  }

  lemma FieldsText(key: string, value: string, others: string, close: string)
    ensures key + ": " + value + (", " + others) + close == key + ": " + (value + ("," + (" " + (others + close))))
  {
    assert ", " + others + close == "," + (" " + (others + close));
    assert value + (", " + others) + close == value + (", " + others + close);
    assert key + ": " + value + (", " + others) + close == key + ": " + (value + (", " + others) + close);
  }

  lemma {:induction false} CompactFieldsRead(fields: seq<Field>, rest: string)
    requires |fields| > 0 && forall i :: 0 <= i < |fields| ==> Clean(fields[i].value)
    ensures ReadFields(CompactFields(fields) + ("}" + rest)) == Done(fields, rest)
    decreases fields, 1
  {
    hide ReadFields, Quoted, Compact, Clean;
    var f, close := fields[0], "}" + rest;
    if |fields| == 1 {
      assert fields == [f];
      FieldText(Quoted(f.key), Compact(f.value), close);
      LastFieldRead(f, rest);
    } else {
      var more := CompactFields(fields[1..]) + close;
      CompactFieldsRead(fields[1..], rest);
      KeyFirst(fields[1..]);
      assert more[0] == '\"';
      FieldsText(Quoted(f.key), Compact(f.value), CompactFields(fields[1..]), close);
      FieldThenMore(f, fields[1..], more, rest);
      assert fields == [f] + fields[1..];
    }
  }

  lemma KeyFirst(fields: seq<Field>)
    requires |fields| > 0
    ensures |CompactFields(fields)| > 0 && CompactFields(fields)[0] == '\"'
  {
  }

  lemma {:induction false} LastFieldRead(f: Field, rest: string)
    requires Clean(f.value)
    ensures ReadFields(Quoted(f.key) + ": " + (Compact(f.value) + ("}" + rest))) == Done([f], rest)
    decreases f.value, 5
  {
    var t := "}" + rest;
    assert t[1..] == rest;
    CompactFieldRead(f, t);
    FieldsStep(Quoted(f.key) + ": " + (Compact(f.value) + t), f, " " + (Compact(f.value) + t), t, Fail);
  }

  lemma {:induction false} FieldThenMore(f: Field, fs: seq<Field>, more: string, rest: string)
    requires Clean(f.value) && Solid(more) && ReadFields(more) == Done(fs, rest)
    ensures ReadFields(Quoted(f.key) + ": " + (Compact(f.value) + ("," + (" " + more)))) == Done([f] + fs, rest)
    decreases f.value, 5
  {
    var t := "," + (" " + more);
    assert t[1..] == " " + more && (" " + more)[1..] == more;
    CompactFieldRead(f, t);
    FieldsSkip(" ", more);
    FieldsStep(Quoted(f.key) + ": " + (Compact(f.value) + t), f, " " + (Compact(f.value) + t), t, Done(fs, rest));
  }

  lemma {:induction false} CompactFieldRead(f: Field, t: string)
    requires Clean(f.value) && Stops(t) && Solid(t)
    ensures ReadKey(Quoted(f.key) + ": " + (Compact(f.value) + t)) == Done(f.key, " " + (Compact(f.value) + t))
    ensures ReadValue(" " + (Compact(f.value) + t)) == Done(f.value, t) && Skip(t) == t
    decreases f.value, 4
  {
    var text := Compact(f.value) + t;
    KeyRead(f.key, text);
    CompactOpens(f.value);
    assert (" " + text)[1..] == text && text[0] == Compact(f.value)[0];
    ValueSkips(" " + text, text);
    CompactRead(f.value, t);
  }

  // ---- The indented form ---------------------------------------------------------------------------------------

  lemma IndentedOpens(v: Json, depth: nat)
    requires Clean(v)
    ensures Opens(Indented(v, depth))
  {
    if !v.Arr? && !v.Obj? {
      ScalarOpens(v);
    }
  }

  function Margin(depth: nat): string {
    "\n" + Spaces(2 * depth)
  }

  lemma {:induction false} IndentedRead(v: Json, depth: nat, rest: string)
    requires Clean(v) && Stops(rest)
    ensures ReadValue(Indented(v, depth) + rest) == Done(v, rest)
    decreases v, 3
  {
    hide ReadValue, IndentedItems, IndentedFields;
    match v
    case Arr(items) =>
      if |items| == 0 {
        EmptyRead(rest);
      } else {
        IndentedArrayRead(items, depth, rest);
      }
    case Obj(fields) =>
      if |fields| == 0 {
        EmptyRead(rest);
      } else {
        IndentedObjectRead(fields, depth, rest);
      }
    case _ => ScalarRead(v, rest);
  }

  lemma {:induction false} IndentedArrayRead(items: seq<Json>, depth: nat, rest: string)
    requires |items| > 0 && forall i :: 0 <= i < |items| ==> Clean(items[i])
    ensures ReadValue("[" + IndentedItems(items, depth + 1) + "\n" + Spaces(2 * depth) + "]" + rest)
            == Done(Arr(items), rest)
    decreases items, 2
  {
    hide ReadItems, ReadValue, IndentedItems;
    var s := IndentedItems(items, depth + 1) + (Margin(depth) + ("]" + rest));
    assert "[" + IndentedItems(items, depth + 1) + "\n" + Spaces(2 * depth) + "]" + rest == "[" + s;
    IndentedItemsRead(items, depth + 1, depth, rest);
    ItemsOpen(items, depth + 1, Margin(depth) + ("]" + rest));
    ArrayRead(items, s, rest);
  }

  lemma {:induction false} IndentedObjectRead(fields: seq<Field>, depth: nat, rest: string)
    requires |fields| > 0 && DistinctKeys(fields) && forall i :: 0 <= i < |fields| ==> Clean(fields[i].value)
    ensures ReadValue("{" + IndentedFields(fields, depth + 1) + "\n" + Spaces(2 * depth) + "}" + rest)
            == Done(Obj(fields), rest)
    decreases fields, 2
  {
    hide ReadFields, ReadValue, IndentedFields;
    var s := IndentedFields(fields, depth + 1) + (Margin(depth) + ("}" + rest));
    assert "{" + IndentedFields(fields, depth + 1) + "\n" + Spaces(2 * depth) + "}" + rest == "{" + s;
    IndentedFieldsRead(fields, depth + 1, depth, rest);
    FieldsOpen(fields, depth + 1, Margin(depth) + ("}" + rest));
    ObjectRead(fields, s, rest);
  }

  /** The first item after its margin. */
  lemma ItemsOpen(items: seq<Json>, depth: nat, tail: string)
    requires |items| > 0 && Clean(items[0])
    ensures var s := IndentedItems(items, depth) + tail;
            Opens(Skip(s)) && s == Margin(depth) + Skip(s)
  {
    var after := if |items| == 1 then "" else "," + IndentedItems(items[1..], depth);
    var text := Indented(items[0], depth) + (after + tail);
    IndentedOpens(items[0], depth);
    assert text[0] == Indented(items[0], depth)[0];
    assert IndentedItems(items, depth) + tail == "\n" + Spaces(2 * depth) + text;
    SkipLine(2 * depth, text);
  }

  lemma FieldsOpen(fields: seq<Field>, depth: nat, tail: string)
    requires |fields| > 0
    ensures var s := IndentedFields(fields, depth) + tail;
            Opens(Skip(s)) && Skip(s)[0] == '\"' && s == Margin(depth) + Skip(s)
  {
    var after := if |fields| == 1 then "" else "," + IndentedFields(fields[1..], depth);
    KeyOpens(fields[0].key, Indented(fields[0].value, depth), after, tail, depth);
  }

  lemma KeyOpens(key: string, value: string, after: string, tail: string, depth: nat)
    ensures var s := "\n" + Spaces(2 * depth) + Quoted(key) + ": " + value + after + tail;
            Opens(Skip(s)) && Skip(s)[0] == '\"' && s == Margin(depth) + Skip(s)
  {
    var text := Quoted(key) + ": " + value + after + tail;
    assert text[0] == '\"';
    assert "\n" + Spaces(2 * depth) + Quoted(key) + ": " + value + after + tail == "\n" + Spaces(2 * depth) + text;
    SkipLine(2 * depth, text);
  }

  /** The text of the items in front of what follows, taken apart at the first item. */
  lemma ItemsText(items: seq<Json>, depth: nat, close: string)
    requires |items| > 0
    ensures IndentedItems(items, depth) + close == Margin(depth) + (Indented(items[0], depth) +
            (if |items| == 1 then close else "," + (IndentedItems(items[1..], depth) + close)))
  {
    var after := if |items| == 1 then "" else "," + IndentedItems(items[1..], depth);
    assert IndentedItems(items, depth) == "\n" + Spaces(2 * depth) + Indented(items[0], depth) + after;
    assert after + close == if |items| == 1 then close else "," + (IndentedItems(items[1..], depth) + close);
    Regroup("\n", Spaces(2 * depth), Indented(items[0], depth), after, close);
  }

  lemma Regroup(a: string, b: string, c: string, d: string, e: string)
    ensures a + b + c + d + e == (a + b) + (c + (d + e))
  {
  }

  lemma {:induction false} IndentedItemsRead(items: seq<Json>, depth: nat, outer: nat, rest: string)
    requires |items| > 0 && forall i :: 0 <= i < |items| ==> Clean(items[i])
    ensures ReadItems(IndentedItems(items, depth) + (Margin(outer) + ("]" + rest))) == Done(items, rest)
    decreases items, 1
  {
    var close := Margin(outer) + ("]" + rest);
    ItemsText(items, depth, close);
    if |items| == 1 {
      IndentedLastItem(items[0], depth, outer, rest);
      assert items == [items[0]];
    } else {
      var more := IndentedItems(items[1..], depth) + close;
      IndentedItemsRead(items[1..], depth, outer, rest);
      IndentedItemThenMore(items[0], depth, items[1..], more, rest);
      assert items == [items[0]] + items[1..];
    }
  }

  lemma {:induction false} IndentedLastItem(v: Json, depth: nat, outer: nat, rest: string)
    requires Clean(v)
    ensures ReadItems(Margin(depth) + (Indented(v, depth) + (Margin(outer) + ("]" + rest)))) == Done([v], rest)
    decreases v, 4
  {
    var close := Margin(outer) + ("]" + rest);
    var text := Indented(v, depth) + close;
    IndentedOpens(v, depth);
    IndentedRead(v, depth, close);
    SkipLine(2 * outer, "]" + rest);
    assert ("]" + rest)[1..] == rest && text[0] == Indented(v, depth)[0];
    ItemsStep(text, v, "]" + rest, Fail);
    SkipLine(2 * depth, text);
    ItemsSkip(Margin(depth), text);
  }

  lemma {:induction false} IndentedItemThenMore(v: Json, depth: nat, vs: seq<Json>, more: string, rest: string)
    requires Clean(v) && ReadItems(more) == Done(vs, rest)
    ensures ReadItems(Margin(depth) + (Indented(v, depth) + ("," + more))) == Done([v] + vs, rest)
    decreases v, 4
  {
    var t := "," + more;
    var text := Indented(v, depth) + t;
    IndentedOpens(v, depth);
    IndentedRead(v, depth, t);
    assert t[1..] == more && Skip(t) == t && text[0] == Indented(v, depth)[0];
    ItemsStep(text, v, t, Done(vs, rest));
    SkipLine(2 * depth, text);
    ItemsSkip(Margin(depth), text);
  }

  lemma IndentedText(margin: string, key: string, value: string, after: string, close: string)
    ensures margin + key + ": " + value + after + close == margin + (key + ": " + (value + (after + close)))
  {
    assert value + after + close == value + (after + close);
    assert key + ": " + value + after + close == key + ": " + (value + after + close);
    assert margin + key + ": " + value + after + close == margin + (key + ": " + value + after + close);
  }

  lemma {:induction false} IndentedFieldsRead(fields: seq<Field>, depth: nat, outer: nat, rest: string)
    requires |fields| > 0 && forall i :: 0 <= i < |fields| ==> Clean(fields[i].value)
    ensures ReadFields(IndentedFields(fields, depth) + (Margin(outer) + ("}" + rest))) == Done(fields, rest)
    decreases fields, 1
  {
    hide ReadFields, Quoted, Indented, Clean;
    var f, close := fields[0], Margin(outer) + ("}" + rest);
    if |fields| == 1 {
      assert fields == [f] && "" + close == close;
      IndentedText(Margin(depth), Quoted(f.key), Indented(f.value, depth), "", close);
      IndentedLast(f, depth, outer, rest);
    } else {
      var others := IndentedFields(fields[1..], depth);
      IndentedFieldsRead(fields[1..], depth, outer, rest);
      assert "," + others + close == "," + (others + close);
      IndentedText(Margin(depth), Quoted(f.key), Indented(f.value, depth), "," + others, close);
      IndentedThenMore(f, depth, fields[1..], others + close, rest);
      assert fields == [f] + fields[1..];
    }
  }

  lemma {:induction false} IndentedLast(f: Field, depth: nat, outer: nat, rest: string)
    requires Clean(f.value)
    ensures var close := Margin(outer) + ("}" + rest);
            ReadFields(Margin(depth) + (Quoted(f.key) + ": " + (Indented(f.value, depth) + close))) == Done([f], rest)
    decreases f.value, 5
  {
    var close := Margin(outer) + ("}" + rest);
    var text := Quoted(f.key) + ": " + (Indented(f.value, depth) + close);
    IndentedFieldRead(f, depth, close);
    SkipLine(2 * outer, "}" + rest);
    assert ("}" + rest)[1..] == rest && text[0] == '\"';
    FieldsStep(text, f, " " + (Indented(f.value, depth) + close), "}" + rest, Fail);
    SkipLine(2 * depth, text);
    FieldsSkip(Margin(depth), text);
  }

  lemma {:induction false} IndentedThenMore(f: Field, depth: nat, fs: seq<Field>, more: string, rest: string)
    requires Clean(f.value) && ReadFields(more) == Done(fs, rest)
    ensures ReadFields(Margin(depth) + (Quoted(f.key) + ": " + (Indented(f.value, depth) + ("," + more))))
            == Done([f] + fs, rest)
    decreases f.value, 5
  {
    var t := "," + more;
    var text := Quoted(f.key) + ": " + (Indented(f.value, depth) + t);
    IndentedFieldRead(f, depth, t);
    assert t[1..] == more && Skip(t) == t && text[0] == '\"';
    FieldsStep(text, f, " " + (Indented(f.value, depth) + t), t, Done(fs, rest));
    SkipLine(2 * depth, text);
    FieldsSkip(Margin(depth), text);
  }

  lemma {:induction false} IndentedFieldRead(f: Field, depth: nat, t: string)
    requires Clean(f.value) && Stops(t)
    ensures var text := Indented(f.value, depth) + t;
            ReadKey(Quoted(f.key) + ": " + text) == Done(f.key, " " + text) && ReadValue(" " + text) == Done(f.value, t)
    decreases f.value, 4
  {
    var text := Indented(f.value, depth) + t;
    KeyRead(f.key, text);
    IndentedOpens(f.value, depth);
    assert (" " + text)[1..] == text && text[0] == Indented(f.value, depth)[0];
    ValueSkips(" " + text, text);
    IndentedRead(f.value, depth, t);
  }

  // ---- Trace files ---------------------------------------------------------------------------------------------

  /** PRINT THEN READ is the identity, for both layouts and with a line break at the end. */
  lemma ReadInverts(v: Json)
    requires Clean(v)
    ensures Inverts(Read, v)
  {
    CompactRead(v, "");
    CompactRead(v, "\n");
    IndentedRead(v, 0, "");
    assert Compact(v) + "" == Compact(v) && Indented(v, 0) + "" == Indented(v, 0);
    assert Skip("\n") == "";
  }

  lemma {:induction false} CleanIsPlain(v: Json)
    requires Clean(v)
    ensures NumbersPlain(v)
    decreases v
  {
    match v
    case Num(text) => NumberChars(text);
    case Arr(items) =>
      forall i | 0 <= i < |items|
        ensures NumbersPlain(items[i])
      {
        CleanIsPlain(items[i]);
      }
    case Obj(fields) =>
      forall i | 0 <= i < |fields|
        ensures NumbersPlain(fields[i].value)
      {
        CleanIsPlain(fields[i].value);
      }
    case _ =>
  }

  /** SAVE THEN LOAD, reader included: every trace that dicts can hold comes back from either layout, with
      any number of steps and any characters in its strings. */
  lemma SaveThenLoad(t: Trace, ndjson: bool)
    requires Clean(Document(t))
    ensures Load(Saved(t, ndjson), Read) == Some(t)
  {
    var d := Document(t);
    var last := |t.header|;
    assert d.fields[last] == Field("steps", Arr(StepList(t.steps)));
    forall i | 0 <= i < last
      ensures t.header[i].key != "steps" && Clean(t.header[i].value)
    {
      assert d.fields[i] == t.header[i] && d.fields[i].key != d.fields[last].key;
    }
    assert DistinctKeys(t.header) by {
      assert forall i :: 0 <= i < last ==> d.fields[i] == t.header[i];
    }
    forall i | 0 <= i < |t.steps|
      ensures Inverts(Read, Obj(t.steps[i]))
    {
      assert Clean(d.fields[last].value) && StepList(t.steps)[i] == Obj(t.steps[i]);
      ReadInverts(Obj(t.steps[i]));
    }
    CleanIsPlain(d);
    ReadInverts(d);
    ReadInverts(Obj(t.header));
    LoadSaved(t, ndjson, Read);
  }
}
