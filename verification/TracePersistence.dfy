/** Trace files: one indented JSON document, or a header line and one line per step. */
module TracePersistence {
  import opened Options

  datatype Json =
    | Null | Bool(b: bool) | Num(text: string) | Str(s: string) | Arr(items: seq<Json>) | Obj(fields: seq<Field>)

  datatype Field = Field(key: string, value: Json)

  // ---- Printing (json.dumps; strings escaped as in section 7 of RFC 8259) ------------------------

  predicate PrintableChar(c: char) {
    ' ' <= c <= '~'
  }

  ghost predicate Printable(s: string) {
    forall i :: 0 <= i < |s| ==> PrintableChar(s[i])
  }

  function HexDigit(n: nat): (c: char)
    requires n < 16
    ensures PrintableChar(c)
  {
    "0123456789abcdef"[n]
  }

  function UnicodeEscape(n: nat): (s: string)
    requires n < 0x1_0000
    ensures Printable(s)
  {
    "\\u" + [HexDigit(n / 4096), HexDigit(n / 256 % 16), HexDigit(n / 16 % 16), HexDigit(n % 16)]
  }

  function SurrogatePair(m: nat): (s: string)
    requires m < 0x10_0000
    ensures Printable(s) && |s| == 12
  {
    UnicodeEscape(0xD800 + m / 1024) + UnicodeEscape(0xDC00 + m % 1024)
  }

  /** ASCII only: everything outside `' '..'~'` becomes an escape, above U+FFFF a surrogate pair. */
  function Escape(c: char): (s: string)
    ensures Printable(s) && |s| >= 1
  {
    var n := c as int;
    if c == '\"' then "\\\""
    else if c == '\\' then "\\\\"
    else if c == '\n' then "\\n"
    else if c == '\r' then "\\r"
    else if c == '\t' then "\\t"
    else if n == 8 then "\\b"
    else if n == 12 then "\\f"
    else if PrintableChar(c) then [c]
    else if n < 0x1_0000 then UnicodeEscape(n)
    else SurrogatePair(n - 0x1_0000)
  }

  function Escaped(s: string): (e: string)
    ensures Printable(e)
  {
    if |s| == 0 then "" else Escape(s[0]) + Escaped(s[1..])
  }

  function Quoted(s: string): (q: string)
    ensures Printable(q)
  {
    "\"" + Escaped(s) + "\""
  }

  function Scalar(v: Json): string
    requires !v.Arr? && !v.Obj?
  {
    match v
    case Null => "null"
    case Bool(b) => if b then "true" else "false"
    case Num(text) => text
    case Str(s) => Quoted(s)
  }

  /** `json.dumps(v, sort_keys=True)`; fields are given in key order. */
  function Compact(v: Json): string
    decreases v, 0
  {
    match v
    case Arr(items) => "[" + CompactItems(items) + "]"
    case Obj(fields) => "{" + CompactFields(fields) + "}"
    case _ => Scalar(v)
  }

  function CompactItems(items: seq<Json>): string
    decreases items, 1
  {
    if |items| == 0 then ""
    else Compact(items[0]) + (if |items| == 1 then "" else ", " + CompactItems(items[1..]))
  }

  function CompactFields(fields: seq<Field>): string
    decreases fields, 1
  {
    if |fields| == 0 then ""
    else
      Quoted(fields[0].key) + ": " + Compact(fields[0].value) +
      (if |fields| == 1 then "" else ", " + CompactFields(fields[1..]))
  }

  function Spaces(n: nat): string {
    seq(n, _ => ' ')
  }

  /** `json.dumps(v, sort_keys=True, indent=2)` at nesting depth `depth`. */
  function Indented(v: Json, depth: nat): string
    decreases v, 0
  {
    match v
    case Arr(items) =>
      if |items| == 0 then "[]" else "[" + IndentedItems(items, depth + 1) + "\n" + Spaces(2 * depth) + "]"
    case Obj(fields) =>
      if |fields| == 0 then "{}" else "{" + IndentedFields(fields, depth + 1) + "\n" + Spaces(2 * depth) + "}"
    case _ => Scalar(v)
  }

  function IndentedItems(items: seq<Json>, depth: nat): string
    decreases items, 1
  {
    if |items| == 0 then ""
    else
      "\n" + Spaces(2 * depth) + Indented(items[0], depth) +
      (if |items| == 1 then "" else "," + IndentedItems(items[1..], depth))
  }

  function IndentedFields(fields: seq<Field>, depth: nat): string
    decreases fields, 1
  {
    if |fields| == 0 then ""
    else
      "\n" + Spaces(2 * depth) + Quoted(fields[0].key) + ": " + Indented(fields[0].value, depth) +
      (if |fields| == 1 then "" else "," + IndentedFields(fields[1..], depth))
  }

  // ---- Save ------------------------------------------------------------------------------------

  /** `steps` is the last field in key order; each step is an object. */
  datatype Trace = Trace(header: seq<Field>, steps: seq<seq<Field>>)

  function StepList(steps: seq<seq<Field>>): seq<Json> {
    seq(|steps|, i requires 0 <= i < |steps| => Obj(steps[i]))
  }

  function Document(t: Trace): Json {
    Obj(t.header + [Field("steps", Arr(StepList(t.steps)))])
  }

  function Unlines(lines: seq<string>): string {
    if |lines| == 0 then "" else Unlines(lines[..|lines| - 1]) + lines[|lines| - 1] + "\n"
  }

  function Lines(t: Trace): seq<string> {
    [Compact(Obj(t.header))] + seq(|t.steps|, i requires 0 <= i < |t.steps| => Compact(Obj(t.steps[i])))
  }

  function Saved(t: Trace, ndjson: bool): string {
    if ndjson then Unlines(Lines(t)) else Indented(Document(t), 0)
  }

  /** `Trace.save`. */
  method Save(t: Trace, ndjson: bool) returns (text: string)
    ensures text == Saved(t, ndjson)
  {
    if !ndjson {
      return Indented(Document(t), 0);
    }
    var lines := [Compact(Obj(t.header))];
    for i := 0 to |t.steps|
      invariant lines == Lines(t)[..i + 1]
    {
      lines := lines + [Compact(Obj(t.steps[i]))];
    }
    text := "";
    for i := 0 to |lines|
      invariant text == Unlines(lines[..i])
    {
      assert lines[..i + 1][..i] == lines[..i];
      text := text + lines[i] + "\n";
    }
    assert lines[..|lines|] == lines && lines == Lines(t);
  }

  // ---- Load ---------------------------------------------------------------------------------------

  predicate IsSpace(c: char) {
    var n := c as int;
    9 <= n <= 13 || 28 <= n <= 32 || n == 0x85 || n == 0xA0 || n == 0x1680 || 0x2000 <= n <= 0x200A ||
    n == 0x2028 || n == 0x2029 || n == 0x202F || n == 0x205F || n == 0x3000
  }

  function LStrip(s: string): string {
    if |s| > 0 && IsSpace(s[0]) then LStrip(s[1..]) else s
  }

  function RStrip(s: string): string {
    if |s| > 0 && IsSpace(s[|s| - 1]) then RStrip(s[..|s| - 1]) else s
  }

  predicate HasBreakBrace(s: string) {
    exists i :: 0 <= i < |s| - 1 && s[i] == '\n' && s[i + 1] == '{'
  }

  predicate IsNdjson(text: string) {
    var stripped := LStrip(text);
    |stripped| > 0 && stripped[0] == '{' && HasBreakBrace(RStrip(LStrip(text)))
  }

  predicate IsBreak(c: char) {
    var n := c as int;
    10 <= n <= 13 || 28 <= n <= 30 || n == 0x85 || n == 0x2028 || n == 0x2029
  }

  function LineEnd(s: string): (n: nat)
    ensures n <= |s|
  {
    if |s| == 0 || IsBreak(s[0]) then 0 else 1 + LineEnd(s[1..])
  }

  /** `str.splitlines()`; carriage return and newline together are one break. */
  function SplitLines(s: string): seq<string>
    decreases |s|
  {
    if |s| == 0 then []
    else
      var n := LineEnd(s);
      if n == |s| then [s]
      else
        var rest := if s[n] == '\r' && n + 1 < |s| && s[n + 1] == '\n' then n + 2 else n + 1;
        [s[..n]] + SplitLines(s[rest..])
  }

  function NonBlank(lines: seq<string>): seq<string> {
    if |lines| == 0 then []
    else
      var init, last := NonBlank(lines[..|lines| - 1]), lines[|lines| - 1];
      if LStrip(last) != "" then init + [last] else init
  }

  /** `model_validate`: `steps` may be missing; every other field is header. */
  function Validated(data: Json): Option<Trace> {
    if !data.Obj? then None
    else
      var n := |data.fields|;
      if n > 0 && data.fields[n - 1].key == "steps" then
        var steps := data.fields[n - 1].value;
        if steps.Arr? && forall i :: 0 <= i < |steps.items| ==> steps.items[i].Obj? then
          Some(Trace(data.fields[..n - 1],
                     seq(|steps.items|, i requires 0 <= i < |steps.items| && steps.items[i].Obj? =>
            steps.items[i].fields)))
        else None
      else Some(Trace(data.fields, []))
  }

  function LoadAll(lines: seq<string>, loads: string -> Option<Json>): Option<seq<Json>> {
    if |lines| == 0 then Some([])
    else
      var init, last := LoadAll(lines[..|lines| - 1], loads), loads(lines[|lines| - 1]);
      if init.Some? && last.Some? then Some(init.value + [last.value]) else None
  }

  /** `Trace.load`; `loads` is `json.loads`, `None` where it raises. */
  function Load(text: string, loads: string -> Option<Json>): Option<Trace> {
    if IsNdjson(text) then
      var lines := NonBlank(SplitLines(text));
      if |lines| == 0 then None
      else
        var header, steps := loads(lines[0]), LoadAll(lines[1..], loads);
        if header.Some? && header.value.Obj? && steps.Some? then
          Validated(Obj(header.value.fields + [Field("steps", Arr(steps.value))]))
        else None
    else
      var data := loads(text);
      if data.Some? then Validated(data.value) else None
  }

  // ---- Shapes of the printed text -----------------------------------------------------------------

  ghost predicate NumbersPlain(v: Json)
    decreases v
  {
    match v
    case Num(text) => Printable(text)
    case Arr(items) => forall i :: 0 <= i < |items| ==> NumbersPlain(items[i])
    case Obj(fields) => forall i :: 0 <= i < |fields| ==> NumbersPlain(fields[i].value)
    case _ => true
  }

  lemma {:induction false} CompactPrintable(v: Json)
    requires NumbersPlain(v)
    ensures Printable(Compact(v))
    decreases v, 0
  {
    match v
    case Arr(items) => CompactItemsPrintable(items);
    case Obj(fields) => CompactFieldsPrintable(fields);
    case _ =>
  }

  lemma {:induction false} CompactItemsPrintable(items: seq<Json>)
    requires forall i :: 0 <= i < |items| ==> NumbersPlain(items[i])
    ensures Printable(CompactItems(items))
    decreases items, 1
  {
    if |items| > 0 {
      CompactPrintable(items[0]);
      CompactItemsPrintable(items[1..]);
    }
  }

  lemma {:induction false} CompactFieldsPrintable(fields: seq<Field>)
    requires forall i :: 0 <= i < |fields| ==> NumbersPlain(fields[i].value)
    ensures Printable(CompactFields(fields))
    decreases fields, 1
  {
    if |fields| > 0 {
      CompactPrintable(fields[0].value);
      CompactFieldsPrintable(fields[1..]);
    }
  }

  /** A newline is never last and never followed by an opening brace. */
  ghost predicate Safe(s: string) {
    forall i :: 0 <= i < |s| && s[i] == '\n' ==> i + 1 < |s| && s[i + 1] != '{'
  }

  lemma SafeConcat(a: string, b: string)
    requires Safe(a) && Safe(b)
    ensures Safe(a + b)
  {
    forall i | 0 <= i < |a + b| && (a + b)[i] == '\n'
      ensures i + 1 < |a + b| && (a + b)[i + 1] != '{'
    {
      if i < |a| {
        assert a[i] == '\n';
      } else {
        assert b[i - |a|] == '\n';
      }
    }
  }

  lemma PrintableSafe(s: string)
    requires Printable(s)
    ensures Safe(s)
  {
    forall i | 0 <= i < |s|
      ensures s[i] != '\n'
    {
      assert PrintableChar(s[i]);
    }
  }

  /** A line of an indented document: the break, the indentation, then something printable. */
  lemma SafeLine(n: nat, rest: string)
    requires Safe(rest) && (n > 0 || (|rest| > 0 && rest[0] != '{'))
    ensures Safe("\n" + Spaces(n) + rest)
  {
    PrintableSafe(Spaces(n));
    SafeConcat(Spaces(n), rest);
    var s := Spaces(n) + rest;
    assert "\n" + Spaces(n) + rest == "\n" + s;
    forall i | 0 <= i < |"\n" + s| && ("\n" + s)[i] == '\n'
      ensures i + 1 < |"\n" + s| && ("\n" + s)[i + 1] != '{'
    {
      if i > 0 {
        assert s[i - 1] == '\n';
      } else {
        assert ("\n" + s)[1] == s[0];
      }
    }
  }

  /** THE INDENTED FORM NEVER LOOKS LIKE NDJSON. */
  lemma {:induction false} IndentedSafe(v: Json, depth: nat)
    requires NumbersPlain(v)
    ensures Safe(Indented(v, depth))
    decreases v, 0
  {
    match v
    case Arr(items) =>
      if |items| > 0 {
        IndentedItemsSafe(items, depth + 1);
        Wrapped("[", IndentedItems(items, depth + 1), 2 * depth, "]");
      }
    case Obj(fields) =>
      if |fields| > 0 {
        IndentedFieldsSafe(fields, depth + 1);
        Wrapped("{", IndentedFields(fields, depth + 1), 2 * depth, "}");
      }
    case _ => PrintableSafe(Scalar(v));
  }

  lemma Wrapped(opening: string, inner: string, n: nat, closing: string)
    requires Safe(inner) && Printable(opening) && Printable(closing) && |closing| == 1 && closing[0] != '{'
    ensures Safe(opening + inner + "\n" + Spaces(n) + closing)
  {
    PrintableSafe(opening);
    PrintableSafe(closing);
    SafeConcat(opening, inner);
    SafeLine(n, closing);
    SafeConcat(opening + inner, "\n" + Spaces(n) + closing);
    assert opening + inner + ("\n" + Spaces(n) + closing) == opening + inner + "\n" + Spaces(n) + closing;
  }

  lemma {:induction false} IndentedItemsSafe(items: seq<Json>, depth: nat)
    requires depth > 0 && forall i :: 0 <= i < |items| ==> NumbersPlain(items[i])
    ensures Safe(IndentedItems(items, depth))
    decreases items, 1
  {
    if |items| > 0 {
      IndentedSafe(items[0], depth);
      IndentedItemsSafe(items[1..], depth);
      SafeLine(2 * depth, Indented(items[0], depth));
      var tail := if |items| == 1 then "" else "," + IndentedItems(items[1..], depth);
      PrintableSafe(",");
      SafeConcat(",", IndentedItems(items[1..], depth));
      SafeConcat("\n" + Spaces(2 * depth) + Indented(items[0], depth), tail);
    }
  }

  lemma {:induction false} IndentedFieldsSafe(fields: seq<Field>, depth: nat)
    requires depth > 0 && forall i :: 0 <= i < |fields| ==> NumbersPlain(fields[i].value)
    ensures Safe(IndentedFields(fields, depth))
    decreases fields, 1
  {
    if |fields| > 0 {
      var f := fields[0];
      IndentedSafe(f.value, depth);
      IndentedFieldsSafe(fields[1..], depth);
      var line := Quoted(f.key) + ": ";
      PrintableSafe(line);
      SafeConcat(line, Indented(f.value, depth));
      SafeLine(2 * depth, line + Indented(f.value, depth));
      var first := "\n" + Spaces(2 * depth) + Quoted(f.key) + ": " + Indented(f.value, depth);
      assert first == "\n" + Spaces(2 * depth) + (line + Indented(f.value, depth));
      var tail := if |fields| == 1 then "" else "," + IndentedFields(fields[1..], depth);
      PrintableSafe(",");
      SafeConcat(",", IndentedFields(fields[1..], depth));
      SafeConcat(first, tail);
    }
  }

  // ---- The NDJSON form -----------------------------------------------------------------------------

  /** A printed object: printable, so without line breaks, and between braces. */
  ghost predicate ObjectLine(l: string) {
    Printable(l) && |l| >= 2 && l[0] == '{' && l[|l| - 1] == '}'
  }

  lemma CompactObject(fields: seq<Field>)
    requires NumbersPlain(Obj(fields))
    ensures ObjectLine(Compact(Obj(fields)))
  {
    CompactPrintable(Obj(fields));
  }

  lemma {:induction false} UnlinesConcat(a: seq<string>, b: seq<string>)
    ensures Unlines(a + b) == Unlines(a) + Unlines(b)
  {
    if |b| == 0 {
      assert a + b == a;
    } else {
      assert (a + b)[..|a + b| - 1] == a + b[..|b| - 1];
      UnlinesConcat(a, b[..|b| - 1]);
      assert Unlines(a + b) == Unlines(a) + Unlines(b[..|b| - 1]) + b[|b| - 1] + "\n";
      assert Unlines(b) == Unlines(b[..|b| - 1]) + b[|b| - 1] + "\n";
    }
  }

  lemma UnlinesFirst(lines: seq<string>)
    requires |lines| > 0
    ensures Unlines(lines) == lines[0] + "\n" + Unlines(lines[1..])
  {
    var one := lines[..1];
    assert lines == one + lines[1..];
    UnlinesConcat(one, lines[1..]);
    assert one[..0] == [];
    assert Unlines(one) == lines[0] + "\n";
  }

  lemma PrintableNoBreak(c: char)
    requires PrintableChar(c)
    ensures !IsBreak(c)
  {
  }

  lemma {:induction false} LineEndAtBreak(l: string, rest: string)
    requires Printable(l)
    ensures LineEnd(l + "\n" + rest) == |l|
  {
    var s := l + "\n" + rest;
    if |l| > 0 {
      PrintableNoBreak(l[0]);
      assert s[1..] == l[1..] + "\n" + rest;
      LineEndAtBreak(l[1..], rest);
    }
  }

  lemma {:induction false} SplitUnlines(lines: seq<string>)
    requires forall i :: 0 <= i < |lines| ==> ObjectLine(lines[i])
    ensures SplitLines(Unlines(lines)) == lines
  {
    if |lines| > 0 {
      var l, rest := lines[0], Unlines(lines[1..]);
      UnlinesFirst(lines);
      LineEndAtBreak(l, rest);
      SplitUnlines(lines[1..]);
      var s := l + "\n" + rest;
      assert s[..|l|] == l && s[|l|] == '\n' && s[|l| + 1..] == rest;
      assert lines == [l] + lines[1..];
    }
  }

  lemma {:induction false} NoneBlank(lines: seq<string>)
    requires forall i :: 0 <= i < |lines| ==> ObjectLine(lines[i])
    ensures NonBlank(lines) == lines
  {
    if |lines| > 0 {
      NoneBlank(lines[..|lines| - 1]);
    }
  }

  lemma NdjsonLines(t: Trace)
    requires NumbersPlain(Document(t))
    ensures forall i :: 0 <= i < |Lines(t)| ==> ObjectLine(Lines(t)[i])
    ensures NumbersPlain(Obj(t.header))
  {
    var fields := t.header + [Field("steps", Arr(StepList(t.steps)))];
    assert forall i :: 0 <= i < |t.header| ==> fields[i] == t.header[i];
    assert fields[|t.header|].value == Arr(StepList(t.steps));
    assert NumbersPlain(Arr(StepList(t.steps)));
    CompactObject(t.header);
    forall i | 0 <= i < |t.steps|
      ensures ObjectLine(Compact(Obj(t.steps[i])))
    {
      assert StepList(t.steps)[i] == Obj(t.steps[i]);
      CompactObject(t.steps[i]);
    }
  }

  /** Every text that ends in one break after a brace loses just that break. */
  lemma StripsBreak(body: string)
    requires |body| > 0 && body[|body| - 1] == '}'
    ensures RStrip(body + "\n") == body
  {
    var s := body + "\n";
    assert s[..|s| - 1] == body;
  }

  lemma {:induction false} UnlinesBody(lines: seq<string>)
    requires |lines| > 0 && forall i :: 0 <= i < |lines| ==> ObjectLine(lines[i])
    ensures RStrip(Unlines(lines)) == Unlines(lines[..|lines| - 1]) + lines[|lines| - 1]
    ensures Unlines(lines)[0] == '{' && LStrip(Unlines(lines)) == Unlines(lines)
  {
    var body := Unlines(lines[..|lines| - 1]) + lines[|lines| - 1];
    StripsBreak(body);
    UnlinesFirst(lines);
  }

  /** SNIFFING IS RIGHT. The line-by-line branch is taken exactly for the line form with a step. */
  lemma SniffIff(t: Trace, ndjson: bool)
    requires NumbersPlain(Document(t))
    ensures IsNdjson(Saved(t, ndjson)) <==> ndjson && |t.steps| > 0
  {
    if !ndjson {
      SniffJson(t);
    } else {
      NdjsonLines(t);
      var lines := Lines(t);
      UnlinesBody(lines);
      if |t.steps| > 0 {
        SecondLineFound(lines);
      } else {
        assert lines[..0] == [];
        PrintableSafe(lines[0]);
        SafeHasNone(lines[0]);
      }
    }
  }

  lemma SafeHasNone(s: string)
    requires Safe(s)
    ensures !HasBreakBrace(s)
  {
  }

  lemma SniffJson(t: Trace)
    requires NumbersPlain(Document(t))
    ensures !IsNdjson(Indented(Document(t), 0))
  {
    var text := Indented(Document(t), 0);
    var inner := IndentedFields(Document(t).fields, 1);
    assert text == "{" + inner + "\n" + Spaces(0) + "}";
    assert LStrip(text) == text && RStrip(text) == text;
    IndentedSafe(Document(t), 0);
    SafeHasNone(text);
  }

  lemma SecondLineFound(lines: seq<string>)
    requires |lines| >= 2 && forall i :: 0 <= i < |lines| ==> ObjectLine(lines[i])
    ensures HasBreakBrace(Unlines(lines[..|lines| - 1]) + lines[|lines| - 1])
  {
    var init, last := lines[..|lines| - 1], lines[|lines| - 1];
    var s := Unlines(init) + last;
    var n := |lines[0]|;
    UnlinesFirst(init);
    assert s[n] == '\n';
    if |init| == 1 {
      assert init[1..] == [];
      assert s[n + 1] == last[0];
    } else {
      UnlinesFirst(init[1..]);
      assert s[n + 1] == lines[1][0];
    }
  }

  // ---- Round trip -------------------------------------------------------------------------------------

  /** `loads` reads back what was printed for `v`, also with a final line break. */
  ghost predicate Inverts(loads: string -> Option<Json>, v: Json) {
    loads(Compact(v)) == Some(v) && loads(Compact(v) + "\n") == Some(v) && loads(Indented(v, 0)) == Some(v)
  }

  lemma {:induction false} StepsLoad(steps: seq<seq<Field>>, lines: seq<string>, loads: string -> Option<Json>)
    requires |lines| == |steps|
    requires forall i :: 0 <= i < |steps| ==> loads(lines[i]) == Some(Obj(steps[i]))
    ensures LoadAll(lines, loads) == Some(StepList(steps))
  {
    if |steps| > 0 {
      StepsLoad(steps[..|steps| - 1], lines[..|lines| - 1], loads);
      assert StepList(steps) == StepList(steps[..|steps| - 1]) + [Obj(steps[|steps| - 1])];
    }
  }

  lemma DocumentValidates(t: Trace)
    ensures Validated(Document(t)) == Some(t)
  {
    var fields := Document(t).fields;
    assert fields[..|fields| - 1] == t.header;
    var items := StepList(t.steps);
    assert seq(|items|, i requires 0 <= i < |items| && items[i].Obj? => items[i].fields) == t.steps;
  }

  /** SAVE THEN LOAD gives the trace back, from either form, with any number of steps. */
  lemma LoadSaved(t: Trace, ndjson: bool, loads: string -> Option<Json>)
    requires NumbersPlain(Document(t))
    requires forall i :: 0 <= i < |t.header| ==> t.header[i].key != "steps"
    requires Inverts(loads, Document(t)) && Inverts(loads, Obj(t.header))
    requires forall i :: 0 <= i < |t.steps| ==> Inverts(loads, Obj(t.steps[i]))
    ensures Load(Saved(t, ndjson), loads) == Some(t)
  {
    SniffIff(t, ndjson);
    DocumentValidates(t);
    if ndjson {
      NdjsonLines(t);
      var lines := Lines(t);
      if |t.steps| == 0 {
        assert lines[..0] == [];
        assert Unlines(lines) == lines[0] + "\n";
        assert t.steps == [];
      } else {
        SplitUnlines(lines);
        NoneBlank(lines);
        forall i | 0 <= i < |t.steps|
          ensures loads(lines[1..][i]) == Some(Obj(t.steps[i]))
        {
          assert lines[1..][i] == Compact(Obj(t.steps[i])) && Inverts(loads, Obj(t.steps[i]));
        }
        StepsLoad(t.steps, lines[1..], loads);
      }
    }
  }
}
