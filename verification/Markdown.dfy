/** Markdown output: escaped text and code spans, read back by the rules of CommonMark 0.31.2. */
module Markdown {
  import opened Base

  /** Whether the general category of a character is Cc or Cf. */
  type Controls = char -> bool

  // ---- code spans

  predicate HasControl(control: Controls, s: string) {
    exists i | 0 <= i < |s| :: control(s[i])
  }

  /** How many backticks stand at the front. */
  function Run(s: string): (n: nat)
    ensures n <= |s| && (forall i :: 0 <= i < n ==> s[i] == '`') && (n < |s| ==> s[n] != '`')
  {
    if s == "" || s[0] != '`' then 0 else 1 + Run(s[1..])
  }

  /** The longest run of backticks. */
  function LongestRun(s: string): nat
    decreases |s|
  {
    if s == "" then 0
    else if s[0] != '`' then LongestRun(s[1..])
    else
      var longest := LongestRun(s[Run(s)..]);
      if Run(s) > longest then Run(s) else longest
  }

  function Ticks(n: nat): (s: string)
    ensures |s| == n && forall i :: 0 <= i < n ==> s[i] == '`'
  {
    if n == 0 then "" else "`" + Ticks(n - 1)
  }

  predicate Ends(s: string, c: char) {
    s != "" && s[0] == c && s[|s| - 1] == c
  }

  predicate NeedsPadding(s: string) {
    s != "" && (s[0] == '`' || s[|s| - 1] == '`' || (Ends(s, ' ') && !Blank(s)))
  }

  function Padded(s: string): string {
    if NeedsPadding(s) then " " + s + " " else s
  }

  /** _code_span; None is an unsafe value. */
  function CodeSpan(control: Controls, s: string): Option<string> {
    if HasControl(control, s) then None
    else
      var delimiter := Ticks(LongestRun(s) + 1);
      Some(delimiter + Padded(s) + delimiter)
  }

  // ---- reading a code span: section 6.1

  /** Where the first backtick string of exactly n backticks begins. */
  function Close(s: string, n: nat): (k: Option<nat>)
    ensures k.Some? ==> k.value <= |s|
    decreases |s|
  {
    if s == "" then None
    else if s[0] != '`' then
      var k := Close(s[1..], n);
      if k.Some? then Some(k.value + 1) else None
    else if Run(s) == n then Some(0)
    else
      var k := Close(s[Run(s)..], n);
      if k.Some? then Some(k.value + Run(s)) else None
  }

  predicate AllSpaces(s: string) {
    forall i | 0 <= i < |s| :: s[i] == ' '
  }

  function LineEndsToSpaces(s: string): string {
    seq(|s|, i requires 0 <= i < |s| => if s[i] == '\n' || s[i] == '\r' then ' ' else s[i])
  }

  /** One space is stripped at both ends, unless the content is all spaces. */
  function Stripped(s: string): string {
    if Ends(s, ' ') && !AllSpaces(s) then s[1..|s| - 1] else s
  }

  /** The content of a code span that is the whole text. */
  function ReadCodeSpan(s: string): Option<string> {
    var n := Run(s);
    var k := Close(s[n..], n);
    if n > 0 && k.Some? && n + k.value + n == |s| then Some(Stripped(LineEndsToSpaces(s[n..n + k.value]))) else None
  }

  // ---- the delimiter

  lemma {:induction false} RunOfTicks(n: nat, s: string)
    requires s == "" || s[0] != '`'
    ensures Run(Ticks(n) + s) == n
  {
    if n == 0 {
      assert Ticks(n) + s == s;
    } else {
      assert Ticks(n) + s == "`" + (Ticks(n - 1) + s);
      RunOfTicks(n - 1, s);
    }
  }

  lemma {:induction false} RunStopsInside(c: string, s: string)
    requires c != "" && c[|c| - 1] != '`'
    ensures Run(c + s) == Run(c) < |c|
  {
    assert (c + s)[0] == c[0];
    if c[0] == '`' {
      assert (c + s)[1..] == c[1..] + s && c[1..][|c[1..]| - 1] == c[|c| - 1];
      RunStopsInside(c[1..], s);
    }
  }

  /** The closing delimiter is the first backtick string of its length. */
  lemma {:induction false} CloseIsDelimiter(c: string, n: nat)
    requires n > LongestRun(c) && (c == "" || c[|c| - 1] != '`')
    ensures Close(c + Ticks(n), n) == Some(|c|)
    decreases |c|
  {
    var s := c + Ticks(n);
    if c == "" {
      assert s == Ticks(n) + "";
      RunOfTicks(n, "");
    } else if c[0] != '`' {
      assert s[0] == c[0] && s[1..] == c[1..] + Ticks(n);
      assert |c| > 1 ==> c[1..][|c| - 2] == c[|c| - 1];
      CloseIsDelimiter(c[1..], n);
    } else {
      RunStopsInside(c, Ticks(n));
      var r := Run(c);
      assert s[0] == c[0] && s[r..] == c[r..] + Ticks(n) && c[r..][|c| - r - 1] == c[|c| - 1];
      CloseIsDelimiter(c[r..], n);
    }
  }

  lemma {:induction false} RunThenSpace(s: string)
    ensures Run(s + " ") == Run(s)
  {
    if s != "" {
      assert (s + " ")[0] == s[0] && (s + " ")[1..] == s[1..] + " ";
      RunThenSpace(s[1..]);
    }
  }

  lemma {:induction false} LongestThenSpace(s: string)
    ensures LongestRun(s + " ") == LongestRun(s)
    decreases |s|
  {
    var t := s + " ";
    if s == "" {
      assert t[1..] == "";
    } else if s[0] != '`' {
      assert t[1..] == s[1..] + " ";
      LongestThenSpace(s[1..]);
    } else {
      RunThenSpace(s);
      assert t[Run(s)..] == s[Run(s)..] + " ";
      LongestThenSpace(s[Run(s)..]);
    }
  }

  lemma PaddingKeepsRuns(s: string)
    ensures LongestRun(Padded(s)) == LongestRun(s)
  {
    if NeedsPadding(s) {
      LongestThenSpace(s);
      assert Padded(s) == " " + (s + " ") && Padded(s)[1..] == s + " ";
    }
  }

  /** The reader finds exactly the padded value between the delimiters. */
  lemma SpanContent(s: string)
    requires s != ""
    ensures var d := Ticks(LongestRun(s) + 1); var t := d + Padded(s) + d;
      ReadCodeSpan(t) == Some(Stripped(LineEndsToSpaces(Padded(s))))
  {
    hide LongestRun, Close, Stripped, LineEndsToSpaces;
    var n, c := LongestRun(s) + 1, Padded(s);
    var d := Ticks(n);
    var t := d + c + d;
    PaddingKeepsRuns(s);
    assert c[0] != '`' && c[|c| - 1] != '`';
    assert t == d + (c + d) && (c + d)[0] == c[0];
    RunOfTicks(n, c + d);
    assert t[n..] == c + d;
    CloseIsDelimiter(c, n);
    assert t[n..n + |c|] == c;
  }

  // ---- the value

  /** Between two spaces stands only white space, and not only spaces. */
  predicate Lost(s: string) {
    Ends(s, ' ') && Blank(s) && !AllSpaces(s)
  }

  lemma StrippedPadded(s: string)
    requires s != ""
    ensures Stripped(Padded(s)) == s <==> !Lost(s)
  {
    var c := Padded(s);
    if NeedsPadding(s) {
      assert c[1..|c| - 1] == s;
      NeedsPaddingIsNotSpaces(s);
    } else if Ends(s, ' ') && !AllSpaces(s) {
      assert |s[1..|s| - 1]| < |s|;
    }
  }

  lemma NeedsPaddingIsNotSpaces(s: string)
    requires NeedsPadding(s)
    ensures !AllSpaces(" " + s + " ") && !Lost(s)
  {
    var c := " " + s + " ";
    assert c[1] == s[0] && c[|s|] == s[|s| - 1];
    if s[0] != '`' && s[|s| - 1] != '`' {
      var i :| 0 <= i < |s| && !IsSpace(s[i]);
      assert c[i + 1] == s[i] != ' ';
    } else {
      assert !IsSpace('`');
    }
  }

  /** A code span reads back as its value, for every value without controls that is not empty and is not white
      space between two spaces other than spaces alone; and for no other. */
  lemma CodeSpanReadsBack(control: Controls, s: string)
    requires control('\n') && control('\r') && !HasControl(control, s)
    ensures CodeSpan(control, s).Some?
    ensures ReadCodeSpan(CodeSpan(control, s).value) == Some(s) <==> s != "" && !Lost(s)
  {
    hide Stripped, Lost, Close, LongestRun, Padded;
    if s == "" {
      EmptySpan(control);
    } else {
      SpanContent(s);
      PaddedHasNoLines(control, s);
      StrippedPadded(s);
    }
  }

  lemma PaddedHasNoLines(control: Controls, s: string)
    requires control('\n') && control('\r') && !HasControl(control, s)
    ensures LineEndsToSpaces(Padded(s)) == Padded(s)
  {
    forall i | 0 <= i < |Padded(s)|
      ensures Padded(s)[i] !in {'\n', '\r'}
    {
      if NeedsPadding(s) && 0 < i <= |s| {
        assert Padded(s)[i] == s[i - 1];
      }
    }
  }

  /** The span of the empty value is two backticks, which open a longer delimiter and close nothing. */
  lemma EmptySpan(control: Controls)
    ensures CodeSpan(control, "") == Some("``") && ReadCodeSpan("``") == None
  {
    assert Ticks(1) == "`" + Ticks(0);
    assert Ticks(1) + Padded("") + Ticks(1) == "``";
    assert "``"[1..] == "`" && "`"[1..] == "" && Run("`") == 1 && Run("``") == 2;
  }

  /** An em space between two spaces is a value that does not read back. */
  lemma EmSpaceIsLost()
    ensures Lost(" \U{2003} ")
  {
    var s := " \U{2003} ";
    assert s[1] == '\U{2003}' && s[0] == ' ' && s[2] == ' ';
  }

  // ---- escaped text

  /** _visible_control: what stands for a control character. */
  function VisibleChar(control: Controls, spell: char -> string, c: char): string {
    if control(c) then spell(c) else [c]
  }

  function Visible(control: Controls, spell: char -> string, s: string): string {
    if s == "" then "" else VisibleChar(control, spell, s[0]) + Visible(control, spell, s[1..])
  }

  /** html.escape with quote=False. */
  function HtmlChar(c: char): string {
    if c == '&' then "&amp;" else if c == '<' then "&lt;" else if c == '>' then "&gt;" else [c]
  }

  function HtmlEscape(s: string): string {
    if s == "" then "" else HtmlChar(s[0]) + HtmlEscape(s[1..])
  }

  predicate Marked(c: char) {
    c in {'\\', '`', '*', '_', '[', ']', '#', '>', '+', '-', '.', ')', '!', '(', '~', '|'}
  }

  function MarkChar(c: char): string {
    if Marked(c) then "\\" + [c] else [c]
  }

  function MarkAll(s: string): string {
    if s == "" then "" else MarkChar(s[0]) + MarkAll(s[1..])
  }

  function LeadingSpaces(s: string): (n: nat)
    ensures n <= |s| && (forall i :: 0 <= i < n ==> s[i] == ' ') && (n < |s| ==> s[n] != ' ')
  {
    if s == "" || s[0] != ' ' then 0 else 1 + LeadingSpaces(s[1..])
  }

  function TrailingSpaces(s: string): (n: nat)
    ensures n <= |s| && (forall i :: |s| - n <= i < |s| ==> s[i] == ' ')
  {
    if s == "" || s[|s| - 1] != ' ' then 0 else 1 + TrailingSpaces(s[..|s| - 1])
  }

  function SafeSpaces(n: nat): string {
    if n == 0 then "" else "&#32;" + SafeSpaces(n - 1)
  }

  /** _escape_markdown. */
  function EscapeMarkdown(control: Controls, spell: char -> string, s: string): string {
    var html := HtmlEscape(Visible(control, spell, s));
    var leading := LeadingSpaces(html);
    var remaining := html[leading..];
    var trailing := TrailingSpaces(remaining);
    SafeSpaces(leading) + MarkAll(remaining[..|remaining| - trailing]) + SafeSpaces(trailing)
  }

  // ---- reading escaped text: sections 2.4 and 2.5

  predicate AsciiPunctuation(c: char) {
    '!' <= c <= '/' || ':' <= c <= '@' || '[' <= c <= '`' || '{' <= c <= '~'
  }

  predicate StartsWith(s: string, prefix: string) {
    |prefix| <= |s| && forall i | 0 <= i < |prefix| :: s[i] == prefix[i]
  }

  datatype Reference = Reference(text: string, value: char)

  const REFERENCES := [
    Reference("&amp;", '&'), Reference("&lt;", '<'), Reference("&gt;", '>'), Reference("&#32;", ' ')]

  /** The character reference at the front, among the four that are printed. */
  function ReferenceAt(s: string): Option<Reference> {
    if StartsWith(s, "&amp;") then Some(REFERENCES[0])
    else if StartsWith(s, "&lt;") then Some(REFERENCES[1])
    else if StartsWith(s, "&gt;") then Some(REFERENCES[2])
    else if StartsWith(s, "&#32;") then Some(REFERENCES[3])
    else None
  }

  function Decode(s: string): string {
    if s == "" then ""
    else if s[0] == '\\' && |s| >= 2 && AsciiPunctuation(s[1]) then [s[1]] + Decode(s[2..])
    else
      match ReferenceAt(s)
      case Some(r) =>
        if 0 < |r.text| <= |s| then [r.value] + Decode(s[|r.text|..]) else ""
      case None => [s[0]] + Decode(s[1..])
  }

  // ---- one character at a time

  /** How a character of the visible text is printed away from the ends. */
  function Printed(c: char): string {
    if c in {'&', '<', '>'} then HtmlChar(c) else MarkChar(c)
  }

  function PrintAll(s: string): string {
    if s == "" then "" else Printed(s[0]) + PrintAll(s[1..])
  }

  lemma ReferenceIs(r: Reference, rest: string)
    requires r in REFERENCES
    ensures ReferenceAt(r.text + rest) == Some(r)
  {
    var s := r.text + rest;
    assert StartsWith(s, r.text);
    assert s[1] == r.text[1];
  }

  lemma NoReference(s: string)
    requires s != "" && s[0] != '&'
    ensures ReferenceAt(s) == None
  {
    assert "&amp;"[0] == '&' && "&lt;"[0] == '&' && "&gt;"[0] == '&' && "&#32;"[0] == '&';
  }

  lemma DecodeReference(r: Reference, rest: string)
    requires r in REFERENCES
    ensures Decode(r.text + rest) == [r.value] + Decode(rest)
  {
    hide ReferenceAt;
    ReferenceIs(r, rest);
    var s := r.text + rest;
    assert s[0] == '&' && s[|r.text|..] == rest;
  }

  lemma DecodePrinted(c: char, rest: string)
    ensures Decode(Printed(c) + rest) == [c] + Decode(rest)
  {
    hide ReferenceAt;
    var s := Printed(c) + rest;
    if c == '&' {
      DecodeReference(REFERENCES[0], rest);
    } else if c == '<' {
      DecodeReference(REFERENCES[1], rest);
    } else if c == '>' {
      DecodeReference(REFERENCES[2], rest);
    } else if Marked(c) {
      assert s[0] == '\\' && s[1] == c && s[2..] == rest;
    } else {
      assert s[0] == c && s[1..] == rest;
      NoReference(s);
    }
  }

  lemma {:induction false} DecodePrintAll(v: string, rest: string)
    ensures Decode(PrintAll(v) + rest) == v + Decode(rest)
  {
    hide Printed, Decode;
    if v == "" {
      assert PrintAll(v) + rest == rest && v + Decode(rest) == Decode(rest);
    } else {
      assert PrintAll(v) + rest == Printed(v[0]) + (PrintAll(v[1..]) + rest);
      DecodePrinted(v[0], PrintAll(v[1..]) + rest);
      DecodePrintAll(v[1..], rest);
      assert v + Decode(rest) == [v[0]] + (v[1..] + Decode(rest));
    }
  }

  lemma {:induction false} DecodeSpaces(n: nat, rest: string)
    ensures Decode(SafeSpaces(n) + rest) == Spaces(n) + Decode(rest)
  {
    hide Decode;
    if n == 0 {
      assert SafeSpaces(n) + rest == rest && Spaces(n) + Decode(rest) == Decode(rest);
    } else {
      assert SafeSpaces(n) + rest == "&#32;" + (SafeSpaces(n - 1) + rest);
      DecodeReference(REFERENCES[3], SafeSpaces(n - 1) + rest);
      DecodeSpaces(n - 1, rest);
      assert Spaces(n) + Decode(rest) == " " + (Spaces(n - 1) + Decode(rest));
    }
  }

  function Spaces(n: nat): (s: string)
    ensures |s| == n && forall i :: 0 <= i < n ==> s[i] == ' '
  {
    if n == 0 then "" else " " + Spaces(n - 1)
  }

  // ---- the code's order of steps gives the same text

  lemma {:induction false} HtmlConcat(x: string, y: string)
    ensures HtmlEscape(x + y) == HtmlEscape(x) + HtmlEscape(y)
  {
    hide HtmlChar;
    if x == "" {
      assert x + y == y;
    } else {
      assert (x + y)[1..] == x[1..] + y;
      HtmlConcat(x[1..], y);
      assert HtmlChar(x[0]) + (HtmlEscape(x[1..]) + HtmlEscape(y)) == HtmlChar(x[0]) + HtmlEscape(x[1..]) + HtmlEscape(y);
    }
  }

  lemma {:induction false} HtmlSpaces(n: nat)
    ensures HtmlEscape(Spaces(n)) == Spaces(n)
  {
    if n > 0 {
      HtmlSpaces(n - 1);
      assert Spaces(n)[1..] == Spaces(n - 1);
    }
  }

  lemma {:induction false} AreSpaces(s: string)
    requires AllSpaces(s)
    ensures s == Spaces(|s|)
  {
  }

  /** Text with no space at either end. */
  predicate Trimmed(m: string) {
    m != "" ==> m[0] != ' ' && m[|m| - 1] != ' '
  }

  lemma {:induction false} HtmlLast(m: string)
    requires m != ""
    ensures HtmlEscape(m) != ""
    ensures m[|m| - 1] != ' ' ==> HtmlEscape(m)[|HtmlEscape(m)| - 1] != ' '
  {
    var t := HtmlEscape(m[1..]);
    assert HtmlEscape(m) == HtmlChar(m[0]) + t;
    if |m| == 1 {
      assert m[1..] == "";
    } else {
      HtmlLast(m[1..]);
      assert m[1..][|m| - 2] == m[|m| - 1];
      assert HtmlEscape(m)[|HtmlEscape(m)| - 1] == t[|t| - 1];
    }
  }

  lemma HtmlTrimmed(m: string)
    requires m != ""
    ensures HtmlEscape(m) != ""
    ensures m[0] != ' ' ==> HtmlEscape(m)[0] != ' '
    ensures m[|m| - 1] != ' ' ==> HtmlEscape(m)[|HtmlEscape(m)| - 1] != ' '
  {
    HtmlLast(m);
    assert HtmlEscape(m)[0] == HtmlChar(m[0])[0];
  }

  lemma Assoc(x: string, y: string, z: string)
    ensures x + y + z == x + (y + z)
  {
  }

  lemma {:induction false} LeadingAre(a: nat, t: string)
    requires t == "" || t[0] != ' '
    ensures LeadingSpaces(Spaces(a) + t) == a && (Spaces(a) + t)[a..] == t
  {
    if a == 0 {
      assert Spaces(a) + t == t;
    } else {
      assert Spaces(a) + t == " " + (Spaces(a - 1) + t);
      LeadingAre(a - 1, t);
    }
  }

  /** Counting spaces in the escaped text is counting them in the visible text. */
  lemma SpacesAround(a: nat, m: string, b: nat)
    requires Trimmed(m) && (m == "" ==> b == 0)
    ensures var s := Spaces(a) + m + Spaces(b);
      LeadingSpaces(s) == a && s[a..] == m + Spaces(b)
      && TrailingSpaces(s[a..]) == b && s[a..][..|s[a..]| - b] == m
  {
    hide LeadingSpaces, TrailingSpaces, Spaces;
    Assoc(Spaces(a), m, Spaces(b));
    LeadingAre(a, m + Spaces(b));
    TrailingAre(m, b);
  }

  lemma {:induction false} TrailingAre(m: string, b: nat)
    requires m != "" ==> m[|m| - 1] != ' '
    requires m == "" ==> b == 0
    ensures TrailingSpaces(m + Spaces(b)) == b
  {
    var s := m + Spaces(b);
    if b > 0 {
      assert s[|s| - 1] == ' ' && s[..|s| - 1] == m + Spaces(b - 1) by {
        AreSpaces(Spaces(b)[..b - 1]);
      }
      TrailingAre(m, b - 1);
    } else {
      assert s == m;
    }
  }

  lemma MarkHtmlChar(c: char, rest: string)
    ensures MarkAll(HtmlChar(c) + rest) == Printed(c) + MarkAll(rest)
  {
    if c == '&' {
      MarkWord("&amp;", rest);
    } else if c == '<' {
      MarkWord("&lt;", rest);
    } else if c == '>' {
      MarkWord("&gt;", rest);
    } else {
      assert ([c] + rest)[1..] == rest;
    }
  }

  lemma {:induction false} MarkWord(w: string, rest: string)
    requires forall i :: 0 <= i < |w| ==> !Marked(w[i])
    ensures MarkAll(w + rest) == w + MarkAll(rest)
  {
    if w == "" {
      assert w + rest == rest && w + MarkAll(rest) == MarkAll(rest);
    } else {
      assert (w + rest)[1..] == w[1..] + rest;
      MarkWord(w[1..], rest);
      assert [w[0]] + (w[1..] + MarkAll(rest)) == w + MarkAll(rest);
    }
  }

  lemma {:induction false} MarkHtml(m: string)
    ensures MarkAll(HtmlEscape(m)) == PrintAll(m)
  {
    hide HtmlChar, MarkChar, Printed;
    if m == "" {
    } else {
      MarkHtmlChar(m[0], HtmlEscape(m[1..]));
      MarkHtml(m[1..]);
    }
  }

  /** The visible text as spaces, trimmed text and spaces. */
  lemma SplitSpaces(v: string) returns (a: nat, m: string, b: nat)
    ensures v == Spaces(a) + m + Spaces(b) && Trimmed(m) && (m == "" ==> b == 0)
  {
    hide LeadingSpaces, TrailingSpaces, Spaces;
    a := LeadingSpaces(v);
    var rest := v[a..];
    b := TrailingSpaces(rest);
    m := rest[..|rest| - b];
    var tail := rest[|rest| - b..];
    AreSpaces(v[..a]);
    AreSpaces(tail);
    assert v == v[..a] + rest && rest == m + tail;
    Assoc(v[..a], m, tail);
    assert rest != "" ==> rest[0] == v[a];
    TrailingStops(rest);
  }

  lemma {:induction false} TrailingStops(s: string)
    ensures var n := TrailingSpaces(s); n < |s| ==> s[|s| - n - 1] != ' '
  {
    if s != "" && s[|s| - 1] == ' ' {
      TrailingStops(s[..|s| - 1]);
    }
  }

  /** The escaped text, piece by piece. */
  lemma EscapedIs(control: Controls, spell: char -> string, s: string, a: nat, m: string, b: nat)
    requires Visible(control, spell, s) == Spaces(a) + m + Spaces(b) && Trimmed(m) && (m == "" ==> b == 0)
    ensures EscapeMarkdown(control, spell, s) == SafeSpaces(a) + PrintAll(m) + SafeSpaces(b)
  {
    hide Visible, HtmlEscape, MarkAll, PrintAll, LeadingSpaces, TrailingSpaces, SafeSpaces, Spaces;
    HtmlConcat(Spaces(a) + m, Spaces(b));
    HtmlConcat(Spaces(a), m);
    HtmlSpaces(a);
    HtmlSpaces(b);
    if m == "" {
      EmptyTexts();
    } else {
      HtmlTrimmed(m);
    }
    SpacesAround(a, HtmlEscape(m), b);
    MarkHtml(m);
  }

  /** Reading escaped text back gives the visible text: the value, with its control characters spelled out. */
  lemma EscapedTextReadsBack(control: Controls, spell: char -> string, s: string)
    ensures Decode(EscapeMarkdown(control, spell, s)) == Visible(control, spell, s)
  {
    hide Decode, Visible, EscapeMarkdown, PrintAll, SafeSpaces, Spaces;
    var a, m, b := SplitSpaces(Visible(control, spell, s));
    EscapedIs(control, spell, s, a, m, b);
    DecodeSpaces(a, PrintAll(m) + SafeSpaces(b));
    DecodePrintAll(m, SafeSpaces(b));
    DecodeLastSpaces(b);
    Assoc(SafeSpaces(a), PrintAll(m), SafeSpaces(b));
    Assoc(Spaces(a), m, Spaces(b));
  }

  lemma DecodeLastSpaces(b: nat)
    ensures Decode(SafeSpaces(b)) == Spaces(b)
  {
    hide SafeSpaces, Spaces;
    DecodeSpaces(b, "");
    assert SafeSpaces(b) + "" == SafeSpaces(b) && Spaces(b) + "" == Spaces(b);
    EmptyTexts();
  }

  lemma EmptyTexts()
    ensures HtmlEscape("") == "" && Decode("") == ""
  {
  }

  // ---- nothing in the text is markup

  /** What Markdown could read as markup. */
  const MARKUP := {'\\', '`', '*', '_', '[', ']', '(', ')', '<', '>', '#', '+', '-', '.', '!', '~', '|', '&'}

  /** Each of these stands only behind a backslash, or is the ampersand of a reference. */
  predicate NoMarkup(s: string) {
    if s == "" then true
    else if s[0] == '\\' then |s| >= 2 && s[1] in MARKUP && NoMarkup(s[2..])
    else if ReferenceAt(s).Some? then
      var r := ReferenceAt(s).value;
      0 < |r.text| <= |s| && NoMarkup(s[|r.text|..])
    else s[0] !in MARKUP && NoMarkup(s[1..])
  }

  lemma ReferenceIsNoMarkup(r: Reference, rest: string)
    requires r in REFERENCES && NoMarkup(rest)
    ensures NoMarkup(r.text + rest) && r.text[0] == '&' && r.text[|r.text| - 1] == ';'
  {
    hide ReferenceAt;
    ReferenceIs(r, rest);
    var s := r.text + rest;
    assert s[0] == '&' && s[|r.text|..] == rest;
  }

  lemma PrintedIsNoMarkup(c: char, rest: string)
    requires NoMarkup(rest)
    ensures NoMarkup(Printed(c) + rest)
  {
    hide ReferenceAt;
    var s := Printed(c) + rest;
    if c == '&' {
      ReferenceIsNoMarkup(REFERENCES[0], rest);
    } else if c == '<' {
      ReferenceIsNoMarkup(REFERENCES[1], rest);
    } else if c == '>' {
      ReferenceIsNoMarkup(REFERENCES[2], rest);
    } else if Marked(c) {
      assert s[0] == '\\' && s[1] == c && s[2..] == rest;
    } else {
      assert s[0] == c && s[1..] == rest;
      NoReference(s);
    }
  }

  lemma {:induction false} PrintAllIsNoMarkup(v: string, rest: string)
    requires NoMarkup(rest)
    ensures NoMarkup(PrintAll(v) + rest)
  {
    hide Printed, NoMarkup;
    if v == "" {
      assert PrintAll(v) + rest == rest;
    } else {
      assert PrintAll(v) + rest == Printed(v[0]) + (PrintAll(v[1..]) + rest);
      PrintAllIsNoMarkup(v[1..], rest);
      PrintedIsNoMarkup(v[0], PrintAll(v[1..]) + rest);
    }
  }

  lemma {:induction false} SpacesAreNoMarkup(n: nat, rest: string)
    requires NoMarkup(rest)
    ensures NoMarkup(SafeSpaces(n) + rest)
  {
    hide NoMarkup;
    if n == 0 {
      assert SafeSpaces(n) + rest == rest;
    } else {
      assert SafeSpaces(n) + rest == "&#32;" + (SafeSpaces(n - 1) + rest);
      SpacesAreNoMarkup(n - 1, rest);
      ReferenceIsNoMarkup(REFERENCES[3], SafeSpaces(n - 1) + rest);
    }
  }

  /** In escaped text nothing is left that Markdown could read as markup, and no space stands at either end. */
  lemma EscapedTextIsNoMarkup(control: Controls, spell: char -> string, s: string)
    ensures var t := EscapeMarkdown(control, spell, s);
      NoMarkup(t) && (t != "" ==> t[0] != ' ' && t[|t| - 1] != ' ')
  {
    hide Visible, EscapeMarkdown, PrintAll, SafeSpaces, Spaces, NoMarkup;
    var a, m, b := SplitSpaces(Visible(control, spell, s));
    EscapedIs(control, spell, s, a, m, b);
    assert NoMarkup("") by { EmptyIsNoMarkup(); }
    SpacesAreNoMarkup(b, "");
    assert SafeSpaces(b) + "" == SafeSpaces(b);
    PrintAllIsNoMarkup(m, SafeSpaces(b));
    SpacesAreNoMarkup(a, PrintAll(m) + SafeSpaces(b));
    Assoc(SafeSpaces(a), PrintAll(m), SafeSpaces(b));
    SafeSpacesEnds(a);
    SafeSpacesEnds(b);
    PrintAllEnds(m);
  }

  lemma EmptyIsNoMarkup()
    ensures NoMarkup("")
  {
  }

  lemma {:induction false} SafeSpacesEnds(n: nat)
    ensures n > 0 ==> SafeSpaces(n) != "" && SafeSpaces(n)[0] == '&' && SafeSpaces(n)[|SafeSpaces(n)| - 1] == ';'
    ensures n == 0 ==> SafeSpaces(n) == ""
  {
    if n > 1 {
      SafeSpacesEnds(n - 1);
      assert SafeSpaces(n) == "&#32;" + SafeSpaces(n - 1);
    } else if n == 1 {
      assert SafeSpaces(1) == "&#32;" + SafeSpaces(0) == "&#32;";
    }
  }

  lemma {:induction false} PrintAllEnds(m: string)
    requires Trimmed(m)
    ensures m == "" <==> PrintAll(m) == ""
    ensures m != "" ==> PrintAll(m)[0] != ' ' && PrintAll(m)[|PrintAll(m)| - 1] != ' '
  {
    if m != "" {
      assert PrintAll(m) == Printed(m[0]) + PrintAll(m[1..]);
      PrintAllLast(m);
    }
  }

  lemma {:induction false} PrintAllLast(m: string)
    requires m != "" && m[|m| - 1] != ' '
    ensures PrintAll(m) != "" && PrintAll(m)[|PrintAll(m)| - 1] != ' '
  {
    if |m| == 1 {
      assert PrintAll(m) == Printed(m[0]) + PrintAll(m[1..]) == Printed(m[0]);
    } else {
      assert m[1..][|m| - 2] == m[|m| - 1];
      PrintAllLast(m[1..]);
      assert PrintAll(m) == Printed(m[0]) + PrintAll(m[1..]);
    }
  }
}
