/** json.dumps with ensure_ascii=False, sorted keys and no spaces: equal text means equal values. */
module CanonicalJson {
  import opened Base

  /** Fields are listed in the order they are printed, which sort_keys makes the order of their keys. */
  datatype Json = Null | Int(n: int) | Str(s: string) | List(items: seq<Json>) | Obj(fields: seq<Field>)

  datatype Field = Field(key: string, value: Json)

  // ---- numbers

  function Digit(d: nat): char
    requires d < 10
  {
    '0' + d as char
  }

  function NatText(n: nat): (s: string)
    ensures s != "" && forall i :: 0 <= i < |s| ==> '0' <= s[i] <= '9'
  {
    if n < 10 then [Digit(n)] else NatText(n / 10) + [Digit(n % 10)]
  }

  function IntText(n: int): (s: string)
    ensures s != "" && (if n < 0 then s[0] == '-' else '0' <= s[0] <= '9')
  {
    if n < 0 then "-" + NatText(-n) else NatText(n)
  }

  lemma {:induction false} NatTextInjective(m: nat, n: nat)
    requires NatText(m) == NatText(n)
    ensures m == n
  {
    if m >= 10 && n >= 10 {
      var s, t := NatText(m / 10), NatText(n / 10);
      assert NatText(m)[..|s|] == s && NatText(n)[..|t|] == t && |s| == |t|;
      NatTextInjective(m / 10, n / 10);
      assert NatText(m)[|s|] == Digit(m % 10) && NatText(n)[|t|] == Digit(n % 10);
    }
  }

  // ---- strings

  function HexDigit(d: nat): char
    requires d < 16
  {
    if d < 10 then '0' + d as char else 'a' + (d - 10) as char
  }

  /** Section 7 of RFC 8259, as json.dumps applies it: the short escapes, \u00xx for the other controls, and
      everything else as it is. */
  function Escape(c: char): (s: string)
    ensures s != ""
  {
    if c == '"' then "\\\""
    else if c == '\\' then "\\\\"
    else if c == '\n' then "\\n"
    else if c == '\r' then "\\r"
    else if c == '\t' then "\\t"
    else if c == '\U{0C}' then "\\f"
    else if c == '\U{08}' then "\\b"
    else if c < ' ' then "\\u00" + [HexDigit(c as nat / 16), HexDigit(c as nat % 16)]
    else [c]
  }

  /** The escaped text of a string, its closing quote, and what follows. */
  function Body(s: string, rest: string): (t: string)
    ensures t != ""
  {
    if s == "" then "\"" + rest else Escape(s[0]) + Body(s[1..], rest)
  }

  lemma HexDigitInjective(d: nat, e: nat)
    requires d < 16 && e < 16 && HexDigit(d) == HexDigit(e)
    ensures d == e
  {
  }

  /** Escapes are a prefix code in which no word starts with a quote. */
  lemma EscapeIsPrefixCode(c: char, d: char, x: string, y: string)
    requires Escape(c) + x == Escape(d) + y
    ensures c == d && x == y
  {
    var s, t := Escape(c) + x, Escape(d) + y;
    assert s[0] == Escape(c)[0] && t[0] == Escape(d)[0];
    if s[0] == '\\' {
      assert s[1] == Escape(c)[1] && t[1] == Escape(d)[1];
      if s[1] == 'u' {
        assert s[4] == Escape(c)[4] && t[4] == Escape(d)[4] && s[5] == Escape(c)[5] && t[5] == Escape(d)[5];
        HexDigitInjective(c as nat / 16, d as nat / 16);
        HexDigitInjective(c as nat % 16, d as nat % 16);
      }
    }
    assert c == d;
    assert s[|Escape(c)|..] == x && t[|Escape(d)|..] == y;
  }

  lemma {:induction false} TextUnambiguous(s: string, t: string, x: string, y: string)
    requires Body(s, x) == Body(t, y)
    ensures s == t && x == y
  {
    if s == "" || t == "" {
      BodyStarts(s, x);
      BodyStarts(t, y);
      assert Body(s, x)[1..] == x && Body(t, y)[1..] == y;
    } else {
      EscapeIsPrefixCode(s[0], t[0], Body(s[1..], x), Body(t[1..], y));
      TextUnambiguous(s[1..], t[1..], x, y);
      assert s == [s[0]] + s[1..] && t == [t[0]] + t[1..];
    }
  }

  lemma BodyStarts(s: string, rest: string)
    ensures Body(s, rest)[0] == '"' <==> s == ""
  {
    if s != "" {
      assert Body(s, rest)[0] == Escape(s[0])[0];
    }
  }

  // ---- values

  function Size(j: Json): nat {
    match j
    case List(items) => 1 + ItemsSize(items)
    case Obj(fields) => 1 + FieldsSize(fields)
    case _ => 1
  }

  function ItemsSize(items: seq<Json>): nat {
    if items == [] then 0 else 1 + Size(items[0]) + ItemsSize(items[1..])
  }

  function FieldsSize(fields: seq<Field>): nat {
    if fields == [] then 0 else 1 + Size(fields[0].value) + FieldsSize(fields[1..])
  }

  /** The text of a value and what follows it. */
  function Print(j: Json, rest: string): (s: string)
    ensures s != ""
    decreases Size(j)
  {
    match j
    case Null => "null" + rest
    case Int(n) => IntText(n) + rest
    case Str(s) => "\"" + Body(s, rest)
    case List(items) => "[" + PrintItems(items, true, rest)
    case Obj(fields) => "{" + PrintFields(fields, true, rest)
  }

  function PrintItems(items: seq<Json>, first: bool, rest: string): (s: string)
    ensures s != ""
    decreases ItemsSize(items)
  {
    if items == [] then "]" + rest
    else
      var text := Print(items[0], PrintItems(items[1..], false, rest));
      if first then text else "," + text
  }

  function PrintFields(fields: seq<Field>, first: bool, rest: string): (s: string)
    ensures s != ""
    decreases FieldsSize(fields)
  {
    if fields == [] then "}" + rest
    else
      var text := Body(fields[0].key, ":" + Print(fields[0].value, PrintFields(fields[1..], false, rest)));
      if first then "\"" + text else ",\"" + text
  }

  function Render(j: Json): string {
    Print(j, "")
  }

  // ---- numbers end where the digits end

  function DigitRun(s: string): nat {
    if s == "" || !('0' <= s[0] <= '9') then 0 else 1 + DigitRun(s[1..])
  }

  predicate Delimited(x: string) {
    x == "" || !('0' <= x[0] <= '9')
  }

  lemma {:induction false} DigitRunIs(s: string, x: string)
    requires (forall i :: 0 <= i < |s| ==> '0' <= s[i] <= '9') && Delimited(x)
    ensures DigitRun(s + x) == |s|
  {
    if s == "" {
      assert s + x == x;
    } else {
      assert (s + x)[1..] == s[1..] + x;
      DigitRunIs(s[1..], x);
    }
  }

  lemma NumberUnambiguous(m: nat, n: nat, x: string, y: string)
    requires NatText(m) + x == NatText(n) + y && Delimited(x) && Delimited(y)
    ensures m == n && x == y
  {
    hide NatText;
    var s, t := NatText(m), NatText(n);
    DigitRunIs(s, x);
    DigitRunIs(t, y);
    assert (s + x)[..|s|] == s && (t + y)[..|t|] == t;
    assert (s + x)[|s|..] == x && (t + y)[|t|..] == y;
    NatTextInjective(m, n);
  }

  lemma IntUnambiguous(m: int, n: int, x: string, y: string)
    requires IntText(m) + x == IntText(n) + y && Delimited(x) && Delimited(y)
    ensures m == n && x == y
  {
    hide NatText, Delimited, IntText;
    assert (IntText(m) + x)[0] == IntText(m)[0] && (IntText(n) + y)[0] == IntText(n)[0];
    IntTail(m, x);
    IntTail(n, y);
    if m < 0 {
      NumberUnambiguous(-m, -n, x, y);
    } else {
      NumberUnambiguous(m, n, x, y);
    }
  }

  lemma IntTail(m: int, x: string)
    ensures if m < 0 then (IntText(m) + x)[1..] == NatText(-m) + x else IntText(m) + x == NatText(m) + x
  {
    hide NatText;
    if m < 0 {
      assert IntText(m)[1..] == NatText(-m);
    }
  }

  // ---- values end where they end

  datatype Shape = Nothing | Numeric | Textual | Bracket | Brace

  function ShapeOf(c: char): Shape {
    if c == '"' then Textual else if c == '[' then Bracket else if c == '{' then Brace
    else if c == '-' || '0' <= c <= '9' then Numeric else Nothing
  }

  lemma PrintStarts(j: Json, rest: string)
    ensures Print(j, rest)[0] !in {',', ']', '}'}
    ensures ShapeOf(Print(j, rest)[0]) ==
              match j
              case Null => Nothing
              case Int(_) => Numeric
              case Str(_) => Textual
              case List(_) => Bracket
              case Obj(_) => Brace
  {
    if j.Int? {
      assert Print(j, rest)[0] == IntText(j.n)[0];
    }
  }

  /** A printed value can be told apart from whatever follows it. */
  lemma {:induction false} Unambiguous(a: Json, b: Json, x: string, y: string)
    requires Print(a, x) == Print(b, y) && Delimited(x) && Delimited(y)
    ensures a == b && x == y
    decreases Size(a), 1
  {
    hide IntText, Body, PrintItems, PrintFields, Delimited;
    PrintStarts(a, x);
    PrintStarts(b, y);
    var s, t := Print(a, x), Print(b, y);
    match a
    case Null =>
      assert s[4..] == x && t[4..] == y;
    case Int(m) => IntUnambiguous(m, b.n, x, y);
    case Str(u) =>
      assert s[1..] == Body(u, x) && t[1..] == Body(b.s, y);
      TextUnambiguous(u, b.s, x, y);
    case List(items) =>
      assert s[1..] == PrintItems(items, true, x) && t[1..] == PrintItems(b.items, true, y);
      ItemsUnambiguous(items, b.items, true, x, y);
    case Obj(fields) =>
      assert s[1..] == PrintFields(fields, true, x) && t[1..] == PrintFields(b.fields, true, y);
      FieldsUnambiguous(fields, b.fields, true, x, y);
  }

  lemma ItemsStart(items: seq<Json>, first: bool, rest: string)
    ensures var c := PrintItems(items, first, rest)[0];
      && (c == ']' <==> items == []) && (items != [] && !first ==> c == ',')
      && (!first ==> Delimited(PrintItems(items, first, rest)))
  {
    if items != [] {
      PrintStarts(items[0], PrintItems(items[1..], false, rest));
    }
  }

  lemma FieldsStart(fields: seq<Field>, first: bool, rest: string)
    ensures var c := PrintFields(fields, first, rest)[0];
      (c == '}' <==> fields == []) && Delimited(PrintFields(fields, first, rest))
  {
  }

  lemma {:induction false} ItemsUnambiguous(a: seq<Json>, b: seq<Json>, first: bool, x: string, y: string)
    requires PrintItems(a, first, x) == PrintItems(b, first, y)
    ensures a == b && x == y
    decreases ItemsSize(a), 0
  {
    hide Print, Delimited;
    ItemsStart(a, first, x);
    ItemsStart(b, first, y);
    var s, t := PrintItems(a, first, x), PrintItems(b, first, y);
    if a == [] {
      assert s[1..] == x && t[1..] == y;
    } else {
      var u, v := PrintItems(a[1..], false, x), PrintItems(b[1..], false, y);
      var k := if first then 0 else 1;
      assert s[k..] == Print(a[0], u) && t[k..] == Print(b[0], v);
      ItemsStart(a[1..], false, x);
      ItemsStart(b[1..], false, y);
      Unambiguous(a[0], b[0], u, v);
      ItemsUnambiguous(a[1..], b[1..], false, x, y);
      assert a == [a[0]] + a[1..] && b == [b[0]] + b[1..];
    }
  }

  lemma {:induction false} FieldsUnambiguous(a: seq<Field>, b: seq<Field>, first: bool, x: string, y: string)
    requires PrintFields(a, first, x) == PrintFields(b, first, y)
    ensures a == b && x == y
    decreases FieldsSize(a), 0
  {
    hide Print, Delimited, Body;
    FieldsStart(a, first, x);
    FieldsStart(b, first, y);
    var s, t := PrintFields(a, first, x), PrintFields(b, first, y);
    if a == [] {
      assert s[1..] == x && t[1..] == y;
    } else {
      var u, v := PrintFields(a[1..], false, x), PrintFields(b[1..], false, y);
      var p, q := ":" + Print(a[0].value, u), ":" + Print(b[0].value, v);
      var k := if first then 1 else 2;
      assert s[k..] == Body(a[0].key, p) && t[k..] == Body(b[0].key, q);
      TextUnambiguous(a[0].key, b[0].key, p, q);
      assert p[1..] == Print(a[0].value, u) && q[1..] == Print(b[0].value, v);
      FieldsStart(a[1..], false, x);
      FieldsStart(b[1..], false, y);
      Unambiguous(a[0].value, b[0].value, u, v);
      FieldsUnambiguous(a[1..], b[1..], false, x, y);
      assert a == [a[0]] + a[1..] && b == [b[0]] + b[1..];
    }
  }

  /** The printer is injective. */
  lemma RenderInjective(a: Json, b: Json)
    requires Render(a) == Render(b)
    ensures a == b
  {
    Unambiguous(a, b, "", "");
  }
}
