/** A JSON reader by the grammar of RFC 8259, and the canonical texts it reads back. */
module JsonReader {
  import opened Base
  import opened CanonicalJson

  datatype Read<+T> = Got(value: T, rest: string) | Bad

  // ---- numbers, section 6

  /** The digits at the front continue a number. */
  function ReadDigits(s: string, n: nat): Read<nat> {
    if s == "" || !('0' <= s[0] <= '9') then Got(n, s) else ReadDigits(s[1..], 10 * n + (s[0] as nat - '0' as nat))
  }

  function ReadInt(s: string): (r: Read<int>)
    ensures r.Got? ==> |r.rest| < |s|
  {
    if s == "" then Bad
    else if s[0] == '-' then
      if |s| > 1 && '0' <= s[1] <= '9' then
        DigitsEnd(s[2..], s[1] as nat - '0' as nat);
        var r := ReadDigits(s[2..], s[1] as nat - '0' as nat);
        var n: int := r.value;
        Got(-n, r.rest)
      else Bad
    else if '0' <= s[0] <= '9' then
      DigitsEnd(s[1..], s[0] as nat - '0' as nat);
      var r := ReadDigits(s[1..], s[0] as nat - '0' as nat);
      Got(r.value, r.rest)
    else Bad
  }

  lemma DigitsEnd(s: string, n: nat)
    ensures ReadDigits(s, n).Got? && |ReadDigits(s, n).rest| <= |s|
  {
  }

  /** A printed number, read digit by digit, has its value. */
  lemma {:induction false} NatReads(n: nat, x: string)
    ensures ReadDigits(NatText(n) + x, 0) == ReadDigits(x, n)
  {
    var s := NatText(n) + x;
    if n < 10 {
      assert s[0] == Digit(n) && s[1..] == x;
    } else {
      var d := [Digit(n % 10)] + x;
      assert s == NatText(n / 10) + d;
      NatReads(n / 10, d);
      assert d[0] == Digit(n % 10) && d[1..] == x;
      assert 10 * (n / 10) + n % 10 == n;
    }
  }

  lemma IntReads(n: int, x: string)
    requires Delimited(x)
    ensures ReadInt(IntText(n) + x) == Got(n, x)
  {
    hide NatText;
    var s, m := IntText(n) + x, if n < 0 then -n else n;
    NatReads(m, x);
    var t := NatText(m) + x;
    assert '0' <= t[0] <= '9' && ReadDigits(t, 0) == ReadDigits(t[1..], t[0] as nat - '0' as nat) by {
      assert t[0] == NatText(m)[0];
    }
    if n < 0 {
      assert s[0] == '-' && s[1..] == t && s[2..] == t[1..] && s[1] == t[0];
    } else {
      assert s == t;
    }
  }

  // ---- strings, section 7

  function HexValue(c: char): Option<nat> {
    if '0' <= c <= '9' then Some(c as nat - '0' as nat)
    else if 'a' <= c <= 'f' then Some(c as nat - 'a' as nat + 10)
    else if 'A' <= c <= 'F' then Some(c as nat - 'A' as nat + 10)
    else None
  }

  /** The number of four hexadecimal digits. */
  function CodeUnit(s: string): Option<nat> {
    if |s| >= 4 && HexValue(s[0]).Some? && HexValue(s[1]).Some? && HexValue(s[2]).Some? && HexValue(s[3]).Some?
    then Some(0x1000 * HexValue(s[0]).value + 0x100 * HexValue(s[1]).value + 0x10 * HexValue(s[2]).value
              + HexValue(s[3]).value)
    else None
  }

  /** The characters that stand for themselves behind a backslash, and the letters that stand for others. */
  function Named(c: char): Option<char> {
    match c
    case '"' => Some('"')
    case '\\' => Some('\\')
    case '/' => Some('/')
    case 'b' => Some('\U{8}')
    case 'f' => Some('\U{C}')
    case 'n' => Some('\U{A}')
    case 'r' => Some('\U{D}')
    case 't' => Some('\U{9}')
    case _ => None
  }

  /** One character of a string; surrogates are left out, and controls must be escaped. */
  function ReadChar(s: string): (r: Read<char>)
    requires s != ""
    ensures r.Got? ==> |r.rest| < |s|
  {
    if s[0] < ' ' then Bad
    else if s[0] != '\\' then Got(s[0], s[1..])
    else if |s| < 2 then Bad
    else if s[1] == 'u' then
      var unit := CodeUnit(s[2..]);
      if unit.Some? && unit.value < 0xD800 then Got(unit.value as char, s[6..]) else Bad
    else if Named(s[1]).Some? then Got(Named(s[1]).value, s[2..])
    else Bad
  }

  /** From behind the opening quote to behind the closing one. */
  function ReadString(s: string): (r: Read<string>)
    ensures r.Got? ==> |r.rest| < |s|
  {
    if s == "" then Bad
    else if s[0] == '"' then Got("", s[1..])
    else
      match ReadChar(s)
      case Bad => Bad
      case Got(c, t) =>
        match ReadString(t)
        case Bad => Bad
        case Got(text, rest) => Got([c] + text, rest)
  }

  lemma HexDigitReads(d: nat)
    requires d < 16
    ensures HexValue(HexDigit(d)) == Some(d)
  {
  }

  lemma EscapeReads(c: char, x: string)
    ensures Escape(c)[0] != '"' && ReadChar(Escape(c) + x) == Got(c, x)
  {
    var s := Escape(c) + x;
    assert s[|Escape(c)|..] == x && s[0] == Escape(c)[0];
    if s[0] == '\\' {
      assert s[1] == Escape(c)[1];
      if s[1] == 'u' {
        assert s[2..][0] == '0' && s[2..][1] == '0';
        assert s[2..][2] == Escape(c)[4] && s[2..][3] == Escape(c)[5];
        HexDigitReads(c as nat / 16);
        HexDigitReads(c as nat % 16);
        assert c as nat / 16 * 16 + c as nat % 16 == c as nat;
      }
    }
  }

  lemma {:induction false} BodyReads(s: string, x: string)
    ensures ReadString(Body(s, x)) == Got(s, x)
  {
    hide Escape, ReadChar;
    if s == "" {
      assert Body(s, x)[1..] == x;
    } else {
      var t := Body(s[1..], x);
      EscapeReads(s[0], t);
      assert Body(s, x)[0] == Escape(s[0])[0];
      BodyReads(s[1..], x);
      assert s == [s[0]] + s[1..];
    }
  }

  // ---- values, sections 3 to 5

  /** Without white space between tokens, and without true, false, fractions and exponents. */
  function ReadValue(s: string): (r: Read<Json>)
    ensures r.Got? ==> |r.rest| < |s|
    decreases |s|, 0
  {
    if s == "" then Bad
    else if s[0] == '"' then
      match ReadString(s[1..])
      case Bad => Bad
      case Got(text, rest) => Got(Str(text), rest)
    else if s[0] == '[' then
      match ReadItems(s[1..], true)
      case Bad => Bad
      case Got(items, rest) => Got(List(items), rest)
    else if s[0] == '{' then
      match ReadFields(s[1..], true)
      case Bad => Bad
      case Got(fields, rest) => Got(Obj(fields), rest)
    else if |s| >= 4 && s[..4] == "null" then Got(Null, s[4..])
    else
      match ReadInt(s)
      case Bad => Bad
      case Got(n, rest) => Got(Int(n), rest)
  }

  /** The elements of an array up to its end; a comma stands before each but the first. */
  function ReadItems(s: string, first: bool): (r: Read<seq<Json>>)
    ensures r.Got? ==> |r.rest| < |s|
    decreases |s|, 1
  {
    if s == "" then Bad
    else if s[0] == ']' then Got([], s[1..])
    else if !first && s[0] != ',' then Bad
    else
      match ReadValue(if first then s else s[1..])
      case Bad => Bad
      case Got(item, t) =>
        match ReadItems(t, false)
        case Bad => Bad
        case Got(items, rest) => Got([item] + items, rest)
  }

  /** The members of an object up to its end: a name, a colon and a value each. */
  function ReadFields(s: string, first: bool): (r: Read<seq<Field>>)
    ensures r.Got? ==> |r.rest| < |s|
    decreases |s|, 1
  {
    if s == "" then Bad
    else if s[0] == '}' then Got([], s[1..])
    else if !first && s[0] != ',' then Bad
    else
      match ReadField(if first then s else s[1..])
      case Bad => Bad
      case Got(field, t) =>
        match ReadFields(t, false)
        case Bad => Bad
        case Got(fields, rest) => Got([field] + fields, rest)
  }

  function ReadField(s: string): (r: Read<Field>)
    ensures r.Got? ==> |r.rest| < |s|
    decreases |s|, 0
  {
    if s == "" || s[0] != '"' then Bad
    else
      match ReadString(s[1..])
      case Bad => Bad
      case Got(key, t) =>
        if t == "" || t[0] != ':' then Bad
        else
          match ReadValue(t[1..])
          case Bad => Bad
          case Got(value, rest) => Got(Field(key, value), rest)
  }

  lemma {:induction false} PrintReads(j: Json, x: string)
    requires Delimited(x)
    ensures ReadValue(Print(j, x)) == Got(j, x)
    decreases Size(j)
  {
    hide ReadString, ReadInt, ReadItems, ReadFields, IntText, Body;
    var s := Print(j, x);
    match j
    case Null => assert s[..4] == "null" && s[4..] == x && s[0] == 'n';
    case Int(n) =>
      IntReads(n, x);
      PrintStarts(j, x);
      assert s[0] == IntText(n)[0];
    case Str(text) =>
      BodyReads(text, x);
      assert s[1..] == Body(text, x);
    case List(items) =>
      ItemsRead(items, true, x);
      assert s[1..] == PrintItems(items, true, x);
    case Obj(fields) =>
      FieldsRead(fields, true, x);
      assert s[1..] == PrintFields(fields, true, x);
  }

  lemma {:induction false} ItemsRead(items: seq<Json>, first: bool, x: string)
    ensures ReadItems(PrintItems(items, first, x), first) == Got(items, x)
    decreases ItemsSize(items)
  {
    hide ReadValue, Print;
    var s := PrintItems(items, first, x);
    if items == [] {
      assert s[1..] == x;
    } else {
      var rest := PrintItems(items[1..], false, x);
      ItemsRead(items[1..], false, x);
      ItemsStart(items[1..], false, x);
      PrintReads(items[0], rest);
      PrintStarts(items[0], rest);
      assert (if first then s else s[1..]) == Print(items[0], rest);
      assert items == [items[0]] + items[1..];
    }
  }

  lemma {:induction false} FieldsRead(fields: seq<Field>, first: bool, x: string)
    ensures ReadFields(PrintFields(fields, first, x), first) == Got(fields, x)
    decreases FieldsSize(fields)
  {
    hide ReadField, Print, Body;
    var s := PrintFields(fields, first, x);
    if fields == [] {
      assert s[1..] == x;
    } else {
      var rest := PrintFields(fields[1..], false, x);
      FieldsRead(fields[1..], false, x);
      FieldsStart(fields[1..], false, x);
      PrintReads(fields[0].value, rest);
      var text := "\"" + Body(fields[0].key, ":" + Print(fields[0].value, rest));
      FieldReads(fields[0], rest, text);
      assert (if first then s else s[1..]) == text;
      assert fields == [fields[0]] + fields[1..];
    }
  }

  lemma FieldReads(f: Field, rest: string, text: string)
    requires ReadValue(Print(f.value, rest)) == Got(f.value, rest)
    requires text == "\"" + Body(f.key, ":" + Print(f.value, rest))
    ensures ReadField(text) == Got(f, rest)
  {
    hide ReadValue, Print, Body, ReadString;
    var tail := ":" + Print(f.value, rest);
    BodyReads(f.key, tail);
    assert text[1..] == Body(f.key, tail) && tail[1..] == Print(f.value, rest);
  }

  /** Canonical text reads back as the value it was printed from. */
  lemma RenderReads(j: Json)
    ensures ReadValue(Render(j)) == Got(j, "")
  {
    PrintReads(j, "");
  }
}
