/** Digests of canonical JSON: hashlib.sha256(json.dumps(payload, ...).encode()). */
module Digests {
  import opened Base
  import opened CanonicalJson
  import JsonReader

  // ---- UTF-8

  function Utf8Char(c: char): (bytes: Bytes)
    ensures bytes != []
  {
    var n := c as int;
    if n < 0x80 then [n as byte]
    else if n < 0x800 then [(0xC0 + n / 0x40) as byte, (0x80 + n % 0x40) as byte]
    else if n < 0x10000 then
      [(0xE0 + n / 0x1000) as byte, (0x80 + n / 0x40 % 0x40) as byte, (0x80 + n % 0x40) as byte]
    else
      [(0xF0 + n / 0x40000) as byte, (0x80 + n / 0x1000 % 0x40) as byte, (0x80 + n / 0x40 % 0x40) as byte,
       (0x80 + n % 0x40) as byte]
  }

  /** The bytes of a text and what follows them. */
  function Utf8(s: string): Bytes {
    if s == "" then [] else Utf8Char(s[0]) + Utf8(s[1..])
  }

  lemma Utf8IsPrefixCode(c: char, d: char, x: Bytes, y: Bytes)
    requires Utf8Char(c) + x == Utf8Char(d) + y
    ensures c == d && x == y
  {
    var u, v, s, t := Utf8Char(c), Utf8Char(d), Utf8Char(c) + x, Utf8Char(d) + y;
    assert s[0] == u[0] && t[0] == v[0];
    LeadByte(c);
    LeadByte(d);
    assert |u| == |v|;
    assert u == s[..|u|] && v == t[..|v|];
    assert s[|u|..] == x && t[|v|..] == y;
    SameBytesSameChar(c, d);
  }

  lemma LeadByte(c: char)
    ensures var u := Utf8Char(c);
      |u| == if u[0] < 0x80 then 1 else if u[0] < 0xE0 then 2 else if u[0] < 0xF0 then 3 else 4
  {
  }

  /** The number that an encoding spells. */
  function Spelled(u: Bytes): int
    requires 1 <= |u| <= 4
  {
    if |u| == 1 then u[0] as int
    else if |u| == 2 then (u[0] as int - 0xC0) * 0x40 + (u[1] as int - 0x80)
    else if |u| == 3 then (u[0] as int - 0xE0) * 0x1000 + (u[1] as int - 0x80) * 0x40 + (u[2] as int - 0x80)
    else
      (u[0] as int - 0xF0) * 0x40000 + (u[1] as int - 0x80) * 0x1000 + (u[2] as int - 0x80) * 0x40
      + (u[3] as int - 0x80)
  }

  lemma SpelledIsChar(c: char)
    ensures Spelled(Utf8Char(c)) == c as int
  {
    var n := c as int;
    assert n == n / 0x40 * 0x40 + n % 0x40;
    assert n / 0x40 == n / 0x1000 * 0x40 + n / 0x40 % 0x40;
    assert n / 0x1000 == n / 0x40000 * 0x40 + n / 0x1000 % 0x40;
  }

  lemma SameBytesSameChar(c: char, d: char)
    requires Utf8Char(c) == Utf8Char(d)
    ensures c == d
  {
    hide Utf8Char, Spelled;
    SpelledIsChar(c);
    SpelledIsChar(d);
    assert c as int == d as int;
    assert (c as int) as char == c && (d as int) as char == d;
  }

  lemma {:induction false} Utf8Injective(s: string, t: string)
    requires Utf8(s) == Utf8(t)
    ensures s == t
  {
    if s != "" && t != "" {
      Utf8IsPrefixCode(s[0], t[0], Utf8(s[1..]), Utf8(t[1..]));
      Utf8Injective(s[1..], t[1..]);
      assert s == [s[0]] + s[1..] && t == [t[0]] + t[1..];
    }
  }

  // ---- digests

  function DigestOf(payload: Json): Sha256 {
    Sha256(Utf8(Render(payload)))
  }

  /** Equal digests mean equal payloads. */
  lemma DigestInjective(a: Json, b: Json)
    requires DigestOf(a) == DigestOf(b)
    ensures a == b
  {
    Utf8Injective(Render(a), Render(b));
    RenderInjective(a, b);
  }

  // ---- the leaves of payloads

  function Hex(bytes: Bytes): string {
    if bytes == [] then ""
    else [HexDigit(bytes[0] as int / 16), HexDigit(bytes[0] as int % 16)] + Hex(bytes[1..])
  }

  /** The hexadecimal text of an ideal digest spells its preimage. */
  function DigestJson(sha: Sha256): Json {
    Str(Hex(sha.preimage))
  }

  lemma {:induction false} HexInjective(a: Bytes, b: Bytes)
    requires Hex(a) == Hex(b)
    ensures a == b
  {
    if a != [] && b != [] {
      var s, t := Hex(a), Hex(b);
      assert s[0] == t[0] && s[1] == t[1] && s[2..] == Hex(a[1..]) && t[2..] == Hex(b[1..]);
      HexDigitInjective(a[0] as int / 16, b[0] as int / 16);
      HexDigitInjective(a[0] as int % 16, b[0] as int % 16);
      HexInjective(a[1..], b[1..]);
      assert a == [a[0]] + a[1..] && b == [b[0]] + b[1..];
    }
  }

  /** Two digits for each byte, the high one first. */
  lemma {:induction false} HexSpells(bytes: Bytes, i: nat)
    requires i < |bytes|
    ensures |Hex(bytes)| == 2 * |bytes|
    ensures var high, low := JsonReader.HexValue(Hex(bytes)[2 * i]), JsonReader.HexValue(Hex(bytes)[2 * i + 1]);
      high.Some? && low.Some? && 16 * high.value + low.value == bytes[i] as int
  {
    hide JsonReader.HexValue;
    var rest := bytes[1..];
    assert Hex(bytes) == [HexDigit(bytes[0] as int / 16), HexDigit(bytes[0] as int % 16)] + Hex(rest);
    if i > 0 {
      HexSpells(rest, i - 1);
      assert Hex(bytes)[2 * i] == Hex(rest)[2 * (i - 1)] && Hex(bytes)[2 * i + 1] == Hex(rest)[2 * (i - 1) + 1];
    } else {
      if rest != [] {
        HexSpells(rest, 0);
      }
      JsonReader.HexDigitReads(bytes[0] as int / 16);
      JsonReader.HexDigitReads(bytes[0] as int % 16);
      assert bytes[0] as int / 16 * 16 + bytes[0] as int % 16 == bytes[0] as int;
    }
  }

  lemma DigestJsonInjective(a: Sha256, b: Sha256)
    requires DigestJson(a) == DigestJson(b)
    ensures a == b
  {
    HexInjective(a.preimage, b.preimage);
  }

  /** Identifiers and instants are numbers in this model, and are printed as text. */
  function NumberJson(n: nat): Json {
    Str(NatText(n))
  }

  lemma NumberJsonInjective(m: nat, n: nat)
    requires NumberJson(m) == NumberJson(n)
    ensures m == n
  {
    NatTextInjective(m, n);
  }

  function TextJson(s: Option<string>): Json {
    if s.Some? then Str(s.value) else Null
  }

  function TimeJson(t: Option<Time>): Json {
    if t.Some? then NumberJson(t.value) else Null
  }

  lemma TimeJsonInjective(s: Option<Time>, t: Option<Time>)
    requires TimeJson(s) == TimeJson(t)
    ensures s == t
  {
    if s.Some? && t.Some? {
      NumberJsonInjective(s.value, t.value);
    }
  }
}
