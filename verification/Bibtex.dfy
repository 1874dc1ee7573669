/** The BibTeX author field: what is printed can be split and unescaped again. */
module Bibtex {
  import opened Base
  import Digests

  /** An observed author. */
  datatype Name = Name(raw: string, given: Option<string>, family: Option<string>)

  // ---- printing

  predicate Special(c: char) {
    c in {'#', '$', '%', '&', '\\', '^', '_', '{', '}', '~'}
  }

  function MacroName(c: char): string {
    if c == '\\' then "textbackslash" else if c == '^' then "textasciicircum" else "textasciitilde"
  }

  /** _BIBTEX_ESCAPES. */
  function Escape(c: char): (s: string)
    ensures s != ""
  {
    if c in {'\\', '^', '~'} then "\\" + MacroName(c) + "{}"
    else if Special(c) then "\\" + [c]
    else [c]
  }

  /** _escape_bibtex of a value, and what follows. */
  function EscapeTo(s: string, rest: string): string {
    if s == "" then rest else Escape(s[0]) + EscapeTo(s[1..], rest)
  }

  function Lower(c: char): char {
    if 'A' <= c <= 'Z' then 'a' + (c - 'A') else c
  }

  /** _BIBTEX_AND matches at i: "and" between white space or the ends of the value. */
  predicate AndAt(s: string, i: nat) {
    && i + 3 <= |s| && Lower(s[i]) == 'a' && Lower(s[i + 1]) == 'n' && Lower(s[i + 2]) == 'd'
    && (i == 0 || IsSpace(s[i - 1])) && (i + 3 == |s| || IsSpace(s[i + 3]))
  }

  predicate HasAnd(s: string) {
    exists i | 0 <= i < |s| :: AndAt(s, i)
  }

  /** _BIBTEX_NAME_SYNTAX. */
  predicate HasSyntax(s: string) {
    exists i | 0 <= i < |s| :: s[i] == ',' || Special(s[i])
  }

  predicate Grouped(s: string) {
    HasAnd(s) || HasSyntax(s)
  }

  function GroupTo(s: string, rest: string): string {
    "{" + EscapeTo(s, "}" + rest)
  }

  /** _bibtex_name_part. Outside a group nothing needs an escape. */
  function PartTo(s: string, rest: string): string {
    if Grouped(s) then GroupTo(s, rest) else EscapeTo(s, rest)
  }

  predicate Structured(a: Name) {
    a.given.Some? && a.given.value != "" && a.family.Some? && a.family.value != ""
  }

  /** _bibtex_author. */
  function AuthorTo(a: Name, rest: string): string {
    if Structured(a) then PartTo(a.family.value, ", " + PartTo(a.given.value, rest)) else GroupTo(a.raw, rest)
  }

  function AuthorText(a: Name): string {
    AuthorTo(a, "")
  }

  /** " and ".join of the authors from the k-th on. */
  function FieldFrom(authors: seq<Name>, k: nat): string
    requires k < |authors|
    decreases |authors| - k
  {
    AuthorTo(authors[k], if k + 1 == |authors| then "" else " and " + FieldFrom(authors, k + 1))
  }

  // ---- reading

  predicate StartsWith(s: string, prefix: string) {
    |prefix| <= |s| && forall i | 0 <= i < |prefix| :: s[i] == prefix[i]
  }

  const SEPARATOR := " and "

  /** The scanner of the tests: a backslash hides the next character, and only separators outside braces count. */
  function Separators(s: string, depth: int): nat {
    if s == "" then 0
    else if s[0] == '\\' then (if |s| >= 2 then Separators(s[2..], depth) else 0)
    else if s[0] == '{' then Separators(s[1..], depth + 1)
    else if s[0] == '}' then Separators(s[1..], depth - 1)
    else if depth == 0 && StartsWith(s, SEPARATOR) then 1 + Separators(s[5..], depth)
    else Separators(s[1..], depth)
  }

  /** The same scan, collecting what stands between the separators. */
  function Pieces(sep: string, s: string, depth: int, piece: string): (p: seq<string>)
    requires sep != ""
    ensures |p| >= 1
    decreases |s|
  {
    if s == "" then [piece]
    else if s[0] == '\\' then (if |s| >= 2 then Pieces(sep, s[2..], depth, piece + s[..2]) else [piece + s])
    else if s[0] == '{' then Pieces(sep, s[1..], depth + 1, piece + [s[0]])
    else if s[0] == '}' then Pieces(sep, s[1..], depth - 1, piece + [s[0]])
    else if depth == 0 && StartsWith(s, sep) then [piece] + Pieces(sep, s[|sep|..], depth, "")
    else Pieces(sep, s[1..], depth, piece + [s[0]])
  }

  lemma {:induction false} PiecesAreSeparated(s: string, depth: int, piece: string)
    ensures |Pieces(SEPARATOR, s, depth, piece)| == Separators(s, depth) + 1
  {
    if s == "" {
    } else if s[0] == '\\' {
      if |s| >= 2 {
        PiecesAreSeparated(s[2..], depth, piece + s[..2]);
      }
    } else if s[0] == '{' {
      PiecesAreSeparated(s[1..], depth + 1, piece + [s[0]]);
    } else if s[0] == '}' {
      PiecesAreSeparated(s[1..], depth - 1, piece + [s[0]]);
    } else if depth == 0 && StartsWith(s, SEPARATOR) {
      PiecesAreSeparated(s[5..], depth, "");
    } else {
      PiecesAreSeparated(s[1..], depth, piece + [s[0]]);
    }
  }

  // ---- inside a group

  /** Characters that the scanner passes over. */
  predicate Inert(w: string) {
    forall i | 0 <= i < |w| :: w[i] !in {'\\', '{', '}', ' '}
  }

  lemma NoSeparator(s: string)
    requires s != "" && s[0] != ' '
    ensures !StartsWith(s, SEPARATOR)
  {
    assert SEPARATOR[0] == ' ';
  }

  lemma {:induction false} PassInert(sep: string, w: string, rest: string, depth: int, piece: string)
    requires Inert(w) && sep != "" && depth != 0
    ensures Pieces(sep, w + rest, depth, piece) == Pieces(sep, rest, depth, piece + w)
  {
    if w == "" {
      assert w + rest == rest && piece + w == piece;
    } else {
      assert (w + rest)[0] == w[0] && (w + rest)[1..] == w[1..] + rest;
      PassInert(sep, w[1..], rest, depth, piece + [w[0]]);
      assert piece + [w[0]] + w[1..] == piece + w;
    }
  }

  /** A macro such as \textbackslash{}: an escaped letter, more letters, and an empty group. */
  lemma PassMacro(sep: string, name: string, rest: string, depth: int, piece: string)
    requires Inert(name) && name != "" && sep != "" && depth > 0
    ensures Pieces(sep, "\\" + name + "{}" + rest, depth, piece) == Pieces(sep, rest, depth, piece + ("\\" + name + "{}"))
  {
    var s := "\\" + name + "{}" + rest;
    var head, tail := "\\" + [name[0]], name[1..];
    assert s[..2] == head && s[2..] == tail + ("{}" + rest);
    PassInert(sep, tail, "{}" + rest, depth, piece + head);
    var t, q := "{}" + rest, piece + head + tail;
    assert t[0] == '{' && t[1..] == "}" + rest && t[1..][0] == '}' && t[1..][1..] == rest;
    assert Pieces(sep, t, depth, q) == Pieces(sep, "}" + rest, depth + 1, q + "{");
    assert q + "{" + "}" == piece + ("\\" + name + "{}");
  }

  lemma PassEscape(sep: string, c: char, rest: string, depth: int, piece: string)
    requires sep != "" && depth > 0
    ensures Pieces(sep, Escape(c) + rest, depth, piece) == Pieces(sep, rest, depth, piece + Escape(c))
  {
    var s := Escape(c) + rest;
    if c in {'\\', '^', '~'} {
      PassMacro(sep, MacroName(c), rest, depth, piece);
    } else if Special(c) {
      assert s[0] == '\\' && s[..2] == Escape(c) && s[2..] == rest;
    } else {
      assert s[0] == c && s[1..] == rest;
    }
  }

  lemma {:induction false} PassEscaped(sep: string, v: string, rest: string, depth: int, piece: string)
    requires sep != "" && depth > 0
    ensures Pieces(sep, EscapeTo(v, rest), depth, piece) == Pieces(sep, rest, depth, piece + EscapeTo(v, ""))
  {
    hide Escape, Pieces;
    if v == "" {
      assert piece + EscapeTo(v, "") == piece;
    } else {
      PassEscape(sep, v[0], EscapeTo(v[1..], rest), depth, piece);
      PassEscaped(sep, v[1..], rest, depth, piece + Escape(v[0]));
      assert piece + Escape(v[0]) + EscapeTo(v[1..], "") == piece + EscapeTo(v, "");
    }
  }

  lemma {:induction false} EscapeThen(v: string, rest: string, more: string)
    ensures EscapeTo(v, rest + more) == EscapeTo(v, rest) + more
  {
    hide Escape;
    if v != "" {
      EscapeThen(v[1..], rest, more);
      assert Escape(v[0]) + (EscapeTo(v[1..], rest) + more) == Escape(v[0]) + EscapeTo(v[1..], rest) + more;
    }
  }

  lemma PassGroup(sep: string, v: string, rest: string, piece: string)
    requires sep != ""
    ensures Pieces(sep, GroupTo(v, rest), 0, piece) == Pieces(sep, rest, 0, piece + GroupTo(v, ""))
  {
    hide EscapeTo;
    var s, close := GroupTo(v, rest), "}" + rest;
    assert s[0] == '{' && s[1..] == EscapeTo(v, close);
    PassEscaped(sep, v, close, 1, piece + "{");
    assert close[0] == '}' && close[1..] == rest;
    EscapeThen(v, "", "}");
    assert "" + "}" == "}" && "}" + "" == "}";
    assert piece + "{" + EscapeTo(v, "") + "}" == piece + GroupTo(v, "");
  }

  // ---- outside a group

  lemma {:induction false} PlainIsUnescaped(v: string, rest: string)
    requires !HasSyntax(v)
    ensures EscapeTo(v, rest) == v + rest
  {
    if v == "" {
      assert v + rest == rest;
    } else {
      assert !Special(v[0]);
      PlainIsUnescaped(v[1..], rest);
      assert v + rest == [v[0]] + (v[1..] + rest);
    }
  }

  /** What follows a part: the comma of the name, a separator, or nothing. */
  predicate Follows(rest: string) {
    rest == "" || rest[0] == ',' || rest[0] == ' '
  }

  /** A separator that begins inside a part makes _BIBTEX_AND match the part. */
  lemma SeparatorMeansAnd(v: string, k: nat, rest: string)
    requires k < |v| && Follows(rest) && StartsWith(v[k..] + rest, SEPARATOR)
    ensures k + 1 < |v| && AndAt(v, k + 1)
  {
    var s := v[k..] + rest;
    assert s[1] == SEPARATOR[1] && s[2] == SEPARATOR[2] && s[3] == SEPARATOR[3] && s[4] == SEPARATOR[4];
    assert s[0] == SEPARATOR[0];
    assert k + 3 < |v|;
    assert v[k] == s[0] && v[k + 1] == s[1] && v[k + 2] == s[2] && v[k + 3] == s[3];
    assert k + 4 < |v| ==> v[k + 4] == s[4];
  }

  /** So does one that begins at the space between the comma and the given part. */
  lemma SeparatorBeforeMeansAnd(v: string, rest: string)
    requires v != "" && Follows(rest) && StartsWith(" " + v + rest, SEPARATOR)
    ensures AndAt(v, 0)
  {
    var s := " " + v + rest;
    assert s[1] == SEPARATOR[1] && s[2] == SEPARATOR[2] && s[3] == SEPARATOR[3] && s[4] == SEPARATOR[4];
    assert |v| >= 3;
    assert v[0] == s[1] && v[1] == s[2] && v[2] == s[3];
    assert |v| > 3 ==> v[3] == s[4];
  }

  /** No separator begins inside an ungrouped part, whatever follows it. */
  lemma NoSeparatorInside(v: string, k: nat, rest: string)
    requires !HasAnd(v) && k < |v| && Follows(rest)
    ensures !StartsWith(v[k..] + rest, SEPARATOR)
  {
    hide AndAt, StartsWith;
    if StartsWith(v[k..] + rest, SEPARATOR) {
      SeparatorMeansAnd(v, k, rest);
    }
  }

  lemma NoSeparatorBefore(v: string, rest: string)
    requires v != "" && !HasAnd(v) && Follows(rest)
    ensures !StartsWith(" " + v + rest, SEPARATOR)
  {
    hide AndAt, StartsWith;
    if StartsWith(" " + v + rest, SEPARATOR) {
      SeparatorBeforeMeansAnd(v, rest);
    }
  }

  lemma StepOver(s: string, piece: string)
    requires s != "" && s[0] !in {'\\', '{', '}'} && !StartsWith(s, SEPARATOR)
    ensures Pieces(SEPARATOR, s, 0, piece) == Pieces(SEPARATOR, s[1..], 0, piece + [s[0]])
  {
  }

  lemma {:induction false} PassPlain(v: string, k: nat, rest: string, piece: string)
    requires !Grouped(v) && k <= |v| && Follows(rest)
    ensures Pieces(SEPARATOR, v[k..] + rest, 0, piece) == Pieces(SEPARATOR, rest, 0, piece + v[k..])
    decreases |v| - k
  {
    hide HasAnd;
    var s := v[k..] + rest;
    if k == |v| {
      assert s == rest && piece + v[k..] == piece;
    } else {
      assert s[0] == v[k] && s[1..] == v[k + 1..] + rest && !Special(v[k]);
      NoSeparatorInside(v, k, rest);
      PassPlain(v, k + 1, rest, piece + [v[k]]);
      assert piece + [v[k]] + v[k + 1..] == piece + v[k..];
    }
  }

  lemma PassPart(v: string, rest: string, piece: string)
    requires Follows(rest)
    ensures Pieces(SEPARATOR, PartTo(v, rest), 0, piece) == Pieces(SEPARATOR, rest, 0, piece + PartTo(v, ""))
  {
    if Grouped(v) {
      PassGroup(SEPARATOR, v, rest, piece);
    } else {
      PlainIsUnescaped(v, rest);
      PlainIsUnescaped(v, "");
      assert v[0..] == v && v + "" == v;
      PassPlain(v, 0, rest, piece);
    }
  }

  lemma PassSpace(v: string, rest: string, piece: string)
    requires v != "" && Follows(rest)
    ensures Pieces(SEPARATOR, ", " + PartTo(v, rest), 0, piece) == Pieces(SEPARATOR, PartTo(v, rest), 0, piece + ", ")
  {
    hide Pieces, PartTo;
    var p := PartTo(v, rest);
    var s, t := ", " + p, " " + p;
    assert s[0] == ',' && s[1..] == t;
    NoSeparator(s);
    StepOver(s, piece);
    NoSeparatorBetween(v, rest);
    assert t[0] == ' ' && t[1..] == p;
    StepOver(t, piece + [',']);
    assert piece + [','] + [' '] == piece + ", ";
  }

  lemma NoSeparatorBetween(v: string, rest: string)
    requires v != "" && Follows(rest)
    ensures !StartsWith(" " + PartTo(v, rest), SEPARATOR)
  {
    hide HasAnd, HasSyntax, EscapeTo;
    var t := " " + PartTo(v, rest);
    if Grouped(v) {
      assert t[1] == '{' && SEPARATOR[1] == 'a';
    } else {
      PlainIsUnescaped(v, rest);
      NoSeparatorBefore(v, rest);
      assert t == " " + v + rest;
    }
  }

  lemma GroupThen(v: string, rest: string)
    ensures GroupTo(v, rest) == GroupTo(v, "") + rest
  {
    hide EscapeTo;
    EscapeThen(v, "}", rest);
    assert "}" + "" == "}";
    assert "{" + (EscapeTo(v, "}") + rest) == "{" + EscapeTo(v, "}") + rest;
  }

  lemma PartThen(v: string, rest: string)
    ensures PartTo(v, rest) == PartTo(v, "") + rest
  {
    hide Grouped, EscapeTo, GroupTo;
    if Grouped(v) {
      GroupThen(v, rest);
    } else {
      UngroupedIsPlain(v);
      PlainIsUnescaped(v, rest);
      PlainIsUnescaped(v, "");
      assert v + "" == v;
    }
  }

  lemma UngroupedIsPlain(v: string)
    requires !Grouped(v)
    ensures !HasSyntax(v) && !HasAnd(v)
  {
  }

  /** The scanner reads one printed author as part of one piece. */
  lemma PassAuthor(a: Name, rest: string, piece: string)
    requires rest == "" || rest[0] == ' '
    ensures Pieces(SEPARATOR, AuthorTo(a, rest), 0, piece) == Pieces(SEPARATOR, rest, 0, piece + AuthorText(a))
  {
    hide PartTo, Grouped, Pieces, GroupTo;
    if Structured(a) {
      var f, g := a.family.value, a.given.value;
      PassPart(f, ", " + PartTo(g, rest), piece);
      PassSpace(g, rest, piece + PartTo(f, ""));
      PassPart(g, rest, piece + PartTo(f, "") + ", ");
      PartThen(f, ", " + PartTo(g, ""));
      assert piece + PartTo(f, "") + ", " + PartTo(g, "") == piece + (PartTo(f, "") + (", " + PartTo(g, "")));
    } else {
      PassGroup(SEPARATOR, a.raw, rest, piece);
    }
  }

  // ---- the field

  function PrintedFrom(authors: seq<Name>, k: nat): seq<string>
    requires k <= |authors|
    decreases |authors| - k
  {
    if k == |authors| then [] else [AuthorText(authors[k])] + PrintedFrom(authors, k + 1)
  }

  lemma {:induction false} FieldSplits(authors: seq<Name>, k: nat)
    requires k < |authors|
    ensures Pieces(SEPARATOR, FieldFrom(authors, k), 0, "") == PrintedFrom(authors, k)
    decreases |authors| - k
  {
    hide AuthorTo, AuthorText, Pieces;
    if k + 1 == |authors| {
      NothingLeft(AuthorText(authors[k]));
      PassAuthor(authors[k], "", "");
      assert "" + AuthorText(authors[k]) == AuthorText(authors[k]);
      assert PrintedFrom(authors, k + 1) == [];
    } else {
      var rest := " and " + FieldFrom(authors, k + 1);
      PassAuthor(authors[k], rest, "");
      assert "" + AuthorText(authors[k]) == AuthorText(authors[k]);
      SplitHere(FieldFrom(authors, k + 1), AuthorText(authors[k]));
      FieldSplits(authors, k + 1);
    }
  }

  lemma NothingLeft(piece: string)
    ensures Pieces(SEPARATOR, "", 0, piece) == [piece]
  {
  }

  lemma SplitHere(field: string, piece: string)
    ensures Pieces(SEPARATOR, " and " + field, 0, piece) == [piece] + Pieces(SEPARATOR, field, 0, "")
  {
    var s := " and " + field;
    assert s[5..] == field && StartsWith(s, SEPARATOR);
  }

  lemma {:induction false} PrintedLength(authors: seq<Name>, k: nat)
    requires k <= |authors|
    ensures |PrintedFrom(authors, k)| == |authors| - k
    decreases |authors| - k
  {
    hide AuthorText;
    if k < |authors| {
      PrintedLength(authors, k + 1);
    }
  }

  /** For every non-empty author list the scanner finds n - 1 separators, and the pieces are the printed authors. */
  lemma AuthorFieldSplits(authors: seq<Name>)
    requires authors != []
    ensures Separators(FieldFrom(authors, 0), 0) == |authors| - 1
    ensures Pieces(SEPARATOR, FieldFrom(authors, 0), 0, "") == PrintedFrom(authors, 0)
  {
    FieldSplits(authors, 0);
    PrintedLength(authors, 0);
    PiecesAreSeparated(FieldFrom(authors, 0), 0, "");
  }

  // ---- unescaping

  const BACKSLASH_MACRO := "\\textbackslash{}"
  const CARET_MACRO := "\\textasciicircum{}"
  const TILDE_MACRO := "\\textasciitilde{}"

  /** The characters that TeX does not read as themselves. */
  const TEX_ACTIVE := {'#', '$', '%', '&', '\\', '^', '_', '{', '}', '~'}

  datatype Macro = Macro(stands: char, length: nat)

  /** The macro at the front, if one stands there. */
  function MacroAt(s: string): Option<Macro> {
    if StartsWith(s, BACKSLASH_MACRO) then Some(Macro('\\', |BACKSLASH_MACRO|))
    else if StartsWith(s, CARET_MACRO) then Some(Macro('^', |CARET_MACRO|))
    else if StartsWith(s, TILDE_MACRO) then Some(Macro('~', |TILDE_MACRO|))
    else None
  }

  /** TeX reads a backslash with an active character as that character, and the three macros as theirs. */
  function Unescape(s: string): string {
    if s == "" then ""
    else if s[0] != '\\' then [s[0]] + Unescape(s[1..])
    else if |s| >= 2 && s[1] in TEX_ACTIVE then [s[1]] + Unescape(s[2..])
    else
      match MacroAt(s)
      case Some(m) => [m.stands] + Unescape(s[m.length..])
      case None => [s[0]] + Unescape(s[1..])
  }

  /** Active characters stand only behind a backslash or in one of the macros. */
  predicate NothingActive(s: string) {
    if s == "" then true
    else if s[0] != '\\' then s[0] !in TEX_ACTIVE && NothingActive(s[1..])
    else if |s| >= 2 && s[1] in TEX_ACTIVE - {'\\', '^', '~'} then NothingActive(s[2..])
    else MacroAt(s).Some? && NothingActive(s[MacroAt(s).value.length..])
  }

  lemma StartsWithItself(prefix: string, rest: string)
    ensures StartsWith(prefix + rest, prefix)
  {
  }

  lemma MacroTexts()
    ensures Escape('\\') == BACKSLASH_MACRO && Escape('^') == CARET_MACRO && Escape('~') == TILDE_MACRO
  {
    assert Escape('\\') == "\\" + "textbackslash" + "{}" == BACKSLASH_MACRO;
    assert Escape('^') == "\\" + "textasciicircum" + "{}" == CARET_MACRO;
    assert Escape('~') == "\\" + "textasciitilde" + "{}" == TILDE_MACRO;
  }

  /** No macro is the beginning of another. */
  lemma MacrosDiffer(s: string)
    ensures StartsWith(s, CARET_MACRO) || StartsWith(s, TILDE_MACRO) ==> !StartsWith(s, BACKSLASH_MACRO)
    ensures StartsWith(s, TILDE_MACRO) ==> !StartsWith(s, CARET_MACRO)
  {
    assert BACKSLASH_MACRO[5] == 'b' && CARET_MACRO[5] == 'a' && CARET_MACRO[10] == 'c';
    assert TILDE_MACRO[5] == 'a' && TILDE_MACRO[10] == 't';
  }

  lemma MacroAtIs(c: char, rest: string)
    requires c in {'\\', '^', '~'}
    ensures MacroAt(Escape(c) + rest) == Some(Macro(c, |Escape(c)|))
  {
    hide Escape, StartsWith;
    MacroTexts();
    StartsWithItself(Escape(c), rest);
    MacrosDiffer(Escape(c) + rest);
  }

  lemma UnescapeOne(c: char, rest: string)
    ensures Unescape(Escape(c) + rest) == [c] + Unescape(rest)
  {
    hide MacroAt;
    var s := Escape(c) + rest;
    assert s[|Escape(c)|..] == rest && s[0] == Escape(c)[0];
    if c in {'\\', '^', '~'} {
      assert s[1] == MacroName(c)[0] == 't';
      MacroAtIs(c, rest);
    } else if Special(c) {
      assert s[1] == c;
    }
  }

  /** No character of a value is left active. */
  lemma {:induction false} EscapedIsInactive(v: string)
    ensures NothingActive(EscapeTo(v, ""))
  {
    hide MacroAt;
    if v != "" {
      var c, rest := v[0], EscapeTo(v[1..], "");
      var s := Escape(c) + rest;
      EscapedIsInactive(v[1..]);
      assert s[|Escape(c)|..] == rest && s[0] == Escape(c)[0];
      if c in {'\\', '^', '~'} {
        assert s[1] == MacroName(c)[0] == 't';
        MacroAtIs(c, rest);
      } else if Special(c) {
        assert s[1] == c;
      }
    }
  }

  /** Unescaping recovers the value. */
  lemma {:induction false} UnescapeUndoesEscape(v: string)
    ensures Unescape(EscapeTo(v, "")) == v
  {
    hide Escape, Unescape;
    if v == "" {
      UnescapeNothing();
    } else {
      UnescapeOne(v[0], EscapeTo(v[1..], ""));
      UnescapeUndoesEscape(v[1..]);
      assert v == [v[0]] + v[1..];
    }
  }

  lemma UnescapeNothing()
    ensures Unescape("") == ""
  {
  }

  /** Escaping is a uniquely decodable code. */
  lemma EscapeIsCode(v: string, w: string)
    requires EscapeTo(v, "") == EscapeTo(w, "")
    ensures v == w
  {
    UnescapeUndoesEscape(v);
    UnescapeUndoesEscape(w);
  }

  // ---- when a name part is grouped

  const AND_WORDS := {"and", "anD", "aNd", "aND", "And", "AnD", "ANd", "AND"}

  /** The word "and", in any letter case, between white space or the ends. */
  ghost predicate SaysAnd(v: string) {
    exists i, j :: 0 <= i < j <= |v| && v[i..j] in AND_WORDS
      && (i == 0 || IsSpace(v[i - 1])) && (j == |v| || IsSpace(v[j]))
  }

  ghost predicate HasMark(v: string) {
    exists i :: 0 <= i < |v| && (v[i] == ',' || v[i] in TEX_ACTIVE)
  }

  lemma SaysAndAt(v: string, i: nat)
    ensures AndAt(v, i) <==> exists j :: i < j <= |v| && v[i..j] in AND_WORDS
                               && (i == 0 || IsSpace(v[i - 1])) && (j == |v| || IsSpace(v[j]))
  {
    hide IsSpace;
    if i + 3 <= |v| {
      var w := v[i..i + 3];
      assert w == [v[i], v[i + 1], v[i + 2]];
      assert w in AND_WORDS <==> Lower(v[i]) == 'a' && Lower(v[i + 1]) == 'n' && Lower(v[i + 2]) == 'd' by {
        AndLetters(v[i], v[i + 1], v[i + 2]);
      }
    }
  }

  lemma AndLetters(a: char, n: char, d: char)
    ensures [a, n, d] in AND_WORDS <==> a in {'a', 'A'} && n in {'n', 'N'} && d in {'d', 'D'}
    ensures (Lower(a) == 'a' <==> a in {'a', 'A'}) && (Lower(n) == 'n' <==> n in {'n', 'N'})
    ensures Lower(d) == 'd' <==> d in {'d', 'D'}
  {
    var w := [a, n, d];
    assert w == "and" <==> a == 'a' && n == 'n' && d == 'd';
    assert w == "anD" <==> a == 'a' && n == 'n' && d == 'D';
    assert w == "aNd" <==> a == 'a' && n == 'N' && d == 'd';
    assert w == "aND" <==> a == 'a' && n == 'N' && d == 'D';
    assert w == "And" <==> a == 'A' && n == 'n' && d == 'd';
    assert w == "AnD" <==> a == 'A' && n == 'n' && d == 'D';
    assert w == "ANd" <==> a == 'A' && n == 'N' && d == 'd';
    assert w == "AND" <==> a == 'A' && n == 'N' && d == 'D';
  }

  /** A part is printed in braces exactly if it says "and" or has a comma or an active character; otherwise it is
      printed as it is. */
  lemma GroupedExactlyWhenNeeded(v: string)
    ensures PartTo(v, "") == if SaysAnd(v) || HasMark(v) then "{" + EscapeTo(v, "") + "}" else v
  {
    hide AndAt, EscapeTo, IsSpace;
    assert HasAnd(v) <==> SaysAnd(v) by {
      if HasAnd(v) {
        var i :| 0 <= i < |v| && AndAt(v, i);
        SaysAndAt(v, i);
      }
      if SaysAnd(v) {
        var i, j :| 0 <= i < j <= |v| && v[i..j] in AND_WORDS && (i == 0 || IsSpace(v[i - 1])) && (j == |v| || IsSpace(v[j]));
        SaysAndAt(v, i);
      }
    }
    EscapeThen(v, "", "}");
    assert "" + "}" == "}" && "}" + "" == "}";
    if !HasSyntax(v) {
      PlainIsUnescaped(v, "");
      assert v + "" == v;
    }
  }

  // ---- reading an author

  datatype Reading = Parts(family: string, given: string) | Literal(text: string) | Unreadable

  function ReadPart(s: string): string {
    if |s| >= 2 && s[0] == '{' then Unescape(s[1..|s| - 1]) else Unescape(s)
  }

  const NAME_SEPARATOR := ", "

  /** A piece with one comma outside braces is family and given; without one it is a literal. */
  function ReadAuthor(piece: string): Reading {
    var parts := Pieces(NAME_SEPARATOR, piece, 0, "");
    if |parts| == 2 then Parts(ReadPart(parts[0]), ReadPart(parts[1]))
    else if |parts| == 1 then Literal(ReadPart(parts[0]))
    else Unreadable
  }

  lemma GroupReads(v: string)
    ensures ReadPart(GroupTo(v, "")) == v
  {
    hide EscapeTo;
    var s := GroupTo(v, "");
    EscapeThen(v, "", "}");
    assert "" + "}" == "}" && "}" + "" == "}";
    assert s == "{" + (EscapeTo(v, "") + "}");
    assert s[1..|s| - 1] == EscapeTo(v, "");
    UnescapeUndoesEscape(v);
  }

  lemma PartReads(v: string)
    requires v != ""
    ensures ReadPart(PartTo(v, "")) == v
  {
    if Grouped(v) {
      GroupReads(v);
    } else {
      PlainIsUnescaped(v, "");
      assert v + "" == v && !Special(v[0]);
      UnescapeUndoesEscape(v);
    }
  }

  lemma {:induction false} PassPlainName(v: string, k: nat, rest: string, piece: string)
    requires !HasSyntax(v) && k <= |v|
    ensures Pieces(NAME_SEPARATOR, v[k..] + rest, 0, piece) == Pieces(NAME_SEPARATOR, rest, 0, piece + v[k..])
    decreases |v| - k
  {
    var s := v[k..] + rest;
    if k == |v| {
      assert s == rest && piece + v[k..] == piece;
    } else {
      assert s[0] == v[k] && s[1..] == v[k + 1..] + rest && !Special(v[k]) && v[k] != ',';
      assert NAME_SEPARATOR[0] == ',';
      PassPlainName(v, k + 1, rest, piece + [v[k]]);
      assert piece + [v[k]] + v[k + 1..] == piece + v[k..];
    }
  }

  lemma PassNamePart(v: string, rest: string)
    ensures Pieces(NAME_SEPARATOR, PartTo(v, rest), 0, "") == Pieces(NAME_SEPARATOR, rest, 0, PartTo(v, ""))
  {
    if Grouped(v) {
      PassGroup(NAME_SEPARATOR, v, rest, "");
      assert "" + GroupTo(v, "") == GroupTo(v, "");
    } else {
      PlainIsUnescaped(v, rest);
      PlainIsUnescaped(v, "");
      assert v[0..] == v && v + "" == v && "" + v == v;
      PassPlainName(v, 0, rest, "");
    }
  }

  lemma NameSplitHere(rest: string, piece: string)
    ensures Pieces(NAME_SEPARATOR, ", " + rest, 0, piece) == [piece] + Pieces(NAME_SEPARATOR, rest, 0, "")
  {
    var s := ", " + rest;
    assert s[2..] == rest && StartsWith(s, NAME_SEPARATOR) && s[0] == ',';
  }

  lemma NameEnds(piece: string)
    ensures Pieces(NAME_SEPARATOR, "", 0, piece) == [piece]
  {
  }

  /** What a name says, as far as the format can tell. */
  function Meaning(a: Name): Reading {
    if Structured(a) then Parts(a.family.value, a.given.value) else Literal(a.raw)
  }

  lemma AuthorReads(a: Name)
    ensures ReadAuthor(AuthorText(a)) == Meaning(a)
  {
    hide Pieces, PartTo, ReadPart, GroupTo;
    if Structured(a) {
      var f, g := a.family.value, a.given.value;
      PassNamePart(f, ", " + PartTo(g, ""));
      NameSplitHere(PartTo(g, ""), PartTo(f, ""));
      PassNamePart(g, "");
      NameEnds(PartTo(g, ""));
      PartReads(f);
      PartReads(g);
    } else {
      PassGroup(NAME_SEPARATOR, a.raw, "", "");
      NameEnds(GroupTo(a.raw, ""));
      assert "" + GroupTo(a.raw, "") == GroupTo(a.raw, "");
      GroupReads(a.raw);
    }
  }

  lemma {:induction false} PrintedAt(authors: seq<Name>, k: nat, i: nat)
    requires k <= i < |authors|
    ensures i - k < |PrintedFrom(authors, k)| && PrintedFrom(authors, k)[i - k] == AuthorText(authors[i])
    decreases i - k
  {
    hide AuthorText;
    if k < i {
      PrintedAt(authors, k + 1, i);
    }
  }

  /** The author field reads back: splitting it at the separators and reading each piece gives every author's
      family and given name, or literal name, in order. */
  lemma AuthorFieldReadsBack(authors: seq<Name>)
    requires authors != []
    ensures var pieces := Pieces(SEPARATOR, FieldFrom(authors, 0), 0, "");
      && |pieces| == |authors|
      && (forall i :: 0 <= i < |authors| ==> ReadAuthor(pieces[i]) == Meaning(authors[i]))
  {
    hide Pieces, FieldFrom, ReadAuthor, AuthorText, Meaning;
    AuthorFieldSplits(authors);
    PrintedLength(authors, 0);
    forall i | 0 <= i < |authors|
      ensures ReadAuthor(PrintedFrom(authors, 0)[i]) == Meaning(authors[i])
    {
      PrintedAt(authors, 0, i);
      AuthorReads(authors[i]);
    }
  }

  // ---- the citation key

  /** _bibtex_key: the exact identifier, in hexadecimal. */
  function CitationKey(source: string, version: string): string {
    "paperinsights_" + Digests.Hex(Digests.Utf8(source + ":" + version))
  }

  /** Different versions have different keys, since a source name has no colon. */
  lemma CitationKeyInjective(source: string, version: string, source': string, version': string)
    requires ':' !in source && ':' !in source' && CitationKey(source, version) == CitationKey(source', version')
    ensures source == source' && version == version'
  {
    var k, k' := CitationKey(source, version), CitationKey(source', version');
    var n := |"paperinsights_"|;
    assert k[n..] == Digests.Hex(Digests.Utf8(source + ":" + version));
    assert k'[n..] == Digests.Hex(Digests.Utf8(source' + ":" + version'));
    Digests.HexInjective(Digests.Utf8(source + ":" + version), Digests.Utf8(source' + ":" + version'));
    Digests.Utf8Injective(source + ":" + version, source' + ":" + version');
    ColonAt(source, version);
    ColonAt(source', version');
    var t, t' := source + ":" + version, source' + ":" + version';
    assert t[..|source|] == source && t'[..|source'|] == source';
    assert t[|source| + 1..] == version && t'[|source'| + 1..] == version';
  }

  function FirstColon(s: string): nat {
    if s == "" || s[0] == ':' then 0 else 1 + FirstColon(s[1..])
  }

  lemma {:induction false} ColonAt(s: string, v: string)
    requires ':' !in s
    ensures FirstColon(s + ":" + v) == |s|
  {
    var t := s + ":" + v;
    if s == "" {
      assert t[0] == ':';
    } else {
      assert t[0] == s[0] && t[1..] == s[1..] + ":" + v;
      ColonAt(s[1..], v);
    }
  }
}
