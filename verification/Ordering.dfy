/** ORDER BY: text and column order, and the sequence that lists a set of rows in it. */
module Ordering {
  import opened Base

  /** SQLite's binary collation: by code point, a proper prefix first. */
  predicate TextLess(a: string, b: string) {
    if b == "" then false
    else if a == "" then true
    else if a[0] != b[0] then a[0] < b[0]
    else TextLess(a[1..], b[1..])
  }

  lemma {:induction false} TextTotal(a: string, b: string)
    ensures a == b || TextLess(a, b) || TextLess(b, a)
  {
    if a != "" && b != "" && a[0] == b[0] {
      TextTotal(a[1..], b[1..]);
      assert a == [a[0]] + a[1..] && b == [b[0]] + b[1..];
    }
  }

  lemma {:induction false} TextAsymmetric(a: string, b: string)
    requires TextLess(a, b)
    ensures !TextLess(b, a) && a != b
  {
    if a != "" && a[0] == b[0] {
      TextAsymmetric(a[1..], b[1..]);
    }
  }

  lemma {:induction false} TextTransitive(a: string, b: string, c: string)
    requires TextLess(a, b) && TextLess(b, c)
    ensures TextLess(a, c)
  {
    if a != "" && a[0] == b[0] == c[0] {
      TextTransitive(a[1..], b[1..], c[1..]);
    }
  }

  /** A column of an ORDER BY clause: an identifier or a number, or text. */
  datatype Column = Number(n: int) | Text(s: string)

  predicate ColumnLess(a: Column, b: Column) {
    match (a, b)
    case (Number(m), Number(n)) => m < n
    case (Text(s), Text(t)) => TextLess(s, t)
    case (Number(_), Text(_)) => true
    case (Text(_), Number(_)) => false
  }

  lemma ColumnOrder(a: Column, b: Column, c: Column)
    ensures a == b || ColumnLess(a, b) || ColumnLess(b, a)
    ensures ColumnLess(a, b) ==> !ColumnLess(b, a) && a != b
    ensures ColumnLess(a, b) && ColumnLess(b, c) ==> ColumnLess(a, c)
  {
    if a.Text? && b.Text? {
      TextTotal(a.s, b.s);
      if TextLess(a.s, b.s) {
        TextAsymmetric(a.s, b.s);
        if c.Text? && TextLess(b.s, c.s) {
          TextTransitive(a.s, b.s, c.s);
        }
      }
    }
  }

  type SortKey = seq<Column>

  /** Rows compare by their first column that differs. */
  predicate KeyLess(a: SortKey, b: SortKey) {
    if b == [] then false
    else if a == [] then true
    else if a[0] != b[0] then ColumnLess(a[0], b[0])
    else KeyLess(a[1..], b[1..])
  }

  lemma {:induction false} KeyTotal(a: SortKey, b: SortKey)
    ensures a == b || KeyLess(a, b) || KeyLess(b, a)
  {
    if a != [] && b != [] {
      ColumnOrder(a[0], b[0], a[0]);
      if a[0] == b[0] {
        KeyTotal(a[1..], b[1..]);
        assert a == [a[0]] + a[1..] && b == [b[0]] + b[1..];
      }
    }
  }

  lemma {:induction false} KeyAsymmetric(a: SortKey, b: SortKey)
    requires KeyLess(a, b)
    ensures !KeyLess(b, a) && a != b
  {
    if a != [] {
      ColumnOrder(a[0], b[0], a[0]);
      if a[0] == b[0] {
        KeyAsymmetric(a[1..], b[1..]);
      }
    }
  }

  lemma {:induction false} KeyTransitive(a: SortKey, b: SortKey, c: SortKey)
    requires KeyLess(a, b) && KeyLess(b, c)
    ensures KeyLess(a, c)
  {
    if a != [] {
      ColumnOrder(a[0], b[0], c[0]);
      ColumnOrder(b[0], c[0], a[0]);
      if a[0] == b[0] == c[0] {
        KeyTransitive(a[1..], b[1..], c[1..]);
      }
    }
  }

  /** The first column that differs decides. */
  lemma {:induction false} FirstDifference(a: SortKey, b: SortKey, k: nat)
    requires k < |a| && k < |b| && a[..k] == b[..k] && a[k] != b[k]
    ensures KeyLess(a, b) <==> ColumnLess(a[k], b[k])
  {
    if k > 0 {
      assert a[0] == a[..k][0] && b[0] == b[..k][0];
      assert a[1..][..k - 1] == a[..k][1..] && b[1..][..k - 1] == b[..k][1..];
      FirstDifference(a[1..], b[1..], k - 1);
    }
  }

  // ---- rows in order

  ghost predicate Injective<T(!new)>(rows: set<T>, key: T -> SortKey) {
    forall x, y :: x in rows && y in rows && key(x) == key(y) ==> x == y
  }

  predicate IsFirst<T(==)>(rows: set<T>, key: T -> SortKey, x: T) {
    x in rows && forall y :: y in rows ==> y == x || KeyLess(key(x), key(y))
  }

  lemma {:induction false} FirstExists<T(!new)>(rows: set<T>, key: T -> SortKey)
    requires rows != {} && Injective(rows, key)
    ensures exists x :: IsFirst(rows, key, x)
    decreases rows
  {
    var x :| x in rows;
    var rest := rows - {x};
    if rest == {} {
      assert rows == {x};
      assert IsFirst(rows, key, x);
    } else {
      FirstExists(rest, key);
      var y :| IsFirst(rest, key, y);
      KeyTotal(key(x), key(y));
      if KeyLess(key(x), key(y)) {
        forall z | z in rows
          ensures z == x || KeyLess(key(x), key(z))
        {
          if z != x && z != y {
            KeyTransitive(key(x), key(y), key(z));
          }
        }
        assert IsFirst(rows, key, x);
      } else {
        assert IsFirst(rows, key, y);
      }
    }
  }

  lemma FirstUnique<T(!new)>(rows: set<T>, key: T -> SortKey, x: T, y: T)
    requires IsFirst(rows, key, x) && IsFirst(rows, key, y)
    ensures x == y
  {
    if x != y {
      KeyAsymmetric(key(x), key(y));
    }
  }

  /** The first row. */
  function First<T(!new, ==)>(rows: set<T>, key: T -> SortKey): (x: T)
    requires rows != {} && Injective(rows, key)
    ensures IsFirst(rows, key, x)
  {
    FirstExists(rows, key);
    assert forall y, z :: IsFirst(rows, key, y) && IsFirst(rows, key, z) ==> y == z by {
      forall y, z | IsFirst(rows, key, y) && IsFirst(rows, key, z) ensures y == z {
        FirstUnique(rows, key, y, z);
      }
    }
    var x :| IsFirst(rows, key, x);
    x
  }

  /** The rows in order. */
  function OrderedList<T(!new, ==)>(rows: set<T>, key: T -> SortKey): seq<T>
    requires Injective(rows, key)
  {
    if rows == {} then []
    else var x := First(rows, key); [x] + OrderedList(rows - {x}, key)
  }

  ghost predicate Sorted<T(!new)>(s: seq<T>, key: T -> SortKey) {
    forall i, j :: 0 <= i < j < |s| ==> KeyLess(key(s[i]), key(s[j]))
  }

  lemma {:induction false} OrderedListIsOrdered<T(!new)>(rows: set<T>, key: T -> SortKey)
    requires Injective(rows, key)
    ensures var s := OrderedList(rows, key);
      Sorted(s, key) && |s| == |rows| && (forall x :: x in s <==> x in rows)
  {
    if rows != {} {
      var s := OrderedList(rows, key);
      assert IsFirst(rows, key, s[0]);
      OrderedListIsOrdered(rows - {s[0]}, key);
      assert s[1..] == OrderedList(rows - {s[0]}, key);
    }
  }

  /** There is only one ordered listing of a set of rows. */
  lemma {:induction false} OrderedListIsUnique<T(!new)>(rows: set<T>, key: T -> SortKey, s: seq<T>)
    requires Injective(rows, key) && Sorted(s, key) && forall x :: x in s <==> x in rows
    ensures OrderedList(rows, key) == s
    decreases |s|
  {
    if s == [] {
      assert rows == {};
    } else {
      var x := s[0];
      assert x in rows;
      assert IsFirst(rows, key, x);
      FirstUnique(rows, key, x, First(rows, key));
      forall y | y in s[1..]
        ensures y != x
      {
        KeyAsymmetric(key(x), key(y));
      }
      OrderedListIsUnique(rows - {x}, key, s[1..]);
    }
  }
}
