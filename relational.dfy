/** The relational building blocks of the repository's SQL: `WHERE`
    (a filter), the row orders it states exactly (`ORDER BY` on dates and line
    numbers), `QuerySingleOrDefault`, and the choice behind
    `TOP 1 ... ORDER BY aggregate DESC`. */
module Relational {
  import opened Wrappers

  /** `WHERE p`: the rows satisfying `p`, in table order and with their
      multiplicity. */
  function Filter<T(!new)>(s: seq<T>, p: T -> bool): (r: seq<T>)
    ensures |r| <= |s|
    ensures forall x :: x in r <==> x in s && p(x)
    ensures forall x :: multiset(r)[x] == if p(x) then multiset(s)[x] else 0
  {
    if s == [] then []
    else
      var rest := Filter(s[1..], p);
      assert s == [s[0]] + s[1..];
      if p(s[0]) then [s[0]] + rest else rest
  }

  /** Dapper's `QuerySingleOrDefault`: no row gives the default (null), one
      row gives that row, more rows throw. */
  function SingleOrDefault<T>(rows: seq<T>): (r: Outcome<Option<T>>)
    ensures r == Ok(None) <==> |rows| == 0
    ensures r.Fail? <==> |rows| > 1
    ensures r.Ok? && r.value.Some? ==> rows == [r.value.value]
  {
    if |rows| == 0 then Ok(None)
    else if |rows| == 1 then Ok(Some(rows[0]))
    else Fail(MultipleRows)
  }

  const MultipleRows := "Sequence contains more than one element"

  /** A sort key compared lexicographically: first component, then second. */
  type Key = (int, int)

  predicate KeyLe(a: Key, b: Key) {
    a.0 < b.0 || (a.0 == b.0 && a.1 <= b.1)
  }

  predicate SortedBy<T>(s: seq<T>, key: T -> Key) {
    forall i, j :: 0 <= i < j < |s| ==> KeyLe(key(s[i]), key(s[j]))
  }

  /** A lower bound on the keys of `s` and of `x` bounds every key of a
      sequence holding `x` and the elements of `s`. */
  lemma LowerBoundKept<T>(lo: Key, x: T, s: seq<T>, t: seq<T>, key: T -> Key)
    requires KeyLe(lo, key(x))
    requires forall j :: 0 <= j < |s| ==> KeyLe(lo, key(s[j]))
    requires multiset(t) == multiset(s) + multiset{x}
    ensures forall j :: 0 <= j < |t| ==> KeyLe(lo, key(t[j]))
  {
    forall j | 0 <= j < |t| ensures KeyLe(lo, key(t[j])) {
      assert t[j] in multiset(t);
      if t[j] != x {
        assert t[j] in multiset(s);
        var k :| 0 <= k < |s| && s[k] == t[j];
      }
    }
  }

  /** Inserts `x` before the first element whose key is not below it. */
  function Insert<T>(x: T, s: seq<T>, key: T -> Key): (r: seq<T>)
    requires SortedBy(s, key)
    ensures SortedBy(r, key)
    ensures multiset(r) == multiset(s) + multiset{x}
  {
    if s == [] then [x]
    else if KeyLe(key(x), key(s[0])) then [x] + s
    else
      var rest := s[1..];
      var t := Insert(x, rest, key);
      assert s == [s[0]] + rest;
      LowerBoundKept(key(s[0]), x, rest, t, key);
      [s[0]] + t
  }

  /** An order-respecting permutation of `s`; rows with equal keys keep
      their order in `s`. */
  function Sort<T(!new)>(s: seq<T>, key: T -> Key): (r: seq<T>)
    ensures SortedBy(r, key)
    ensures multiset(r) == multiset(s)
    ensures forall x :: x in r <==> x in s
  {
    if s == [] then []
    else
      assert s == [s[0]] + s[1..];
      var r := Insert(s[0], Sort(s[1..], key), key);
      assert forall x :: x in r <==> x in multiset(r);
      assert forall x :: x in s <==> x in multiset(s);
      r
  }

  /** The index of the first element of highest score. */
  function ArgMax<T(!new)>(s: seq<T>, score: T -> real): (r: nat)
    requires |s| > 0
    ensures r < |s|
    ensures forall j :: 0 <= j < |s| ==> score(s[j]) <= score(s[r])
    ensures forall x :: x in s ==> score(x) <= score(s[r])
  {
    if |s| == 1 then 0
    else
      var k := ArgMax(s[1..], score);
      assert forall j :: 1 <= j < |s| ==> s[j] == s[1..][j - 1];
      var r := if score(s[0]) >= score(s[k + 1]) then 0 else k + 1;
      assert forall x :: x in s ==> x == s[0] || x in s[1..];
      r
  }
}
