/** The three query shapes the handlers issue against their tables, on rows
    held in a sequence in insertion order: `findFirst`/`findUnique` (the first
    row matching a filter), `findFirst` with `orderBy: { … : 'desc' }` (the
    matching row with the greatest key) and `findMany` with a descending
    `orderBy`. */
module Tables {
  import opened Wrappers

  /** The position of the first row at or after `j` satisfying `p`, or -1. */
  function IndexFrom<T>(rows: seq<T>, p: T -> bool, j: nat): (k: int)
    requires j <= |rows|
    ensures k == -1 || j <= k < |rows|
    ensures k == -1 <==> forall i | j <= i < |rows| :: !p(rows[i])
    ensures k != -1 ==> p(rows[k]) && forall i | j <= i < k :: !p(rows[i])
    decreases |rows| - j
  {
    if j == |rows| then -1
    else if p(rows[j]) then j
    else IndexFrom(rows, p, j + 1)
  }

  /** The position of the first row satisfying `p`, or -1. */
  function IndexOf<T>(rows: seq<T>, p: T -> bool): (k: int)
    ensures -1 <= k < |rows|
    ensures k == -1 <==> forall i | 0 <= i < |rows| :: !p(rows[i])
    ensures k != -1 ==> p(rows[k]) && forall i | 0 <= i < k :: !p(rows[i])
  {
    IndexFrom(rows, p, 0)
  }

  /** The first row satisfying `p`. */
  function FindFirst<T>(rows: seq<T>, p: T -> bool): (r: Option<T>)
    ensures r.None? <==> forall i | 0 <= i < |rows| :: !p(rows[i])
    ensures r.Some? ==> r.value in rows && p(r.value)
  {
    var k := IndexOf(rows, p);
    if k == -1 then None else Some(rows[k])
  }

  /** Appending a row that matches nothing earlier makes it the row found. */
  lemma FindFirstAppended<T>(rows: seq<T>, p: T -> bool, x: T)
    requires p(x)
    requires forall i | 0 <= i < |rows| :: !p(rows[i])
    ensures FindFirst(rows + [x], p) == Some(x)
  {
    assert (rows + [x])[|rows|] == x;
    assert forall i | 0 <= i < |rows| :: (rows + [x])[i] == rows[i];
  }

  /** The row satisfying `p` with the greatest `key`; among rows with equal
      keys, the one inserted last. */
  function Latest<T>(rows: seq<T>, p: T -> bool, key: T -> int): (r: Option<T>)
    ensures r.None? <==> forall i | 0 <= i < |rows| :: !p(rows[i])
    ensures r.Some? ==> r.value in rows && p(r.value)
    ensures r.Some? ==> forall i | 0 <= i < |rows| :: p(rows[i]) ==> key(rows[i]) <= key(r.value)
  {
    if rows == [] then None
    else
      var init := rows[..|rows| - 1];
      var x := rows[|rows| - 1];
      assert rows == init + [x];
      var best := Latest(init, p, key);
      if !p(x) then best
      else if best.None? || key(best.value) <= key(x) then Some(x)
      else best
  }

  /** Appending a matching row whose key is greater than every earlier
      matching row's makes it the latest. */
  lemma LatestAppended<T>(rows: seq<T>, p: T -> bool, key: T -> int, x: T)
    requires p(x)
    requires forall i | 0 <= i < |rows| :: p(rows[i]) ==> key(rows[i]) < key(x)
    ensures Latest(rows + [x], p, key) == Some(x)
  {
    assert (rows + [x])[..|rows|] == rows;
  }

  /** Lexicographic "strictly greater" on (primary, secondary) sort keys. */
  predicate Above(a: (int, int), b: (int, int)) {
    a.0 > b.0 || (a.0 == b.0 && a.1 > b.1)
  }

  /** Descending order: no row ranks strictly above a row before it. */
  predicate SortedDesc<T>(s: seq<T>, key: T -> (int, int)) {
    forall i, j | 0 <= i < j < |s| :: !Above(key(s[j]), key(s[i]))
  }

  /** Putting `y` in front of a descending sequence keeps it descending when
      the old first row does not rank strictly above `y`. */
  lemma PrependSorted<T>(y: T, rest: seq<T>, key: T -> (int, int))
    requires SortedDesc(rest, key)
    requires rest == [] || !Above(key(rest[0]), key(y))
    ensures SortedDesc([y] + rest, key)
  {
    var r := [y] + rest;
    forall i, j | 0 <= i < j < |r|
      ensures !Above(key(r[j]), key(r[i]))
    {
      assert r[j] == rest[j - 1];
      if i == 0 && j > 1 {
        assert !Above(key(rest[j - 1]), key(rest[0]));
      } else if i > 0 {
        assert r[i] == rest[i - 1];
      }
    }
  }

  /** Places `x` into the descending sequence `s`, ahead of the rows that do
      not rank strictly above it. */
  function Insert<T>(x: T, s: seq<T>, key: T -> (int, int)): (r: seq<T>)
    requires SortedDesc(s, key)
    ensures SortedDesc(r, key)
    ensures multiset(r) == multiset(s) + multiset{x}
    ensures r[0] == x || (s != [] && r[0] == s[0])
  {
    if s == [] || !Above(key(s[0]), key(x)) then
      PrependSorted(x, s, key);
      [x] + s
    else
      assert s == [s[0]] + s[1..];
      var rest := Insert(x, s[1..], key);
      assert rest[0] == x || rest[0] == s[1];
      PrependSorted(s[0], rest, key);
      [s[0]] + rest
  }

  /** The rows of `s` in descending key order, as `orderBy: 'desc'` returns
      them; the order among equal keys is the database's and is left open by
      the source, here it is insertion order. */
  function SortDesc<T>(s: seq<T>, key: T -> (int, int)): (r: seq<T>)
    ensures SortedDesc(r, key)
    ensures multiset(r) == multiset(s)
  {
    if s == [] then []
    else
      assert s == [s[0]] + s[1..];
      Insert(s[0], SortDesc(s[1..], key), key)
  }

  /** The rows of `b` other than the one at `k`. */
  function Without<T>(b: seq<T>, k: nat): (r: seq<T>)
    requires k < |b|
    ensures |r| == |b| - 1
    ensures forall i | 0 <= i < |r| :: r[i] == if i < k then b[i] else b[i + 1]
    ensures multiset(r) == multiset(b) - multiset{b[k]}
  {
    assert b == b[..k] + [b[k]] + b[k + 1..];
    b[..k] + b[k + 1..]
  }

  /** Dropping one row removes exactly that row from the multiset. */
  lemma WithoutAdds<T>(b: seq<T>, k: nat)
    requires k < |b|
    ensures multiset(b) == multiset(Without(b, k)) + multiset{b[k]}
  {
    assert b[k] in multiset(b);
  }

  /** Where the first row of `a` sits in its permutation `b`; the rest of
      `a` is a permutation of `b` without that row. */
  lemma PermutedHead<T>(a: seq<T>, b: seq<T>) returns (k: nat)
    requires a != [] && multiset(a) == multiset(b)
    ensures k < |b| && b[k] == a[0]
    ensures multiset(a[1..]) == multiset(Without(b, k))
  {
    assert a[0] in multiset(b);
    assert a[0] in b;
    k :| 0 <= k < |b| && b[k] == a[0];
    assert a == [a[0]] + a[1..];
    WithoutAdds(b, k);
  }
}
