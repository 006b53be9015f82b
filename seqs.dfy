/**
 * The collection operations the database performs on a table: keep the rows
 * that satisfy a condition (a `where` clause), add up one column of them (a
 * `sum`), and find the row with a given primary key.
 */
module Seqs {
  import opened Wrappers

  /** The rows of `s` that satisfy `keep`, in their original order. */
  function Filter<T>(s: seq<T>, keep: T -> bool): (r: seq<T>)
    ensures |r| <= |s|
    decreases |s|
  {
    if s == [] then []
    else
      var last := s[|s| - 1];
      assert s == s[..|s| - 1] + [last];
      Filter(s[..|s| - 1], keep) + (if keep(last) then [last] else [])
  }

  /** `Filter` keeps exactly the rows that satisfy the condition: each kept row is a row of `s`. */
  lemma {:induction false} FilterMembers<T>(s: seq<T>, keep: T -> bool)
    ensures forall i :: 0 <= i < |Filter(s, keep)| ==> Filter(s, keep)[i] in s && keep(Filter(s, keep)[i])
    ensures forall i :: 0 <= i < |s| && keep(s[i]) ==> s[i] in Filter(s, keep)
    decreases |s|
  {
    if s != [] {
      var p, last := s[..|s| - 1], s[|s| - 1];
      FilterMembers(p, keep);
      var r, fp := Filter(s, keep), Filter(p, keep);
      assert r == fp + (if keep(last) then [last] else []);
      forall i | 0 <= i < |r| ensures r[i] in s && keep(r[i]) {
        if i < |fp| {
          assert r[i] == fp[i] && fp[i] in p;
        }
      }
      forall i | 0 <= i < |s| && keep(s[i]) ensures s[i] in r {
        if i < |p| {
          assert s[i] == p[i] && p[i] in fp;
        }
      }
    }
  }

  /** The sum of column `f` over the rows of `s`. */
  function SumBy<T>(s: seq<T>, f: T -> int): int
    decreases |s|
  {
    if s == [] then 0 else SumBy(s[..|s| - 1], f) + f(s[|s| - 1])
  }

  /**
   * The position of the first row whose key is `id`, or None when no row has
   * that key.
   */
  function IndexOf<T>(s: seq<T>, key: T -> nat, id: nat): (r: Option<nat>)
    ensures r.Some? ==> r.value < |s| && key(s[r.value]) == id
    ensures r.Some? ==> forall i :: 0 <= i < r.value ==> key(s[i]) != id
    ensures r.None? <==> forall i :: 0 <= i < |s| ==> key(s[i]) != id
    decreases |s|
  {
    if s == [] then None
    else if key(s[0]) == id then Some(0)
    else
      match IndexOf(s[1..], key, id)
      case None => None
      case Some(j) => Some(j + 1)
  }

  /** The position `IndexOf` reports for a key that is present, with the element it names. */
  lemma Found<T>(s: seq<T>, key: T -> nat, id: nat) returns (k: nat)
    requires IndexOf(s, key, id).Some?
    ensures k == IndexOf(s, key, id).value
    ensures k < |s| && key(s[k]) == id
  {
    k := IndexOf(s, key, id).value;
  }

  /** Keys strictly increase along the table and stay below `bound`. */
  ghost predicate KeysBelow<T>(s: seq<T>, key: T -> nat, bound: nat) {
    && (forall i, j :: 0 <= i < j < |s| ==> key(s[i]) < key(s[j]))
    && (forall i :: 0 <= i < |s| ==> key(s[i]) < bound)
  }

  lemma {:induction false} FilterAppend<T>(a: seq<T>, b: seq<T>, keep: T -> bool)
    ensures Filter(a + b, keep) == Filter(a, keep) + Filter(b, keep)
    decreases |b|
  {
    if b == [] {
      assert a + b == a;
    } else {
      var b' := b[..|b| - 1];
      assert (a + b)[..|a + b| - 1] == a + b';
      FilterAppend(a, b', keep);
    }
  }

  lemma {:induction false} SumByAppend<T>(a: seq<T>, b: seq<T>, f: T -> int)
    ensures SumBy(a + b, f) == SumBy(a, f) + SumBy(b, f)
    decreases |b|
  {
    if b == [] {
      assert a + b == a;
    } else {
      var b' := b[..|b| - 1];
      assert (a + b)[..|a + b| - 1] == a + b';
      SumByAppend(a, b', f);
    }
  }

  /** Adding one row adds its value to the column sum. */
  lemma SumBySnoc<T>(s: seq<T>, x: T, f: T -> int)
    ensures SumBy(s + [x], f) == SumBy(s, f) + f(x)
  {
    assert (s + [x])[..|s|] == s;
  }

  /** A filter that keeps every row returns the table itself. */
  lemma {:induction false} FilterKeepsAll<T>(s: seq<T>, keep: T -> bool)
    requires forall i :: 0 <= i < |s| ==> keep(s[i])
    ensures Filter(s, keep) == s
    decreases |s|
  {
    if s != [] {
      FilterKeepsAll(s[..|s| - 1], keep);
      assert s == s[..|s| - 1] + [s[|s| - 1]];
    }
  }

  /** A filter that keeps no row returns nothing. */
  lemma FilterKeepsNone<T>(s: seq<T>, keep: T -> bool)
    requires forall i :: 0 <= i < |s| ==> !keep(s[i])
    ensures Filter(s, keep) == []
  {
  }

  /** Filtering twice, the second condition implying the first, is filtering once. */
  lemma {:induction false} FilterOfFilter<T>(s: seq<T>, outer: T -> bool, inner: T -> bool)
    requires forall x :: inner(x) ==> outer(x)
    ensures Filter(Filter(s, outer), inner) == Filter(s, inner)
    decreases |s|
  {
    if s != [] {
      var p := s[..|s| - 1];
      var last := s[|s| - 1];
      FilterOfFilter(p, outer, inner);
      FilterAppend(Filter(p, outer), if outer(last) then [last] else [], inner);
      if outer(last) {
        assert [last][..0] == [];
      }
    }
  }

  /** Filtering keeps keys increasing and below their bound. */
  lemma {:induction false} FilterKeepsKeysBelow<T>(s: seq<T>, keep: T -> bool, key: T -> nat, bound: nat)
    requires KeysBelow(s, key, bound)
    ensures KeysBelow(Filter(s, keep), key, bound)
    decreases |s|
  {
    if s != [] {
      var p := s[..|s| - 1];
      var last := s[|s| - 1];
      assert KeysBelow(p, key, bound) by {
        assert forall i :: 0 <= i < |p| ==> p[i] == s[i];
      }
      FilterKeepsKeysBelow(p, keep, key, bound);
      var fp := Filter(p, keep);
      FilterMembers(p, keep);
      forall i | 0 <= i < |fp| ensures key(fp[i]) < key(last) {
        var j :| 0 <= j < |p| && p[j] == fp[i];
        assert s[j] == p[j];
      }
      if keep(last) {
        assert Filter(s, keep) == fp + [last];
        KeysBelowAppend(fp, last, key, bound);
      } else {
        assert Filter(s, keep) == fp;
      }
    }
  }

  /** A row whose key is above every key of the table and below the bound can be appended. */
  lemma KeysBelowAppend<T>(s: seq<T>, x: T, key: T -> nat, bound: nat)
    requires KeysBelow(s, key, bound) && key(x) < bound
    requires forall i :: 0 <= i < |s| ==> key(s[i]) < key(x)
    ensures KeysBelow(s + [x], key, bound)
  {
    var r := s + [x];
    forall i, j | 0 <= i < j < |r| ensures key(r[i]) < key(r[j]) {
      if j < |s| {
        assert r[i] == s[i] && r[j] == s[j];
      } else {
        assert r[i] == s[i] && r[j] == x;
      }
    }
  }

  /** Every row contributes at least one, so the sum is at least the row count. */
  lemma {:induction false} SumByAtLeastLength<T>(s: seq<T>, f: T -> int)
    requires forall i :: 0 <= i < |s| ==> f(s[i]) >= 1
    ensures SumBy(s, f) >= |s|
    ensures SumBy(s, f) == |s| <==> forall i :: 0 <= i < |s| ==> f(s[i]) == 1
    decreases |s|
  {
    if s != [] {
      var p := s[..|s| - 1];
      SumByAtLeastLength(p, f);
      assert forall i :: 0 <= i < |p| ==> p[i] == s[i];
    }
  }

  /** The column sum over filtered rows, with one row `x` taken out of the middle. */
  lemma SumByFilterSplit<T>(a: seq<T>, x: T, b: seq<T>, keep: T -> bool, f: T -> int)
    ensures SumBy(Filter(a + [x] + b, keep), f)
         == SumBy(Filter(a + b, keep), f) + (if keep(x) then f(x) else 0)
  {
    var fa, fx, fb := Filter(a, keep), Filter([x], keep), Filter(b, keep);
    FilterAppend(a + [x], b, keep);
    FilterAppend(a, [x], keep);
    FilterAppend(a, b, keep);
    OneRow(x, keep, f);
    SumByAppend(fa + fx, fb, f);
    SumByAppend(fa, fx, f);
    SumByAppend(fa, fb, f);
  }

  /**
   * Replacing the row at position `k` changes the column sum over the filtered
   * rows by the replaced row's and the new row's contributions.
   */
  lemma SumByFilterUpdate<T>(s: seq<T>, k: nat, x: T, keep: T -> bool, f: T -> int)
    requires k < |s|
    ensures SumBy(Filter(s[k := x], keep), f)
         == SumBy(Filter(s, keep), f)
          - (if keep(s[k]) then f(s[k]) else 0)
          + (if keep(x) then f(x) else 0)
  {
    SplitAt(s, k);
    SplitAt(s[k := x], k);
    assert s[k := x][..k] == s[..k] && s[k := x][k + 1..] == s[k + 1..];
    SumByFilterSplit(s[..k], s[k], s[k + 1..], keep, f);
    SumByFilterSplit(s[..k], x, s[k + 1..], keep, f);
  }

  /** Removing the row at position `k` takes its contribution out of the sum. */
  lemma SumByFilterRemove<T>(s: seq<T>, k: nat, keep: T -> bool, f: T -> int)
    requires k < |s|
    ensures SumBy(Filter(s[..k] + s[k + 1..], keep), f)
         == SumBy(Filter(s, keep), f) - (if keep(s[k]) then f(s[k]) else 0)
  {
    SplitAt(s, k);
    SumByFilterSplit(s[..k], s[k], s[k + 1..], keep, f);
  }

  /** A table is the rows before position `k`, the row at `k`, and the rows after it. */
  lemma SplitAt<T>(s: seq<T>, k: nat)
    requires k < |s|
    ensures s == s[..k] + [s[k]] + s[k + 1..]
  {
  }

  lemma OneRow<T>(x: T, keep: T -> bool, f: T -> int)
    ensures Filter([x], keep) == if keep(x) then [x] else []
    ensures SumBy(Filter([x], keep), f) == if keep(x) then f(x) else 0
  {
    assert [x][..0] == [];
    if keep(x) {
      assert SumBy([x], f) == SumBy([x][..0], f) + f(x);
    }
  }

  /** Under strictly increasing keys a key names at most one row. */
  lemma KeyNamesOneRow<T>(s: seq<T>, key: T -> nat, bound: nat, a: nat, b: nat)
    requires KeysBelow(s, key, bound)
    requires a < |s| && b < |s| && key(s[a]) == key(s[b])
    ensures a == b
  {
  }

  /** Under strictly increasing keys two different rows have different keys. */
  lemma KeysDiffer<T>(s: seq<T>, key: T -> nat, bound: nat, a: nat, b: nat)
    requires KeysBelow(s, key, bound)
    requires a < |s| && b < |s| && a != b
    ensures key(s[a]) != key(s[b])
  {
    if a < b {
      assert key(s[a]) < key(s[b]);
    } else {
      assert key(s[b]) < key(s[a]);
    }
  }

  /** Replacing a row by one with the same key keeps the keys in order. */
  lemma KeysBelowUpdate<T>(s: seq<T>, k: nat, x: T, key: T -> nat, bound: nat)
    requires KeysBelow(s, key, bound) && k < |s| && key(x) == key(s[k])
    ensures KeysBelow(s[k := x], key, bound)
  {
    var s' := s[k := x];
    forall i, j | 0 <= i < j < |s'| ensures key(s'[i]) < key(s'[j]) {
      assert key(s'[i]) == key(s[i]) && key(s'[j]) == key(s[j]);
    }
  }

  /** Removing a row keeps the keys in order. */
  lemma KeysBelowRemove<T>(s: seq<T>, k: nat, key: T -> nat, bound: nat)
    requires KeysBelow(s, key, bound) && k < |s|
    ensures KeysBelow(s[..k] + s[k + 1..], key, bound)
  {
    var s' := s[..k] + s[k + 1..];
    forall i, j | 0 <= i < j < |s'| ensures key(s'[i]) < key(s'[j]) {
      var i0 := if i < k then i else i + 1;
      var j0 := if j < k then j else j + 1;
      assert s'[i] == s[i0] && s'[j] == s[j0];
    }
  }

  /**
   * Under strictly increasing keys, removing row `k` removes exactly the
   * rows with its key and keeps every other row.
   */
  lemma RemoveKeepsOthers<T>(s: seq<T>, k: nat, key: T -> nat, bound: nat, x: T)
    requires KeysBelow(s, key, bound) && k < |s|
    ensures x in s[..k] + s[k + 1..] ==> x in s
    ensures x in s ==> (x in s[..k] + s[k + 1..] <==> key(x) != key(s[k]))
  {
    var s' := s[..k] + s[k + 1..];
    forall j' | 0 <= j' < |s'| ensures s'[j'] in s && key(s'[j']) != key(s[k]) {
      var j0 := if j' < k then j' else j' + 1;
      assert s'[j'] == s[j0];
    }
    if x in s && key(x) != key(s[k]) {
      var j :| 0 <= j < |s| && s[j] == x;
      if j < k {
        assert s'[j] == x;
      } else {
        assert s'[j - 1] == x;
      }
    }
  }
}
