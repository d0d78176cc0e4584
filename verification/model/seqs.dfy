/**
 * Sequence helpers used by every list in the model: JavaScript's
 * `Array.prototype.filter` and `reduce`, index-based removal, and sums of
 * money over rows (Django's `Sum` aggregate).
 */
module Seqs {

  /** `xs` can be obtained from `ys` by deleting elements, keeping the order. */
  ghost predicate IsSubsequence<T>(xs: seq<T>, ys: seq<T>)
    decreases |ys|
  {
    if xs == [] then true
    else if ys == [] then false
    else if xs[0] == ys[0] then IsSubsequence(xs[1..], ys[1..])
    else IsSubsequence(xs, ys[1..])
  }

  lemma {:induction false} SubsequenceRefl<T>(s: seq<T>)
    ensures IsSubsequence(s, s)
  {
    if s != [] {
      SubsequenceRefl(s[1..]);
    }
  }

  /** `s.filter(p)`: the elements that satisfy `p`, in their original order. */
  function Filter<T>(s: seq<T>, p: T -> bool): (r: seq<T>)
    ensures |r| <= |s|
    ensures forall x :: x in r ==> x in s && p(x)
  {
    if s == [] then []
    else if p(s[0]) then [s[0]] + Filter(s[1..], p)
    else Filter(s[1..], p)
  }

  lemma {:induction false} FilterKeepsExactly<T>(s: seq<T>, p: T -> bool, x: T)
    ensures x in Filter(s, p) <==> x in s && p(x)
  {
    if s != [] {
      FilterKeepsExactly(s[1..], p, x);
      assert s == [s[0]] + s[1..];
    }
  }

  lemma {:induction false} FilterIsSubsequence<T>(s: seq<T>, p: T -> bool)
    ensures IsSubsequence(Filter(s, p), s)
  {
    if s != [] {
      FilterIsSubsequence(s[1..], p);
      var r := Filter(s[1..], p);
      if p(s[0]) {
        assert Filter(s, p) == [s[0]] + r;
        assert ([s[0]] + r)[1..] == r;
      } else {
        SkipHead(Filter(s, p), s);
      }
    }
  }

  /** Skipping the head of the longer sequence keeps a subsequence relation. */
  lemma {:induction false} SkipHead<T>(xs: seq<T>, ys: seq<T>)
    requires ys != [] && IsSubsequence(xs, ys[1..])
    ensures IsSubsequence(xs, ys)
    decreases |ys|, |xs|
  {
    if xs != [] && xs[0] == ys[0] {
      SubsequenceDropHead(xs, ys[1..]);
    }
  }

  /** Dropping the head of the shorter sequence keeps a subsequence relation. */
  lemma {:induction false} SubsequenceDropHead<T>(xs: seq<T>, ys: seq<T>)
    requires xs != [] && IsSubsequence(xs, ys)
    ensures IsSubsequence(xs[1..], ys)
    decreases |ys|, |xs|
  {
    if xs[0] == ys[0] {
      SkipHead(xs[1..], ys);
    } else {
      SubsequenceDropHead(xs, ys[1..]);
      SkipHead(xs[1..], ys);
    }
  }

  /** A filter that every element passes returns the whole sequence. */
  lemma {:induction false} FilterAllPass<T>(s: seq<T>, p: T -> bool)
    requires forall x :: x in s ==> p(x)
    ensures Filter(s, p) == s
  {
    if s != [] {
      FilterAllPass(s[1..], p);
      assert s == [s[0]] + s[1..];
    }
  }

  /** A filter that no element passes returns the empty sequence. */
  lemma {:induction false} FilterNonePass<T>(s: seq<T>, p: T -> bool)
    requires forall x :: x in s ==> !p(x)
    ensures Filter(s, p) == []
  {
    if s != [] {
      FilterNonePass(s[1..], p);
    }
  }

  /** A filter that only the last element fails drops just that element. */
  lemma {:induction false} FilterDropLast<T>(s: seq<T>, p: T -> bool)
    requires |s| > 0 && !p(s[|s| - 1])
    requires forall i :: 0 <= i < |s| - 1 ==> p(s[i])
    ensures Filter(s, p) == s[..|s| - 1]
  {
    if |s| > 1 {
      FilterDropLast(s[1..], p);
      assert s[1..][..|s| - 2] == s[1..|s| - 1];
      assert s[..|s| - 1] == [s[0]] + s[1..|s| - 1];
    }
  }

  /** Filtering a two-element sequence, written out. */
  lemma FilterPair<T>(a: T, b: T, p: T -> bool)
    ensures Filter([a, b], p) == (if p(a) then [a] else []) + (if p(b) then [b] else [])
  {
    assert [a, b][1..] == [b];
    assert [b][1..] == [];
    assert Filter([b], p) == (if p(b) then [b] else []) + Filter([], p);
  }

  lemma {:induction false} FilterAppend<T>(a: seq<T>, b: seq<T>, p: T -> bool)
    ensures Filter(a + b, p) == Filter(a, p) + Filter(b, p)
  {
    if a == [] {
      assert a + b == b;
    } else {
      var ab := a + b;
      assert ab[0] == a[0] && ab[1..] == a[1..] + b;
      FilterAppend(a[1..], b, p);
      if p(a[0]) {
        assert Filter(ab, p) == [a[0]] + (Filter(a[1..], p) + Filter(b, p));
      }
    }
  }

  /** The position of the first element satisfying `p`, or -1: `findIndex`, and a primary-key lookup. */
  function FindIndex<T>(s: seq<T>, p: T -> bool): (k: int)
    ensures -1 <= k < |s|
    ensures k == -1 <==> forall i :: 0 <= i < |s| ==> !p(s[i])
    ensures 0 <= k ==> p(s[k]) && forall i :: 0 <= i < k ==> !p(s[i])
  {
    if s == [] then -1
    else if p(s[0]) then 0
    else
      var k := FindIndex(s[1..], p);
      if k < 0 then -1 else k + 1
  }

  /** Saving a row: it replaces the first row `same` picks out, or is appended when there is none. */
  function Put<T>(rows: seq<T>, same: T -> bool, row: T): (r: seq<T>)
    ensures FindIndex(rows, same) >= 0 ==> r == rows[FindIndex(rows, same) := row]
    ensures FindIndex(rows, same) < 0 ==> r == rows + [row]
    ensures forall x :: x in r ==> x in rows || x == row
  {
    var k := FindIndex(rows, same);
    if k >= 0 then rows[k := row] else rows + [row]
  }

  /** Saving the same row twice leaves what the second save wrote. */
  lemma PutTwice<T>(rows: seq<T>, same: T -> bool, a: T, b: T)
    requires same(a) && same(b)
    ensures Put(Put(rows, same, a), same, b) == Put(rows, same, b)
  {
    var k := FindIndex(rows, same);
    var once := Put(rows, same, a);
    if k >= 0 {
      assert forall i :: 0 <= i < k ==> once[i] == rows[i] && !same(once[i]);
      assert same(once[k]);
      assert FindIndex(once, same) == k;
    } else {
      assert forall i :: 0 <= i < |rows| ==> once[i] == rows[i] && !same(once[i]);
      assert same(once[|rows|]);
      assert FindIndex(once, same) == |rows|;
      assert once[|rows| := b] == rows + [b];
    }
  }

  /** The first position satisfying `p` is `k` when `s[k]` does and no earlier element does. */
  lemma {:induction false} FindIndexIs<T>(s: seq<T>, p: T -> bool, k: nat)
    requires k < |s| && p(s[k])
    requires forall i :: 0 <= i < k ==> !p(s[i])
    ensures FindIndex(s, p) == k
  {
    if k > 0 {
      assert !p(s[0]);
      assert forall i :: 0 <= i < k - 1 ==> s[1..][i] == s[i + 1];
      FindIndexIs(s[1..], p, k - 1);
    }
  }

  /** After a save, the row just written is the first one `same` picks out. */
  lemma PutFinds<T>(rows: seq<T>, same: T -> bool, row: T)
    requires same(row)
    ensures FindIndex(Put(rows, same, row), same) == if FindIndex(rows, same) >= 0 then FindIndex(rows, same) else |rows|
  {
    var k := FindIndex(rows, same);
    if k >= 0 {
      PutFindsExisting(rows, same, row, k);
    } else {
      PutFindsAppended(rows, same, row);
    }
  }

  lemma PutFindsExisting<T>(rows: seq<T>, same: T -> bool, row: T, k: nat)
    requires same(row) && k == FindIndex(rows, same)
    ensures FindIndex(rows[k := row], same) == k
  {
    var after := rows[k := row];
    assert forall i :: 0 <= i < k ==> after[i] == rows[i];
    FindIndexIs(after, same, k);
  }

  lemma PutFindsAppended<T>(rows: seq<T>, same: T -> bool, row: T)
    requires same(row) && FindIndex(rows, same) < 0
    ensures FindIndex(rows + [row], same) == |rows|
  {
    var after := rows + [row];
    assert forall i :: 0 <= i < |rows| ==> after[i] == rows[i];
    FindIndexIs(after, same, |rows|);
  }

  /** Saving over the last row, when it is the only one `same` picks out, replaces that row. */
  lemma PutLast<T>(rows: seq<T>, same: T -> bool, row: T)
    requires |rows| > 0 && same(rows[|rows| - 1])
    requires forall i :: 0 <= i < |rows| - 1 ==> !same(rows[i])
    ensures Put(rows, same, row) == rows[..|rows| - 1] + [row]
  {
    FindIndexIs(rows, same, |rows| - 1);
    assert rows[|rows| - 1 := row] == rows[..|rows| - 1] + [row];
  }

  /** `s.filter((_, i) => i !== index)`: every position except `index`. */
  function DropIndex<T>(s: seq<T>, index: int): (r: seq<T>)
    ensures 0 <= index < |s| ==> r == s[..index] + s[index + 1..]
    ensures !(0 <= index < |s|) ==> r == s
  {
    if s == [] then []
    else if index == 0 then s[1..]
    else [s[0]] + DropIndex(s[1..], index - 1)
  }

  /** The sum of `f` over `s`. */
  function SumOf<T>(s: seq<T>, f: T -> real): real
  {
    if s == [] then 0.0 else f(s[0]) + SumOf(s[1..], f)
  }

  /** `s.reduce((acc, x) => acc + f(x), acc)`: a left fold that adds `f` of each element. */
  function FoldSum<T>(s: seq<T>, acc: real, f: T -> real): real
  {
    if s == [] then acc else FoldSum(s[1..], acc + f(s[0]), f)
  }

  lemma {:induction false} FoldSumIsSum<T>(s: seq<T>, acc: real, f: T -> real)
    ensures FoldSum(s, acc, f) == acc + SumOf(s, f)
  {
    if s != [] {
      FoldSumIsSum(s[1..], acc + f(s[0]), f);
    }
  }

  lemma {:induction false} SumOfAppend<T>(a: seq<T>, b: seq<T>, f: T -> real)
    ensures SumOf(a + b, f) == SumOf(a, f) + SumOf(b, f)
  {
    if a == [] {
      assert a + b == b;
    } else {
      SumOfAppend(a[1..], b, f);
      assert (a + b)[1..] == a[1..] + b;
    }
  }

  lemma {:induction false} SumOfNonNegative<T>(s: seq<T>, f: T -> real)
    requires forall x :: x in s ==> f(x) >= 0.0
    ensures SumOf(s, f) >= 0.0
  {
    if s != [] {
      SumOfNonNegative(s[1..], f);
    }
  }

  /** Taking one element out of a sum. */
  lemma SumOfRemove<T>(s: seq<T>, j: nat, f: T -> real)
    requires j < |s|
    ensures SumOf(s, f) == f(s[j]) + SumOf(s[..j] + s[j + 1..], f)
  {
    assert s == s[..j] + s[j..];
    SumOfAppend(s[..j], s[j..], f);
    assert s[j..][0] == s[j] && s[j..][1..] == s[j + 1..];
    SumOfAppend(s[..j], s[j + 1..], f);
  }

  /** A sum does not depend on the order of the summed elements. */
  lemma {:induction false} SumOfPermutation<T>(a: seq<T>, b: seq<T>, f: T -> real)
    requires multiset(a) == multiset(b)
    ensures SumOf(a, f) == SumOf(b, f)
    decreases |a|
  {
    if a == [] {
      assert |b| == |multiset(b)| == 0;
    } else {
      var x := a[0];
      assert x in multiset(b);
      var j :| 0 <= j < |b| && b[j] == x;
      var rest := b[..j] + b[j + 1..];
      SumOfRemove(b, j, f);
      assert b == b[..j] + [b[j]] + b[j + 1..];
      assert multiset(b) == multiset(b[..j]) + multiset{x} + multiset(b[j + 1..]);
      assert multiset(rest) == multiset(b[..j]) + multiset(b[j + 1..]);
      assert a == [x] + a[1..];
      assert multiset(a) == multiset{x} + multiset(a[1..]);
      assert multiset(a[1..]) == multiset(a) - multiset{x};
      assert multiset(rest) == multiset(b) - multiset{x};
      SumOfPermutation(a[1..], rest, f);
    }
  }

  /** `x => if p(x) then f(x) else 0`: `f` restricted to the elements that satisfy `p`. */
  function Masked<T>(f: T -> real, p: T -> bool): T -> real
  {
    x => if p(x) then f(x) else 0.0
  }

  /** Summing a masked value is summing over the filtered sequence. */
  lemma {:induction false} SumOfMasked<T>(s: seq<T>, f: T -> real, p: T -> bool)
    ensures SumOf(s, Masked(f, p)) == SumOf(Filter(s, p), f)
  {
    if s != [] {
      SumOfMasked(s[1..], f, p);
    }
  }
}
