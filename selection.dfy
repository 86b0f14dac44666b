/**
 * NumPy boolean indexing (`xs[mask]`) and the element-wise operators the
 * chart combines its masks with.
 */
module Selection {
  import opened FloatModel

  /** `np.arange(n)` */
  function Arange(n: nat): (r: seq<int>)
    ensures |r| == n
    ensures forall i :: 0 <= i < n ==> r[i] == i
  {
    seq(n, i => i)
  }

  /** `xs[mask]`: the elements of `xs` whose mask entry is true, in order. */
  function Select<T>(xs: seq<T>, mask: seq<bool>): seq<T>
    requires |xs| == |mask|
    decreases |xs|
  {
    if |xs| == 0 then []
    else
      var n := |xs| - 1;
      Select(xs[..n], mask[..n]) + (if mask[n] then [xs[n]] else [])
  }

  lemma ArangePrefix(n: nat, i: nat)
    requires i <= n
    ensures Arange(n)[..i] == Arange(i)
  {
  }

  /** Every position `np.arange(n)[mask]` keeps is in range and marked. */
  lemma {:induction false} SelectedPositionsMarked(mask: seq<bool>)
    ensures forall k :: 0 <= k < |Select(Arange(|mask|), mask)| ==>
      0 <= Select(Arange(|mask|), mask)[k] < |mask| && mask[Select(Arange(|mask|), mask)[k]]
  {
    if |mask| > 0 {
      var n := |mask| - 1;
      var m := mask[..n];
      SelectedPositionsMarked(m);
      ArangePrefix(|mask|, n);
      var s, s' := Select(Arange(|mask|), mask), Select(Arange(n), m);
      assert forall k :: 0 <= k < |s'| ==> 0 <= s'[k] < n && m[s'[k]];
      assert s == s' + (if mask[n] then [n] else []);
    }
  }

  /** Every marked position is kept by `np.arange(n)[mask]`. */
  lemma {:induction false} SelectedPositionsComplete(mask: seq<bool>)
    ensures forall i :: 0 <= i < |mask| && mask[i] ==> i in Select(Arange(|mask|), mask)
  {
    if |mask| > 0 {
      var n := |mask| - 1;
      var m := mask[..n];
      SelectedPositionsComplete(m);
      ArangePrefix(|mask|, n);
      var s, s' := Select(Arange(|mask|), mask), Select(Arange(n), m);
      assert s == s' + (if mask[n] then [n] else []);
      forall i | 0 <= i < |mask| && mask[i]
        ensures i in s
      {
        if i < n {
          assert m[i];
          assert i in s';
        } else {
          assert s[|s| - 1] == n;
        }
      }
    }
  }

  /** `np.arange(n)[mask]` is strictly increasing. */
  lemma {:induction false} SelectedPositionsIncreasing(mask: seq<bool>)
    ensures forall j, k :: 0 <= j < k < |Select(Arange(|mask|), mask)| ==>
      Select(Arange(|mask|), mask)[j] < Select(Arange(|mask|), mask)[k]
  {
    if |mask| > 0 {
      var n := |mask| - 1;
      var m := mask[..n];
      SelectedPositionsIncreasing(m);
      SelectedPositionsMarked(m);
      ArangePrefix(|mask|, n);
      var s, s' := Select(Arange(|mask|), mask), Select(Arange(n), m);
      assert forall k :: 0 <= k < |s'| ==> s'[k] < n;
      assert forall j, k :: 0 <= j < k < |s'| ==> s'[j] < s'[k];
      assert s == s' + (if mask[n] then [n] else []);
    }
  }

  /**
   * The selected positions `np.arange(n)[mask]` are exactly the positions
   * whose mask entry is true, in strictly increasing order.
   */
  lemma SelectedPositions(mask: seq<bool>)
    ensures var s := Select(Arange(|mask|), mask);
      && (forall k :: 0 <= k < |s| ==> 0 <= s[k] < |mask| && mask[s[k]])
      && (forall i :: 0 <= i < |mask| && mask[i] ==> i in s)
      && (forall j, k :: 0 <= j < k < |s| ==> s[j] < s[k])
  {
    SelectedPositionsMarked(mask);
    SelectedPositionsComplete(mask);
    SelectedPositionsIncreasing(mask);
  }

  /**
   * Selecting with the same mask from two columns keeps them aligned:
   * the k-th selected element of `xs` sits at the k-th selected position.
   */
  lemma {:induction false} SelectAt<T>(xs: seq<T>, mask: seq<bool>)
    requires |xs| == |mask|
    ensures |Select(xs, mask)| == |Select(Arange(|mask|), mask)|
    ensures forall k :: 0 <= k < |Select(Arange(|mask|), mask)| ==>
      0 <= Select(Arange(|mask|), mask)[k] < |xs| &&
      Select(xs, mask)[k] == xs[Select(Arange(|mask|), mask)[k]]
  {
    SelectedPositionsMarked(mask);
    if |xs| > 0 {
      var n := |xs| - 1;
      var ys, m := xs[..n], mask[..n];
      ArangePrefix(|mask|, n);
      SelectAt(ys, m);
      SelectedPositionsMarked(m);
      var s, s' := Select(Arange(|mask|), mask), Select(Arange(n), m);
      var t, t' := Select(xs, mask), Select(ys, m);
      assert s == s' + (if mask[n] then [n] else []);
      assert t == t' + (if mask[n] then [xs[n]] else []);
      assert |t'| == |s'|;
      forall k | 0 <= k < |s|
        ensures t[k] == xs[s[k]]
      {
        if k < |s'| {
          assert t[k] == t'[k] == ys[s'[k]];
        }
      }
    }
  }

  /** A strictly increasing sequence of integers spreads over at least its length. */
  lemma {:induction false} IncreasingSpan(s: seq<int>)
    requires |s| > 0
    requires forall j, k :: 0 <= j < k < |s| ==> s[j] < s[k]
    ensures s[|s| - 1] - s[0] >= |s| - 1
  {
    if |s| > 1 {
      IncreasingSpan(s[..|s| - 1]);
    }
  }

  /** Selecting with an all-true mask keeps everything. */
  lemma {:induction false} SelectAll<T>(xs: seq<T>, mask: seq<bool>)
    requires |xs| == |mask|
    requires forall i :: 0 <= i < |mask| ==> mask[i]
    ensures Select(xs, mask) == xs
  {
    if |xs| > 0 {
      var n := |xs| - 1;
      SelectAll(xs[..n], mask[..n]);
      assert xs[..n] + [xs[n]] == xs;
    }
  }

  /** `a & b` on boolean arrays. */
  function And(a: seq<bool>, b: seq<bool>): (r: seq<bool>)
    requires |a| == |b|
    ensures |r| == |a|
  {
    seq(|a|, i requires 0 <= i < |a| => a[i] && b[i])
  }

  /** `~np.isnan(v)` */
  function NotNaN(v: seq<Value>): (r: seq<bool>)
    ensures |r| == |v|
  {
    seq(|v|, i requires 0 <= i < |v| => !IsNaN(v[i]))
  }

  /** `v != c` on a float array. */
  function NotEqualTo(v: seq<Value>, c: real): (r: seq<bool>)
    ensures |r| == |v|
  {
    seq(|v|, i requires 0 <= i < |v| => NotEqual(v[i], c))
  }

  /** `a < b` on float arrays. */
  function LessThan(a: seq<Value>, b: seq<Value>): (r: seq<bool>)
    requires |a| == |b|
    ensures |r| == |a|
  {
    seq(|a|, i requires 0 <= i < |a| => Less(a[i], b[i]))
  }

  /** `a > b` on float arrays. */
  function GreaterThan(a: seq<Value>, b: seq<Value>): (r: seq<bool>)
    requires |a| == |b|
    ensures |r| == |a|
  {
    seq(|a|, i requires 0 <= i < |a| => Greater(a[i], b[i]))
  }
}
