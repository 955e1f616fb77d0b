/** The JavaScript `Array.prototype` operations the application relies on
    (`filter`, `find`, `reduce` with `+`), as functions on sequences, with
    independent reference definitions and the lemmas that connect them. */
module JsArrays {
  import opened Wrappers

  /** `r` is obtained from `s` by deleting elements, keeping the order of
      the rest. */
  ghost predicate IsSubsequence<T>(r: seq<T>, s: seq<T>)
    decreases |s|
  {
    if r == [] then true
    else if s == [] then false
    else (r[0] == s[0] && IsSubsequence(r[1..], s[1..])) || IsSubsequence(r, s[1..])
  }

  lemma {:induction false} SubsequenceRefl<T>(s: seq<T>)
    ensures IsSubsequence(s, s)
    decreases |s|
  {
    if s != [] {
      SubsequenceRefl(s[1..]);
    }
  }

  lemma {:induction false} SubsequenceCons<T>(x: T, r: seq<T>, s: seq<T>)
    requires IsSubsequence(r, s)
    ensures IsSubsequence(r, [x] + s) && IsSubsequence([x] + r, [x] + s)
  {
    assert ([x] + s)[1..] == s;
    assert ([x] + r)[1..] == r;
  }

  /** A subsequence is never longer than the sequence it is taken from. */
  lemma {:induction false} SubsequenceLength<T>(r: seq<T>, s: seq<T>)
    requires IsSubsequence(r, s)
    ensures |r| <= |s|
    decreases |s|
  {
    if r != [] {
      if r[0] == s[0] && IsSubsequence(r[1..], s[1..]) {
        SubsequenceLength(r[1..], s[1..]);
      } else {
        SubsequenceLength(r, s[1..]);
      }
    }
  }

  /** `s.filter(keep)`: the elements of `s` for which `keep` holds, in order. */
  function Filter<T>(s: seq<T>, keep: T -> bool): (r: seq<T>)
    ensures forall i :: 0 <= i < |r| ==> r[i] in s && keep(r[i])
    ensures forall i :: 0 <= i < |s| && keep(s[i]) ==> s[i] in r
    ensures IsSubsequence(r, s)
    ensures (forall i :: 0 <= i < |s| ==> keep(s[i])) ==> r == s
    ensures |r| == CountIf(s, keep)
    decreases |s|
  {
    if s == [] then []
    else
      var rest := Filter(s[1..], keep);
      SubsequenceCons(s[0], rest, s[1..]);
      assert s == [s[0]] + s[1..];
      if keep(s[0]) then [s[0]] + rest else rest
  }

  /** `filter` decides on the first element and then goes on with the rest. */
  lemma FilterCons<T>(s: seq<T>, keep: T -> bool)
    requires s != []
    ensures Filter(s, keep) == (if keep(s[0]) then [s[0]] else []) + Filter(s[1..], keep)
  {
  }

  /** Filtering distributes over concatenation: `filter` processes the
      elements one by one, left to right. */
  lemma {:induction false} FilterAppend<T>(a: seq<T>, b: seq<T>, keep: T -> bool)
    ensures Filter(a + b, keep) == Filter(a, keep) + Filter(b, keep)
    decreases |a|
  {
    if a == [] {
      assert a + b == b;
    } else {
      assert (a + b)[0] == a[0];
      assert (a + b)[1..] == a[1..] + b;
      FilterAppend(a[1..], b, keep);
    }
  }

  /** The number of elements `keep` accepts. */
  function CountIf<T>(s: seq<T>, keep: T -> bool): nat
    decreases |s|
  {
    if s == [] then 0 else (if keep(s[0]) then 1 else 0) + CountIf(s[1..], keep)
  }

  /** A subsequence made only of accepted elements has at most as many
      elements as `keep` accepts. */
  lemma {:induction false} KeptSubsequenceLength<T>(r: seq<T>, s: seq<T>, keep: T -> bool)
    requires IsSubsequence(r, s) && forall i :: 0 <= i < |r| ==> keep(r[i])
    ensures |r| <= CountIf(s, keep)
    decreases |s|
  {
    if r != [] {
      if r[0] == s[0] && IsSubsequence(r[1..], s[1..]) {
        KeptSubsequenceLength(r[1..], s[1..], keep);
      } else {
        KeptSubsequenceLength(r, s[1..], keep);
      }
    }
  }

  /** The clauses of `Filter` determine it: a subsequence of `s` made only of
      accepted elements, as many as `keep` accepts, is `Filter(s, keep)`. So
      no duplicate can be dropped and no order can change. */
  lemma {:induction false} FilterUnique<T>(r: seq<T>, s: seq<T>, keep: T -> bool)
    requires IsSubsequence(r, s) && forall i :: 0 <= i < |r| ==> keep(r[i])
    requires |r| == CountIf(s, keep)
    ensures r == Filter(s, keep)
    decreases |s|
  {
    if s != [] {
      if keep(s[0]) {
        if r == [] || !(r[0] == s[0] && IsSubsequence(r[1..], s[1..])) {
          if r != [] {
            KeptSubsequenceLength(r, s[1..], keep);
          }
          assert false;
        }
        FilterUnique(r[1..], s[1..], keep);
      } else {
        if r != [] && r[0] == s[0] {
          assert false;
        }
        FilterUnique(r, s[1..], keep);
      }
    }
  }

  /** `s.find(p)`: the first element satisfying `p`, if any. */
  function Find<T>(s: seq<T>, p: T -> bool): (r: Option<T>)
    ensures r.None? <==> forall i :: 0 <= i < |s| ==> !p(s[i])
    ensures r.Some? ==> exists i :: 0 <= i < |s| && s[i] == r.value && p(s[i]) &&
                                     forall j :: 0 <= j < i ==> !p(s[j])
    decreases |s|
  {
    if s == [] then None
    else if p(s[0]) then Some(s[0])
    else
      var r := Find(s[1..], p);
      assert forall i :: 0 < i < |s| ==> s[i] == s[1..][i - 1];
      r
  }

  /** When at most one element satisfies `p`, `find` returns that element. */
  lemma FindUnique<T>(s: seq<T>, p: T -> bool, k: nat)
    requires k < |s| && p(s[k])
    requires forall i, j :: 0 <= i < j < |s| && p(s[i]) ==> !p(s[j])
    ensures Find(s, p) == Some(s[k])
  {
    var r := Find(s, p);
    var i :| 0 <= i < |s| && s[i] == r.value && p(s[i]) && forall j :: 0 <= j < i ==> !p(s[j]);
  }

  /** The mathematical sum, as a reference for `ReduceAdd`. */
  function Sum(xs: seq<real>): real
    decreases |xs|
  {
    if xs == [] then 0.0 else xs[0] + Sum(xs[1..])
  }

  /** `xs.reduce((sum, x) => sum + x, acc)`: a left fold, which is `acc`
      plus the sum. */
  function ReduceAdd(acc: real, xs: seq<real>): (r: real)
    ensures r == acc + Sum(xs)
    decreases |xs|
  {
    if xs == [] then acc else ReduceAdd(acc + xs[0], xs[1..])
  }

  /** Summing a concatenation sums the parts. */
  lemma {:induction false} SumAppend(a: seq<real>, b: seq<real>)
    ensures Sum(a + b) == Sum(a) + Sum(b)
    decreases |a|
  {
    if a == [] {
      assert a + b == b;
    } else {
      assert (a + b)[1..] == a[1..] + b;
      SumAppend(a[1..], b);
    }
  }

  /** A sum of terms each at least `lo` is at least `lo` times their count. */
  lemma {:induction false} SumAtLeast(xs: seq<real>, lo: real)
    requires forall i :: 0 <= i < |xs| ==> lo <= xs[i]
    ensures lo * (|xs| as real) <= Sum(xs)
    decreases |xs|
  {
    if xs != [] {
      SumAtLeast(xs[1..], lo);
      assert lo * (|xs| as real) == lo + lo * (|xs[1..]| as real);
    }
  }
}
