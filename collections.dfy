/** Sequence helpers shared by the normaliser and the panels: counting tables,
    first-occurrence de-duplication, the stable sort of Array.prototype.sort
    with a numeric comparator, and the default (string) sort. */
module Collections {
  import opened JsValue

  // ------------------------------------------------------------------ sums

  /** Σ f(x) over the sequence. */
  function SumBy<T>(s: seq<T>, f: T -> real): real {
    if |s| == 0 then 0.0 else SumBy(s[..|s| - 1], f) + f(s[|s| - 1])
  }

  lemma {:induction false} SumByConcat<T>(a: seq<T>, b: seq<T>, f: T -> real)
    ensures SumBy(a + b, f) == SumBy(a, f) + SumBy(b, f)
    decreases |b|
  {
    if |b| > 0 {
      assert (a + b)[..|a + b| - 1] == a + b[..|b| - 1];
      SumByConcat(a, b[..|b| - 1], f);
    } else {
      assert a + b == a;
    }
  }

  /** Number of elements satisfying p. */
  function CountIf<T>(s: seq<T>, p: T -> bool): (n: nat)
    ensures n <= |s|
  {
    if |s| == 0 then 0 else CountIf(s[..|s| - 1], p) + (if p(s[|s| - 1]) then 1 else 0)
  }

  /** The count over one more element of the input. */
  lemma CountIfStep<T>(s: seq<T>, i: nat, p: T -> bool)
    requires i < |s|
    ensures CountIf(s[..i + 1], p) == CountIf(s[..i], p) + (if p(s[i]) then 1 else 0)
  {
    assert s[..i + 1][..i] == s[..i];
  }

  // ------------------------------------------------------- map that throws

  /** `xs.map(f)` where f may throw: the first element (in order) whose
      callback throws decides the error. */
  function MapResult<T, U>(xs: seq<T>, f: (T, nat) -> Result<U>): Result<seq<U>> {
    if |xs| == 0 then Ok([])
    else
      var n := |xs| - 1;
      var front := MapResult(xs[..n], f);
      if front.Err? then Err(front.error)
      else
        var last := f(xs[n], n);
        if last.Err? then Err(last.error) else Ok(front.value + [last.value])
  }

  /** The map succeeds exactly when every callback does, and then holds their
      results in order; otherwise the error is that of the first callback that throws. */
  lemma {:induction false} MapResultFacts<T, U>(xs: seq<T>, f: (T, nat) -> Result<U>)
    ensures MapResult(xs, f).Ok? <==> forall i :: 0 <= i < |xs| ==> f(xs[i], i).Ok?
    ensures MapResult(xs, f).Ok? ==> (|MapResult(xs, f).value| == |xs|
      && forall i :: 0 <= i < |xs| ==> MapResult(xs, f).value[i] == f(xs[i], i).value)
    ensures MapResult(xs, f).Err? ==> (exists i :: (0 <= i < |xs| && f(xs[i], i) == Err(MapResult(xs, f).error)
      && forall j :: 0 <= j < i ==> f(xs[j], j).Ok?))
  {
    if |xs| > 0 {
      var n := |xs| - 1;
      var p := xs[..n];
      MapResultFacts(p, f);
      assert forall i :: 0 <= i < n ==> p[i] == xs[i];
      var front := MapResult(p, f);
      if front.Err? {
        var i :| 0 <= i < |p| && f(p[i], i) == Err(front.error) && forall j :: 0 <= j < i ==> f(p[j], j).Ok?;
        assert f(xs[i], i) == Err(MapResult(xs, f).error);
      } else if f(xs[n], n).Err? {
        assert forall j :: 0 <= j < n ==> f(xs[j], j).Ok?;
      }
    }
  }

  /** One more element: the map of the prefix, then f on the new element. */
  lemma MapResultSnoc<T, U>(a: seq<T>, x: T, f: (T, nat) -> Result<U>)
    ensures MapResult(a + [x], f) ==
      if MapResult(a, f).Err? then MapResult(a, f)
      else if f(x, |a|).Err? then Err(f(x, |a|).error)
      else Ok(MapResult(a, f).value + [f(x, |a|).value])
  {
    assert (a + [x])[..|a|] == a;
  }

  /** Once a prefix throws, nothing after it is mapped. */
  lemma {:induction false} MapResultErrExtends<T, U>(a: seq<T>, b: seq<T>, f: (T, nat) -> Result<U>)
    requires MapResult(a, f).Err?
    ensures MapResult(a + b, f) == MapResult(a, f)
    decreases |b|
  {
    if |b| == 0 {
      assert a + b == a;
    } else {
      var b' := b[..|b| - 1];
      assert a + b == (a + b') + [b[|b| - 1]];
      MapResultErrExtends(a, b', f);
      MapResultSnoc(a + b', b[|b| - 1], f);
    }
  }

  /** `xs.filter(p)`. */
  function Filter<T>(s: seq<T>, p: T -> bool): (r: seq<T>)
    ensures |r| <= |s|
    ensures forall i :: 0 <= i < |r| ==> p(r[i])
  {
    if |s| == 0 then [] else Filter(s[..|s| - 1], p) + (if p(s[|s| - 1]) then [s[|s| - 1]] else [])
  }

  /** The filter keeps exactly the elements satisfying p. */
  lemma {:induction false} FilterMembers<T>(s: seq<T>, p: T -> bool, x: T)
    ensures x in Filter(s, p) <==> x in s && p(x)
  {
    if |s| > 0 {
      var n := |s| - 1;
      assert s == s[..n] + [s[n]];
      FilterMembers(s[..n], p, x);
    }
  }

  lemma {:induction false} FilterConcat<T>(a: seq<T>, b: seq<T>, p: T -> bool)
    ensures Filter(a + b, p) == Filter(a, p) + Filter(b, p)
    decreases |b|
  {
    if |b| == 0 {
      assert a + b == a;
    } else {
      var n := |b| - 1;
      assert (a + b)[..|a + b| - 1] == a + b[..n];
      FilterConcat(a, b[..n], p);
    }
  }

  /** The filter of one more element. */
  lemma FilterSnoc<T>(a: seq<T>, x: T, p: T -> bool)
    ensures Filter(a + [x], p) == Filter(a, p) + (if p(x) then [x] else [])
  {
    assert (a + [x])[..|a|] == a;
  }

  /** The loop `xs.forEach((x, i) => out.push(f(x, i)))`, left at the first throw. */
  method MapLoop<T, U>(xs: seq<T>, f: (T, nat) -> Result<U>) returns (r: Result<seq<U>>)
    ensures r == MapResult(xs, f)
  {
    var out: seq<U> := [];
    var i := 0;
    assert xs[..0] == [];
    while i < |xs|
      invariant 0 <= i <= |xs|
      invariant MapResult(xs[..i], f) == Ok(out)
    {
      assert xs[..i + 1] == xs[..i] + [xs[i]];
      MapResultSnoc(xs[..i], xs[i], f);
      var y := f(xs[i], i);
      if y.Err? {
        assert xs[..i + 1] + xs[i + 1..] == xs;
        MapResultErrExtends(xs[..i + 1], xs[i + 1..], f);
        return Err(y.error);
      }
      out := out + [y.value];
      i := i + 1;
    }
    assert xs[..i] == xs;
    return Ok(out);
  }

  /** The loop `for (x of xs) if (p(x)) out.push(f(x, out.length))`, left at the first throw. */
  method FilterMapLoop<T, U>(xs: seq<T>, p: T -> bool, f: (T, nat) -> Result<U>) returns (r: Result<seq<U>>)
    ensures r == MapResult(Filter(xs, p), f)
  {
    var out: seq<U> := [];
    var i := 0;
    while i < |xs|
      invariant 0 <= i <= |xs|
      invariant MapResult(Filter(xs[..i], p), f) == Ok(out)
    {
      if p(xs[i]) {
        FilterMapPush(xs, i, p, f, out);
        var y := f(xs[i], |out|);
        if y.Err? {
          FilterMapStops(xs, i + 1, p, f);
          return Err(y.error);
        }
        out := out + [y.value];
      } else {
        FilterMapSkip(xs, i, p, f, out);
      }
      i := i + 1;
    }
    assert xs[..i] == xs;
    return Ok(out);
  }

  /** One turn of the filtering loop on an element p rejects, ... */
  lemma FilterMapSkip<T, U>(xs: seq<T>, i: nat, p: T -> bool, f: (T, nat) -> Result<U>, out: seq<U>)
    requires i < |xs| && MapResult(Filter(xs[..i], p), f) == Ok(out) && !p(xs[i])
    ensures MapResult(Filter(xs[..i + 1], p), f) == Ok(out)
  {
    FilterSnoc(xs[..i], xs[i], p);
    assert xs[..i + 1] == xs[..i] + [xs[i]];
    assert Filter(xs[..i + 1], p) == Filter(xs[..i], p);
  }

  /** ... on one it keeps and maps, ... */
  lemma FilterMapPush<T, U>(xs: seq<T>, i: nat, p: T -> bool, f: (T, nat) -> Result<U>, out: seq<U>)
    requires i < |xs| && MapResult(Filter(xs[..i], p), f) == Ok(out) && p(xs[i])
    ensures f(xs[i], |out|).Ok? ==> MapResult(Filter(xs[..i + 1], p), f) == Ok(out + [f(xs[i], |out|).value])
    ensures f(xs[i], |out|).Err? ==> MapResult(Filter(xs[..i + 1], p), f) == Err(f(xs[i], |out|).error)
  {
    var pre := Filter(xs[..i], p);
    FilterSnoc(xs[..i], xs[i], p);
    assert xs[..i + 1] == xs[..i] + [xs[i]];
    MapResultSnoc(pre, xs[i], f);
    MapResultFacts(pre, f);
    assert |out| == |pre|;
  }

  lemma FilterMapStops<T, U>(xs: seq<T>, k: nat, p: T -> bool, f: (T, nat) -> Result<U>)
    requires k <= |xs| && MapResult(Filter(xs[..k], p), f).Err?
    ensures MapResult(Filter(xs, p), f) == MapResult(Filter(xs[..k], p), f)
  {
    assert xs[..k] + xs[k..] == xs;
    FilterConcat(xs[..k], xs[k..], p);
    var a := Filter(xs[..k], p);
    var b := Filter(xs[k..], p);
    assert Filter(xs, p) == a + b;
    MapResultErrExtends(a, b, f);
  }

  /** The concatenation of a sequence of sequences. */
  function Flatten<T>(ss: seq<seq<T>>): seq<T> {
    if |ss| == 0 then [] else Flatten(ss[..|ss| - 1]) + ss[|ss| - 1]
  }

  /** A property every part has, the concatenation has. */
  lemma {:induction false} FlattenAll<T>(ss: seq<seq<T>>, p: T -> bool)
    requires forall k, i :: 0 <= k < |ss| && 0 <= i < |ss[k]| ==> p(ss[k][i])
    ensures forall i :: 0 <= i < |Flatten(ss)| ==> p(Flatten(ss)[i])
  {
    if |ss| > 0 {
      var n := |ss| - 1;
      assert forall k, i :: 0 <= k < n && 0 <= i < |ss[..n][k]| ==> ss[..n][k][i] == ss[k][i];
      FlattenAll(ss[..n], p);
      var f := Flatten(ss[..n]);
      assert forall i :: |f| <= i < |f| + |ss[n]| ==> (f + ss[n])[i] == ss[n][i - |f|];
    }
  }

  /** u is what f makes of x at index i in some state. */
  ghost predicate MadeBy<T, U, S(!new)>(f: (T, nat, S) -> Result<(U, S)>, x: T, i: nat, u: U) {
    exists st: S :: f(x, i, st).Ok? && u == f(x, i, st).value.0
  }

  /** `xs.map(f)` where f may throw and also advances a state (an identifier
      supply): each element is mapped in the state its predecessors left. */
  function MapState<T, U, S(!new)>(xs: seq<T>, s: S, f: (T, nat, S) -> Result<(U, S)>): (r: Result<(seq<U>, S)>)
    ensures r.Ok? ==> |r.value.0| == |xs|
    ensures r.Ok? ==> forall i :: 0 <= i < |xs| ==> MadeBy(f, xs[i], i, r.value.0[i])
    ensures (forall i, st :: 0 <= i < |xs| ==> f(xs[i], i, st).Ok?) ==> r.Ok?
  {
    if |xs| == 0 then Ok(([], s))
    else
      var n := |xs| - 1;
      var front := MapState(xs[..n], s, f);
      if front.Err? then Err(front.error)
      else
        var last := f(xs[n], n, front.value.1);
        if last.Err? then Err(last.error)
        else
          var all := front.value.0 + [last.value.0];
          assert forall i :: 0 <= i < n ==> all[i] == front.value.0[i] && xs[..n][i] == xs[i];
          assert MadeBy(f, xs[n], n, all[n]) by {
            assert f(xs[n], n, front.value.1).Ok? && all[n] == f(xs[n], n, front.value.1).value.0;
          }
          Ok((all, last.value.1))
  }

  // --------------------------------------------------------------- tallies

  /** `counts[label] = (counts[label] || 0) + 1` for a label that is present. */
  function Bump(m: map<string, nat>, tag: Option<string>): map<string, nat> {
    if tag.None? then m
    else m[tag.value := (if tag.value in m then m[tag.value] else 0) + 1]
  }

  /** The counting record a `forEach` loop builds from a list of optional labels. */
  function Tally(labels: seq<Option<string>>): map<string, nat> {
    if |labels| == 0 then map[] else Bump(Tally(labels[..|labels| - 1]), labels[|labels| - 1])
  }

  /** A label is a key of the tally exactly when it occurs, and it maps to its number of occurrences. */
  lemma {:induction false} TallyCounts(labels: seq<Option<string>>, k: string)
    ensures k in Tally(labels) <==> Some(k) in labels
    ensures k in Tally(labels) ==> Tally(labels)[k] == multiset(labels)[Some(k)]
  {
    if |labels| > 0 {
      var p := labels[..|labels| - 1];
      var l := labels[|labels| - 1];
      assert labels == p + [l];
      TallyCounts(p, k);
      assert multiset(labels) == multiset(p) + multiset{l};
    }
  }

  /** The values of a tally add up to the number of present labels. */
  lemma {:induction false} TallyTotalAtKey(labels: seq<Option<string>>)
    ensures forall k :: k in Tally(labels) ==> Tally(labels)[k] > 0
  {
    forall k | k in Tally(labels) ensures Tally(labels)[k] > 0 {
      TallyCounts(labels, k);
    }
  }

  // --------------------------------------------------------- de-duplication

  /** The keys of a sequence, in order. */
  function KeysOf<T, K>(s: seq<T>, key: T -> K): (r: seq<K>)
    ensures |r| == |s|
    ensures forall i :: 0 <= i < |s| ==> r[i] == key(s[i])
  {
    seq(|s|, i requires 0 <= i < |s| => key(s[i]))
  }

  /** Keep the first element for each key, in input order. */
  function DedupBy<T, K(==)>(s: seq<T>, key: T -> K): seq<T> {
    if |s| == 0 then []
    else
      var d := DedupBy(s[..|s| - 1], key);
      if key(s[|s| - 1]) in KeysOf(d, key) then d else d + [s[|s| - 1]]
  }

  predicate DistinctKeys<T, K(==)>(s: seq<T>, key: T -> K) {
    forall i, j :: 0 <= i < j < |s| ==> key(s[i]) != key(s[j])
  }

  /** Is s[i] the first element of s with its key? */
  predicate IsFirst<T, K(==)>(s: seq<T>, i: int, key: T -> K)
    requires 0 <= i < |s|
  {
    forall j :: 0 <= j < i ==> key(s[j]) != key(s[i])
  }

  /** `a` is `b` with some elements left out. */
  predicate Subsequence<T(==)>(a: seq<T>, b: seq<T>)
    decreases |b|
  {
    |a| == 0
    || (|b| > 0
        && ((a[|a| - 1] == b[|b| - 1] && Subsequence(a[..|a| - 1], b[..|b| - 1]))
            || Subsequence(a, b[..|b| - 1])))
  }

  /** De-duplication keeps every key of the input and invents none. */
  lemma {:induction false} DedupByKeys<T, K>(s: seq<T>, key: T -> K)
    ensures forall i :: 0 <= i < |s| ==> key(s[i]) in KeysOf(DedupBy(s, key), key)
    ensures forall k :: k in KeysOf(DedupBy(s, key), key) ==> k in KeysOf(s, key)
  {
    if |s| > 0 {
      var p := s[..|s| - 1];
      var d := DedupBy(p, key);
      var r := DedupBy(s, key);
      DedupByKeys(p, key);
      assert r == d || r == d + [s[|s| - 1]];
      forall i | 0 <= i < |s| ensures key(s[i]) in KeysOf(r, key) {
        if i < |p| {
          assert s[i] == p[i];
          var j :| 0 <= j < |d| && KeysOf(d, key)[j] == key(p[i]);
          assert KeysOf(r, key)[j] == key(s[i]);
        } else if r != d {
          assert KeysOf(r, key)[|d|] == key(s[i]);
        }
      }
      forall k | k in KeysOf(r, key) ensures k in KeysOf(s, key) {
        if k in KeysOf(d, key) {
          var j :| 0 <= j < |p| && KeysOf(p, key)[j] == k;
          assert KeysOf(s, key)[j] == k;
        } else {
          assert KeysOf(s, key)[|s| - 1] == k;
        }
      }
    }
  }

  /** No two kept elements share a key. */
  lemma {:induction false} DedupByDistinctKeys<T, K>(s: seq<T>, key: T -> K)
    ensures DistinctKeys(DedupBy(s, key), key)
  {
    if |s| > 0 {
      var p := s[..|s| - 1];
      var d := DedupBy(p, key);
      DedupByDistinctKeys(p, key);
      if key(s[|s| - 1]) !in KeysOf(d, key) {
        var r := d + [s[|s| - 1]];
        forall i, j | 0 <= i < j < |r| ensures key(r[i]) != key(r[j]) {
          if j == |d| { assert KeysOf(d, key)[i] == key(r[i]); }
        }
      }
    }
  }

  /** Every kept element is the first element of the input with its key. */
  lemma {:induction false} DedupByFirst<T, K>(s: seq<T>, key: T -> K)
    ensures forall y :: y in DedupBy(s, key) ==> exists i :: 0 <= i < |s| && s[i] == y && IsFirst(s, i, key)
  {
    if |s| > 0 {
      var p := s[..|s| - 1];
      var x := s[|s| - 1];
      var d := DedupBy(p, key);
      DedupByFirst(p, key);
      DedupByKeys(p, key);
      forall y | y in DedupBy(s, key) ensures exists i :: 0 <= i < |s| && s[i] == y && IsFirst(s, i, key) {
        if y in d {
          var i :| 0 <= i < |p| && p[i] == y && IsFirst(p, i, key);
          assert s[i] == p[i];
          assert IsFirst(s, i, key) by {
            forall j | 0 <= j < i ensures key(s[j]) != key(s[i]) { assert s[j] == p[j]; }
          }
        } else {
          assert y == x && key(x) !in KeysOf(d, key);
          assert IsFirst(s, |s| - 1, key) by {
            forall j | 0 <= j < |s| - 1 ensures key(s[j]) != key(x) {
              assert s[j] == p[j];
            }
          }
        }
      }
    }
  }

  /** The kept elements appear in input order. */
  lemma {:induction false} DedupBySubsequence<T, K>(s: seq<T>, key: T -> K)
    ensures Subsequence(DedupBy(s, key), s)
  {
    if |s| > 0 {
      var p := s[..|s| - 1];
      DedupBySubsequence(p, key);
      SubsequenceExtend(DedupBy(p, key), p, s[|s| - 1]);
      assert p + [s[|s| - 1]] == s;
    }
  }

  /** De-duplication keeps exactly the first occurrence of every key, in input order. */
  lemma DedupByFacts<T, K>(s: seq<T>, key: T -> K)
    ensures DistinctKeys(DedupBy(s, key), key)
    ensures forall i :: 0 <= i < |s| ==> key(s[i]) in KeysOf(DedupBy(s, key), key)
    ensures forall k :: k in KeysOf(DedupBy(s, key), key) ==> k in KeysOf(s, key)
    ensures forall y :: y in DedupBy(s, key) ==> exists i :: 0 <= i < |s| && s[i] == y && IsFirst(s, i, key)
    ensures Subsequence(DedupBy(s, key), s)
  {
    DedupByKeys(s, key);
    DedupByDistinctKeys(s, key);
    DedupByFirst(s, key);
    DedupBySubsequence(s, key);
  }

  lemma SubsequenceExtend<T>(a: seq<T>, b: seq<T>, x: T)
    requires Subsequence(a, b)
    ensures Subsequence(a, b + [x])
    ensures Subsequence(a + [x], b + [x])
  {
    assert (b + [x])[..|b + [x]| - 1] == b;
    assert (a + [x])[..|a + [x]| - 1] == a;
  }

  /** One more element: kept exactly when its key is not among the kept keys yet. */
  lemma DedupBySnoc<T, K>(s: seq<T>, x: T, key: T -> K)
    ensures DedupBy(s + [x], key)
      == if key(x) in KeysOf(DedupBy(s, key), key) then DedupBy(s, key) else DedupBy(s, key) + [x]
  {
    assert (s + [x])[..|s|] == s;
  }

  lemma KeysOfSnoc<T, K>(s: seq<T>, x: T, key: T -> K)
    ensures KeysOf(s + [x], key) == KeysOf(s, key) + [key(x)]
  {
  }

  /** A sequence whose keys are already distinct is left unchanged. */
  lemma {:induction false} DedupByDistinct<T, K>(s: seq<T>, key: T -> K)
    requires DistinctKeys(s, key)
    ensures DedupBy(s, key) == s
  {
    if |s| > 0 {
      var p := s[..|s| - 1];
      assert DistinctKeys(p, key);
      DedupByDistinct(p, key);
      assert p + [s[|s| - 1]] == s;
    }
  }

  /** De-duplicating keeps at least one element of a non-empty input, leaves
      the keys distinct and keeps exactly the keys of the input. */
  lemma DedupByKeySet<T, K>(s: seq<T>, key: T -> K, v: K)
    ensures |s| > 0 ==> |DedupBy(s, key)| > 0
    ensures DistinctKeys(DedupBy(s, key), key)
    ensures v in KeysOf(DedupBy(s, key), key) <==> v in KeysOf(s, key)
  {
    DedupByFacts(s, key);
    if |s| > 0 {
      assert key(s[0]) in KeysOf(DedupBy(s, key), key);
    }
    if v in KeysOf(s, key) {
      var i :| 0 <= i < |s| && KeysOf(s, key)[i] == v;
    }
  }

  /** De-duplicating twice is de-duplicating once. */
  lemma DedupByIdempotent<T, K>(s: seq<T>, key: T -> K)
    ensures DedupBy(DedupBy(s, key), key) == DedupBy(s, key)
  {
    DedupByFacts(s, key);
    DedupByDistinct(DedupBy(s, key), key);
  }

  /** A property that holds at j and passes from each position to the next holds up to i. */
  lemma {:induction false} StepsUp(p: nat -> bool, j: nat, i: nat)
    requires j <= i && p(j)
    requires forall k :: j <= k < i && p(k) ==> p(k + 1)
    ensures p(i)
    decreases i - j
  {
    if j < i {
      StepsUp(p, j + 1, i);
    }
  }

  // ------------------------------------------------- stable sort by a number

  predicate SortedBy<T>(s: seq<T>, key: T -> real) {
    forall i, j :: 0 <= i < j < |s| ==> key(s[i]) <= key(s[j])
  }

  /** Insert x in front of the first element whose key is not smaller. */
  function InsertBy<T>(x: T, t: seq<T>, key: T -> real): (r: seq<T>)
    ensures |r| == |t| + 1
    ensures multiset(r) == multiset(t) + multiset{x}
  {
    if |t| == 0 || key(x) <= key(t[0]) then [x] + t
    else
      assert t == [t[0]] + t[1..];
      [t[0]] + InsertBy(x, t[1..], key)
  }

  /** Array.prototype.sort with the comparator `(a, b) => key(a) - key(b)`: stable
      insertion by ascending key. */
  function SortBy<T>(s: seq<T>, key: T -> real): (r: seq<T>)
    ensures |r| == |s|
    ensures multiset(r) == multiset(s)
  {
    if |s| == 0 then []
    else
      assert s == [s[0]] + s[1..];
      InsertBy(s[0], SortBy(s[1..], key), key)
  }

  lemma {:induction false} InsertBySorted<T>(x: T, t: seq<T>, key: T -> real)
    requires SortedBy(t, key)
    ensures SortedBy(InsertBy(x, t, key), key)
    ensures |t| > 0 && key(t[0]) < key(x) ==> InsertBy(x, t, key)[0] == t[0]
  {
    if |t| > 0 && key(x) > key(t[0]) {
      var t' := t[1..];
      assert SortedBy(t', key);
      InsertBySorted(x, t', key);
      var r' := InsertBy(x, t', key);
      var r := [t[0]] + r';
      forall i, j | 0 <= i < j < |r| ensures key(r[i]) <= key(r[j]) {
        if i == 0 {
          assert r[j] in multiset(r');
          assert r[j] in t' || r[j] == x;
        }
      }
    }
  }

  /** The result is sorted by ascending key and is a permutation of the input. */
  lemma {:induction false} SortBySorted<T>(s: seq<T>, key: T -> real)
    ensures SortedBy(SortBy(s, key), key)
    ensures multiset(SortBy(s, key)) == multiset(s)
  {
    if |s| > 0 {
      SortBySorted(s[1..], key);
      InsertBySorted(s[0], SortBy(s[1..], key), key);
    }
  }

  /** s[i] has the least key, and no earlier element has that key. */
  predicate FirstLeast<T>(s: seq<T>, i: int, key: T -> real)
    requires 0 <= i < |s|
  {
    (forall j :: 0 <= j < |s| ==> key(s[i]) <= key(s[j]))
    && (forall j :: 0 <= j < i ==> key(s[j]) > key(s[i]))
  }

  /** The first element of the sorted copy is the first element with the least
      key (earliest wins on ties). */
  lemma {:induction false} SortByHead<T>(s: seq<T>, key: T -> real)
    requires |s| > 0
    ensures exists i :: 0 <= i < |s| && SortBy(s, key)[0] == s[i] && FirstLeast(s, i, key)
  {
    if |s| == 1 {
      assert SortBy(s, key)[0] == s[0];
      assert FirstLeast(s, 0, key);
    } else {
      var rest := s[1..];
      SortByHead(rest, key);
      var k :| 0 <= k < |rest| && SortBy(rest, key)[0] == rest[k] && FirstLeast(rest, k, key);
      var t := SortBy(rest, key);
      assert SortBy(s, key) == InsertBy(s[0], t, key);
      if key(s[0]) <= key(t[0]) {
        assert SortBy(s, key)[0] == s[0];
        FirstLeastFront(s, k, key);
      } else {
        assert SortBy(s, key)[0] == s[k + 1];
        FirstLeastShift(s, k, key);
      }
    }
  }

  /** A head no greater than the least of the tail is the first least element. */
  lemma FirstLeastFront<T>(s: seq<T>, k: nat, key: T -> real)
    requires 0 <= k < |s| - 1 && FirstLeast(s[1..], k, key) && key(s[0]) <= key(s[1..][k])
    ensures FirstLeast(s, 0, key)
  {
    forall j | 0 <= j < |s| ensures key(s[0]) <= key(s[j]) {
      if j > 0 { assert s[j] == s[1..][j - 1]; }
    }
  }

  /** Otherwise the first least element of the tail is the first least of the whole. */
  lemma FirstLeastShift<T>(s: seq<T>, k: nat, key: T -> real)
    requires 0 <= k < |s| - 1 && FirstLeast(s[1..], k, key) && key(s[0]) > key(s[1..][k])
    ensures FirstLeast(s, k + 1, key)
  {
    assert s[k + 1] == s[1..][k];
    forall j | 0 <= j < |s| ensures key(s[k + 1]) <= key(s[j]) {
      if j > 0 { assert s[j] == s[1..][j - 1]; }
    }
    forall j | 0 <= j < k + 1 ensures key(s[j]) > key(s[k + 1]) {
      if j > 0 { assert s[j] == s[1..][j - 1]; }
    }
  }

  // ------------------------------------------------------ default string sort

  /** Lexicographic order of strings by their characters. The default sort
      compares UTF-16 code units; the two orders agree on strings within
      the Basic Multilingual Plane that contain no surrogate halves. */
  predicate StrLeq(a: string, b: string) {
    |a| == 0 || (|b| > 0 && (a[0] < b[0] || (a[0] == b[0] && StrLeq(a[1..], b[1..]))))
  }

  lemma {:induction false} StrLeqTotal(a: string, b: string)
    ensures StrLeq(a, b) || StrLeq(b, a)
  {
    if |a| > 0 && |b| > 0 && a[0] == b[0] { StrLeqTotal(a[1..], b[1..]); }
  }

  lemma {:induction false} StrLeqTrans(a: string, b: string, c: string)
    requires StrLeq(a, b) && StrLeq(b, c)
    ensures StrLeq(a, c)
  {
    if |a| > 0 && |b| > 0 && |c| > 0 && a[0] == b[0] == c[0] {
      StrLeqTrans(a[1..], b[1..], c[1..]);
    }
  }

  lemma {:induction false} StrLeqAntisym(a: string, b: string)
    requires StrLeq(a, b) && StrLeq(b, a)
    ensures a == b
  {
    if |a| > 0 {
      StrLeqAntisym(a[1..], b[1..]);
      assert a == [a[0]] + a[1..] && b == [b[0]] + b[1..];
    }
  }

  predicate SortedStrings(s: seq<string>) {
    forall i, j :: 0 <= i < j < |s| ==> StrLeq(s[i], s[j])
  }

  function InsertString(x: string, t: seq<string>): (r: seq<string>)
    ensures multiset(r) == multiset(t) + multiset{x}
  {
    if |t| == 0 || StrLeq(x, t[0]) then [x] + t
    else
      assert t == [t[0]] + t[1..];
      [t[0]] + InsertString(x, t[1..])
  }

  /** Array.prototype.sort() without a comparator on strings, ordered by
      StrLeq (characters rather than UTF-16 code units). */
  function SortStrings(s: seq<string>): (r: seq<string>)
    ensures multiset(r) == multiset(s)
  {
    if |s| == 0 then []
    else
      assert s == [s[0]] + s[1..];
      InsertString(s[0], SortStrings(s[1..]))
  }

  lemma {:induction false} InsertStringSorted(x: string, t: seq<string>)
    requires SortedStrings(t)
    ensures SortedStrings(InsertString(x, t))
  {
    if |t| > 0 && !StrLeq(x, t[0]) {
      StrLeqTotal(x, t[0]);
      var t' := t[1..];
      assert SortedStrings(t');
      InsertStringSorted(x, t');
      var r' := InsertString(x, t');
      var r := [t[0]] + r';
      forall i, j | 0 <= i < j < |r| ensures StrLeq(r[i], r[j]) {
        if i == 0 {
          assert r[j] in multiset(r');
          assert r[j] in t' || r[j] == x;
        }
      }
    } else if |t| > 0 {
      var r := [x] + t;
      forall i, j | 0 <= i < j < |r| ensures StrLeq(r[i], r[j]) {
        if i == 0 && j > 1 { StrLeqTrans(x, t[0], t[j - 1]); }
      }
    }
  }

  /** The default sort orders the strings and keeps every one of them. */
  lemma {:induction false} SortStringsSorted(s: seq<string>)
    ensures SortedStrings(SortStrings(s))
    ensures multiset(SortStrings(s)) == multiset(s)
  {
    if |s| > 0 {
      SortStringsSorted(s[1..]);
      InsertStringSorted(s[0], SortStrings(s[1..]));
    }
  }

  /** `Array.from(new Set(xs)).sort()`: the distinct strings, in order. */
  function SortedDistinct(xs: seq<string>): seq<string> {
    SortStrings(DedupBy(xs, (x: string) => x))
  }

  /** The result is strictly increasing and holds exactly the input's strings. */
  lemma SortedDistinctFacts(xs: seq<string>)
    ensures var r := SortedDistinct(xs);
      SortedStrings(r)
      && (forall i, j :: 0 <= i < j < |r| ==> r[i] != r[j])
      && (forall x :: x in r <==> x in xs)
  {
    var id := (x: string) => x;
    var d := DedupBy(xs, id);
    DedupByFacts(xs, id);
    SortStringsSorted(d);
    var r := SortStrings(d);
    forall i, j | 0 <= i < j < |r| ensures r[i] != r[j] {
      if r[i] == r[j] {
        MultisetTwice(r, i, j);
        assert multiset(d)[r[i]] >= 2;
        DistinctOnce(d, r[i]);
      }
    }
    forall x ensures x in r <==> x in xs {
      assert x in r <==> x in multiset(d);
      if x in xs {
        var i :| 0 <= i < |xs| && xs[i] == x;
        assert id(xs[i]) in KeysOf(d, id);
      }
      if x in d {
        assert x in KeysOf(d, id);
        var k :| 0 <= k < |xs| && KeysOf(xs, id)[k] == x;
      }
    }
  }

  lemma MultisetTwice<T>(s: seq<T>, i: int, j: int)
    requires 0 <= i < j < |s| && s[i] == s[j]
    ensures multiset(s)[s[i]] >= 2
  {
    assert s == s[..i] + [s[i]] + s[i + 1..j] + [s[j]] + s[j + 1..];
  }

  lemma {:induction false} DistinctOnce(d: seq<string>, x: string)
    requires DistinctKeys(d, (y: string) => y)
    ensures multiset(d)[x] <= 1
  {
    if |d| > 0 {
      var p := d[..|d| - 1];
      assert d == p + [d[|d| - 1]];
      assert DistinctKeys(p, (y: string) => y);
      DistinctOnce(p, x);
    }
  }
}
