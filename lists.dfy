/** Sequence helpers shared by the billing model: the `reduce`, `filter` and
    `findIndex` calls of the source, each written once and parameterised by
    the field it reads. */
module Lists {

  datatype Option<T> = None | Some(value: T)

  /** Sum of `f` over `s`, accumulated from the left starting at 0, as
      `s.reduce((sum, x) => sum + f(x), 0)` does. */
  function SumBy<T>(s: seq<T>, f: T -> real): (r: real)
    ensures s == [] ==> r == 0.0
    ensures |s| == 1 ==> r == f(s[0])
  {
    if s == [] then 0.0 else SumBy(s[..|s| - 1], f) + f(s[|s| - 1])
  }

  lemma {:induction false} SumByAppend<T>(s: seq<T>, t: seq<T>, f: T -> real)
    ensures SumBy(s + t, f) == SumBy(s, f) + SumBy(t, f)
    decreases |t|
  {
    if t == [] {
      assert s + t == s;
    } else {
      assert (s + t)[..|s + t| - 1] == s + t[..|t| - 1];
      SumByAppend(s, t[..|t| - 1], f);
    }
  }

  lemma {:induction false} SumByNonNegative<T>(s: seq<T>, f: T -> real)
    requires forall i :: 0 <= i < |s| ==> f(s[i]) >= 0.0
    ensures SumBy(s, f) >= 0.0
    decreases |s|
  {
    if s != [] {
      SumByNonNegative(s[..|s| - 1], f);
    }
  }

  /** Two lists whose entries are proportional, entry by entry, have proportional sums. */
  lemma {:induction false} SumByProportional<T, U>(s: seq<T>, t: seq<U>, f: T -> real, g: U -> real, k: real)
    requires |s| == |t|
    requires forall i :: 0 <= i < |s| ==> f(s[i]) == k * g(t[i])
    ensures SumBy(s, f) == k * SumBy(t, g)
    decreases |s|
  {
    if s != [] {
      var n := |s| - 1;
      SumByProportional(s[..n], t[..n], f, g, k);
      var x, y := SumBy(t[..n], g), g(t[n]);
      assert k * (x + y) == k * x + k * y;
    }
  }

  /** The pieces `f(x)` of the elements, joined in order. */
  function Flatten<T, U>(s: seq<T>, f: T -> seq<U>): seq<U>
  {
    if s == [] then [] else Flatten(s[..|s| - 1], f) + f(s[|s| - 1])
  }

  /** Joining distributes over concatenation. */
  lemma {:induction false} FlattenAppend<T, U>(s: seq<T>, t: seq<T>, f: T -> seq<U>)
    ensures Flatten(s + t, f) == Flatten(s, f) + Flatten(t, f)
    decreases |t|
  {
    if t == [] {
      assert s + t == s;
    } else {
      var init := t[..|t| - 1];
      assert (s + t)[..|s + t| - 1] == s + init;
      assert (s + t)[|s + t| - 1] == t[|t| - 1];
      FlattenAppend(s, init, f);
    }
  }

  /** The piece of the k-th element sits between the pieces before and after it. */
  lemma FlattenInPlace<T, U>(s: seq<T>, k: nat, f: T -> seq<U>)
    requires k < |s|
    ensures Flatten(s, f) == Flatten(s[..k], f) + f(s[k]) + Flatten(s[k + 1..], f)
  {
    FlattenSplit(s, k + 1, f);
    TakeOneMore(s, k);
    FlattenSnoc(s[..k], s[k], f);
  }

  lemma FlattenSplit<T, U>(s: seq<T>, k: nat, f: T -> seq<U>)
    requires k <= |s|
    ensures Flatten(s, f) == Flatten(s[..k], f) + Flatten(s[k..], f)
  {
    assert s == s[..k] + s[k..];
    FlattenAppend(s[..k], s[k..], f);
  }

  lemma FlattenSnoc<T, U>(s: seq<T>, x: T, f: T -> seq<U>)
    ensures Flatten(s + [x], f) == Flatten(s, f) + f(x)
  {
    assert (s + [x])[..|s|] == s;
  }

  lemma TakeOneMore<T>(s: seq<T>, k: nat)
    requires k < |s|
    ensures s[..k + 1] == s[..k] + [s[k]]
  {
  }

  /** `s.filter(x => key(x) !== k)`: the elements whose key differs from `k`,
      in their original order. */
  function Without<T, K(==)>(s: seq<T>, key: T -> K, k: K): (r: seq<T>)
    ensures |r| <= |s|
    ensures forall i :: 0 <= i < |r| ==> r[i] in s && key(r[i]) != k
    decreases |s|
  {
    if s == [] then []
    else
      var rest := Without(s[..|s| - 1], key, k);
      if key(s[|s| - 1]) != k then rest + [s[|s| - 1]] else rest
  }

  /** The filter of a one-element sequence: kept exactly when its key differs. */
  lemma WithoutSingleton<T, K>(x: T, key: T -> K, k: K)
    ensures Without([x], key, k) == if key(x) != k then [x] else []
  {
    assert [x][..0] == [];
  }

  /** Filtering distributes over concatenation; with the singleton case this
      determines the result: the survivors, in their original order and with
      their multiplicity. */
  lemma {:induction false} WithoutAppend<T, K>(s: seq<T>, t: seq<T>, key: T -> K, k: K)
    ensures Without(s + t, key, k) == Without(s, key, k) + Without(t, key, k)
    decreases |t|
  {
    if t == [] {
      assert s + t == s;
    } else {
      var init, last := t[..|t| - 1], t[|t| - 1];
      assert (s + t)[..|s + t| - 1] == s + init;
      assert (s + t)[|s + t| - 1] == last;
      WithoutAppend(s, init, key, k);
    }
  }

  /** Every element whose key differs from `k` survives the filter. */
  lemma {:induction false} WithoutKeeps<T, K>(s: seq<T>, key: T -> K, k: K, i: nat)
    requires i < |s| && key(s[i]) != k
    ensures s[i] in Without(s, key, k)
    decreases |s|
  {
    if i < |s| - 1 {
      WithoutKeeps(s[..|s| - 1], key, k, i);
    }
  }

  /** Filtering out a key that no element carries changes nothing. */
  lemma {:induction false} WithoutAbsent<T, K>(s: seq<T>, key: T -> K, k: K)
    requires forall i :: 0 <= i < |s| ==> key(s[i]) != k
    ensures Without(s, key, k) == s
    decreases |s|
  {
    if s != [] {
      WithoutAbsent(s[..|s| - 1], key, k);
      assert s[..|s| - 1] + [s[|s| - 1]] == s;
    }
  }

  /** Appending an element and then filtering out its (fresh) key gives back
      the original sequence. */
  lemma {:induction false} WithoutUndoesAppend<T, K>(s: seq<T>, x: T, key: T -> K)
    requires forall i :: 0 <= i < |s| ==> key(s[i]) != key(x)
    ensures Without(s + [x], key, key(x)) == s
  {
    assert (s + [x])[..|s + [x]| - 1] == s;
    WithoutAbsent(s, key, key(x));
  }

  /** Strictly increasing by `rank`. */
  predicate Increasing<T>(s: seq<T>, rank: T -> int)
  {
    forall i, j :: 0 <= i < j < |s| ==> rank(s[i]) < rank(s[j])
  }

  /** Filtering keeps the relative order of the survivors. */
  lemma {:induction false} WithoutKeepsIncreasing<T, K>(s: seq<T>, key: T -> K, k: K, rank: T -> int)
    requires Increasing(s, rank)
    ensures Increasing(Without(s, key, k), rank)
    decreases |s|
  {
    if s != [] {
      var init, last := s[..|s| - 1], s[|s| - 1];
      WithoutKeepsIncreasing(init, key, k, rank);
      var rest := Without(init, key, k);
      if key(last) != k {
        forall i | 0 <= i < |rest|
          ensures rank(rest[i]) < rank(last)
        {
          assert rest[i] in init;
          var j :| 0 <= j < |init| && init[j] == rest[i];
          assert s[j] == rest[i];
        }
      }
    }
  }

  /** `s.findIndex(x => key(x) == k)`: the first position carrying key `k`. */
  function IndexOfKey<T, K(==)>(s: seq<T>, key: T -> K, k: K): (r: Option<nat>)
    ensures r.Some? ==> r.value < |s| && key(s[r.value]) == k
    ensures r.Some? ==> forall j :: 0 <= j < r.value ==> key(s[j]) != k
    ensures r.None? <==> forall j :: 0 <= j < |s| ==> key(s[j]) != k
    decreases |s|
  {
    if s == [] then None
    else if key(s[0]) == k then Some(0)
    else match IndexOfKey(s[1..], key, k)
      case None => None
      case Some(i) => Some(i + 1)
  }
}
