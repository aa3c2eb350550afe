// Shared value types and the few Python built-ins the backend relies on:
// `str.join`, sequence slicing with `None`/negative bounds, and the stable
// `sorted(..., reverse=True)`.

module Common {

  datatype Option<T> = None | Some(value: T)
  {
    /** `params.get(key, dflt)` for a key that is either present or absent. */
    function GetOr(dflt: T): T
    {
      if Some? then value else dflt
    }
  }

  datatype Result<T, E> = Ok(value: T) | Err(error: E)
  {
    predicate IsOk() { this.Ok? }
  }

  // ---------------------------------------------------------------------
  // sep.join(parts)

  function Join(sep: string, parts: seq<string>): (r: string)
    ensures parts == [] ==> r == ""
    ensures |parts| == 1 ==> r == parts[0]
  {
    if parts == [] then ""
    else if |parts| == 1 then parts[0]
    else Join(sep, parts[..|parts| - 1]) + sep + parts[|parts| - 1]
  }

  /** Joining one more part appends the separator and the part. */
  lemma JoinSnoc(sep: string, parts: seq<string>, p: string)
    requires parts != []
    ensures Join(sep, parts + [p]) == Join(sep, parts) + sep + p
  {
    assert (parts + [p])[..|parts|] == parts;
  }

  /** The joined string is as long as its parts plus one separator between each pair. */
  lemma {:induction false} JoinLength(sep: string, parts: seq<string>)
    requires parts != []
    ensures |Join(sep, parts)| == SumLengths(parts) + (|parts| - 1) * |sep|
  {
    if |parts| > 1 {
      var init := parts[..|parts| - 1];
      JoinLength(sep, init);
      SumLengthsSnoc(init, parts[|parts| - 1]);
      assert init + [parts[|parts| - 1]] == parts;
      assert Join(sep, parts) == Join(sep, init) + sep + parts[|parts| - 1];
      assert (|parts| - 1) * |sep| == (|init| - 1) * |sep| + |sep|;
    }
  }

  function SumLengths(parts: seq<string>): nat
  {
    if parts == [] then 0 else |parts[0]| + SumLengths(parts[1..])
  }

  lemma {:induction false} SumLengthsSnoc(parts: seq<string>, p: string)
    ensures SumLengths(parts + [p]) == SumLengths(parts) + |p|
  {
    if parts != [] {
      assert (parts + [p])[1..] == parts[1..] + [p];
      SumLengthsSnoc(parts[1..], p);
    }
  }

  // ---------------------------------------------------------------------
  // s[start:stop] with Python's rules for None and negative bounds

  /** Python's normalisation of one slice bound against a length `n`. */
  function SliceBound(b: Option<int>, dflt: nat, n: nat): (r: nat)
    ensures r <= n
    ensures b.None? ==> r == if dflt <= n then dflt else n
    ensures b.Some? && 0 <= b.value <= n ==> r == b.value
    ensures b.Some? && b.value > n ==> r == n
    ensures b.Some? && b.value < 0 && b.value + n >= 0 ==> r == b.value + n
    ensures b.Some? && b.value + n < 0 ==> r == 0
  {
    match b
    case None => if dflt <= n then dflt else n
    case Some(v) =>
      if v < 0 then (if v + n < 0 then 0 else v + n)
      else if v > n then n
      else v
  }

  /**
   * `s[start:stop]`: the elements from the normalised start up to, not
   * including, the normalised stop; none when the stop is not past the start.
   */
  function Slice<T>(s: seq<T>, start: Option<int>, stop: Option<int>): (r: seq<T>)
    ensures var lo, hi := SliceBound(start, 0, |s|), SliceBound(stop, |s|, |s|);
      |r| == (if lo < hi then hi - lo else 0)
    ensures forall i :: 0 <= i < |r| ==> r[i] == s[SliceBound(start, 0, |s|) + i]
    ensures start.None? && stop.None? ==> r == s
    ensures stop.None? && start.Some? && -|s| <= start.value < 0 ==> r == s[|s| + start.value..]
    ensures start.Some? && stop.Some? && 0 <= start.value <= stop.value <= |s| ==>
      r == s[start.value..stop.value]
  {
    var lo, hi := SliceBound(start, 0, |s|), SliceBound(stop, |s|, |s|);
    if lo <= hi then s[lo..hi] else []
  }

  // ---------------------------------------------------------------------
  // sorted(xs, key=key, reverse=True): descending and stable

  predicate Descending<T>(s: seq<T>, key: T -> int)
  {
    forall i, j :: 0 <= i < j < |s| ==> key(s[i]) >= key(s[j])
  }

  /** The elements of `s` whose key is `k`, in their order in `s`. */
  function WithKey<T>(s: seq<T>, key: T -> int, k: int): (r: seq<T>)
    ensures |r| <= |s|
  {
    if s == [] then []
    else (if key(s[0]) == k then [s[0]] else []) + WithKey(s[1..], key, k)
  }

  /**
   * `WithKey` keeps exactly the elements whose key is `k`, and never more
   * copies of one than `s` holds.
   */
  lemma {:induction false} WithKeyMembers<T>(s: seq<T>, key: T -> int, k: int)
    ensures forall i :: 0 <= i < |WithKey(s, key, k)| ==> key(WithKey(s, key, k)[i]) == k
    ensures forall i :: 0 <= i < |s| && key(s[i]) == k ==> s[i] in WithKey(s, key, k)
    ensures multiset(WithKey(s, key, k)) <= multiset(s)
  {
    if s != [] {
      WithKeyMembers(s[1..], key, k);
      assert s == [s[0]] + s[1..];
      forall i | 0 <= i < |s| && key(s[i]) == k
        ensures s[i] in WithKey(s, key, k)
      {
        if i > 0 { assert s[i] == s[1..][i - 1]; }
      }
    }
  }

  /** Places `x` before the first element whose key is not greater than its own. */
  function InsertDesc<T>(x: T, s: seq<T>, key: T -> int): (r: seq<T>)
  {
    if s == [] then [x]
    else if key(s[0]) <= key(x) then [x] + s
    else [s[0]] + InsertDesc(x, s[1..], key)
  }

  function SortDesc<T>(xs: seq<T>, key: T -> int): (r: seq<T>)
  {
    if xs == [] then [] else InsertDesc(xs[0], SortDesc(xs[1..], key), key)
  }

  lemma {:induction false} InsertDescPerm<T>(x: T, s: seq<T>, key: T -> int)
    ensures multiset(InsertDesc(x, s, key)) == multiset(s) + multiset{x}
  {
    if s != [] && key(s[0]) > key(x) {
      InsertDescPerm(x, s[1..], key);
      assert s == [s[0]] + s[1..];
    }
  }

  lemma DescendingTail<T>(s: seq<T>, key: T -> int)
    requires s != [] && Descending(s, key)
    ensures Descending(s[1..], key)
  {
    var t := s[1..];
    forall i, j | 0 <= i < j < |t| ensures key(t[i]) >= key(t[j]) {
      assert t[i] == s[i + 1] && t[j] == s[j + 1];
    }
  }

  /** A head whose key bounds every key of a descending tail keeps it descending. */
  lemma DescendingCons<T>(h: T, t: seq<T>, key: T -> int)
    requires Descending(t, key)
    requires forall k :: 0 <= k < |t| ==> key(t[k]) <= key(h)
    ensures Descending([h] + t, key)
  {
    var r := [h] + t;
    forall i, j | 0 <= i < j < |r| ensures key(r[i]) >= key(r[j]) {
      assert r[j] == t[j - 1];
      if i > 0 {
        assert r[i] == t[i - 1];
      }
    }
  }

  /** Inserting keeps every key under a bound that held for `x` and for all of `s`. */
  lemma {:induction false} InsertDescBound<T>(x: T, s: seq<T>, key: T -> int, b: int)
    requires key(x) <= b
    requires forall k :: 0 <= k < |s| ==> key(s[k]) <= b
    ensures forall k :: 0 <= k < |InsertDesc(x, s, key)| ==> key(InsertDesc(x, s, key)[k]) <= b
  {
    if s != [] && key(s[0]) > key(x) {
      var t := s[1..];
      assert forall k :: 0 <= k < |t| ==> t[k] == s[k + 1];
      InsertDescBound(x, t, key, b);
      var it := InsertDesc(x, t, key);
      assert InsertDesc(x, s, key) == [s[0]] + it;
      assert forall k :: 1 <= k < |[s[0]] + it| ==> ([s[0]] + it)[k] == it[k - 1];
    } else if s != [] {
      assert forall k :: 1 <= k < |[x] + s| ==> ([x] + s)[k] == s[k - 1];
    }
  }

  lemma {:induction false} InsertDescSorted<T>(x: T, s: seq<T>, key: T -> int)
    requires Descending(s, key)
    ensures Descending(InsertDesc(x, s, key), key)
  {
    if s == [] {
    } else if key(s[0]) <= key(x) {
      assert forall k :: 0 <= k < |s| ==> key(s[k]) <= key(s[0]);
      DescendingCons(x, s, key);
    } else {
      var t := s[1..];
      DescendingTail(s, key);
      InsertDescSorted(x, t, key);
      assert forall k :: 0 <= k < |t| ==> t[k] == s[k + 1];
      InsertDescBound(x, t, key, key(s[0]));
      DescendingCons(s[0], InsertDesc(x, t, key), key);
    }
  }

  lemma {:induction false} InsertDescWithKey<T>(x: T, s: seq<T>, key: T -> int, k: int)
    ensures WithKey(InsertDesc(x, s, key), key, k) ==
      if key(x) == k then [x] + WithKey(s, key, k) else WithKey(s, key, k)
  {
    if s == [] {
      assert WithKey([x], key, k) == (if key(x) == k then [x] else []) + WithKey([], key, k);
    } else if key(s[0]) <= key(x) {
      var r := [x] + s;
      assert r[1..] == s;
      if key(x) == k && key(s[0]) == k {
        // both selected; the order is x first, exactly as in [x] + s
      }
    } else {
      InsertDescWithKey(x, s[1..], key, k);
      var r := [s[0]] + InsertDesc(x, s[1..], key);
      assert r[1..] == InsertDesc(x, s[1..], key);
      assert s == [s[0]] + s[1..];
      if key(x) == k {
        // s[0] has a strictly larger key than x, so it is not selected
        assert key(s[0]) != k;
      }
    }
  }

  /**
   * `SortDesc` is Python's `sorted(xs, key=key, reverse=True)`: the output is
   * non-increasing in the key, a permutation of the input, and elements with
   * equal keys keep their input order.
   */
  lemma {:induction false} SortDescFacts<T>(xs: seq<T>, key: T -> int)
    ensures Descending(SortDesc(xs, key), key)
    ensures multiset(SortDesc(xs, key)) == multiset(xs)
    ensures forall k :: WithKey(SortDesc(xs, key), key, k) == WithKey(xs, key, k)
  {
    if xs != [] {
      var rest := SortDesc(xs[1..], key);
      SortDescFacts(xs[1..], key);
      InsertDescSorted(xs[0], rest, key);
      InsertDescPerm(xs[0], rest, key);
      assert xs == [xs[0]] + xs[1..];
      assert multiset(xs) == multiset{xs[0]} + multiset(xs[1..]);
      forall k ensures WithKey(SortDesc(xs, key), key, k) == WithKey(xs, key, k) {
        InsertDescWithKey(xs[0], rest, key, k);
      }
    }
  }

  lemma SortDescLength<T>(xs: seq<T>, key: T -> int)
    ensures |SortDesc(xs, key)| == |xs|
  {
    SortDescFacts(xs, key);
    assert |multiset(SortDesc(xs, key))| == |multiset(xs)|;
  }

  /** Applies `f` to every element, in order. */
  function Map<T, U>(f: T -> U, s: seq<T>): (r: seq<U>)
    ensures |r| == |s|
    ensures forall i :: 0 <= i < |s| ==> r[i] == f(s[i])
  {
    if s == [] then [] else [f(s[0])] + Map(f, s[1..])
  }

  lemma {:induction false} MapConcat<T, U>(f: T -> U, a: seq<T>, b: seq<T>)
    ensures Map(f, a + b) == Map(f, a) + Map(f, b)
  {
    var l, r := Map(f, a + b), Map(f, a) + Map(f, b);
    assert |l| == |r|;
    forall i | 0 <= i < |l| ensures l[i] == r[i] {
      if i < |a| {
        assert (a + b)[i] == a[i];
      } else {
        assert (a + b)[i] == b[i - |a|];
      }
    }
  }

  lemma ConcatAssoc<T>(a: seq<T>, b: seq<T>, c: seq<T>)
    ensures a + b + c == a + (b + c)
  {
  }

  lemma MultisetRemove<T>(t: seq<T>, j: nat)
    requires j < |t|
    ensures multiset(t[..j] + t[j + 1..]) == multiset(t) - multiset{t[j]}
  {
    assert t == t[..j] + [t[j]] + t[j + 1..];
  }

  /** Removing one copy and adding it back gives the same multiset. */
  lemma MultisetAddBack<T>(t: seq<T>, j: nat)
    requires j < |t|
    ensures multiset(t) == multiset(t[..j] + t[j + 1..]) + multiset{t[j]}
  {
    MultisetRemove(t, j);
    assert t[j] in multiset(t);
  }

  /** Mapping commutes with dropping one position. */
  lemma MapSkip<T, U>(f: T -> U, t: seq<T>, j: nat)
    requires j < |t|
    ensures Map(f, t[..j] + t[j + 1..]) == Map(f, t)[..j] + Map(f, t)[j + 1..]
  {
    var m, rest := Map(f, t), t[..j] + t[j + 1..];
    var mr, ms := Map(f, rest), m[..j] + m[j + 1..];
    assert |mr| == |ms| == |t| - 1;
    forall i | 0 <= i < |mr| ensures mr[i] == ms[i] {
      assert mr[i] == f(rest[i]);
      if i < j {
        assert rest[i] == t[i] && ms[i] == m[i];
      } else {
        assert rest[i] == t[i + 1] && ms[i] == m[i + 1];
      }
    }
  }

  lemma MapRemove<T, U>(f: T -> U, t: seq<T>, j: nat)
    requires j < |t|
    ensures multiset(Map(f, t)) == multiset(Map(f, t[..j] + t[j + 1..])) + multiset{f(t[j])}
  {
    MapSkip(f, t, j);
    MultisetAddBack(Map(f, t), j);
  }

  /** Removing one copy of the same element from two permutations leaves two permutations. */
  lemma RemoveMatching<T>(s: seq<T>, t: seq<T>, j: nat)
    requires s != [] && j < |t| && t[j] == s[0] && multiset(s) == multiset(t)
    ensures multiset(s[1..]) == multiset(t[..j] + t[j + 1..])
  {
    assert s[..0] + s[1..] == s[1..];
    MultisetRemove(s, 0);
    MultisetRemove(t, j);
  }

  /** Mapping adds the image of the removed element back on both sides. */
  lemma MapMatching<T, U>(f: T -> U, s: seq<T>, t: seq<T>, j: nat)
    requires s != [] && j < |t| && t[j] == s[0]
    requires multiset(Map(f, s[1..])) == multiset(Map(f, t[..j] + t[j + 1..]))
    ensures multiset(Map(f, s)) == multiset(Map(f, t))
  {
    assert s[..0] + s[1..] == s[1..];
    MapRemove(f, s, 0);
    MapRemove(f, t, j);
  }

  /** Mapping two permutations of each other gives two permutations of each other. */
  lemma {:induction false} MapMultiset<T, U>(f: T -> U, s: seq<T>, t: seq<T>)
    requires multiset(s) == multiset(t)
    ensures multiset(Map(f, s)) == multiset(Map(f, t))
  {
    if s == [] {
      assert |multiset(t)| == 0;
    } else {
      assert s[0] in multiset(t);
      var j :| 0 <= j < |t| && t[j] == s[0];
      RemoveMatching(s, t, j);
      MapMultiset(f, s[1..], t[..j] + t[j + 1..]);
      MapMatching(f, s, t, j);
    }
  }

  /** The elements of `s` that satisfy `p`, in order (a comprehension with an `if`). */
  function Filter<T>(p: T -> bool, s: seq<T>): (r: seq<T>)
    ensures |r| <= |s|
  {
    if s == [] then [] else (if p(s[0]) then [s[0]] else []) + Filter(p, s[1..])
  }

  lemma {:induction false} FilterMembers<T>(p: T -> bool, s: seq<T>)
    ensures forall x :: x in Filter(p, s) <==> x in s && p(x)
    ensures multiset(Filter(p, s)) <= multiset(s)
  {
    if s != [] {
      FilterMembers(p, s[1..]);
      assert s == [s[0]] + s[1..];
    }
  }

  lemma {:induction false} FilterConcat<T>(p: T -> bool, a: seq<T>, b: seq<T>)
    ensures Filter(p, a + b) == Filter(p, a) + Filter(p, b)
  {
    if a != [] {
      assert (a + b)[1..] == a[1..] + b;
      FilterConcat(p, a[1..], b);
    } else {
      assert a + b == b;
    }
  }

  // ---------------------------------------------------------------------
  // Python's ordering of str values: lexicographic by code point

  predicate StrLess(a: string, b: string)
  {
    if a == [] then b != []
    else if b == [] then false
    else if a[0] != b[0] then a[0] < b[0]
    else StrLess(a[1..], b[1..])
  }

  lemma {:induction false} StrLessIrreflexive(a: string)
    ensures !StrLess(a, a)
  {
    if a != [] {
      StrLessIrreflexive(a[1..]);
    }
  }

  lemma {:induction false} StrLessTotal(a: string, b: string)
    requires a != b
    ensures StrLess(a, b) || StrLess(b, a)
  {
    if a != [] && b != [] && a[0] == b[0] {
      assert a == [a[0]] + a[1..] && b == [b[0]] + b[1..];
      StrLessTotal(a[1..], b[1..]);
    }
  }

  lemma {:induction false} StrLessTransitive(a: string, b: string, c: string)
    requires StrLess(a, b) && StrLess(b, c)
    ensures StrLess(a, c)
  {
    if a != [] && a[0] == b[0] && b[0] == c[0] {
      StrLessTransitive(a[1..], b[1..], c[1..]);
    }
  }

  function Elems<T>(s: seq<T>): set<T>
  {
    set x | x in s
  }

  /** Every later element is strictly smaller: descending with no repeats. */
  predicate StrictlyDescending(s: seq<string>)
  {
    forall i, j :: 0 <= i < j < |s| ==> StrLess(s[j], s[i])
  }

  /** Adds `x` to a strictly descending list unless it is already there. */
  function InsertName(x: string, s: seq<string>): seq<string>
  {
    if s == [] then [x]
    else if s[0] == x then s
    else if StrLess(s[0], x) then [x] + s
    else [s[0]] + InsertName(x, s[1..])
  }

  /** `sorted(set(xs), reverse=True)`: the distinct names in descending order. */
  function SortNamesDesc(xs: seq<string>): seq<string>
  {
    if xs == [] then [] else InsertName(xs[0], SortNamesDesc(xs[1..]))
  }

  lemma {:induction false} InsertNameElems(x: string, s: seq<string>)
    ensures Elems(InsertName(x, s)) == Elems(s) + {x}
  {
    if s == [] {
      ElemsCons(x, []);
    } else {
      assert s == [s[0]] + s[1..];
      ElemsCons(s[0], s[1..]);
      if s[0] == x {
      } else if StrLess(s[0], x) {
        ElemsCons(x, s);
      } else {
        InsertNameElems(x, s[1..]);
        ElemsCons(s[0], InsertName(x, s[1..]));
      }
    }
  }

  lemma ElemsCons<T>(a: T, s: seq<T>)
    ensures Elems([a] + s) == {a} + Elems(s)
  {
    assert forall y :: y in [a] + s <==> y == a || y in s;
  }

  lemma {:induction false} InsertNameSorted(x: string, s: seq<string>)
    requires StrictlyDescending(s)
    ensures StrictlyDescending(InsertName(x, s))
  {
    if s == [] || s[0] == x {
    } else if StrLess(s[0], x) {
      var r := [x] + s;
      forall i, j | 0 <= i < j < |r| ensures StrLess(r[j], r[i]) {
        if i == 0 {
          if j > 1 {
            StrLessTransitive(s[j - 1], s[0], x);
          }
        } else {
          assert r[i] == s[i - 1] && r[j] == s[j - 1];
        }
      }
    } else {
      StrLessTotal(s[0], x);
      var t := s[1..];
      assert StrictlyDescending(t) by {
        forall i, j | 0 <= i < j < |t| ensures StrLess(t[j], t[i]) {
          assert t[i] == s[i + 1] && t[j] == s[j + 1];
        }
      }
      InsertNameSorted(x, t);
      InsertNameElems(x, t);
      var it := InsertName(x, t);
      var r := [s[0]] + it;
      forall i, j | 0 <= i < j < |r| ensures StrLess(r[j], r[i]) {
        SortedHead(s[0], t, it, x, i, j);
      }
    }
  }

  lemma SortedHead(h: string, t: seq<string>, it: seq<string>, x: string, i: nat, j: nat)
    requires StrictlyDescending([h] + t) && StrictlyDescending(it) && StrLess(x, h)
    requires Elems(it) == Elems(t) + {x}
    requires i < j < 1 + |it|
    ensures StrLess(([h] + it)[j], ([h] + it)[i])
  {
    var r := [h] + it;
    assert r[j] == it[j - 1];
    if i == 0 {
      assert r[0] == h;
      assert it[j - 1] in Elems(t) + {x};
      if it[j - 1] != x {
        var q :| 0 <= q < |t| && t[q] == it[j - 1];
        var ht := [h] + t;
        assert ht[0] == h && ht[q + 1] == t[q];
        assert StrLess(ht[q + 1], ht[0]);
      }
    } else {
      assert r[i] == it[i - 1];
    }
  }

  /**
   * The sorted names are strictly descending in Python's string order, so
   * each appears once, and they are exactly the names given.
   */
  lemma {:induction false} SortNamesDescFacts(xs: seq<string>)
    ensures StrictlyDescending(SortNamesDesc(xs))
    ensures Elems(SortNamesDesc(xs)) == Elems(xs)
  {
    if xs != [] {
      SortNamesDescFacts(xs[1..]);
      InsertNameSorted(xs[0], SortNamesDesc(xs[1..]));
      InsertNameElems(xs[0], SortNamesDesc(xs[1..]));
      assert xs == [xs[0]] + xs[1..];
    }
  }

  /** Each element once, at its first occurrence (`list(dict.fromkeys(s))`). */
  function Dedup<T(==)>(s: seq<T>): seq<T>
  {
    if s == [] then []
    else
      var d := Dedup(s[..|s| - 1]);
      if s[|s| - 1] in d then d else d + [s[|s| - 1]]
  }

  predicate NoDuplicates<T(==)>(s: seq<T>)
  {
    forall i, j :: 0 <= i < j < |s| ==> s[i] != s[j]
  }

  lemma {:induction false} DedupFacts<T>(s: seq<T>)
    ensures forall x :: x in Dedup(s) <==> x in s
    ensures NoDuplicates(Dedup(s))
  {
    if s != [] {
      DedupFacts(s[..|s| - 1]);
      assert forall x :: x in s <==> x in s[..|s| - 1] || x == s[|s| - 1];
    }
  }

  // ---------------------------------------------------------------------
  // First positions of primary keys, and the order a queryset filter keeps

  /**
   * The first index of `x` in `s`, and `|s|` when `x` is absent
   * (`When(pk=pk, then=pos)` takes the first position that matches).
   */
  function FirstPos(s: seq<int>, x: int): nat
  {
    if s == [] then 0 else if s[0] == x then 0 else 1 + FirstPos(s[1..], x)
  }

  lemma {:induction false} FirstPosFacts(s: seq<int>, x: int)
    requires x in s
    ensures FirstPos(s, x) < |s| && s[FirstPos(s, x)] == x
    ensures forall k :: 0 <= k < FirstPos(s, x) ==> s[k] != x
  {
    if s[0] != x {
      assert s == [s[0]] + s[1..];
      FirstPosFacts(s[1..], x);
      var p := FirstPos(s[1..], x);
      assert forall k :: 0 < k <= p ==> s[k] == s[1..][k - 1];
    }
  }

  lemma {:induction false} FirstPosConcat(a: seq<int>, b: seq<int>, x: int)
    ensures FirstPos(a + b, x) == if x in a then FirstPos(a, x) else |a| + FirstPos(b, x)
  {
    if a == [] {
      assert a + b == b;
    } else {
      assert (a + b)[1..] == a[1..] + b;
      assert a == [a[0]] + a[1..];
      FirstPosConcat(a[1..], b, x);
    }
  }

  /** `r` lists elements of `s` in the order in which they first occur in `s`. */
  predicate KeepsOrder(r: seq<int>, s: seq<int>)
  {
    forall i, j :: 0 <= i < j < |r| ==> FirstPos(s, r[i]) < FirstPos(s, r[j])
  }

  /** `distinct()` keeps the first of equal elements and never reorders them. */
  lemma {:induction false} DedupKeepsOrder(s: seq<int>)
    ensures KeepsOrder(Dedup(s), s)
  {
    if s != [] {
      var init := s[..|s| - 1];
      var last := s[|s| - 1];
      assert s == init + [last];
      DedupKeepsOrder(init);
      DedupFacts(init);
      var d := Dedup(init);
      forall i | 0 <= i < |d|
        ensures FirstPos(s, d[i]) == FirstPos(init, d[i]) < |init|
      {
        assert d[i] in d;
        assert d[i] in init;
        FirstPosConcat(init, [last], d[i]);
        FirstPosFacts(init, d[i]);
      }
      if last !in d {
        FirstPosConcat(init, [last], last);
        assert FirstPos(s, last) == |init|;
        var r := d + [last];
        forall i, j | 0 <= i < j < |r| ensures FirstPos(s, r[i]) < FirstPos(s, r[j]) {
          assert r[i] == d[i];
          if j < |d| { assert r[j] == d[j]; }
        }
      }
    }
  }

  /**
   * A filter on values keeps every occurrence of a kept value, so two kept
   * values first occur in the filtered list in the order they first occur
   * in the input.
   */
  lemma {:induction false} FilterFirstPos(p: int -> bool, s: seq<int>, x: int, y: int)
    requires x in Filter(p, s) && y in Filter(p, s)
    ensures FirstPos(Filter(p, s), x) < FirstPos(Filter(p, s), y) ==> FirstPos(s, x) < FirstPos(s, y)
  {
    FilterMembers(p, s);
    var a, t := s[0], s[1..];
    var ft := Filter(p, t);
    FilterMembers(p, t);
    if p(a) {
      assert Filter(p, s) == [a] + ft;
      if x != a && y != a {
        assert x in ft && y in ft;
        FilterFirstPos(p, t, x, y);
      }
    } else {
      assert Filter(p, s) == ft;
      FilterFirstPos(p, t, x, y);
    }
  }

  /** The rows a value filter and then `distinct()` leave are in the input's order. */
  lemma DedupFilterKeepsOrder(p: int -> bool, s: seq<int>)
    ensures KeepsOrder(Dedup(Filter(p, s)), s)
  {
    var k := Filter(p, s);
    var r := Dedup(k);
    DedupKeepsOrder(k);
    DedupFacts(k);
    forall i, j | 0 <= i < j < |r| ensures FirstPos(s, r[i]) < FirstPos(s, r[j]) {
      assert r[i] in r && r[j] in r;
      assert r[i] in k && r[j] in k;
      FilterFirstPos(p, s, r[i], r[j]);
    }
  }
}
