/** Sequence operations the ledger's components are built from: JavaScript's
    `filter`, `reduce` with `+`, `join`, `split`, and the insertion-ordered
    keys of an object used as a dictionary. Recursion peels the LAST element,
    so a loop that extends a prefix one element at a time unfolds them directly. */
module Seqs {

  /** The elements of `s` that satisfy `p`, in their original order. */
  function Filter<T(!new)>(p: T -> bool, s: seq<T>): (r: seq<T>)
    ensures |r| <= |s|
    ensures forall x :: x in r <==> x in s && p(x)
  {
    if s == [] then []
    else
      var init := Filter(p, s[..|s| - 1]);
      assert s == s[..|s| - 1] + [s[|s| - 1]];
      if p(s[|s| - 1]) then init + [s[|s| - 1]] else init
  }

  /** The filter keeps every copy of a selected element and no copy of the others. */
  lemma {:induction false} FilterCounts<T(!new)>(p: T -> bool, s: seq<T>)
    ensures forall x :: multiset(Filter(p, s))[x] == if p(x) then multiset(s)[x] else 0
    decreases |s|
  {
    if s != [] {
      var init, last := s[..|s| - 1], s[|s| - 1];
      FilterCounts(p, init);
      assert s == init + [last];
    }
  }


  /** Taking the last element off one of two permutations of each other, and
      the same element off the other wherever it sits, leaves permutations. */
  lemma MultisetRemoveLast<T>(a: seq<T>, b: seq<T>, j: int)
    requires |a| > 0 && multiset(a) == multiset(b)
    requires 0 <= j < |b| && b[j] == a[|a| - 1]
    ensures multiset(a[..|a| - 1]) == multiset(b[..j] + b[j + 1..])
  {
    var init, x, b1, b2 := a[..|a| - 1], a[|a| - 1], b[..j], b[j + 1..];
    assert a == init + [x];
    assert b == b1 + [x] + b2;
    assert multiset(a) == multiset(init) + multiset{x};
    assert multiset(b) == multiset(b1 + b2) + multiset{x};
    forall y ensures multiset(init)[y] == multiset(b1 + b2)[y] {
      assert multiset(a)[y] == multiset(b)[y];
    }
  }
  /** `a` is `b` with some elements left out, the rest in their original order. */
  predicate IsSubsequence<T(==)>(a: seq<T>, b: seq<T>)
    decreases |b|
  {
    if a == [] then true
    else if b == [] then false
    else if a[|a| - 1] == b[|b| - 1] then IsSubsequence(a[..|a| - 1], b[..|b| - 1])
    else IsSubsequence(a, b[..|b| - 1])
  }

  lemma {:induction false} FilterIsSubsequence<T(!new)>(p: T -> bool, s: seq<T>)
    ensures IsSubsequence(Filter(p, s), s)
    decreases |s|
  {
    if s != [] {
      var init, last := s[..|s| - 1], s[|s| - 1];
      FilterIsSubsequence(p, init);
      var r := Filter(p, s);
      if !p(last) && r != [] {
        assert r[|r| - 1] in r;
      }
    }
  }

  lemma {:induction false} FilterAppend<T(!new)>(p: T -> bool, a: seq<T>, b: seq<T>)
    ensures Filter(p, a + b) == Filter(p, a) + Filter(p, b)
    decreases |b|
  {
    if b == [] {
      assert a + b == a;
    } else {
      assert (a + b)[..|a + b| - 1] == a + b[..|b| - 1];
      FilterAppend(p, a, b[..|b| - 1]);
    }
  }

  /** A filter that keeps everything is the identity. */
  lemma {:induction false} FilterKeepsAll<T(!new)>(p: T -> bool, s: seq<T>)
    requires forall x :: x in s ==> p(x)
    ensures Filter(p, s) == s
    decreases |s|
  {
    if s != [] {
      FilterKeepsAll(p, s[..|s| - 1]);
      assert s == s[..|s| - 1] + [s[|s| - 1]];
    }
  }

  /** A filter that keeps nothing yields the empty sequence. */
  lemma FilterKeepsNone<T(!new)>(p: T -> bool, s: seq<T>)
    requires forall x :: x in s ==> !p(x)
    ensures Filter(p, s) == []
  {
    if Filter(p, s) != [] {
      assert Filter(p, s)[0] in Filter(p, s);
    }
  }

  /** Filtering with two predicates that agree on the elements gives the same result. */
  lemma {:induction false} FilterSamePredicate<T(!new)>(p: T -> bool, q: T -> bool, s: seq<T>)
    requires forall i :: 0 <= i < |s| ==> p(s[i]) == q(s[i])
    ensures Filter(p, s) == Filter(q, s)
    decreases |s|
  {
    if s != [] {
      FilterSamePredicate(p, q, s[..|s| - 1]);
    }
  }

  /** The prefix of length i + 1 is the prefix of length i and then element i. */
  lemma TakeSnoc<T>(s: seq<T>, i: int)
    requires 0 <= i < |s|
    ensures s[..i + 1] == s[..i] + [s[i]]
  {
  }

  /** Left-to-right sum of `w` over `s`: `s.reduce((acc, x) => acc + w(x), 0)`. */
  function Sum<T>(w: T -> real, s: seq<T>): real
  {
    if s == [] then 0.0 else Sum(w, s[..|s| - 1]) + w(s[|s| - 1])
  }

  lemma {:induction false} SumAppend<T>(w: T -> real, a: seq<T>, b: seq<T>)
    ensures Sum(w, a + b) == Sum(w, a) + Sum(w, b)
    decreases |b|
  {
    if b == [] {
      assert a + b == a;
    } else {
      assert (a + b)[..|a + b| - 1] == a + b[..|b| - 1];
      SumAppend(w, a, b[..|b| - 1]);
    }
  }
  /** A sum does not depend on the order of what it sums. */
  lemma {:induction false} SumPermutation<T>(w: T -> real, a: seq<T>, b: seq<T>)
    requires multiset(a) == multiset(b)
    ensures Sum(w, a) == Sum(w, b)
    decreases |a|
  {
    if a == [] {
      assert |b| == |multiset(b)| == 0;
    } else {
      var init, x := a[..|a| - 1], a[|a| - 1];
      assert x in multiset(b);
      var j :| 0 <= j < |b| && b[j] == x;
      var b1, b2 := b[..j], b[j + 1..];
      MultisetRemoveLast(a, b, j);
      SumPermutation(w, init, b1 + b2);
      SumAppend(w, b1 + [x], b2);
      SumAppend(w, b1, [x]);
      SumAppend(w, b1, b2);
      assert b == b1 + [x] + b2;
    }
  }


  /** The predicate "the key of x is k". */
  function KeyIs<T(!new), K(==,!new)>(key: T -> K, k: K): T -> bool
  {
    x => key(x) == k
  }

  /** A filtered sum over two batches is the sum of the filtered sums. */
  lemma SumFilterAppend<T(!new)>(w: T -> real, p: T -> bool, a: seq<T>, b: seq<T>)
    ensures Sum(w, Filter(p, a + b)) == Sum(w, Filter(p, a)) + Sum(w, Filter(p, b))
  {
    FilterAppend(p, a, b);
    SumAppend(w, Filter(p, a), Filter(p, b));
  }

  /** Summing `w` over the elements that satisfy `p` is summing a weight
      `v` that is `w` on those elements and 0 on the others. */
  lemma {:induction false} SumFilterAsWeights<T(!new)>(w: T -> real, p: T -> bool, v: T -> real, s: seq<T>)
    requires forall x :: v(x) == if p(x) then w(x) else 0.0
    ensures Sum(w, Filter(p, s)) == Sum(v, s)
    decreases |s|
  {
    if s != [] {
      SumFilterAsWeights(w, p, v, s[..|s| - 1]);
    }
  }

  /** Pairwise distinct elements. */
  ghost predicate Distinct<K>(ks: seq<K>)
  {
    forall i, j :: 0 <= i < j < |ks| ==> ks[i] != ks[j]
  }

  /** The distinct keys of the elements of `s`, in order of first occurrence:
      the key order of a JavaScript object filled by `obj[key(x)] ??= ...`
      for x in s (keys that are not array indices keep insertion order). */
  function Keys<T(!new), K(==,!new)>(key: T -> K, s: seq<T>): (ks: seq<K>)
    ensures Distinct(ks)
    ensures forall k :: k in ks <==> exists x :: x in s && key(x) == k
  {
    if s == [] then []
    else
      var init, last := s[..|s| - 1], s[|s| - 1];
      assert s == init + [last];
      var ks := Keys(key, init);
      if key(last) in ks then ks else ks + [key(last)]
  }

  /** A key that no element carries selects nothing. */
  lemma AbsentKeySelectsNothing<T(!new), K(!new)>(key: T -> K, k: K, s: seq<T>)
    requires k !in Keys(key, s)
    ensures Filter(KeyIs(key, k), s) == []
  {
    FilterKeepsNone(KeyIs(key, k), s);
  }

  /** Sum over the groups `ks` of the per-group sums of `w`. */
  function GroupTotal<T(!new), K(==,!new)>(key: T -> K, w: T -> real, ks: seq<K>, s: seq<T>): real
  {
    if ks == [] then 0.0
    else GroupTotal(key, w, ks[..|ks| - 1], s) + Sum(w, Filter(KeyIs(key, ks[|ks| - 1]), s))
  }

  /** Adding one element `x` to the data adds `w(x)` to exactly one group
      total: the group of its key, if that key is among `ks`. */
  lemma {:induction false} GroupTotalSnoc<T(!new), K(!new)>(key: T -> K, w: T -> real, ks: seq<K>, s: seq<T>, x: T)
    requires Distinct(ks)
    ensures GroupTotal(key, w, ks, s + [x])
         == GroupTotal(key, w, ks, s) + (if key(x) in ks then w(x) else 0.0)
    decreases |ks|
  {
    if ks != [] {
      var init, k := ks[..|ks| - 1], ks[|ks| - 1];
      assert ks == init + [k];
      GroupTotalSnoc(key, w, init, s, x);
      FilterAppend(KeyIs(key, k), s, [x]);
      assert Filter(KeyIs(key, k), [x]) == Filter(KeyIs(key, k), [x][..0]) + (if key(x) == k then [x] else []);
      SumAppend(w, Filter(KeyIs(key, k), s), Filter(KeyIs(key, k), [x]));
      if key(x) == k {
        assert key(x) !in init by {
          forall i | 0 <= i < |init| ensures init[i] != k {
            assert ks[i] != ks[|ks| - 1];
          }
        }
      }
    }
  }

  /** The first element with a new key is alone in its group. */
  lemma NewKeyGroup<T(!new), K(!new)>(key: T -> K, w: T -> real, s: seq<T>, x: T)
    requires key(x) !in Keys(key, s)
    ensures Sum(w, Filter(KeyIs(key, key(x)), s + [x])) == w(x)
  {
    var p := KeyIs(key, key(x));
    AbsentKeySelectsNothing(key, key(x), s);
    FilterAppend(p, s, [x]);
    assert Filter(p, [x]) == Filter(p, [x][..0]) + [x];
    assert Sum(w, [x]) == Sum(w, [x][..0]) + w(x);
  }

  /** Summing each group's total over all the keys of the data gives the
      total over the data: every element lands in exactly one group. */
  lemma {:induction false} GroupTotalOfKeys<T(!new), K(!new)>(key: T -> K, w: T -> real, s: seq<T>)
    ensures GroupTotal(key, w, Keys(key, s), s) == Sum(w, s)
    decreases |s|
  {
    if s != [] {
      var init, last := s[..|s| - 1], s[|s| - 1];
      assert s == init + [last];
      var ks := Keys(key, init);
      assert Sum(w, s) == Sum(w, init) + w(last);
      GroupTotalOfKeys(key, w, init);
      GroupTotalSnoc(key, w, ks, init, last);
      if key(last) in ks {
        assert Keys(key, s) == ks;
      } else {
        var ks' := ks + [key(last)];
        assert Keys(key, s) == ks';
        assert ks'[..|ks'| - 1] == ks;
        NewKeyGroup(key, w, init, last);
        assert GroupTotal(key, w, ks', s) == GroupTotal(key, w, ks, s) + w(last);
      }
    }
  }

  /** Rows `rows` that stand one for one for the groups `ks`, each carrying
      its group's sum under `f`, add up to the group total. */
  lemma {:induction false} SumOfGroupRows<T(!new), K(!new), R>(key: T -> K, w: T -> real, ks: seq<K>, s: seq<T>, f: R -> real, rows: seq<R>)
    requires |rows| == |ks|
    requires forall i :: 0 <= i < |ks| ==> f(rows[i]) == Sum(w, Filter(KeyIs(key, ks[i]), s))
    ensures Sum(f, rows) == GroupTotal(key, w, ks, s)
    decreases |ks|
  {
    if ks != [] {
      SumOfGroupRows(key, w, ks[..|ks| - 1], s, f, rows[..|rows| - 1]);
    }
  }

  /** `parts` joined with `sep` between neighbours (JavaScript's `join`). */
  function Join(parts: seq<string>, sep: char): (r: string)
    ensures parts == [] ==> r == ""
    ensures parts != [] ==> parts[0] <= r
  {
    if parts == [] then ""
    else if |parts| == 1 then parts[0]
    else parts[0] + [sep] + Join(parts[1..], sep)
  }

  /** Joining more than one part puts the first part, then `sep`, then the rest. */
  lemma JoinCons(x: string, xs: seq<string>, sep: char)
    requires xs != []
    ensures Join([x] + xs, sep) == x + [sep] + Join(xs, sep)
  {
    assert ([x] + xs)[1..] == xs;
  }

  /** A character other than `sep` that no part holds is not in the join. */
  lemma {:induction false} JoinAvoids(parts: seq<string>, sep: char, c: char)
    requires c != sep
    requires forall i :: 0 <= i < |parts| ==> c !in parts[i]
    ensures c !in Join(parts, sep)
    decreases |parts|
  {
    if |parts| > 1 {
      JoinAvoids(parts[1..], sep, c);
    }
  }

  /** Joining two parts and more: the first, `sep`, the second, `sep`, the rest. */
  lemma JoinCons2(x: string, y: string, xs: seq<string>, sep: char)
    requires xs != []
    ensures Join([x, y] + xs, sep) == x + [sep] + y + [sep] + Join(xs, sep)
  {
    assert [x, y] + xs == [x] + ([y] + xs);
    JoinCons(x, [y] + xs, sep);
    JoinCons(y, xs, sep);
  }

  /** A second part `a`, `sep`, `b` joins to the same text as the parts `a` and `b`. */
  lemma JoinSplitsSecondPart(x: string, a: string, b: string, xs: seq<string>, sep: char)
    requires xs != []
    ensures Join([x, a + [sep] + b] + xs, sep) == Join([x, a, b] + xs, sep)
  {
    JoinCons2(x, a + [sep] + b, xs, sep);
    assert [x, a, b] + xs == [x, a] + ([b] + xs);
    JoinCons2(x, a, [b] + xs, sep);
    JoinCons(b, xs, sep);
  }

  /** `s` cut at every `sep` (JavaScript's `split` with a one-character separator). */
  function Split(s: string, sep: char): (r: seq<string>)
    ensures |r| > 0
    ensures forall i :: 0 <= i < |r| ==> sep !in r[i]
    ensures sep !in s ==> r == [s]
  {
    if s == [] then [""]
    else
      var rest := Split(s[1..], sep);
      assert [s[0]] + s[1..] == s;
      if s[0] == sep then [""] + rest else [[s[0]] + rest[0]] + rest[1..]
  }

  lemma {:induction false} SplitPrefix(p: string, sep: char, rest: string)
    requires sep !in p
    ensures Split(p + [sep] + rest, sep) == [p] + Split(rest, sep)
    ensures Split(p, sep) == [p]
    decreases |p|
  {
    if p == [] {
      assert p + [sep] + rest == [sep] + rest;
      assert ([sep] + rest)[1..] == rest;
    } else {
      assert (p + [sep] + rest)[1..] == p[1..] + [sep] + rest;
      SplitPrefix(p[1..], sep, rest);
      assert [p[0]] + p[1..] == p;
    }
  }

  /** Splitting a join gives the parts back when no part holds the separator. */
  lemma {:induction false} SplitJoin(parts: seq<string>, sep: char)
    requires |parts| > 0
    requires forall i :: 0 <= i < |parts| ==> sep !in parts[i]
    ensures Split(Join(parts, sep), sep) == parts
    decreases |parts|
  {
    if |parts| == 1 {
      SplitPrefix(parts[0], sep, "");
    } else {
      SplitJoin(parts[1..], sep);
      SplitPrefix(parts[0], sep, Join(parts[1..], sep));
      assert [parts[0]] + parts[1..] == parts;
    }
  }
}
