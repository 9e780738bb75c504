/** The array operations of the source: `filter`, `map`, and keys that tell elements apart. */
module Lists {
  import opened Common

  function Front<T>(s: seq<T>): seq<T>
    requires s != []
  {
    s[..|s| - 1]
  }

  function Last<T>(s: seq<T>): T
    requires s != []
  {
    s[|s| - 1]
  }

  /** `s.slice(-n)` for a positive `n`. */
  function LastN<T>(s: seq<T>, n: nat): seq<T> {
    if |s| <= n then s else s[|s| - n..]
  }

  lemma LastNSnoc<T>(s: seq<T>, x: T, n: nat)
    requires n > 0
    ensures LastN(s + [x], n) == LastN(s, n - 1) + [x]
  {
  }

  lemma LastNTwice<T>(s: seq<T>, m: nat, n: nat)
    requires n <= m
    ensures LastN(LastN(s, m), n) == LastN(s, n)
  {
  }

  /** `s.slice(0, n)`. */
  function FirstN<T>(s: seq<T>, n: nat): seq<T> {
    if |s| <= n then s else s[..n]
  }

  /** `s.filter(p)`. */
  function Keep<T>(s: seq<T>, p: T -> bool): seq<T> {
    if s == [] then [] else Keep(Front(s), p) + if p(Last(s)) then [Last(s)] else []
  }

  /** `s.map(f)`. */
  function Transform<T, R>(s: seq<T>, f: T -> R): (r: seq<R>)
    ensures |r| == |s|
    ensures forall i :: 0 <= i < |s| ==> r[i] == f(s[i])
  {
    if s == [] then [] else Transform(Front(s), f) + [f(Last(s))]
  }

  /** The last element that `p` holds of, as a map filled in list order would give it. */
  function Latest<T>(s: seq<T>, p: T -> bool): Option<T> {
    if s == [] then None else if p(Last(s)) then Some(Last(s)) else Latest(Front(s), p)
  }

  lemma {:induction false} LatestIsIn<T(!new)>(s: seq<T>, p: T -> bool)
    ensures Latest(s, p).None? <==> forall x :: x in s ==> !p(x)
    ensures Latest(s, p).Some? ==> Latest(s, p).value in s && p(Latest(s, p).value)
  {
    if s != [] {
      LatestIsIn(Front(s), p);
      assert s == Front(s) + [Last(s)];
    }
  }

  lemma {:induction false} LatestInTransform<T(!new)>(s: seq<T>, f: T -> T, p: T -> bool)
    requires forall x :: p(f(x)) == p(x)
    ensures Latest(Transform(s, f), p) == if Latest(s, p).Some? then Some(f(Latest(s, p).value)) else None
  {
    if s != [] {
      LatestInTransform(Front(s), f, p);
      assert Front(Transform(s, f)) == Transform(Front(s), f);
    }
  }

  /** Filtering keeps what is looked for, or drops every candidate. */
  lemma {:induction false} LatestInKeep<T(!new)>(s: seq<T>, kept: T -> bool, p: T -> bool)
    ensures (forall x :: x in s && p(x) ==> kept(x)) ==> Latest(Keep(s, kept), p) == Latest(s, p)
    ensures (forall x :: x in s && p(x) ==> !kept(x)) ==> Latest(Keep(s, kept), p) == None
  {
    if s != [] {
      LatestInKeep(Front(s), kept, p);
      assert s == Front(s) + [Last(s)];
      if kept(Last(s)) {
        assert Front(Keep(s, kept)) == Keep(Front(s), kept);
      } else {
        assert Keep(s, kept) == Keep(Front(s), kept);
      }
    }
  }

  ghost predicate DistinctBy<T, K>(s: seq<T>, key: T -> K) {
    forall i, j :: 0 <= i < j < |s| ==> key(s[i]) != key(s[j])
  }

  lemma {:induction false} KeepElements<T(!new)>(s: seq<T>, p: T -> bool)
    ensures forall x :: x in Keep(s, p) <==> x in s && p(x)
  {
    if s != [] {
      KeepElements(Front(s), p);
      assert s == Front(s) + [Last(s)];
    }
  }

  lemma {:induction false} KeepConcat<T>(a: seq<T>, b: seq<T>, p: T -> bool)
    ensures Keep(a + b, p) == Keep(a, p) + Keep(b, p)
  {
    if b == [] {
      assert a + b == a;
    } else {
      assert Front(a + b) == a + Front(b);
      KeepConcat(a, Front(b), p);
    }
  }

  lemma {:induction false} KeepIsShorter<T>(s: seq<T>, p: T -> bool)
    ensures |Keep(s, p)| <= |s|
  {
    if s != [] {
      KeepIsShorter(Front(s), p);
    }
  }

  lemma {:induction false} KeepDistinct<T(!new), K>(s: seq<T>, p: T -> bool, key: T -> K)
    requires DistinctBy(s, key)
    ensures DistinctBy(Keep(s, p), key)
  {
    if s != [] {
      KeepDistinct(Front(s), p, key);
      KeepElements(Front(s), p);
      var kept := Keep(Front(s), p);
      forall i | 0 <= i < |kept|
        ensures key(kept[i]) != key(Last(s))
      {
        assert kept[i] in Front(s);
      }
    }
  }

  lemma TransformDistinct<T, R, K, L>(s: seq<T>, f: T -> R, key: T -> K, newKey: R -> L)
    requires DistinctBy(s, key)
    requires forall x, y :: x in s && y in s && newKey(f(x)) == newKey(f(y)) ==> key(x) == key(y)
    ensures DistinctBy(Transform(s, f), newKey)
  {
    var r := Transform(s, f);
    forall i, j | 0 <= i < j < |r|
      ensures newKey(r[i]) != newKey(r[j])
    {
      assert s[i] in s && s[j] in s;
    }
  }

  lemma ConcatDistinct<T, K>(a: seq<T>, b: seq<T>, key: T -> K)
    requires DistinctBy(a, key) && DistinctBy(b, key)
    requires forall x, y :: x in a && y in b ==> key(x) != key(y)
    ensures DistinctBy(a + b, key)
  {
    var c := a + b;
    forall i, j | 0 <= i < j < |c|
      ensures key(c[i]) != key(c[j])
    {
      if i < |a| <= j {
        assert c[i] in a && c[j] in b;
      }
    }
  }

  /** No two elements of `s` are equal. */
  predicate NoRepeat<T(==)>(s: seq<T>) {
    s == [] || (NoRepeat(Front(s)) && Last(s) !in Front(s))
  }

  /** `s` without its `k`-th element. */
  function Removed<T>(s: seq<T>, k: nat): (r: seq<T>)
    requires k < |s|
    ensures |r| == |s| - 1
    ensures forall i :: 0 <= i < |r| ==> r[i] == if i < k then s[i] else s[i + 1]
  {
    s[..k] + s[k + 1..]
  }

  /** `s.filter(p).length`. */
  function Count<T>(s: seq<T>, p: T -> bool): nat {
    if s == [] then 0 else Count(Front(s), p) + if p(Last(s)) then 1 else 0
  }

  lemma {:induction false} CountSplit<T>(a: seq<T>, b: seq<T>, p: T -> bool)
    ensures Count(a + b, p) == Count(a, p) + Count(b, p)
  {
    if b == [] {
      assert a + b == a;
    } else {
      assert Front(a + b) == a + Front(b);
      CountSplit(a, Front(b), p);
    }
  }

  lemma CountOneMore<T>(s: seq<T>, x: T, p: T -> bool)
    ensures Count(s + [x], p) == Count(s, p) + if p(x) then 1 else 0
  {
    assert Front(s + [x]) == s;
  }

  lemma CountRemoved<T>(s: seq<T>, k: nat, p: T -> bool)
    requires k < |s|
    ensures Count(Removed(s, k), p) + (if p(s[k]) then 1 else 0) == Count(s, p)
  {
    CountSplit(s[..k], s[k + 1..], p);
    CountOneMore(s[..k], s[k], p);
    CountSplit(s[..k] + [s[k]], s[k + 1..], p);
    assert s == s[..k] + [s[k]] + s[k + 1..];
  }

  lemma {:induction false} CountNone<T>(s: seq<T>, p: T -> bool)
    requires forall i :: 0 <= i < |s| ==> !p(s[i])
    ensures Count(s, p) == 0
  {
    if s != [] {
      CountNone(Front(s), p);
    }
  }
}
