/** The comprehensions of the source, as functions with the facts every proof uses. */
module Sequences {

  /** `[x for x in s if p(x)]`. */
  function Filter<T(!new)>(p: T -> bool, s: seq<T>): (r: seq<T>)
    ensures |r| <= |s|
    ensures forall x :: x in r <==> x in s && p(x)
  {
    if s == [] then []
    else
      var last := s[|s| - 1];
      assert s == s[..|s| - 1] + [last];
      Filter(p, s[..|s| - 1]) + (if p(last) then [last] else [])
  }

  /** `[f(x) for x in s]`. */
  function Map<T, U(!new)>(f: T -> U, s: seq<T>): (r: seq<U>)
    ensures |r| == |s|
    ensures forall i :: 0 <= i < |s| ==> r[i] == f(s[i])
  {
    seq(|s|, i requires 0 <= i < |s| => f(s[i]))
  }

  /** A filter that keeps everything changes nothing. */
  lemma {:induction false} FilterAll<T(!new)>(p: T -> bool, s: seq<T>)
    requires forall x :: x in s ==> p(x)
    ensures Filter(p, s) == s
  {
    if s != [] {
      assert s == s[..|s| - 1] + [s[|s| - 1]];
      FilterAll(p, s[..|s| - 1]);
    }
  }

  lemma FilterSnoc<T(!new)>(p: T -> bool, s: seq<T>, x: T)
    ensures Filter(p, s + [x]) == if p(x) then Filter(p, s) + [x] else Filter(p, s)
  {
  }

  lemma HasMember<T(!new)>(s: seq<T>)
    ensures s == [] || exists x :: x in s
  {
    if s != [] {
      assert s[0] in s;
    }
  }

  /** Filtering distributes over concatenation. */
  lemma {:induction false} FilterConcat<T(!new)>(p: T -> bool, a: seq<T>, b: seq<T>)
    ensures Filter(p, a + b) == Filter(p, a) + Filter(p, b)
  {
    if b == [] {
      assert a + b == a;
    } else {
      var init := b[..|b| - 1];
      assert (a + b)[..|a + b| - 1] == a + init;
      FilterConcat(p, a, init);
    }
  }

  /** Two lists kept at the same places keep as many. */
  lemma {:induction false} FilterMatches<T(!new), U(!new)>(p: T -> bool, a: seq<T>, q: U -> bool, b: seq<U>)
    requires |a| == |b| && forall k :: 0 <= k < |a| ==> p(a[k]) == q(b[k])
    ensures |Filter(p, a)| == |Filter(q, b)|
  {
    if a != [] {
      FilterMatches(p, a[..|a| - 1], q, b[..|b| - 1]);
    }
  }
}
