/**
 * Searches and filters over ordered sequences, the shapes that Python's
 * early-return `for` loops and list comprehensions take in the backend.
 */
module Seqs {
  import opened Wrappers

  function FirstWhereFrom<T>(s: seq<T>, p: T -> bool, k: nat): (r: Option<nat>)
    decreases |s| - k
    ensures r.Some? ==> k <= r.value < |s| && p(s[r.value])
    ensures r.Some? ==> forall j :: k <= j < r.value ==> !p(s[j])
    ensures r.None? ==> forall j :: k <= j < |s| ==> !p(s[j])
  {
    if k >= |s| then None
    else if p(s[k]) then Some(k)
    else FirstWhereFrom(s, p, k + 1)
  }

  /** The index of the first element satisfying `p`: a `for` loop that
      returns on its first hit, or falls off the end. */
  function FirstWhere<T>(s: seq<T>, p: T -> bool): (r: Option<nat>)
    ensures r.Some? ==> r.value < |s| && p(s[r.value])
    ensures r.Some? ==> forall j :: 0 <= j < r.value ==> !p(s[j])
    ensures r.None? ==> forall j :: 0 <= j < |s| ==> !p(s[j])
  {
    FirstWhereFrom(s, p, 0)
  }

  /** `[x for x in s if p(x)]`, defined on prefixes so that an appending loop
      can keep it as its invariant. */
  function Filter<T>(s: seq<T>, p: T -> bool): (r: seq<T>)
    ensures |r| <= |s|
  {
    if s == [] then []
    else Filter(s[..|s| - 1], p) + (if p(s[|s| - 1]) then [s[|s| - 1]] else [])
  }

  /** The filter keeps exactly the elements that satisfy the predicate. */
  lemma {:induction false} FilterMembers<T>(s: seq<T>, p: T -> bool)
    ensures forall x :: x in Filter(s, p) <==> x in s && p(x)
  {
    if s != [] {
      FilterMembers(s[..|s| - 1], p);
      assert s == s[..|s| - 1] + [s[|s| - 1]];
    }
  }

  /** Filtering a concatenation filters each part, in order. */
  lemma {:induction false} FilterAppend<T>(a: seq<T>, b: seq<T>, p: T -> bool)
    ensures Filter(a + b, p) == Filter(a, p) + Filter(b, p)
    decreases |b|
  {
    if b == [] {
      assert a + b == a;
    } else {
      var b' := b[..|b| - 1];
      FilterAppend(a, b', p);
      assert (a + b)[..|a + b| - 1] == a + b';
    }
  }

  lemma {:induction false} FilterNone<T>(s: seq<T>, p: T -> bool)
    requires forall j :: 0 <= j < |s| ==> !p(s[j])
    ensures Filter(s, p) == []
  {
    if s != [] {
      FilterNone(s[..|s| - 1], p);
    }
  }

  /** The first element of a filter is the first element of the input that
      satisfies the predicate. */
  lemma {:induction false} FilterHead<T>(s: seq<T>, p: T -> bool)
    requires Filter(s, p) != []
    ensures FirstWhere(s, p).Some?
    ensures Filter(s, p)[0] == s[FirstWhere(s, p).value]
  {
    if FirstWhere(s, p).None? {
      FilterNone(s, p);
      assert false;
    }
    var k := FirstWhere(s, p).value;
    FilterNone(s[..k], p);
    FilterAppend(s[..k], s[k..], p);
    assert s[..k] + s[k..] == s;
    FilterAppend([s[k]], s[k + 1..], p);
    assert [s[k]] + s[k + 1..] == s[k..];
    assert [s[k]][..0] == [];
    assert Filter([s[k]], p) == [s[k]];
  }

  /** Concatenation of a sequence of sequences. */
  /** `out = []; for x in s: out.extend(f(x))`, defined on prefixes so that
      the appending loop can keep it as its invariant. */
  function ConcatMap<T, U>(s: seq<T>, f: T -> seq<U>): seq<U> {
    if s == [] then [] else ConcatMap(s[..|s| - 1], f) + f(s[|s| - 1])
  }

  lemma ConcatMapSingle<T, U>(x: T, f: T -> seq<U>)
    ensures ConcatMap([x], f) == f(x)
  {
    assert [x][..0] == [];
  }

  lemma ConcatMapStep<T, U>(s: seq<T>, i: nat, f: T -> seq<U>)
    requires i < |s|
    ensures ConcatMap(s[..i + 1], f) == ConcatMap(s[..i], f) + f(s[i])
  {
    assert s[..i + 1][..i] == s[..i];
  }

  /** Mapping a concatenation concatenates the mapped parts. */
  lemma {:induction false} ConcatMapAppend<T, U>(a: seq<T>, b: seq<T>, f: T -> seq<U>)
    ensures ConcatMap(a + b, f) == ConcatMap(a, f) + ConcatMap(b, f)
    decreases |b|
  {
    if b == [] {
      assert a + b == a;
    } else {
      var init := b[..|b| - 1];
      ConcatMapAppend(a, init, f);
      assert (a + b)[..|a + b| - 1] == a + init;
    }
  }

  lemma {:induction false} FilterIdempotent<T>(s: seq<T>, p: T -> bool)
    ensures Filter(Filter(s, p), p) == Filter(s, p)
  {
    if s != [] {
      var init := s[..|s| - 1];
      var x := s[|s| - 1];
      FilterIdempotent(init, p);
      if p(x) {
        FilterAppend(Filter(init, p), [x], p);
        assert [x][..0] == [];
      } else {
        assert Filter(s, p) == Filter(init, p);
      }
    }
  }

  lemma {:induction false} FilterDisjoint<T>(s: seq<T>, p: T -> bool, q: T -> bool)
    requires forall x :: p(x) ==> !q(x)
    ensures Filter(Filter(s, p), q) == []
  {
    if s != [] {
      var init := s[..|s| - 1];
      var x := s[|s| - 1];
      FilterDisjoint(init, p, q);
      if p(x) {
        FilterAppend(Filter(init, p), [x], q);
        assert [x][..0] == [];
        assert !q(x);
      } else {
        assert Filter(s, p) == Filter(init, p);
      }
    }
  }

  lemma {:induction false} FilterAllMeansAll<T>(s: seq<T>, p: T -> bool)
    requires forall x :: x in s ==> p(x)
    ensures Filter(s, p) == s
  {
    if s != [] {
      FilterAllMeansAll(s[..|s| - 1], p);
      assert s[|s| - 1] in s;
      assert s == s[..|s| - 1] + [s[|s| - 1]];
    }
  }

  function Both<T>(p: T -> bool, q: T -> bool): T -> bool {
    (x: T) => p(x) && q(x)
  }

  lemma {:induction false} FilterOfFilter<T>(s: seq<T>, p: T -> bool, q: T -> bool)
    ensures Filter(Filter(s, p), q) == Filter(s, Both(p, q))
  {
    if s != [] {
      var init := s[..|s| - 1];
      var x := s[|s| - 1];
      FilterOfFilter(init, p, q);
      if p(x) {
        FilterAppend(Filter(init, p), [x], q);
        assert [x][..0] == [];
        assert Filter([x], q) == (if q(x) then [x] else []);
      } else {
        assert Filter(s, p) == Filter(init, p);
        assert !Both(p, q)(x);
      }
    }
  }

  lemma FilterNoneMeansNone<T>(s: seq<T>, p: T -> bool)
    requires Filter(s, p) == []
    ensures forall x :: x in s ==> !p(x)
  {
    FilterMembers(s, p);
  }

  lemma FilterHeadAbsent<T>(s: seq<T>, p: T -> bool)
    requires Filter(s, p) == []
    ensures FirstWhere(s, p).None?
  {
    FilterMembers(s, p);
  }

  lemma FilterStep<T>(s: seq<T>, i: nat, p: T -> bool)
    requires i < |s|
    ensures Filter(s[..i + 1], p) == Filter(s[..i], p) + (if p(s[i]) then [s[i]] else [])
  {
    assert s[..i + 1][..i] == s[..i];
  }
}
