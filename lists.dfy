/** Sequence helpers for the array methods the application leans on:
    `filter`, `find`, `slice(0, n)`, and the facts about them that the
    screens and the store need (order, membership, duplicates). */
module Lists {
  import opened Wrappers

  /** No element occurs twice. */
  predicate NoDup<T(==,!new)>(s: seq<T>) {
    forall i, j :: 0 <= i < j < |s| ==> s[i] != s[j]
  }

  /** `r` can be obtained from `s` by leaving elements out, so the elements
      of `r` appear in `s` in the same relative order. */
  ghost predicate Subsequence<T(!new)>(r: seq<T>, s: seq<T>)
    decreases |s|
  {
    if r == [] then true
    else if s == [] then false
    else (r[0] == s[0] && Subsequence(r[1..], s[1..])) || Subsequence(r, s[1..])
  }

  /** JavaScript's `s.filter(f)`. */
  function Filter<T(!new)>(f: T -> bool, s: seq<T>): (r: seq<T>)
    ensures |r| <= |s|
    ensures forall x :: x in r <==> x in s && f(x)
    ensures Subsequence(r, s)
  {
    if s == [] then []
    else if f(s[0]) then [s[0]] + Filter(f, s[1..])
    else Filter(f, s[1..])
  }

  /** JavaScript's `s.slice(0, n)` for a non-negative `n`. */
  function Take<T(!new)>(s: seq<T>, n: nat): (r: seq<T>)
    ensures |r| == if |s| <= n then |s| else n
    ensures r == s[..|r|]
  {
    if |s| <= n then s else s[..n]
  }

  /** JavaScript's `s.filter(y => y !== x)`: every occurrence of `x` removed. */
  function Without<T(==,!new)>(s: seq<T>, x: T): (r: seq<T>)
    ensures forall y :: y in r <==> y in s && y != x
    ensures Subsequence(r, s)
    ensures x !in s ==> r == s
  {
    var f := (y: T) => y != x;
    if x !in s then FilterKeepsAll(f, s); Filter(f, s)
    else Filter(f, s)
  }

  /** JavaScript's `s.map(f).filter(Boolean)` with `undefined` as `None`:
      the values `f` finds, in the order of `s`. */
  function FilterMap<A(!new), B(!new)>(f: A -> Option<B>, s: seq<A>): (r: seq<B>)
    ensures |r| <= |s|
  {
    if s == [] then []
    else match f(s[0])
      case Some(y) => [y] + FilterMap(f, s[1..])
      case None => FilterMap(f, s[1..])
  }

  /** An element is kept exactly when some input maps to it. */
  lemma {:induction false} FilterMapMembership<A(!new), B(!new)>(f: A -> Option<B>, s: seq<A>, y: B)
    ensures y in FilterMap(f, s) <==> exists x :: x in s && f(x) == Some(y)
  {
    if s != [] {
      FilterMapMembership(f, s[1..], y);
      if y in FilterMap(f, s[1..]) {
        var x :| x in s[1..] && f(x) == Some(y);
        assert x in s;
      }
      if exists x :: x in s && f(x) == Some(y) {
        var x :| x in s && f(x) == Some(y);
        if x != s[0] {
          assert x in s[1..];
        }
      }
    }
  }

  /** `FilterMap` works element by element, so it distributes over `+`. */
  lemma {:induction false} FilterMapAppend<A(!new), B(!new)>(f: A -> Option<B>, a: seq<A>, b: seq<A>)
    ensures FilterMap(f, a + b) == FilterMap(f, a) + FilterMap(f, b)
  {
    if a == [] {
      assert a + b == b;
    } else {
      assert (a + b)[0] == a[0];
      assert (a + b)[1..] == a[1..] + b;
      FilterMapAppend(f, a[1..], b);
      match f(a[0])
      case Some(y) =>
        assert FilterMap(f, a + b) == [y] + FilterMap(f, a[1..] + b);
        assert [y] + (FilterMap(f, a[1..]) + FilterMap(f, b)) == ([y] + FilterMap(f, a[1..])) + FilterMap(f, b);
      case None =>
    }
  }

  /** When `f` finds a value for every input nothing is dropped, and output
      `i` is the value for input `i`. */
  lemma {:induction false} FilterMapAllSome<A(!new), B(!new)>(f: A -> Option<B>, s: seq<A>)
    requires forall i :: 0 <= i < |s| ==> f(s[i]).Some?
    ensures |FilterMap(f, s)| == |s|
    ensures forall i :: 0 <= i < |s| ==> FilterMap(f, s)[i] == f(s[i]).value
  {
    if s != [] {
      assert forall i :: 0 <= i < |s[1..]| ==> s[1..][i] == s[i + 1];
      FilterMapAllSome(f, s[1..]);
    }
  }

  /** JavaScript's `s.find(f)`, with `undefined` as `None`. */
  function FindFirst<T(!new)>(f: T -> bool, s: seq<T>): (r: Option<T>)
    ensures r.None? <==> forall x :: x in s ==> !f(x)
    ensures r.Some? ==> r.value in s && f(r.value)
  {
    if s == [] then None
    else if f(s[0]) then Some(s[0])
    else FindFirst(f, s[1..])
  }

  /** `find` returns the FIRST element that satisfies `f`. */
  lemma {:induction false} FindFirstIsFirst<T(!new)>(f: T -> bool, s: seq<T>, i: nat)
    requires i < |s| && f(s[i])
    requires forall j :: 0 <= j < i ==> !f(s[j])
    ensures FindFirst(f, s) == Some(s[i])
  {
    if i > 0 {
      assert !f(s[0]);
      FindFirstIsFirst(f, s[1..], i - 1);
    }
  }

  /** When exactly one element can satisfy `f`, `find` returns it. */
  lemma FindFirstUnique<T(!new)>(f: T -> bool, s: seq<T>, x: T)
    requires x in s && f(x)
    requires forall y :: y in s && f(y) ==> y == x
    ensures FindFirst(f, s) == Some(x)
  {
  }

  /** A filter that rejects nothing returns its input unchanged. */
  lemma {:induction false} FilterKeepsAll<T(!new)>(f: T -> bool, s: seq<T>)
    requires forall x :: x in s ==> f(x)
    ensures Filter(f, s) == s
  {
    if s != [] {
      assert s[0] in s;
      FilterKeepsAll(f, s[1..]);
      assert [s[0]] + s[1..] == s;
    }
  }

  /** Filtering distributes over concatenation, so it keeps relative order. */
  lemma {:induction false} FilterAppend<T(!new)>(f: T -> bool, a: seq<T>, b: seq<T>)
    ensures Filter(f, a + b) == Filter(f, a) + Filter(f, b)
  {
    if a == [] {
      assert a + b == b;
    } else {
      assert (a + b)[0] == a[0];
      assert (a + b)[1..] == a[1..] + b;
      FilterAppend(f, a[1..], b);
    }
  }

  /** `Filter` on three elements, spelled out element by element. */
  lemma FilterOfThree<T(!new)>(f: T -> bool, s: seq<T>)
    requires |s| == 3
    ensures Filter(f, s) == (if f(s[0]) then [s[0]] else []) + (if f(s[1]) then [s[1]] else [])
                            + (if f(s[2]) then [s[2]] else [])
  {
    var t := s[1..];
    assert t[0] == s[1] && t[1..][0] == s[2] && t[1..][1..] == [];
    assert Filter(f, t[1..]) == if f(s[2]) then [s[2]] else [];
    assert Filter(f, t) == (if f(s[1]) then [s[1]] else []) + Filter(f, t[1..]);
  }

  /** Two predicates that agree everywhere filter alike. */
  lemma {:induction false} FilterExt<T(!new)>(f: T -> bool, g: T -> bool, s: seq<T>)
    requires forall x :: f(x) == g(x)
    ensures Filter(f, s) == Filter(g, s)
  {
    if s != [] {
      FilterExt(f, g, s[1..]);
    }
  }

  /** Filtering twice is filtering once by the conjunction. */
  lemma {:induction false} FilterFilter<T(!new)>(f: T -> bool, g: T -> bool, h: T -> bool, s: seq<T>)
    requires forall x :: h(x) == (f(x) && g(x))
    ensures Filter(f, Filter(g, s)) == Filter(h, s)
  {
    if s != [] {
      FilterFilter(f, g, h, s[1..]);
      if g(s[0]) {
        assert Filter(g, s) == [s[0]] + Filter(g, s[1..]);
        assert (Filter(g, s))[0] == s[0];
        assert (Filter(g, s))[1..] == Filter(g, s[1..]);
      }
    }
  }

  /** Filtering a duplicate-free sequence gives a duplicate-free sequence. */
  lemma {:induction false} FilterNoDup<T(!new)>(f: T -> bool, s: seq<T>)
    requires NoDup(s)
    ensures NoDup(Filter(f, s))
  {
    if s != [] {
      assert NoDup(s[1..]) by {
        forall i, j | 0 <= i < j < |s[1..]| ensures s[1..][i] != s[1..][j] {
          assert s[1..][i] == s[i + 1] && s[1..][j] == s[j + 1];
        }
      }
      FilterNoDup(f, s[1..]);
      if f(s[0]) {
        var t := Filter(f, s[1..]);
        assert s[0] !in s[1..] by {
          forall k | 0 <= k < |s[1..]| ensures s[1..][k] != s[0] {
            assert s[1..][k] == s[k + 1];
          }
        }
        assert s[0] !in t;
        var r := [s[0]] + t;
        forall i, j | 0 <= i < j < |r| ensures r[i] != r[j] {
          if i == 0 {
            assert r[j] == t[j - 1] && r[j] in t;
          } else {
            assert r[i] == t[i - 1] && r[j] == t[j - 1];
          }
        }
      }
    }
  }

  /** Removing a value from a duplicate-free sequence leaves it
      duplicate-free. */
  lemma WithoutNoDup<T(!new)>(s: seq<T>, x: T)
    requires NoDup(s)
    ensures NoDup(Without(s, x))
  {
    FilterNoDup((y: T) => y != x, s);
  }

  /** Removal distributes over concatenation. */
  lemma WithoutAppend<T(!new)>(a: seq<T>, b: seq<T>, x: T)
    ensures Without(a + b, x) == Without(a, x) + Without(b, x)
  {
    FilterAppend((y: T) => y != x, a, b);
  }

  /** Removing every occurrence of a value sets its count to zero and keeps
      every other count. */
  lemma {:induction false} WithoutMultiset<T(!new)>(s: seq<T>, x: T)
    ensures multiset(Without(s, x)) == multiset(s)[x := 0]
  {
    var f := (y: T) => y != x;
    if s == [] {
    } else {
      assert s == [s[0]] + s[1..];
      FilterAppend(f, [s[0]], s[1..]);
      assert Filter(f, [s[0]]) == if s[0] != x then [s[0]] else [];
      WithoutMultiset(s[1..], x);
      assert Without(s[1..], x) == Filter(f, s[1..]);
      calc {
        multiset(Without(s, x));
        multiset(Filter(f, [s[0]]) + Filter(f, s[1..]));
        multiset(Filter(f, [s[0]])) + multiset(s[1..])[x := 0];
        multiset([s[0]] + s[1..])[x := 0];
      }
    }
  }

  /** In a duplicate-free sequence a value occurs at most once. */
  lemma {:induction false} NoDupCount<T(!new)>(s: seq<T>, x: T)
    requires NoDup(s)
    ensures multiset(s)[x] == if x in s then 1 else 0
  {
    if s != [] {
      assert NoDup(s[1..]) by {
        forall i, j | 0 <= i < j < |s[1..]| ensures s[1..][i] != s[1..][j] {
          assert s[1..][i] == s[i + 1] && s[1..][j] == s[j + 1];
        }
      }
      NoDupCount(s[1..], x);
      assert s == [s[0]] + s[1..];
      if s[0] == x {
        assert x !in s[1..] by {
          forall k | 0 <= k < |s[1..]| ensures s[1..][k] != x {
            assert s[1..][k] == s[k + 1];
          }
        }
      }
    }
  }

  /** Removing a value that occurs exactly once shortens the sequence by one. */
  lemma WithoutOnce<T(!new)>(s: seq<T>, x: T)
    requires NoDup(s) && x in s
    ensures |Without(s, x)| == |s| - 1
  {
    WithoutMultiset(s, x);
    NoDupCount(s, x);
    assert |multiset(Without(s, x))| == |multiset(s)| - multiset(s)[x];
  }

  /** A prefix of `s` is a subsequence of `s`. */
  lemma {:induction false} PrefixSubsequence<T(!new)>(s: seq<T>, k: nat)
    requires k <= |s|
    ensures Subsequence(s[..k], s)
  {
    if k > 0 {
      PrefixSubsequence(s[1..], k - 1);
      assert s[..k][1..] == s[1..][..k - 1];
    }
  }

  /** Being a subsequence is transitive. */
  lemma {:induction false} SubsequenceTrans<T(!new)>(a: seq<T>, b: seq<T>, c: seq<T>)
    requires Subsequence(a, b) && Subsequence(b, c)
    ensures Subsequence(a, c)
    decreases |c|
  {
    if a != [] {
      assert b != [] && c != [];
      if b[0] == c[0] && Subsequence(b[1..], c[1..]) {
        if a[0] == b[0] && Subsequence(a[1..], b[1..]) {
          SubsequenceTrans(a[1..], b[1..], c[1..]);
        } else {
          SubsequenceTrans(a, b[1..], c[1..]);
        }
      } else {
        SubsequenceTrans(a, b, c[1..]);
      }
    }
  }
}
