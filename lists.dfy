/**
 * The `kotlin.collections` operations the app uses on lists: `filter`
 * (as `Keep`) and `List - element` (as `RemoveFirst`).
 */
module Lists {

  /** `a` is `b` with some elements dropped, the rest in their original order. */
  ghost predicate IsSubsequence<T>(a: seq<T>, b: seq<T>)
    decreases |b|
  {
    if a == [] then true
    else if b == [] then false
    else (a[0] == b[0] && IsSubsequence(a[1..], b[1..])) || IsSubsequence(a, b[1..])
  }

  /** No element occurs twice. */
  predicate NoDuplicates<T(==)>(s: seq<T>) {
    forall i, j | 0 <= i < j < |s| :: s[i] != s[j]
  }

  /** `Iterable.filter(p)`. */
  function Keep<T>(s: seq<T>, p: T -> bool): (r: seq<T>)
    ensures |r| <= |s|
    ensures forall x | x in r :: x in s && p(x)
  {
    if s == [] then []
    else (if p(s[0]) then [s[0]] else []) + Keep(s[1..], p)
  }

  /** `filter` keeps its survivors in their original order. */
  lemma {:induction false} KeepIsSubsequence<T>(s: seq<T>, p: T -> bool)
    ensures IsSubsequence(Keep(s, p), s)
  {
    if s != [] {
      KeepIsSubsequence(s[1..], p);
      var rest := Keep(s[1..], p);
      if p(s[0]) {
        assert Keep(s, p) == [s[0]] + rest;
        assert Keep(s, p)[1..] == rest;
      } else {
        assert Keep(s, p) == rest;
      }
    }
  }

  /** `filter` keeps every copy of a satisfying element and no copy of any other. */
  lemma {:induction false} KeepCount<T>(s: seq<T>, p: T -> bool, x: T)
    ensures multiset(Keep(s, p))[x] == if p(x) then multiset(s)[x] else 0
  {
    if s != [] {
      KeepCount(s[1..], p, x);
      assert s == [s[0]] + s[1..];
      assert multiset(s) == multiset{s[0]} + multiset(s[1..]);
      var front := if p(s[0]) then [s[0]] else [];
      assert Keep(s, p) == front + Keep(s[1..], p);
      assert multiset(Keep(s, p)) == multiset(front) + multiset(Keep(s[1..], p));
    }
  }

  /** An element is kept if and only if it is present and satisfies the predicate. */
  lemma KeepMember<T>(s: seq<T>, p: T -> bool, x: T)
    ensures x in Keep(s, p) <==> x in s && p(x)
  {
    KeepCount(s, p, x);
    assert x in Keep(s, p) <==> multiset(Keep(s, p))[x] > 0;
  }

  /** When every element satisfies the predicate, `filter` returns the list unchanged. */
  lemma {:induction false} KeepAll<T>(s: seq<T>, p: T -> bool)
    requires forall i | 0 <= i < |s| :: p(s[i])
    ensures Keep(s, p) == s
  {
    if s != [] {
      KeepAll(s[1..], p);
      assert [s[0]] + s[1..] == s;
    }
  }

  /** `List - element`: drops the first occurrence of `x`, if there is one. */
  function RemoveFirst<T(==)>(s: seq<T>, x: T): (r: seq<T>)
    ensures x !in s ==> r == s
    ensures x in s ==> |r| == |s| - 1
  {
    if s == [] then []
    else if s[0] == x then s[1..]
    else [s[0]] + RemoveFirst(s[1..], x)
  }

  /** `RemoveFirst` takes away one copy of `x` and leaves every other element's count alone. */
  lemma {:induction false} RemoveFirstMultiset<T>(s: seq<T>, x: T)
    ensures multiset(RemoveFirst(s, x)) == multiset(s) - multiset{x}
  {
    if s != [] {
      assert s == [s[0]] + s[1..];
      if s[0] != x {
        RemoveFirstMultiset(s[1..], x);
      }
    }
  }

  /** What `RemoveFirst` drops is exactly the first occurrence. */
  lemma {:induction false} RemoveFirstAt<T>(s: seq<T>, x: T, i: nat)
    requires i < |s| && s[i] == x
    requires forall j | 0 <= j < i :: s[j] != x
    ensures RemoveFirst(s, x) == s[..i] + s[i + 1..]
  {
    if i == 0 {
      assert s[..0] + s[1..] == s[1..];
    } else {
      var tail := s[1..];
      assert s[0] != x;
      forall j | 0 <= j < i - 1 ensures tail[j] != x { assert tail[j] == s[j + 1]; }
      RemoveFirstAt(tail, x, i - 1);
      var left, right := tail[..i - 1], tail[i..];
      calc {
        RemoveFirst(s, x);
        [s[0]] + RemoveFirst(tail, x);
        [s[0]] + (left + right);
        ([s[0]] + left) + right;
        { assert [s[0]] + left == s[..i]; assert right == s[i + 1..]; }
        s[..i] + s[i + 1..];
      }
    }
  }

  /** Removing an element just appended to a list that lacked it restores that list. */
  lemma {:induction false} RemoveFirstOfAppended<T>(s: seq<T>, x: T)
    requires x !in s
    ensures RemoveFirst(s + [x], x) == s
  {
    if s != [] {
      RemoveFirstOfAppended(s[1..], x);
      assert (s + [x])[1..] == s[1..] + [x];
      assert [s[0]] + s[1..] == s;
    }
  }

  /** On a list without duplicates, `RemoveFirst` removes the element entirely. */
  lemma {:induction false} RemoveFirstNoDuplicates<T>(s: seq<T>, x: T)
    requires NoDuplicates(s)
    ensures NoDuplicates(RemoveFirst(s, x))
    ensures forall y :: y in RemoveFirst(s, x) <==> y in s && y != x
  {
    if s != [] {
      var tail := s[1..];
      assert NoDuplicates(tail);
      assert s[0] !in tail;
      RemoveFirstNoDuplicates(tail, x);
      if s[0] != x {
        var r := RemoveFirst(tail, x);
        assert RemoveFirst(s, x) == [s[0]] + r;
        assert s[0] !in r;
      }
    }
  }

  /** Appending an absent element keeps a list free of duplicates. */
  lemma AppendNoDuplicates<T>(s: seq<T>, x: T)
    requires NoDuplicates(s) && x !in s
    ensures NoDuplicates(s + [x])
  {
  }
}
