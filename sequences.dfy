/** Facts about `List<T>` operations over `seq`: duplicates, counting and removal. */
module Sequences {
  import opened Wrappers

  predicate NoDuplicates<T(==)>(s: seq<T>)
  {
    forall i, j :: 0 <= i < j < |s| ==> s[i] != s[j]
  }

  function Count<T(==)>(s: seq<T>, x: T): (n: nat)
    ensures n <= |s|
    ensures n == 0 <==> x !in s
  {
    if s == [] then 0 else Count(s[..|s| - 1], x) + (if s[|s| - 1] == x then 1 else 0)
  }

  lemma {:induction false} CountSnoc<T>(s: seq<T>, y: T, x: T)
    ensures Count(s + [y], x) == Count(s, x) + (if y == x then 1 else 0)
  {
    assert (s + [y])[..|s|] == s;
  }

  /** One more element of `s` taken into the counted prefix. */
  lemma CountStep<T>(s: seq<T>, i: nat, x: T)
    requires i < |s|
    ensures Count(s[..i + 1], x) == Count(s[..i], x) + (if s[i] == x then 1 else 0)
  {
    assert s[..i + 1] == s[..i] + [s[i]];
    CountSnoc(s[..i], s[i], x);
  }

  /** A prefix counts no more occurrences than the whole list. */
  lemma {:induction false} CountPrefix<T>(s: seq<T>, x: T, i: nat)
    requires i <= |s|
    ensures Count(s[..i], x) <= Count(s, x)
  {
    if i < |s| {
      assert s[..|s| - 1][..i] == s[..i];
      CountPrefix(s[..|s| - 1], x, i);
    } else {
      assert s[..i] == s;
    }
  }

  /** `List.Find`/`IndexOf`: the position of the first occurrence of `x`. */
  function FirstIndex<T(==)>(s: seq<T>, x: T): (r: Option<nat>)
    ensures r.Some? ==> r.value < |s| && s[r.value] == x && forall j :: 0 <= j < r.value ==> s[j] != x
    ensures r.None? <==> x !in s
  {
    if s == [] then None
    else if s[0] == x then Some(0)
    else match FirstIndex(s[1..], x)
      case None => None
      case Some(k) => Some(k + 1)
  }

  /** `List.Remove`: drops the first occurrence of `x`, if any. */
  function RemoveFirst<T(==)>(s: seq<T>, x: T): (r: seq<T>)
    ensures x in s ==> |r| == |s| - 1 && multiset(r) == multiset(s) - multiset{x}
    ensures x !in s ==> r == s
  {
    if s == [] then []
    else
      assert s == [s[0]] + s[1..];
      if s[0] == x then s[1..] else [s[0]] + RemoveFirst(s[1..], x)
  }

  function RemoveTimes<T(==)>(s: seq<T>, x: T, n: nat): seq<T>
  {
    if n == 0 then s else RemoveFirst(RemoveTimes(s, x, n - 1), x)
  }

  lemma RemoveTimesNext<T>(s: seq<T>, x: T, n: nat)
    ensures RemoveTimes(s, x, n + 1) == RemoveFirst(RemoveTimes(s, x, n), x)
  {
  }

  /** Removing an element that occurs at most once, once or more, leaves it out and keeps the rest. */
  lemma {:induction false} RemoveTimesOfUnique<T>(s: seq<T>, x: T, n: nat)
    requires multiset(s)[x] <= 1 && n >= 1
    ensures x !in RemoveTimes(s, x, n)
    ensures multiset(RemoveTimes(s, x, n)) == multiset(s)[x := 0]
  {
    if n == 1 {
      assert RemoveTimes(s, x, 0) == s;
      if x in s {
        assert multiset(s)[x] == 1;
        assert multiset(s) - multiset{x} == multiset(s)[x := 0];
      } else {
        assert multiset(s)[x] == 0;
        assert multiset(s) == multiset(s)[x := 0];
      }
    } else {
      RemoveTimesOfUnique(s, x, n - 1);
      assert RemoveTimes(s, x, n) == RemoveFirst(RemoveTimes(s, x, n - 1), x);
    }
  }

  /** In a list without duplicates every element occurs once. */
  lemma {:induction false} NoDuplicatesOnce<T>(s: seq<T>)
    requires NoDuplicates(s)
    ensures forall y :: multiset(s)[y] <= 1
  {
    if s != [] {
      assert s == [s[0]] + s[1..];
      assert NoDuplicates(s[1..]) by {
        forall i, j | 0 <= i < j < |s[1..]| ensures s[1..][i] != s[1..][j] {
          assert s[1..][i] == s[i + 1] && s[1..][j] == s[j + 1];
        }
      }
      NoDuplicatesOnce(s[1..]);
      assert s[0] !in s[1..] by {
        forall k | 0 <= k < |s[1..]| ensures s[1..][k] != s[0] {
          assert s[1..][k] == s[k + 1];
        }
      }
    }
  }

  /** A list in which every element occurs at most once has no duplicates. */
  lemma {:induction false} OnceNoDuplicates<T>(s: seq<T>)
    requires forall y :: multiset(s)[y] <= 1
    ensures NoDuplicates(s)
  {
    if s != [] {
      assert s == [s[0]] + s[1..];
      assert forall y :: multiset(s[1..])[y] <= multiset(s)[y];
      OnceNoDuplicates(s[1..]);
      assert multiset(s[1..])[s[0]] == 0;
      forall i, j | 0 <= i < j < |s| ensures s[i] != s[j] {
        if i == 0 {
          assert s[j] == s[1..][j - 1];
        } else {
          assert s[i] == s[1..][i - 1] && s[j] == s[1..][j - 1];
        }
      }
    }
  }

  /** Removing from a list without duplicates keeps it so, and leaves the element out. */
  lemma {:induction false} RemoveFirstNoDuplicates<T>(s: seq<T>, x: T)
    requires NoDuplicates(s)
    ensures NoDuplicates(RemoveFirst(s, x)) && x !in RemoveFirst(s, x)
    ensures forall y :: y in RemoveFirst(s, x) <==> y in s && y != x
  {
    NoDuplicatesOnce(s);
    var r := RemoveFirst(s, x);
    if x in s {
      assert multiset(r) == multiset(s)[x := 0];
    } else {
      assert multiset(s)[x] == 0;
    }
    forall y ensures multiset(r)[y] <= 1 && (y in r <==> y in s && y != x) {
      assert y in r <==> multiset(r)[y] > 0;
      assert y in s <==> multiset(s)[y] > 0;
    }
    OnceNoDuplicates(r);
  }

  /** A list has no duplicates exactly when its head is not in its tail, which has none. */
  lemma NoDuplicatesCons<T>(s: seq<T>)
    requires s != []
    ensures NoDuplicates(s) <==> s[0] !in s[1..] && NoDuplicates(s[1..])
  {
    if s[0] !in s[1..] && NoDuplicates(s[1..]) {
      forall i, j | 0 <= i < j < |s| ensures s[i] != s[j] {
        if i == 0 {
          assert s[j] == s[1..][j - 1];
        } else {
          assert s[i] == s[1..][i - 1] && s[j] == s[1..][j - 1];
        }
      }
    }
    if NoDuplicates(s) {
      forall k | 0 <= k < |s[1..]| ensures s[1..][k] != s[0] {
        assert s[1..][k] == s[k + 1];
      }
      forall i, j | 0 <= i < j < |s[1..]| ensures s[1..][i] != s[1..][j] {
        assert s[1..][i] == s[i + 1] && s[1..][j] == s[j + 1];
      }
    }
  }

  /** `List.RemoveAll(y => y == x)`. */
  function RemoveAll<T(==)>(s: seq<T>, x: T): (r: seq<T>)
    ensures x !in r && |r| <= |s|
    ensures x !in s ==> r == s
    ensures forall i :: 0 <= i < |r| ==> r[i] in s
  {
    if s == [] then []
    else
      assert s == [s[0]] + s[1..];
      (if s[0] == x then [] else [s[0]]) + RemoveAll(s[1..], x)
  }

  /** `RemoveAll` keeps every other element. */
  lemma {:induction false} RemoveAllKeeps<T>(s: seq<T>, x: T, y: T)
    ensures y in RemoveAll(s, x) <==> y in s && y != x
  {
    if s != [] {
      assert s == [s[0]] + s[1..];
      RemoveAllKeeps(s[1..], x, y);
    }
  }

  /** In a list without duplicates, removing the first occurrence removes them all. */
  lemma {:induction false} RemoveFirstOfDistinct<T>(s: seq<T>, x: T)
    requires NoDuplicates(s)
    ensures RemoveFirst(s, x) == RemoveAll(s, x)
    ensures NoDuplicates(RemoveAll(s, x))
  {
    if s != [] {
      NoDuplicatesCons(s);
      RemoveFirstOfDistinct(s[1..], x);
      var t := RemoveAll(s[1..], x);
      if s[0] != x {
        assert RemoveAll(s, x) == [s[0]] + t;
        RemoveAllKeeps(s[1..], x, s[0]);
        NoDuplicatesCons([s[0]] + t);
        assert ([s[0]] + t)[1..] == t;
      }
    }
  }

  /** Appending an element that is not there keeps a list free of duplicates. */
  lemma NoDuplicatesSnoc<T>(s: seq<T>, x: T)
    requires NoDuplicates(s) && x !in s
    ensures NoDuplicates(s + [x])
  {
  }
}
