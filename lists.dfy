/**
 * The two list updates the wizard applies to `userData.subscriptions` and
 * `userData.photos`: push-if-not-included and filter-out-by-value.
 */
module Lists {

  predicate NoDup<T(==,!new)>(s: seq<T>) {
    forall i, j :: 0 <= i < j < |s| ==> s[i] != s[j]
  }

  /** `if (!s.includes(x)) s.push(x)`. */
  function AddIfAbsent<T(==,!new)>(s: seq<T>, x: T): (r: seq<T>)
    ensures x in r
    ensures forall y :: y in r <==> y in s || y == x
    ensures NoDup(s) ==> NoDup(r)
    ensures x in s ==> r == s
    ensures x !in s ==> r == s + [x]
  {
    if x in s then s else s + [x]
  }

  /** `s.filter(e => e !== x)`: every copy of `x` goes, the rest keeps its order. */
  function RemoveAll<T(==,!new)>(s: seq<T>, x: T): (r: seq<T>)
    ensures forall y :: y in r <==> y in s && y != x
    ensures |r| <= |s|
  {
    if s == [] then []
    else if s[0] == x then RemoveAll(s[1..], x)
    else [s[0]] + RemoveAll(s[1..], x)
  }

  /** Filtering never creates a duplicate. */
  lemma {:induction false} RemoveAllKeepsNoDup<T(!new)>(s: seq<T>, x: T)
    requires NoDup(s)
    ensures NoDup(RemoveAll(s, x))
  {
    if s != [] {
      var t := RemoveAll(s[1..], x);
      RemoveAllKeepsNoDup(s[1..], x);
      if s[0] != x {
        assert s[0] !in s[1..];
        ConsNoDup(s[0], t);
      }
    }
  }

  lemma ConsNoDup<T(!new)>(h: T, t: seq<T>)
    requires h !in t && NoDup(t)
    ensures NoDup([h] + t)
  {
    var s := [h] + t;
    forall i, j | 0 <= i < j < |s| ensures s[i] != s[j] {
      if i == 0 {
        assert s[j] == t[j - 1];
      } else {
        assert s[i] == t[i - 1] && s[j] == t[j - 1];
      }
    }
  }

  /** Filtering out a value that is not there changes nothing. */
  lemma {:induction false} RemoveAllOfAbsent<T(!new)>(s: seq<T>, x: T)
    requires x !in s
    ensures RemoveAll(s, x) == s
  {
    if s != [] {
      RemoveAllOfAbsent(s[1..], x);
    }
  }

  lemma {:induction false} RemoveAllAppend<T(!new)>(a: seq<T>, b: seq<T>, x: T)
    ensures RemoveAll(a + b, x) == RemoveAll(a, x) + RemoveAll(b, x)
  {
    if a != [] {
      RemoveAllAppend(a[1..], b, x);
      assert (a + b)[1..] == a[1..] + b;
    } else {
      assert a + b == b;
    }
  }

  /** Checking a name that was not listed and then unchecking it gives back the list. */
  lemma AddThenRemoveRestores<T(!new)>(s: seq<T>, x: T)
    requires x !in s
    ensures RemoveAll(AddIfAbsent(s, x), x) == s
  {
    RemoveAllAppend(s, [x], x);
    RemoveAllOfAbsent(s, x);
  }

  /** A list without duplicates has as many entries as distinct values. */
  lemma {:induction false} DistinctCount<T(!new)>(s: seq<T>)
    requires NoDup(s)
    ensures |set y | y in s| == |s|
  {
    if s != [] {
      var t := s[1..];
      DistinctCount(t);
      assert (set y | y in s) == (set y | y in t) + {s[0]};
      assert s[0] !in t;
    }
  }

  /** A non-empty list is its front followed by its last entry. */
  lemma LastSplit<T>(s: seq<T>)
    requires s != []
    ensures s == s[..|s| - 1] + [s[|s| - 1]]
  {
  }
}
