/**
 The two list policies of a vault.

 `holdings` is a list that admits duplicates: an add appends, a removal takes
 out the first copy only. `eligibilities` is a list that the handler keeps free
 of duplicates: an id is appended only when absent and removed only when
 present. Both removals are "find the first index, then splice it out".
 */
module Lists {

  /** No element occurs twice. */
  predicate NoDup(s: seq<int>)
  {
    forall i, j :: 0 <= i < j < |s| ==> s[i] != s[j]
  }

  /** Linear search for the first occurrence of `x`, answering -1 when there is none. */
  method IndexOf(s: seq<int>, x: int) returns (index: int)
    ensures -1 <= index < |s|
    ensures index == -1 <==> x !in s
    ensures 0 <= index ==> s[index] == x && x !in s[..index]
  {
    index := 0;
    while index < |s|
      invariant 0 <= index <= |s|
      invariant x !in s[..index]
    {
      if s[index] == x {
        return;
      }
      assert s[..index + 1] == s[..index] + [s[index]];
      index := index + 1;
    }
    assert s[..index] == s;
    index := -1;
  }

  /** The list with the first occurrence of `x` taken out; unchanged when `x` is absent. */
  function RemoveFirst(s: seq<int>, x: int): (r: seq<int>)
    ensures x !in s ==> r == s
    ensures x in s ==> |r| == |s| - 1
  {
    if s == [] then []
    else
      assert s == [s[0]] + s[1..];
      if s[0] == x then s[1..]
      else [s[0]] + RemoveFirst(s[1..], x)
  }

  /** Removing takes exactly one copy of a present element out of the list's multiset. */
  lemma {:induction false} RemoveFirstMultiset(s: seq<int>, x: int)
    ensures multiset(RemoveFirst(s, x)) == if x in s then multiset(s) - multiset{x} else multiset(s)
  {
    if s != [] {
      assert s == [s[0]] + s[1..];
      if s[0] != x {
        RemoveFirstMultiset(s[1..], x);
      }
    }
  }

  /** Splicing out the index found by a first-occurrence search is `RemoveFirst`:
      every other element keeps its relative order. */
  lemma {:induction false} RemoveFirstAt(s: seq<int>, x: int, k: int)
    requires 0 <= k < |s| && s[k] == x && x !in s[..k]
    ensures RemoveFirst(s, x) == s[..k] + s[k + 1..]
  {
    if k > 0 {
      assert s[0] in s[..k];
      var t := s[1..];
      assert t[..k - 1] == s[1..k];
      RemoveFirstAt(t, x, k - 1);
      assert s[..k] == [s[0]] + t[..k - 1];
      assert t[k..] == s[k + 1..];
    }
  }

  /** Removing from a duplicate-free list leaves it duplicate-free and removes the element entirely. */
  lemma {:induction false} RemoveFirstNoDup(s: seq<int>, x: int)
    requires NoDup(s)
    ensures NoDup(RemoveFirst(s, x)) && x !in RemoveFirst(s, x)
  {
    if s != [] {
      var t := s[1..];
      assert NoDup(t);
      if s[0] == x {
        assert x !in t by {
          forall j | 0 <= j < |t| ensures t[j] != x {
            assert s[j + 1] == t[j];
          }
        }
      } else {
        RemoveFirstNoDup(t, x);
        var r := RemoveFirst(t, x);
        assert s[0] !in t by {
          forall j | 0 <= j < |t| ensures t[j] != s[0] {
            assert s[j + 1] == t[j];
          }
        }
        assert s[0] !in r by {
          RemoveFirstMultiset(t, x);
          assert multiset(r)[s[0]] <= multiset(t)[s[0]];
        }
        PrependNoDup(s[0], r);
      }
    }
  }

  lemma PrependNoDup(a: int, s: seq<int>)
    requires NoDup(s) && a !in s
    ensures NoDup([a] + s)
  {
    var u := [a] + s;
    forall i, j | 0 <= i < j < |u| ensures u[i] != u[j] {
      if i == 0 {
        assert u[j] == s[j - 1];
      } else {
        assert u[i] == s[i - 1] && u[j] == s[j - 1];
      }
    }
  }

  lemma AppendNoDup(s: seq<int>, a: int)
    requires NoDup(s) && a !in s
    ensures NoDup(s + [a])
  {
    var u := s + [a];
    forall i, j | 0 <= i < j < |u| ensures u[i] != u[j] {
      if j == |s| {
        assert u[i] == s[i];
      } else {
        assert u[i] == s[i] && u[j] == s[j];
      }
    }
  }

  /** Appending `x` and then removing its first copy restores the list only when
      `x` was absent; otherwise the earlier copy goes and the new one stays at the end. */
  lemma {:induction false} AppendThenRemoveFirst(s: seq<int>, x: int)
    ensures RemoveFirst(s + [x], x) == if x in s then RemoveFirst(s, x) + [x] else s
  {
    if s == [] {
      assert [] + [x] == [x];
    } else {
      var t := s[1..];
      assert (s + [x])[0] == s[0];
      assert (s + [x])[1..] == t + [x];
      assert x in s <==> s[0] == x || x in t by {
        assert s == [s[0]] + t;
      }
      if s[0] != x {
        AppendThenRemoveFirst(t, x);
        assert s == [s[0]] + t;
      }
    }
  }

  /** Appending then removing the same id always restores the list as a multiset. */
  lemma AppendThenRemoveFirstMultiset(s: seq<int>, x: int)
    ensures multiset(RemoveFirst(s + [x], x)) == multiset(s)
  {
    assert x in s + [x] by {
      assert (s + [x])[|s|] == x;
    }
    assert multiset(s + [x]) == multiset(s) + multiset{x};
    RemoveFirstMultiset(s + [x], x);
  }

  /** The eligibility toggle: `true` appends an absent id, `false` removes a present one,
      and the two remaining combinations leave the list alone. */
  function SetEligible(e: seq<int>, id: int, eligible: bool): (r: seq<int>)
    ensures eligible && id !in e ==> r == e + [id]
    ensures !eligible && id in e ==> r == RemoveFirst(e, id)
    ensures eligible == (id in e) ==> r == e
    ensures eligible ==> id in r
  {
    if eligible && id !in e then e + [id]
    else if !eligible && id in e then RemoveFirst(e, id)
    else e
  }

  /** A duplicate-free eligibility list stays duplicate-free, and afterwards `id`
      is a member exactly when the event said so, every other id keeping its membership. */
  lemma SetEligibleNoDup(e: seq<int>, id: int, eligible: bool)
    requires NoDup(e)
    ensures NoDup(SetEligible(e, id, eligible))
    ensures forall y :: y in SetEligible(e, id, eligible) <==> (if y == id then eligible else y in e)
  {
    var r := SetEligible(e, id, eligible);
    if eligible && id !in e {
      AppendNoDup(e, id);
    } else if !eligible && id in e {
      RemoveFirstNoDup(e, id);
      RemoveFirstMultiset(e, id);
      forall y ensures y in r <==> (if y == id then eligible else y in e) {
        if y != id {
          assert multiset(r)[y] == multiset(e)[y];
        }
      }
    }
  }

  /** Applying the same eligibility event twice equals applying it once; for a
      removal this needs the list to be duplicate-free, which the handler maintains. */
  lemma SetEligibleIdempotent(e: seq<int>, id: int, eligible: bool)
    requires eligible || NoDup(e)
    ensures SetEligible(SetEligible(e, id, eligible), id, eligible) == SetEligible(e, id, eligible)
  {
    if !eligible && id in e {
      RemoveFirstNoDup(e, id);
    }
  }
}
