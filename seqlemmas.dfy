/** Facts about integer sequences used to turn the catalog's item lists into a
    partition of the item numbers 1..n: ranges, duplicate-freedom, the
    pigeonhole principle and multiset equality. */
module SeqLemmas {

  /** The integers lo, lo+1, ..., hi-1 in increasing order. */
  function Range(lo: int, hi: int): (r: seq<int>)
    decreases hi - lo
    ensures |r| == if lo < hi then hi - lo else 0
    ensures forall i :: 0 <= i < |r| ==> r[i] == lo + i
  {
    if lo >= hi then [] else [lo] + Range(lo + 1, hi)
  }

  predicate NoDup(s: seq<int>) {
    forall i, j :: 0 <= i < j < |s| ==> s[i] != s[j]
  }

  function Elems(s: seq<int>): set<int> {
    set x | x in s
  }

  lemma RangeMembership(lo: int, hi: int, x: int)
    ensures x in Range(lo, hi) <==> lo <= x < hi
  {
    if lo <= x < hi {
      assert Range(lo, hi)[x - lo] == x;
    }
  }

  lemma RangeSnoc(lo: int, hi: int)
    requires lo <= hi
    ensures Range(lo, hi + 1) == Range(lo, hi) + [hi]
  {
  }

  lemma {:induction false} RangeCard(lo: int, hi: int)
    requires lo <= hi
    ensures |Elems(Range(lo, hi))| == hi - lo
    decreases hi - lo
  {
    if lo < hi {
      RangeCard(lo + 1, hi);
      assert Range(lo, hi) == [lo] + Range(lo + 1, hi);
      assert Elems(Range(lo, hi)) == {lo} + Elems(Range(lo + 1, hi));
      RangeMembership(lo + 1, hi, lo);
    } else {
      assert Elems(Range(lo, hi)) == {};
    }
  }

  /** A sequence has at most as many distinct elements as entries, and
      exactly as many only when no entry repeats. */
  lemma {:induction false} ElemsCard(s: seq<int>)
    ensures |Elems(s)| <= |s|
    ensures |Elems(s)| == |s| ==> NoDup(s)
  {
    if s != [] {
      var t := s[1..];
      ElemsCard(t);
      assert s == [s[0]] + t;
      assert Elems(s) == {s[0]} + Elems(t);
      if s[0] in t {
        assert Elems(s) == Elems(t);
      } else {
        assert |Elems(s)| == 1 + |Elems(t)|;
        if |Elems(s)| == |s| {
          forall i, j | 0 <= i < j < |s| ensures s[i] != s[j] {
            if i == 0 {
              assert s[j] == t[j - 1];
            } else {
              assert s[i] == t[i - 1] && s[j] == t[j - 1];
            }
          }
        }
      }
    }
  }

  /** Pigeonhole: n entries that mention every number 1..n mention each exactly
      once and nothing else. */
  lemma Pigeonhole(s: seq<int>, n: nat)
    requires |s| == n
    requires forall x :: 1 <= x <= n ==> x in s
    ensures NoDup(s)
    ensures forall i :: 0 <= i < |s| ==> 1 <= s[i] <= n
  {
    var e, r := Elems(s), Elems(Range(1, n + 1));
    forall x | x in r ensures x in e {
      RangeMembership(1, n + 1, x);
    }
    RangeCard(1, n + 1);
    ElemsCard(s);
    assert |e - r| + |r| == |e|;
    assert e - r == {};
    forall i | 0 <= i < |s| ensures 1 <= s[i] <= n {
      assert s[i] in e;
      assert s[i] in r;
      RangeMembership(1, n + 1, s[i]);
    }
  }

  lemma {:induction false} NoDupMultiplicity(s: seq<int>, x: int)
    requires NoDup(s)
    ensures multiset(s)[x] == if x in s then 1 else 0
  {
    if s != [] {
      var t := s[1..];
      assert s == [s[0]] + t;
      assert NoDup(t) by {
        forall i, j | 0 <= i < j < |t| ensures t[i] != t[j] {
          assert t[i] == s[i + 1] && t[j] == s[j + 1];
        }
      }
      NoDupMultiplicity(t, x);
      assert s[0] !in t by {
        forall k | 0 <= k < |t| ensures t[k] != s[0] {
          assert t[k] == s[k + 1];
        }
      }
      assert multiset(s) == multiset([s[0]]) + multiset(t);
    }
  }

  /** Two duplicate-free sequences with the same elements are permutations of
      each other. */
  lemma SameElemsSameMultiset(s: seq<int>, t: seq<int>)
    requires NoDup(s) && NoDup(t)
    requires forall x :: x in s <==> x in t
    ensures multiset(s) == multiset(t)
  {
    forall x ensures multiset(s)[x] == multiset(t)[x] {
      NoDupMultiplicity(s, x);
      NoDupMultiplicity(t, x);
    }
  }

  /** A duplicate-free concatenation is made of duplicate-free, disjoint parts. */
  lemma NoDupConcat(a: seq<int>, b: seq<int>)
    requires NoDup(a + b)
    ensures NoDup(a) && NoDup(b)
    ensures forall x :: x in a ==> x !in b
  {
    forall i, j | 0 <= i < j < |b| ensures b[i] != b[j] {
      assert b[i] == (a + b)[|a| + i] && b[j] == (a + b)[|a| + j];
    }
    forall i, j | 0 <= i < j < |a| ensures a[i] != a[j] {
      assert a[i] == (a + b)[i] && a[j] == (a + b)[j];
    }
    forall x | x in a ensures x !in b {
      var i :| 0 <= i < |a| && a[i] == x;
      forall j | 0 <= j < |b| ensures b[j] != x {
        assert (a + b)[i] == a[i] && (a + b)[|a| + j] == b[j];
      }
    }
  }

  /** Removing the same element from both sides keeps two sequences permutations of each other. */
  lemma RemoveOne(s: seq<int>, x: int, t: seq<int>, j: int)
    requires multiset(s + [x]) == multiset(t)
    requires 0 <= j < |t| && t[j] == x
    ensures multiset(s) == multiset(t[..j] + t[j + 1..])
  {
    var t1, t2 := t[..j], t[j + 1..];
    assert t == t1 + [x] + t2;
    assert multiset(t) == multiset(t1) + multiset{x} + multiset(t2);
    assert multiset(s + [x]) == multiset(s) + multiset{x};
    assert multiset(t1 + t2) == multiset(t1) + multiset(t2);
    forall y ensures multiset(s)[y] == multiset(t1 + t2)[y] {
      assert multiset(s + [x])[y] == multiset(t)[y];
    }
  }
}
