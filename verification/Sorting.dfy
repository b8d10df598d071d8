/** sorted() on strings: an insertion sort in Python's string order, and what makes its result
    unique. */
module Sorting {
  import opened Text

  predicate Sorted(s: seq<string>) {
    forall i, j :: 0 <= i < j < |s| ==> Leq(s[i], s[j])
  }

  /** x goes behind every element that is not greater. */
  function Insert(s: seq<string>, x: string): seq<string> {
    if s == [] || Leq(s[|s| - 1], x) then s + [x]
    else Insert(s[..|s| - 1], x) + [s[|s| - 1]]
  }

  function Sort(s: seq<string>): seq<string> {
    if s == [] then [] else Insert(Sort(s[..|s| - 1]), s[|s| - 1])
  }

  lemma {:induction false} InsertSorted(s: seq<string>, x: string)
    requires Sorted(s)
    ensures Sorted(Insert(s, x)) && multiset(Insert(s, x)) == multiset(s) + multiset{x}
  {
    if s == [] {
    } else {
      var init, last := s[..|s| - 1], s[|s| - 1];
      assert s == init + [last];
      LeqTotal(last, x);
      if Leq(last, x) {
        forall i | 0 <= i < |s| ensures Leq(s[i], x) {
          if i < |s| - 1 { LeqTransitive(s[i], last, x); }
        }
      } else {
        InsertSorted(init, x);
        var r := Insert(init, x);
        forall i | 0 <= i < |r| ensures Leq(r[i], last) {
          assert r[i] in multiset(r);
          assert r[i] == x || r[i] in init;
        }
      }
    }
  }

  lemma {:induction false} SortSorts(s: seq<string>)
    ensures Sorted(Sort(s)) && multiset(Sort(s)) == multiset(s)
  {
    if s == [] {
    } else {
      SortSorts(s[..|s| - 1]);
      InsertSorted(Sort(s[..|s| - 1]), s[|s| - 1]);
      assert s == s[..|s| - 1] + [s[|s| - 1]];
    }
  }

  lemma LastIsGreatest(s: seq<string>, x: string)
    requires Sorted(s) && x in multiset(s)
    ensures s != [] && Leq(x, s[|s| - 1])
  {
    var i :| 0 <= i < |s| && s[i] == x;
    LeqTotal(x, x);
  }

  lemma SameLast(s: seq<string>, t: seq<string>)
    requires Sorted(s) && Sorted(t) && multiset(s) == multiset(t) && s != []
    ensures t != [] && s[|s| - 1] == t[|t| - 1]
  {
    assert s[|s| - 1] in multiset(s);
    LastIsGreatest(t, s[|s| - 1]);
    assert t[|t| - 1] in multiset(t);
    LastIsGreatest(s, t[|t| - 1]);
    LeqTotal(s[|s| - 1], t[|t| - 1]);
  }

  lemma WithoutLast(s: seq<string>)
    requires s != []
    ensures multiset(s[..|s| - 1]) == multiset(s) - multiset{s[|s| - 1]}
    ensures s == s[..|s| - 1] + [s[|s| - 1]]
    ensures Sorted(s) ==> Sorted(s[..|s| - 1])
  {
    assert s == s[..|s| - 1] + [s[|s| - 1]];
  }

  /** Two sorted lists with the same elements are equal. */
  lemma {:induction false} SortedUnique(s: seq<string>, t: seq<string>)
    requires Sorted(s) && Sorted(t) && multiset(s) == multiset(t)
    ensures s == t
  {
    if s == [] {
      assert |multiset(t)| == 0;
    } else {
      SameLast(s, t);
      WithoutLast(s);
      WithoutLast(t);
      SortedUnique(s[..|s| - 1], t[..|t| - 1]);
    }
  }

  /** Sorting two lists gives the same result exactly when they have the same elements. */
  lemma SortEqualIffSameElements(s: seq<string>, t: seq<string>)
    ensures Sort(s) == Sort(t) <==> multiset(s) == multiset(t)
  {
    SortSorts(s);
    SortSorts(t);
    if multiset(s) == multiset(t) {
      SortedUnique(Sort(s), Sort(t));
    }
  }
}
