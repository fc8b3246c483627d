/** Operations on lists of strings (the keyword lists), as Python's list
    methods and comprehensions perform them. */
module Lists {

  import opened Text

  /** No element occurs twice. */
  predicate NoDups(s: seq<String>) {
    forall i, j :: 0 <= i < j < |s| ==> s[i] != s[j]
  }

  /** The index of the first occurrence of `x` (list.index). */
  function FirstIndex(s: seq<String>, x: String): (i: nat)
    requires x in s
    ensures i < |s| && s[i] == x && x !in s[..i]
  {
    if s[0] == x then 0 else 1 + FirstIndex(s[1..], x)
  }

  /** list.remove(x): deletes the first occurrence of `x`; Python raises
      ValueError when `x` is absent, so the callers test membership first. */
  function RemoveFirst(s: seq<String>, x: String): (r: seq<String>)
    requires x in s
    ensures |r| == |s| - 1
    ensures multiset(r) == multiset(s) - multiset{x}
  {
    var i := FirstIndex(s, x);
    assert s == s[..i] + [x] + s[i + 1..];
    s[..i] + s[i + 1..]
  }

  /** The elements before the first occurrence are kept in front. */
  lemma RemoveFirstCons(s: seq<String>, x: String)
    requires x in s
    ensures s[0] == x ==> RemoveFirst(s, x) == s[1..]
    ensures s[0] != x ==> x in s[1..] && RemoveFirst(s, x) == [s[0]] + RemoveFirst(s[1..], x)
  {
    if s[0] != x {
      var j := FirstIndex(s[1..], x);
      assert FirstIndex(s, x) == j + 1;
      assert s[..j + 1] == [s[0]] + s[1..][..j];
      assert s[j + 2..] == s[1..][j + 1..];
    }
  }

  /** The elements of `s` that are not in `drop`, in their order: the
      reference definition the removal loop of the synchronisation is
      proved against. */
  function Without(s: seq<String>, drop: set<String>): (r: seq<String>)
    ensures forall x :: x in r <==> x in s && x !in drop
    ensures |r| <= |s|
  {
    if s == [] then []
    else if s[0] in drop then Without(s[1..], drop)
    else [s[0]] + Without(s[1..], drop)
  }

  /** Appending an element that is absent keeps a list free of duplicates. */
  lemma AppendNoDups(s: seq<String>, x: String)
    requires NoDups(s) && x !in s
    ensures NoDups(s + [x])
  {
  }

  /** On a list without duplicates, removing the first occurrence removes all
      of them: what remains is the list without that element. */
  lemma RemoveFirstNoDups(s: seq<String>, x: String)
    requires NoDups(s) && x in s
    ensures RemoveFirst(s, x) == Without(s, {x})
    ensures NoDups(RemoveFirst(s, x)) && x !in RemoveFirst(s, x)
  {
    RemoveFirstIsWithout(s, x);
    WithoutNoDups(s, {x});
  }

  lemma {:induction false} RemoveFirstIsWithout(s: seq<String>, x: String)
    requires NoDups(s) && x in s
    ensures RemoveFirst(s, x) == Without(s, {x})
  {
    assert NoDups(s[1..]);
    RemoveFirstCons(s, x);
    if s[0] == x {
      assert x !in s[1..];
      WithoutAbsent(s[1..], {x});
    } else {
      RemoveFirstIsWithout(s[1..], x);
    }
  }

  /** Filtering out elements that are not there changes nothing. */
  lemma {:induction false} WithoutAbsent(s: seq<String>, drop: set<String>)
    requires forall x :: x in drop ==> x !in s
    ensures Without(s, drop) == s
  {
    if s != [] {
      WithoutAbsent(s[1..], drop);
    }
  }

  /** Filtering twice is filtering once by the union. */
  lemma {:induction false} WithoutWithout(s: seq<String>, a: set<String>, b: set<String>)
    ensures Without(Without(s, a), b) == Without(s, a + b)
  {
    if s != [] {
      WithoutWithout(s[1..], a, b);
    }
  }

  /** Filtering keeps a list free of duplicates. */
  lemma {:induction false} WithoutNoDups(s: seq<String>, drop: set<String>)
    requires NoDups(s)
    ensures NoDups(Without(s, drop))
  {
    if s != [] {
      WithoutNoDups(s[1..], drop);
    }
  }
}
