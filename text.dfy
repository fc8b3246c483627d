/** String helpers standing in for the Python built-ins the monitor uses:
    str.lower / str.upper (ASCII letters only), the substring test `a in b`,
    str.startswith and the argument-less str.split(). */
module Text {

  type String = seq<char>

  /** The separators of str.split() with no argument, restricted to ASCII:
      tab, line feed, vertical tab, form feed, carriage return (9-13),
      the four information separators (28-31) and the space (32). */
  predicate IsSpace(c: char) {
    (9 <= c as int <= 13) || (28 <= c as int <= 32)
  }

  function LowerChar(c: char): char {
    if 'A' <= c <= 'Z' then (c as int + 32) as char else c
  }

  function UpperChar(c: char): char {
    if 'a' <= c <= 'z' then (c as int - 32) as char else c
  }

  function Lower(s: String): String {
    seq(|s|, i requires 0 <= i < |s| => LowerChar(s[i]))
  }

  function Upper(s: String): String {
    seq(|s|, i requires 0 <= i < |s| => UpperChar(s[i]))
  }

  predicate IsLowerCase(s: String) {
    forall i :: 0 <= i < |s| ==> !('A' <= s[i] <= 'Z')
  }

  predicate IsUpperCase(s: String) {
    forall i :: 0 <= i < |s| ==> !('a' <= s[i] <= 'z')
  }

  /** Lower-casing an upper-cased string gives the lower-cased string:
      case-insensitive comparisons do not see a prior upper-casing. */
  lemma LowerOfUpper(s: String)
    ensures Lower(Upper(s)) == Lower(s)
    ensures IsLowerCase(Lower(s)) && IsUpperCase(Upper(s))
  {
  }

  /** Upper-casing is idempotent and ignores a prior lower-casing. */
  lemma UpperOfCase(s: String)
    ensures Upper(Upper(s)) == Upper(s)
    ensures Upper(Lower(s)) == Upper(s)
  {
  }

  /** `needle` occurs in `hay` starting at index `i`. */
  predicate OccursAt(hay: String, needle: String, i: int) {
    0 <= i && i + |needle| <= |hay| && hay[i..i + |needle|] == needle
  }

  /** Python's `needle in hay` on strings; the empty needle is in every string. */
  function Contains(hay: String, needle: String): (r: bool)
    ensures r <==> exists i :: OccursAt(hay, needle, i)
    decreases |hay|
  {
    if |needle| > |hay| then
      false
    else if hay[..|needle|] == needle then
      assert OccursAt(hay, needle, 0);
      true
    else
      ShiftOccurrence(hay, needle);
      Contains(hay[1..], needle)
  }

  /** An occurrence in the tail is an occurrence in the whole string one index
      further on, and a string with no occurrence at 0 has them only in its tail. */
  lemma ShiftOccurrence(hay: String, needle: String)
    requires |hay| > 0
    requires !OccursAt(hay, needle, 0)
    ensures (exists i :: OccursAt(hay, needle, i)) <==> (exists i :: OccursAt(hay[1..], needle, i))
  {
    forall i | OccursAt(hay[1..], needle, i) ensures OccursAt(hay, needle, i + 1) {
      assert hay[1..][i..i + |needle|] == hay[i + 1..i + 1 + |needle|];
    }
    forall i | OccursAt(hay, needle, i) ensures OccursAt(hay[1..], needle, i - 1) {
      assert hay[1..][i - 1..i - 1 + |needle|] == hay[i..i + |needle|];
    }
  }

  function StartsWithSlash(s: String): bool {
    |s| > 0 && s[0] == '/'
  }

  /** `s` without its leading separators. */
  function TrimStart(s: String): (r: String)
    ensures |r| <= |s| && r == s[|s| - |r|..]
    ensures r != [] ==> !IsSpace(r[0])
    ensures forall i :: 0 <= i < |s| - |r| ==> IsSpace(s[i])
  {
    if s != [] && IsSpace(s[0]) then TrimStart(s[1..]) else s
  }

  /** The longest prefix of `s` that holds no separator. */
  function Token(s: String): (r: String)
    ensures |r| <= |s| && r == s[..|r|]
    ensures forall i :: 0 <= i < |r| ==> !IsSpace(r[i])
    ensures |r| < |s| ==> IsSpace(s[|r|])
  {
    if s == [] || IsSpace(s[0]) then [] else [s[0]] + Token(s[1..])
  }

  predicate IsWord(w: String) {
    w != [] && forall i :: 0 <= i < |w| ==> !IsSpace(w[i])
  }

  /** str.split() with no argument: the maximal runs of non-separators, in order. */
  function Words(s: String): (ws: seq<String>)
    ensures forall w :: w in ws ==> IsWord(w)
    ensures s != [] && !IsSpace(s[0]) ==> ws != [] && ws[0] == Token(s)
    ensures ws == [] <==> forall i :: 0 <= i < |s| ==> IsSpace(s[i])
    decreases |s|
  {
    var t := TrimStart(s);
    if t == [] then
      []
    else
      var w := Token(t);
      assert IsWord(w) by {
        assert |w| > 0 by { assert !IsSpace(t[0]); }
      }
      var rest := Words(t[|w|..]);
      assert !IsSpace(s[|s| - |t|]);
      assert s != [] && !IsSpace(s[0]) ==> t == s;
      assert forall x :: x in [w] + rest ==> x == w || x in rest;
      [w] + rest
  }

  function UpperEach(ws: seq<String>): seq<String> {
    if ws == [] then [] else [Upper(ws[0])] + UpperEach(ws[1..])
  }

  /** Words of the upper-cased string are the upper-cased words: splitting
      does not depend on letter case. */
  lemma {:induction false} WordsOfUpper(s: String)
    ensures Words(Upper(s)) == UpperEach(Words(s))
    decreases |s|
  {
    TrimStartOfUpper(s);
    var t := TrimStart(s);
    if t != [] {
      TokenOfUpper(t);
      var w := Token(t);
      UpperSuffix(t, |w|);
      WordsOfUpper(t[|w|..]);
      assert ([w] + Words(t[|w|..]))[1..] == Words(t[|w|..]);
    }
  }

  lemma UpperSuffix(s: String, n: nat)
    requires n <= |s|
    ensures |Upper(s)| == |s| && Upper(s)[n..] == Upper(s[n..])
  {
  }

  lemma {:induction false} TrimStartOfUpper(s: String)
    ensures TrimStart(Upper(s)) == Upper(TrimStart(s))
    decreases |s|
  {
    if s != [] {
      var u := Upper(s);
      assert u[0] == UpperChar(s[0]) && IsSpace(u[0]) == IsSpace(s[0]);
      if IsSpace(s[0]) {
        assert u[1..] == Upper(s[1..]);
        TrimStartOfUpper(s[1..]);
      }
    }
  }

  lemma {:induction false} TokenOfUpper(s: String)
    ensures Token(Upper(s)) == Upper(Token(s))
    decreases |s|
  {
    if s != [] {
      assert Upper(s)[0] == UpperChar(s[0]);
      assert Upper(s)[1..] == Upper(s[1..]);
      TokenOfUpper(s[1..]);
      if !IsSpace(s[0]) {
        assert Upper([s[0]] + Token(s[1..])) == [UpperChar(s[0])] + Upper(Token(s[1..]));
      }
    }
  }
}
