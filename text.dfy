/**
  String and list helpers with the meaning JavaScript gives them:
  `Array.prototype.join`, `String.prototype.split` (its inverse),
  `Array.prototype.indexOf` (strict equality, so identity for objects)
  and an upper-casing of one character.
 */
module Text {

  /** The total number of characters in `words`. */
  function TotalLength(words: seq<string>): nat
  {
    if |words| == 0 then 0 else |words[0]| + TotalLength(words[1..])
  }

  /** `words.join(sep)`: the words in order, one separator between neighbours. */
  function Join(words: seq<string>, sep: char): (r: string)
    ensures |words| == 0 ==> r == ""
    ensures |words| > 0 ==> |r| == TotalLength(words) + |words| - 1
  {
    if |words| == 0 then ""
    else if |words| == 1 then words[0]
    else words[0] + [sep] + Join(words[1..], sep)
  }

  /** `s.split(sep)`: the maximal separator-free pieces of `s`, in order. */
  function Split(s: string, sep: char): (r: seq<string>)
    ensures |r| > 0
    ensures forall i :: 0 <= i < |r| ==> sep !in r[i]
  {
    if |s| == 0 then [""]
    else
      var rest := Split(s[1..], sep);
      if s[0] == sep then [""] + rest
      else [[s[0]] + rest[0]] + rest[1..]
  }

  /** A separator-free string splits into itself. */
  lemma {:induction false} SplitWord(w: string, sep: char)
    requires sep !in w
    ensures Split(w, sep) == [w]
  {
    if |w| > 0 {
      assert sep !in w[1..];
      SplitWord(w[1..], sep);
      assert [w[0]] + w[1..] == w;
    }
  }

  /** Splitting `w sep t` gives `w` followed by the pieces of `t`. */
  lemma {:induction false} SplitAfterWord(w: string, sep: char, t: string)
    requires sep !in w
    ensures Split(w + [sep] + t, sep) == [w] + Split(t, sep)
  {
    if |w| == 0 {
      assert w + [sep] + t == [sep] + t;
      assert ([sep] + t)[1..] == t;
    } else {
      var s := w + [sep] + t;
      assert s[1..] == w[1..] + [sep] + t;
      assert sep !in w[1..];
      SplitAfterWord(w[1..], sep, t);
      assert [w[0]] + w[1..] == w;
    }
  }

  /** Join and Split are inverse on non-empty lists of separator-free words. */
  lemma {:induction false} SplitJoin(words: seq<string>, sep: char)
    requires |words| > 0
    requires forall i :: 0 <= i < |words| ==> sep !in words[i]
    ensures Split(Join(words, sep), sep) == words
  {
    if |words| == 1 {
      SplitWord(words[0], sep);
    } else {
      SplitJoin(words[1..], sep);
      SplitAfterWord(words[0], sep, Join(words[1..], sep));
      assert [words[0]] + words[1..] == words;
    }
  }

  /** A join is empty exactly when there is no word, or one empty word. */
  lemma JoinEmptyIff(words: seq<string>, sep: char)
    ensures Join(words, sep) == "" <==> words == [] || words == [""]
  {
    if |words| > 1 {
      assert |Join(words, sep)| >= |words| - 1;
    }
  }

  /**
    `s.indexOf(x)`: the first position holding `x`, or -1 when there is none.
   */
  function IndexOf<T(==)>(s: seq<T>, x: T): (i: int)
    ensures -1 <= i < |s|
    ensures i == -1 <==> x !in s
    ensures 0 <= i ==> s[i] == x && x !in s[..i]
  {
    if |s| == 0 then -1
    else if s[0] == x then 0
    else
      var j := IndexOf(s[1..], x);
      assert j >= 0 ==> s[..j + 1] == [s[0]] + s[1..][..j];
      if j == -1 then -1 else j + 1
  }

  /** In a list without repeats every element is found at its own position. */
  lemma IndexOfDistinct<T>(s: seq<T>, k: nat)
    requires k < |s|
    requires forall i, j :: 0 <= i < j < |s| ==> s[i] != s[j]
    ensures IndexOf(s, s[k]) == k
  {
  }

  /**
    `c.toUpperCase()` for the characters this model covers: ASCII letters
    are mapped to their capitals, every other character is kept.
   */
  function UpperCase(c: char): (u: char)
    ensures 'a' <= c <= 'z' ==> 'A' <= u <= 'Z' && u as int == c as int - 32
    ensures !('a' <= c <= 'z') ==> u == c
  {
    if 'a' <= c <= 'z' then (c as int - 32) as char else c
  }
}
