/**
 * Whitespace tokenisation of one line of text, as Python's `str.split()`
 * with no argument does it: runs of whitespace separate words, and leading
 * or trailing whitespace produces no empty word.
 */
module Text {

  /** The characters for which Python's `str.isspace()` holds; `str.split()` splits on exactly these. */
  predicate IsSpace(ch: char) {
    var c := ch as int;
    || (0x09 <= c <= 0x0D)
    || (0x1C <= c <= 0x20)
    || c == 0x85 || c == 0xA0 || c == 0x1680
    || (0x2000 <= c <= 0x200A)
    || c == 0x2028 || c == 0x2029 || c == 0x202F || c == 0x205F || c == 0x3000
  }

  /** A word as `str.split()` produces it: non-empty and free of whitespace. */
  predicate IsWord(w: string) {
    w != [] && forall i :: 0 <= i < |w| ==> !IsSpace(w[i])
  }

  /** Length of the longest whitespace-free prefix of `s`. */
  function WordLength(s: string): (n: nat)
    ensures n <= |s|
    ensures forall i :: 0 <= i < n ==> !IsSpace(s[i])
    ensures n < |s| ==> IsSpace(s[n])
  {
    if s == [] || IsSpace(s[0]) then 0 else 1 + WordLength(s[1..])
  }

  /** `s.split()`: the maximal whitespace-free runs of `s`, left to right. */
  function Split(s: string): (words: seq<string>)
    ensures forall i :: 0 <= i < |words| ==> IsWord(words[i])
    decreases |s|
  {
    if s == [] then []
    else if IsSpace(s[0]) then Split(s[1..])
    else
      var n := WordLength(s);
      [s[..n]] + Split(s[n..])
  }

  /** `" ".join(words)`: the words separated by single spaces. */
  function Join(words: seq<string>): string {
    if words == [] then ""
    else if |words| == 1 then words[0]
    else words[0] + " " + Join(words[1..])
  }

  /** A word followed by nothing or by whitespace is read whole. */
  lemma {:induction false} WordLengthOfWord(w: string, rest: string)
    requires IsWord(w)
    requires rest == [] || IsSpace(rest[0])
    ensures WordLength(w + rest) == |w|
    decreases |w|
  {
    if |w| > 1 {
      assert (w + rest)[1..] == w[1..] + rest;
      WordLengthOfWord(w[1..], rest);
    } else {
      assert (w + rest)[1..] == rest;
    }
  }

  /** Splitting undoes joining with single spaces. */
  lemma {:induction false} SplitJoin(words: seq<string>)
    requires forall i :: 0 <= i < |words| ==> IsWord(words[i])
    ensures Split(Join(words)) == words
  {
    if words != [] {
      var w := words[0];
      var rest := if |words| == 1 then "" else " " + Join(words[1..]);
      var s := Join(words);
      assert s == w + rest;
      WordLengthOfWord(w, rest);
      assert s[0] == w[0];
      assert s[..|w|] == w;
      assert s[|w|..] == rest;
      if |words| > 1 {
        assert rest[1..] == Join(words[1..]);
        SplitJoin(words[1..]);
        assert words == [w] + words[1..];
      }
    }
  }

  /** A word on its own splits into just that word. */
  lemma SplitWord(w: string)
    requires IsWord(w)
    ensures Split(w) == [w]
  {
    WordLengthOfWord(w, []);
    assert w + [] == w;
    assert w[|w|..] == [];
  }

  /** A string of whitespace only, the empty string included, splits into no words. */
  lemma {:induction false} SplitSpaces(s: string)
    requires forall i :: 0 <= i < |s| ==> IsSpace(s[i])
    ensures Split(s) == []
    decreases |s|
  {
    if s != [] {
      SplitSpaces(s[1..]);
    }
  }

  /**
   * Any whitespace character separates: the words on either side of it are
   * split apart, however many other whitespace characters surround it.
   */
  lemma {:induction false} SplitAtSpace(s1: string, c: char, s2: string)
    requires IsSpace(c)
    ensures Split(s1 + [c] + s2) == Split(s1) + Split(s2)
    decreases |s1|
  {
    var s := s1 + [c] + s2;
    if s1 == [] {
      assert s[1..] == s2;
    } else if IsSpace(s1[0]) {
      assert s[1..] == s1[1..] + [c] + s2;
      SplitAtSpace(s1[1..], c, s2);
    } else {
      var m := WordLength(s1);
      WordLengthPrefix(s1, [c] + s2);
      assert s == s1 + ([c] + s2);
      assert s[..m] == s1[..m];
      assert s[m..] == s1[m..] + [c] + s2;
      SplitAtSpace(s1[m..], c, s2);
    }
  }

  /** Text after a string does not lengthen its first word once that word has ended. */
  lemma {:induction false} WordLengthPrefix(s: string, t: string)
    requires WordLength(s) < |s| || (t != [] && IsSpace(t[0]))
    ensures WordLength(s + t) == WordLength(s)
    decreases |s|
  {
    if s == [] {
      assert s + t == t;
    } else if !IsSpace(s[0]) {
      assert (s + t)[1..] == s[1..] + t;
      WordLengthPrefix(s[1..], t);
    }
  }
}
