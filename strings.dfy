/** The two functions of Go's `strings` package whose behaviour decides
    the request gating: `Split` with a one-character separator, and
    `ToLower` as far as it can make a string equal to an ASCII word. */
module Strings {

  /** Number of occurrences of c in s. */
  function Count(s: string, c: char): nat
  {
    if s == [] then 0 else (if s[0] == c then 1 else 0) + Count(s[1..], c)
  }

  lemma {:induction false} CountAppend(a: string, b: string, c: char)
    ensures Count(a + b, c) == Count(a, c) + Count(b, c)
  {
    if a != [] {
      assert (a + b)[0] == a[0] && (a + b)[1..] == a[1..] + b;
      CountAppend(a[1..], b, c);
    } else {
      assert a + b == b;
    }
  }

  /** `strings.Join(parts, string(sep))`. */
  function Join(parts: seq<string>, sep: char): string
  {
    if parts == [] then ""
    else if |parts| == 1 then parts[0]
    else parts[0] + [sep] + Join(parts[1..], sep)
  }

  /** Joining three pieces. */
  lemma JoinThree(a: string, b: string, c: string, sep: char)
    ensures Join([a, b, c], sep) == a + [sep] + b + [sep] + c
  {
    var parts := [a, b, c];
    assert parts[1..] == [b, c];
    assert [b, c][1..] == [c];
    assert Join([b, c], sep) == b + [sep] + c;
    assert Join(parts, sep) == a + [sep] + (b + [sep] + c);
  }

  /** `strings.Split(s, string(sep))`: the maximal pieces of s between
      separators; the empty string splits into one empty piece. */
  function Split(s: string, sep: char): (parts: seq<string>)
    ensures |parts| == Count(s, sep) + 1
    ensures forall i :: 0 <= i < |parts| ==> sep !in parts[i]
    ensures Join(parts, sep) == s
  {
    if s == [] then [""]
    else
      var rest := Split(s[1..], sep);
      if s[0] == sep then
        [""] + rest
      else
        var parts := [[s[0]] + rest[0]] + rest[1..];
        assert parts[1..] == rest[1..];
        assert [s[0]] + rest[0] + [sep] == [s[0]] + (rest[0] + [sep]);
        parts
  }

  /** A separator-free string is its own single piece. */
  lemma {:induction false} SplitNoSeparator(p: string, sep: char)
    requires sep !in p
    ensures Split(p, sep) == [p]
  {
    if p != [] {
      assert sep !in p[1..];
      SplitNoSeparator(p[1..], sep);
      assert [p[0]] + p[1..] == p;
    }
  }

  /** Splitting at the first separator. */
  lemma {:induction false} SplitAtFirst(p: string, sep: char, t: string)
    requires sep !in p
    ensures Split(p + [sep] + t, sep) == [p] + Split(t, sep)
  {
    if p == [] {
      assert p + [sep] + t == [sep] + t;
      assert ([sep] + t)[1..] == t;
    } else {
      var s := p + [sep] + t;
      assert s[0] == p[0] && s[1..] == p[1..] + [sep] + t;
      assert sep !in p[1..];
      SplitAtFirst(p[1..], sep, t);
      assert [p[0]] + p[1..] == p;
    }
  }

  /** Split undoes Join on separator-free pieces, so together with the
      postconditions of Split the pieces of a string are unique. */
  lemma {:induction false} SplitJoin(parts: seq<string>, sep: char)
    requires |parts| >= 1
    requires forall i :: 0 <= i < |parts| ==> sep !in parts[i]
    ensures Split(Join(parts, sep), sep) == parts
  {
    if |parts| == 1 {
      SplitNoSeparator(parts[0], sep);
    } else {
      assert sep !in parts[0];
      SplitJoin(parts[1..], sep);
      SplitAtFirst(parts[0], sep, Join(parts[1..], sep));
      assert [parts[0]] + parts[1..] == parts;
    }
  }

  /** `unicode.ToLower` restricted to the characters whose lower case is
      ASCII: the letters A-Z, LATIN CAPITAL LETTER I WITH DOT ABOVE
      (lowered to 'i') and KELVIN SIGN (lowered to 'k'). Every other
      character is kept; Go lowers some of them to other non-ASCII
      characters, which makes no difference to a comparison with an ASCII word. */
  function LowerChar(c: char): char
  {
    if 'A' <= c <= 'Z' then (c as int + 32) as char
    else if c == '\U{0130}' then 'i'
    else if c == '\U{212A}' then 'k'
    else c
  }

  /** `strings.ToLower`, character by character. */
  function ToLower(s: string): (r: string)
    ensures |r| == |s|
    ensures forall i :: 0 <= i < |s| ==> r[i] == LowerChar(s[i])
  {
    if s == [] then "" else [LowerChar(s[0])] + ToLower(s[1..])
  }

  /** The characters that ToLower turns into the lower-case ASCII letter c. */
  function Spellings(c: char): set<char>
    requires 'a' <= c <= 'z'
  {
    {c, (c as int - 32) as char}
    + (if c == 'i' then {'\U{0130}'} else {})
    + (if c == 'k' then {'\U{212A}'} else {})
  }

  lemma LowerCharSpellings(x: char, c: char)
    requires 'a' <= c <= 'z'
    ensures LowerChar(x) == c <==> x in Spellings(c)
  {
    if 'A' <= x <= 'Z' {
      assert LowerChar(x) as int == x as int + 32;
    }
  }

  /** ToLower(s) equals a lower-case ASCII word exactly when s spells the
      word letter by letter in either case (or with the two non-ASCII letters). */
  lemma {:induction false} ToLowerEqualsWord(s: string, word: string)
    requires forall i :: 0 <= i < |word| ==> 'a' <= word[i] <= 'z'
    ensures ToLower(s) == word <==>
            |s| == |word| && forall i :: 0 <= i < |s| ==> s[i] in Spellings(word[i])
  {
    if |s| == |word| {
      forall i | 0 <= i < |s|
        ensures LowerChar(s[i]) == word[i] <==> s[i] in Spellings(word[i])
      {
        LowerCharSpellings(s[i], word[i]);
      }
      if forall i :: 0 <= i < |s| ==> s[i] in Spellings(word[i]) {
        assert ToLower(s) == word;
      }
    }
  }
}
