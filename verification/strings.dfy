/** Text operations the bot relies on: lower-casing, substring search,
    joining command arguments with single spaces, and the whitespace split
    that produces those arguments in the first place. */
module Strings {

  /** True for the upper-case letters this model folds: ASCII `A`-`Z`,
      Cyrillic `А`-`Я` (U+0410..U+042F) and `Ѐ`-`Џ` (U+0400..U+040F), which
      includes `Ё`. */
  predicate IsUpper(c: char) {
    || ('A' <= c <= 'Z')
    || ('\U{0410}' <= c <= '\U{042F}')
    || ('\U{0400}' <= c <= '\U{040F}')
  }

  /** Lower-cases one character: each upper-case letter becomes its small
      counterpart, every other character is left alone. */
  function LowerChar(c: char): (d: char)
    ensures !IsUpper(d)
    ensures !IsUpper(c) ==> d == c
    ensures IsUpper(c) ==> d as int == c as int + (if '\U{0400}' <= c <= '\U{040F}' then 80 else 32)
  {
    if 'A' <= c <= 'Z' then (c as int + 32) as char
    else if '\U{0410}' <= c <= '\U{042F}' then (c as int + 32) as char
    else if '\U{0400}' <= c <= '\U{040F}' then (c as int + 80) as char
    else c
  }

  /** `str.lower()` restricted to the letters of `IsUpper`. */
  function Lower(s: string): (t: string)
    ensures |t| == |s|
    ensures forall i :: 0 <= i < |s| ==> t[i] == LowerChar(s[i])
  {
    seq(|s|, i requires 0 <= i < |s| => LowerChar(s[i]))
  }

  /** The persona's name in capitals folds to the wake word. */
  lemma LowerRasul()
    ensures Lower("РАСУЛ") == "расул"
  {
  }

  /** Lower-casing twice is lower-casing once. */
  lemma LowerIdempotent(s: string)
    ensures Lower(Lower(s)) == Lower(s)
  {
  }

  /** True when `p` is a prefix of `s`. */
  predicate IsPrefix(p: string, s: string) {
    |p| <= |s| && s[..|p|] == p
  }

  /** Python's `sub in s`: `sub` occurs in `s` at some position. */
  predicate Contains(s: string, sub: string)
    decreases |s|
  {
    IsPrefix(sub, s) || (|s| > 0 && Contains(s[1..], sub))
  }

  /** `sub` occurs in `s` starting at position `i`. */
  predicate OccursAt(s: string, sub: string, i: int) {
    0 <= i <= |s| - |sub| && s[i..i + |sub|] == sub
  }

  /** An occurrence in the tail of `s` is an occurrence in `s`, one position later. */
  lemma OccursAtTail(s: string, sub: string, i: int)
    requires |s| > 0 && i >= 0
    ensures OccursAt(s[1..], sub, i) <==> OccursAt(s, sub, i + 1)
  {
    if 0 <= i <= |s| - 1 - |sub| {
      assert s[1..][i..i + |sub|] == s[i + 1..i + 1 + |sub|];
    }
  }

  /** `Contains` agrees with the positional definition of a substring. */
  lemma {:induction false} ContainsIff(s: string, sub: string)
    ensures Contains(s, sub) <==> exists i :: OccursAt(s, sub, i)
    decreases |s|
  {
    assert IsPrefix(sub, s) <==> OccursAt(s, sub, 0);
    if |s| > 0 && !IsPrefix(sub, s) {
      ContainsIff(s[1..], sub);
      if Contains(s[1..], sub) {
        var i :| OccursAt(s[1..], sub, i);
        OccursAtTail(s, sub, i);
      } else {
        forall i | OccursAt(s, sub, i)
          ensures false
        {
          if i > 0 {
            OccursAtTail(s, sub, i - 1);
          }
        }
      }
    }
  }

  /** A non-empty word never occurs in the empty text. */
  lemma EmptyContainsNothing(sub: string)
    requires |sub| > 0
    ensures !Contains("", sub)
  {
  }

  /** Case-insensitive search: if `sub` occurs in `s`, its lower-cased form
      occurs in the lower-cased `s`. */
  lemma ContainsLower(s: string, sub: string)
    requires Contains(s, sub)
    ensures Contains(Lower(s), Lower(sub))
  {
    ContainsIff(s, sub);
    var i :| OccursAt(s, sub, i);
    assert Lower(s)[i..i + |sub|] == Lower(sub);
    assert OccursAt(Lower(s), Lower(sub), i);
    ContainsIff(Lower(s), Lower(sub));
  }

  /** Total length of the elements of `xs`. */
  function SumLen(xs: seq<string>): nat {
    if |xs| == 0 then 0 else |xs[0]| + SumLen(xs[1..])
  }

  /** Python's `" ".join(xs)`: the elements separated by single spaces. The
      length leaves room for one character per gap, and `JoinSpaces` shows
      every whitespace character of a join of words is a plain space. */
  function Join(xs: seq<string>): (s: string)
    ensures |xs| == 0 ==> s == ""
    ensures |xs| > 0 ==> IsPrefix(xs[0], s) && |s| == SumLen(xs) + |xs| - 1
    ensures |xs| > 1 ==> IsPrefix(xs[0] + " ", s)
  {
    if |xs| == 0 then ""
    else if |xs| == 1 then xs[0]
    else xs[0] + " " + Join(xs[1..])
  }

  /** The ASCII characters Python's `str.split()` treats as whitespace: space,
      tab, line feed, vertical tab, form feed, carriage return and the four
      separators U+001C..U+001F. */
  predicate IsSpace(c: char) {
    c == ' ' || ('\t' <= c <= '\r') || ('\U{001C}' <= c <= '\U{001F}')
  }

  /** True when `w` is a word as produced by a whitespace split: non-empty and
      free of whitespace. */
  predicate IsWord(w: string) {
    |w| > 0 && forall i :: 0 <= i < |w| ==> !IsSpace(w[i])
  }

  /** Length of the leading run of non-whitespace characters of `s`. */
  function WordLen(s: string): (n: nat)
    ensures n <= |s|
    ensures |s| > 0 && !IsSpace(s[0]) ==> n > 0
    ensures forall i :: 0 <= i < n ==> !IsSpace(s[i])
    ensures n < |s| ==> IsSpace(s[n])
  {
    if |s| == 0 || IsSpace(s[0]) then 0 else 1 + WordLen(s[1..])
  }

  /** Python's `str.split()` with no separator: the maximal runs of
      non-whitespace characters, in order. This is how the bot framework turns
      the text after a command into its argument list. */
  function Words(s: string): (ws: seq<string>)
    ensures forall i :: 0 <= i < |ws| ==> IsWord(ws[i])
    decreases |s|
  {
    if |s| == 0 then []
    else if IsSpace(s[0]) then Words(s[1..])
    else
      var n := WordLen(s);
      [s[..n]] + Words(s[n..])
  }

  lemma {:induction false} WordLenOfWord(w: string, t: string)
    requires forall i :: 0 <= i < |w| ==> !IsSpace(w[i])
    requires |t| == 0 || IsSpace(t[0])
    ensures WordLen(w + t) == |w|
    decreases |w|
  {
    if |w| > 0 {
      assert (w + t)[1..] == w[1..] + t;
      WordLenOfWord(w[1..], t);
    }
  }

  /** In a join of words the only whitespace is the separating `' '`: no tab,
      newline or other separator is introduced. */
  lemma {:induction false} JoinSpaces(xs: seq<string>)
    requires forall k :: 0 <= k < |xs| ==> IsWord(xs[k])
    ensures forall i :: 0 <= i < |Join(xs)| && IsSpace(Join(xs)[i]) ==> Join(xs)[i] == ' '
    decreases |xs|
  {
    if |xs| > 1 {
      var w, rest := xs[0], Join(xs[1..]);
      JoinSpaces(xs[1..]);
      forall i | 0 <= i < |Join(xs)| && IsSpace(Join(xs)[i])
        ensures Join(xs)[i] == ' '
      {
        if i > |w| {
          assert Join(xs)[i] == rest[i - |w| - 1];
        }
      }
    }
  }

  /** Joining a list of words and splitting the result gives the list back:
      no argument is lost, merged or reordered by `Join`. */
  lemma {:induction false} WordsJoin(xs: seq<string>)
    requires forall i :: 0 <= i < |xs| ==> IsWord(xs[i])
    ensures Words(Join(xs)) == xs
    decreases |xs|
  {
    if |xs| == 1 {
      WordLenOfWord(xs[0], "");
      assert xs[0] + "" == xs[0];
      assert xs[0][|xs[0]|..] == "";
    } else if |xs| > 1 {
      var w, rest := xs[0], Join(xs[1..]);
      var s := w + " " + rest;
      assert s == w + (" " + rest);
      WordLenOfWord(w, " " + rest);
      assert s[..|w|] == w;
      assert s[|w|..] == " " + rest;
      assert (" " + rest)[1..] == rest;
      WordsJoin(xs[1..]);
      assert Words(s[|w|..]) == Words(rest);
      assert xs == [w] + xs[1..];
    }
  }
}
