/** Substring search and splitting on strings, as the scripts use them. */
module Strings {

  /** `t` occurs in `s` starting at index `i`. */
  predicate OccursAt(s: string, t: string, i: int)
  {
    0 <= i && i + |t| <= |s| && s[i..i + |t|] == t
  }

  /** First index at or after `k` where `t` occurs in `s`, or -1. */
  function IndexFrom(s: string, t: string, k: nat): (r: int)
    requires k <= |s|
    ensures r == -1 || (k <= r && OccursAt(s, t, r))
    decreases |s| - k
  {
    if k + |t| > |s| then -1
    else if s[k..k + |t|] == t then k
    else IndexFrom(s, t, k + 1)
  }

  /** `IndexFrom` skips no occurrence: there is none between `k` and its
      result, and none at all after `k` when it gives -1. */
  lemma {:induction false} IndexFromIsFirst(s: string, t: string, k: nat)
    requires k <= |s|
    ensures forall i :: k <= i && (IndexFrom(s, t, k) == -1 || i < IndexFrom(s, t, k)) ==> !OccursAt(s, t, i)
    decreases |s| - k
  {
    if k + |t| > |s| {
    } else if s[k..k + |t|] == t {
    } else {
      IndexFromIsFirst(s, t, k + 1);
      assert !OccursAt(s, t, k);
    }
  }

  /** JavaScript's `s.indexOf(t)`: an index where `t` occurs, or -1. */
  function IndexOf(s: string, t: string): (r: int)
    ensures r == -1 || OccursAt(s, t, r)
  {
    IndexFrom(s, t, 0)
  }

  /** `IndexOf` gives the first occurrence, and -1 exactly when there is none. */
  lemma IndexOfIsFirst(s: string, t: string)
    ensures IndexOf(s, t) == -1 <==> forall i :: !OccursAt(s, t, i)
    ensures forall i :: 0 <= i < IndexOf(s, t) ==> !OccursAt(s, t, i)
  {
    IndexFromIsFirst(s, t, 0);
  }

  /** Python's `t in s` on two strings. */
  function Contains(s: string, t: string): (b: bool)
    ensures b <==> exists i :: OccursAt(s, t, i)
  {
    IndexOfIsFirst(s, t);
    IndexOf(s, t) != -1
  }

  /** A string that lacks one of the characters of `t` does not contain `t`. */
  lemma MissingCharacter(s: string, t: string, j: nat)
    requires j < |t| && t[j] !in s
    ensures IndexOf(s, t) == -1
  {
    OccurrenceShowsCharacter(s, t, IndexOf(s, t), j);
  }

  /** Every character of an occurrence is a character of `s`. */
  lemma OccurrenceShowsCharacter(s: string, t: string, i: int, j: nat)
    ensures OccursAt(s, t, i) && j < |t| ==> t[j] in s
  {
    if OccursAt(s, t, i) && j < |t| {
      assert s[i..i + |t|][j] == s[i + j];
    }
  }

  /** A three-character string occurs where its characters do. */
  lemma OccursAt3(s: string, t: string, i: nat)
    requires |t| == 3 && i + 3 <= |s|
    requires s[i] == t[0] && s[i + 1] == t[1] && s[i + 2] == t[2]
    ensures OccursAt(s, t, i) && IndexOf(s, t) != -1
  {
    assert s[i..i + 3] == t;
    Found(s, t, i);
  }

  /** Every string occurs in itself at index 0. */
  lemma OccursInItself(s: string)
    ensures OccursAt(s, s, 0) && IndexOf(s, s) != -1
  {
    assert s[0..|s|] == s;
    Found(s, s, 0);
  }

  /** An occurrence is found. */
  lemma Found(s: string, t: string, i: int)
    requires OccursAt(s, t, i)
    ensures IndexOf(s, t) != -1
  {
    IndexOfIsFirst(s, t);
  }

  /** Inverse of `Split`: the parts separated by one `sep` each. */
  function Join(parts: seq<string>, sep: char): string
  {
    if |parts| == 0 then ""
    else if |parts| == 1 then parts[0]
    else parts[0] + [sep] + Join(parts[1..], sep)
  }

  /** JavaScript's `s.split(sep)` for a one-character separator: the maximal
      separator-free pieces of `s`, at least one of them. */
  function Split(s: string, sep: char): (r: seq<string>)
    ensures |r| >= 1
    ensures forall k :: 0 <= k < |r| ==> sep !in r[k]
    ensures Join(r, sep) == s
    decreases |s|
  {
    if s == [] then [""]
    else
      var rest := Split(s[1..], sep);
      if s[0] == sep then [""] + rest
      else
        assert Join(rest, sep) == rest[0] + Join([""] + rest[1..], sep) by { JoinHead(rest, sep); }
        JoinHead([[s[0]] + rest[0]] + rest[1..], sep);
        [[s[0]] + rest[0]] + rest[1..]
  }

  /** Joining splits off the first part, whatever follows it. */
  lemma JoinHead(parts: seq<string>, sep: char)
    requires |parts| >= 1
    ensures Join(parts, sep) == parts[0] + Join([""] + parts[1..], sep)
  {
  }

  /** A string splits into several pieces exactly when it holds the
      separator. */
  lemma SeveralPartsIff(parts: seq<string>, sep: char)
    requires |parts| >= 1 && forall k :: 0 <= k < |parts| ==> sep !in parts[k]
    ensures |parts| > 1 <==> sep in Join(parts, sep)
  {
    if |parts| > 1 {
      assert Join(parts, sep)[|parts[0]|] == sep;
    }
  }

  /** A separator-free prefix becomes the front of the first piece and leaves
      the other pieces alone. */
  lemma {:induction false} SplitPrefix(a: string, b: string, sep: char)
    requires sep !in a
    ensures Split(a + b, sep) == [a + Split(b, sep)[0]] + Split(b, sep)[1..]
    decreases |a|
  {
    var parts := Split(b, sep);
    if a == [] {
      assert a + b == b;
      assert a + parts[0] == parts[0];
      assert parts == [parts[0]] + parts[1..];
    } else {
      var ab := a + b;
      assert ab[0] == a[0] && ab[1..] == a[1..] + b;
      SplitPrefix(a[1..], b, sep);
      assert [a[0]] + (a[1..] + parts[0]) == a + parts[0];
    }
  }

  /** A separator-free piece followed by the separator is split off whole. */
  lemma SplitAtSeparator(a: string, b: string, sep: char)
    requires sep !in a
    ensures Split(a + [sep] + b, sep) == [a] + Split(b, sep)
  {
    var tail := [sep] + b;
    assert a + [sep] + b == a + tail;
    assert tail[0] == sep && tail[1..] == b;
    assert Split(tail, sep) == [""] + Split(b, sep);
    SplitPrefix(a, tail, sep);
    assert a + "" == a;
  }
}
