/** The few Python `str` operations the core relies on: `upper`, substring
    search, `split(sep)`, its inverse `sep.join`, and `strip(chars)`.
    Contracts with quantifiers live in lemmas, so that the functions can be
    unfolded cheaply wherever they are used. */
module Strings {
  import opened Wrappers

  /** `str.upper()` on one character; only the ASCII letters change case. */
  function UpperChar(c: char): char {
    if 'a' <= c <= 'z' then (c as int - 32) as char else c
  }

  /** `str.upper()`: every character mapped by `UpperChar`. */
  function Upper(s: string): (r: string)
    ensures |r| == |s|
  {
    if |s| == 0 then [] else [UpperChar(s[0])] + Upper(s[1..])
  }

  /** Upper-casing works character by character, and leaves a string
      without lower-case ASCII letters unchanged. */
  lemma {:induction false} UpperAt(s: string)
    ensures forall i :: 0 <= i < |s| ==> Upper(s)[i] == UpperChar(s[i])
    ensures (forall i :: 0 <= i < |s| ==> !('a' <= s[i] <= 'z')) ==> Upper(s) == s
  {
    if |s| > 0 {
      UpperAt(s[1..]);
      assert forall i :: 1 <= i < |s| ==> s[1..][i - 1] == s[i];
    }
  }

  /** True when `t` occurs in `s` starting at index `i`. */
  predicate OccursAt(s: string, t: string, i: int) {
    0 <= i && i + |t| <= |s| && s[i..i + |t|] == t
  }

  /** Python's `t in s` for strings. */
  predicate Contains(s: string, t: string) {
    exists i | 0 <= i <= |s| :: OccursAt(s, t, i)
  }

  /** `s.find(t, k)`: the first occurrence of `t` at or after `k`. */
  function FindFrom(s: string, t: string, k: nat): (r: Option<nat>)
    requires |t| > 0
    ensures r.Some? ==> k <= r.value && OccursAt(s, t, r.value)
    decreases |s| - k
  {
    if k + |t| > |s| then None
    else if s[k..k + |t|] == t then Some(k)
    else FindFrom(s, t, k + 1)
  }

  function Find(s: string, t: string): (r: Option<nat>)
    requires |t| > 0
    ensures r.Some? ==> OccursAt(s, t, r.value)
  {
    FindFrom(s, t, 0)
  }

  /** `find` reports the leftmost occurrence at or after `k`, or none. */
  lemma {:induction false} FindFromIsFirst(s: string, t: string, k: nat)
    requires |t| > 0
    ensures FindFrom(s, t, k).Some? ==> forall j :: k <= j < FindFrom(s, t, k).value ==> !OccursAt(s, t, j)
    ensures FindFrom(s, t, k).None? ==> forall j :: k <= j ==> !OccursAt(s, t, j)
    decreases |s| - k
  {
    if k + |t| <= |s| && s[k..k + |t|] != t {
      FindFromIsFirst(s, t, k + 1);
    }
  }

  /** Searching from k for a one-character string finds its first
      occurrence at or after k. */
  lemma {:induction false} FindChar(s: string, c: char, at: nat, k: nat)
    requires k <= at < |s| && s[at] == c
    requires forall j :: k <= j < at ==> s[j] != c
    ensures FindFrom(s, [c], k) == Some(at)
    decreases at - k
  {
    if k < at {
      assert s[k..k + 1][0] == s[k];
      FindChar(s, c, at, k + 1);
    } else {
      assert s[k..k + 1] == [c];
    }
  }

  /** A string without the character c has no occurrence of it at or
      after k. */
  lemma {:induction false} NoChar(s: string, c: char, k: nat)
    requires forall j :: k <= j < |s| ==> s[j] != c
    ensures FindFrom(s, [c], k).None?
    decreases |s| - k
  {
    if k + 1 <= |s| {
      assert s[k..k + 1][0] == s[k];
      NoChar(s, c, k + 1);
    }
  }

  /** An occurrence inside a prefix is an occurrence in the whole string. */
  lemma OccursInPrefix(s: string, t: string, n: nat, j: int)
    requires n <= |s| && OccursAt(s[..n], t, j)
    ensures OccursAt(s, t, j)
  {
    assert s[..n][j..j + |t|] == s[j..j + |t|];
  }

  /** `sep.join(parts)`. */
  function Join(parts: seq<string>, sep: string): string
    requires |parts| >= 1
  {
    if |parts| == 1 then parts[0] else parts[0] + sep + Join(parts[1..], sep)
  }

  /** `s.split(sep)` for a non-empty separator: cut at the leftmost
      occurrence, then split the rest. */
  function Split(s: string, sep: string): (parts: seq<string>)
    requires |sep| > 0
    ensures |parts| >= 1
    decreases |s|
  {
    match Find(s, sep)
    case None => [s]
    case Some(i) => [s[..i]] + Split(s[i + |sep|..], sep)
  }

  /** Splitting loses nothing: joining the parts with the separator gives
      back the original string; and no part contains the separator. */
  lemma {:induction false} JoinSplit(s: string, sep: string)
    requires |sep| > 0
    ensures Join(Split(s, sep), sep) == s
    ensures forall k :: 0 <= k < |Split(s, sep)| ==> !Contains(Split(s, sep)[k], sep)
    decreases |s|
  {
    FindFromIsFirst(s, sep, 0);
    match Find(s, sep)
    case None =>
    case Some(i) =>
      var rest := s[i + |sep|..];
      var tail := Split(rest, sep);
      var parts := Split(s, sep);
      assert parts == [s[..i]] + tail;
      assert parts[1..] == tail;
      JoinSplit(rest, sep);
      assert Join(parts, sep) == s[..i] + sep + rest;
      assert s[i..i + |sep|] == sep;
      assert s == s[..i] + s[i..i + |sep|] + rest;
      assert !Contains(s[..i], sep) by {
        forall j | 0 <= j <= i && OccursAt(s[..i], sep, j)
          ensures false
        {
          OccursInPrefix(s, sep, i, j);
        }
      }
      forall k | 0 <= k < |parts|
        ensures !Contains(parts[k], sep)
      {
        if k > 0 {
          assert parts[k] == tail[k - 1];
        }
      }
  }

  /** `s.lstrip(cs)`. */
  function TrimLeft(s: string, cs: set<char>): (r: string)
    ensures |r| <= |s| && r == s[|s| - |r|..]
  {
    if |s| > 0 && s[0] in cs then TrimLeft(s[1..], cs) else s
  }

  /** `s.rstrip(cs)`. */
  function TrimRight(s: string, cs: set<char>): (r: string)
    ensures |r| <= |s| && r == s[..|r|]
  {
    if |s| > 0 && s[|s| - 1] in cs then TrimRight(s[..|s| - 1], cs) else s
  }

  /** `s.strip(cs)`. */
  function Strip(s: string, cs: set<char>): string {
    TrimRight(TrimLeft(s, cs), cs)
  }

  /** A string that neither starts nor ends with a character of `cs` is
      its own strip. */
  lemma StripKeeps(s: string, cs: set<char>)
    requires |s| > 0 && s[0] !in cs && s[|s| - 1] !in cs
    ensures Strip(s, cs) == s
  {
  }

  lemma {:induction false} TrimLeftCuts(s: string, cs: set<char>)
    ensures forall i :: 0 <= i < |s| - |TrimLeft(s, cs)| ==> s[i] in cs
    ensures |TrimLeft(s, cs)| > 0 ==> TrimLeft(s, cs)[0] !in cs
  {
    if |s| > 0 && s[0] in cs {
      TrimLeftCuts(s[1..], cs);
    }
  }

  lemma {:induction false} TrimRightCuts(s: string, cs: set<char>)
    ensures forall i :: |TrimRight(s, cs)| <= i < |s| ==> s[i] in cs
    ensures |TrimRight(s, cs)| > 0 ==> TrimRight(s, cs)[|TrimRight(s, cs)| - 1] !in cs
  {
    if |s| > 0 && s[|s| - 1] in cs {
      TrimRightCuts(s[..|s| - 1], cs);
    }
  }

  /** `r` is the slice of `s` starting at `lo`, with only characters of
      `cs` cut off on either side. */
  predicate IsStripOf(s: string, cs: set<char>, lo: int, r: string) {
    && 0 <= lo && lo + |r| <= |s| && r == s[lo..lo + |r|]
    && (forall i :: 0 <= i < lo ==> s[i] in cs)
    && (forall i :: lo + |r| <= i < |s| ==> s[i] in cs)
  }

  /** `strip` keeps a middle slice of the string and cuts only characters
      of `cs`. */
  lemma StripIsMiddleSlice(s: string, cs: set<char>)
    ensures exists lo :: IsStripOf(s, cs, lo, Strip(s, cs))
  {
    var l := TrimLeft(s, cs);
    var r := TrimRight(l, cs);
    TrimLeftCuts(s, cs);
    TrimRightCuts(l, cs);
    var lo := |s| - |l|;
    assert r == Strip(s, cs);
    assert r == s[lo..lo + |r|];
    assert forall i :: lo + |r| <= i < |s| ==> s[i] == l[i - lo];
    assert IsStripOf(s, cs, lo, r);
  }

  /** `strip` leaves no character of `cs` at either end. */
  lemma StripEnds(s: string, cs: set<char>)
    ensures var r := Strip(s, cs); |r| > 0 ==> r[0] !in cs && r[|r| - 1] !in cs
  {
    var l := TrimLeft(s, cs);
    var r := TrimRight(l, cs);
    TrimLeftCuts(s, cs);
    TrimRightCuts(l, cs);
    assert r == Strip(s, cs);
    if |r| > 0 {
      assert r[0] == l[0];
    }
  }
}
