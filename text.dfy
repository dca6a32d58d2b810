/**
 * String helpers with the behaviour of the JavaScript and Python string
 * methods the application calls (`toLowerCase`/`lower`, `trim`/`strip`,
 * `includes`/`in`, `endsWith`, `replace`).  Case mapping and white space
 * are restricted to ASCII.
 */
module Text {
  import Seqs

  /** White space removed by `trim()` and `strip()` (ASCII part). */
  predicate IsSpace(c: char) {
    c == ' ' || c == '\t' || c == '\n' || c == '\r' || c == '\U{000B}' || c == '\U{000C}'
  }

  /** A string made only of white space (the empty string included). */
  predicate IsBlank(s: string) {
    forall i | 0 <= i < |s| :: IsSpace(s[i])
  }

  function LowerChar(c: char): char {
    if 'A' <= c <= 'Z' then (c as int + 32) as char else c
  }

  /** `s.toLowerCase()` / `s.lower()` on ASCII letters. */
  function Lower(s: string): (r: string)
    ensures |r| == |s|
    ensures forall i | 0 <= i < |s| :: r[i] == LowerChar(s[i])
  {
    if s == [] then [] else [LowerChar(s[0])] + Lower(s[1..])
  }

  predicate StartsWith(s: string, prefix: string) {
    |prefix| <= |s| && s[..|prefix|] == prefix
  }

  /** `s.endsWith(suffix)`. */
  predicate EndsWith(s: string, suffix: string) {
    |suffix| <= |s| && s[|s| - |suffix|..] == suffix
  }

  /** `s.includes(sub)` / `sub in s`: `sub` occurs somewhere in `s`. */
  predicate Contains(s: string, sub: string) {
    exists i | 0 <= i <= |s| :: StartsWith(s[i..], sub)
  }

  lemma EmptyIsContained(s: string)
    ensures Contains(s, "")
  {
    assert StartsWith(s[0..], "");
  }

  /** Removes leading white space. */
  function TrimStart(s: string): (r: string)
    ensures |r| <= |s|
  {
    if s != [] && IsSpace(s[0]) then TrimStart(s[1..]) else s
  }

  /** `TrimStart` drops a blank prefix and stops at the first non-space character. */
  lemma {:induction false} TrimStartShape(s: string)
    ensures var r := TrimStart(s);
      r == s[|s| - |r|..] && (r == [] || !IsSpace(r[0])) && IsBlank(s[..|s| - |r|])
  {
    if s != [] && IsSpace(s[0]) {
      TrimStartShape(s[1..]);
      var r := TrimStart(s[1..]);
      assert s[1..][|s| - 1 - |r|..] == s[|s| - |r|..];
      assert s[..|s| - |r|] == [s[0]] + s[1..][..|s| - 1 - |r|];
    }
  }

  /** Removes trailing white space. */
  function TrimEnd(s: string): (r: string)
    ensures |r| <= |s|
  {
    if s != [] && IsSpace(s[|s| - 1]) then TrimEnd(s[..|s| - 1]) else s
  }

  /** `TrimEnd` drops a blank suffix and stops at the last non-space character. */
  lemma {:induction false} TrimEndShape(s: string)
    ensures var r := TrimEnd(s);
      r == s[..|r|] && (r == [] || !IsSpace(r[|r| - 1])) && IsBlank(s[|r|..])
  {
    if s != [] && IsSpace(s[|s| - 1]) {
      TrimEndShape(s[..|s| - 1]);
      var r := TrimEnd(s[..|s| - 1]);
      assert s[..|s| - 1][..|r|] == s[..|r|];
      assert s[|r|..] == s[..|s| - 1][|r|..] + [s[|s| - 1]];
    }
  }

  /** `s.trim()` / `s.strip()`. */
  function Trim(s: string): string {
    TrimEnd(TrimStart(s))
  }

  /**
   * `r` is `s` with its leading and trailing white space removed: a slice
   * of `s` between two blank parts that neither starts nor ends with white
   * space.
   */
  ghost predicate IsTrimOf(r: string, s: string) {
    (exists a | 0 <= a <= |s| - |r| :: s[a..a + |r|] == r && IsBlank(s[..a]) && IsBlank(s[a + |r|..])) &&
    (r != [] ==> !IsSpace(r[0]) && !IsSpace(r[|r| - 1]))
  }

  lemma TrimIsTrimOf(s: string)
    ensures IsTrimOf(Trim(s), s)
  {
    var t := TrimStart(s);
    TrimStartShape(s);
    var r := TrimEnd(t);
    TrimEndShape(t);
    var a := |s| - |t|;
    assert s[a..a + |r|] == r;
    assert s[a + |r|..] == t[|r|..];
    if r != [] {
      assert r[0] == t[0];
    }
  }

  /** `!s.trim()` holds exactly for the blank strings. */
  lemma TrimEmptyIffBlank(s: string)
    ensures Trim(s) == "" <==> IsBlank(s)
  {
    var t := TrimStart(s);
    TrimStartShape(s);
    TrimEndShape(t);
    if Trim(s) == "" {
      assert s == s[..|s| - |t|] + t;
      assert t[|TrimEnd(t)|..] == t;
    }
  }

  /** Trimming twice is trimming once. */
  lemma TrimIdempotent(s: string)
    ensures Trim(Trim(s)) == Trim(s)
  {
    var t := TrimStart(s);
    var r := Trim(s);
    TrimStartShape(s);
    TrimEndShape(t);
    TrimEndShape(r);
    if r != [] {
      assert r[0] == t[0];
      assert TrimStart(r) == r;
    } else {
      assert TrimStart(r) == r;
    }
  }

  function Other(c: char): char -> bool {
    x => x != c
  }

  /**
   * `s.replace(c, '')` in Python: every occurrence of `c` deleted, every
   * other character kept, as often as it occurs and in its order.
   */
  function RemoveChar(s: string, c: char): (r: string)
    ensures |r| <= |s|
    ensures forall i | 0 <= i < |r| :: r[i] != c
    ensures forall x :: x in r <==> x in s && x != c
  {
    if s == [] then []
    else if s[0] == c then RemoveChar(s[1..], c)
    else [s[0]] + RemoveChar(s[1..], c)
  }

  /** `RemoveChar` is the filter that drops `c`. */
  lemma {:induction false} RemoveCharIsFilter(s: string, c: char)
    ensures RemoveChar(s, c) == Seqs.Filter(s, Other(c))
  {
    if s != [] {
      RemoveCharIsFilter(s[1..], c);
    }
  }

  /** What `RemoveChar` keeps: an ordered subsequence with every other character's full count. */
  lemma RemoveCharKeepsOthers(s: string, c: char)
    ensures Seqs.IsSubsequence(RemoveChar(s, c), s)
    ensures forall x :: multiset(RemoveChar(s, c))[x] == if x == c then 0 else multiset(s)[x]
  {
    RemoveCharIsFilter(s, c);
    Seqs.FilterIsSubsequence(s, Other(c));
    Seqs.FilterMultiplicityAll(s, Other(c));
  }

  lemma RemoveLeadingChar(s: string, c: char)
    requires s != [] && s[0] == c
    ensures RemoveChar(s, c) == RemoveChar(s[1..], c)
  {
  }

  /** Deleting a character that does not occur changes nothing. */
  lemma {:induction false} RemoveAbsentChar(s: string, c: char)
    requires c !in s
    ensures RemoveChar(s, c) == s
  {
    if s != [] {
      assert s == [s[0]] + s[1..];
      RemoveAbsentChar(s[1..], c);
    }
  }

  /**
   * `s.replace(pat, '')` in Python: the occurrences of `pat`, found from
   * left to right without overlap, deleted.
   */
  function DeleteAll(s: string, pat: string): (r: string)
    requires pat != ""
    ensures |r| <= |s|
    decreases |s|
  {
    if |s| < |pat| then s
    else if s[..|pat|] == pat then DeleteAll(s[|pat|..], pat)
    else [s[0]] + DeleteAll(s[1..], pat)
  }

  /** `DeleteAll` changes the text exactly when `pat` occurs in it, and then shortens it. */
  lemma {:induction false} DeleteAllChangesIffContains(s: string, pat: string)
    requires pat != ""
    ensures !Contains(s, pat) ==> DeleteAll(s, pat) == s
    ensures Contains(s, pat) ==> |DeleteAll(s, pat)| < |s|
    decreases |s|
  {
    if |s| < |pat| {
      NoRoomNoMatch(s, pat);
    } else if s[..|pat|] == pat {
      assert StartsWith(s[0..], pat);
    } else {
      ContainsInTail(s, pat);
      DeleteAllChangesIffContains(s[1..], pat);
    }
  }

  lemma NoRoomNoMatch(s: string, pat: string)
    requires pat != "" && |s| < |pat|
    ensures !Contains(s, pat)
  {
  }

  /** Without a match at the front, `pat` occurs in `s` exactly when it occurs in `s[1..]`. */
  lemma ContainsInTail(s: string, pat: string)
    requires pat != "" && |pat| <= |s| && s[..|pat|] != pat
    ensures Contains(s, pat) <==> Contains(s[1..], pat)
  {
    if Contains(s, pat) {
      var i :| 0 <= i <= |s| && StartsWith(s[i..], pat);
      assert i != 0;
      assert s[1..][i - 1..] == s[i..];
    }
    if Contains(s[1..], pat) {
      var j :| 0 <= j <= |s[1..]| && StartsWith(s[1..][j..], pat);
      assert s[1..][j..] == s[j + 1..];
    }
  }

  /** Position of the first `c` in `s`, or `|s|` when there is none. */
  function IndexOf(s: string, c: char): (k: nat)
    ensures k <= |s|
    ensures k < |s| ==> s[k] == c
    ensures c !in s[..k]
    ensures k == |s| <==> c !in s
  {
    if s == [] then 0
    else if s[0] == c then 0
    else
      assert s[..1 + IndexOf(s[1..], c)] == [s[0]] + s[1..][..IndexOf(s[1..], c)];
      1 + IndexOf(s[1..], c)
  }

  /**
   * `s.replace(from, to)` in JavaScript with a one-character pattern: only
   * the first occurrence is replaced.
   */
  function ReplaceFirst(s: string, from: char, to: char): (r: string)
    ensures |r| == |s|
  {
    if s == [] then []
    else if s[0] == from then [to] + s[1..]
    else [s[0]] + ReplaceFirst(s[1..], from, to)
  }

  /**
   * `ReplaceFirst` changes exactly the character at the first occurrence of
   * `from`, and nothing when there is none.
   */
  lemma {:induction false} ReplaceFirstAt(s: string, from: char, to: char)
    ensures var k := IndexOf(s, from);
      ReplaceFirst(s, from, to) == if k < |s| then s[..k] + [to] + s[k + 1..] else s
  {
    if s != [] && s[0] != from {
      var rest := s[1..];
      ReplaceFirstAt(rest, from, to);
      var k := IndexOf(rest, from);
      assert IndexOf(s, from) == k + 1;
      if k < |rest| {
        SpliceAfterHead(s, k, to);
      }
    }
  }

  /** Putting back the head of `s` in front of a splice of its tail. */
  lemma SpliceAfterHead(s: string, k: nat, to: char)
    requires k + 1 < |s|
    ensures [s[0]] + (s[1..][..k] + [to] + s[1..][k + 1..]) == s[..k + 1] + [to] + s[k + 2..]
  {
    assert [s[0]] + s[1..][..k] == s[..k + 1];
    assert s[1..][k + 1..] == s[k + 2..];
  }
}
