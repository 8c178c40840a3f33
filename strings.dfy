/**
 * The few System.String operations the core relies on, with the semantics of
 * the .NET Framework: StartsWith (ordinal), IndexOf, Split on one character
 * (empty pieces kept), Join, Trim (Char.IsWhiteSpace) and the last piece of a
 * Split.
 */
module Strings {

  /** s.StartsWith(prefix) */
  predicate StartsWith(s: string, prefix: string) {
    prefix <= s
  }

  /** s.IndexOf(c): the first position of c, or -1. */
  function IndexOf(s: string, c: char): (r: int)
    ensures -1 <= r < |s|
    ensures r == -1 <==> c !in s
    ensures r >= 0 ==> s[r] == c && c !in s[..r]
  {
    if s == [] then -1
    else if s[0] == c then 0
    else var k := IndexOf(s[1..], c); if k == -1 then -1 else k + 1
  }

  /** s.Split(c): the pieces between occurrences of c, empty pieces included. */
  function Split(s: string, c: char): (parts: seq<string>)
    ensures |parts| >= 1
    decreases |s|
  {
    var i := IndexOf(s, c);
    if i == -1 then [s] else [s[..i]] + Split(s[i + 1..], c)
  }

  /** No piece of a split contains the separator. */
  lemma {:induction false} SplitPiecesFree(s: string, c: char)
    ensures forall p | p in Split(s, c) :: c !in p
    decreases |s|
  {
    var i := IndexOf(s, c);
    if i != -1 {
      SplitPiecesFree(s[i + 1..], c);
      assert Split(s, c) == [s[..i]] + Split(s[i + 1..], c);
    }
  }

  /** string.Join(sep, parts) */
  function Join(sep: string, parts: seq<string>): string
  {
    if |parts| == 0 then ""
    else if |parts| == 1 then parts[0]
    else parts[0] + sep + Join(sep, parts[1..])
  }

  /** Joining the pieces of a split with the separator rebuilds the string. */
  lemma {:induction false} JoinSplit(s: string, c: char)
    ensures Join([c], Split(s, c)) == s
    decreases |s|
  {
    var i := IndexOf(s, c);
    if i != -1 {
      var rest := s[i + 1..];
      var tail := Split(rest, c);
      JoinSplit(rest, c);
      var parts := [s[..i]] + tail;
      assert Split(s, c) == parts;
      assert parts[1..] == tail;
      assert Join([c], parts) == s[..i] + [c] + Join([c], tail);
      assert s == s[..i] + [c] + rest;
    }
  }

  /** Joining the pieces of a split with a non-empty separator never shortens the string. */
  lemma {:induction false} JoinSplitLength(s: string, c: char, sep: string)
    requires |sep| >= 1
    ensures |Join(sep, Split(s, c))| >= |s|
    decreases |s|
  {
    var i := IndexOf(s, c);
    if i != -1 {
      var rest := s[i + 1..];
      JoinSplitLength(rest, c, sep);
      var parts := Split(s, c);
      assert parts[1..] == Split(rest, c);
      assert Join(sep, parts) == s[..i] + sep + Join(sep, Split(rest, c));
    }
  }

  /** Split(s, c).Last(): the text after the last c (all of s when c does not occur). */
  function LastPiece(s: string, c: char): string
  {
    if s == [] then ""
    else if s[|s| - 1] == c then ""
    else LastPiece(s[..|s| - 1], c) + [s[|s| - 1]]
  }

  /** The last piece is a c-free suffix of s, preceded by c unless it is all of s. */
  lemma {:induction false} LastPieceSuffix(s: string, c: char)
    ensures var r := LastPiece(s, c);
      c !in r && |r| <= |s| && r == s[|s| - |r|..]
      && (|r| < |s| ==> s[|s| - |r| - 1] == c)
      && (|r| == |s| ==> c !in s)
  {
    if s != [] && s[|s| - 1] != c {
      var init, x := s[..|s| - 1], s[|s| - 1];
      LastPieceSuffix(init, c);
      var r' := LastPiece(init, c);
      var r := r' + [x];
      assert r == LastPiece(s, c);
      assert s == init + [x];
      assert r == s[|s| - |r|..] by {
        assert r' == init[|init| - |r'|..];
      }
      if |r'| < |init| {
        assert s[|s| - |r| - 1] == init[|init| - |r'| - 1];
      }
    }
  }

  /** A c-free suffix that follows a c is the last piece. */
  lemma LastPieceUnique(s: string, c: char, r: string)
    requires |r| < |s| && r == s[|s| - |r|..] && s[|s| - |r| - 1] == c && c !in r
    ensures LastPiece(s, c) == r
  {
    LastPieceSuffix(s, c);
  }

  lemma SuffixOfSuffix(s: string, i: nat, n: nat)
    requires i <= |s| && n <= |s| - i
    ensures s[i..][|s| - i - n..] == s[|s| - n..]
  {
  }

  /** LastPiece is the last element of Split, as `Split(c).Last()` computes it. */
  lemma {:induction false} LastPieceOfSplit(s: string, c: char)
    ensures Split(s, c)[|Split(s, c)| - 1] == LastPiece(s, c)
    decreases |s|
  {
    var i := IndexOf(s, c);
    if i == -1 {
      LastPieceSuffix(s, c);
    } else {
      var rest := s[i + 1..];
      LastPieceOfSplit(rest, c);
      SplitLast(s, c, i);
      LastPieceAfter(s, c, i);
    }
  }

  lemma SplitLast(s: string, c: char, i: int)
    requires i == IndexOf(s, c) && i != -1
    ensures Split(s, c)[|Split(s, c)| - 1] == Split(s[i + 1..], c)[|Split(s[i + 1..], c)| - 1]
  {
    var tail := Split(s[i + 1..], c);
    LastOfCons(s[..i], tail);
  }

  lemma LastOfCons(head: string, tail: seq<string>)
    requires |tail| >= 1
    ensures ([head] + tail)[|tail|] == tail[|tail| - 1]
  {
  }

  lemma LastPieceAfter(s: string, c: char, i: int)
    requires 0 <= i < |s| && s[i] == c
    ensures LastPiece(s[i + 1..], c) == LastPiece(s, c)
  {
    var rest := s[i + 1..];
    var r := LastPiece(rest, c);
    LastPieceSuffix(rest, c);
    SuffixOfSuffix(s, i + 1, |r|);
    if |r| < |rest| {
      assert s[|s| - |r| - 1] == rest[|rest| - |r| - 1];
    } else {
      assert s[|s| - |r| - 1] == s[i];
    }
    LastPieceUnique(s, c, r);
  }

  /** Char.IsWhiteSpace, the characters String.Trim removes. */
  predicate IsWhiteSpace(ch: char) {
    ch == ' ' || ('\t' <= ch <= '\r') || ch == '\U{0085}' || ch == '\U{00A0}' || ch == '\U{1680}'
    || ('\U{2000}' <= ch <= '\U{200A}') || ch == '\U{2028}' || ch == '\U{2029}' || ch == '\U{202F}'
    || ch == '\U{205F}' || ch == '\U{3000}'
  }

  function TrimStart(s: string): string
  {
    if s != [] && IsWhiteSpace(s[0]) then TrimStart(s[1..]) else s
  }

  /** TrimStart removes exactly the leading white space. */
  lemma {:induction false} TrimStartSpec(s: string)
    ensures var r := TrimStart(s);
      (r == [] || !IsWhiteSpace(r[0])) && |r| <= |s| && r == s[|s| - |r|..]
      && forall k | 0 <= k < |s| - |r| :: IsWhiteSpace(s[k])
  {
    if s != [] && IsWhiteSpace(s[0]) {
      TrimStartSpec(s[1..]);
    }
  }

  function TrimEnd(s: string): string
  {
    if s != [] && IsWhiteSpace(s[|s| - 1]) then TrimEnd(s[..|s| - 1]) else s
  }

  /** TrimEnd removes exactly the trailing white space. */
  lemma {:induction false} TrimEndSpec(s: string)
    ensures var r := TrimEnd(s);
      (r == [] || !IsWhiteSpace(r[|r| - 1])) && |r| <= |s| && r == s[..|r|]
      && forall k | |r| <= k < |s| :: IsWhiteSpace(s[k])
  {
    if s != [] && IsWhiteSpace(s[|s| - 1]) {
      TrimEndSpec(s[..|s| - 1]);
    }
  }

  /** s.Trim() */
  function Trim(s: string): string
  {
    TrimEnd(TrimStart(s))
  }

  /** A string with no white space at either end is its own trim. */
  lemma TrimOfTrimmed(s: string)
    requires s == [] || (!IsWhiteSpace(s[0]) && !IsWhiteSpace(s[|s| - 1]))
    ensures Trim(s) == s
  {
  }

  /** Trim leaves no white space at either end and keeps a contiguous piece of its input. */
  lemma TrimEnds(s: string)
    ensures var r := Trim(s); r == [] || (!IsWhiteSpace(r[0]) && !IsWhiteSpace(r[|r| - 1]))
    ensures |Trim(s)| <= |s|
  {
    var t := TrimStart(s);
    var r := TrimEnd(t);
    TrimStartSpec(s);
    TrimEndSpec(t);
    if r != [] {
      assert r[0] == t[0];
    }
  }
}
