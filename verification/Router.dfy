/**
 The wildcard match of tags (src/flb_router.c): `*` in a pattern stands for any string,
 every other character for itself.  A string is the characters before its terminator.
 */
module Router {

  // ---------------------------------------------------------------- meaning

  function Stars(pattern: string): (n: nat)
    decreases |pattern|
  {
    if pattern == [] then 0 else Stars(pattern[1..]) + if pattern[0] == '*' then 1 else 0
  }

  /** The pattern with its stars replaced, from the left, by the given strings. */
  function Expand(pattern: string, subst: seq<string>): (tag: string)
    requires |subst| == Stars(pattern)
    decreases |pattern|
  {
    if pattern == [] then []
    else if pattern[0] == '*' then subst[0] + Expand(pattern[1..], subst[1..])
    else [pattern[0]] + Expand(pattern[1..], subst)
  }

  ghost predicate Matches(tag: string, pattern: string) {
    exists subst: seq<string> :: |subst| == Stars(pattern) && Expand(pattern, subst) == tag
  }

  // ---------------------------------------------------------------- the meaning, character by character

  ghost predicate Fits(tag: string, pattern: string)
    decreases |pattern|
  {
    if pattern == [] then tag == []
    else if pattern[0] == '*' then exists k :: 0 <= k <= |tag| && Fits(tag[k..], pattern[1..])
    else tag != [] && tag[0] == pattern[0] && Fits(tag[1..], pattern[1..])
  }

  lemma {:induction false} FitsExpand(pattern: string, subst: seq<string>)
    requires |subst| == Stars(pattern)
    ensures Fits(Expand(pattern, subst), pattern)
    decreases |pattern|
  {
    var tag := Expand(pattern, subst);
    if pattern != [] && pattern[0] == '*' {
      FitsExpand(pattern[1..], subst[1..]);
      assert tag[|subst[0]|..] == Expand(pattern[1..], subst[1..]);
    } else if pattern != [] {
      FitsExpand(pattern[1..], subst);
      assert tag[1..] == Expand(pattern[1..], subst);
    }
  }

  lemma {:induction false} ExpandFits(tag: string, pattern: string) returns (subst: seq<string>)
    requires Fits(tag, pattern)
    ensures |subst| == Stars(pattern) && Expand(pattern, subst) == tag
    decreases |pattern|
  {
    if pattern == [] {
      subst := [];
    } else if pattern[0] == '*' {
      var k :| 0 <= k <= |tag| && Fits(tag[k..], pattern[1..]);
      var rest := ExpandFits(tag[k..], pattern[1..]);
      subst := [tag[..k]] + rest;
      assert subst[1..] == rest && tag[..k] + tag[k..] == tag;
    } else {
      subst := ExpandFits(tag[1..], pattern[1..]);
      assert [pattern[0]] + tag[1..] == tag;
    }
  }

  lemma {:induction false} FitsIsMatches(tag: string, pattern: string)
    ensures Fits(tag, pattern) <==> Matches(tag, pattern)
  {
    if Fits(tag, pattern) {
      var subst := ExpandFits(tag, pattern);
    }
    if Matches(tag, pattern) {
      var subst: seq<string> :| |subst| == Stars(pattern) && Expand(pattern, subst) == tag;
      FitsExpand(pattern, subst);
    }
  }

  // ---------------------------------------------------------------- flb_router_match

  lemma {:induction false} StarStar(tag: string, pattern: string)
    requires |pattern| >= 2 && pattern[0] == '*' && pattern[1] == '*'
    ensures Fits(tag, pattern) <==> Fits(tag, pattern[1..])
  {
    var m := pattern[1..];
    if Fits(tag, pattern) {
      var k :| 0 <= k <= |tag| && Fits(tag[k..], m);
      var l :| 0 <= l <= |tag[k..]| && Fits(tag[k..][l..], m[1..]);
      assert tag[k..][l..] == tag[k + l..];
    }
    if Fits(tag, m) {
      assert tag[0..] == tag;
    }
  }

  lemma {:induction false} LastStar(tag: string, pattern: string)
    requires pattern == ['*']
    ensures Fits(tag, pattern)
  {
    assert Fits(tag[|tag|..], pattern[1..]);
  }

  /** The first `c` at or after `from`, or the length of the string. */
  method Strchr(s: string, from: nat, c: char) returns (pos: nat)
    requires from <= |s|
    ensures from <= pos <= |s| && (pos < |s| ==> s[pos] == c)
    ensures forall k :: from <= k < pos ==> s[k] != c
  {
    pos := from;
    while pos < |s| && s[pos] != c
      invariant from <= pos <= |s| && forall k :: from <= k < pos ==> s[k] != c
    {
      pos := pos + 1;
    }
  }

  /** After a star: tries the rest of the pattern wherever its first character occurs. */
  method MatchAfterStar(tag: string, pattern: string) returns (ret: bool)
    requires pattern != [] && pattern[0] != '*'
    ensures ret <==> exists k :: 0 <= k <= |tag| && Fits(tag[k..], pattern)
    decreases |pattern|, 2
  {
    var t := 0;
    var pos := Strchr(tag, t, pattern[0]);
    while pos < |tag|
      invariant t <= pos <= |tag| && (pos < |tag| ==> tag[pos] == pattern[0])
      invariant forall k :: 0 <= k < pos ==> !Fits(tag[k..], pattern)
      decreases |tag| - pos
    {
      var found := RouterMatch(tag[pos..], pattern);
      FitsIsMatches(tag[pos..], pattern);
      if found {
        return true;
      }
      t := pos + 1;
      pos := Strchr(tag, t, pattern[0]);
    }
    return false;
  }

  /** At a star: skips the stars that follow; a star at the end matches anything. */
  method MatchFromStar(tag: string, pattern: string) returns (ret: bool)
    requires pattern != [] && pattern[0] == '*'
    ensures ret <==> Fits(tag, pattern)
    decreases |pattern|, 0
  {
    var j := 1;
    while j < |pattern| && pattern[j] == '*'
      invariant 1 <= j <= |pattern| && pattern[j - 1] == '*'
      invariant Fits(tag, pattern) <==> Fits(tag, pattern[j - 1..])
    {
      assert pattern[j - 1..][1..] == pattern[j..];
      StarStar(tag, pattern[j - 1..]);
      j := j + 1;
    }
    if j == |pattern| {
      LastStar(tag, pattern[j - 1..]);
      return true;
    }
    assert pattern[j - 1..][1..] == pattern[j..];
    ret := MatchAfterStar(tag, pattern[j..]);
  }

  /** The source's match answers exactly the question whether the pattern can be expanded to the tag. */
  method RouterMatch(tag: string, pattern: string) returns (ret: bool)
    ensures ret <==> Matches(tag, pattern)
    decreases |pattern|, 1
  {
    FitsIsMatches(tag, pattern);
    var i, j := 0, 0;
    while true
      invariant i <= |tag| && j <= |pattern| && j >= i
      invariant Fits(tag, pattern) <==> Fits(tag[i..], pattern[j..])
      decreases |pattern| - j
    {
      if j < |pattern| && pattern[j] == '*' {
        ret := MatchFromStar(tag[i..], pattern[j..]);
        return;
      } else if i == |tag| || j == |pattern| {
        return i == |tag| && j == |pattern|;
      } else if tag[i] != pattern[j] {
        return false;
      }
      assert tag[i..][1..] == tag[i + 1..] && pattern[j..][1..] == pattern[j + 1..];
      i := i + 1;
      j := j + 1;
    }
  }
}
