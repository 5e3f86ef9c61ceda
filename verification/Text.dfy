// The few string operations the daemon's identifiers go through.  Letters are
// ASCII: provider, router and model names in the daemon are.
module Text {

  datatype Option<+T> = None | Some(value: T)

  function LowerChar(c: char): char {
    if 'A' <= c <= 'Z' then (c as int + 32) as char else c
  }

  function Lower(s: string): (r: string)
    ensures |r| == |s|
  {
    if s == "" then "" else [LowerChar(s[0])] + Lower(s[1..])
  }

  // A capital letter becomes the small one at its place in the alphabet, and nothing else
  // changes.
  lemma {:induction false} LowerCharSpec(c: char)
    ensures if 'A' <= c <= 'Z' then LowerChar(c) as int - 'a' as int == c as int - 'A' as int else LowerChar(c) == c
  {
  }

  predicate IsSpace(c: char) {
    c == ' ' || c == '\t' || c == '\n' || c == '\r'
  }

  function StripLeft(s: string): string {
    if s != "" && IsSpace(s[0]) then StripLeft(s[1..]) else s
  }

  function StripRight(s: string): string {
    if s != "" && IsSpace(s[|s| - 1]) then StripRight(s[..|s| - 1]) else s
  }

  function Strip(s: string): string {
    StripRight(StripLeft(s))
  }

  lemma {:induction false} LowerAt(s: string, i: nat)
    requires i < |s|
    ensures Lower(s)[i] == LowerChar(s[i])
  {
    if i == 0 {
    } else {
      LowerAt(s[1..], i - 1);
    }
  }

  lemma {:induction false} LowerStarts(small: string, rest: string)
    requires forall i :: 0 <= i < |small| ==> !('A' <= small[i] <= 'Z')
    ensures small <= Lower(small + rest) && |Lower(small + rest)| == |small| + |rest|
    ensures forall i :: 0 <= i < |rest| ==> Lower(small + rest)[|small| + i] == LowerChar(rest[i])
  {
    forall i | 0 <= i < |small| + |rest| ensures Lower(small + rest)[i] == LowerChar((small + rest)[i]) {
      LowerAt(small + rest, i);
    }
  }

  lemma {:induction false} LowerTwice(s: string)
    ensures Lower(Lower(s)) == Lower(s)
  {
    if s == "" {
    } else {
      LowerTwice(s[1..]);
    }
  }

  predicate Trimmed(s: string) {
    s == "" || (!IsSpace(s[0]) && !IsSpace(s[|s| - 1]))
  }

  lemma {:induction false} StripLeftStarts(s: string)
    ensures var t := StripLeft(s); t == "" || !IsSpace(t[0])
  {
    if s != "" && IsSpace(s[0]) {
      StripLeftStarts(s[1..]);
    }
  }

  lemma {:induction false} StripRightEnds(s: string)
    requires s == "" || !IsSpace(s[0])
    ensures Trimmed(StripRight(s))
  {
    if s != "" && IsSpace(s[|s| - 1]) {
      StripRightEnds(s[..|s| - 1]);
    }
  }

  predicate Blank(s: string) {
    forall i :: 0 <= i < |s| ==> s[i] == ' ' || s[i] == '\t' || s[i] == '\n' || s[i] == '\r'
  }

  // Stripping takes blanks off both ends, and as many as there are.
  lemma {:induction false} StripSpec(s: string) returns (left: string, right: string)
    ensures s == left + Strip(s) + right && Blank(left) && Blank(right) && Trimmed(Strip(s))
  {
    StripLeftStarts(s);
    StripRightEnds(StripLeft(s));
    left := StripLeftSpec(s);
    right := StripRightSpec(StripLeft(s));
    assert left + (Strip(s) + right) == left + Strip(s) + right;
  }

  lemma {:induction false} StripLeftSpec(s: string) returns (left: string)
    ensures s == left + StripLeft(s) && Blank(left)
  {
    if s != "" && IsSpace(s[0]) {
      left := StripLeftSpec(s[1..]);
      left := [s[0]] + left;
    } else {
      left := "";
    }
  }

  lemma {:induction false} StripRightSpec(s: string) returns (right: string)
    ensures s == StripRight(s) + right && Blank(right)
  {
    if s != "" && IsSpace(s[|s| - 1]) {
      right := StripRightSpec(s[..|s| - 1]);
      right := right + [s[|s| - 1]];
    } else {
      right := "";
    }
  }

  // Nothing is left exactly of what is blank.
  lemma {:induction false} StripsToNothing(s: string)
    ensures Strip(s) == "" <==> Blank(s)
  {
    var left, right := StripSpec(s);
    if Strip(s) == "" {
      assert s == left + right;
    } else {
      assert s[|left|] == Strip(s)[0];
    }
  }

  lemma {:induction false} LowerStripIdempotent(s: string)
    ensures Lower(Strip(Lower(Strip(s)))) == Lower(Strip(s))
  {
    var t := Strip(s);
    StripLeftStarts(s);
    StripRightEnds(StripLeft(s));
    if t != "" {
      LowerAt(t, 0);
      LowerAt(t, |t| - 1);
    }
    assert Strip(Lower(t)) == Lower(t);
    LowerTwice(t);
  }

  predicate EndsWith(s: string, suffix: string) {
    |suffix| <= |s| && s[|s| - |suffix|..] == suffix
  }

  // Index of the first '/', or |s| when there is none.
  function SlashIndex(s: string): (i: nat)
    ensures i <= |s|
    ensures '/' !in s[..i]
    ensures i < |s| ==> s[i] == '/'
  {
    if s == "" then 0
    else if s[0] == '/' then 0
    else
      var i := SlashIndex(s[1..]);
      assert s[..i + 1] == [s[0]] + s[1..][..i];
      i + 1
  }

  // `s.split("/")[0]`: everything before the first '/', all of s without one.
  function BeforeSlash(s: string): string {
    s[..SlashIndex(s)]
  }

  predicate HasSlash(s: string) {
    SlashIndex(s) < |s|
  }

  // `s.partition("/")[2]`.
  function AfterSlash(s: string): string {
    if HasSlash(s) then s[SlashIndex(s) + 1..] else ""
  }

  // A string that opens with a slash-free segment and a '/' is cut right there.
  lemma {:induction false} SlashIndexAt(s: string, i: nat)
    requires i < |s| && s[i] == '/' && '/' !in s[..i]
    ensures SlashIndex(s) == i
  {
  }

  // A slash-free provider and the rest, put together, come apart again; without a slash
  // there is nothing after it.
  lemma {:induction false} SlashParts(provider: string, rest: string)
    requires '/' !in provider
    ensures var s := provider + "/" + rest; HasSlash(s) && BeforeSlash(s) == provider && AfterSlash(s) == rest
    ensures !HasSlash(provider) && BeforeSlash(provider) == provider && AfterSlash(provider) == ""
  {
    var s := provider + "/" + rest;
    assert s[..|provider|] == provider;
    SlashIndexAt(s, |provider|);
  }
}
