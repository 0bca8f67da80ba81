// Go strings are byte strings: every char of a Dafny string here stands for one byte.
module Text {
  // UTF-8 encodings of the code points that strings.TrimSpace removes.
  predicate Space(x: string) {
    || (|x| == 1 && (9 <= x[0] as int <= 13 || x[0] == ' '))
    || (|x| == 2 && x[0] as int == 0xC2 && (x[1] as int == 0x85 || x[1] as int == 0xA0))
    || (|x| == 3 && x[0] as int == 0xE1 && x[1] as int == 0x9A && x[2] as int == 0x80)
    || (|x| == 3 && x[0] as int == 0xE2 && x[1] as int == 0x80
        && (0x80 <= x[2] as int <= 0x8A || x[2] as int == 0xA8 || x[2] as int == 0xA9 || x[2] as int == 0xAF))
    || (|x| == 3 && x[0] as int == 0xE2 && x[1] as int == 0x81 && x[2] as int == 0x9F)
    || (|x| == 3 && x[0] as int == 0xE3 && x[1] as int == 0x80 && x[2] as int == 0x80)
  }

  predicate StartsWithSpace(s: string, n: nat) { n <= |s| && Space(s[..n]) }

  predicate EndsWithSpace(s: string, n: nat) { n <= |s| && Space(s[|s| - n..]) }

  // The length of the space at the start, or zero.
  function Leading(s: string): (n: nat)
    ensures n > 0 ==> StartsWithSpace(s, n)
  {
    if StartsWithSpace(s, 1) then 1 else if StartsWithSpace(s, 2) then 2 else if StartsWithSpace(s, 3) then 3 else 0
  }

  function Trailing(s: string): (n: nat)
    ensures n > 0 ==> EndsWithSpace(s, n)
  {
    if EndsWithSpace(s, 1) then 1 else if EndsWithSpace(s, 2) then 2 else if EndsWithSpace(s, 3) then 3 else 0
  }

  // strings.TrimSpace(s) == s: no space at either end.
  predicate Trimmed(s: string) {
    forall n: nat | 1 <= n <= 3 :: !StartsWithSpace(s, n) && !EndsWithSpace(s, n)
  }

  // strings.TrimSpace
  function TrimSpace(s: string): (r: string)
    ensures Trimmed(r) && |r| <= |s|
    ensures Trimmed(s) <==> r == s
    decreases |s|
  {
    if Leading(s) > 0 then TrimSpace(s[Leading(s)..])
    else if Trailing(s) > 0 then TrimSpace(s[..|s| - Trailing(s)])
    else s
  }

  // Nothing but spaces.
  predicate Spaces(s: string)
    decreases |s|
  {
    || s == []
    || (StartsWithSpace(s, 1) && Spaces(s[1..]))
    || (StartsWithSpace(s, 2) && Spaces(s[2..]))
    || (StartsWithSpace(s, 3) && Spaces(s[3..]))
  }

  lemma SpacesStart(x: string, s: string)
    requires Space(x) && Spaces(s)
    ensures Spaces(x + s)
  {
    assert (x + s)[..|x|] == x && (x + s)[|x|..] == s;
  }

  lemma FirstSpace(s: string) returns (n: nat)
    requires Spaces(s) && s != []
    ensures 1 <= n <= 3 && StartsWithSpace(s, n) && Spaces(s[n..])
  {
    n := if StartsWithSpace(s, 1) && Spaces(s[1..]) then 1
    else if StartsWithSpace(s, 2) && Spaces(s[2..]) then 2 else 3;
  }

  lemma Regroup(s: string, n: nat, x: string)
    requires n <= |s|
    ensures s + x == s[..n] + (s[n..] + x)
  {}

  lemma {:induction false} SpacesEnd(s: string, x: string)
    requires Spaces(s) && Space(x)
    ensures Spaces(s + x)
    decreases |s|
  {
    if s == [] {
      assert s + x == x + [];
      SpacesStart(x, []);
    } else {
      var n := FirstSpace(s);
      SpacesEnd(s[n..], x);
      SpacesStart(s[..n], s[n..] + x);
      Regroup(s, n, x);
    }
  }

  predicate Pads(s: string, before: string, middle: string, after: string) {
    s == before + middle + after && Spaces(before) && Spaces(after)
  }

  lemma PadStart(s: string, n: nat, before: string, middle: string, after: string)
    requires StartsWithSpace(s, n) && Pads(s[n..], before, middle, after)
    ensures Pads(s, s[..n] + before, middle, after)
  {
    SpacesStart(s[..n], before);
    assert s == s[..n] + s[n..];
  }

  lemma PadNothing(s: string)
    ensures Pads(s, [], s, [])
  {}

  lemma TrimSpaceCuts(s: string)
    ensures Leading(s) > 0 ==> TrimSpace(s) == TrimSpace(s[Leading(s)..])
    ensures Leading(s) == 0 && Trailing(s) > 0 ==> TrimSpace(s) == TrimSpace(s[..|s| - Trailing(s)])
    ensures Leading(s) == 0 && Trailing(s) == 0 ==> TrimSpace(s) == s
  {}

  lemma PadEnd(s: string, n: nat, before: string, middle: string, after: string)
    requires EndsWithSpace(s, n) && Pads(s[..|s| - n], before, middle, after)
    ensures Pads(s, before, middle, after + s[|s| - n..])
  {
    SpacesEnd(after, s[|s| - n..]);
    assert s == s[..|s| - n] + s[|s| - n..];
  }

  // Only spaces are removed, at both ends.
  lemma {:induction false} TrimSpaceRemovesSpaces(s: string) returns (before: string, after: string)
    ensures Pads(s, before, TrimSpace(s), after)
    decreases |s|
  {
    var n, m := Leading(s), Trailing(s);
    TrimSpaceCuts(s);
    if n > 0 {
      before, after := TrimSpaceRemovesSpaces(s[n..]);
      PadStart(s, n, before, TrimSpace(s[n..]), after);
      before := s[..n] + before;
    } else if m > 0 {
      before, after := TrimSpaceRemovesSpaces(s[..|s| - m]);
      PadEnd(s, m, before, TrimSpace(s[..|s| - m]), after);
      after := after + s[|s| - m..];
    } else {
      before, after := [], [];
      PadNothing(s);
    }
  }

  // A PostgreSQL text column takes valid UTF-8 without a NUL byte.
  predicate Storable(s: string) {
    ValidUtf8(s) && '\0' !in s
  }

  predicate Continuation(s: string, i: nat) {
    i < |s| && 0x80 <= s[i] as int <= 0xBF
  }

  // utf8.ValidString
  predicate ValidUtf8(s: string)
    decreases |s|
  {
    if s == [] then true
    else
      var b := s[0] as int;
      if b < 0x80 then ValidUtf8(s[1..])
      else if 0xC2 <= b <= 0xDF then Continuation(s, 1) && ValidUtf8(s[2..])
      else if 0xE0 <= b <= 0xEF then
        Continuation(s, 1) && Continuation(s, 2) &&
        (b == 0xE0 ==> 0xA0 <= s[1] as int) && (b == 0xED ==> s[1] as int <= 0x9F) && ValidUtf8(s[3..])
      else if 0xF0 <= b <= 0xF4 then
        Continuation(s, 1) && Continuation(s, 2) && Continuation(s, 3) &&
        (b == 0xF0 ==> 0x90 <= s[1] as int) && (b == 0xF4 ==> s[1] as int <= 0x8F) && ValidUtf8(s[4..])
      else false
  }

  function IndexOf(s: string, c: char): (i: nat)
    requires c in s
    ensures i < |s| && s[i] == c && c !in s[..i]
  {
    if s[0] == c then 0 else IndexOf(s[1..], c) + 1
  }

  // strings.Split for a one-byte separator.
  function Split(s: string, separator: char): (parts: seq<string>)
    ensures |parts| >= 1
    decreases |s|
  {
    if separator !in s then [s]
    else var i := IndexOf(s, separator); [s[..i]] + Split(s[i + 1..], separator)
  }

  lemma SplitAtOneSeparator(a: string, separator: char, b: string)
    requires separator !in a && separator !in b
    ensures Split(a + [separator] + b, separator) == [a, b]
  {
    var s := a + [separator] + b;
    assert s[|a|] == separator;
    var i := IndexOf(s, separator);
    assert forall k | 0 <= k < |a| :: s[k] == a[k] && s[k] in a;
    assert forall k | 0 <= k < i :: s[k] in s[..i];
    assert s[..i] == a && s[i + 1..] == b;
  }
}
