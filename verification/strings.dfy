/** The Python string operations the client relies on: the `in` substring test,
    `str.strip()` with no argument, and `str.rstrip(chars)`. */
module Strings {

  /** `sub` occurs in `s` starting at index `i`. */
  predicate OccursAt(s: string, sub: string, i: nat) {
    i + |sub| <= |s| && s[i..i + |sub|] == sub
  }

  /** Declarative meaning of Python's `sub in s`. */
  ghost predicate Occurs(s: string, sub: string) {
    exists i: nat :: OccursAt(s, sub, i)
  }

  /** Python's `sub in s`, scanning start positions left to right. */
  function Contains(s: string, sub: string): (r: bool)
    ensures r <==> Occurs(s, sub)
    decreases |s|
  {
    if |sub| <= |s| && s[..|sub|] == sub then
      assert OccursAt(s, sub, 0);
      true
    else if |s| == 0 then
      assert forall i: nat :: !OccursAt(s, sub, i);
      false
    else
      var rest := Contains(s[1..], sub);
      ShiftOccurrence(s, sub);
      rest
  }

  /** An occurrence in `s` at a position after 0 is an occurrence in `s[1..]`. */
  lemma ShiftOccurrence(s: string, sub: string)
    requires |s| > 0
    requires !OccursAt(s, sub, 0)
    ensures Occurs(s, sub) <==> Occurs(s[1..], sub)
  {
    if Occurs(s, sub) {
      var i: nat :| OccursAt(s, sub, i);
      assert i > 0;
      assert s[1..][i - 1..i - 1 + |sub|] == s[i..i + |sub|];
      assert OccursAt(s[1..], sub, i - 1);
    }
    if Occurs(s[1..], sub) {
      var i: nat :| OccursAt(s[1..], sub, i);
      assert s[1..][i..i + |sub|] == s[i + 1..i + 1 + |sub|];
      assert OccursAt(s, sub, i + 1);
    }
  }

  /** The characters Python's `str.isspace()` accepts, which `str.strip()`
      removes from both ends. */
  predicate IsSpace(c: char) {
    var n := c as int;
    || (0x09 <= n <= 0x0D) || (0x1C <= n <= 0x20)
    || n == 0x85 || n == 0xA0 || n == 0x1680
    || (0x2000 <= n <= 0x200A)
    || n == 0x2028 || n == 0x2029 || n == 0x202F || n == 0x205F || n == 0x3000
  }

  /** The length of the longest prefix of characters satisfying `drop`. */
  function LeadingRun(s: string, drop: char -> bool): (n: nat)
    ensures n <= |s|
    ensures forall k :: 0 <= k < n ==> drop(s[k])
    ensures n == |s| || !drop(s[n])
    decreases |s|
  {
    if |s| > 0 && drop(s[0]) then
      var n := 1 + LeadingRun(s[1..], drop);
      assert forall k :: 1 <= k < |s| ==> s[k] == s[1..][k - 1];
      n
    else 0
  }

  /** The length of the longest suffix of characters satisfying `drop`. */
  function TrailingRun(s: string, drop: char -> bool): (n: nat)
    ensures n <= |s|
    ensures forall k :: |s| - n <= k < |s| ==> drop(s[k])
    ensures n == |s| || !drop(s[|s| - n - 1])
    decreases |s|
  {
    if |s| > 0 && drop(s[|s| - 1]) then
      var n := 1 + TrailingRun(s[..|s| - 1], drop);
      assert forall k :: 0 <= k < |s| - 1 ==> s[k] == s[..|s| - 1][k];
      n
    else 0
  }

  /** Removes the longest prefix of characters satisfying `drop`. */
  function DropLeading(s: string, drop: char -> bool): string {
    s[LeadingRun(s, drop)..]
  }

  /** Removes the longest suffix of characters satisfying `drop`: Python's
      `s.rstrip(chars)` when `drop` is membership in `chars`. */
  function DropTrailing(s: string, drop: char -> bool): string {
    s[..|s| - TrailingRun(s, drop)]
  }

  /** Python's `s.strip()`. */
  function Strip(s: string): (r: string)
    ensures |r| <= |s|
    ensures |r| == 0 || (!IsSpace(r[0]) && !IsSpace(r[|r| - 1]))
  {
    DropTrailing(DropLeading(s, IsSpace), IsSpace)
  }

  /** `Strip` keeps a contiguous slice and removes only whitespace around it. */
  lemma StripIsTrimmedSlice(s: string)
    ensures exists i, j :: (0 <= i <= j <= |s| && Strip(s) == s[i..j]
      && (forall k :: 0 <= k < i ==> IsSpace(s[k]))
      && (forall k :: j <= k < |s| ==> IsSpace(s[k])))
  {
    var i := LeadingRun(s, IsSpace);
    var t := s[i..];
    var j := |s| - TrailingRun(t, IsSpace);
    assert Strip(s) == s[i..j];
    forall k | j <= k < |s|
      ensures IsSpace(s[k])
    {
      assert s[k] == t[k - i];
    }
  }

  /** `Strip` leaves nothing exactly when every character is whitespace. */
  lemma {:induction false} StripEmptyIffAllSpace(s: string)
    ensures Strip(s) == [] <==> forall k :: 0 <= k < |s| ==> IsSpace(s[k])
  {
    var left := DropLeading(s, IsSpace);
    if !forall k :: 0 <= k < |s| ==> IsSpace(s[k]) {
      var k :| 0 <= k < |s| && !IsSpace(s[k]);
      assert |left| > 0;
      assert !IsSpace(left[0]);
    }
  }

  /** Removing a trailing run twice is the same as removing it once. */
  lemma DropTrailingIdempotent(s: string, drop: char -> bool)
    ensures DropTrailing(DropTrailing(s, drop), drop) == DropTrailing(s, drop)
  {
  }

  /** `Strip` is idempotent. */
  lemma StripIdempotent(s: string)
    ensures Strip(Strip(s)) == Strip(s)
  {
    var r := Strip(s);
    assert LeadingRun(r, IsSpace) == 0;
    assert DropLeading(r, IsSpace) == r;
    assert TrailingRun(r, IsSpace) == 0;
  }
}
