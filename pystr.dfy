/** The two operations of Python's `str` that the sheet-URL logic relies on,
    the substring test `sep in s` and `s.split(sep)`, plus `sep.join(parts)`,
    which the script does not call, to show that a split loses nothing. */
module PyStr {
  import opened Wrappers

  /** `sep` occurs in `s` starting at index `i`. */
  ghost predicate OccursAt(s: string, sep: string, i: nat) {
    i + |sep| <= |s| && s[i..i + |sep|] == sep
  }

  /** `sep` occurs somewhere in `s`. */
  ghost predicate Occurs(s: string, sep: string) {
    exists i: nat :: OccursAt(s, sep, i)
  }

  /** The leftmost occurrence of `sep` in `s` at or after index `k`. */
  function FindFrom(s: string, sep: string, k: nat): (r: Option<nat>)
    requires k <= |s|
    ensures r.Some? ==> k <= r.value && OccursAt(s, sep, r.value)
    ensures r.Some? ==> forall j: nat :: k <= j < r.value ==> !OccursAt(s, sep, j)
    ensures r.None? ==> forall j: nat :: k <= j ==> !OccursAt(s, sep, j)
    decreases |s| - k
  {
    if k + |sep| > |s| then None
    else if s[k..k + |sep|] == sep then Some(k)
    else FindFrom(s, sep, k + 1)
  }

  /** Python's `s.find(sep)`, with `None` for -1. */
  function Find(s: string, sep: string): (r: Option<nat>)
    ensures r.Some? ==> OccursAt(s, sep, r.value)
    ensures r.Some? ==> forall j: nat :: j < r.value ==> !OccursAt(s, sep, j)
    ensures r.None? <==> !Occurs(s, sep)
  {
    FindFrom(s, sep, 0)
  }

  /** Python's `sep in s`. */
  function Contains(s: string, sep: string): (b: bool)
    ensures b <==> Occurs(s, sep)
  {
    Find(s, sep).Some?
  }

  /** Python's `s.split(sep)` for a non-empty separator: cut at every
      occurrence, scanning left to right, the occurrences not overlapping. */
  function Split(s: string, sep: string): (parts: seq<string>)
    requires |sep| > 0
    ensures |parts| >= 1
    ensures Occurs(s, sep) <==> |parts| >= 2
    ensures forall k :: 0 <= k < |parts| ==> !Occurs(parts[k], sep)
    decreases |s|
  {
    match Find(s, sep)
    case None => [s]
    case Some(i) =>
      PrefixBeforeFirst(s, sep, i);
      [s[..i]] + Split(s[i + |sep|..], sep)
  }

  /** Python's `sep.join(parts)`. */
  function Join(parts: seq<string>, sep: string): (s: string)
    requires |parts| >= 1
  {
    if |parts| == 1 then parts[0] else parts[0] + sep + Join(parts[1..], sep)
  }

  /** The text before the first occurrence of `sep` does not contain `sep`. */
  lemma PrefixBeforeFirst(s: string, sep: string, i: nat)
    requires |sep| > 0
    requires OccursAt(s, sep, i)
    requires forall j: nat :: j < i ==> !OccursAt(s, sep, j)
    ensures !Occurs(s[..i], sep)
  {
    forall j: nat | OccursAt(s[..i], sep, j)
      ensures false
    {
      assert s[..i][j..j + |sep|] == s[j..j + |sep|];
      assert OccursAt(s, sep, j);
    }
  }

  /** A split cut `piece` off at the first occurrence of `sep` after it:
      no occurrence starts inside `piece`, not even one overlapping the
      separator that follows it. */
  ghost predicate CutIsFirst(piece: string, sep: string)
    requires |sep| > 0
  {
    !Occurs(piece + sep[..|sep| - 1], sep)
  }

  /** No occurrence of `sep` starts before the first one, not even one that
      would overlap it. */
  lemma CutIsLeftmost(s: string, sep: string, i: nat)
    requires |sep| > 0
    requires OccursAt(s, sep, i)
    requires forall j: nat :: j < i ==> !OccursAt(s, sep, j)
    ensures CutIsFirst(s[..i], sep)
  {
    var t := s[..i] + sep[..|sep| - 1];
    forall j: nat | OccursAt(t, sep, j)
      ensures OccursAt(s, sep, j)
    {
      assert t == s[..i + |sep| - 1];
    }
  }

  /** Where a split cuts: with no occurrence the string is the only piece;
      otherwise the first piece ends at the first occurrence, and every cut
      is made at the leftmost occurrence of `sep` after the previous cut.
      Together with `JoinSplit` and the pieces not containing `sep`, this
      fixes the pieces even for a separator that can overlap itself. */
  lemma {:induction false} SplitCuts(s: string, sep: string)
    requires |sep| > 0
    ensures !Occurs(s, sep) ==> Split(s, sep) == [s]
    ensures Occurs(s, sep) ==> Split(s, sep)[0] == s[..Find(s, sep).value]
    ensures forall k :: 0 <= k < |Split(s, sep)| - 1 ==> CutIsFirst(Split(s, sep)[k], sep)
    decreases |s|
  {
    match Find(s, sep)
    case None =>
    case Some(i) =>
      var rest := s[i + |sep|..];
      CutIsLeftmost(s, sep, i);
      SplitCuts(rest, sep);
      assert Split(s, sep) == [s[..i]] + Split(rest, sep);
  }

  /** Joining the pieces of a split with the same separator gives back the string. */
  lemma {:induction false} JoinSplit(s: string, sep: string)
    requires |sep| > 0
    ensures Join(Split(s, sep), sep) == s
    decreases |s|
  {
    match Find(s, sep)
    case None =>
    case Some(i) =>
      var rest := s[i + |sep|..];
      JoinSplit(rest, sep);
      assert Split(s, sep)[1..] == Split(rest, sep);
      assert s == s[..i] + sep + rest;
  }

  /** A one-character string occurs in `s` exactly when that character does. */
  lemma OccursChar(s: string, c: char)
    ensures Occurs(s, [c]) <==> c in s
  {
    if c in s {
      var i :| 0 <= i < |s| && s[i] == c;
      assert OccursAt(s, [c], i);
    }
    if Occurs(s, [c]) {
      var i: nat :| OccursAt(s, [c], i);
      assert s[i] == s[i..i + 1][0];
    }
  }
}
