/**
 * The string operations the core relies on: Python's substring test
 * `sub in s` and `s.split(sep)`, and the address trimming done on
 * geocoder display names.
 */
module Text {

  /** `sub` occurs in `s` starting at index `i`. */
  ghost predicate OccursAt(s: string, sub: string, i: int)
  {
    0 <= i && i + |sub| <= |s| && s[i..i + |sub|] == sub
  }

  /** Python's `sub in s`. */
  function Contains(s: string, sub: string): (b: bool)
    ensures b <==> exists i :: OccursAt(s, sub, i)
    decreases |s|
  {
    if |sub| > |s| then
      false
    else if s[..|sub|] == sub then
      assert OccursAt(s, sub, 0);
      true
    else
      OccursInTail(s, sub);
      Contains(s[1..], sub)
  }

  /** When `sub` is not a prefix of `s`, it occurs in `s` exactly when it occurs in `s[1..]`. */
  lemma OccursInTail(s: string, sub: string)
    requires |sub| <= |s| && s[..|sub|] != sub
    ensures |s| > 0
    ensures (exists i :: OccursAt(s, sub, i)) <==> (exists j :: OccursAt(s[1..], sub, j))
  {
    if exists i :: OccursAt(s, sub, i) {
      var i :| OccursAt(s, sub, i);
      assert i != 0;
      assert s[1..][i - 1..i - 1 + |sub|] == s[i..i + |sub|];
      assert OccursAt(s[1..], sub, i - 1);
    }
    if exists j :: OccursAt(s[1..], sub, j) {
      var j :| OccursAt(s[1..], sub, j);
      assert s[1..][j..j + |sub|] == s[j + 1..j + 1 + |sub|];
      assert OccursAt(s, sub, j + 1);
    }
  }

  /** Index of the first occurrence of `c` in `s`. */
  function IndexOf(s: string, c: char): (i: nat)
    requires c in s
    ensures i < |s| && s[i] == c && c !in s[..i]
  {
    if s[0] == c then 0 else 1 + IndexOf(s[1..], c)
  }

  /** The first `c` in `a + [c] + b` is the one after `a` when `a` holds none. */
  lemma {:induction false} IndexOfAfter(a: string, c: char, b: string)
    requires c !in a
    ensures c in a + [c] + b && IndexOf(a + [c] + b, c) == |a|
  {
    var s := a + [c] + b;
    assert s[|a|] == c;
    if |a| > 0 {
      assert s[1..] == a[1..] + [c] + b;
      IndexOfAfter(a[1..], c, b);
    }
  }

  /** The inverse of `Split`: the parts with `sep` between consecutive ones. */
  function Join(parts: seq<string>, sep: char): string
  {
    if |parts| == 0 then ""
    else if |parts| == 1 then parts[0]
    else parts[0] + [sep] + Join(parts[1..], sep)
  }

  /**
   * Python's `s.split(sep)` for a one-character separator: the maximal
   * separator-free pieces, always at least one (possibly empty) part.
   */
  function Split(s: string, sep: char): (parts: seq<string>)
    ensures |parts| >= 1
    ensures forall k :: 0 <= k < |parts| ==> sep !in parts[k]
    ensures Join(parts, sep) == s
    decreases |s|
  {
    if sep !in s then
      [s]
    else
      var i := IndexOf(s, sep);
      var rest := Split(s[i + 1..], sep);
      assert s == s[..i] + [sep] + s[i + 1..];
      [s[..i]] + rest
  }

  /** Splitting what `Join` built gives the parts back, when no part holds the separator. */
  lemma {:induction false} SplitJoin(parts: seq<string>, sep: char)
    requires |parts| >= 1
    requires forall k :: 0 <= k < |parts| ==> sep !in parts[k]
    ensures Split(Join(parts, sep), sep) == parts
    decreases |parts|
  {
    if |parts| > 1 {
      var s := Join(parts, sep);
      assert s == parts[0] + [sep] + Join(parts[1..], sep);
      assert s[|parts[0]|] == sep;
      assert s[..|parts[0]|] == parts[0];
      IndexOfAfter(parts[0], sep, Join(parts[1..], sep));
      assert s[|parts[0]| + 1..] == Join(parts[1..], sep);
      SplitJoin(parts[1..], sep);
    }
  }

  /**
   * The address kept for a point of interest: the display name up to
   * its first comma, or the whole name when it has no comma.
   */
  function AddressHead(displayName: string): (head: string)
    ensures ',' !in head
    ensures head <= displayName
    ensures ',' !in displayName ==> head == displayName
    ensures ',' in displayName ==> displayName[|head|] == ','
  {
    if ',' in displayName then
      var i := IndexOf(displayName, ',');
      var parts := Split(displayName, ',');
      assert parts[0] == displayName[..i];
      parts[0]
    else
      displayName
  }
}
