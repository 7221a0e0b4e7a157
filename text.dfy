/**
 * Python's `sep.join(parts)` and `s.split(c)` for a one-character
 * separator, on strings as sequences of characters.
 */
module Text {

  /** `sep.join(parts)`: the parts, with `sep` between neighbours. */
  function Join(parts: seq<string>, sep: string): (s: string)
    ensures |parts| > 0 ==> parts[0] <= s
  {
    if parts == [] then ""
    else if |parts| == 1 then parts[0]
    else parts[0] + sep + Join(parts[1..], sep)
  }

  /** The position of the first `c` in `s`. */
  function IndexOf(s: string, c: char): (i: nat)
    requires c in s
    ensures i < |s| && s[i] == c && c !in s[..i]
  {
    if s[0] == c then 0 else 1 + IndexOf(s[1..], c)
  }

  /** A `c` with no `c` before it is the first one. */
  lemma IndexOfUnique(s: string, c: char, k: nat)
    requires k < |s| && s[k] == c && c !in s[..k]
    ensures IndexOf(s, c) == k
  {
    var i := IndexOf(s, c);
    assert forall j :: 0 <= j < k ==> s[j] in s[..k];
    assert forall j :: 0 <= j < i ==> s[j] in s[..i];
  }

  /** When the first k characters hold no `c`, the first `c` is at k or later. */
  lemma IndexOfAtLeast(s: string, c: char, k: nat)
    requires c in s && k <= |s| && c !in s[..k]
    ensures IndexOf(s, c) >= k
  {
    var i := IndexOf(s, c);
    assert forall j :: 0 <= j < k ==> s[j] in s[..k];
  }

  /**
   * `s.split(c)`: the maximal runs of `s` between occurrences of `c`,
   * always at least one of them (Python keeps empty runs).
   */
  function Split(s: string, c: char): (parts: seq<string>)
    ensures |parts| > 0
    ensures forall k :: 0 <= k < |parts| ==> c !in parts[k]
    ensures |parts| > 1 <==> c in s
    decreases |s|
  {
    if c !in s then [s]
    else
      var i := IndexOf(s, c);
      [s[..i]] + Split(s[i + 1..], c)
  }

  /** Joining what `Split` returns with the same separator gives the string back. */
  lemma {:induction false} JoinSplit(s: string, c: char)
    ensures Join(Split(s, c), [c]) == s
    decreases |s|
  {
    if c in s {
      var i := IndexOf(s, c);
      var rest := s[i + 1..];
      JoinSplit(rest, c);
      var parts := Split(s, c);
      assert parts[1..] == Split(rest, c);
      assert s == s[..i] + [c] + rest;
    }
  }

  /** Splitting a join of separator-free parts gives the parts back. */
  lemma {:induction false} SplitJoin(parts: seq<string>, c: char)
    requires |parts| > 0
    requires forall k :: 0 <= k < |parts| ==> c !in parts[k]
    ensures Split(Join(parts, [c]), c) == parts
  {
    if |parts| > 1 {
      var rest := Join(parts[1..], [c]);
      var s := parts[0] + [c] + rest;
      assert s == Join(parts, [c]);
      assert s[|parts[0]|] == c;
      assert s[..|parts[0]|] == parts[0];
      assert IndexOf(s, c) == |parts[0]|;
      assert s[|parts[0]| + 1..] == rest;
      SplitJoin(parts[1..], c);
    }
  }

  /** The total length of the parts of a join. */
  function TotalLength(parts: seq<string>): nat
  {
    if parts == [] then 0 else |parts[0]| + TotalLength(parts[1..])
  }

  /** A join of n parts holds every character of the parts and n - 1 separators. */
  lemma {:induction false} JoinLength(parts: seq<string>, sep: string)
    requires |parts| > 0
    ensures |Join(parts, sep)| == TotalLength(parts) + (|parts| - 1) * |sep|
  {
    if |parts| > 1 {
      JoinLength(parts[1..], sep);
    }
  }
}
