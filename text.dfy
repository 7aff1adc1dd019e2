/** The handful of Python string operations the backend relies on: `str.lower()`,
    `str.strip()`, the substring test `kw in txt`, `sep.join(parts)` and the
    accumulation `full += chunk`.  Characters are treated as ASCII: lower-casing
    only maps 'A'..'Z', and only ASCII whitespace is stripped. */
module Text {

  // ---------------------------------------------------------------------------
  // Lower-casing
  // ---------------------------------------------------------------------------

  function LowerChar(c: char): char {
    if 'A' <= c <= 'Z' then (c as int + 32) as char else c
  }

  /** `s.lower()`, character by character. */
  function Lower(s: string): (r: string)
    ensures |r| == |s|
    ensures forall i :: 0 <= i < |s| ==> r[i] == LowerChar(s[i])
  {
    if s == [] then [] else [LowerChar(s[0])] + Lower(s[1..])
  }

  // ---------------------------------------------------------------------------
  // Whitespace stripping
  // ---------------------------------------------------------------------------

  /** The ASCII characters Python's `str.isspace()` accepts: space, \t \n \v \f \r and the
      separators 0x1C..0x1F. */
  predicate IsSpace(c: char) {
    c == ' ' || ('\t' <= c <= '\r') || ('\U{1C}' <= c <= '\U{1F}')
  }

  predicate AllSpace(s: string) {
    forall i :: 0 <= i < |s| ==> IsSpace(s[i])
  }

  /** Drops leading whitespace: the result is a suffix of `s` that does not start with
      whitespace, and everything dropped was whitespace. */
  function TrimStart(s: string): (r: string)
    ensures |r| <= |s| && r == s[|s| - |r|..]
    ensures AllSpace(s[..|s| - |r|])
    ensures r == [] || !IsSpace(r[0])
  {
    if s != [] && IsSpace(s[0]) then TrimStart(s[1..]) else s
  }

  /** Drops trailing whitespace: the result is a prefix of `s` that does not end with
      whitespace, and everything dropped was whitespace. */
  function TrimEnd(s: string): (r: string)
    ensures |r| <= |s| && r == s[..|r|]
    ensures AllSpace(s[|r|..])
    ensures r == [] || !IsSpace(r[|r| - 1])
  {
    if s != [] && IsSpace(s[|s| - 1]) then
      var r := TrimEnd(s[..|s| - 1]);
      assert forall i :: |r| <= i < |s| - 1 ==> s[i] == s[..|s| - 1][|r|..][i - |r|];
      r
    else s
  }

  /** `s.strip()`: the result is the slice of `s` left once the whitespace before and the
      whitespace after it are cut; neither of its ends is whitespace, and it is empty exactly
      when `s` is all whitespace. */
  function Strip(s: string): (r: string)
    ensures r == [] || (!IsSpace(r[0]) && !IsSpace(r[|r| - 1]))
    ensures var k := |s| - |TrimStart(s)|;
            && k + |r| <= |s| && r == s[k..k + |r|]
            && AllSpace(s[..k]) && AllSpace(s[k + |r|..])
    ensures r == [] <==> AllSpace(s)
  {
    var t := TrimStart(s);
    var r := TrimEnd(t);
    TrimmedBothEnds(s, |s| - |t|, r);
    r
  }

  /** Cutting whitespace off the front of `s` up to `k` and then off the back of the rest
      down to `r` leaves the slice `s[k..k + |r|]`, with whitespace on either side and neither
      end whitespace; it is empty exactly when `s` is all whitespace. */
  lemma TrimmedBothEnds(s: string, k: nat, r: string)
    requires k <= |s| && AllSpace(s[..k]) && (k == |s| || !IsSpace(s[k..][0]))
    requires |r| <= |s| - k && r == s[k..][..|r|] && AllSpace(s[k..][|r|..])
    requires r == [] || !IsSpace(r[|r| - 1])
    ensures r == [] || (!IsSpace(r[0]) && !IsSpace(r[|r| - 1]))
    ensures k + |r| <= |s| && r == s[k..k + |r|]
    ensures AllSpace(s[k + |r|..])
    ensures r == [] <==> AllSpace(s)
  {
    assert s[k..][|r|..] == s[k + |r|..];
    AllSpaceSplit(s, k);
    if r != [] {
      assert r[0] == s[k..][0];
      assert s[k..][|r| - 1] == r[|r| - 1];
    }
  }

  /** A string is all whitespace when its trimmed part is empty and what was trimmed off the
      front is whitespace. */
  lemma AllSpaceSplit(s: string, k: nat)
    requires k <= |s| && AllSpace(s[..k])
    ensures AllSpace(s) <==> AllSpace(s[k..])
  {
    assert forall i :: k <= i < |s| ==> s[i] == s[k..][i - k];
    assert forall i :: 0 <= i < k ==> s[i] == s[..k][i];
  }

  // ---------------------------------------------------------------------------
  // Substring test
  // ---------------------------------------------------------------------------

  predicate OccursAt(s: string, sub: string, i: int) {
    0 <= i <= |s| - |sub| && s[i..i + |sub|] == sub
  }

  /** Python's `sub in s`. */
  predicate Contains(s: string, sub: string) {
    exists i :: 0 <= i <= |s| - |sub| && OccursAt(s, sub, i)
  }

  /** Python's `any(w in s for w in words)`. */
  predicate ContainsAny(s: string, words: seq<string>) {
    exists k :: 0 <= k < |words| && Contains(s, words[k])
  }

  /** Lower-casing commutes with slicing. */
  lemma LowerSlice(s: string, i: int, j: int)
    requires 0 <= i <= j <= |s|
    ensures Lower(s[i..j]) == Lower(s)[i..j]
  {
  }

  /** Matching against a lower-cased text ignores case: if `s` holds, anywhere, a piece that
      lower-cases to `kw`, then `Lower(s)` contains `kw`. */
  lemma {:induction false} ContainsIgnoringCase(s: string, kw: string, i: int)
    requires 0 <= i <= |s| - |kw|
    requires Lower(s[i..i + |kw|]) == kw
    ensures Contains(Lower(s), kw)
  {
    LowerSlice(s, i, i + |kw|);
    assert OccursAt(Lower(s), kw, i);
  }

  // ---------------------------------------------------------------------------
  // Joining and concatenating
  // ---------------------------------------------------------------------------

  /** `sep.join(parts)`. */
  function Join(parts: seq<string>, sep: string): (r: string)
    ensures |parts| == 1 ==> r == parts[0]
  {
    if |parts| == 0 then ""
    else if |parts| == 1 then parts[0]
    else parts[0] + sep + Join(parts[1..], sep)
  }

  /** Joining keeps the parts in order: one more part goes after the separator at the end. */
  lemma {:induction false} JoinSnoc(parts: seq<string>, p: string, sep: string)
    ensures Join(parts + [p], sep) == if parts == [] then p else Join(parts, sep) + sep + p
  {
    if |parts| > 1 {
      assert (parts + [p])[1..] == parts[1..] + [p];
      JoinSnoc(parts[1..], p, sep);
    } else if |parts| == 1 {
      assert (parts + [p])[1..] == [p];
    }
  }

  /** Total of the lengths of `parts`. */
  function TotalLength(parts: seq<string>): nat {
    if parts == [] then 0 else |parts[0]| + TotalLength(parts[1..])
  }

  /** The joined text holds every character of every part and one separator between each
      neighbouring pair. */
  lemma {:induction false} JoinLength(parts: seq<string>, sep: string)
    ensures |parts| > 0 ==> |Join(parts, sep)| == TotalLength(parts) + |sep| * (|parts| - 1)
    ensures |parts| == 0 ==> Join(parts, sep) == ""
  {
    if |parts| > 1 {
      JoinLength(parts[1..], sep);
    }
  }

  /** Joining non-empty parts gives the empty string exactly when there are no parts. */
  lemma {:induction false} JoinEmptyIff(parts: seq<string>, sep: string)
    requires forall i :: 0 <= i < |parts| ==> parts[i] != ""
    ensures Join(parts, sep) == "" <==> parts == []
  {
    if |parts| > 1 {
      assert |Join(parts, sep)| >= |parts[0]| > 0;
    }
  }

  /** `"".join(parts)`, i.e. what `full += part` accumulates over `parts`. */
  function Concat(parts: seq<string>): (r: string)
    ensures |r| == TotalLength(parts)
  {
    if parts == [] then "" else parts[0] + Concat(parts[1..])
  }

  /** Accumulating one more part appends it at the end. */
  lemma {:induction false} ConcatSnoc(parts: seq<string>, p: string)
    ensures Concat(parts + [p]) == Concat(parts) + p
  {
    if parts != [] {
      assert (parts + [p])[1..] == parts[1..] + [p];
      ConcatSnoc(parts[1..], p);
    }
  }
}
