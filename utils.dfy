/** trim (Utils.cpp): a copy of a string without its leading and trailing whitespace. */
module Utils {

  /** iswspace in the "C" locale: tab, line feed, vertical tab, form feed, carriage
      return and space. */
  predicate IsSpace(c: char) {
    ('\t' <= c <= '\r') || c == ' '
  }

  /** The index of the first non-whitespace character, or |s| when there is none. */
  function Front(s: string): (i: nat)
    ensures i <= |s|
    ensures forall k :: 0 <= k < i ==> IsSpace(s[k])
    ensures i < |s| ==> !IsSpace(s[i])
  {
    if |s| == 0 || !IsSpace(s[0]) then 0
    else
      var rest := Front(s[1..]);
      assert forall k :: 1 <= k < 1 + rest ==> s[k] == s[1..][k - 1];
      1 + rest
  }

  /** The length of s without its trailing whitespace. */
  function Back(s: string): (j: nat)
    ensures j <= |s|
    ensures forall k :: j <= k < |s| ==> IsSpace(s[k])
    ensures j > 0 ==> !IsSpace(s[j - 1])
  {
    if |s| == 0 || !IsSpace(s[|s| - 1]) then |s|
    else
      var shorter := s[..|s| - 1];
      var j := Back(shorter);
      assert forall k :: j <= k < |s| - 1 ==> s[k] == shorter[k];
      j
  }

  /** s with the leading and the trailing whitespace removed. */
  function Trimmed(s: string): string {
    if Front(s) == |s| then "" else s[Front(s)..Back(s)]
  }

  /** The trailing scan stops at the first non-whitespace character at the latest. */
  lemma FrontBeforeBack(s: string)
    requires Front(s) < |s|
    ensures Front(s) < Back(s)
  {
    assert !IsSpace(s[Front(s)]);
  }

  /** trim: start skips the leading whitespace, then end walks back from the last
      character while it is past start and on whitespace; the result is [start, end]. */
  method Trim(s: string) returns (r: string)
    requires |s| > 0
    ensures r == Trimmed(s)
  {
    var start := 0;
    while start != |s| && IsSpace(s[start])
      invariant start <= |s|
      invariant forall k :: 0 <= k < start ==> IsSpace(s[k])
    {
      start := start + 1;
    }
    assert start == Front(s) by {
      UniqueFront(s, start);
    }
    var end := |s|;
    end := end - 1;  // the unconditional first pass of the do-while
    while end - start > 0 && IsSpace(s[end])
      invariant start - 1 <= end < |s|
      invariant start < |s| ==> start <= end
      invariant forall k :: end < k < |s| ==> IsSpace(s[k])
    {
      end := end - 1;
    }
    if start < |s| {
      FrontBeforeBack(s);
      UniqueBack(s, end + 1);
    }
    r := s[start..end + 1];
  }

  /** Front(s) is the only index with whitespace before it and none at it. */
  lemma UniqueFront(s: string, i: nat)
    requires i <= |s| && (forall k :: 0 <= k < i ==> IsSpace(s[k])) && (i < |s| ==> !IsSpace(s[i]))
    ensures i == Front(s)
  {
    assert i < |s| ==> !IsSpace(s[i]);
    assert Front(s) < |s| ==> !IsSpace(s[Front(s)]);
  }

  /** Back(s) is the only length with whitespace after it and none just before it. */
  lemma UniqueBack(s: string, j: nat)
    requires 0 < j <= |s| && (forall k :: j <= k < |s| ==> IsSpace(s[k])) && !IsSpace(s[j - 1])
    ensures j == Back(s)
  {
    assert !IsSpace(s[j - 1]);
    assert Back(s) > 0 ==> !IsSpace(s[Back(s) - 1]);
  }

  /** The result is a contiguous part of s; everything cut from the front and from the
      back is whitespace, and a non-empty result begins and ends with a character that
      is not. */
  lemma TrimmedCuts(s: string)
    ensures
      var i := Front(s);
      var j := if i == |s| then |s| else Back(s);
      && i <= j <= |s| && Trimmed(s) == s[i..j]
      && (forall k :: 0 <= k < i ==> IsSpace(s[k]))
      && (forall k :: j <= k < |s| ==> IsSpace(s[k]))
    ensures |Trimmed(s)| > 0 ==> !IsSpace(Trimmed(s)[0]) && !IsSpace(Trimmed(s)[|Trimmed(s)| - 1])
  {
    var i := Front(s);
    if i < |s| {
      FrontBeforeBack(s);
      var j := Back(s);
      var t := s[i..j];
      assert Trimmed(s) == t;
      assert t[0] == s[i] && t[|t| - 1] == s[j - 1];
    } else {
      assert Trimmed(s) == s[i..i];
    }
  }

  /** A string of whitespace only trims to the empty string. */
  lemma AllSpaceTrimsToEmpty(s: string)
    requires forall k :: 0 <= k < |s| ==> IsSpace(s[k])
    ensures Trimmed(s) == ""
  {
    UniqueFront(s, |s|);
  }

  /** A string that begins and ends with non-whitespace is returned unchanged. */
  lemma ClosedStringUnchanged(s: string)
    requires |s| > 0 && !IsSpace(s[0]) && !IsSpace(s[|s| - 1])
    ensures Trimmed(s) == s
  {
    UniqueFront(s, 0);
    UniqueBack(s, |s|);
  }

  /** Trimming twice is trimming once. */
  lemma TrimIdempotent(s: string)
    ensures Trimmed(Trimmed(s)) == Trimmed(s)
  {
    TrimmedCuts(s);
    var t := Trimmed(s);
    if |t| == 0 {
      AllSpaceTrimsToEmpty(t);
    } else {
      ClosedStringUnchanged(t);
    }
  }
}
