/** Python's `str.strip()` with no argument, used to suppress blank recognizer results. */
module Text {

  /** The characters Python's `str.isspace` accepts, which `str.strip()` removes from both ends. */
  predicate IsSpace(c: char)
  {
    ('\t' <= c <= '\r') || ('\U{1C}' <= c <= ' ') || c == '\U{85}' || c == '\U{A0}'
    || c == '\U{1680}' || ('\U{2000}' <= c <= '\U{200A}') || c == '\U{2028}' || c == '\U{2029}'
    || c == '\U{202F}' || c == '\U{205F}' || c == '\U{3000}'
  }

  /** Every character of `s` is whitespace (the empty string included). */
  predicate AllSpace(s: string)
  {
    forall i :: 0 <= i < |s| ==> IsSpace(s[i])
  }

  /** Whitespace followed by whitespace is whitespace. */
  lemma AllSpaceConcat(a: string, b: string)
    requires AllSpace(a) && AllSpace(b)
    ensures AllSpace(a + b)
  {
    forall i | 0 <= i < |a + b| ensures IsSpace((a + b)[i]) {
      if i < |a| { assert (a + b)[i] == a[i]; } else { assert (a + b)[i] == b[i - |a|]; }
    }
  }

  /** How many whitespace characters `s` starts with. */
  function LeadingSpaces(s: string): (n: nat)
    ensures n <= |s| && AllSpace(s[..n])
    ensures n < |s| ==> !IsSpace(s[n])
  {
    if s == [] || !IsSpace(s[0]) then 0
    else
      var m := LeadingSpaces(s[1..]);
      assert s[..m + 1] == [s[0]] + s[1..][..m];
      AllSpaceConcat([s[0]], s[1..][..m]);
      m + 1
  }

  /** Where the trailing whitespace of `s` begins. */
  function ContentEnd(s: string): (j: nat)
    ensures j <= |s| && AllSpace(s[j..])
    ensures j > 0 ==> !IsSpace(s[j - 1])
  {
    if s == [] || !IsSpace(s[|s| - 1]) then |s|
    else
      var t := s[..|s| - 1];
      var j := ContentEnd(t);
      assert forall i :: j <= i < |t| ==> t[j..][i - j] == s[i];
      j
  }

  /** Python's `s.strip()`: `s` without its leading and its trailing whitespace. */
  function Strip(s: string): string
  {
    var t := s[LeadingSpaces(s)..];
    t[..ContentEnd(t)]
  }

  /** `s.strip()` is truthy exactly when `s` holds a character that is not whitespace. */
  lemma StripNonEmptyIff(s: string)
    ensures Strip(s) != [] <==> !AllSpace(s)
  {
    var n := LeadingSpaces(s);
    var t := s[n..];
    var j := ContentEnd(t);
    if j == 0 {
      assert s == s[..n] + t[j..];
      AllSpaceConcat(s[..n], t[j..]);
    } else {
      assert s[n + j - 1] == t[j - 1];
    }
  }

  /** What `s.strip()` keeps is a slice of `s` that neither starts nor ends with whitespace,
      and what it removes on either side is whitespace only. */
  lemma StripKeepsTrimmedSlice(s: string)
    ensures exists i, j :: 0 <= i <= j <= |s| && Strip(s) == s[i..j] && AllSpace(s[..i]) && AllSpace(s[j..])
    ensures Strip(s) != [] ==> !IsSpace(Strip(s)[0]) && !IsSpace(Strip(s)[|Strip(s)| - 1])
  {
    var n := LeadingSpaces(s);
    var t := s[n..];
    var j := ContentEnd(t);
    assert Strip(s) == s[n..n + j];
    assert s[n + j..] == t[j..];
    if j > 0 {
      assert Strip(s)[0] == s[n];
      assert Strip(s)[j - 1] == t[j - 1];
    }
  }
}
