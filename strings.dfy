/** The JavaScript string built-ins the route handlers rely on:
    `trim()`, `substring(0, n)` and the extension-stripping
    `replace(/\.[^/.]+$/, '')`. */
module Strings {

  /** The characters `String.prototype.trim` removes: ECMAScript's WhiteSpace
      (tab, vertical tab, form feed, no-break space, byte-order mark and every
      space separator) and LineTerminator (LF, CR, LS, PS). */
  predicate IsJsWhitespace(c: char) {
    || c == '\t' || c == '\n' || c == '\U{000B}' || c == '\U{000C}' || c == '\r'
    || c == ' ' || c == '\U{00A0}' || c == '\U{1680}'
    || ('\U{2000}' <= c <= '\U{200A}')
    || c == '\U{2028}' || c == '\U{2029}' || c == '\U{202F}' || c == '\U{205F}'
    || c == '\U{3000}' || c == '\U{FEFF}'
  }

  predicate AllWhitespace(s: string) {
    forall i | 0 <= i < |s| :: IsJsWhitespace(s[i])
  }

  /** Where the run of whitespace that starts at `from` ends: every
      character in between is whitespace and the one at the result is not. */
  function LeadingEnd(s: string, from: nat): (k: nat)
    requires from <= |s|
    ensures from <= k <= |s|
    ensures forall m | from <= m < k :: IsJsWhitespace(s[m])
    ensures k == |s| || !IsJsWhitespace(s[k])
    decreases |s| - from
  {
    if from < |s| && IsJsWhitespace(s[from]) then LeadingEnd(s, from + 1) else from
  }

  /** Where the run of whitespace that ends just before `hi` starts, going no
      further back than `lo`. */
  function TrailingStart(s: string, lo: nat, hi: nat): (k: nat)
    requires lo <= hi <= |s|
    ensures lo <= k <= hi
    ensures forall m | k <= m < hi :: IsJsWhitespace(s[m])
    ensures k == lo || !IsJsWhitespace(s[k - 1])
    decreases hi
  {
    if lo < hi && IsJsWhitespace(s[hi - 1]) then TrailingStart(s, lo, hi - 1) else hi
  }

  /** `s.trim()`: `s` without its leading and trailing whitespace. */
  function Trim(s: string): string {
    var i := LeadingEnd(s, 0);
    s[i..TrailingStart(s, i, |s|)]
  }

  /** The trimmed string is a slice of `s`, and only whitespace is cut off on
      either side of it. */
  lemma TrimCutsWhitespace(s: string)
    ensures var i := LeadingEnd(s, 0);
            && i + |Trim(s)| <= |s| && Trim(s) == s[i..i + |Trim(s)|]
            && AllWhitespace(s[..i]) && AllWhitespace(s[i + |Trim(s)|..])
  {
    var i := LeadingEnd(s, 0);
    var j := TrailingStart(s, i, |s|);
    assert |Trim(s)| == j - i;
    assert forall m | 0 <= m < |s[j..]| :: s[j..][m] == s[j + m];
  }

  /** The trimmed string neither starts nor ends with whitespace. */
  lemma TrimEnds(s: string)
    ensures Trim(s) == [] || (!IsJsWhitespace(Trim(s)[0]) && !IsJsWhitespace(Trim(s)[|Trim(s)| - 1]))
  {
    var i := LeadingEnd(s, 0);
    var j := TrailingStart(s, i, |s|);
    if i < j {
      assert Trim(s)[0] == s[i];
      assert Trim(s)[|Trim(s)| - 1] == s[j - 1];
    }
  }

  /** Those two properties determine the result: any slice of `s` that is
      cut off by whitespace only, and does not itself start or end with
      whitespace, is `s.trim()`. */
  lemma TrimCharacterized(s: string, i: nat, j: nat)
    requires i <= j <= |s|
    requires forall m | 0 <= m < i :: IsJsWhitespace(s[m])
    requires forall m | j <= m < |s| :: IsJsWhitespace(s[m])
    requires i == j || (!IsJsWhitespace(s[i]) && !IsJsWhitespace(s[j - 1]))
    ensures Trim(s) == s[i..j]
  {
    var k := LeadingEnd(s, 0);
    if i < j {
      assert k == i by {
        assert WhitespaceAt(s, i) == false;
        assert forall m | 0 <= m < k :: WhitespaceAt(s, m);
        assert k < |s| ==> !WhitespaceAt(s, k);
      }
      var l := TrailingStart(s, i, |s|);
      assert l == j by {
        assert WhitespaceAt(s, j - 1) == false;
        assert forall m | l <= m < |s| :: WhitespaceAt(s, m);
        assert l > i ==> !WhitespaceAt(s, l - 1);
      }
    }
  }

  predicate WhitespaceAt(s: string, m: int) {
    0 <= m < |s| && IsJsWhitespace(s[m])
  }

  /** `s.trim().length === 0` exactly when `s` is all whitespace. */
  lemma TrimEmptyIff(s: string)
    ensures Trim(s) == [] <==> AllWhitespace(s)
  {
    var i := LeadingEnd(s, 0);
    var j := TrailingStart(s, i, |s|);
    if i < |s| {
      assert !IsJsWhitespace(s[i]);
      assert i < j;
    }
  }

  /** Trimming twice changes nothing. */
  lemma TrimIdempotent(s: string)
    ensures Trim(Trim(s)) == Trim(s)
  {
    var r := Trim(s);
    TrimEnds(s);
    TrimCharacterized(r, 0, |r|);
  }

  /** `s.substring(0, n)` for a non-negative `n`: the first `n` characters,
      or all of `s` when it is shorter. */
  function Take(s: string, n: nat): (r: string)
    ensures |r| == if |s| <= n then |s| else n
    ensures r == s[..|r|]
  {
    if |s| <= n then s else s[..n]
  }

  predicate IsSeparator(c: char) {
    c == '.' || c == '/'
  }

  /** The position `i` at which `/\.[^/.]+$/` matches `name`: a '.', followed
      by at least one character, none of which is '.' or '/'. */
  predicate ExtensionAt(name: string, i: int) {
    && 0 <= i < |name| - 1
    && name[i] == '.'
    && forall m | i < m < |name| :: !IsSeparator(name[m])
  }

  /** The last '.' or '/' strictly before position `j`, or -1 when there is
      none. */
  function LastSeparator(s: string, j: nat): (k: int)
    requires j <= |s|
    ensures -1 <= k < j
    ensures k >= 0 ==> IsSeparator(s[k])
    ensures forall m | k < m < j :: !IsSeparator(s[m])
  {
    if j == 0 then -1
    else if IsSeparator(s[j - 1]) then j - 1
    else LastSeparator(s, j - 1)
  }

  /** `name.replace(/\.[^/.]+$/, '')`: removes a trailing extension, and
      leaves a name without one unchanged. */
  function StripExtension(name: string): (r: string)
    ensures forall i | 0 <= i < |name| :: ExtensionAt(name, i) ==> r == name[..i]
    ensures (forall i | 0 <= i < |name| :: !ExtensionAt(name, i)) ==> r == name
  {
    var k := LastSeparator(name, |name|);
    assert forall i | 0 <= i < |name| :: ExtensionAt(name, i) ==> i == k;
    if k >= 0 && name[k] == '.' && k < |name| - 1 then
      assert ExtensionAt(name, k);
      name[..k]
    else
      name
  }
}
