/**
 * JavaScript's `String.prototype.trim`, which the client uses to decide
 * whether the idea text is blank. `trim` removes the ECMAScript WhiteSpace
 * and LineTerminator code points from both ends.
 */
module JsString {

  /** WhiteSpace (tab, vertical tab, form feed, space, no-break space,
      byte-order mark and the Zs space separators) or a LineTerminator. */
  predicate IsTrimmable(c: char) {
    || c == '\t' || c == '\U{000B}' || c == '\U{000C}' || c == ' '
    || c == '\U{00A0}' || c == '\U{FEFF}' || c == '\U{1680}'
    || ('\U{2000}' <= c <= '\U{200A}')
    || c == '\U{202F}' || c == '\U{205F}' || c == '\U{3000}'
    || c == '\n' || c == '\r' || c == '\U{2028}' || c == '\U{2029}'
  }

  /** True when every character of `s` is one that `trim` removes. */
  ghost predicate AllTrimmable(s: string) {
    forall i :: 0 <= i < |s| ==> IsTrimmable(s[i])
  }

  /** Index of the first character at or after `i` that `trim` keeps, or
      `|s|` when there is none. */
  function FirstKept(s: string, i: nat): (k: nat)
    requires i <= |s|
    ensures i <= k <= |s|
    ensures forall j :: i <= j < k ==> IsTrimmable(s[j])
    ensures k < |s| ==> !IsTrimmable(s[k])
    decreases |s| - i
  {
    if i < |s| && IsTrimmable(s[i]) then FirstKept(s, i + 1) else i
  }

  /** One past the last character before `j` that `trim` keeps, or 0 when
      there is none. */
  function KeptEnd(s: string, j: nat): (k: nat)
    requires j <= |s|
    ensures k <= j
    ensures forall m :: k <= m < j ==> IsTrimmable(s[m])
    ensures k > 0 ==> !IsTrimmable(s[k - 1])
  {
    if j > 0 && IsTrimmable(s[j - 1]) then KeptEnd(s, j - 1) else j
  }

  /** Drops the leading trimmable characters. */
  function TrimStart(s: string): string {
    s[FirstKept(s, 0)..]
  }

  /** Drops the trailing trimmable characters. */
  function TrimEnd(s: string): string {
    s[..KeptEnd(s, |s|)]
  }

  /** `s.trim()`: the slice of `s` left after removing trimmable characters
      from both ends; it neither starts nor ends with one. */
  function Trim(s: string): (r: string)
    ensures |r| <= |s|
    ensures exists i :: (0 <= i <= |s| - |r| && s[i..i + |r|] == r
      && AllTrimmable(s[..i]) && AllTrimmable(s[i + |r|..]))
    ensures r != "" ==> !IsTrimmable(r[0]) && !IsTrimmable(r[|r| - 1])
  {
    var i := FirstKept(s, 0);
    var t := s[i..];
    var j := KeptEnd(t, |t|);
    var r := t[..j];
    assert s[i..i + |r|] == r;
    assert AllTrimmable(s[..i]) by {
      var u := s[..i];
      forall m | 0 <= m < |u| ensures IsTrimmable(u[m]) {
        assert u[m] == s[m];
      }
    }
    assert AllTrimmable(s[i + |r|..]) by {
      var u := s[i + j..];
      forall m | 0 <= m < |u| ensures IsTrimmable(u[m]) {
        assert u[m] == t[j + m];
      }
    }
    assert r == TrimEnd(TrimStart(s));
    r
  }

  /** `s.trim()` is empty exactly when `s` consists only of characters that
      `trim` removes (in particular when `s` is empty). */
  lemma TrimEmptyIffAllTrimmable(s: string)
    ensures Trim(s) == "" <==> AllTrimmable(s)
  {
    var k := FirstKept(s, 0);
    var t := TrimStart(s);
    if k < |s| {
      assert t[0] == s[k];
      assert KeptEnd(t, |t|) > 0;
    }
  }
}
