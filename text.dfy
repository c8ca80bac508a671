/** The two string operations of JavaScript the bot relies on:
    `String.prototype.trim` (strip white space from both ends) and
    `String.prototype.includes` (substring test). Strings are sequences of
    Unicode scalar values here; JavaScript counts UTF-16 code units. */
module Text {

  /** The characters `trim` removes: ECMAScript WhiteSpace and LineTerminator. */
  predicate IsWhitespace(c: char) {
    || c == '\t' || c == '\n' || c == '\U{000B}' || c == '\U{000C}' || c == '\r'
    || c == ' ' || c == '\U{00A0}' || c == '\U{1680}'
    || ('\U{2000}' <= c <= '\U{200A}')
    || c == '\U{2028}' || c == '\U{2029}' || c == '\U{202F}' || c == '\U{205F}'
    || c == '\U{3000}' || c == '\U{FEFF}'
  }

  /** `s` with its leading white space removed: a suffix of `s` that does not
      start with white space, everything before it being white space. */
  function TrimStart(s: string): (r: string)
    ensures |r| <= |s| && r == s[|s| - |r|..]
    ensures forall i :: 0 <= i < |s| - |r| ==> IsWhitespace(s[i])
    ensures r != [] ==> !IsWhitespace(r[0])
  {
    if s != [] && IsWhitespace(s[0]) then TrimStart(s[1..]) else s
  }

  /** `s` with its trailing white space removed: a prefix of `s` that does not
      end with white space, everything after it being white space. */
  function TrimEnd(s: string): (r: string)
    ensures |r| <= |s| && r == s[..|r|]
    ensures forall i :: |r| <= i < |s| ==> IsWhitespace(s[i])
    ensures r != [] ==> !IsWhitespace(r[|r| - 1])
  {
    if s != [] && IsWhitespace(s[|s| - 1]) then TrimEnd(s[..|s| - 1]) else s
  }

  /** JavaScript's `s.trim()`. */
  function Trim(s: string): (r: string)
    ensures |r| <= |s|
    ensures r != [] ==> !IsWhitespace(r[0]) && !IsWhitespace(r[|r| - 1])
  {
    var t := TrimStart(s);
    var r := TrimEnd(t);
    assert r != [] ==> r[0] == t[0];
    r
  }

  /** `!s.trim()`: the trimmed string is empty, hence falsy. */
  predicate IsBlank(s: string) {
    Trim(s) == []
  }

  /** A string is blank exactly when every one of its characters is white space. */
  lemma BlankIffAllWhitespace(s: string)
    ensures IsBlank(s) <==> forall i :: 0 <= i < |s| ==> IsWhitespace(s[i])
  {
    var t := TrimStart(s);
    assert t != [] ==> t[0] == s[|s| - |t|];
    if IsBlank(s) {
      assert t == [];
    }
  }

  /** A string that neither starts nor ends with white space is its own trim. */
  lemma TrimUnpadded(s: string)
    requires s == [] || (!IsWhitespace(s[0]) && !IsWhitespace(s[|s| - 1]))
    ensures Trim(s) == s
  {
    assert TrimStart(s) == s;
  }

  /** Trimming twice is trimming once. */
  lemma TrimIdempotent(s: string)
    ensures Trim(Trim(s)) == Trim(s)
  {
    TrimUnpadded(Trim(s));
  }

  /** `m` occurs in `s` starting at position `p`. */
  predicate OccursAt(s: string, m: string, p: nat) {
    p + |m| <= |s| && s[p..p + |m|] == m
  }

  /** JavaScript's `s.includes(m)`. */
  predicate Contains(s: string, m: string) {
    exists p: int | 0 <= p <= |s| :: OccursAt(s, m, p)
  }

  /** A string that neither starts nor ends with white space. */
  predicate Unpadded(m: string) {
    m != [] && !IsWhitespace(m[0]) && !IsWhitespace(m[|m| - 1])
  }

  /** A string none of whose characters is the first character of `m` does not contain `m`. */
  lemma MissingFirstCharacter(s: string, m: string)
    requires m != [] && forall i :: 0 <= i < |s| ==> s[i] != m[0]
    ensures !Contains(s, m)
  {
    forall p: nat | p + |m| <= |s|
      ensures !OccursAt(s, m, p)
    {
      assert s[p..p + |m|][0] == s[p];
    }
  }

  lemma OccursInSuffix(s: string, d: nat, m: string, p: nat)
    requires d <= |s|
    ensures OccursAt(s[d..], m, p) <==> OccursAt(s, m, p + d)
  {
    if p + |m| <= |s| - d {
      assert s[d..][p..p + |m|] == s[p + d..p + d + |m|];
    }
  }

  lemma OccursInPrefix(s: string, n: nat, m: string, p: nat)
    requires n <= |s|
    ensures OccursAt(s[..n], m, p) <==> p + |m| <= n && OccursAt(s, m, p)
  {
    if p + |m| <= n {
      assert s[..n][p..p + |m|] == s[p..p + |m|];
    }
  }

  lemma ContainsInTrimStart(s: string, m: string)
    requires Unpadded(m)
    ensures Contains(s, m) <==> Contains(TrimStart(s), m)
  {
    var t := TrimStart(s);
    var d := |s| - |t|;
    assert t == s[d..];
    if Contains(s, m) {
      var p: nat :| p <= |s| && OccursAt(s, m, p);
      assert s[p] == s[p..p + |m|][0] == m[0];
      OccursInSuffix(s, d, m, p - d);
      assert OccursAt(t, m, p - d);
    }
    if Contains(t, m) {
      var p: nat :| p <= |t| && OccursAt(t, m, p);
      OccursInSuffix(s, d, m, p);
      assert OccursAt(s, m, p + d);
    }
  }

  lemma ContainsInTrimEnd(s: string, m: string)
    requires Unpadded(m)
    ensures Contains(s, m) <==> Contains(TrimEnd(s), m)
  {
    var t := TrimEnd(s);
    var n := |t|;
    assert t == s[..n];
    if Contains(s, m) {
      var p: nat :| p <= |s| && OccursAt(s, m, p);
      assert s[p + |m| - 1] == s[p..p + |m|][|m| - 1] == m[|m| - 1];
      OccursInPrefix(s, n, m, p);
      assert OccursAt(t, m, p);
    }
    if Contains(t, m) {
      var p: nat :| p <= |t| && OccursAt(t, m, p);
      OccursInPrefix(s, n, m, p);
      assert OccursAt(s, m, p);
    }
  }

  /** Trimming never creates nor destroys an occurrence of an unpadded string:
      testing the raw text or the trimmed text for it gives the same answer. */
  lemma {:induction false} ContainsIffInTrimmed(s: string, m: string)
    requires Unpadded(m)
    ensures Contains(s, m) <==> Contains(Trim(s), m)
  {
    ContainsInTrimStart(s, m);
    ContainsInTrimEnd(TrimStart(s), m);
  }
}
