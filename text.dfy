/**
 * Identifier normalisation of the auth form: `normalizeIdentifier(v)` is
 * `(v || "").trim().toLowerCase()`. Trimming follows ECMAScript's
 * `String.prototype.trim` (it removes WhiteSpace and LineTerminator code points
 * at both ends); lower-casing is modelled on ASCII letters only.
 */
module Text {
  import opened Common

  /** The code points `trim` removes: ECMAScript WhiteSpace and LineTerminator. */
  predicate IsWhitespace(c: char) {
    || c == '\t' || c == '\n' || c == '\U{B}' || c == '\U{C}' || c == '\r' || c == ' '
    || c == '\U{A0}' || c == '\U{1680}' || ('\U{2000}' <= c <= '\U{200A}')
    || c == '\U{2028}' || c == '\U{2029}' || c == '\U{202F}' || c == '\U{205F}'
    || c == '\U{3000}' || c == '\U{FEFF}'
  }

  predicate AllWhitespace(s: string) {
    forall i :: 0 <= i < |s| ==> IsWhitespace(s[i])
  }

  /** No whitespace at either end: what `trim` leaves behind. */
  predicate Trimmed(s: string) {
    s == [] || (!IsWhitespace(s[0]) && !IsWhitespace(s[|s| - 1]))
  }

  predicate IsUpper(c: char) {
    'A' <= c <= 'Z'
  }

  predicate NoUpper(s: string) {
    forall i :: 0 <= i < |s| ==> !IsUpper(s[i])
  }

  /** `toLowerCase` on one character (ASCII letters only). */
  function LowerChar(c: char): (r: char)
    ensures !IsUpper(r)
    ensures IsWhitespace(r) <==> IsWhitespace(c)
    ensures !IsUpper(c) ==> r == c
  {
    if IsUpper(c) then (c as int + 32) as char else c
  }

  /** `toLowerCase`: each character lowered on its own (see `LowerAt`). */
  function Lower(s: string): (r: string)
    ensures |r| == |s|
  {
    if s == [] then [] else [LowerChar(s[0])] + Lower(s[1..])
  }

  /** Drops leading whitespace (see `TrimStartShape`). */
  function TrimStart(s: string): string
    decreases |s|
  {
    if |s| > 0 && IsWhitespace(s[0]) then TrimStart(s[1..]) else s
  }

  /** Drops trailing whitespace (see `TrimEndShape`). */
  function TrimEnd(s: string): string
    decreases |s|
  {
    if |s| > 0 && IsWhitespace(s[|s| - 1]) then TrimEnd(s[..|s| - 1]) else s
  }

  /**
   * `String.prototype.trim`. That nothing but whitespace is removed, and all
   * of it, is `TrimIsTrimmed`, `TrimSplit` and `TrimOfPadded`.
   */
  function Trim(s: string): string {
    TrimEnd(TrimStart(s))
  }

  /** `normalizeIdentifier(v)`: `(v || "").trim().toLowerCase()`. */
  function NormalizeIdentifier(v: Option<string>): string {
    Lower(Trim(v.GetOr("")))
  }

  /** Lower-casing works character by character. */
  lemma {:induction false} LowerAt(s: string)
    ensures forall i :: 0 <= i < |s| ==> Lower(s)[i] == LowerChar(s[i])
    decreases |s|
  {
    if s != [] {
      LowerAt(s[1..]);
      assert Lower(s) == [LowerChar(s[0])] + Lower(s[1..]);
    }
  }

  /** `TrimStart` keeps a suffix, drops only whitespace, and stops at a non-whitespace character. */
  lemma {:induction false} TrimStartShape(s: string)
    ensures |TrimStart(s)| <= |s| && TrimStart(s) == s[|s| - |TrimStart(s)|..]
    ensures AllWhitespace(s[..|s| - |TrimStart(s)|])
    ensures TrimStart(s) == [] || !IsWhitespace(TrimStart(s)[0])
    decreases |s|
  {
    if |s| > 0 && IsWhitespace(s[0]) {
      var t := s[1..];
      TrimStartShape(t);
      var r := TrimStart(t);
      assert s[|s| - |r|..] == t[|t| - |r|..];
      assert s[..|s| - |r|] == [s[0]] + t[..|t| - |r|];
    }
  }

  /** `TrimEnd` keeps a prefix, drops only whitespace, and stops at a non-whitespace character. */
  lemma {:induction false} TrimEndShape(s: string)
    ensures |TrimEnd(s)| <= |s| && TrimEnd(s) == s[..|TrimEnd(s)|]
    ensures AllWhitespace(s[|TrimEnd(s)|..])
    ensures TrimEnd(s) == [] || !IsWhitespace(TrimEnd(s)[|TrimEnd(s)| - 1])
    decreases |s|
  {
    if |s| > 0 && IsWhitespace(s[|s| - 1]) {
      var t := s[..|s| - 1];
      TrimEndShape(t);
      var r := TrimEnd(t);
      assert s[..|r|] == t[..|r|];
      assert forall i :: 0 <= i < |t| - |r| ==> s[|r|..][i] == t[|r|..][i];
    }
  }

  /** What `trim` returns has no whitespace at either end and is no longer than its input. */
  lemma TrimIsTrimmed(s: string)
    ensures Trimmed(Trim(s))
    ensures |Trim(s)| <= |s|
  {
    var t := TrimStart(s);
    TrimStartShape(s);
    TrimEndShape(t);
    var r := TrimEnd(t);
    if r != [] {
      assert r[0] == t[0];
    }
  }

  /** A normalised identifier has no whitespace at either end and no capital letter. */
  lemma NormalizedForm(v: Option<string>)
    ensures Trimmed(NormalizeIdentifier(v))
    ensures NoUpper(NormalizeIdentifier(v))
  {
    var t := Trim(v.GetOr(""));
    TrimIsTrimmed(v.GetOr(""));
    LowerKeepsTrimmed(t);
    LowerHasNoUpper(t);
  }

  lemma {:induction false} TrimStartOfPadded(p: string, t: string)
    requires AllWhitespace(p)
    requires t == [] || !IsWhitespace(t[0])
    ensures TrimStart(p + t) == t
    decreases |p|
  {
    if p != [] {
      assert (p + t)[1..] == p[1..] + t;
      TrimStartOfPadded(p[1..], t);
    } else {
      assert p + t == t;
    }
  }

  lemma {:induction false} TrimEndOfPadded(t: string, q: string)
    requires AllWhitespace(q)
    requires t == [] || !IsWhitespace(t[|t| - 1])
    ensures TrimEnd(t + q) == t
    decreases |q|
  {
    if q != [] {
      assert (t + q)[..|t + q| - 1] == t + q[..|q| - 1];
      TrimEndOfPadded(t, q[..|q| - 1]);
    } else {
      assert t + q == t;
    }
  }

  /**
   * `trim` is determined by its characterisation: whatever whitespace pads a
   * string with no whitespace at its ends, trimming gives back that string.
   */
  lemma {:induction false} TrimOfPadded(p: string, m: string, q: string)
    requires AllWhitespace(p) && AllWhitespace(q)
    requires Trimmed(m)
    ensures Trim(p + m + q) == m
  {
    if m == [] {
      assert p + m + q == (p + q) + [];
      TrimStartOfPadded(p + q, []);
    } else {
      assert p + m + q == p + (m + q);
      TrimStartOfPadded(p, m + q);
      TrimEndOfPadded(m, q);
    }
  }

  lemma LowerAppend(a: string, b: string)
    ensures Lower(a + b) == Lower(a) + Lower(b)
  {
    LowerAt(a + b);
    LowerAt(a);
    LowerAt(b);
  }

  lemma LowerKeepsTrimmed(s: string)
    requires Trimmed(s)
    ensures Trimmed(Lower(s))
  {
    LowerAt(s);
  }

  lemma LowerHasNoUpper(s: string)
    ensures NoUpper(Lower(s))
  {
    LowerAt(s);
  }

  lemma LowerWithoutUpper(s: string)
    requires NoUpper(s)
    ensures Lower(s) == s
  {
    LowerAt(s);
  }

  lemma LowerKeepsWhitespace(s: string)
    requires AllWhitespace(s)
    ensures AllWhitespace(Lower(s))
  {
    LowerAt(s);
  }

  /** Trimming and lower-casing commute, because lower-casing never creates or removes whitespace. */
  lemma TrimLowerCommute(s: string)
    ensures Trim(Lower(s)) == Lower(Trim(s))
  {
    var m := Trim(s);
    var p, q := TrimSplit(s);
    TrimIsTrimmed(s);
    LowerAppend(p, m);
    LowerAppend(p + m, q);
    LowerKeepsWhitespace(p);
    LowerKeepsWhitespace(q);
    LowerKeepsTrimmed(m);
    TrimOfPadded(Lower(p), Lower(m), Lower(q));
  }

  /** Normalising twice is normalising once. */
  lemma NormalizeIdempotent(v: Option<string>)
    ensures NormalizeIdentifier(Some(NormalizeIdentifier(v))) == NormalizeIdentifier(v)
  {
    var r := NormalizeIdentifier(v);
    NormalizedForm(v);
    assert [] + r + [] == r;
    TrimOfPadded([], r, []);
    LowerWithoutUpper(r);
    assert NormalizeIdentifier(Some(r)) == Lower(Trim(r));
  }

  /** Every string is the whitespace `trim` drops before, its result, and the whitespace it drops after. */
  lemma TrimSplit(s: string) returns (p: string, q: string)
    ensures s == p + Trim(s) + q
    ensures AllWhitespace(p) && AllWhitespace(q)
  {
    var t := TrimStart(s);
    var m := TrimEnd(t);
    TrimStartShape(s);
    TrimEndShape(t);
    p, q := s[..|s| - |t|], t[|m|..];
    SuffixSplit(s, t);
    PrefixSplit(t, m);
    JoinThree(p, m, q, t, s);
  }

  // Solver hints: sequence facts kept in small lemmas of their own, so that the
  // proofs about Trim and Lower that use them do not have to derive them among
  // the recursive definitions.

  lemma WhitespaceAppend(a: string, b: string)
    requires AllWhitespace(a) && AllWhitespace(b)
    ensures AllWhitespace(a + b)
  {
  }

  lemma SuffixSplit(s: string, t: string)
    requires |t| <= |s| && t == s[|s| - |t|..]
    ensures s == s[..|s| - |t|] + t
  {
  }

  lemma PrefixSplit(t: string, m: string)
    requires |m| <= |t| && m == t[..|m|]
    ensures t == m + t[|m|..]
  {
  }

  lemma JoinThree(p: string, m: string, q: string, t: string, s: string)
    requires t == m + q && s == p + t
    ensures s == p + m + q
  {
  }

  lemma SplicePadding(p: string, p': string, m: string, q': string, q: string)
    ensures p + (p' + m + q') + q == (p + p') + m + (q' + q)
  {
  }

  /** Trimming ignores extra whitespace on either side. */
  lemma TrimIgnoresPadding(p: string, s: string, q: string)
    requires AllWhitespace(p) && AllWhitespace(q)
    ensures Trim(p + s + q) == Trim(s)
  {
    var m := Trim(s);
    var p', q' := TrimSplit(s);
    TrimIsTrimmed(s);
    SplicePadding(p, p', m, q', q);
    WhitespaceAppend(p, p');
    WhitespaceAppend(q', q);
    TrimOfPadded(p + p', m, q' + q);
  }

  /** Whitespace padding around an identifier does not change its normal form. */
  lemma NormalizeIgnoresPadding(p: string, s: string, q: string)
    requires AllWhitespace(p) && AllWhitespace(q)
    ensures NormalizeIdentifier(Some(p + s + q)) == NormalizeIdentifier(Some(s))
  {
    TrimIgnoresPadding(p, s, q);
  }

  /** Identifiers that differ only in letter case have the same normal form. */
  lemma NormalizeIgnoresCase(s: string, t: string)
    requires Lower(s) == Lower(t)
    ensures NormalizeIdentifier(Some(s)) == NormalizeIdentifier(Some(t))
  {
    TrimLowerCommute(s);
    TrimLowerCommute(t);
  }
}
