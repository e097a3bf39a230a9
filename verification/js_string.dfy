/**
 String helpers with the semantics of ECMAScript's `String.prototype.trim`,
 which removes WhiteSpace and LineTerminator code points from both ends of a
 string. Every such code point lies in the Basic Multilingual Plane, so
 modelling a JavaScript string as a sequence of Dafny characters is exact for
 the purposes of trimming.
 */
module JsString {

  /** The ECMAScript WhiteSpace set (TAB, VT, FF, SP, NBSP, ZWNBSP and the
      Unicode category Zs) together with the LineTerminator set (LF, CR, LS, PS). */
  predicate IsWhitespace(c: char) {
    || c == '\t' || c == '\U{000B}' || c == '\U{000C}' || c == ' '
    || c == '\U{00A0}' || c == '\U{FEFF}'
    || c == '\U{1680}' || ('\U{2000}' <= c <= '\U{200A}')
    || c == '\U{202F}' || c == '\U{205F}' || c == '\U{3000}'
    || c == '\n' || c == '\r' || c == '\U{2028}' || c == '\U{2029}'
  }

  predicate AllWhitespace(s: string) {
    forall i :: 0 <= i < |s| ==> IsWhitespace(s[i])
  }

  /** A string that `trim` leaves as it is: empty, or bounded by
      non-whitespace characters on both ends. */
  predicate IsTrimmed(s: string) {
    s == [] || (!IsWhitespace(s[0]) && !IsWhitespace(s[|s| - 1]))
  }

  /** Drops leading whitespace: the result does not start with whitespace
      (TrimStartSplits shows that only whitespace was dropped). */
  function TrimStart(s: string): (r: string)
    ensures |r| <= |s|
    ensures r == [] || !IsWhitespace(r[0])
  {
    if s != [] && IsWhitespace(s[0]) then TrimStart(s[1..]) else s
  }

  /** Drops trailing whitespace: the result does not end with whitespace
      (TrimEndSplits shows that only whitespace was dropped). */
  function TrimEnd(s: string): (r: string)
    ensures |r| <= |s|
    ensures r == [] || (r[0] == s[0] && !IsWhitespace(r[|r| - 1]))
  {
    if s != [] && IsWhitespace(s[|s| - 1]) then TrimEnd(s[..|s| - 1]) else s
  }

  /** `String.prototype.trim`. */
  function Trim(s: string): (r: string)
    ensures |r| <= |s|
    ensures IsTrimmed(r)
  {
    TrimEnd(TrimStart(s))
  }

  /** `s` is a run of whitespace followed by `TrimStart(s)`. */
  lemma {:induction false} TrimStartSplits(s: string) returns (before: string)
    ensures s == before + TrimStart(s) && AllWhitespace(before)
    decreases |s|
  {
    if s != [] && IsWhitespace(s[0]) {
      var rest := TrimStartSplits(s[1..]);
      before := [s[0]] + rest;
      assert s == [s[0]] + s[1..];
    } else {
      before := [];
    }
  }

  /** `s` is `TrimEnd(s)` followed by a run of whitespace. */
  lemma {:induction false} TrimEndSplits(s: string) returns (after: string)
    ensures s == TrimEnd(s) + after && AllWhitespace(after)
    decreases |s|
  {
    if s != [] && IsWhitespace(s[|s| - 1]) {
      var rest := TrimEndSplits(s[..|s| - 1]);
      after := rest + [s[|s| - 1]];
      assert s == s[..|s| - 1] + [s[|s| - 1]];
    } else {
      after := [];
    }
  }

  /** `trim` only removes whitespace: the input is the result surrounded by
      two (possibly empty) runs of whitespace. */
  lemma TrimSplits(s: string) returns (before: string, after: string)
    ensures s == before + Trim(s) + after
    ensures AllWhitespace(before) && AllWhitespace(after)
  {
    before := TrimStartSplits(s);
    after := TrimEndSplits(TrimStart(s));
    assert before + (Trim(s) + after) == before + Trim(s) + after;
  }

  lemma {:induction false} TrimStartOfPadded(w: string, r: string)
    requires AllWhitespace(w)
    requires r == [] || !IsWhitespace(r[0])
    ensures TrimStart(w + r) == r
    decreases |w|
  {
    if w != [] {
      assert (w + r)[1..] == w[1..] + r;
      TrimStartOfPadded(w[1..], r);
    } else {
      assert w + r == r;
    }
  }

  lemma {:induction false} TrimEndOfPadded(r: string, w: string)
    requires AllWhitespace(w)
    requires r == [] || !IsWhitespace(r[|r| - 1])
    ensures TrimEnd(r + w) == r
    decreases |w|
  {
    if w != [] {
      assert (r + w)[..|r + w| - 1] == r + w[..|w| - 1];
      TrimEndOfPadded(r, w[..|w| - 1]);
    } else {
      assert r + w == r;
    }
  }

  /** Uniqueness: any decomposition of a string into whitespace, a trimmed
      core and whitespace yields exactly that core as the result of `trim`.
      Together with TrimSplits this characterises `trim` completely. */
  lemma TrimOfPadded(before: string, core: string, after: string)
    requires AllWhitespace(before) && AllWhitespace(after)
    requires IsTrimmed(core)
    ensures Trim(before + core + after) == core
  {
    if core == [] {
      assert before + core + after == before + after;
      assert AllWhitespace(before + after);
      TrimStartOfPadded(before + after, []);
      assert before + after + [] == before + after;
    } else {
      assert before + core + after == before + (core + after);
      TrimStartOfPadded(before, core + after);
      TrimEndOfPadded(core, after);
    }
  }

  /** A trimmed string is a fixed point of `trim`. */
  lemma TrimOfTrimmed(s: string)
    requires IsTrimmed(s)
    ensures Trim(s) == s
  {
    assert [] + s + [] == s;
    TrimOfPadded([], s, []);
  }

  /** `trim` is idempotent. */
  lemma TrimIdempotent(s: string)
    ensures Trim(Trim(s)) == Trim(s)
  {
    TrimOfTrimmed(Trim(s));
  }

  /** `trim` yields the empty string exactly when the input is all whitespace
      (this is when a JavaScript `s.trim()` is falsy). */
  lemma TrimEmptyIffAllWhitespace(s: string)
    ensures Trim(s) == [] <==> AllWhitespace(s)
  {
    if AllWhitespace(s) {
      assert s == s + [] + [];
      TrimOfPadded(s, [], []);
    }
    if Trim(s) == [] {
      var before, after := TrimSplits(s);
      assert s == before + after;
    }
  }
}
