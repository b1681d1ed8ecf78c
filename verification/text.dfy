/**
 * The three string operations the screens rely on: `String.prototype.trim`,
 * `toLowerCase` (restricted to ASCII letters) and `includes`.
 */
module Text {

  /** The characters `trim` removes: ECMAScript WhiteSpace and LineTerminator. */
  predicate IsWhitespace(c: char) {
    || c == '\t' || c == '\n' || c == '\U{000B}' || c == '\U{000C}' || c == '\r'
    || c == ' ' || c == '\U{00A0}' || c == '\U{1680}'
    || ('\U{2000}' <= c <= '\U{200A}')
    || c == '\U{2028}' || c == '\U{2029}' || c == '\U{202F}' || c == '\U{205F}'
    || c == '\U{3000}' || c == '\U{FEFF}'
  }

  /** Every character of `s` is whitespace (so `s.trim()` is falsy). */
  predicate IsBlank(s: string) {
    forall i :: 0 <= i < |s| ==> IsWhitespace(s[i])
  }

  /** `s` with its leading whitespace removed: a suffix of `s` that does not start with whitespace. */
  function TrimStart(s: string): (r: string)
    ensures |r| <= |s| && r == s[|s| - |r|..]
    ensures r == [] || !IsWhitespace(r[0])
    ensures IsBlank(s[..|s| - |r|])
  {
    if s != [] && IsWhitespace(s[0]) then
      var t := s[1..];
      var r := TrimStart(t);
      assert s[|s| - |r|..] == t[|t| - |r|..];
      forall i | 0 < i < |s| - |r|
        ensures IsWhitespace(s[i])
      {
        assert s[i] == t[..|t| - |r|][i - 1];
      }
      r
    else s
  }

  /** `s` with its trailing whitespace removed: a prefix of `s` that does not end with whitespace. */
  function TrimEnd(s: string): (r: string)
    ensures |r| <= |s| && r == s[..|r|]
    ensures r == [] || !IsWhitespace(r[|r| - 1])
    ensures IsBlank(s[|r|..])
  {
    if s != [] && IsWhitespace(s[|s| - 1]) then
      var init := s[..|s| - 1];
      var r := TrimEnd(init);
      assert s[..|r|] == init[..|r|];
      assert s[|r|..] == init[|r|..] + [s[|s| - 1]];
      r
    else s
  }

  /** `r` is `s` with the blank prefix `s[..i]` and a blank suffix cut off. */
  predicate StripsTo(s: string, r: string, i: int) {
    && 0 <= i <= |s| - |r|
    && r == s[i..i + |r|]
    && IsBlank(s[..i]) && IsBlank(s[i + |r|..])
  }

  /**
   * `s.trim()`: the middle of `s` left after cutting off a whitespace prefix and a
   * whitespace suffix, and neither end of it is whitespace.
   */
  function Trim(s: string): (r: string)
    ensures |r| <= |s|
    ensures exists i :: StripsTo(s, r, i)
    ensures r == [] || (!IsWhitespace(r[0]) && !IsWhitespace(r[|r| - 1]))
    ensures r == [] <==> IsBlank(s)
  {
    var t := TrimStart(s);
    var r := TrimEnd(t);
    TrimStrips(s, t, r);
    r
  }

  /**
   * Cutting a blank prefix from `s`, leaving `t`, then a blank suffix from `t`,
   * leaving `r`, leaves the middle of `s`; `r` is empty exactly when `s` is blank.
   */
  lemma {:induction false} TrimStrips(s: string, t: string, r: string)
    requires |t| <= |s| && t == s[|s| - |t|..] && IsBlank(s[..|s| - |t|])
    requires |r| <= |t| && r == t[..|r|] && IsBlank(t[|r|..])
    requires r == [] || !IsWhitespace(r[0])
    ensures StripsTo(s, r, |s| - |t|)
    ensures r == [] <==> IsBlank(s)
  {
    var i := |s| - |t|;
    assert s[i..i + |r|] == t[..|r|];
    assert s[i + |r|..] == t[|r|..];
    if r == [] {
      assert s == s[..i] + t[|r|..];
      BlankConcat(s[..i], t[|r|..]);
    } else {
      assert s[i] == r[0];
    }
  }

  /** Two blank strings make a blank string. */
  lemma {:induction false} BlankConcat(a: string, b: string)
    requires IsBlank(a) && IsBlank(b)
    ensures IsBlank(a + b)
  {
    forall k | 0 <= k < |a + b|
      ensures IsWhitespace((a + b)[k])
    {
      if k >= |a| {
        assert (a + b)[k] == b[k - |a|];
      }
    }
  }

  /** A string that neither starts nor ends with whitespace is its own trim. */
  lemma TrimUnpadded(s: string)
    requires s != [] && !IsWhitespace(s[0]) && !IsWhitespace(s[|s| - 1])
    ensures Trim(s) == s
  {
    assert TrimStart(s) == s;
    assert TrimEnd(s) == s;
  }

  /** Trimming twice is trimming once. */
  lemma TrimIdempotent(s: string)
    ensures Trim(Trim(s)) == Trim(s)
  {
    var r := Trim(s);
    if r != [] {
      TrimUnpadded(r);
    }
  }

  predicate IsAsciiUpper(c: char) {
    'A' <= c <= 'Z'
  }

  function LowerChar(c: char): char {
    if IsAsciiUpper(c) then (c as int + 32) as char else c
  }

  /** `s.toLowerCase()` for ASCII letters; every other character is kept. */
  function ToLowerAscii(s: string): (r: string)
    ensures |r| == |s|
    ensures forall i :: 0 <= i < |r| ==> !IsAsciiUpper(r[i])
    ensures forall i :: 0 <= i < |r| && !IsAsciiUpper(s[i]) ==> r[i] == s[i]
    ensures forall i :: 0 <= i < |r| && IsAsciiUpper(s[i]) ==> r[i] as int == s[i] as int + 32
  {
    seq(|s|, i requires 0 <= i < |s| => LowerChar(s[i]))
  }

  /** Lower-casing an already lower-cased string changes nothing. */
  lemma ToLowerIdempotent(s: string)
    ensures ToLowerAscii(ToLowerAscii(s)) == ToLowerAscii(s)
  {
  }

  /** `s.includes(t)`: `t` occurs in `s` at some position. */
  predicate Includes(s: string, t: string): (ok: bool)
    ensures t == [] ==> ok
    ensures ok ==> |t| <= |s|
  {
    (|t| <= |s| && s[..|t|] == t) || (s != [] && Includes(s[1..], t))
  }

  /** `t` occurs in `s` starting at position `k`. */
  predicate OccursAt(s: string, t: string, k: int) {
    0 <= k && k + |t| <= |s| && s[k..k + |t|] == t
  }

  /** `Includes` agrees with the definition by position. */
  lemma {:induction false} IncludesIffOccurs(s: string, t: string)
    ensures Includes(s, t) <==> exists k :: OccursAt(s, t, k)
  {
    if Includes(s, t) {
      if |t| <= |s| && s[..|t|] == t {
        assert OccursAt(s, t, 0);
      } else {
        IncludesIffOccurs(s[1..], t);
        var k :| OccursAt(s[1..], t, k);
        assert s[1..][k..k + |t|] == s[k + 1..k + 1 + |t|];
        assert OccursAt(s, t, k + 1);
      }
    }
    if exists k :: OccursAt(s, t, k) {
      var k :| OccursAt(s, t, k);
      if k > 0 {
        assert s[1..][k - 1..k - 1 + |t|] == s[k..k + |t|];
        assert OccursAt(s[1..], t, k - 1);
        IncludesIffOccurs(s[1..], t);
      } else {
        assert s[..|t|] == s[k..k + |t|];
      }
    }
  }

  /** Every string includes the empty string. */
  lemma IncludesEmpty(s: string)
    ensures Includes(s, "")
  {
  }
}
