/**
 * The string operations the completion parsers apply: Python's `str.strip()`
 * and `str.lower()`, restricted to ASCII.
 */
module Text {

  /** Python's `str.isspace` on ASCII: tab, line feed, vertical tab, form feed,
      carriage return, the four information separators 0x1c-0x1f, and space. */
  predicate IsSpace(c: char) {
    var n := c as int;
    n == 32 || 9 <= n <= 13 || 28 <= n <= 31
  }

  predicate IsUpper(c: char) {
    'A' <= c <= 'Z'
  }

  predicate AllSpace(s: string) {
    forall i :: 0 <= i < |s| ==> IsSpace(s[i])
  }

  /** Neither end of `s` is whitespace. */
  predicate Trimmed(s: string) {
    |s| > 0 ==> !IsSpace(s[0]) && !IsSpace(s[|s| - 1])
  }

  predicate NoUpper(s: string) {
    forall i :: 0 <= i < |s| ==> !IsUpper(s[i])
  }

  /** `t` consists of `w` with nothing but whitespace before and after it. */
  ghost predicate PaddedBy(t: string, w: string) {
    exists lo :: 0 <= lo <= |t| - |w| && t[lo..lo + |w|] == w
                 && AllSpace(t[..lo]) && AllSpace(t[lo + |w|..])
  }

  /** Python's `str.lstrip()` on ASCII. */
  function TrimStart(s: string): string {
    if |s| > 0 && IsSpace(s[0]) then TrimStart(s[1..]) else s
  }

  /** Python's `str.rstrip()` on ASCII. */
  function TrimEnd(s: string): string {
    if |s| > 0 && IsSpace(s[|s| - 1]) then TrimEnd(s[..|s| - 1]) else s
  }

  /** Python's `str.strip()` on ASCII. */
  function Strip(s: string): string {
    TrimEnd(TrimStart(s))
  }

  /** Python's `str.lower()` on one ASCII character. */
  function LowerChar(c: char): (d: char)
    ensures !IsUpper(d)
    ensures IsUpper(c) || d == c
    ensures IsSpace(d) == IsSpace(c)
  {
    if IsUpper(c) then (c as int + 32) as char else c
  }

  /** Python's `str.lower()` on ASCII. */
  function Lower(s: string): string {
    if s == [] then [] else [LowerChar(s[0])] + Lower(s[1..])
  }

  /** `lstrip` removes a prefix made only of whitespace and leaves a string
      that does not start with whitespace. */
  lemma {:induction false} TrimStartSpec(s: string)
    ensures var r := TrimStart(s);
            && |r| <= |s| && r == s[|s| - |r|..]
            && (forall i :: 0 <= i < |s| - |r| ==> IsSpace(s[i]))
            && (|r| > 0 ==> !IsSpace(r[0]))
  {
    if |s| > 0 && IsSpace(s[0]) {
      TrimStartSpec(s[1..]);
    }
  }

  /** `rstrip` removes a suffix made only of whitespace and leaves a string
      that does not end with whitespace. */
  lemma {:induction false} TrimEndSpec(s: string)
    ensures var r := TrimEnd(s);
            && |r| <= |s| && r == s[..|r|]
            && (forall i :: |r| <= i < |s| ==> IsSpace(s[i]))
            && (|r| > 0 ==> !IsSpace(r[|r| - 1]))
  {
    if |s| > 0 && IsSpace(s[|s| - 1]) {
      TrimEndSpec(s[..|s| - 1]);
    }
  }

  /** `strip` leaves a string with no whitespace at either end, and the input
      is that string with only whitespace before and after it. */
  lemma StripSpec(s: string)
    ensures Trimmed(Strip(s))
    ensures PaddedBy(s, Strip(s))
  {
    TrimStartSpec(s);
    TrimEndSpec(TrimStart(s));
    var lo := StripOffset(s);
    assert Strip(s) == s[lo..lo + |Strip(s)|];
  }

  /** Where the stripped text starts inside the input. */
  lemma StripOffset(s: string) returns (lo: nat)
    ensures lo + |Strip(s)| <= |s| && s[lo..lo + |Strip(s)|] == Strip(s)
    ensures AllSpace(s[..lo]) && AllSpace(s[lo + |Strip(s)|..])
  {
    var m := TrimStart(s);
    var r := TrimEnd(m);
    TrimStartOffset(s);
    TrimEndOffset(m);
    lo := |s| - |m|;
    assert s[lo..lo + |r|] == m[..|r|];
    assert s[lo + |r|..] == m[|r|..];
  }

  /** `lstrip` keeps a suffix and drops only whitespace. */
  lemma TrimStartOffset(s: string)
    ensures |TrimStart(s)| <= |s|
    ensures s[|s| - |TrimStart(s)|..] == TrimStart(s)
    ensures AllSpace(s[..|s| - |TrimStart(s)|])
  {
    TrimStartSpec(s);
  }

  /** `rstrip` keeps a prefix and drops only whitespace. */
  lemma TrimEndOffset(s: string)
    ensures |TrimEnd(s)| <= |s|
    ensures s[..|TrimEnd(s)|] == TrimEnd(s)
    ensures AllSpace(s[|TrimEnd(s)|..])
  {
    TrimEndSpec(s);
    var tail := s[|TrimEnd(s)|..];
    forall i | 0 <= i < |tail|
      ensures IsSpace(tail[i])
    {
      assert tail[i] == s[|TrimEnd(s)| + i];
    }
  }

  /** `lower` keeps the length, lowers every character in place and leaves no
      upper-case letter. */
  lemma {:induction false} LowerSpec(s: string)
    ensures |Lower(s)| == |s|
    ensures forall i :: 0 <= i < |s| ==> Lower(s)[i] == LowerChar(s[i])
    ensures NoUpper(Lower(s))
  {
    if s != [] {
      LowerSpec(s[1..]);
    }
  }

  /** A string that is all whitespace strips to the empty string. */
  lemma TrimStartAllSpace(s: string)
    requires AllSpace(s)
    ensures TrimStart(s) == []
  {
    TrimStartSpec(s);
  }

  /** Leading whitespace before a non-blank start is exactly what `lstrip` removes. */
  lemma TrimStartSkips(a: string, t: string)
    requires AllSpace(a)
    requires |t| > 0 && !IsSpace(t[0])
    ensures TrimStart(a + t) == t
  {
    var s := a + t;
    TrimStartSpec(s);
    assert s[|a|] == t[0];
  }

  /** Trailing whitespace after a non-blank end is exactly what `rstrip` removes. */
  lemma TrimEndSkips(t: string, b: string)
    requires AllSpace(b)
    requires |t| > 0 && !IsSpace(t[|t| - 1])
    ensures TrimEnd(t + b) == t
  {
    var s := t + b;
    TrimEndSpec(s);
    assert s[|t| - 1] == t[|t| - 1];
  }

  /** Whitespace around a trimmed string is exactly what `strip` removes. */
  lemma StripOfPadded(a: string, w: string, b: string)
    requires AllSpace(a) && AllSpace(b) && Trimmed(w)
    ensures Strip(a + w + b) == w
  {
    if |w| == 0 {
      assert a + w + b == a + b;
      assert AllSpace(a + b);
      TrimStartAllSpace(a + b);
    } else {
      assert a + w + b == a + (w + b);
      TrimStartSkips(a, w + b);
      TrimEndSkips(w, b);
    }
  }

  /** The trimmed string that `t` pads is unique: `Strip(t) == w` exactly
      when `w` is trimmed and `t` pads it. */
  lemma StripCharacterized(t: string, w: string)
    ensures Strip(t) == w <==> Trimmed(w) && PaddedBy(t, w)
  {
    if Strip(t) == w {
      StripSpec(t);
    }
    if Trimmed(w) && PaddedBy(t, w) {
      var lo :| 0 <= lo <= |t| - |w| && t[lo..lo + |w|] == w
                && AllSpace(t[..lo]) && AllSpace(t[lo + |w|..]);
      StripOfPaddedAt(t, w, lo);
    }
  }

  lemma StripOfPaddedAt(t: string, w: string, lo: nat)
    requires lo + |w| <= |t| && t[lo..lo + |w|] == w && Trimmed(w)
    requires AllSpace(t[..lo]) && AllSpace(t[lo + |w|..])
    ensures Strip(t) == w
  {
    var a, b := t[..lo], t[lo + |w|..];
    assert t == a + w + b;
    StripOfPadded(a, w, b);
  }

  /** Lowering does not change which characters are whitespace. */
  lemma LowerKeepsTrimmed(s: string)
    requires Trimmed(s)
    ensures Trimmed(Lower(s))
  {
    LowerSpec(s);
  }
}
