/** Shared building blocks: failure-compatible wrappers and the handful of Go/TypeScript
    string primitives (strings.TrimSpace, strings.ToLower, strings.Split, prefix and suffix
    tests, decimal digit parsing) that the rest of the model is written in. */
module Common {

  datatype Option<+T> = None | Some(value: T)

  datatype Result<+T, +E> = Ok(value: T) | Err(error: E)

  function Max(a: int, b: int): int { if a < b then b else a }

  // ---------------------------------------------------------------------------
  // Whitespace and trimming (Go's unicode.IsSpace and strings.TrimSpace)
  // ---------------------------------------------------------------------------

  /** Go's unicode.IsSpace: the Latin-1 spaces plus the Unicode White_Space code points. */
  predicate IsSpace(c: char) {
    c == ' ' || c == '\t' || c == '\n' || c == '\r' || c == '\U{000B}' || c == '\U{000C}'
    || c == '\U{0085}' || c == '\U{00A0}' || c == '\U{1680}'
    || ('\U{2000}' <= c <= '\U{200A}')
    || c == '\U{2028}' || c == '\U{2029}' || c == '\U{202F}' || c == '\U{205F}' || c == '\U{3000}'
  }

  /** No whitespace at either end. */
  predicate Trimmed(s: string) {
    (|s| == 0 || (!IsSpace(s[0]) && !IsSpace(s[|s| - 1])))
  }

  function TrimLeft(s: string): (r: string)
    ensures |r| <= |s| && r == s[|s| - |r|..]
    ensures r == [] || !IsSpace(r[0])
    ensures forall i :: 0 <= i < |s| - |r| ==> IsSpace(s[i])
  {
    if |s| > 0 && IsSpace(s[0]) then TrimLeft(s[1..]) else s
  }

  function TrimRight(s: string): (r: string)
    ensures |r| <= |s| && r == s[..|r|]
    ensures r == [] || !IsSpace(r[|r| - 1])
    ensures forall i :: |r| <= i < |s| ==> IsSpace(s[i])
  {
    if |s| > 0 && IsSpace(s[|s| - 1]) then TrimRight(s[..|s| - 1]) else s
  }

  /** strings.TrimSpace */
  function TrimSpace(s: string): string {
    TrimRight(TrimLeft(s))
  }

  /** The result of TrimSpace is trimmed and is the middle of the input with only
      whitespace cut away on either side. */
  lemma TrimSpaceIsTrimmed(s: string)
    ensures Trimmed(TrimSpace(s))
    ensures |TrimSpace(s)| <= |s|
    ensures TrimSpace(s) == "" <==> forall i :: 0 <= i < |s| ==> IsSpace(s[i])
  {
    var l := TrimLeft(s);
    var r := TrimRight(l);
    if r != [] {
      assert r[0] == l[0];
    }
  }

  lemma TrimLeftOfTrimmed(s: string)
    requires s == [] || !IsSpace(s[0])
    ensures TrimLeft(s) == s
  {
  }

  lemma TrimRightOfTrimmed(s: string)
    requires s == [] || !IsSpace(s[|s| - 1])
    ensures TrimRight(s) == s
  {
  }

  /** TrimSpace leaves an already trimmed string alone, so it is idempotent. */
  lemma TrimSpaceFixesTrimmed(s: string)
    requires Trimmed(s)
    ensures TrimSpace(s) == s
  {
    TrimLeftOfTrimmed(s);
    TrimRightOfTrimmed(s);
  }

  lemma TrimSpaceIdempotent(s: string)
    ensures TrimSpace(TrimSpace(s)) == TrimSpace(s)
  {
    TrimSpaceIsTrimmed(s);
    TrimSpaceFixesTrimmed(TrimSpace(s));
  }

  // ---------------------------------------------------------------------------
  // Case mapping
  // ---------------------------------------------------------------------------

  /** Lower-casing of one code point as far as comparisons against ASCII words are
      concerned: the ASCII letters, plus the two non-ASCII code points whose Go
      lower case is an ASCII letter (KELVIN SIGN and LATIN CAPITAL I WITH DOT ABOVE). */
  function LowerChar(c: char): char {
    if 'A' <= c <= 'Z' then (c as int + 32) as char
    else if c == '\U{212A}' then 'k'
    else if c == '\U{0130}' then 'i'
    else c
  }

  /** strings.ToLower, code point by code point. */
  function ToLower(s: string): (r: string)
    ensures |r| == |s|
    ensures forall i :: 0 <= i < |s| ==> r[i] == LowerChar(s[i])
  {
    seq(|s|, i requires 0 <= i < |s| => LowerChar(s[i]))
  }

  /** The simple case folding strings.EqualFold compares by, as a choice of one member of
      each fold orbit: ASCII and Latin-1 capitals fold onto their small letters, Y WITH
      DIAERESIS onto its Latin-1 small letter, and the KELVIN SIGN, the ANGSTROM SIGN and the
      LONG S onto 'k', small a with ring above and 's'. LATIN CAPITAL I WITH DOT ABOVE has no
      simple fold and stays itself. */
  function SimpleFold(c: char): (r: char)
    ensures 'A' <= c <= 'Z' ==> r == LowerChar(c)
    ensures c == '\U{0130}' ==> r == c
  {
    if 'A' <= c <= 'Z' then (c as int + 32) as char
    else if '\U{00C0}' <= c <= '\U{00DE}' && c != '\U{00D7}' then (c as int + 32) as char
    else if c == '\U{0178}' then '\U{00FF}'
    else if c == '\U{212A}' then 'k'
    else if c == '\U{212B}' then '\U{00E5}'
    else if c == '\U{017F}' then 's'
    else c
  }

  /** strings.EqualFold: the same number of code points, pairwise equal under simple case
      folding. */
  predicate EqualFold(a: string, b: string) {
    |a| == |b| && forall i :: 0 <= i < |a| ==> SimpleFold(a[i]) == SimpleFold(b[i])
  }

  /** Folding agrees with Go on the letters that tell it apart from lower-casing: the long s
      matches 's', a dotted capital I does not match 'i', Latin-1 capitals match their small
      letters, and the multiplication sign is not a letter. */
  lemma EqualFoldExamples()
    ensures EqualFold("\U{017F}", "S")
    ensures !EqualFold("\U{0130}", "i")
    ensures EqualFold("M\U{00DC}NCHEN.DE", "m\U{00FC}nchen.de")
    ensures EqualFold("\U{212A}", "K")
    ensures !EqualFold("\U{00D7}", "\U{00F7}")
    ensures !EqualFold("https", "http")
  {
    assert !(SimpleFold("\U{0130}"[0]) == SimpleFold("i"[0]));
    assert !(SimpleFold("\U{00D7}"[0]) == SimpleFold("\U{00F7}"[0]));
  }

  // ---------------------------------------------------------------------------
  // Prefixes, suffixes, search, split
  // ---------------------------------------------------------------------------

  predicate HasPrefix(s: string, p: string) { p <= s }

  predicate HasSuffix(s: string, p: string) {
    |p| <= |s| && s[|s| - |p|..] == p
  }

  /** strings.Index for a single character: the first position of c, or None. */
  function IndexOfChar(s: string, c: char): (r: Option<nat>)
    ensures r.None? <==> c !in s
    ensures r.Some? ==> r.value < |s| && s[r.value] == c && c !in s[..r.value]
  {
    if |s| == 0 then None
    else if s[0] == c then Some(0)
    else
      var t := IndexOfChar(s[1..], c);
      if t.None? then None
      else
        assert s[..t.value + 1] == [s[0]] + s[1..][..t.value];
        Some(t.value + 1)
  }

  /** Number of occurrences of c in s. */
  function CountChar(s: string, c: char): nat {
    if |s| == 0 then 0 else (if s[0] == c then 1 else 0) + CountChar(s[1..], c)
  }

  /** strings.Split with a one-character separator: always at least one part. */
  function Split(s: string, sep: char): (parts: seq<string>)
    ensures |parts| >= 1
  {
    if |s| == 0 then [""]
    else
      var rest := Split(s[1..], sep);
      if s[0] == sep then [""] + rest
      else [[s[0]] + rest[0]] + rest[1..]
  }

  /** strings.Join with a one-character separator. */
  function Join(parts: seq<string>, sep: char): string
    requires |parts| >= 1
  {
    if |parts| == 1 then parts[0] else parts[0] + [sep] + Join(parts[1..], sep)
  }

  /** Split yields one more part than there are separators. */
  lemma {:induction false} SplitCount(s: string, sep: char)
    ensures |Split(s, sep)| == CountChar(s, sep) + 1
  {
    if |s| > 0 {
      SplitCount(s[1..], sep);
    }
  }

  /** No part of a split contains the separator. */
  lemma {:induction false} SplitPartsFree(s: string, sep: char)
    ensures forall k :: 0 <= k < |Split(s, sep)| ==> sep !in Split(s, sep)[k]
  {
    if |s| > 0 {
      SplitPartsFree(s[1..], sep);
    }
  }

  /** Joining the parts with the separator gives back the input. */
  lemma {:induction false} SplitJoin(s: string, sep: char)
    ensures Join(Split(s, sep), sep) == s
  {
    if |s| > 0 {
      var rest := Split(s[1..], sep);
      SplitJoin(s[1..], sep);
      if s[0] != sep && |rest| > 1 {
        assert Join(rest, sep) == rest[0] + [sep] + Join(rest[1..], sep);
      }
    }
  }

  /** A string without the separator is a single part. */
  lemma {:induction false} SplitWithoutSeparator(s: string, sep: char)
    requires sep !in s
    ensures Split(s, sep) == [s]
  {
    if |s| > 0 {
      SplitWithoutSeparator(s[1..], sep);
      assert [s[0]] + s[1..] == s;
    }
  }

  /** The text before the first separator is the first part. */
  lemma {:induction false} SplitAtSeparator(a: string, rest: string, sep: char)
    requires sep !in a
    ensures Split(a + [sep] + rest, sep) == [a] + Split(rest, sep)
  {
    if |a| > 0 {
      SplitAtSeparator(a[1..], rest, sep);
      assert (a + [sep] + rest)[1..] == a[1..] + [sep] + rest;
      assert [a[0]] + a[1..] == a;
    } else {
      assert (a + [sep] + rest)[1..] == rest;
    }
  }

  // ---------------------------------------------------------------------------
  // Decimal digits
  // ---------------------------------------------------------------------------

  predicate IsDigit(c: char) { '0' <= c <= '9' }

  predicate AllDigits(s: string) { forall i :: 0 <= i < |s| ==> IsDigit(s[i]) }

  /** The value of a string of decimal digits, most significant first. */
  function DigitsValue(s: string): (v: nat)
    requires AllDigits(s)
  {
    if |s| == 0 then 0 else DigitsValue(s[..|s| - 1]) * 10 + (s[|s| - 1] as int - '0' as int)
  }

  /** Parses an optionally signed decimal integer; anything else is None. */
  function ParseInteger(s: string): (r: Option<int>)
    ensures r.Some? ==> |s| > 0
  {
    if |s| > 0 && (s[0] == '-' || s[0] == '+') then
      var body := s[1..];
      if |body| > 0 && AllDigits(body) then
        var v: int := if s[0] == '-' then -(DigitsValue(body) as int) else DigitsValue(body);
        Some(v)
      else None
    else if |s| > 0 && AllDigits(s) then Some(DigitsValue(s))
    else None
  }
}
