/**
 * The Python string operations the forms and the username generator rely on.
 *
 * Python's `strip`, `isdigit`, `isalnum` and `lower` are Unicode-aware. Here
 * `strip` removes ASCII whitespace only, `isdigit` accepts ASCII digits only, `isalnum` and
 * `lower` cover ASCII letters and digits plus the basic Cyrillic alphabet (А-я, Ё, ё) that the
 * application's company names are written in.
 */
module Text {
  import opened Wrappers


  /** `c.isspace()` on ASCII: space, \t \n \v \f \r and the separators 0x1c-0x1f. */
  predicate IsSpace(c: char) {
    var n := c as int;
    n == 32 || 9 <= n <= 13 || 28 <= n <= 31
  }

  predicate AllSpace(s: string) {
    forall i :: 0 <= i < |s| ==> IsSpace(s[i])
  }

  /**
   * `s.strip()`: drops the leading and the trailing whitespace. The result neither starts nor
   * ends with whitespace and is empty exactly when `s` is all whitespace; `StripIsSlice`
   * shows it is a contiguous piece of `s` with only whitespace around it.
   */
  function Strip(s: string): (r: string)
    ensures |r| <= |s|
    ensures r == [] || (!IsSpace(r[0]) && !IsSpace(r[|r| - 1]))
    ensures r == [] <==> AllSpace(s)
    decreases |s|
  {
    if s == [] then s
    else if IsSpace(s[0]) then
      var r := Strip(s[1..]);
      assert forall i | 0 <= i < |s| - 1 :: s[1..][i] == s[i + 1];
      r
    else if IsSpace(s[|s| - 1]) then
      var r := Strip(s[..|s| - 1]);
      assert forall i | 0 <= i < |s| - 1 :: s[..|s| - 1][i] == s[i];
      r
    else s
  }

  /** `r` is the piece of `s` starting at `lo`. */
  predicate SliceAt(s: string, r: string, lo: int) {
    0 <= lo <= |s| - |r| && r == s[lo..lo + |r|]
  }

  /** `r` is the piece of `s` starting at `lo`, and everything around it is whitespace. */
  predicate TrimmedAt(s: string, r: string, lo: int) {
    SliceAt(s, r, lo) && AllSpace(s[..lo]) && AllSpace(s[lo + |r|..])
  }

  /**
   * What `strip` keeps is one contiguous piece of the text, and what it drops is whitespace
   * before and after that piece: nothing inside it is touched.
   */
  lemma {:induction false} StripIsSlice(s: string)
    ensures exists lo :: TrimmedAt(s, Strip(s), lo)
    decreases |s|
  {
    if s == [] || (!IsSpace(s[0]) && !IsSpace(s[|s| - 1])) {
      assert TrimmedAt(s, Strip(s), 0);
    } else if IsSpace(s[0]) {
      var rest := s[1..];
      assert Strip(s) == Strip(rest);
      StripIsSlice(rest);
      var lo :| TrimmedAt(rest, Strip(rest), lo);
      TrimmedInTail(s, Strip(s), lo);
    } else {
      var rest := s[..|s| - 1];
      assert Strip(s) == Strip(rest);
      StripIsSlice(rest);
      var lo :| TrimmedAt(rest, Strip(rest), lo);
      TrimmedInFront(s, Strip(s), lo);
    }
  }

  lemma TrimmedInTail(s: string, r: string, lo: int)
    requires s != [] && IsSpace(s[0]) && TrimmedAt(s[1..], r, lo)
    ensures TrimmedAt(s, r, lo + 1)
  {
    assert s[1..][lo..lo + |r|] == s[lo + 1..lo + 1 + |r|];
    assert s[..lo + 1] == [s[0]] + s[1..][..lo];
    assert s[lo + 1 + |r|..] == s[1..][lo + |r|..];
  }

  lemma TrimmedInFront(s: string, r: string, lo: int)
    requires s != [] && IsSpace(s[|s| - 1]) && TrimmedAt(s[..|s| - 1], r, lo)
    ensures TrimmedAt(s, r, lo)
  {
    assert s[..|s| - 1][lo..lo + |r|] == s[lo..lo + |r|];
    assert s[..lo] == s[..|s| - 1][..lo];
    assert s[lo + |r|..] == s[..|s| - 1][lo + |r|..] + [s[|s| - 1]];
  }

  /** A text that neither starts nor ends with whitespace is its own strip. */
  lemma StripOfTrimmed(s: string)
    requires s == [] || (!IsSpace(s[0]) && !IsSpace(s[|s| - 1]))
    ensures Strip(s) == s
  {
  }

  /** Stripping twice is stripping once. */
  lemma {:induction false} StripIdempotent(s: string)
    ensures Strip(Strip(s)) == Strip(s)
  {
    StripOfTrimmed(Strip(s));
  }

  predicate IsAsciiDigit(c: char) {
    '0' <= c <= '9'
  }

  /** `s.isdigit()`: non-empty and made of digits only. */
  predicate IsDigits(s: string) {
    |s| > 0 && forall i :: 0 <= i < |s| ==> IsAsciiDigit(s[i])
  }

  predicate IsUpperLetter(c: char) {
    'A' <= c <= 'Z' || 'А' <= c <= 'Я' || c == 'Ё'
  }

  predicate IsLowerLetter(c: char) {
    'a' <= c <= 'z' || 'а' <= c <= 'я' || c == 'ё'
  }

  /** `c.isalnum()` */
  predicate IsAlnum(c: char) {
    IsAsciiDigit(c) || IsUpperLetter(c) || IsLowerLetter(c)
  }

  /** `c.lower()`: upper-case letters become the matching lower-case letter. */
  function LowerChar(c: char): (r: char)
    ensures IsUpperLetter(c) ==> IsLowerLetter(r)
    ensures !IsUpperLetter(c) ==> r == c
    ensures IsAlnum(c) <==> IsAlnum(r)
  {
    if 'A' <= c <= 'Z' || 'А' <= c <= 'Я' then (c as int + 32) as char
    else if c == 'Ё' then 'ё'
    else c
  }

  function Lower(s: string): (r: string)
    ensures |r| == |s|
    ensures forall i :: 0 <= i < |s| ==> r[i] == LowerChar(s[i])
  {
    if s == [] then [] else [LowerChar(s[0])] + Lower(s[1..])
  }

  /** `''.join(c for c in s if c.isalnum())`: the alphanumeric characters of `s`, in order. */
  function KeepAlnum(s: string): (r: string)
    ensures |r| <= |s|
    ensures forall i :: 0 <= i < |r| ==> IsAlnum(r[i])
    ensures forall i :: 0 <= i < |s| && IsAlnum(s[i]) ==> s[i] in r
    ensures forall c :: c in r ==> c in s
  {
    if s == [] then []
    else if IsAlnum(s[0]) then [s[0]] + KeepAlnum(s[1..])
    else KeepAlnum(s[1..])
  }

  /** One character is kept exactly when it is alphanumeric. */
  lemma KeepAlnumChar(c: char)
    ensures KeepAlnum([c]) == if IsAlnum(c) then [c] else []
  {
  }

  /**
   * The filter works character by character, in order: filtering a concatenation is
   * concatenating the filtered parts. With `KeepAlnumChar` this fixes the result exactly.
   */
  lemma {:induction false} KeepAlnumAppend(a: string, b: string)
    ensures KeepAlnum(a + b) == KeepAlnum(a) + KeepAlnum(b)
    decreases |a|
  {
    if a == [] {
      assert a + b == b;
    } else {
      assert (a + b)[0] == a[0] && (a + b)[1..] == a[1..] + b;
      KeepAlnumAppend(a[1..], b);
    }
  }

  // ---- str(n) and int(text) on decimal integers ----

  function DigitValue(c: char): nat
    requires IsAsciiDigit(c)
  {
    c as int - '0' as int
  }

  function DigitChar(d: nat): (c: char)
    requires d < 10
    ensures IsAsciiDigit(c) && DigitValue(c) == d
  {
    ('0' as int + d) as char
  }

  /** The value of a string of decimal digits, most significant first. */
  function DecimalValue(s: string): nat
    requires forall i :: 0 <= i < |s| ==> IsAsciiDigit(s[i])
    decreases |s|
  {
    if s == [] then 0 else DecimalValue(s[..|s| - 1]) * 10 + DigitValue(s[|s| - 1])
  }

  /** `str(n)` for a natural number: its decimal digits, without leading zeros. */
  function NatText(n: nat): (r: string)
    ensures IsDigits(r)
    ensures r[0] == '0' ==> n == 0
    decreases n
  {
    if n < 10 then [DigitChar(n)] else NatText(n / 10) + [DigitChar(n % 10)]
  }

  /** `str(n)`: a minus sign in front of negative numbers. */
  function IntText(n: int): (r: string)
    ensures r != [] && (r[0] == '-' <==> n < 0)
  {
    if n < 0 then "-" + NatText(-n) else NatText(n)
  }

  /**
   * `int(text)` on a decimal text: surrounding whitespace is ignored and one leading sign is
   * allowed; anything else raises, which is None here. `ParseIntOfIntText` reads every
   * `str(n)` back as `n`.
   */
  function ParseInt(text: string): (r: Option<int>)
    ensures var t := Strip(text);
      r.Some? <==> IsDigits(t) || (t != [] && (t[0] == '-' || t[0] == '+') && IsDigits(t[1..]))
    ensures r.Some? && r.value < 0 ==> Strip(text)[0] == '-'
    ensures r.Some? && IsDigits(Strip(text)) ==> r.value >= 0
  {
    var t := Strip(text);
    if t != [] && (t[0] == '-' || t[0] == '+') && IsDigits(t[1..]) then
      var magnitude: int := DecimalValue(t[1..]);
      Some(if t[0] == '-' then -magnitude else magnitude)
    else if IsDigits(t) then Some(DecimalValue(t))
    else None
  }

  lemma {:induction false} DecimalValueOfNatText(n: nat)
    ensures DecimalValue(NatText(n)) == n
    decreases n
  {
    if n >= 10 {
      var s := NatText(n);
      assert s[..|s| - 1] == NatText(n / 10);
      DecimalValueOfNatText(n / 10);
    }
  }

  /** `int(str(n)) == n`: the id a table cell shows reads back as the same id. */
  lemma {:induction false} ParseIntOfIntText(n: int)
    ensures ParseInt(IntText(n)) == Some(n)
  {
    var s := IntText(n);
    var digits := NatText(if n < 0 then -n else n);
    assert !IsSpace(s[0]) && !IsSpace(s[|s| - 1]) by {
      assert s[|s| - 1] == digits[|digits| - 1];
    }
    StripOfTrimmed(s);
    DecimalValueOfNatText(if n < 0 then -n else n);
    if n < 0 {
      assert s[1..] == digits;
    }
  }
}
