/** Small building blocks shared by every module: failure-carrying results and
    the few pieces of Go's `strings` and `strconv` packages the core relies on.

    A Go `string` and a Go `[]byte` are both modelled as `string`, one character
    per byte, so the conversions `string(b)` and `[]byte(s)` are the identity. */
module Common {

  datatype Option<T> = None | Some(value: T)

  datatype Result<T, E> = Success(value: T) | Failure(error: E)

  /** `strings.TrimPrefix`: drops `prefix` once if `s` starts with it. */
  function TrimPrefix(s: string, prefix: string): (r: string)
    ensures prefix <= s ==> prefix + r == s
    ensures !(prefix <= s) ==> r == s
  {
    if prefix <= s then s[|prefix|..] else s
  }

  /** The prefix is removed at most once: whatever follows it is kept verbatim,
      even when that begins with the prefix again. */
  lemma TrimPrefixOnce(prefix: string, rest: string)
    ensures TrimPrefix(prefix + rest, prefix) == rest
  {
    assert prefix <= prefix + rest;
  }

  /** `strings.Join`. */
  function Join(parts: seq<string>, sep: string): string
    decreases |parts|
  {
    if |parts| == 0 then ""
    else if |parts| == 1 then parts[0]
    else parts[0] + sep + Join(parts[1..], sep)
  }

  // ---------------------------------------------------------------------------
  // Decimal integers as `strconv.Atoi` / `strconv.ParseInt(s, 10, 64)` read them
  // and as `fmt`'s `%d` writes them.
  // ---------------------------------------------------------------------------

  const MinInt64: int := -0x8000_0000_0000_0000
  const MaxInt64: int := 0x7FFF_FFFF_FFFF_FFFF

  predicate IsDigit(c: char) {
    '0' <= c <= '9'
  }

  predicate AllDigits(s: string) {
    forall i :: 0 <= i < |s| ==> IsDigit(s[i])
  }

  /** The value of a run of decimal digits, read left to right. */
  function DigitsValue(s: string): nat
    requires AllDigits(s)
    decreases |s|
  {
    if |s| == 0 then 0
    else DigitsValue(s[..|s| - 1]) * 10 + (s[|s| - 1] as int - '0' as int)
  }

  /** Go's base-10 integer parse for a 64-bit target: an optional `+` or `-`,
      then at least one digit and nothing else (no spaces, no underscores);
      values outside the int64 range are a range error. */
  function ParseInt64(s: string): (r: Option<int>)
    ensures r.Some? ==> MinInt64 <= r.value <= MaxInt64
    ensures r.Some? ==> |s| > 0 && (IsDigit(s[0]) || s[0] == '+' || s[0] == '-')
  {
    if |s| == 0 then None
    else
      var digits := if s[0] == '+' || s[0] == '-' then s[1..] else s;
      if |digits| == 0 || !AllDigits(digits) then None
      else
        var v: int := if s[0] == '-' then -(DigitsValue(digits) as int) else DigitsValue(digits);
        if MinInt64 <= v <= MaxInt64 then Some(v) else None
  }

  function DigitChar(d: nat): char
    requires d < 10
  {
    ('0' as int + d) as char
  }

  /** `%d` of a non-negative integer: no sign, no leading zeros. */
  function FormatNat(n: nat): string
    decreases n
  {
    if n < 10 then [DigitChar(n)] else FormatNat(n / 10) + [DigitChar(n % 10)]
  }

  /** `%d` of any integer. */
  function FormatInt(n: int): string {
    if n < 0 then "-" + FormatNat(-n) else FormatNat(n)
  }

  lemma {:induction false} FormatNatDigits(n: nat)
    ensures |FormatNat(n)| > 0 && AllDigits(FormatNat(n))
    ensures DigitsValue(FormatNat(n)) == n
    decreases n
  {
    var s := FormatNat(n);
    if n >= 10 {
      FormatNatDigits(n / 10);
      assert s[..|s| - 1] == FormatNat(n / 10);
    }
  }

  /** Writing an int64 with `%d` and reading it back with `strconv` is the identity. */
  lemma ParseFormatRoundTrip(n: int)
    requires MinInt64 <= n <= MaxInt64
    ensures ParseInt64(FormatInt(n)) == Some(n)
  {
    if n < 0 {
      FormatNatDigits(-n);
      assert FormatInt(n)[1..] == FormatNat(-n);
    } else {
      FormatNatDigits(n);
    }
  }

  /** Anything `strconv` accepts has a sign or a digit first, so text that starts
      with another character (a `/`, a space) is always rejected. */
  lemma ParseRejectsLeadingNonDigit(s: string)
    requires |s| > 0 && !IsDigit(s[0]) && s[0] != '+' && s[0] != '-'
    ensures ParseInt64(s).None?
  {
  }
}
