/** The connection-string rewrite of `database.Connect`: before the driver is
    opened, a connection string without a `timezone=` parameter gets
    `timezone=Asia/Jakarta`, as a new query string or appended to the existing
    one. Opening and pinging the database are not modelled. */
module Database {
  import opened Common

  /** `strings.Contains`, scanning from the left. */
  predicate Contains(s: string, sub: string)
    ensures Contains(s, sub) ==> |sub| <= |s|
    decreases |s|
  {
    sub <= s || (|s| > 0 && Contains(s[1..], sub))
  }

  /** `sub` occurs in `s` starting at offset `i`. */
  predicate OccursAt(s: string, sub: string, i: int) {
    0 <= i <= |s| - |sub| && s[i..i + |sub|] == sub
  }

  /** Where `Contains` finds `sub`. */
  lemma {:induction false} ContainsAt(s: string, sub: string) returns (i: int)
    requires Contains(s, sub)
    ensures OccursAt(s, sub, i)
    decreases |s|
  {
    if sub <= s {
      i := 0;
      assert s[0..|sub|] == sub;
    } else {
      var j := ContainsAt(s[1..], sub);
      assert s[1..][j..j + |sub|] == s[j + 1..j + 1 + |sub|];
      i := j + 1;
    }
  }

  /** An occurrence at offset `i` is found by `Contains`. */
  lemma {:induction false} OccursThenContains(s: string, sub: string, i: int)
    requires OccursAt(s, sub, i)
    ensures Contains(s, sub)
    decreases i
  {
    if i == 0 {
      assert s[..|sub|] == s[0..|sub|];
    } else {
      assert s[1..][i - 1..i - 1 + |sub|] == s[i..i + |sub|];
      OccursThenContains(s[1..], sub, i - 1);
    }
  }

  /** `Contains` agrees with the textbook definition: `sub` occurs at some offset. */
  lemma ContainsIff(s: string, sub: string)
    ensures Contains(s, sub) <==> exists i :: OccursAt(s, sub, i)
  {
    if Contains(s, sub) {
      var i := ContainsAt(s, sub);
    }
    if exists i :: OccursAt(s, sub, i) {
      var i :| OccursAt(s, sub, i);
      OccursThenContains(s, sub, i);
    }
  }

  lemma {:induction false} ContainsInSuffix(a: string, b: string, sub: string)
    requires Contains(b, sub)
    ensures Contains(a + b, sub)
    decreases |a|
  {
    if |a| > 0 {
      ContainsInSuffix(a[1..], b, sub);
      assert (a + b)[1..] == a[1..] + b;
    } else {
      assert a + b == b;
    }
  }

  lemma {:induction false} ContainsInPrefix(a: string, b: string, sub: string)
    requires Contains(a, sub)
    ensures Contains(a + b, sub)
    decreases |a|
  {
    if !(sub <= a) {
      ContainsInPrefix(a[1..], b, sub);
      assert (a + b)[1..] == a[1..] + b;
    }
  }

  const TimezoneKey: string := "timezone="
  const TimezoneParam: string := "timezone=Asia/Jakarta"

  /** The connection string handed to the driver. */
  function WithTimezone(connStr: string): (r: string)
    ensures connStr <= r
    ensures Contains(r, TimezoneKey)
    ensures Contains(connStr, TimezoneKey) ==> r == connStr
    ensures !Contains(connStr, TimezoneKey) && Contains(connStr, "?") ==> r == connStr + "&" + TimezoneParam
    ensures !Contains(connStr, TimezoneKey) && !Contains(connStr, "?") ==> r == connStr + "?" + TimezoneParam
  {
    if Contains(connStr, TimezoneKey) then connStr
    else
      var sep := if Contains(connStr, "?") then "&" else "?";
      assert TimezoneKey <= TimezoneParam;
      ContainsInSuffix(sep, TimezoneParam, TimezoneKey);
      ContainsInSuffix(connStr, sep + TimezoneParam, TimezoneKey);
      assert connStr + (sep + TimezoneParam) == connStr + sep + TimezoneParam;
      connStr + sep + TimezoneParam
  }

  /** Rewriting twice is rewriting once. */
  lemma WithTimezoneIdempotent(connStr: string)
    ensures WithTimezone(WithTimezone(connStr)) == WithTimezone(connStr)
  {
  }

  /** A parameter already present anywhere, even after other parameters, is kept as is. */
  lemma ExistingTimezoneKept(base: string, rest: string)
    ensures WithTimezone(base + TimezoneKey + rest) == base + TimezoneKey + rest
  {
    assert TimezoneKey <= TimezoneKey + rest;
    ContainsInSuffix(base, TimezoneKey + rest, TimezoneKey);
    assert base + TimezoneKey + rest == base + (TimezoneKey + rest);
  }

  datatype ConnectError = EmptyConnectionString

  /** The text `Connect` returns for each error. */
  function ErrorMessage(e: ConnectError): string {
    match e
    case EmptyConnectionString => "connection string is empty"
  }

  /** The part of `Connect` before the driver is opened: an empty string is an
      error, anything else is rewritten. */
  function Connect(connStr: string): (r: Result<string, ConnectError>)
    ensures r.Failure? <==> connStr == ""
    ensures r.Failure? ==> ErrorMessage(r.error) == "connection string is empty"
    ensures r.Success? ==> r.value == WithTimezone(connStr)
  {
    if connStr == "" then Failure(EmptyConnectionString) else Success(WithTimezone(connStr))
  }
}
