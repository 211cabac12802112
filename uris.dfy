/** Values of `android.net.Uri` as the provider sees them, Java's `long`, and the
    decimal text that `ContentUris.withAppendedId` writes for an id. */
module Uris {
  import opened Wrappers

  /** Java's `long`, the width of the row ids the store hands out. */
  const LONG_MIN: int := -0x8000_0000_0000_0000
  const LONG_MAX: int := 0x7FFF_FFFF_FFFF_FFFF
  type Long = x: int | LONG_MIN <= x <= LONG_MAX

  /** A hierarchical URI: scheme, authority (absent for `content:foo`), the
      decoded path segments, and the decoded query parameters in order. */
  datatype Uri = Uri(scheme: string, authority: Option<string>, path: seq<string>, query: seq<(string, string)>)

  /** `Uri.Builder.appendPath`: one more path segment, everything else kept. */
  function AppendPath(u: Uri, segment: string): Uri
  {
    u.(path := u.path + [segment])
  }

  /** The value of the first parameter named `key`, or None when there is none. */
  function Lookup(params: seq<(string, string)>, key: string): (r: Option<string>)
    ensures r.None? <==> forall i :: 0 <= i < |params| ==> params[i].0 != key
    ensures r.Some? ==> exists i :: 0 <= i < |params| && params[i] == (key, r.value)
                                    && forall j :: 0 <= j < i ==> params[j].0 != key
  {
    if params == [] then None
    else if params[0].0 == key then Some(params[0].1)
    else
      var r := Lookup(params[1..], key);
      assert forall i :: 1 <= i < |params| ==> params[i] == params[1..][i - 1];
      r
  }

  /** `Uri.getQueryParameter`: the first value given for `key`, or null. */
  function QueryParameter(u: Uri, key: string): Option<string>
  {
    Lookup(u.query, key)
  }

  predicate IsDigit(c: char)
  {
    '0' <= c <= '9'
  }

  predicate AllDigits(s: string)
  {
    forall i :: 0 <= i < |s| ==> IsDigit(s[i])
  }

  function DigitValue(c: char): nat
    requires IsDigit(c)
  {
    c as int - '0' as int
  }

  function DigitChar(d: nat): (c: char)
    requires d < 10
    ensures IsDigit(c) && DigitValue(c) == d
  {
    ('0' as int + d) as char
  }

  /** The decimal digits of `n`, most significant first, without leading zeros. */
  function NatToString(n: nat): (s: string)
    ensures |s| >= 1 && AllDigits(s)
    ensures s[0] == '0' ==> n == 0
    decreases n
  {
    if n < 10 then [DigitChar(n)] else NatToString(n / 10) + [DigitChar(n % 10)]
  }

  /** `String.valueOf(long)`: a minus sign for negative values, then the digits. */
  function LongToString(n: Long): (s: string)
    ensures |s| >= 1
    ensures AllDigits(s) <==> n >= 0
    ensures n < 0 ==> s[0] == '-' && AllDigits(s[1..]) && ParseDigits(s[1..]) == -(n as int)
  {
    if n < 0 then
      var digits := NatToString(-(n as int));
      var s := "-" + digits;
      assert !IsDigit(s[0]);
      assert s[1..] == digits;
      ParseNatToString(-(n as int));
      s
    else NatToString(n)
  }

  /** The number written by a string of decimal digits. */
  function ParseDigits(s: string): nat
    requires AllDigits(s)
    decreases |s|
  {
    if s == [] then 0 else 10 * ParseDigits(s[..|s| - 1]) + DigitValue(s[|s| - 1])
  }

  /** Reading back the digits of `n` gives `n`. */
  lemma {:induction false} ParseNatToString(n: nat)
    ensures ParseDigits(NatToString(n)) == n
    decreases n
  {
    if n >= 10 {
      var s := NatToString(n);
      ParseNatToString(n / 10);
      assert s[..|s| - 1] == NatToString(n / 10);
    }
  }

  /** A non-negative id is written as plain digits that read back as the id. */
  lemma ParseLongToString(n: Long)
    requires n >= 0
    ensures AllDigits(LongToString(n)) && ParseDigits(LongToString(n)) == n
  {
    ParseNatToString(n);
  }
}
