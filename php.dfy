/** The few rules of the PHP language that the cargo webhook relies on,
    stated for the value types the pipeline handles. */
module Php {

  /** A key that may be absent. `None` stands for a key that is missing or
      holds null: PHP's `??` and `isset` treat both alike. */
  datatype Option<+T> = None | Some(value: T) {
    /** `$x ?? default` */
    function GetOr(default: T): T {
      match this
      case Some(v) => v
      case None => default
    }
  }

  /** A decoded JSON value as `json_decode($text, true)` gives it back:
      objects become ordered string-keyed arrays. */
  datatype Json =
    | Null
    | Boolean(b: bool)
    | Number(n: real)
    | Str(s: string)
    | Array(items: seq<Json>)
    | Object(members: seq<(string, Json)>)

  /** `empty($s)` for a string: true exactly for "" and "0", that is, for
      the empty string and for the one-character string "0" and nothing
      longer. */
  predicate IsEmptyString(s: string): (r: bool)
    ensures |s| == 0 ==> r
    ensures |s| == 1 ==> (r <==> s[0] == '0')
    ensures |s| >= 2 ==> !r
  {
    s == "" || s == "0"
  }

  /** PHP's conversion of a decoded JSON value to bool (as in `if ($x)`,
      `!$x` and `?:`): null, false, 0, "", "0" and empty arrays are false. */
  predicate Truthy(j: Json): (r: bool)
    ensures r <==> j !in FalsyValues
  {
    match j
    case Null => false
    case Boolean(b) => b
    case Number(n) => n != 0.0
    case Str(s) => !IsEmptyString(s)
    case Array(items) => items != []
    case Object(members) => members != []
  }

  /** The decoded values PHP converts to false, listed one by one. */
  const FalsyValues: set<Json> :=
    {Null, Boolean(false), Number(0.0), Str(""), Str("0"), Array([]), Object([])}

  /** `round($x)`: the nearest integer, halves rounded away from zero. */
  function Round(x: real): (r: int)
    ensures 0.0 <= x ==> r as real - 0.5 <= x < r as real + 0.5
    ensures x < 0.0 ==> r as real - 0.5 < x <= r as real + 0.5
  {
    if 0.0 <= x then (x + 0.5).Floor else -((0.5 - x).Floor)
  }

  /** Rounding never reverses the order of two amounts. */
  lemma RoundMonotone(x: real, y: real)
    requires x <= y
    ensures Round(x) <= Round(y)
  {
  }

  /** `strpos($haystack, $needle) !== false` */
  predicate Contains(haystack: string, needle: string): (r: bool)
    ensures r <==> exists before, after :: haystack == before + needle + after
    ensures r && needle != [] ==> needle[0] in haystack
  {
    FoundAtSplit(haystack, needle);
    exists k :: 0 <= k <= |haystack| && needle <= haystack[k..]
  }

  /** A needle occurs at some offset exactly when the haystack splits
      around it. */
  lemma FoundAtSplit(haystack: string, needle: string)
    ensures (exists k :: 0 <= k <= |haystack| && needle <= haystack[k..])
        <==> (exists before, after :: haystack == before + needle + after)
  {
    if exists k :: 0 <= k <= |haystack| && needle <= haystack[k..] {
      var k :| 0 <= k <= |haystack| && needle <= haystack[k..];
      var before, after := haystack[..k], haystack[k + |needle|..];
      assert haystack == before + needle + after;
    }
    if exists before, after :: haystack == before + needle + after {
      var before, after :| haystack == before + needle + after;
      assert needle <= haystack[|before|..];
    }
  }

  /** A needle whose first character never occurs in the haystack is not found. */
  lemma FirstCharAbsent(haystack: string, needle: string)
    requires needle != [] && needle[0] !in haystack
    ensures !Contains(haystack, needle)
  {
    forall k | 0 <= k <= |haystack|
      ensures !(needle <= haystack[k..])
    {
      if k < |haystack| {
        assert haystack[k] in haystack;
      }
    }
  }

  predicate IsDigit(c: char) {
    '0' as int <= c as int <= '9' as int
  }

  function DigitChar(d: nat): (c: char)
    requires d < 10
    ensures IsDigit(c) && (c as int) - ('0' as int) == d
  {
    (('0' as int) + d) as char
  }

  /** The decimal text PHP writes when an integer is interpolated into a
      string (`"HTTP $code"`), for non-negative integers. */
  function NatToDecimal(n: nat): (s: string)
    ensures s != [] && forall i :: 0 <= i < |s| ==> IsDigit(s[i])
    ensures |s| > 1 ==> s[0] != '0'
    ensures n < 10 <==> |s| == 1
  {
    if n < 10 then [DigitChar(n)] else NatToDecimal(n / 10) + [DigitChar(n % 10)]
  }

  /** The number a string of decimal digits denotes. */
  function DecimalValue(s: string): nat
    requires forall i :: 0 <= i < |s| ==> IsDigit(s[i])
  {
    if s == [] then 0
    else
      assert IsDigit(s[|s| - 1]);
      DecimalValue(s[..|s| - 1]) * 10 + ((s[|s| - 1] as int) - ('0' as int))
  }

  /** Reading back the decimal text gives the number that was written. */
  lemma {:induction false} DecimalRoundTrip(n: nat)
    ensures DecimalValue(NatToDecimal(n)) == n
  {
    if n >= 10 {
      var s := NatToDecimal(n);
      var prefix := NatToDecimal(n / 10);
      assert s[..|s| - 1] == prefix;
      DecimalRoundTrip(n / 10);
    }
  }
}
