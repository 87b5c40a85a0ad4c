/** The optional-value datatype shared by the modules below. */
module Wrappers {

  /** `None` plays the part of PHP's `false`/`null` where a script reads a value that may be missing. */
  datatype Option<+T> = None | Some(value: T)
}

/**
 The few pieces of PHP value semantics the two scripts depend on: `getenv`, the
 truthiness of the strings it returns, the short ternary `?:`, `str_contains`, and
 the decimal rendering of an integer in string concatenation.
 */
module Php {
  import opened Wrappers

  /** The process environment: variable name to value. */
  type Env = map<string, string>

  /** `getenv(name)`: the value, or `false` (here `None`) when the variable is unset. */
  function Getenv(env: Env, name: string): Option<string>
  {
    if name in env then Some(env[name]) else None
  }

  /** PHP truthiness of a `getenv` result: `false`, `""` and `"0"` are falsy, every other string is truthy. */
  predicate Truthy(v: Option<string>)
    ensures Truthy(v) <==> v.Some? && (|v.value| > 1 || (|v.value| == 1 && v.value[0] != '0'))
  {
    v.Some? && v.value != "" && v.value != "0"
  }

  /** `a ?: b` where `b` is already a string: `a` when it is truthy, otherwise `b`. */
  function Elvis(a: Option<string>, b: string): (r: string)
    ensures Truthy(a) ==> r == a.value
    ensures r != b ==> Truthy(a) && r == a.value
  {
    if Truthy(a) then a.value else b
  }

  /** A chain `getenv(x1) ?: getenv(x2) ?: ... ?: default`, candidates tried left to right. */
  function Fallback(candidates: seq<Option<string>>, default: string): (r: string)
    ensures (forall i :: 0 <= i < |candidates| ==> !Truthy(candidates[i])) ==> r == default
    ensures r != default ==> exists i :: 0 <= i < |candidates| && Truthy(candidates[i]) && r == candidates[i].value
  {
    if |candidates| == 0 then default
    else Elvis(candidates[0], Fallback(candidates[1..], default))
  }

  /** The index of the first truthy candidate, if any. */
  function FirstTruthy(candidates: seq<Option<string>>): (k: Option<nat>)
    ensures k.Some? ==> k.value < |candidates| && Truthy(candidates[k.value])
    ensures k.Some? ==> forall j :: 0 <= j < k.value ==> !Truthy(candidates[j])
    ensures k.None? ==> forall j :: 0 <= j < |candidates| ==> !Truthy(candidates[j])
  {
    if |candidates| == 0 then None
    else if Truthy(candidates[0]) then Some(0)
    else match FirstTruthy(candidates[1..])
      case None => None
      case Some(k) => Some(k + 1)
  }

  /** A two-candidate chain is two nested `?:`. */
  lemma FallbackPair(a: Option<string>, b: Option<string>, default: string)
    ensures Fallback([a, b], default) == Elvis(a, Elvis(b, default))
  {
  }

  /** A fallback chain yields exactly the first truthy candidate, and the default when there is none. */
  lemma {:induction false} FallbackIsFirstTruthy(candidates: seq<Option<string>>, default: string)
    ensures FirstTruthy(candidates).None? ==> Fallback(candidates, default) == default
    ensures FirstTruthy(candidates).Some? ==>
              Fallback(candidates, default) == candidates[FirstTruthy(candidates).value].value
  {
    if |candidates| > 0 && !Truthy(candidates[0]) {
      FallbackIsFirstTruthy(candidates[1..], default);
    }
  }

  predicate StartsWith(s: string, prefix: string)
  {
    |prefix| <= |s| && s[..|prefix|] == prefix
  }

  /** `needle` occurs in `haystack` starting at position `i`. */
  predicate OccursAt(haystack: string, needle: string, i: int)
  {
    0 <= i && i + |needle| <= |haystack| && haystack[i..i + |needle|] == needle
  }

  /** `str_contains(haystack, needle)`, scanning from the left. */
  predicate StrContains(haystack: string, needle: string)
    ensures StrContains(haystack, needle) ==> |needle| <= |haystack|
    ensures |needle| == 0 ==> StrContains(haystack, needle)
    decreases |haystack|
  {
    StartsWith(haystack, needle) || (|haystack| > 0 && StrContains(haystack[1..], needle))
  }

  /** The scan agrees with the positional definition of a substring, in both directions. */
  lemma {:induction false} StrContainsIffOccurs(haystack: string, needle: string)
    ensures StrContains(haystack, needle) <==> exists i :: OccursAt(haystack, needle, i)
    decreases |haystack|
  {
    if StartsWith(haystack, needle) {
      assert OccursAt(haystack, needle, 0);
    } else if |haystack| == 0 {
    } else {
      var tail := haystack[1..];
      StrContainsIffOccurs(tail, needle);
      if j :| OccursAt(tail, needle, j) {
        assert haystack[j + 1..j + 1 + |needle|] == tail[j..j + |needle|];
        assert OccursAt(haystack, needle, j + 1);
      }
      if i :| OccursAt(haystack, needle, i) {
        if i > 0 {
          assert tail[i - 1..i - 1 + |needle|] == haystack[i..i + |needle|];
          assert OccursAt(tail, needle, i - 1);
        }
      }
    }
  }

  function DigitChar(d: nat): (c: char)
    requires d < 10
    ensures '0' <= c <= '9'
  {
    "0123456789"[d]
  }

  function DigitValue(c: char): nat
  {
    if '0' <= c <= '9' then (c as int) - ('0' as int) else 0
  }

  /** The decimal text PHP produces when an integer such as `time()` is concatenated to a string. */
  function Decimal(n: nat): (s: string)
    ensures |s| > 0
    ensures forall i :: 0 <= i < |s| ==> '0' <= s[i] <= '9'
    decreases n
  {
    if n < 10 then [DigitChar(n)] else Decimal(n / 10) + [DigitChar(n % 10)]
  }

  /** The number a string of decimal digits denotes. */
  function DecimalValue(s: string): nat
    decreases |s|
  {
    if |s| == 0 then 0 else DecimalValue(s[..|s| - 1]) * 10 + DigitValue(s[|s| - 1])
  }

  /** Reading the decimal text back gives the number: the rendering is lossless. */
  lemma {:induction false} DecimalRoundTrip(n: nat)
    ensures DecimalValue(Decimal(n)) == n
    decreases n
  {
    var s := Decimal(n);
    if n < 10 {
      assert DecimalValue(s[..0]) == 0;
    } else {
      DecimalRoundTrip(n / 10);
      assert s[..|s| - 1] == Decimal(n / 10);
    }
  }

  /** Distinct numbers render as distinct texts. */
  lemma DecimalInjective(m: nat, n: nat)
    requires m != n
    ensures Decimal(m) != Decimal(n)
  {
    DecimalRoundTrip(m);
    DecimalRoundTrip(n);
  }
}
