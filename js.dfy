/** JavaScript value semantics that the client code relies on: `undefined`,
    truthiness of strings and the `a || b || c` fallback chain, JSON values,
    `String.prototype.toUpperCase` and the decimal rendering of an integer
    inside a template literal. */
module Js {

  /** A value that may be absent: `undefined`, and also `null` wherever the
      code reads the two alike (optional chaining, `||`, a falsy test). */
  datatype Option<+T> = None | Some(value: T)

  /** A JSON value, as `JSON.parse` produces it and as axios decodes a
      response body. Numbers are restricted to integers. */
  datatype Json =
    | JNull
    | JBool(b: bool)
    | JNumber(n: int)
    | JString(s: string)
    | JArray(items: seq<Json>)
    | JObject(members: seq<(string, Json)>)

  /** The object literal `{}`. */
  const EmptyObject: Json := JObject([])

  /** A possibly-undefined string is truthy when it is defined and not empty. */
  predicate Truthy(o: Option<string>) {
    o.Some? && o.value != ""
  }

  /** A chain of `||` fallbacks: the first truthy candidate, or the
      fallback when none is. */
  function FirstTruthy(c: seq<Option<string>>, fallback: string): (r: string)
    ensures forall i :: 0 <= i < |c| && Truthy(c[i]) && (forall j :: 0 <= j < i ==> !Truthy(c[j])) ==>
              r == c[i].value
    ensures (forall i :: 0 <= i < |c| ==> !Truthy(c[i])) ==> r == fallback
    ensures fallback != "" ==> r != ""
    ensures r == fallback || exists i :: 0 <= i < |c| && Truthy(c[i]) && r == c[i].value
  {
    if |c| == 0 then fallback
    else if Truthy(c[0]) then c[0].value
    else
      var r := FirstTruthy(c[1..], fallback);
      assert forall i :: 1 <= i < |c| ==> c[1..][i - 1] == c[i];
      r
  }

  /** `toUpperCase` on one character, restricted to ASCII letters. */
  function UpperChar(ch: char): (r: char)
    ensures 'a' <= ch <= 'z' ==> r as int == ch as int - 32
    ensures !('a' <= ch <= 'z') ==> r == ch
    ensures !('a' <= r <= 'z')  || r == ch
  {
    if 'a' <= ch <= 'z' then (ch as int - 32) as char else ch
  }

  /** `s.toUpperCase()`, character by character. */
  function AsciiUpper(s: string): (r: string)
    ensures |r| == |s|
    ensures forall i :: 0 <= i < |s| ==> r[i] == UpperChar(s[i])
  {
    if s == [] then [] else [UpperChar(s[0])] + AsciiUpper(s[1..])
  }

  /** Upper-casing twice is upper-casing once: a string and its upper-cased
      form compare equal after `toUpperCase`. */
  lemma AsciiUpperIdempotent(s: string)
    ensures AsciiUpper(AsciiUpper(s)) == AsciiUpper(s)
  {
  }

  predicate IsDigit(ch: char) {
    '0' <= ch <= '9'
  }

  function DigitChar(d: nat): (ch: char)
    requires d < 10
    ensures IsDigit(ch) && ch as int - '0' as int == d
  {
    ('0' as int + d) as char
  }

  /** The value of a string of decimal digits, most significant first. */
  function DigitsValue(s: string): nat
    requires forall i :: 0 <= i < |s| ==> IsDigit(s[i])
  {
    if s == [] then 0
    else
      assert IsDigit(s[|s| - 1]);
      DigitsValue(s[..|s| - 1]) * 10 + (s[|s| - 1] as int - '0' as int)
  }

  /** A digit string in canonical form: non-empty, and no leading zero
      unless it is the single digit zero. */
  predicate Canonical(s: string) {
    |s| > 0 && (forall i :: 0 <= i < |s| ==> IsDigit(s[i])) && (|s| == 1 || s[0] != '0')
  }

  /** A canonical digit string other than "0" denotes a positive number. */
  lemma {:induction false} CanonicalPositive(s: string)
    requires Canonical(s) && s != "0"
    ensures DigitsValue(s) >= 1
    decreases |s|
  {
    if |s| > 1 {
      var prefix := s[..|s| - 1];
      assert prefix[0] == s[0] && prefix != "0";
      CanonicalPositive(prefix);
    } else {
      assert s == [s[0]];
    }
  }

  /** The shortest decimal rendering of a natural number. */
  function NatDigits(n: nat): (r: string)
    ensures Canonical(r)
    ensures DigitsValue(r) == n
    decreases n
  {
    if n < 10 then [DigitChar(n)]
    else
      var prefix := NatDigits(n / 10);
      var r := prefix + [DigitChar(n % 10)];
      assert r[..|r| - 1] == prefix;
      assert |prefix| == 1 ==> prefix == [DigitChar(n / 10)];
      r
  }

  /** A canonical digit string is the rendering of its own value: there is
      exactly one canonical way to write each number. */
  lemma {:induction false} NatDigitsOfCanonical(s: string)
    requires Canonical(s)
    ensures NatDigits(DigitsValue(s)) == s
    decreases |s|
  {
    if |s| == 1 {
      assert s == [s[0]];
      assert DigitsValue(s) == DigitsValue([]) * 10 + (s[0] as int - '0' as int);
    } else {
      var prefix := s[..|s| - 1];
      var d := s[|s| - 1] as int - '0' as int;
      assert IsDigit(s[|s| - 1]);
      assert prefix[0] == s[0];
      assert Canonical(prefix);
      assert prefix != "0";
      CanonicalPositive(prefix);
      NatDigitsOfCanonical(prefix);
      var v := DigitsValue(s);
      assert v == DigitsValue(prefix) * 10 + d && 0 <= d < 10;
      assert v / 10 == DigitsValue(prefix) && v % 10 == d;
      assert DigitChar(d) == s[|s| - 1];
      assert s == prefix + [s[|s| - 1]];
    }
  }

  /** How a JavaScript integer of magnitude below 10^21 is rendered inside a
      template literal (larger ones switch to exponent form). */
  function DecimalString(n: int): string {
    if n < 0 then "-" + NatDigits(-n) else NatDigits(n)
  }

  /** Reads back a decimal integer written in canonical form: an optional
      minus sign before a canonical digit string, with no "-0". */
  function ParseDecimal(s: string): Option<int> {
    if s == [] then None
    else if s[0] == '-' then
      if Canonical(s[1..]) && s[1..] != "0" then Some(-(DigitsValue(s[1..]) as int)) else None
    else if Canonical(s) then Some(DigitsValue(s))
    else None
  }

  /** The rendering is faithful: it reads back as the number rendered. */
  lemma DecimalRoundTrip(n: int)
    ensures ParseDecimal(DecimalString(n)) == Some(n)
  {
  }

  /** And it is the only text that reads back as that number. */
  lemma DecimalUnique(s: string, n: int)
    requires ParseDecimal(s) == Some(n)
    ensures s == DecimalString(n)
  {
    if s[0] == '-' {
      NatDigitsOfCanonical(s[1..]);
      assert s == "-" + s[1..];
    } else {
      NatDigitsOfCanonical(s);
    }
  }
}
