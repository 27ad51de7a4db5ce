/** The slice of JavaScript semantics the screens rely on: truthiness of form
    values, plain objects used as forms, `String.prototype.toLowerCase`
    (ASCII letters only), `includes`, `substring(0, n)` and the decimal
    `toString` of an integer. */
module Js {
  import opened Wrappers

  /** A value held in a form field or copied from a server record.
      `Missing` stands for both `null` and `undefined`. */
  datatype Value = Missing | Str(s: string) | Num(n: int)

  /** JavaScript truthiness: `undefined`, `null`, `""` and `0` are falsy. */
  predicate Truthy(v: Value) {
    match v
    case Missing => false
    case Str(s) => s != ""
    case Num(n) => n != 0
  }

  /** Truthiness of an optional string. */
  predicate Filled(o: Option<string>) {
    o.Some? && o.value != ""
  }

  /** A form object: field name to value. */
  type Form = map<string, Value>

  /** Reading `form[name]`; an absent key reads as `undefined`. */
  function Get(f: Form, name: string): Value {
    if name in f then f[name] else Missing
  }

  // ---------------------------------------------------------------- case

  predicate IsUpper(c: char) {
    'A' <= c <= 'Z'
  }

  /** `toLowerCase` on one character, ASCII letters only. */
  function LowerChar(c: char): (r: char)
    ensures !IsUpper(r)
    ensures IsUpper(c) ==> r as int == c as int + 32
    ensures !IsUpper(c) ==> r == c
  {
    if IsUpper(c) then (c as int + 32) as char else c
  }

  /** `s.toLowerCase()`, ASCII letters only. */
  function Lower(s: string): (r: string)
    ensures |r| == |s|
    ensures forall i :: 0 <= i < |s| ==> r[i] == LowerChar(s[i])
  {
    seq(|s|, i requires 0 <= i < |s| => LowerChar(s[i]))
  }

  /** Lower-casing twice is lower-casing once, so a keyword that is already
      lower case is searched for unchanged. */
  lemma LowerIdempotent(s: string)
    ensures Lower(Lower(s)) == Lower(s)
  {
  }

  /** Lower-casing works character by character, so it distributes over
      concatenation. */
  lemma LowerAppend(a: string, b: string)
    ensures Lower(a + b) == Lower(a) + Lower(b)
  {
    assert forall i :: 0 <= i < |a + b| ==> Lower(a + b)[i] == (Lower(a) + Lower(b))[i];
  }

  // ---------------------------------------------------------------- includes

  /** `k` occurs in `s` starting at index `i`. */
  ghost predicate OccursAt(k: string, s: string, i: int) {
    0 <= i && i + |k| <= |s| && s[i..i + |k|] == k
  }

  /** The declarative meaning of `s.includes(k)`. */
  ghost predicate IsSubstring(k: string, s: string) {
    exists i :: OccursAt(k, s, i)
  }

  lemma ShiftOccurrence(k: string, s: string)
    requires 0 < |s| && !OccursAt(k, s, 0)
    ensures IsSubstring(k, s) <==> IsSubstring(k, s[1..])
  {
    forall i | OccursAt(k, s[1..], i)
      ensures OccursAt(k, s, i + 1)
    {
      assert s[1..][i..i + |k|] == s[i + 1..i + 1 + |k|];
    }
    if IsSubstring(k, s) {
      var i :| OccursAt(k, s, i);
      assert i > 0;
      assert s[1..][i - 1..i - 1 + |k|] == s[i..i + |k|];
      assert OccursAt(k, s[1..], i - 1);
    }
  }

  /** `s.includes(k)`: a left-to-right scan for the first occurrence. */
  function Includes(s: string, k: string): (r: bool)
    ensures r <==> IsSubstring(k, s)
    decreases |s|
  {
    if |k| > |s| then
      false
    else if s[..|k|] == k then
      assert OccursAt(k, s, 0);
      true
    else
      ShiftOccurrence(k, s);
      Includes(s[1..], k)
  }

  /** The empty keyword occurs in every string (`"abc".includes("")`). */
  lemma IncludesEmpty(s: string)
    ensures Includes(s, "")
  {
    assert OccursAt("", s, 0);
  }

  /** A string that contains `k + e` contains `k`: lengthening a keyword can
      only lose matches. */
  lemma IncludesShorterKeyword(s: string, k: string, e: string)
    requires Includes(s, k + e)
    ensures Includes(s, k)
  {
    var i :| OccursAt(k + e, s, i);
    assert s[i..i + |k|] == s[i..i + |k + e|][..|k|];
    assert (k + e)[..|k|] == k;
    assert OccursAt(k, s, i);
  }

  /** A non-empty keyword whose first character does not occur in `s` is not
      found in `s`. */
  lemma IncludesNeedsFirstChar(s: string, k: string)
    requires |k| > 0 && forall i :: 0 <= i < |s| ==> s[i] != k[0]
    ensures !Includes(s, k)
  {
    forall i | OccursAt(k, s, i)
      ensures k[0] == s[i]
    {
      assert s[i..i + |k|][0] == s[i];
    }
  }

  /** Nothing but the empty keyword occurs in the empty string. */
  lemma IncludesInEmpty(k: string)
    ensures Includes("", k) <==> k == ""
  {
    if k == "" {
      IncludesEmpty("");
    }
  }

  // ---------------------------------------------------------------- substring

  /** `s.substring(0, n)` for a non-negative `n`: the first `n` characters, or
      the whole string when it is shorter. */
  function Substring0(s: string, n: nat): (r: string)
    ensures |r| == if |s| < n then |s| else n
    ensures r <= s
  {
    if |s| <= n then s else s[..n]
  }

  /** Truncating an already truncated string changes nothing, so a value that
      is saved and loaded again is stable. */
  lemma Substring0Idempotent(s: string, n: nat)
    ensures Substring0(Substring0(s, n), n) == Substring0(s, n)
  {
  }

  // ---------------------------------------------------------------- toString

  predicate IsDigit(c: char) {
    '0' <= c <= '9'
  }

  predicate AllDigits(s: string) {
    forall i :: 0 <= i < |s| ==> IsDigit(s[i])
  }

  function DigitChar(d: int): (c: char)
    requires 0 <= d < 10
    ensures IsDigit(c)
    ensures c as int - '0' as int == d
  {
    ('0' as int + d) as char
  }

  /** `n.toString()` for a natural number: decimal, no leading zeros. */
  function NatToString(n: nat): (r: string)
    ensures |r| > 0
    ensures AllDigits(r)
    ensures r[0] == '0' <==> n == 0
    ensures n == 0 ==> r == "0"
    decreases n
  {
    if n < 10 then [DigitChar(n)] else NatToString(n / 10) + [DigitChar(n % 10)]
  }

  /** The value of a string of decimal digits; the reference against which
      `NatToString` is checked. */
  function DigitsValue(s: string): nat
    requires AllDigits(s)
  {
    if |s| == 0 then 0
    else 10 * DigitsValue(s[..|s| - 1]) + (s[|s| - 1] as int - '0' as int)
  }

  /** Reading back the decimal string of `n` yields `n`. */
  lemma {:induction false} NatToStringRoundTrip(n: nat)
    ensures DigitsValue(NatToString(n)) == n
    decreases n
  {
    var r := NatToString(n);
    if n < 10 {
      assert r[..|r| - 1] == [];
    } else {
      NatToStringRoundTrip(n / 10);
      assert r[..|r| - 1] == NatToString(n / 10);
    }
  }

  /** `n.toString()` for an integer: a leading `-` for negatives. */
  function IntToString(n: int): (r: string)
    ensures |r| > 0
    ensures n < 0 <==> r[0] == '-'
    ensures n >= 0 ==> AllDigits(r)
    ensures n < 0 ==> AllDigits(r[1..])
  {
    if n < 0 then "-" + NatToString(-n) else NatToString(n)
  }

  /** The value of an optionally signed decimal string. */
  function DecimalValue(s: string): int
    requires |s| > 0 && (if s[0] == '-' then AllDigits(s[1..]) else AllDigits(s))
  {
    if s[0] == '-' then -(DigitsValue(s[1..]) as int) else DigitsValue(s) as int
  }

  /** Reading back the decimal string of `n` yields `n`. */
  lemma IntToStringRoundTrip(n: int)
    ensures DecimalValue(IntToString(n)) == n
  {
    if n < 0 {
      NatToStringRoundTrip(-n);
      assert IntToString(n)[1..] == NatToString(-n);
    } else {
      NatToStringRoundTrip(n);
    }
  }

  /** Different integers print differently. */
  lemma IntToStringInjective(a: int, b: int)
    requires IntToString(a) == IntToString(b)
    ensures a == b
  {
    IntToStringRoundTrip(a);
    IntToStringRoundTrip(b);
  }

  // ---------------------------------------------------------------- optional strings

  /** `o?.toLowerCase() || ""`. */
  function LowerOrEmpty(o: Option<string>): string {
    if o.None? then "" else Lower(o.value)
  }

  /** `o || ""`. */
  function OrEmpty(o: Option<string>): string {
    if o.None? then "" else o.value
  }

  /** A string read into a form: present strings are copied, absent ones
      become `undefined`. */
  function OptionalStr(o: Option<string>): Value {
    if o.None? then Missing else Str(o.value)
  }
}
