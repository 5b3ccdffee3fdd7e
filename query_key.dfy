// Cache keys for GraphQL queries: the 32-bit string hash printed in base 36, and the
// "gql:<query hash>:<variables hash>" key built from two such hashes.

module QueryKey {
  import opened Wrappers

  const TWO_32: int := 0x1_0000_0000
  const TWO_31: int := 0x8000_0000

  /** ECMAScript ToInt32: the 32-bit two's-complement value congruent to `x`. */
  function ToInt32(x: int): (r: int)
    ensures -TWO_31 <= r < TWO_31
    ensures (r - x) % TWO_32 == 0
  {
    (x + TWO_31) % TWO_32 - TWO_31
  }

  lemma ToInt32Shift(x: int, k: int)
    ensures ToInt32(x + k * TWO_32) == ToInt32(x)
  {
  }

  /** Wrapping the multiplicand first does not change the wrapped result. */
  lemma ToInt32Absorbs(a: int, b: int, c: int)
    ensures ToInt32(b * ToInt32(a) + c) == ToInt32(b * a + c)
  {
    var q := (a + TWO_31) / TWO_32;
    assert a == ToInt32(a) + q * TWO_32;
    calc {
      b * a + c;
      b * (ToInt32(a) + q * TWO_32) + c;
      (b * ToInt32(a) + c) + (b * q) * TWO_32;
    }
    ToInt32Shift(b * ToInt32(a) + c, b * q);
  }

  /** Wrapping an addend first does not change the wrapped sum. */
  lemma ToInt32AddWrapped(x: int, y: int)
    ensures ToInt32(ToInt32(x) + y) == ToInt32(x + y)
  {
    var q := (x + TWO_31) / TWO_32;
    assert x + y == (ToInt32(x) + y) + q * TWO_32;
    ToInt32Shift(ToInt32(x) + y, q);
  }

  /** One step of the source loop, shift-and-subtract form, is one step of the recurrence. */
  lemma ShiftStep(hash: int, c: int)
    ensures ToInt32(ToInt32(hash * 32) - hash + c) == ToInt32(31 * hash + c)
  {
    ToInt32AddWrapped(hash * 32, -hash + c);
  }

  /** A UTF-16 code unit, what `charCodeAt` returns. */
  type CodeUnit = x: int | 0 <= x < 0x1_0000

  /** The UTF-16 encoding of a string of Unicode scalar values. */
  function Utf16(s: string): (r: seq<CodeUnit>)
    ensures |r| >= |s|
  {
    if s == [] then []
    else
      var c := s[0] as int;
      (if c < 0x1_0000 then [c as CodeUnit]
       else [(0xD800 + (c - 0x1_0000) / 0x400) as CodeUnit, (0xDC00 + (c - 0x1_0000) % 0x400) as CodeUnit])
      + Utf16(s[1..])
  }

  /** Outside the supplementary planes, each character is one code unit equal to its code point. */
  lemma {:induction false} Utf16OfBmp(s: string)
    requires forall i :: 0 <= i < |s| ==> (s[i] as int) < 0x1_0000
    ensures |Utf16(s)| == |s|
    ensures forall i :: 0 <= i < |s| ==> Utf16(s)[i] == s[i] as int
  {
    if s != [] {
      Utf16OfBmp(s[1..]);
    }
  }

  /** The hash recurrence over code units, wrapped to 32 bits after every step. */
  function HashUnits(us: seq<CodeUnit>): (r: int)
    ensures -TWO_31 <= r < TWO_31
  {
    if us == [] then 0 else ToInt32(31 * HashUnits(us[..|us| - 1]) + us[|us| - 1])
  }

  /** The same hash without wrapping: the polynomial sum of c[i] * 31^(n-1-i). */
  function Polynomial(us: seq<CodeUnit>): int {
    if us == [] then 0 else 31 * Polynomial(us[..|us| - 1]) + us[|us| - 1]
  }

  /** Wrapping at every step equals wrapping once at the end: the hash is the polynomial
      string hash reduced to a signed 32-bit value. */
  lemma {:induction false} HashIsWrappedPolynomial(us: seq<CodeUnit>)
    ensures HashUnits(us) == ToInt32(Polynomial(us))
  {
    if us != [] {
      var init := us[..|us| - 1];
      HashIsWrappedPolynomial(init);
      ToInt32Absorbs(Polynomial(init), 31, us[|us| - 1]);
    }
  }

  function Abs(x: int): nat {
    if x < 0 then -x else x
  }

  predicate IsBase36Digit(c: char) {
    ('0' <= c <= '9') || ('a' <= c <= 'z')
  }

  function Digit(d: nat): (c: char)
    requires d < 36
    ensures IsBase36Digit(c)
  {
    if d < 10 then ('0' as int + d) as char else ('a' as int + d - 10) as char
  }

  function DigitValue(c: char): (d: nat)
    requires IsBase36Digit(c)
    ensures d < 36
    ensures Digit(d) == c
  {
    if c <= '9' then c as int - '0' as int else c as int - 'a' as int + 10
  }

  /** `Number.prototype.toString(36)` on a non-negative integer: lowercase digits, most
      significant first, no leading zero. */
  function Base36(n: nat): (r: string)
    ensures 1 <= |r|
    ensures forall i :: 0 <= i < |r| ==> IsBase36Digit(r[i])
    ensures r[0] == '0' <==> n == 0
  {
    if n < 36 then [Digit(n)] else Base36(n / 36) + [Digit(n % 36)]
  }

  /** Reading base-36 digits back. */
  function FromBase36(s: string): nat
    requires forall i :: 0 <= i < |s| ==> IsBase36Digit(s[i])
  {
    if s == [] then 0 else 36 * FromBase36(s[..|s| - 1]) + DigitValue(s[|s| - 1])
  }

  lemma {:induction false} Base36RoundTrip(n: nat)
    ensures FromBase36(Base36(n)) == n
  {
    if n >= 36 {
      Base36RoundTrip(n / 36);
      var r := Base36(n);
      assert r[..|r| - 1] == Base36(n / 36);
    }
  }

  function Pow36(k: nat): (r: nat)
    ensures r >= 1
  {
    if k == 0 then 1 else 36 * Pow36(k - 1)
  }

  lemma {:induction false} Base36Length(n: nat, k: nat)
    requires 1 <= k && n < Pow36(k)
    ensures |Base36(n)| <= k
  {
    if n >= 36 {
      assert k >= 2;
      Base36Length(n / 36, k - 1);
    }
  }

  /** `hashString`: the spec of the loop below, as a value. */
  function Hash(str: string): string {
    Base36(Abs(HashUnits(Utf16(str))))
  }

  /** Every hash is one to six lowercase base-36 digits whose value is the absolute 32-bit hash. */
  lemma HashShape(str: string)
    ensures 1 <= |Hash(str)| <= 6
    ensures forall i :: 0 <= i < |Hash(str)| ==> IsBase36Digit(Hash(str)[i])
    ensures FromBase36(Hash(str)) == Abs(ToInt32(Polynomial(Utf16(str))))
  {
    var n := Abs(HashUnits(Utf16(str)));
    assert Pow36(6) == 2176782336;
    Base36Length(n, 6);
    Base36RoundTrip(n);
    HashIsWrappedPolynomial(Utf16(str));
  }

  /** The string hash loop: `hash = ((hash << 5) - hash) + char; hash = hash & hash`, over the
      UTF-16 code units, then the absolute value in base 36. */
  method HashString(str: string) returns (h: string)
    ensures h == Hash(str)
  {
    var units := Utf16(str);
    var hash := 0;
    var i := 0;
    while i < |units|
      invariant 0 <= i <= |units|
      invariant hash == HashUnits(units[..i])
    {
      var c := units[i];
      assert units[..i + 1][..i] == units[..i];
      ShiftStep(hash, c);
      var shifted := ToInt32(hash * 32);
      hash := ToInt32(shifted - hash + c);
      i := i + 1;
    }
    assert units[..i] == units;
    h := Base36(Abs(hash));
  }

  /** `generateQueryKey`, given the JSON text of the variables. */
  function KeyOf(query: string, variablesJson: string): string {
    "gql:" + Hash(query) + ":" + Hash(variablesJson)
  }

  method GenerateQueryKey(query: string, variablesJson: string) returns (key: string)
    ensures key == KeyOf(query, variablesJson)
  {
    var queryHash := HashString(query);
    var variablesHash := HashString(variablesJson);
    key := "gql:" + queryHash + ":" + variablesHash;
  }

  /** Index of the first ':' in `s`, or |s| when there is none. */
  function FirstColon(s: string): (r: nat)
    ensures r <= |s|
    ensures forall i :: 0 <= i < r ==> s[i] != ':'
    ensures r < |s| ==> s[r] == ':'
  {
    if s == [] || s[0] == ':' then 0 else 1 + FirstColon(s[1..])
  }

  /** Splits a query key back into its two hashes; None for anything that is not a query key. */
  function ParseKey(key: string): (r: Option<(string, string)>)
  {
    if |key| < 4 || key[..4] != "gql:" then None
    else
      var rest := key[4..];
      var i := FirstColon(rest);
      if i == |rest| then None else Some((rest[..i], rest[i + 1..]))
  }

  lemma {:induction false} FirstColonOfDigits(a: string, b: string)
    requires forall i :: 0 <= i < |a| ==> IsBase36Digit(a[i])
    ensures FirstColon(a + ":" + b) == |a|
  {
    if a != [] {
      assert (a + ":" + b)[1..] == a[1..] + ":" + b;
      FirstColonOfDigits(a[1..], b);
    }
  }

  /** A query key gives back both hashes it was built from. */
  lemma ParseKeyOf(query: string, variablesJson: string)
    ensures ParseKey(KeyOf(query, variablesJson)) == Some((Hash(query), Hash(variablesJson)))
  {
    var hq, hv := Hash(query), Hash(variablesJson);
    HashShape(query);
    var key := KeyOf(query, variablesJson);
    assert key[..4] == "gql:";
    var rest := key[4..];
    assert rest == hq + ":" + hv;
    FirstColonOfDigits(hq, hv);
    assert rest[..|hq|] == hq;
    assert rest[|hq| + 1..] == hv;
  }

  /** Two queries share a cache key exactly when both their hashes agree. */
  lemma KeyOfInjective(q1: string, v1: string, q2: string, v2: string)
    ensures KeyOf(q1, v1) == KeyOf(q2, v2) <==> Hash(q1) == Hash(q2) && Hash(v1) == Hash(v2)
  {
    ParseKeyOf(q1, v1);
    ParseKeyOf(q2, v2);
  }
}
