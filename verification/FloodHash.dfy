/** The duplicate key of a relayed message (apps/bridge-bot/src/adapters.ts:313-319). Strings are sequences of
    UTF-16 code units; integers are taken to 32 bits as ToInt32 does (section 7.1.6 of ECMA-262). */
module FloodHash {

  type CodeUnit = u: nat | u < 0x1_0000

  const TWO_32: int := 0x1_0000_0000
  const TWO_31: int := 0x8000_0000

  function ToUint32(x: int): (r: int)
    ensures 0 <= r < TWO_32
  {
    x % TWO_32
  }

  function ToInt32(x: int): (r: int)
    ensures -TWO_31 <= r < TWO_31
    ensures r % TWO_32 == x % TWO_32
  {
    if x % TWO_32 >= TWO_31 then x % TWO_32 - TWO_32 else x % TWO_32
  }

  function Pow31(n: nat): nat {
    if n == 0 then 1 else 31 * Pow31(n - 1)
  }

  /** The first unit has the highest power. */
  function Polynomial(s: seq<CodeUnit>): nat {
    if s == [] then 0 else s[0] * Pow31(|s| - 1) + Polynomial(s[1..])
  }

  lemma {:induction false} PolynomialSnoc(s: seq<CodeUnit>, c: CodeUnit)
    ensures Polynomial(s + [c]) == 31 * Polynomial(s) + c && Polynomial([]) == 0
  {
    if s == [] {
      assert s + [c] == [c] && Pow31(0) == 1;
      assert [c][1..] == [];
    } else {
      assert (s + [c])[1..] == s[1..] + [c];
      PolynomialSnoc(s[1..], c);
      calc {
        Polynomial(s + [c]);
        s[0] * Pow31(|s|) + (31 * Polynomial(s[1..]) + c);
        { assert Pow31(|s|) == 31 * Pow31(|s| - 1); }
        31 * (s[0] * Pow31(|s| - 1)) + 31 * Polynomial(s[1..]) + c;
        31 * Polynomial(s) + c;
      }
    }
  }

  lemma ModAdd(a: int, b: int, c: int)
    requires a % TWO_32 == b % TWO_32
    ensures (a + c) % TWO_32 == (b + c) % TWO_32
  {
  }

  lemma ModShift(a: int, k: int)
    ensures (a + k * TWO_32) % TWO_32 == a % TWO_32
  {
  }

  lemma ModTimes31(a: int, b: int)
    requires a % TWO_32 == b % TWO_32
    ensures (31 * a) % TWO_32 == (31 * b) % TWO_32
  {
    var k := a / TWO_32 - b / TWO_32;
    assert a == b + k * TWO_32;
    assert 31 * a == 31 * b + (31 * k) * TWO_32;
    ModShift(31 * b, 31 * k);
  }

  function Digit(d: nat): char
    requires d < 36
  {
    if d < 10 then '0' + d as char else 'a' + (d - 10) as char
  }

  /** `toString(36)`. */
  function Base36(n: nat): (r: string)
    ensures |r| >= 1
  {
    if n < 36 then [Digit(n)] else Base36(n / 36) + [Digit(n % 36)]
  }

  function DigitValue(c: char): nat {
    if '0' <= c <= '9' then c as nat - '0' as nat else if 'a' <= c <= 'z' then c as nat - 'a' as nat + 10 else 0
  }

  function FromBase36(s: string): nat {
    if s == [] then 0 else 36 * FromBase36(s[..|s| - 1]) + DigitValue(s[|s| - 1])
  }

  lemma DigitRoundTrip(d: nat)
    requires d < 36
    ensures DigitValue(Digit(d)) == d
  {
  }

  lemma {:induction false} Base36RoundTrip(n: nat)
    ensures FromBase36(Base36(n)) == n
  {
    DigitRoundTrip(n % 36);
    hide Digit, DigitValue;
    if n >= 36 {
      Base36RoundTrip(n / 36);
    } else {
    }
  }

  function HashOf(s: seq<CodeUnit>): string {
    Base36(Polynomial(s) % TWO_32)
  }

  method SimpleHash(s: seq<CodeUnit>) returns (key: string)
    ensures key == HashOf(s)
  {
    var h: int := 0;
    var i := 0;
    while i < |s|
      invariant i <= |s| && -TWO_31 <= h < TWO_31
      invariant h % TWO_32 == Polynomial(s[..i]) % TWO_32
    {
      var product := ToInt32(31 * h);
      ModTimes31(h, Polynomial(s[..i]));
      ModAdd(product, 31 * Polynomial(s[..i]), s[i]);
      PolynomialSnoc(s[..i], s[i]);
      assert s[..i + 1] == s[..i] + [s[i]];
      h := ToInt32(product + s[i]);
      i := i + 1;
    }
    assert s[..|s|] == s;
    key := Base36(ToUint32(h));
  }

  /** Two messages share a key exactly when their polynomials agree modulo 2^32. */
  lemma SameKey(a: seq<CodeUnit>, b: seq<CodeUnit>)
    ensures HashOf(a) == HashOf(b) <==> Polynomial(a) % TWO_32 == Polynomial(b) % TWO_32
  {
    Base36RoundTrip(Polynomial(a) % TWO_32);
    Base36RoundTrip(Polynomial(b) % TWO_32);
  }
}
