/**
 * Conversion of a human-entered decimal amount into the Starknet `Uint256`
 * calldata struct (`parseInputAmountToUint256` and `getUint256CalldataFromBN`
 * in the withdrawal step).
 *
 * The decimal text handed to `parseUnits` is modelled by its value: a
 * `Decimal(digits, scale)` stands for digits / 10^scale, i.e. the string with
 * `scale` digits after the point. `parseUnits(text, decimals)` yields the
 * integer n with n == value * 10^decimals, and fails when no such integer
 * exists (a fraction with more significant digits than `decimals`) or when
 * `decimals` is above 256 (ethers' "invalid decimal size").
 */
module StarknetAmount {
  import opened Wrappers

  /** 2^128: the width of each half of a Starknet Uint256. */
  const TWO_128: nat := 0x1_0000_0000_0000_0000_0000_0000_0000_0000
  /** 2^256: one past the largest Uint256. */
  const TWO_256: nat := TWO_128 * TWO_128

  /** The largest precision ethers accepts; a larger one is an "invalid decimal size". */
  const MAX_DECIMALS: nat := 256

  /** The token precision used when the currency declares none. */
  const DEFAULT_DECIMALS: nat := 18

  /** A decimal amount: digits / 10^scale. */
  datatype Decimal = Decimal(digits: nat, scale: nat)

  /** The `{ type: "struct", low, high }` calldata of a Uint256. */
  datatype Uint256 = Uint256(low: nat, high: nat)

  function Pow10(n: nat): (r: nat)
    ensures r >= 1
  {
    if n == 0 then 1 else 10 * Pow10(n - 1)
  }

  lemma {:induction false} Pow10Add(a: nat, b: nat)
    ensures Pow10(a + b) == Pow10(a) * Pow10(b)
  {
    if a > 0 {
      Pow10Add(a - 1, b);
      calc {
        Pow10(a + b);
        10 * Pow10(a - 1 + b);
        10 * (Pow10(a - 1) * Pow10(b));
        (10 * Pow10(a - 1)) * Pow10(b);
      }
    }
  }

  /** n is the integer amount d * 10^decimals. */
  ghost predicate Scales(n: nat, d: Decimal, decimals: nat) {
    n * Pow10(d.scale) == d.digits * Pow10(decimals)
  }

  /** The value of a Uint256 struct (starknet.js `uint256ToBN`). */
  function Uint256ToBn(u: Uint256): nat {
    u.low + u.high * TWO_128
  }

  predicate IsUint256Struct(u: Uint256) {
    u.low < TWO_128 && u.high < TWO_128
  }

  /**
   * x / 10^k when that is exact, i.e. when the last k decimal digits of x
   * are zeros (the trailing zeros ethers trims from the fraction).
   */
  function StripZeros(x: nat, k: nat): (r: Option<nat>)
    ensures r.Some? ==> r.value * Pow10(k) == x
  {
    if k == 0 then Some(x)
    else if x % 10 == 0 then
      var r := StripZeros(x / 10, k - 1);
      if r.Some? then MulAssoc(r.value, 10, Pow10(k - 1)); r else r
    else None
  }

  lemma {:induction false} StripZerosComplete(y: nat, k: nat)
    ensures StripZeros(y * Pow10(k), k) == Some(y)
  {
    if k > 0 {
      var z := y * Pow10(k - 1);
      MulAssoc(y, 10, Pow10(k - 1));
      assert y * Pow10(k) == 10 * z;
      StripZerosComplete(y, k - 1);
    }
  }

  /**
   * ethers `parseUnits`: the amount in the token's smallest unit, or None
   * when `decimals` is above 256 or the fraction has more significant digits
   * than `decimals`.
   */
  function ParseUnits(d: Decimal, decimals: nat): (r: Option<nat>)
    ensures r.Some? ==> decimals <= MAX_DECIMALS && Scales(r.value, d, decimals)
  {
    if decimals > MAX_DECIMALS then None
    else if d.scale <= decimals then
      ScaleUp(d, decimals);
      Some(d.digits * Pow10(decimals - d.scale))
    else
      var r := StripZeros(d.digits, d.scale - decimals);
      if r.Some? then ScaleDown(d, decimals, r.value); r else r
  }

  lemma ScaleUp(d: Decimal, decimals: nat)
    requires d.scale <= decimals
    ensures Scales(d.digits * Pow10(decimals - d.scale), d, decimals)
  {
    Pow10Add(decimals - d.scale, d.scale);
    MulAssoc(d.digits, Pow10(decimals - d.scale), Pow10(d.scale));
  }

  lemma ScaleDown(d: Decimal, decimals: nat, q: nat)
    requires decimals < d.scale && q * Pow10(d.scale - decimals) == d.digits
    ensures Scales(q, d, decimals)
  {
    Pow10Add(d.scale - decimals, decimals);
    MulAssoc(q, Pow10(d.scale - decimals), Pow10(decimals));
  }

  /** `parseUnits` fails only on an invalid decimal size or when no integer amount exists. */
  lemma ParseUnitsComplete(d: Decimal, decimals: nat)
    ensures ParseUnits(d, decimals).None?
        <==> decimals > MAX_DECIMALS || forall n: nat :: !Scales(n, d, decimals)
  {
    if decimals <= MAX_DECIMALS && d.scale > decimals {
      var k := d.scale - decimals;
      forall n: nat | Scales(n, d, decimals) ensures StripZeros(d.digits, k).Some? {
        Pow10Add(k, decimals);
        MulAssoc(n, Pow10(k), Pow10(decimals));
        CancelRight(n * Pow10(k), d.digits, Pow10(decimals));
        StripZerosComplete(n, k);
      }
    }
  }

  lemma MulAssoc(a: nat, b: nat, c: nat)
    ensures a * (b * c) == (a * b) * c
  {
  }

  lemma CancelRight(a: nat, b: nat, c: nat)
    requires c > 0 && a * c == b * c
    ensures a == b
  {
  }

  /**
   * starknet.js `bnToUint256`: the low and high 128-bit halves, or None
   * ("Number is too large") when the value does not fit in 256 bits.
   */
  function BnToUint256(bn: nat): (r: Option<Uint256>)
    ensures r.Some? <==> bn < TWO_256
    ensures r.Some? ==> IsUint256Struct(r.value) && Uint256ToBn(r.value) == bn
  {
    if bn < TWO_256 then
      var u := Uint256(bn % TWO_128, bn / TWO_128);
      HighHalfBound(bn);
      Some(u)
    else
      None
  }

  lemma HighHalfBound(bn: nat)
    requires bn < TWO_256
    ensures bn / TWO_128 < TWO_128
  {
  }

  /** The split is the only one: every well-formed struct is recovered from its value. */
  lemma Uint256RoundTrip(u: Uint256)
    requires IsUint256Struct(u)
    ensures BnToUint256(Uint256ToBn(u)) == Some(u)
  {
  }

  /** `getUint256CalldataFromBN(parseUnits(input, decimals))`; `decimals` defaults to 18. */
  function ParseInputAmountToUint256(input: Decimal, decimals: nat := DEFAULT_DECIMALS): (r: Option<Uint256>)
    ensures r.Some? ==> decimals <= MAX_DECIMALS
    ensures r.Some? ==> IsUint256Struct(r.value) && Scales(Uint256ToBn(r.value), input, decimals)
  {
    match ParseUnits(input, decimals)
    case None => None
    case Some(n) => BnToUint256(n)
  }

  /**
   * The encoding fails exactly on an invalid decimal size or when the scaled
   * amount is not an integer below 2^256.
   */
  lemma ParseInputAmountFails(input: Decimal, decimals: nat)
    ensures ParseInputAmountToUint256(input, decimals).None?
        <==> decimals > MAX_DECIMALS || forall n: nat :: Scales(n, input, decimals) ==> n >= TWO_256
  {
    ParseUnitsComplete(input, decimals);
    var p := ParseUnits(input, decimals);
    if p.Some? {
      ScalesUnique(p.value, input, decimals);
    }
  }

  /** At most one integer amount scales a decimal. */
  lemma ScalesUnique(n: nat, d: Decimal, decimals: nat)
    requires Scales(n, d, decimals)
    ensures forall m: nat :: Scales(m, d, decimals) ==> m == n
  {
  }
}
