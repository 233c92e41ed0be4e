/** The rolling hash of web/src/components/companies/owner-avatar.tsx. */
module AvatarHash {

  /** A UTF-16 code unit, as charCodeAt returns it. */
  type CodeUnit = c: nat | c < 0x10000

  const TWO32: nat := 0x1_0000_0000
  const MAX_SAFE: nat := 0x20_0000_0000_0000     // 2^53
  const TONES: nat := 7

  /** ToUint32 of a non-negative integral Number (section 7.1.7 of ECMA-262). */
  function ToUint32(x: nat): nat {
    x % TWO32
  }

  function Power31(n: nat): nat {
    if n == 0 then 1 else 31 * Power31(n - 1)
  }

  /** The whole base-31 polynomial, over unbounded integers. */
  function Polynomial(id: seq<CodeUnit>): nat {
    if id == [] then 0 else id[0] * Power31(|id| - 1) + Polynomial(id[1..])
  }

  lemma ShiftDigit(digit: nat, power: nat, rest: nat, c: nat)
    ensures digit * (31 * power) + (rest * 31 + c) == (digit * power + rest) * 31 + c
  {
  }

  /** Appending a code unit multiplies by 31 and adds it. */
  lemma {:induction false} PolynomialAppend(id: seq<CodeUnit>, c: CodeUnit)
    ensures Polynomial(id + [c]) == Polynomial(id) * 31 + c
  {
    if id == [] {
      assert Polynomial([c]) == c * Power31(0) + Polynomial([c][1..]);
    } else {
      PolynomialAppend(id[1..], c);
      assert (id + [c])[1..] == id[1..] + [c];
      assert Power31(|id|) == 31 * Power31(|id| - 1);
      ShiftDigit(id[0], Power31(|id| - 1), Polynomial(id[1..]), c);
    }
  }

  lemma AddMultiple(y: nat, k: nat)
    ensures ToUint32(y + TWO32 * k) == ToUint32(y)
  {
  }

  /** Reducing first does not change the next reduction. */
  lemma ReduceEarly(x: nat, c: nat)
    ensures ToUint32(ToUint32(x) * 31 + c) == ToUint32(x * 31 + c)
  {
    var q := x / TWO32;
    assert x * 31 + c == (ToUint32(x) * 31 + c) + TWO32 * (q * 31);
    AddMultiple(ToUint32(x) * 31 + c, q * 31);
  }

  /** The hash and its tone.  `peak` is the largest Number ever formed. */
  method HashTone(id: seq<CodeUnit>) returns (h: nat, tone: nat, peak: nat)
    ensures h == Polynomial(id) % 0x1_0000_0000
    ensures tone == h % 7
    ensures peak < 0x20_0000_0000_0000
  {
    h, peak := 0, 0;
    for i := 0 to |id|
      invariant h == ToUint32(Polynomial(id[..i]))
      invariant peak < MAX_SAFE
    {
      var next := h * 31 + id[i];
      PolynomialAppend(id[..i], id[i]);
      assert id[..i] + [id[i]] == id[..i + 1];
      ReduceEarly(Polynomial(id[..i]), id[i]);
      if next > peak {
        peak := next;
      }
      h := ToUint32(next);
    }
    assert id[..|id|] == id;
    tone := h % TONES;
  }
}
