/** Money in integer micros, rounded half-up on the total (cost.py). */
module Cost {
  import opened Wrappers

  const MTOK: nat := 1_000_000

  datatype Price = Price(inPerMtok: nat, outPerMtok: nat)

  // n / MTOK rounded to the nearest integer, ties up.
  function HalfUp(n: nat): nat {
    (2 * n + MTOK) / (2 * MTOK)
  }

  /** An unknown model costs nothing; a known one the rounded total, not per-token roundings. */
  function ComputeCost(price: Option<Price>, tokensIn: nat, tokensOut: nat): nat {
    match price
    case None => 0
    case Some(p) => HalfUp(tokensIn * p.inPerMtok + tokensOut * p.outPerMtok)
  }

  /** The cost is the one integer within half a micro of the exact total, the upper one on a tie. */
  lemma CostIsNearest(p: Price, tokensIn: nat, tokensOut: nat, r: nat)
    ensures var exact := tokensIn * p.inPerMtok + tokensOut * p.outPerMtok;
            r == ComputeCost(Some(p), tokensIn, tokensOut) <==> 2 * exact - MTOK < 2 * r * MTOK <= 2 * exact + MTOK
  {
  }

  lemma ProductGrows(a: nat, b: nat, c: nat)
    requires a <= b
    ensures a * c <= b * c
  {
  }

  /** More tokens never cost less, so what a call really costs fits in what was held for it
      when the reported tokens are within the estimate and max_tokens. */
  lemma ActualWithinHold(price: Option<Price>, tokensIn: nat, tokensOut: nat, estimatedIn: nat, maxTokens: nat)
    requires tokensIn <= estimatedIn && tokensOut <= maxTokens
    ensures ComputeCost(price, tokensIn, tokensOut) <= ComputeCost(price, estimatedIn, maxTokens)
  {
    if price.Some? {
      ProductGrows(tokensIn, estimatedIn, price.value.inPerMtok);
      ProductGrows(tokensOut, maxTokens, price.value.outPerMtok);
    }
  }

  /** Truncating each side on its own never bills more, and can bill less. */
  lemma TruncationUnderBills(p: Price, tokensIn: nat, tokensOut: nat)
    ensures tokensIn * p.inPerMtok / MTOK + tokensOut * p.outPerMtok / MTOK <= ComputeCost(Some(p), tokensIn, tokensOut)
    ensures ComputeCost(Some(Price(500_000, 500_000)), 1, 1) == 1
  {
    var a, b := tokensIn * p.inPerMtok, tokensOut * p.outPerMtok;
    assert a == a / MTOK * MTOK + a % MTOK && b == b / MTOK * MTOK + b % MTOK;
    CostIsNearest(p, tokensIn, tokensOut, ComputeCost(Some(p), tokensIn, tokensOut));
  }
}
