/** The relayer's quote for a SOL deposit against the conversion check of the chain. */
module SolQuote {
  import opened Wrappers
  import opened Core
  import opened Ledger
  import opened MnaSolvency

  const MIN_FEE_BPS := 50
  const MAX_FEE_BPS := 500

  /** The configured fee, forced into its bounds. */
  function FeeBps(configured: int): nat {
    var capped := if configured < MAX_FEE_BPS then configured else MAX_FEE_BPS;
    if capped > MIN_FEE_BPS then capped else MIN_FEE_BPS
  }

  datatype Quote = Quote(usd: nat, mna: nat, fee: nat)

  function CollateralUsd(lamports: nat, price: nat): nat {
    lamports * price / LAMPORTS_PER_SOL
  }

  /** `None` where the relayer raises. */
  function QuoteFor(lamports: nat, price: nat, bps: nat): Option<Quote> {
    var usd := CollateralUsd(lamports, price);
    var gross := usd / 2;
    var fee := gross * bps / 10_000;
    if usd == 0 || usd % 2 != 0 || gross - fee <= 0 then None else Some(Quote(usd, gross - fee, fee))
  }

  /** The operation the chain's interface makes of a quote. */
  function QuotedDeposit(q: Quote, op: MnaReserveOperation, lamports: u128, price: u128): MnaReserveOperation
    requires q.usd <= U128_MAX && q.mna <= U128_MAX && q.fee <= U128_MAX
  {
    op.(kind := VerifyDeposit, amountUsdc := q.usd, amountMna := q.mna, feeMna := q.fee,
        collateralAmount := lamports, oraclePrice := price)
  }

  lemma ProductBound(a: nat, b: nat, limit: nat)
    requires a <= limit && b <= limit
    ensures a * b <= limit * limit
  {
    assert a * b <= limit * b;
    assert limit * b <= limit * limit;
  }

  lemma FeeBelowGross(gross: nat, bps: nat)
    requires gross > 0 && bps <= MAX_FEE_BPS
    ensures gross * bps / 10_000 < gross
  {
    assert gross * bps <= gross * MAX_FEE_BPS;
    assert gross * MAX_FEE_BPS < gross * 10_000;
  }

  /** A quote is refused only when the collateral is worth nothing or an odd number of micro-USD. */
  lemma RefusedExactly(lamports: nat, price: nat, configured: int)
    ensures QuoteFor(lamports, price, FeeBps(configured)).None?
            <==> CollateralUsd(lamports, price) == 0 || CollateralUsd(lamports, price) % 2 != 0
  {
    var usd := CollateralUsd(lamports, price);
    hide CollateralUsd;
    if usd / 2 > 0 {
      FeeBelowGross(usd / 2, FeeBps(configured));
    }
  }

  lemma Quotient(a: nat, d: nat)
    requires d > 0
    ensures a / d * d <= a < (a / d + 1) * d
  {
    assert a == a / d * d + a % d;
  }

  lemma ShareBounds(gross: nat, bps: nat)
    requires MIN_FEE_BPS <= bps <= MAX_FEE_BPS
    ensures gross * MIN_FEE_BPS <= gross * bps <= gross * MAX_FEE_BPS
  {
  }

  /** What a quote keeps back is the configured share of half the value, rounded down, and the value is that of the
      collateral, rounded down; at least one part in two hundred and at most one in twenty is kept back. */
  lemma QuoteTakesShare(lamports: nat, price: nat, configured: int)
    requires QuoteFor(lamports, price, FeeBps(configured)).Some?
    ensures var q, bps := QuoteFor(lamports, price, FeeBps(configured)).value, FeeBps(configured);
            && q.usd * LAMPORTS_PER_SOL <= lamports * price < (q.usd + 1) * LAMPORTS_PER_SOL
            && 2 * (q.mna + q.fee) == q.usd
            && 10_000 * q.fee <= (q.mna + q.fee) * bps < 10_000 * (q.fee + 1)
            && 200 * (q.fee + 1) > q.mna + q.fee && 20 * q.fee <= q.mna + q.fee
            && (MIN_FEE_BPS <= configured <= MAX_FEE_BPS ==> bps == configured)
  {
    var gross, bps := CollateralUsd(lamports, price) / 2, FeeBps(configured);
    Quotient(lamports * price, LAMPORTS_PER_SOL);
    hide CollateralUsd;
    FeeBelowGross(gross, bps);
    Quotient(gross * bps, 10_000);
    ShareBounds(gross, bps);
  }

  /** Every quote the relayer makes passes the chain's conversion and collateral checks, without overflow, and issues
      at most what the collateral is worth. */
  lemma QuotePasses(lamports: nat, price: nat, configured: int, op: MnaReserveOperation)
    requires lamports <= U64_MAX && price <= U64_MAX
    requires IsSupportedSol(op.collateralAsset) && op.oracleTimestamp != 0
    requires QuoteFor(lamports, price, FeeBps(configured)).Some?
    ensures var q := QuoteFor(lamports, price, FeeBps(configured)).value;
            && q.usd <= U128_MAX && q.mna <= U128_MAX && q.fee <= U128_MAX
            && ExactConversion(QuotedDeposit(q, op, lamports, price))
            && CheckCollateral(QuotedDeposit(q, op, lamports, price)).Ok?
            && 2 * (q.mna + q.fee) * LAMPORTS_PER_SOL <= lamports * price <= U128_MAX
  {
    hide IsSupportedSol;
    var value, usd := lamports * price, CollateralUsd(lamports, price);
    ProductBound(lamports, price, U64_MAX);
    assert U64_MAX * U64_MAX <= U128_MAX;
    assert lamports == 0 || price == 0 ==> value == 0;
    FeeBelowGross(usd / 2, FeeBps(configured));
    WholePart(value);
    assert usd == value / LAMPORTS_PER_SOL;
    hide CollateralUsd;
    var q := QuoteFor(lamports, price, FeeBps(configured)).value;
    assert q.mna + q.fee == usd / 2 && 2 * (q.mna + q.fee) == usd;
  }

  lemma WholePart(value: nat)
    ensures value / LAMPORTS_PER_SOL * LAMPORTS_PER_SOL <= value && value / LAMPORTS_PER_SOL <= value
  {
  }

  /** Whatever operation the check accepts, amount and fee are half the value as true integers. */
  lemma AcceptedSplitIsExact(op: MnaReserveOperation)
    requires ExactConversion(op) && IsSupportedSol(op.collateralAsset) && CheckCollateral(op).Ok?
    ensures op.amountMna + op.feeMna == op.amountUsdc / 2
    ensures 2 * (op.amountMna + op.feeMna) * LAMPORTS_PER_SOL <= op.collateralAmount * op.oraclePrice
  {
    ConversionIsExact(op);
    WholePart(op.collateralAmount * op.oraclePrice);
  }
}
