/**
 * A value-level reference for one delta-hedging run: the price path, the
 * hedge book built over it, and the six output series.
 *
 * The path and the book are characterised by the predicates IsPath and
 * IsBook (seeding plus one-step recurrence); StockPath, Ledger and Simulate
 * compute them, and the uniqueness lemmas show that the predicates leave
 * no freedom. Every property of a run is proved for any path and book that
 * satisfy the predicates, so it holds of the simulator's arrays as well.
 */
module HedgingModel {
  import opened Pricing

  /** The seven inputs of a run. */
  datatype Params = Params(S0: real, K: real, T: real, r: real, sigma: real, nSteps: nat, nOptions: int)

  /** The hedge book at one grid point. */
  datatype Position = Position(option: real, delta: real, cash: real, portfolio: real, error: real)

  /** The six series of a run, indexed by grid point 0..nSteps. */
  datatype Series = Series(
    stockPrices: seq<real>,
    optionPrices: seq<real>,
    deltas: seq<real>,
    portfolioValues: seq<real>,
    cashPositions: seq<real>,
    hedgeErrors: seq<real>)

  // ---------------------------------------------------------------------------
  // The time grid and one step of the recurrences
  // ---------------------------------------------------------------------------

  /** Length of one time step. */
  function Dt(p: Params): real
    requires p.nSteps >= 1
  {
    p.T / p.nSteps as real
  }

  /** Remaining time to maturity at grid point i (the engine passes T itself at i = 0). */
  function TimeToMaturity(p: Params, i: nat): real
    requires p.nSteps >= 1
  {
    if i == 0 then p.T else p.T - i as real * Dt(p)
  }

  /** The exact GBM growth factor of one step for the standard-normal draw z. */
  function StepFactor(p: Params, m: Maths, z: real): real
    requires p.nSteps >= 1
  {
    Exp(m, LogReturn(p, m, z))
  }

  /** The log-return of one step: drift (r - sigma^2/2) dt plus diffusion sigma sqrt(dt) z. */
  function LogReturn(p: Params, m: Maths, z: real): real
    requires p.nSteps >= 1
  {
    (p.r - 0.5 * p.sigma * p.sigma) * Dt(p) + p.sigma * Sqrt(m, Dt(p)) * z
  }

  /** Growth of one unit of cash over one step at the risk-free rate. */
  function Accrual(p: Params, m: Maths): real
    requires p.nSteps >= 1
  {
    Exp(m, RiskFreeExponent(p))
  }

  /** The exponent r dt of one step's risk-free growth. */
  function RiskFreeExponent(p: Params): real
    requires p.nSteps >= 1
  {
    p.r * Dt(p)
  }

  /** Grid point 0: sell the options, buy the initial hedge, hold the rest as cash. */
  function Opening(p: Params, pr: Pricer): Position
  {
    var option := CallPrice(pr, p.S0, p.K, p.T, p.r, p.sigma) * p.nOptions as real;
    var delta := CallDelta(pr, p.S0, p.K, p.T, p.r, p.sigma) * p.nOptions as real;
    Position(option, delta, option - delta * p.S0, option, 0.0)
  }

  /**
   * Grid point i >= 1: reprice at the new spot and remaining time, grow the
   * cash at the risk-free rate and settle the change in delta at the new spot.
   */
  function Rebalance(p: Params, pr: Pricer, m: Maths, prev: Position, price: real, i: nat): Position
    requires p.nSteps >= 1
  {
    var tau := TimeToMaturity(p, i);
    var option := CallPrice(pr, price, p.K, tau, p.r, p.sigma) * p.nOptions as real;
    var delta := CallDelta(pr, price, p.K, tau, p.r, p.sigma) * p.nOptions as real;
    var cash := prev.cash * Accrual(p, m) - (delta - prev.delta) * price;
    var portfolio := delta * price + cash;
    Position(option, delta, cash, portfolio, portfolio - option)
  }

  // ---------------------------------------------------------------------------
  // What a path, a book and a run are
  // ---------------------------------------------------------------------------

  /** s is the price path of the draws z: it starts at S0 and grows by one factor per draw. */
  ghost predicate IsPath(p: Params, m: Maths, z: seq<real>, s: seq<real>)
    requires p.nSteps >= 1
  {
    |s| == |z| + 1 && s[0] == p.S0 &&
    forall j, k :: 0 <= j && k == j + 1 && k < |s| ==> s[k] == s[j] * StepFactor(p, m, z[j])
  }

  /** l is the hedge book over the path s: opened at 0, rebalanced at every later point. */
  ghost predicate IsBook(p: Params, pr: Pricer, m: Maths, s: seq<real>, l: seq<Position>)
    requires p.nSteps >= 1
  {
    |l| == |s| >= 1 && l[0] == Opening(p, pr) &&
    forall j, k :: 0 <= j && k == j + 1 && k < |s| ==> l[k] == Rebalance(p, pr, m, l[j], s[k], k)
  }

  /** All six series have the same length. */
  ghost predicate Aligned(res: Series)
  {
    |res.optionPrices| == |res.stockPrices| && |res.deltas| == |res.stockPrices| &&
    |res.portfolioValues| == |res.stockPrices| && |res.cashPositions| == |res.stockPrices| &&
    |res.hedgeErrors| == |res.stockPrices|
  }

  /** The five book series read as one position per grid point. */
  ghost function Positions(res: Series): (l: seq<Position>)
    requires Aligned(res)
    ensures |l| == |res.stockPrices|
  {
    seq(|res.stockPrices|, k requires 0 <= k < |res.stockPrices| =>
      Position(res.optionPrices[k], res.deltas[k], res.cashPositions[k], res.portfolioValues[k], res.hedgeErrors[k]))
  }

  /** res is the outcome of a run with draws z. */
  ghost predicate IsRun(p: Params, pr: Pricer, m: Maths, z: seq<real>, res: Series)
    requires p.nSteps >= 1
  {
    Aligned(res) && IsPath(p, m, z, res.stockPrices) && IsBook(p, pr, m, res.stockPrices, Positions(res))
  }

  // ---------------------------------------------------------------------------
  // The reference run
  // ---------------------------------------------------------------------------

  /** The price path driven by the draws z. */
  function StockPath(p: Params, m: Maths, z: seq<real>): (s: seq<real>)
    requires p.nSteps >= 1
    ensures IsPath(p, m, z, s)
    decreases |z|
  {
    if z == [] then [p.S0]
    else
      var prev := StockPath(p, m, z[..|z| - 1]);
      PathExtends(p, m, z, prev);
      prev + [prev[|z| - 1] * StepFactor(p, m, z[|z| - 1])]
  }

  /** One more draw appends one more price. */
  lemma PathExtends(p: Params, m: Maths, z: seq<real>, prev: seq<real>)
    requires p.nSteps >= 1 && |z| >= 1 && IsPath(p, m, z[..|z| - 1], prev)
    ensures IsPath(p, m, z, prev + [prev[|z| - 1] * StepFactor(p, m, z[|z| - 1])])
  {
    var s := prev + [prev[|z| - 1] * StepFactor(p, m, z[|z| - 1])];
    forall j, k | 0 <= j && k == j + 1 && k < |s|
      ensures s[k] == s[j] * StepFactor(p, m, z[j])
    {
      if k < |prev| {
        assert z[..|z| - 1][j] == z[j];
        assert prev[k] == prev[j] * StepFactor(p, m, z[..|z| - 1][j]);
      }
    }
  }

  /** The hedge book over the price path s. */
  function Ledger(p: Params, pr: Pricer, m: Maths, s: seq<real>): (l: seq<Position>)
    requires p.nSteps >= 1 && |s| >= 1
    ensures IsBook(p, pr, m, s, l)
    decreases |s|
  {
    if |s| == 1 then [Opening(p, pr)]
    else
      var prev := Ledger(p, pr, m, s[..|s| - 1]);
      BookExtends(p, pr, m, s, prev);
      prev + [Rebalance(p, pr, m, prev[|s| - 2], s[|s| - 1], |s| - 1)]
  }

  /** One more price appends one more rebalanced point. */
  lemma BookExtends(p: Params, pr: Pricer, m: Maths, s: seq<real>, prev: seq<Position>)
    requires p.nSteps >= 1 && |s| >= 2 && IsBook(p, pr, m, s[..|s| - 1], prev)
    ensures IsBook(p, pr, m, s, prev + [Rebalance(p, pr, m, prev[|s| - 2], s[|s| - 1], |s| - 1)])
  {
    var l := prev + [Rebalance(p, pr, m, prev[|s| - 2], s[|s| - 1], |s| - 1)];
    forall j, k | 0 <= j && k == j + 1 && k < |s|
      ensures l[k] == Rebalance(p, pr, m, l[j], s[k], k)
    {
      if k < |prev| {
        assert s[..|s| - 1][k] == s[k];
        assert prev[k] == Rebalance(p, pr, m, prev[j], s[..|s| - 1][k], k);
      }
    }
  }

  /** The six series of a run with draws z. */
  function Simulate(p: Params, pr: Pricer, m: Maths, z: seq<real>): (res: Series)
    requires p.nSteps >= 1
    ensures IsRun(p, pr, m, z, res) && |res.stockPrices| == |z| + 1
  {
    var s := StockPath(p, m, z);
    var l := Ledger(p, pr, m, s);
    var res := Series(
      s,
      seq(|l|, i requires 0 <= i < |l| => l[i].option),
      seq(|l|, i requires 0 <= i < |l| => l[i].delta),
      seq(|l|, i requires 0 <= i < |l| => l[i].portfolio),
      seq(|l|, i requires 0 <= i < |l| => l[i].cash),
      seq(|l|, i requires 0 <= i < |l| => l[i].error));
    assert Positions(res) == l;
    res
  }

  // ---------------------------------------------------------------------------
  // The predicates determine the run
  // ---------------------------------------------------------------------------

  lemma {:induction false} PathUniqueAt(p: Params, m: Maths, z: seq<real>, s1: seq<real>, s2: seq<real>, i: nat)
    requires p.nSteps >= 1 && IsPath(p, m, z, s1) && IsPath(p, m, z, s2) && i < |s1|
    ensures s1[i] == s2[i]
  {
    if i > 0 {
      PathUniqueAt(p, m, z, s1, s2, i - 1);
      assert s1[i] == s1[i - 1] * StepFactor(p, m, z[i - 1]);
      assert s2[i] == s2[i - 1] * StepFactor(p, m, z[i - 1]);
    }
  }

  /** The draws determine the path. */
  lemma PathUnique(p: Params, m: Maths, z: seq<real>, s1: seq<real>, s2: seq<real>)
    requires p.nSteps >= 1 && IsPath(p, m, z, s1) && IsPath(p, m, z, s2)
    ensures s1 == s2
  {
    forall i | 0 <= i < |s1|
      ensures s1[i] == s2[i]
    {
      PathUniqueAt(p, m, z, s1, s2, i);
    }
  }

  lemma {:induction false} BookUniqueAt(p: Params, pr: Pricer, m: Maths, s: seq<real>, l1: seq<Position>, l2: seq<Position>, i: nat)
    requires p.nSteps >= 1 && IsBook(p, pr, m, s, l1) && IsBook(p, pr, m, s, l2) && i < |s|
    ensures l1[i] == l2[i]
  {
    if i > 0 {
      BookUniqueAt(p, pr, m, s, l1, l2, i - 1);
      assert l1[i] == Rebalance(p, pr, m, l1[i - 1], s[i], i);
      assert l2[i] == Rebalance(p, pr, m, l2[i - 1], s[i], i);
    }
  }

  /** The path determines the book. */
  lemma BookUnique(p: Params, pr: Pricer, m: Maths, s: seq<real>, l1: seq<Position>, l2: seq<Position>)
    requires p.nSteps >= 1 && IsBook(p, pr, m, s, l1) && IsBook(p, pr, m, s, l2)
    ensures l1 == l2
  {
    forall i | 0 <= i < |s|
      ensures l1[i] == l2[i]
    {
      BookUniqueAt(p, pr, m, s, l1, l2, i);
    }
  }

  /** Determinism: the parameters and the draws determine all six series. */
  lemma RunUnique(p: Params, pr: Pricer, m: Maths, z: seq<real>, res: Series)
    requires p.nSteps >= 1 && IsRun(p, pr, m, z, res)
    ensures res == Simulate(p, pr, m, z)
  {
    var ref := Simulate(p, pr, m, z);
    PathUnique(p, m, z, res.stockPrices, ref.stockPrices);
    BookUnique(p, pr, m, res.stockPrices, Positions(res), Positions(ref));
    var l := Positions(res);
    assert res.optionPrices == ref.optionPrices by {
      forall k | 0 <= k < |l| ensures res.optionPrices[k] == ref.optionPrices[k] { assert l[k].option == res.optionPrices[k]; }
    }
    assert res.deltas == ref.deltas by {
      forall k | 0 <= k < |l| ensures res.deltas[k] == ref.deltas[k] { assert l[k].delta == res.deltas[k]; }
    }
    assert res.cashPositions == ref.cashPositions by {
      forall k | 0 <= k < |l| ensures res.cashPositions[k] == ref.cashPositions[k] { assert l[k].cash == res.cashPositions[k]; }
    }
    assert res.portfolioValues == ref.portfolioValues by {
      forall k | 0 <= k < |l| ensures res.portfolioValues[k] == ref.portfolioValues[k] { assert l[k].portfolio == res.portfolioValues[k]; }
    }
    assert res.hedgeErrors == ref.hedgeErrors by {
      forall k | 0 <= k < |l| ensures res.hedgeErrors[k] == ref.hedgeErrors[k] { assert l[k].error == res.hedgeErrors[k]; }
    }
  }

  // ---------------------------------------------------------------------------
  // Properties of the time grid and the path
  // ---------------------------------------------------------------------------

  /** After n steps the remaining time is exactly 0, whatever T is; at point i it is (n - i) dt. */
  lemma RemainingTime(p: Params)
    requires p.nSteps >= 1
    ensures TimeToMaturity(p, 0) == p.T && TimeToMaturity(p, p.nSteps) == 0.0
    ensures forall i :: 0 <= i <= p.nSteps ==> TimeToMaturity(p, i) == (p.nSteps - i) as real * Dt(p)
  {
    assert Dt(p) * p.nSteps as real == p.T;
  }

  /** With T > 0 the remaining time falls strictly from T to 0 along the grid. */
  lemma RemainingTimeFalls(p: Params)
    requires p.nSteps >= 1 && p.T > 0.0
    ensures forall i, j :: 0 <= i < j <= p.nSteps ==> TimeToMaturity(p, i) > TimeToMaturity(p, j)
  {
    var dt := Dt(p);
    assert dt > 0.0;
    forall i, j | 0 <= i < j <= p.nSteps
      ensures TimeToMaturity(p, i) > TimeToMaturity(p, j)
    {
      assert TimeToMaturity(p, i) - TimeToMaturity(p, j) == (j - i) as real * dt;
    }
  }

  lemma {:induction false} PathPositiveAt(p: Params, m: Maths, z: seq<real>, s: seq<real>, i: nat)
    requires p.nSteps >= 1 && IsPath(p, m, z, s) && p.S0 > 0.0 && ExpPositive(m) && i < |s|
    ensures s[i] > 0.0
  {
    if i > 0 {
      PathPositiveAt(p, m, z, s, i - 1);
      assert s[i] == s[i - 1] * StepFactor(p, m, z[i - 1]);
      assert StepFactor(p, m, z[i - 1]) > 0.0;
    }
  }

  /** Every price on a path is positive when S0 is and exp never returns 0 or less. */
  lemma PathPositive(p: Params, m: Maths, z: seq<real>, s: seq<real>)
    requires p.nSteps >= 1 && IsPath(p, m, z, s) && p.S0 > 0.0 && ExpPositive(m)
    ensures forall i :: 0 <= i < |s| ==> s[i] > 0.0
  {
    forall i | 0 <= i < |s|
      ensures s[i] > 0.0
    {
      PathPositiveAt(p, m, z, s, i);
    }
  }

  // ---------------------------------------------------------------------------
  // Properties of the hedge book, over any price path that starts at S0
  // ---------------------------------------------------------------------------

  /** Point 0 as the engine seeds it; its hedge error is 0. */
  lemma Seeding(p: Params, pr: Pricer, m: Maths, s: seq<real>, l: seq<Position>)
    requires p.nSteps >= 1 && IsBook(p, pr, m, s, l)
    ensures l[0].option == CallPrice(pr, p.S0, p.K, p.T, p.r, p.sigma) * p.nOptions as real
    ensures l[0].delta == CallDelta(pr, p.S0, p.K, p.T, p.r, p.sigma) * p.nOptions as real
    ensures l[0].cash + l[0].delta * p.S0 == l[0].option
    ensures l[0].portfolio == l[0].option && l[0].error == 0.0
  {
  }

  /**
   * Option value and delta at every grid point are n_options times the
   * per-unit figures at that point's spot and remaining time.
   */
  lemma Repricing(p: Params, pr: Pricer, m: Maths, s: seq<real>, l: seq<Position>, i: nat)
    requires p.nSteps >= 1 && IsBook(p, pr, m, s, l) && s[0] == p.S0 && i < |s|
    ensures l[i].option == CallPrice(pr, s[i], p.K, TimeToMaturity(p, i), p.r, p.sigma) * p.nOptions as real
    ensures l[i].delta == CallDelta(pr, s[i], p.K, TimeToMaturity(p, i), p.r, p.sigma) * p.nOptions as real
  {
    if i > 0 {
      assert l[i] == Rebalance(p, pr, m, l[i - 1], s[i], i);
    }
  }

  /** At every grid point the book is marked to the stock it holds plus its cash. */
  lemma BookIdentity(p: Params, pr: Pricer, m: Maths, s: seq<real>, l: seq<Position>, i: nat)
    requires p.nSteps >= 1 && IsBook(p, pr, m, s, l) && s[0] == p.S0 && i < |s|
    ensures l[i].portfolio == l[i].delta * s[i] + l[i].cash
    ensures l[i].error == l[i].portfolio - l[i].option
  {
    if i > 0 {
      assert l[i] == Rebalance(p, pr, m, l[i - 1], s[i], i);
    }
  }

  /** stock_pnl: the profit on the shares held since the last point as the spot moves to price. */
  function StockPnl(prev: Position, prevPrice: real, price: real): real
  {
    prev.delta * (price - prevPrice)
  }

  /** cash_pnl: the interest earned over one step on the cash held since the last point. */
  function CashPnl(p: Params, m: Maths, prev: Position): real
    requires p.nSteps >= 1
  {
    prev.cash * (Accrual(p, m) - 1.0)
  }

  /** The profit over step i of the holdings chosen at point i - 1 (stock_pnl + cash_pnl). */
  ghost function StepPnl(p: Params, m: Maths, s: seq<real>, l: seq<Position>, i: nat): real
    requires p.nSteps >= 1 && 1 <= i < |s| && |l| == |s|
  {
    StockPnl(l[i - 1], s[i - 1], s[i]) + CashPnl(p, m, l[i - 1])
  }

  /** The profit summed over steps 1..k. */
  ghost function CumulativePnl(p: Params, m: Maths, s: seq<real>, l: seq<Position>, k: nat): real
    requires p.nSteps >= 1 && k < |s| && |l| == |s|
  {
    if k == 0 then 0.0 else CumulativePnl(p, m, s, l, k - 1) + StepPnl(p, m, s, l, k)
  }

  /**
   * Self-financing: the portfolio at point i is what the holdings chosen at
   * i - 1 are worth at the new spot, so over every step it changes by their
   * profit and by nothing else.
   */
  lemma SelfFinancing(p: Params, pr: Pricer, m: Maths, s: seq<real>, l: seq<Position>, i: nat)
    requires p.nSteps >= 1 && IsBook(p, pr, m, s, l) && s[0] == p.S0 && 1 <= i < |s|
    ensures l[i].portfolio == l[i - 1].cash * Accrual(p, m) + l[i - 1].delta * s[i]
    ensures l[i].portfolio - l[i - 1].portfolio == StepPnl(p, m, s, l, i)
  {
    BookIdentity(p, pr, m, s, l, i - 1);
    assert l[i] == Rebalance(p, pr, m, l[i - 1], s[i], i);
    var a, d, c := Accrual(p, m), l[i - 1].delta, l[i - 1].cash;
    assert l[i].portfolio == c * a + d * s[i];
    assert c * a + d * s[i] - (d * s[i - 1] + c) == d * (s[i] - s[i - 1]) + c * (a - 1.0);
  }

  /**
   * Summing the self-financing steps: the portfolio at point k is the
   * premium received at 0 plus the profit of steps 1..k, and the hedge
   * error is that amount less the option's value at k.
   */
  lemma {:induction false} Telescoping(p: Params, pr: Pricer, m: Maths, s: seq<real>, l: seq<Position>, k: nat)
    requires p.nSteps >= 1 && IsBook(p, pr, m, s, l) && s[0] == p.S0 && k < |s|
    ensures l[k].portfolio == l[0].option + CumulativePnl(p, m, s, l, k)
    ensures l[k].error == l[0].option + CumulativePnl(p, m, s, l, k) - l[k].option
  {
    BookIdentity(p, pr, m, s, l, k);
    if k > 0 {
      Telescoping(p, pr, m, s, l, k - 1);
      SelfFinancing(p, pr, m, s, l, k);
    }
  }

  /** With no options, no position is ever taken: every entry of the book is 0. */
  lemma {:induction false} NoOptionsNoPosition(p: Params, pr: Pricer, m: Maths, s: seq<real>, l: seq<Position>, i: nat)
    requires p.nSteps >= 1 && IsBook(p, pr, m, s, l) && p.nOptions == 0 && i < |s|
    ensures l[i] == Position(0.0, 0.0, 0.0, 0.0, 0.0)
  {
    if i > 0 {
      NoOptionsNoPosition(p, pr, m, s, l, i - 1);
      assert l[i] == Rebalance(p, pr, m, l[i - 1], s[i], i);
    }
  }
}
