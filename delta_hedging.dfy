/**
 * The simulator object: seven parameters, the step length, and six result
 * arrays of length n_steps + 1 that the two loops fill in place, each step
 * reading index i - 1 and writing index i.
 */
module DeltaHedging {
  import opened Pricing
  import opened HedgingModel

  /** What get_results hands back: the six arrays themselves, not copies. */
  datatype Results = Results(
    stockPrices: array<real>,
    optionPrices: array<real>,
    deltas: array<real>,
    portfolioValues: array<real>,
    cashPositions: array<real>,
    hedgeErrors: array<real>)

  /** Every entry of a is 0, as np.zeros leaves it. */
  ghost predicate AllZero(a: array<real>)
    reads a
  {
    forall k :: 0 <= k < a.Length ==> a[k] == 0.0
  }

  class DeltaHedgingSimulator {
    const S0: real
    const K: real
    const T: real
    const r: real
    const sigma: real
    const nSteps: nat
    const nOptions: int
    const dt: real

    /** The pricing library and the maths library the source imports. */
    const pricer: Pricer
    const maths: Maths

    const stockPrices: array<real>
    const optionPrices: array<real>
    const deltas: array<real>
    const portfolioValues: array<real>
    const cashPositions: array<real>
    const hedgeErrors: array<real>

    /** Whether the arrays hold a complete run, and with which draws. */
    ghost var simulated: bool
    ghost var draws: seq<real>

    function Parameters(): Params
    {
      Params(S0, K, T, r, sigma, nSteps, nOptions)
    }

    /** The current contents of the six arrays. */
    ghost function Snapshot(): Series
      reads stockPrices, optionPrices, deltas, portfolioValues, cashPositions, hedgeErrors
    {
      Series(stockPrices[..], optionPrices[..], deltas[..], portfolioValues[..], cashPositions[..], hedgeErrors[..])
    }

    /** The book entries at grid point k, read off the five book arrays. */
    ghost function Row(k: nat): Position
      reads optionPrices, deltas, portfolioValues, cashPositions, hedgeErrors
      requires k < optionPrices.Length && k < deltas.Length && k < portfolioValues.Length
      requires k < cashPositions.Length && k < hedgeErrors.Length
    {
      Position(optionPrices[k], deltas[k], cashPositions[k], portfolioValues[k], hedgeErrors[k])
    }

    /** No two of the six arrays are the same array. */
    ghost predicate Separate()
    {
      stockPrices != optionPrices && stockPrices != deltas && stockPrices != portfolioValues &&
      stockPrices != cashPositions && stockPrices != hedgeErrors &&
      optionPrices != deltas && optionPrices != portfolioValues && optionPrices != cashPositions &&
      optionPrices != hedgeErrors &&
      deltas != portfolioValues && deltas != cashPositions && deltas != hedgeErrors &&
      portfolioValues != cashPositions && portfolioValues != hedgeErrors &&
      cashPositions != hedgeErrors
    }

    /** The facts __init__ establishes that no later call can change. */
    ghost predicate Shaped()
    {
      nSteps >= 1 && dt == T / nSteps as real &&
      stockPrices.Length == nSteps + 1 && optionPrices.Length == nSteps + 1 &&
      deltas.Length == nSteps + 1 && portfolioValues.Length == nSteps + 1 &&
      cashPositions.Length == nSteps + 1 && hedgeErrors.Length == nSteps + 1 &&
      Separate()
    }

    ghost predicate Valid()
      reads this, stockPrices, optionPrices, deltas, portfolioValues, cashPositions, hedgeErrors
    {
      Shaped() &&
      // the loop of run_simulation starts at 1, so nothing ever writes hedge_errors[0]
      hedgeErrors[0] == 0.0 &&
      (simulated ==> IsRun(Parameters(), pricer, maths, draws, Snapshot()))
    }

    /** __init__: store the parameters, compute dt and allocate six zeroed arrays. */
    constructor (S0: real, K: real, T: real, r: real, sigma: real, nSteps: nat, nOptions: int,
                 pricer: Pricer, maths: Maths)
      requires nSteps >= 1
      ensures Valid() && !simulated
      ensures Parameters() == Params(S0, K, T, r, sigma, nSteps, nOptions)
      ensures this.pricer == pricer && this.maths == maths
      ensures dt == T / nSteps as real
      ensures fresh(stockPrices) && fresh(optionPrices) && fresh(deltas)
      ensures fresh(portfolioValues) && fresh(cashPositions) && fresh(hedgeErrors)
      ensures AllZero(stockPrices) && AllZero(optionPrices) && AllZero(deltas)
      ensures AllZero(portfolioValues) && AllZero(cashPositions) && AllZero(hedgeErrors)
    {
      this.S0 := S0;
      this.K := K;
      this.T := T;
      this.r := r;
      this.sigma := sigma;
      this.nSteps := nSteps;
      this.nOptions := nOptions;
      this.dt := T / nSteps as real;
      this.pricer := pricer;
      this.maths := maths;
      stockPrices := new real[nSteps + 1](_ => 0.0);
      optionPrices := new real[nSteps + 1](_ => 0.0);
      deltas := new real[nSteps + 1](_ => 0.0);
      portfolioValues := new real[nSteps + 1](_ => 0.0);
      cashPositions := new real[nSteps + 1](_ => 0.0);
      hedgeErrors := new real[nSteps + 1](_ => 0.0);
      simulated := false;
      draws := [];
    }

    /** generate_stock_path, with the n_steps normal draws supplied as z. */
    method GenerateStockPath(z: seq<real>)
      requires Valid() && |z| == nSteps
      modifies this, stockPrices
      ensures Valid() && !simulated
      ensures IsPath(Parameters(), maths, z, stockPrices[..])
      ensures S0 > 0.0 && ExpPositive(maths) ==> forall k :: 0 <= k < stockPrices.Length ==> stockPrices[k] > 0.0
    {
      ghost var p := Parameters();
      stockPrices[0] := S0;
      for i := 1 to nSteps + 1
        invariant p == Parameters() && Shaped()
        invariant stockPrices[0] == S0
        invariant forall j, k :: 0 <= j && k == j + 1 && k < i ==>
          stockPrices[k] == stockPrices[j] * StepFactor(p, maths, z[j])
      {
        var logReturn := (r - 0.5 * sigma * sigma) * dt + sigma * Sqrt(maths, dt) * z[i - 1];
        assert LogReturn(p, maths, z[i - 1]) == logReturn;
        stockPrices[i] := stockPrices[i - 1] * Exp(maths, logReturn);
      }
      assert IsPath(p, maths, z, stockPrices[..]);
      if S0 > 0.0 && ExpPositive(maths) {
        PathPositive(p, maths, z, stockPrices[..]);
      }
      simulated := false;
    }

    /** run_simulation: generate the path, seed index 0, then rebalance at every later step. */
    method RunSimulation(z: seq<real>)
      requires Valid() && |z| == nSteps
      modifies this, stockPrices, optionPrices, deltas, portfolioValues, cashPositions, hedgeErrors
      ensures Valid() && simulated && draws == z
      ensures Snapshot() == Simulate(Parameters(), pricer, maths, z)
      ensures hedgeErrors[0] == old(hedgeErrors[0])
    {
      GenerateStockPath(z);

      optionPrices[0] := CallPrice(pricer, S0, K, T, r, sigma) * nOptions as real;
      deltas[0] := CallDelta(pricer, S0, K, T, r, sigma) * nOptions as real;
      cashPositions[0] := optionPrices[0] - deltas[0] * S0;
      portfolioValues[0] := optionPrices[0];

      Rebalancing();
      simulated := true;
      draws := z;
      RunUnique(Parameters(), pricer, maths, z, Snapshot());
    }

    /**
     * The rebalancing loop of run_simulation: over the stock path already in
     * place and the book opened at index 0, fill indices 1..n_steps.
     */
    method Rebalancing()
      requires Shaped() && hedgeErrors[0] == 0.0 && stockPrices[0] == S0
      requires Row(0) == Opening(Parameters(), pricer)
      modifies optionPrices, deltas, portfolioValues, cashPositions, hedgeErrors
      ensures hedgeErrors[0] == 0.0
      ensures IsBook(Parameters(), pricer, maths, stockPrices[..], Positions(Snapshot()))
    {
      ghost var p := Parameters();
      ghost var s := stockPrices[..];
      ghost var book := [Row(0)];

      for i := 1 to nSteps + 1
        invariant hedgeErrors[0] == 0.0
        invariant IsBook(p, pricer, maths, s[..i], book)
        invariant forall k :: 0 <= k < i ==> Row(k) == book[k]
      {
        ghost var before := book[i - 1];
        BookIdentity(p, pricer, maths, s[..i], book, i - 1);
        var stockPnl, cashPnl := RebalanceAt(i);
        assert s[..i + 1][..i] == s[..i];
        BookExtends(p, pricer, maths, s[..i + 1], book);
        book := book + [Rebalance(p, pricer, maths, before, s[i], i)];
      }

      assert s[..nSteps + 1] == s;
      assert Positions(Snapshot()) == book;
    }

    /**
     * One pass of the rebalancing loop at grid point i: reprice, settle the
     * change of hedge against cash, revalue. Also hands back the step's stock
     * and cash profit, which the source computes and then discards; they add
     * up to exactly the change in portfolio value.
     */
    method RebalanceAt(i: nat) returns (stockPnl: real, cashPnl: real)
      requires Shaped() && 1 <= i <= nSteps
      requires portfolioValues[i - 1] == deltas[i - 1] * stockPrices[i - 1] + cashPositions[i - 1]
      modifies optionPrices, deltas, portfolioValues, cashPositions, hedgeErrors
      ensures Row(i) == Rebalance(Parameters(), pricer, maths, old(Row(i - 1)), stockPrices[i], i)
      ensures forall k :: 0 <= k <= nSteps && k != i ==> Row(k) == old(Row(k))
      ensures stockPnl == StockPnl(old(Row(i - 1)), stockPrices[i - 1], stockPrices[i])
      ensures cashPnl == CashPnl(Parameters(), maths, old(Row(i - 1)))
      ensures portfolioValues[i] - portfolioValues[i - 1] == stockPnl + cashPnl
    {
      ghost var p := Parameters();
      ghost var before := Row(i - 1);
      ghost var after := Rebalance(p, pricer, maths, before, stockPrices[i], i);

      var timeToMaturity := T - i as real * dt;
      assert timeToMaturity == TimeToMaturity(p, i);
      assert RiskFreeExponent(p) == r * dt;

      optionPrices[i] := CallPrice(pricer, stockPrices[i], K, timeToMaturity, r, sigma) * nOptions as real;
      deltas[i] := CallDelta(pricer, stockPrices[i], K, timeToMaturity, r, sigma) * nOptions as real;

      stockPnl := deltas[i - 1] * (stockPrices[i] - stockPrices[i - 1]);
      cashPnl := cashPositions[i - 1] * (Exp(maths, r * dt) - 1.0);

      cashPositions[i] := cashPositions[i - 1] * Exp(maths, r * dt) -
                          (deltas[i] - deltas[i - 1]) * stockPrices[i];
      portfolioValues[i] := deltas[i] * stockPrices[i] + cashPositions[i];
      hedgeErrors[i] := portfolioValues[i] - optionPrices[i];
      assert Row(i) == after;
    }

    /** get_results: the six arrays; after a run they hold exactly the reference series. */
    function GetResults(): (res: Results)
      requires Valid()
      reads this, stockPrices, optionPrices, deltas, portfolioValues, cashPositions, hedgeErrors
      ensures res == Results(stockPrices, optionPrices, deltas, portfolioValues, cashPositions, hedgeErrors)
      ensures res.hedgeErrors[0] == 0.0
      ensures simulated ==> IsRun(Parameters(), pricer, maths, draws, Snapshot())
    {
      Results(stockPrices, optionPrices, deltas, portfolioValues, cashPositions, hedgeErrors)
    }
  }
}
