# Delta-hedging simulator — a Dafny model

The program simulates dynamic delta hedging of a European call position. A
`DeltaHedgingSimulator` is built from seven parameters:

- spot `S0`, strike `K`, maturity `T`, rate `r`, volatility `sigma`;
- the number of time steps `n_steps`;
- the number of options `n_options`.

It allocates six result arrays of length `n_steps + 1`. `run_simulation` then
works in two stages.

1. It fills the stock-price array along an exact geometric-Brownian-motion
   path, one normal draw per step.
2. It sells the options at index 0 and holds their Black-Scholes delta in
   stock, with the rest in cash. At every later grid point it reprices the
   options at the new spot and the remaining time. It grows the cash at the
   risk-free rate, settles the change of delta against cash at the new spot,
   and records the portfolio value and the hedge error. The hedge error is
   the portfolio value minus the option value.

`get_results` hands back the six arrays.

The project has three modules:

- `Pricing` (pricing.dfy) holds what the engine calls but does not define:
  - the per-unit call price and delta;
  - `exp` and `sqrt`.

  They are function-valued fields of two datatypes handed to the
  constructor, so every result holds whatever numbers they return. The one
  fact assumed about them is `ExpPositive`, the positivity of `exp`, and it
  appears only as a precondition of the positivity lemmas.
- `HedgingModel` (hedging_model.dfy) is a value-level reference for one run.
  - The predicates `IsPath` and `IsBook` give the seeding and the one-step
    recurrence of the path and of the hedge book. `IsRun` joins them for the
    six series.
  - `StockPath`, `Ledger` and `Simulate` compute them.
  - The uniqueness lemmas show the predicates are deterministic.
  - The properties of a run are proved for any path and book that satisfy
    the predicates.
- `DeltaHedging` (delta_hedging.dfy) is the simulator itself: a class with
  the six `array<real>` fields, a constructor, and loop methods.
  - The loop methods write the arrays in place.
  - They are proved to leave exactly the reference series in them.
  - The class invariant `Valid` records the array lengths and that the
    arrays are distinct. It also records that `hedge_errors[0]` stays 0, and
    that after a run the arrays satisfy `IsRun` for the draws used.

The draws of `np.random.normal` are a parameter: a sequence `z` of
`n_steps` reals, with `z[i - 1]` used at step `i`.

## Model

| member | source | states |
|---|---|---|
| DeltaHedging.DeltaHedgingSimulator.constructor | delta_hedging.py:5-33 | stores the seven parameters; dt = T / n_steps; six fresh arrays of length n_steps + 1, all zero; the class invariant holds and no run is recorded |
| DeltaHedging.DeltaHedgingSimulator.GenerateStockPath | delta_hedging.py:35-43 | the stock array becomes the GBM path of the draws: S[0] = S0 and S[i] = S[i-1]·exp((r − σ²/2)dt + σ√dt·z[i-1]); every price is positive when S0 is and exp is; no other array changes |
| DeltaHedging.DeltaHedgingSimulator.RunSimulation | delta_hedging.py:45-88 | after a run the six arrays equal the reference series `Simulate` of the parameters and draws; the invariant holds and records the run; hedge_errors[0] is never written |
| DeltaHedging.DeltaHedgingSimulator.Rebalancing | delta_hedging.py:64-88 | the rebalancing loop: over the stock path in place and the book opened at index 0, the five book arrays become the book `IsBook` of that path; hedge_errors[0] stays 0; the stock array is not written |
| DeltaHedging.DeltaHedgingSimulator.RebalanceAt | delta_hedging.py:66-88 | one pass of the loop body: the five book entries at i become `Rebalance` of the entries at i − 1, the spot S[i] and index i; every other index is unchanged; stockPnl = delta[i-1]·(S[i] − S[i-1]) and cashPnl = cash[i-1]·(exp(r·dt) − 1), as lines 78-79 compute them, and their sum is exactly the change in portfolio value |
| DeltaHedging.DeltaHedgingSimulator.GetResults | delta_hedging.py:90-99 | returns the six arrays themselves, not copies; hedge_errors[0] is 0; after a run their contents satisfy `IsRun` for the draws used |
| HedgingModel.Dt | delta_hedging.py:25 | definition, no contract: dt = T / n_steps |
| HedgingModel.TimeToMaturity | delta_hedging.py:52-66 | definition, no contract: T at index 0 (lines 51-57 pass T itself), T − i·dt at index i ≥ 1 (line 66) |
| HedgingModel.LogReturn | delta_hedging.py:40-43 | definition, no contract: the exponent (r − σ²/2)·dt + σ·√dt·z of one path step |
| HedgingModel.StepFactor | delta_hedging.py:40-43 | definition, no contract: exp of `LogReturn`, the growth of the spot over one step |
| HedgingModel.Accrual | delta_hedging.py:79-82 | definition, no contract: exp(r·dt), the growth of one unit of cash over one step |
| HedgingModel.Opening | delta_hedging.py:51-61 | definition, no contract: option and delta at (S0, K, T) times n_options, cash = option − delta·S0, portfolio = option, hedge error 0 (array still zero) |
| HedgingModel.Rebalance | delta_hedging.py:66-88 | definition, no contract: reprice at the new spot and `TimeToMaturity(i)`, cash grown by `Accrual` less the change of delta times the spot, portfolio = delta·S + cash, error = portfolio − option |
| HedgingModel.StockPnl | delta_hedging.py:78 | definition, no contract: delta[i-1]·(S[i] − S[i-1]) |
| HedgingModel.CashPnl | delta_hedging.py:79 | definition, no contract: cash[i-1]·(exp(r·dt) − 1) |
| HedgingModel.StockPath | delta_hedging.py:37-43 | the computed path satisfies `IsPath`: length n + 1, starts at S0, one GBM factor per draw |
| HedgingModel.PathExtends | delta_hedging.py:38-43 | appending one price grown by the next draw's factor extends a path by one draw |
| HedgingModel.Ledger | delta_hedging.py:51-88 | the computed book satisfies `IsBook`: opened at 0 as the engine seeds it, rebalanced at every later point |
| HedgingModel.BookExtends | delta_hedging.py:64-88 | appending one rebalanced position extends a book by one grid point |
| HedgingModel.Simulate | delta_hedging.py:45-99 | the six series of a run satisfy `IsRun` and have length n_steps + 1 |
| HedgingModel.PathUniqueAt | delta_hedging.py:37-43 | two paths of the same draws agree at every index |
| HedgingModel.PathUnique | delta_hedging.py:37-43 | the draws determine the path |
| HedgingModel.BookUniqueAt | delta_hedging.py:51-88 | two books over the same path agree at every index |
| HedgingModel.BookUnique | delta_hedging.py:51-88 | the path determines the book |
| HedgingModel.RunUnique | delta_hedging.py:45-99 | any six series satisfying `IsRun` are exactly `Simulate` of the parameters and draws (determinism) |
| HedgingModel.RemainingTime | delta_hedging.py:64-66 | for every T: remaining time is T at index 0 and exactly 0 at n_steps, and at i it is (n_steps − i)·dt |
| HedgingModel.RemainingTimeFalls | delta_hedging.py:64-66 | when T > 0, remaining time falls strictly along the grid |
| HedgingModel.PathPositiveAt | delta_hedging.py:37-43 | price i of a path is positive when S0 > 0 and exp is positive |
| HedgingModel.PathPositive | delta_hedging.py:37-43 | every price on a path is positive when S0 > 0 and exp is positive |
| HedgingModel.Seeding | delta_hedging.py:51-61 | at index 0: option and delta are n_options times the per-unit price and delta at (S0, K, T); cash + delta·S0 = option; portfolio = option; hedge error 0 |
| HedgingModel.Repricing | delta_hedging.py:51-75 | at every index, option value and delta are n_options times the per-unit figures at that spot and remaining time |
| HedgingModel.BookIdentity | delta_hedging.py:60-88 | at every index, portfolio = delta·S + cash and hedge error = portfolio − option |
| HedgingModel.SelfFinancing | delta_hedging.py:78-85 | portfolio[i] = cash[i-1]·exp(r·dt) + delta[i-1]·S[i]; the change in portfolio value over step i is exactly stock_pnl + cash_pnl |
| HedgingModel.Telescoping | delta_hedging.py:61-88 | portfolio[k] is the premium received at 0 plus the profit of steps 1..k; the hedge error at k is that amount less the option value at k |
| HedgingModel.NoOptionsNoPosition | delta_hedging.py:51-88 | with n_options = 0 every option value, delta, cash, portfolio value and hedge error is 0 |

## Left out

- app.py, the form that collects the parameters and prints a summary, is not part of this model: it is UI and console I/O.
- plots.py, the charts and the histogram of hedge errors, is not part of this model: it is presentation only, over a plotting library.
- The closed forms of `black_scholes_call` and `calculate_delta` (black_scholes.py:4-40) are left out. They are floating-point transcendental numerics over `log`, `sqrt` and the normal CDF, so they appear only as abstract total functions. Price bounds and the values of delta are therefore not proved.
- `calculate_gamma` (black_scholes.py:42-58) is left out: the engine never calls it.
- `np.random.normal` (delta_hedging.py:39) is left out: randomness and the normal distribution are replaced by an explicit sequence of draws.
- Floating-point rounding is left out; the model uses exact reals. So `T - n_steps*dt` is exactly 0 here, while over floats it may be a tiny nonzero number.
- The pricer's behaviour at remaining time 0 is not reproduced. At the final step (delta_hedging.py:66) the remaining time is 0, and black_scholes.py:18 then divides `log(S/K)` by a numpy zero. That gives an infinite d1 and a runtime warning, not an exception. The formulas on lines 19-21 and 39 then return the intrinsic value `max(S − K, 0)` and a delta of exactly 1 (S > K) or 0 (S < K). They return NaN only when S == K, where the division is 0/0, or when a float remaining time comes out slightly negative. The abstract pricer does not have these special values at τ = 0; it returns whatever reals it is given.
- DeltaHedging.DeltaHedgingSimulator.constructor: requires n_steps >= 1, because the source raises ZeroDivisionError at `T / n_steps` when it is 0. A negative n_steps cannot arise, since the model types it as a natural number.
- The source validates no other parameter (S0, K, T, sigma > 0, n_options >= 0), and no caller in the repository checks them either. The model follows the code and validates nothing else. Lemmas that need a sign, such as positivity and strictly falling remaining time, take it as a premise.
- Python's dynamic typing is left out: n_options could be a float in the source, but the model types it as an integer.
- `get_results` returns a dictionary keyed by column name; this is modelled as a datatype with one field per key.
