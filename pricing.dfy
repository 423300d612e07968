/**
 * The collaborators the hedging engine calls but does not define: the
 * Black-Scholes call price and delta, and the exponential and square root.
 * They are kept abstract as total functions, so every property proved about
 * the engine holds whatever numbers they return.
 */
module Pricing {

  /** Per-unit call price and delta, each a function of (S, K, tau, r, sigma). */
  datatype Pricer = Pricer(
    callPrice: (real, real, real, real, real) -> real,
    callDelta: (real, real, real, real, real) -> real)

  /** The two transcendental functions the path and the cash account use. */
  datatype Maths = Maths(exp: real -> real, sqrt: real -> real)

  /** black_scholes_call(S, K, tau, r, sigma). */
  function CallPrice(pr: Pricer, S: real, K: real, tau: real, r: real, sigma: real): real
  {
    pr.callPrice(S, K, tau, r, sigma)
  }

  /** calculate_delta(S, K, tau, r, sigma). */
  function CallDelta(pr: Pricer, S: real, K: real, tau: real, r: real, sigma: real): real
  {
    pr.callDelta(S, K, tau, r, sigma)
  }

  /** np.exp(x). */
  function Exp(m: Maths, x: real): real
  {
    m.exp(x)
  }

  /** np.sqrt(x). */
  function Sqrt(m: Maths, x: real): real
  {
    m.sqrt(x)
  }

  /** The one fact about exp the model relies on, and only for a positive path. */
  ghost predicate ExpPositive(m: Maths)
  {
    forall x :: Exp(m, x) > 0.0
  }
}
