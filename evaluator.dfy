/**
 * The foreign property evaluator (the `AbstractState` the builders drive) and
 * the floating-point helpers they call, taken as given values. Nothing in this
 * module models how a state is converged; it only names what a converged state
 * exposes and where a call may throw.
 */
module Evaluator {
  import opened Common

  /** The property keys the builders pass to the evaluator. */
  datatype Param = IT | IP | IDmolar | IHmolar | ISmolar | IUmolar | IQ

  /** Phase classification reported by the evaluator after an update. */
  datatype Phase =
    | Liquid | Supercritical | SupercriticalGas | SupercriticalLiquid
    | CriticalPoint | Gas | TwoPhase | Unknown | NotImposed

  /** The pair of independent inputs an update is given. */
  datatype InputPair = PQInputs | PTInputs | HmolarPInputs | OtherInputs(code: int)

  /**
   * A request for one partial derivative:
   * `First(of, wrt, held)` is d(of)/d(wrt) at constant `held`;
   * `Second(of, wrt1, held1, wrt2, held2)` differentiates that once more
   * with respect to `wrt2` at constant `held2`.
   */
  datatype DerivCall =
    | First(of: Param, wrt: Param, held: Param)
    | Second(of: Param, wrt1: Param, held1: Param, wrt2: Param, held2: Param)

  /**
   * A converged state. The plain properties are cached by the update and read
   * without failure; transport properties and derivatives are computed on
   * demand and may throw.
   */
  datatype State = State(
    T: real, p: real, rhomolar: real, hmolar: real, smolar: real, umolar: real,
    phase: Phase,
    viscosity: Attempt<real>,
    conductivity: Attempt<real>,
    deriv: DerivCall -> Attempt<real>)

  /**
   * The evaluator bound to one fluid: its triple and critical pressures, its
   * update (which may throw), and `generate_update_pair`, which turns two keyed
   * values into the evaluator's native input pair.
   */
  datatype Evaluator = Evaluator(
    pTriple: real,
    pCritical: real,
    update: (InputPair, real, real) -> Attempt<State>,
    updatePair: (Param, real, Param, real) -> (InputPair, real, real))

  /**
   * The floating-point helpers the builders use: `exp`, `log` and
   * `ValidNumber` (false for NaN, infinities and the sentinel).
   */
  datatype MathLib = MathLib(exp: real -> real, log: real -> real, validNumber: real -> bool)
}
