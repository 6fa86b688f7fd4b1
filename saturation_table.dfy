/**
 * `PureFluidSaturationTableData::build`: a 1-D table along the saturation
 * curve, one row per pressure index for the liquid branch and one for the
 * vapor branch, filled point by point with holes where the evaluator throws,
 * and closed by the critical point at the last index.
 */
module SaturationTable {
  import opened Common
  import opened Evaluator

  /**
   * The eight columns of one branch at one index: `pX, TX, rhomolarX, hmolarX,
   * smolarX, umolarX, logpX, logrhomolarX` (X = L or V). Column `c` of the
   * branch at index `i` is field `c` of row `i`.
   */
  datatype SatRow = SatRow(
    p: Cell<real>, T: Cell<real>, rhomolar: Cell<real>, hmolar: Cell<real>,
    smolar: Cell<real>, umolar: Cell<real>, logp: Cell<real>, logrhomolar: Cell<real>)

  /** A row whose eight cells all still hold the sentinel. */
  const EmptyRow: SatRow := SatRow(Hole, Hole, Hole, Hole, Hole, Hole, Hole, Hole)

  /** The table's content as one value: what is packed and unpacked on disk. */
  datatype SatImage = SatImage(N: nat, liquid: seq<SatRow>, vapor: seq<SatRow>)

  /** Lower end of the pressure grid, just above the triple point. */
  function PMin(ev: Evaluator): real { ev.pTriple * 1.001 }

  /** Upper end of the pressure grid, just below the critical point. */
  function PMax(ev: Evaluator): real { 0.9999999 * ev.pCritical }

  /** The log-spaced pressure the loop uses at index `i` of an `n`-point table. */
  function SatPressure(ev: Evaluator, m: MathLib, n: nat, i: nat): real
    requires n >= 2
  {
    m.exp(m.log(PMin(ev)) + (m.log(PMax(ev)) - m.log(PMin(ev))) / ((n - 1) as real) * (i as real))
  }

  /** The row a successful update at pressure `p` writes: all eight columns. */
  function FilledRow(p: real, st: State, m: MathLib): SatRow {
    SatRow(Val(p), Val(st.T), Val(st.rhomolar), Val(st.hmolar), Val(st.smolar), Val(st.umolar),
           Val(m.log(p)), Val(m.log(st.rhomolar)))
  }

  /** The liquid row at loop index `i`: filled iff the quality-0 update returns. */
  function LiquidRow(ev: Evaluator, m: MathLib, n: nat, i: nat): SatRow
    requires n >= 2
  {
    var p := SatPressure(ev, m, n, i);
    match ev.update(PQInputs, p, 0.0)
    case Threw => EmptyRow
    case Ok(st) => FilledRow(p, st, m)
  }

  /**
   * The vapor row at loop index `i`: the quality-1 update is only attempted
   * when the quality-0 update at the same pressure returned.
   */
  function VaporRow(ev: Evaluator, m: MathLib, n: nat, i: nat): SatRow
    requires n >= 2
  {
    var p := SatPressure(ev, m, n, i);
    if ev.update(PQInputs, p, 0.0).Threw? then EmptyRow
    else match ev.update(PQInputs, p, 1.0)
      case Threw => EmptyRow
      case Ok(st) => FilledRow(p, st, m)
  }

  /** The unguarded update at the critical pressure that closes the table. */
  function CriticalUpdate(ev: Evaluator): Attempt<State> {
    ev.update(PQInputs, ev.pCritical, 1.0)
  }

  /**
   * The row both branches hold at index `n - 1`: the critical state's
   * properties, the pressure left over from the loop's last iteration, and
   * no log columns; all holes if the critical update threw.
   */
  function LastRow(ev: Evaluator, m: MathLib, n: nat): SatRow
    requires n >= 2
  {
    match CriticalUpdate(ev)
    case Threw => EmptyRow
    case Ok(st) =>
      EmptyRow.(p := Val(SatPressure(ev, m, n, n - 2)), T := Val(st.T), rhomolar := Val(st.rhomolar),
                hmolar := Val(st.hmolar), smolar := Val(st.smolar), umolar := Val(st.umolar))
  }

  /** A failed liquid update at a loop index leaves both branches' rows at that index empty. */
  lemma LiquidFailureSkipsVapor(ev: Evaluator, m: MathLib, n: nat, i: nat)
    requires n >= 2 && i < n - 1
    requires ev.update(PQInputs, SatPressure(ev, m, n, i), 0.0).Threw?
    ensures LiquidRow(ev, m, n, i) == EmptyRow && VaporRow(ev, m, n, i) == EmptyRow
  {
  }

  /**
   * A failed vapor update after a successful liquid one empties only the
   * vapor row: the liquid row keeps all eight columns of the quality-0 state.
   */
  lemma VaporFailureOnlyEmptiesVapor(ev: Evaluator, m: MathLib, n: nat, i: nat)
    requires n >= 2 && i < n - 1
    requires ev.update(PQInputs, SatPressure(ev, m, n, i), 0.0).Ok?
    requires ev.update(PQInputs, SatPressure(ev, m, n, i), 1.0).Threw?
    ensures VaporRow(ev, m, n, i) == EmptyRow
    ensures LiquidRow(ev, m, n, i).p == Val(SatPressure(ev, m, n, i))
    ensures LiquidRow(ev, m, n, i).logp == Val(m.log(SatPressure(ev, m, n, i)))
    ensures LiquidRow(ev, m, n, i) ==
              FilledRow(SatPressure(ev, m, n, i), ev.update(PQInputs, SatPressure(ev, m, n, i), 0.0).value, m)
  {
  }

  /**
   * The critical row: the critical state's T, rhomolar, hmolar, smolar and
   * umolar, the pressure of loop index `n - 2` rather than the critical
   * pressure, and the two log columns left as holes. Both branches hold
   * this row (see `Build`).
   */
  lemma CriticalRowShape(ev: Evaluator, m: MathLib, n: nat)
    requires n >= 2 && CriticalUpdate(ev).Ok?
    ensures LastRow(ev, m, n).p == Val(SatPressure(ev, m, n, n - 2))
    ensures LastRow(ev, m, n).T == Val(CriticalUpdate(ev).value.T)
    ensures LastRow(ev, m, n).rhomolar == Val(CriticalUpdate(ev).value.rhomolar)
    ensures LastRow(ev, m, n).hmolar == Val(CriticalUpdate(ev).value.hmolar)
    ensures LastRow(ev, m, n).smolar == Val(CriticalUpdate(ev).value.smolar)
    ensures LastRow(ev, m, n).umolar == Val(CriticalUpdate(ev).value.umolar)
    ensures LastRow(ev, m, n).logp == Hole && LastRow(ev, m, n).logrhomolar == Hole
  {
  }

  /**
   * One iteration of the build loop at index `i`: the pressure, then the
   * saturated liquid at it and, only if that returned, the saturated vapor.
   * An update that throws leaves its row (and, for the liquid, both rows)
   * empty. Returns the pressure the iteration used.
   */
  method SatPoint(ev: Evaluator, m: MathLib, n: nat, i: nat, ls: array<SatRow>, vs: array<SatRow>)
    returns (p: real)
    requires n >= 2 && i < n - 1 && ls != vs && ls.Length == n && vs.Length == n
    requires ls[i] == EmptyRow && vs[i] == EmptyRow
    modifies ls, vs
    ensures p == SatPressure(ev, m, n, i)
    ensures ls[i] == LiquidRow(ev, m, n, i) && vs[i] == VaporRow(ev, m, n, i)
    ensures forall k :: 0 <= k < n && k != i ==> ls[k] == old(ls[k]) && vs[k] == old(vs[k])
  {
    // log spaced between PMin(ev) and PMax(ev)
    p := SatPressure(ev, m, n, i);
    // saturated liquid
    var liq := ev.update(PQInputs, p, 0.0);
    if liq.Threw? {
      return;
    }
    var st := liq.value;
    ls[i] := ls[i].(p := Val(p), T := Val(st.T), rhomolar := Val(st.rhomolar),
                    hmolar := Val(st.hmolar), smolar := Val(st.smolar), umolar := Val(st.umolar),
                    logp := Val(m.log(p)), logrhomolar := Val(m.log(st.rhomolar)));
    // saturated vapor
    var vap := ev.update(PQInputs, p, 1.0);
    if vap.Threw? {
      return;
    }
    st := vap.value;
    vs[i] := vs[i].(p := Val(p), T := Val(st.T), rhomolar := Val(st.rhomolar),
                    hmolar := Val(st.hmolar), smolar := Val(st.smolar), umolar := Val(st.umolar),
                    logp := Val(m.log(p)), logrhomolar := Val(m.log(st.rhomolar)));
  }

  /**
   * The build loop over indices `0 .. n-2` of two fresh branches of `n`
   * empty rows. Returns the pressure of the last iteration, which the
   * critical row reuses.
   */
  method SatLoop(ev: Evaluator, m: MathLib, n: nat, ls: array<SatRow>, vs: array<SatRow>) returns (p: real)
    requires n >= 2 && ls != vs && ls.Length == n && vs.Length == n
    requires forall k :: 0 <= k < n ==> ls[k] == EmptyRow && vs[k] == EmptyRow
    modifies ls, vs
    ensures p == SatPressure(ev, m, n, n - 2)
    ensures forall k :: 0 <= k < n - 1 ==> ls[k] == LiquidRow(ev, m, n, k) && vs[k] == VaporRow(ev, m, n, k)
    ensures ls[n - 1] == EmptyRow && vs[n - 1] == EmptyRow
  {
    p := 0.0;
    for i := 0 to n - 1
      invariant forall k :: 0 <= k < i ==> ls[k] == LiquidRow(ev, m, n, k) && vs[k] == VaporRow(ev, m, n, k)
      invariant forall k :: i <= k < n ==> ls[k] == EmptyRow && vs[k] == EmptyRow
      invariant i > 0 ==> p == SatPressure(ev, m, n, i - 1)
    {
      p := SatPoint(ev, m, n, i, ls, vs);
    }
  }

  class PureFluidSaturationTableData {
    var N: nat
    var liquid: array<SatRow>
    var vapor: array<SatRow>

    /** A table of `n` points that has not been built yet. */
    constructor (n: nat)
      ensures N == n && liquid.Length == 0 && vapor.Length == 0
    {
      N := n;
      liquid := new SatRow[0];
      vapor := new SatRow[0];
    }

    /**
     * Resizes both branches to `N` empty rows, fills indices `0 .. N-2` from
     * the log-spaced pressure grid, skipping an index (and its vapor attempt)
     * when an update throws, then writes the critical row at `N - 1` into
     * both branches. `ok` is false when the critical update threw: the
     * exception leaves the loop's rows in place and row `N - 1` empty.
     */
    method Build(ev: Evaluator, m: MathLib) returns (ok: bool)
      requires N >= 2
      modifies this
      ensures N == old(N)
      ensures fresh(liquid) && fresh(vapor) && liquid.Length == N && vapor.Length == N
      ensures forall i :: 0 <= i < N - 1 ==>
                liquid[i] == LiquidRow(ev, m, N, i) && vapor[i] == VaporRow(ev, m, N, i)
      ensures ok == CriticalUpdate(ev).Ok?
      ensures liquid[N - 1] == LastRow(ev, m, N) && vapor[N - 1] == LastRow(ev, m, N)
    {
      var n := N;
      var ls := new SatRow[n](_ => EmptyRow);
      var vs := new SatRow[n](_ => EmptyRow);
      liquid, vapor := ls, vs;
      var p := SatLoop(ev, m, n, ls, vs);
      // the last point is the critical point
      var crit := ev.update(PQInputs, ev.pCritical, 1.0);
      if crit.Threw? {
        return false;
      }
      var st := crit.value;
      var i := n - 1;
      vs[i] := vs[i].(p := Val(p), T := Val(st.T), rhomolar := Val(st.rhomolar),
                      hmolar := Val(st.hmolar), smolar := Val(st.smolar), umolar := Val(st.umolar));
      ls[i] := ls[i].(p := Val(p), T := Val(st.T), rhomolar := Val(st.rhomolar),
                      hmolar := Val(st.hmolar), smolar := Val(st.smolar), umolar := Val(st.umolar));
      return true;
    }
  }
}
