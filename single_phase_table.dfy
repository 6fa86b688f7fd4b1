/**
 * `SinglePhaseGriddedTableData::build`: a 2-D table over two axes. Every
 * point is evaluated once; a point whose update throws, whose density is not
 * a valid number, or whose phase is two-phase stays a hole in every grid. An
 * accepted point gets its five state properties, then its transport
 * properties under their own guard, then 25 partial derivatives that are not
 * guarded at all: a throwing derivative ends the whole build.
 */
module SinglePhaseTable {
  import opened Common
  import opened Evaluator

  /** Grids: 5 state properties, 2 transport properties, 10 first and 15 second derivatives. */
  const GridCount: nat := 32
  const DerivCount: nat := 25

  /**
   * Grid indices: the state grids `T, p, rhomolar, hmolar, smolar`, the
   * transport grids `visc, cond`, and where the derivative grids start.
   * Grid `FirstDerivGrid + k` holds the answers to request `k` (see
   * `Request`): `dTdx, dTdy, ..., dsmolardy`, then `d2Tdx2, d2Tdxdy,
   * d2Tdy2, ..., d2smolardy2`.
   */
  const GridT: nat := 0
  const GridP: nat := 1
  const GridRhomolar: nat := 2
  const GridHmolar: nat := 3
  const GridSmolar: nat := 4
  const GridVisc: nat := 5
  const GridCond: nat := 6
  const FirstDerivGrid: nat := 7

  /** The five state properties whose derivatives the table holds, in grid order. */
  const StateParams: seq<Param> := [IT, IP, IDmolar, IHmolar, ISmolar]

  /**
   * Request `k` of the build, `k < 25`. Requests `0 .. 9` are the first
   * derivatives, two per state property in `StateParams` order: along x at
   * constant y, then along y at constant x. Requests `10 .. 24` are the
   * second derivatives, three per state property in the same order: xx, xy,
   * then yy.
   */
  function Request(xkey: Param, ykey: Param, k: nat): DerivCall
    requires k < DerivCount
  {
    if k < 10 then
      var of := StateParams[k / 2];
      if k % 2 == 0 then First(of, xkey, ykey) else First(of, ykey, xkey)
    else
      var of := StateParams[(k - 10) / 3];
      if (k - 10) % 3 == 0 then Second(of, xkey, ykey, xkey, ykey)
      else if (k - 10) % 3 == 1 then Second(of, xkey, ykey, ykey, xkey)
      else Second(of, ykey, xkey, ykey, xkey)
  }

  /** The derivative requests in the order the build issues them; request `k` fills grid `FirstDerivGrid + k`. */
  function DerivativeCalls(xkey: Param, ykey: Param): (calls: seq<DerivCall>)
    ensures |calls| == DerivCount
  {
    seq(DerivCount, k requires 0 <= k < DerivCount => Request(xkey, ykey, k))
  }

  /**
   * Request `2q` and `2q + 1` are the first derivatives of the `q`-th state
   * property and requests `10 + 3q .. 10 + 3q + 2` its second derivatives.
   */
  lemma DerivativeCallsPattern(xkey: Param, ykey: Param, q: nat)
    requires q < 5
    ensures DerivativeCalls(xkey, ykey)[2 * q] == First(StateParams[q], xkey, ykey)
    ensures DerivativeCalls(xkey, ykey)[2 * q + 1] == First(StateParams[q], ykey, xkey)
    ensures DerivativeCalls(xkey, ykey)[10 + 3 * q] == Second(StateParams[q], xkey, ykey, xkey, ykey)
    ensures DerivativeCalls(xkey, ykey)[10 + 3 * q + 1] == Second(StateParams[q], xkey, ykey, ykey, xkey)
    ensures DerivativeCalls(xkey, ykey)[10 + 3 * q + 2] == Second(StateParams[q], ykey, xkey, ykey, xkey)
  {
    assert (2 * q) / 2 == q && (2 * q + 1) / 2 == q && (2 * q) % 2 == 0 && (2 * q + 1) % 2 == 1;
    assert (3 * q) / 3 == q && (3 * q + 1) / 3 == q && (3 * q + 2) / 3 == q;
    assert (3 * q) % 3 == 0 && (3 * q + 1) % 3 == 1 && (3 * q + 2) % 3 == 2;
  }

  /** One axis descriptor: the key of its quantity, its range, its point count and its spacing. */
  datatype Axis = Axis(key: Param, min: real, max: real, n: nat, logSpaced: bool)

  /** Both axes of a table. */
  datatype Plan = Plan(x: Axis, y: Axis)

  /**
   * The sample formulas are defined: at least two points per axis (the step
   * divides by `n - 1`), and a non-zero lower end for a log-spaced y axis
   * (its step divides by `min`).
   */
  predicate Sampled(pl: Plan) {
    pl.x.n >= 2 && pl.y.n >= 2 && (pl.y.logSpaced ==> pl.y.min != 0.0)
  }

  /** Linear spacing: `lo + (hi - lo) / (n - 1) * i`. */
  function LinearSample(lo: real, hi: real, n: nat, i: nat): real
    requires n >= 2
  {
    lo + (hi - lo) / ((n - 1) as real) * (i as real)
  }

  /** The x sample at index `i`. */
  function XSample(a: Axis, m: MathLib, i: nat): real
    requires a.n >= 2
  {
    if a.logSpaced then m.exp(m.log(a.min) + (m.log(a.max) - m.log(a.min)) / ((a.n - 1) as real) * (i as real))
    else LinearSample(a.min, a.max, a.n, i)
  }

  /** The y sample at index `j`; its log form takes the log of the ratio `max / min`. */
  function YSample(a: Axis, m: MathLib, j: nat): real
    requires a.n >= 2 && (a.logSpaced ==> a.min != 0.0)
  {
    if a.logSpaced then m.exp(m.log(a.min) + m.log(a.max / a.min) / ((a.n - 1) as real) * (j as real))
    else LinearSample(a.min, a.max, a.n, j)
  }

  /** A linear axis starts at its minimum and ends at its maximum. */
  lemma LinearSampleEndpoints(lo: real, hi: real, n: nat)
    requires n >= 2
    ensures LinearSample(lo, hi, n, 0) == lo
    ensures LinearSample(lo, hi, n, n - 1) == hi
  {
  }

  /** A linear axis over `lo <= hi` is non-decreasing in its index. */
  lemma LinearSampleMonotone(lo: real, hi: real, n: nat, i: nat, k: nat)
    requires n >= 2 && lo <= hi && i <= k
    ensures LinearSample(lo, hi, n, i) <= LinearSample(lo, hi, n, k)
  {
    var step := (hi - lo) / ((n - 1) as real);
    assert step >= 0.0;
    assert step * (i as real) <= step * (k as real);
  }

  /** The evaluator's update at point `(i, j)`, via `generate_update_pair`. */
  function PointUpdate(pl: Plan, ev: Evaluator, m: MathLib, i: nat, j: nat): Attempt<State>
    requires Sampled(pl)
  {
    var args := ev.updatePair(pl.x.key, XSample(pl.x, m, i), pl.y.key, YSample(pl.y, m, j));
    ev.update(args.0, args.1, args.2)
  }

  /** The point is kept: the update returned, its density is a valid number, and it is not two-phase. */
  predicate Accepted(a: Attempt<State>, m: MathLib) {
    a.Ok? && m.validNumber(a.value.rhomolar) && a.value.phase != TwoPhase
  }

  /** The first `k` derivative requests all return. */
  predicate DerivsOk(st: State, calls: seq<DerivCall>, k: nat)
    requires k <= |calls|
  {
    forall t :: 0 <= t < k ==> st.deriv(calls[t]).Ok?
  }

  /**
   * What grid `g` holds at an accepted point once its iteration is over:
   * the state properties always; viscosity if it returned, conductivity if
   * both returned; derivative `k` if requests `0 .. k` all returned.
   */
  function FilledCell(st: State, calls: seq<DerivCall>, g: nat): Cell<real>
    requires |calls| == DerivCount && g < GridCount
  {
    if g == GridT then Val(st.T)
    else if g == GridP then Val(st.p)
    else if g == GridRhomolar then Val(st.rhomolar)
    else if g == GridHmolar then Val(st.hmolar)
    else if g == GridSmolar then Val(st.smolar)
    else if g == GridVisc then (if st.viscosity.Ok? then Val(st.viscosity.value) else Hole)
    else if g == GridCond then
      (if st.viscosity.Ok? && st.conductivity.Ok? then Val(st.conductivity.value) else Hole)
    else if DerivsOk(st, calls, g - FirstDerivGrid + 1) then Val(st.deriv(calls[g - FirstDerivGrid]).value)
    else Hole
  }

  /** The derivative requests of the plan's axis pair. */
  function Calls(pl: Plan): (calls: seq<DerivCall>)
    ensures |calls| == DerivCount
  {
    DerivativeCalls(pl.x.key, pl.y.key)
  }

  /** What grid `g` holds at `(i, j)` once the build has visited that point. */
  function CellAt(pl: Plan, ev: Evaluator, m: MathLib, g: nat, i: nat, j: nat): Cell<real>
    requires Sampled(pl) && g < GridCount
  {
    var a := PointUpdate(pl, ev, m, i, j);
    if Accepted(a, m) then FilledCell(a.value, Calls(pl), g) else Hole
  }

  /** Visiting `(i, j)` throws out of the build: an accepted point whose derivatives do not all return. */
  predicate PointThrows(pl: Plan, ev: Evaluator, m: MathLib, i: nat, j: nat)
    requires Sampled(pl)
  {
    var a := PointUpdate(pl, ev, m, i, j);
    Accepted(a, m) && !DerivsOk(a.value, Calls(pl), DerivCount)
  }

  /** The table's content as one value: what is packed and unpacked on disk. */
  datatype GridImage = GridImage(
    axes: Plan, xvec: seq<Cell<real>>, yvec: seq<Cell<real>>, grids: seq<seq<seq<Cell<real>>>>)

  /** How a build ended: it ran through, or a derivative threw while visiting `(i, j)`. */
  datatype Completion = Completed | Aborted(i: nat, j: nat)

  /** Point `(i, j)` was visited before the build ended (in row-major order). */
  predicate Visited(c: Completion, i: nat, j: nat) {
    c.Completed? || i < c.i || (i == c.i && j <= c.j)
  }

  /** Point `(i, j)` was visited and its iteration ran to its end. */
  predicate Passed(c: Completion, i: nat, j: nat) {
    c.Completed? || i < c.i || (i == c.i && j < c.j)
  }

  /**
   * A point whose update throws, whose density is invalid, or which is
   * two-phase is a hole in every grid.
   */
  lemma RejectedPointIsHoleEverywhere(pl: Plan, ev: Evaluator, m: MathLib, i: nat, j: nat)
    requires Sampled(pl)
    requires PointUpdate(pl, ev, m, i, j).Threw?
          || !m.validNumber(PointUpdate(pl, ev, m, i, j).value.rhomolar)
          || PointUpdate(pl, ev, m, i, j).value.phase == TwoPhase
    ensures forall g :: 0 <= g < GridCount ==> CellAt(pl, ev, m, g, i, j) == Hole
    ensures !PointThrows(pl, ev, m, i, j)
  {
  }

  /**
   * At an accepted point the five state grids are written whatever the
   * transport properties do; a throwing viscosity leaves both transport
   * grids empty, a throwing conductivity only the conductivity grid.
   */
  lemma TransportFailureIsIndependent(pl: Plan, ev: Evaluator, m: MathLib, i: nat, j: nat)
    requires Sampled(pl) && Accepted(PointUpdate(pl, ev, m, i, j), m)
    ensures forall g :: 0 <= g < GridVisc ==> CellAt(pl, ev, m, g, i, j).Val?
    ensures PointUpdate(pl, ev, m, i, j).value.viscosity.Threw? ==>
              CellAt(pl, ev, m, GridVisc, i, j) == Hole && CellAt(pl, ev, m, GridCond, i, j) == Hole
    ensures PointUpdate(pl, ev, m, i, j).value.viscosity.Ok? && PointUpdate(pl, ev, m, i, j).value.conductivity.Threw? ==>
              CellAt(pl, ev, m, GridVisc, i, j).Val? && CellAt(pl, ev, m, GridCond, i, j) == Hole
  {
  }

  /**
   * The derivative grids written at a point form a prefix of the request
   * order: once a request throws, no later derivative grid is written, and a
   * point that does not throw has all 25 written.
   */
  lemma DerivativeCellsArePrefix(pl: Plan, ev: Evaluator, m: MathLib, i: nat, j: nat, g: nat, h: nat)
    requires Sampled(pl) && FirstDerivGrid <= g <= h < GridCount
    ensures CellAt(pl, ev, m, h, i, j).Val? ==> CellAt(pl, ev, m, g, i, j).Val?
    ensures Accepted(PointUpdate(pl, ev, m, i, j), m) && !PointThrows(pl, ev, m, i, j) ==> CellAt(pl, ev, m, h, i, j).Val?
  {
  }

  /**
   * Writes the cells of one accepted point `(i, j)`, in the build's order,
   * and nothing else. `threw` reports a derivative request that threw; the
   * cells of the requests before it are written and later ones are not.
   */
  method FillPoint(grids: array3<Cell<real>>, i: nat, j: nat, st: State, calls: seq<DerivCall>) returns (threw: bool)
    requires |calls| == DerivCount && grids.Length0 == GridCount && i < grids.Length1 && j < grids.Length2
    requires forall g :: 0 <= g < GridCount ==> grids[g, i, j] == Hole
    modifies grids
    ensures threw == !DerivsOk(st, calls, DerivCount)
    ensures forall g :: 0 <= g < GridCount ==> grids[g, i, j] == FilledCell(st, calls, g)
    ensures forall g, i', j' :: (0 <= g < GridCount && 0 <= i' < grids.Length1 && 0 <= j' < grids.Length2 &&
                                (i' != i || j' != j)) ==> grids[g, i', j'] == old(grids[g, i', j'])
  {
    // state variables
    grids[GridT, i, j] := Val(st.T);
    grids[GridP, i, j] := Val(st.p);
    grids[GridRhomolar, i, j] := Val(st.rhomolar);
    grids[GridHmolar, i, j] := Val(st.hmolar);
    grids[GridSmolar, i, j] := Val(st.smolar);
    // transport properties: a throw skips what is left of this block only
    match st.viscosity {
      case Ok(visc) =>
        grids[GridVisc, i, j] := Val(visc);
        match st.conductivity {
          case Ok(cond) => grids[GridCond, i, j] := Val(cond);
          case Threw =>
        }
      case Threw =>
    }
    // first and second derivatives: a throw leaves the build
    threw := FillDerivatives(grids, i, j, st, calls);
  }

  /**
   * The derivative block of one accepted point: the requests in order,
   * each into its own grid, until one throws. Touches no other cell.
   */
  method FillDerivatives(grids: array3<Cell<real>>, i: nat, j: nat, st: State, calls: seq<DerivCall>)
    returns (threw: bool)
    requires |calls| == DerivCount && grids.Length0 == GridCount && i < grids.Length1 && j < grids.Length2
    requires forall g :: FirstDerivGrid <= g < GridCount ==> grids[g, i, j] == Hole
    modifies grids
    ensures threw == !DerivsOk(st, calls, DerivCount)
    ensures forall g :: 0 <= g < GridCount ==>
              grids[g, i, j] == if g < FirstDerivGrid then old(grids[g, i, j]) else FilledCell(st, calls, g)
    ensures forall g, i', j' :: (0 <= g < GridCount && 0 <= i' < grids.Length1 && 0 <= j' < grids.Length2 &&
                                (i' != i || j' != j)) ==> grids[g, i', j'] == old(grids[g, i', j'])
  {
    for k := 0 to DerivCount
      invariant DerivsOk(st, calls, k)
      invariant forall g :: 0 <= g < GridCount ==>
                  grids[g, i, j] == if g < FirstDerivGrid then old(grids[g, i, j])
                                    else if g < FirstDerivGrid + k then FilledCell(st, calls, g) else Hole
      invariant forall g, i', j' :: (0 <= g < GridCount && 0 <= i' < grids.Length1 && 0 <= j' < grids.Length2 &&
                                    (i' != i || j' != j)) ==> grids[g, i', j'] == old(grids[g, i', j'])
    {
      match st.deriv(calls[k]) {
        case Threw =>
          forall g | FirstDerivGrid + k <= g < GridCount
            ensures FilledCell(st, calls, g) == Hole
          {
            assert !st.deriv(calls[k]).Ok?;
          }
          return true;
        case Ok(d) =>
          grids[FirstDerivGrid + k, i, j] := Val(d);
      }
    }
    return false;
  }

  /** `(i, j)` comes before `(fi, fj)` in the build's row-major order. */
  predicate Before(i: nat, j: nat, fi: nat, fj: nat) {
    i < fi || (i == fi && j < fj)
  }

  /** The grids once every point before `(fi, fj)` has been visited, and no other. */
  ghost predicate GridsBefore(pl: Plan, ev: Evaluator, m: MathLib, grids: array3<Cell<real>>, fi: nat, fj: nat)
    requires Sampled(pl)
    reads grids
  {
    && grids.Length0 == GridCount && grids.Length1 == pl.x.n && grids.Length2 == pl.y.n
    && forall g, i, j :: 0 <= g < GridCount && 0 <= i < pl.x.n && 0 <= j < pl.y.n ==>
         grids[g, i, j] == if Before(i, j, fi, fj) then CellAt(pl, ev, m, g, i, j) else Hole
  }

  /** No point before `(fi, fj)` throws. */
  ghost predicate NoThrowBefore(pl: Plan, ev: Evaluator, m: MathLib, fi: nat, fj: nat)
    requires Sampled(pl)
  {
    forall i, j :: 0 <= i < pl.x.n && 0 <= j < pl.y.n && Before(i, j, fi, fj) ==> !PointThrows(pl, ev, m, i, j)
  }

  /** The y samples once the inner loop has reached `(fi, fj)`: all after the first row. */
  ghost predicate YSamplesBefore(pl: Plan, m: MathLib, yvec: array<Cell<real>>, fi: nat, fj: nat)
    requires Sampled(pl)
    reads yvec
  {
    && yvec.Length == pl.y.n
    && forall j :: 0 <= j < pl.y.n ==> yvec[j] == if fi > 0 || j < fj then Val(YSample(pl.y, m, j)) else Hole
  }

  /** The x samples once the outer loop has reached row `fi`: those of the rows before it. */
  ghost predicate XSamplesBefore(pl: Plan, m: MathLib, xvec: array<Cell<real>>, fi: nat)
    requires Sampled(pl)
    reads xvec
  {
    && xvec.Length == pl.x.n
    && forall i :: 0 <= i < pl.x.n ==> xvec[i] == if i < fi then Val(XSample(pl.x, m, i)) else Hole
  }

  /** Writes the x sample of row `i`, the first step of each outer iteration. */
  method WriteXSample(pl: Plan, m: MathLib, xvec: array<Cell<real>>, i: nat)
    requires Sampled(pl) && i < pl.x.n && XSamplesBefore(pl, m, xvec, i)
    modifies xvec
    ensures XSamplesBefore(pl, m, xvec, i + 1)
  {
    xvec[i] := Val(XSample(pl.x, m, i));
  }

  /** Passing over a point whose cells all stay holes moves the frontier past it. */
  lemma SkipPoint(pl: Plan, ev: Evaluator, m: MathLib, grids: array3<Cell<real>>, i: nat, j: nat)
    requires Sampled(pl) && GridsBefore(pl, ev, m, grids, i, j)
    requires forall g :: 0 <= g < GridCount ==> CellAt(pl, ev, m, g, i, j) == Hole
    ensures GridsBefore(pl, ev, m, grids, i, j + 1)
  {
  }

  /** The end of a row is the start of the next. */
  lemma NextRow(pl: Plan, ev: Evaluator, m: MathLib, grids: array3<Cell<real>>, yvec: array<Cell<real>>, i: nat)
    requires Sampled(pl)
    requires GridsBefore(pl, ev, m, grids, i, pl.y.n) && NoThrowBefore(pl, ev, m, i, pl.y.n)
    requires YSamplesBefore(pl, m, yvec, i, pl.y.n)
    ensures GridsBefore(pl, ev, m, grids, i + 1, 0) && NoThrowBefore(pl, ev, m, i + 1, 0)
    ensures YSamplesBefore(pl, m, yvec, i + 1, 0)
  {
  }

  /**
   * One iteration of the inner loop at `(i, j)`, after the samples are
   * written: update the state at the sampled pair, skip the point if the
   * update throws, the density is invalid or the state is two-phase, and
   * otherwise fill it. Only cells of `(i, j)` change.
   */
  method VisitPoint(pl: Plan, ev: Evaluator, m: MathLib, grids: array3<Cell<real>>, i: nat, j: nat, x: real, y: real)
    returns (threw: bool)
    requires Sampled(pl) && x == XSample(pl.x, m, i) && y == YSample(pl.y, m, j)
    requires i < pl.x.n && j < pl.y.n && GridsBefore(pl, ev, m, grids, i, j)
    modifies grids
    ensures threw == PointThrows(pl, ev, m, i, j)
    ensures GridsBefore(pl, ev, m, grids, i, j + 1)
  {
    var args := ev.updatePair(pl.x.key, x, pl.y.key, y);
    var a := ev.update(args.0, args.1, args.2);
    assert a == PointUpdate(pl, ev, m, i, j);
    // a throwing update or an invalid density skips the point
    if a.Threw? || !m.validNumber(a.value.rhomolar) {
      SkipPoint(pl, ev, m, grids, i, j);
      return false;
    }
    // two-phase states stay holes
    if a.value.phase == TwoPhase {
      SkipPoint(pl, ev, m, grids, i, j);
      return false;
    }
    assert forall g :: 0 <= g < GridCount ==> grids[g, i, j] == Hole by {
      assert !Before(i, j, i, j);
    }
    threw := FillPoint(grids, i, j, a.value, DerivativeCalls(pl.x.key, pl.y.key));
  }

  /**
   * The inner loop of the build for row `i`: for each `j`, write the y
   * sample and visit `(i, j)`. `stop` is the column whose derivatives threw,
   * which ends the row and the build; cells after it keep their holes.
   */
  method BuildRow(pl: Plan, ev: Evaluator, m: MathLib, grids: array3<Cell<real>>, yvec: array<Cell<real>>, i: nat)
    returns (stop: Option<nat>)
    requires Sampled(pl) && i < pl.x.n
    requires GridsBefore(pl, ev, m, grids, i, 0) && NoThrowBefore(pl, ev, m, i, 0)
    requires YSamplesBefore(pl, m, yvec, i, 0)
    modifies grids, yvec
    ensures stop.Some? ==>
      && stop.value < pl.y.n && PointThrows(pl, ev, m, i, stop.value)
      && GridsBefore(pl, ev, m, grids, i, stop.value + 1) && NoThrowBefore(pl, ev, m, i, stop.value)
      && YSamplesBefore(pl, m, yvec, i, stop.value + 1)
    ensures stop.None? ==>
      && GridsBefore(pl, ev, m, grids, i + 1, 0) && NoThrowBefore(pl, ev, m, i + 1, 0)
      && YSamplesBefore(pl, m, yvec, i + 1, 0)
  {
    var x := XSample(pl.x, m, i);
    for j := 0 to pl.y.n
      invariant GridsBefore(pl, ev, m, grids, i, j) && NoThrowBefore(pl, ev, m, i, j)
      invariant YSamplesBefore(pl, m, yvec, i, j)
    {
      var y := YSample(pl.y, m, j);
      yvec[j] := Val(y);
      var threw := VisitPoint(pl, ev, m, grids, i, j, x, y);
      if threw {
        return Some(j);
      }
    }
    NextRow(pl, ev, m, grids, yvec, i);
    return None;
  }

  /**
   * The state a build leaves, ended as `c` says: grids of shape `Nx x Ny`,
   * every visited point holding `CellAt` and every other one a hole, no
   * point passed before the end throwing, and the x and y samples written
   * for the rows and columns the loops reached.
   */
  ghost predicate Built(pl: Plan, ev: Evaluator, m: MathLib, xvec: array<Cell<real>>, yvec: array<Cell<real>>,
                        grids: array3<Cell<real>>, c: Completion)
    requires Sampled(pl)
    reads xvec, yvec, grids
  {
    && xvec.Length == pl.x.n && yvec.Length == pl.y.n
    && grids.Length0 == GridCount && grids.Length1 == pl.x.n && grids.Length2 == pl.y.n
    && (c.Aborted? ==> c.i < pl.x.n && c.j < pl.y.n && PointThrows(pl, ev, m, c.i, c.j))
    && (forall i, j :: 0 <= i < pl.x.n && 0 <= j < pl.y.n && Passed(c, i, j) ==> !PointThrows(pl, ev, m, i, j))
    && (forall g, i, j :: 0 <= g < GridCount && 0 <= i < pl.x.n && 0 <= j < pl.y.n ==>
          grids[g, i, j] == if Visited(c, i, j) then CellAt(pl, ev, m, g, i, j) else Hole)
    && (forall i :: 0 <= i < pl.x.n ==> xvec[i] == if Visited(c, i, 0) then Val(XSample(pl.x, m, i)) else Hole)
    && (forall j :: 0 <= j < pl.y.n ==> yvec[j] == if Visited(c, 0, j) then Val(YSample(pl.y, m, j)) else Hole)
  }

  /** A build that stops at `(c.i, c.j)` has visited exactly the points up to it. */
  lemma AbortedIsBuilt(pl: Plan, ev: Evaluator, m: MathLib, xvec: array<Cell<real>>, yvec: array<Cell<real>>,
                       grids: array3<Cell<real>>, c: Completion)
    requires Sampled(pl) && c.Aborted? && c.i < pl.x.n && c.j < pl.y.n && PointThrows(pl, ev, m, c.i, c.j)
    requires GridsBefore(pl, ev, m, grids, c.i, c.j + 1) && NoThrowBefore(pl, ev, m, c.i, c.j)
    requires YSamplesBefore(pl, m, yvec, c.i, c.j + 1)
    requires XSamplesBefore(pl, m, xvec, c.i + 1)
    ensures Built(pl, ev, m, xvec, yvec, grids, c)
  {
  }

  /** A build that runs through every row has visited every point. */
  lemma CompletedIsBuilt(pl: Plan, ev: Evaluator, m: MathLib, xvec: array<Cell<real>>, yvec: array<Cell<real>>,
                         grids: array3<Cell<real>>)
    requires Sampled(pl)
    requires GridsBefore(pl, ev, m, grids, pl.x.n, 0) && NoThrowBefore(pl, ev, m, pl.x.n, 0)
    requires YSamplesBefore(pl, m, yvec, pl.x.n, 0)
    requires XSamplesBefore(pl, m, xvec, pl.x.n)
    ensures Built(pl, ev, m, xvec, yvec, grids, Completed)
  {
  }

  /** The resize that opens `build`: samples and every grid of shape `Nx x Ny`, all holes. */
  method Resize(pl: Plan, ev: Evaluator, m: MathLib)
    returns (xs: array<Cell<real>>, ys: array<Cell<real>>, gs: array3<Cell<real>>)
    requires Sampled(pl)
    ensures fresh(xs) && fresh(ys) && fresh(gs) && xs != ys
    ensures XSamplesBefore(pl, m, xs, 0) && YSamplesBefore(pl, m, ys, 0, 0)
    ensures GridsBefore(pl, ev, m, gs, 0, 0) && NoThrowBefore(pl, ev, m, 0, 0)
  {
    xs := new Cell<real>[pl.x.n](_ => Hole);
    ys := new Cell<real>[pl.y.n](_ => Hole);
    gs := new Cell<real>[GridCount, pl.x.n, pl.y.n]((_, _, _) => Hole);
  }

  /**
   * The body of `build` on freshly resized arrays: the outer loop over the
   * rows writes each x sample and runs the row; a throwing derivative ends
   * the build (`Aborted`) with every later point left a hole.
   */
  method BuildGrids(pl: Plan, ev: Evaluator, m: MathLib)
    returns (xs: array<Cell<real>>, ys: array<Cell<real>>, gs: array3<Cell<real>>, c: Completion)
    requires Sampled(pl)
    ensures fresh(xs) && fresh(ys) && fresh(gs)
    ensures Built(pl, ev, m, xs, ys, gs, c)
  {
    xs, ys, gs := Resize(pl, ev, m);
    for i := 0 to pl.x.n
      invariant GridsBefore(pl, ev, m, gs, i, 0) && NoThrowBefore(pl, ev, m, i, 0)
      invariant YSamplesBefore(pl, m, ys, i, 0)
      invariant XSamplesBefore(pl, m, xs, i)
    {
      WriteXSample(pl, m, xs, i);
      var stop := BuildRow(pl, ev, m, gs, ys, i);
      if stop.Some? {
        c := Aborted(i, stop.value);
        AbortedIsBuilt(pl, ev, m, xs, ys, gs, c);
        return;
      }
    }
    c := Completed;
    CompletedIsBuilt(pl, ev, m, xs, ys, gs);
  }

  class SinglePhaseGriddedTableData {
    var xkey: Param
    var ykey: Param
    var xmin: real
    var xmax: real
    var ymin: real
    var ymax: real
    var logx: bool
    var logy: bool
    var Nx: nat
    var Ny: nat
    var xvec: array<Cell<real>>
    var yvec: array<Cell<real>>
    /** `grids[g, i, j]` is cell `[i][j]` of grid `g` (see `GridT` .. `FirstDerivGrid`). */
    var grids: array3<Cell<real>>

    /** The table's two axes. */
    function Layout(): Plan
      reads this
    {
      Plan(Axis(xkey, xmin, xmax, Nx, logx), Axis(ykey, ymin, ymax, Ny, logy))
    }

    /** A table over the two given axes that has not been built yet. */
    constructor (x: Axis, y: Axis)
      ensures Layout() == Plan(x, y)
      ensures xvec.Length == 0 && yvec.Length == 0
    {
      xkey, xmin, xmax, Nx, logx := x.key, x.min, x.max, x.n, x.logSpaced;
      ykey, ymin, ymax, Ny, logy := y.key, y.min, y.max, y.n, y.logSpaced;
      xvec := new Cell<real>[0];
      yvec := new Cell<real>[0];
      grids := new Cell<real>[GridCount, 0, 0];
    }

    /**
     * `build`: resizes every grid to `Nx x Ny` holes and fills them as
     * `BuildGrids` says; the new arrays replace the old ones whether or not
     * a derivative threw.
     */
    method Build(ev: Evaluator, m: MathLib) returns (c: Completion)
      requires Sampled(Layout())
      modifies this
      ensures Layout() == old(Layout())
      ensures fresh(xvec) && fresh(yvec) && fresh(grids)
      ensures Built(Layout(), ev, m, xvec, yvec, grids, c)
    {
      var xs, ys, gs;
      xs, ys, gs, c := BuildGrids(Layout(), ev, m);
      xvec, yvec, grids := xs, ys, gs;
    }
  }
}
