/** The face-turn animation with telescoping corner legs
    (animate_with_telescoping.py).  Every cubelet carries its grid coordinate
    (GridX/Y/Z), its world placement and, on corners, the leg properties
    LegDiagonal, LegExtension, LegTargetExtension, LegSpeed and the base of its
    first `InnerRod_` child.  A turn selects one layer by grid coordinate,
    retargets and steps the legs of the selected corners, turns the layer by
    exactly 90 degrees about an axis through the origin and re-derives every
    grid coordinate by rounding world position / SPACING. */
module TelescopingTurn {
  import opened Base
  import opened Vectors
  import opened Grid

  const ROTATION_STEPS: nat := 30
  const TELESCOPE_EXTENSION: real := 30.0
  const LEG_SPEED_MIN: real := 5.0
  const LEG_SPEED_MAX: real := 15.0

  datatype Leg = Leg(diagonal: Vec3, extension: real, target: real, speed: real, rod: Option<Vec3>)

  datatype Cubelet = Cubelet(grid: Coord, placement: Placement, leg: Option<Leg>)

  // ---------------------------------------------------------------------------
  // Selection

  /** A piece all of whose grid coordinates are +1 or -1. */
  predicate IsCornerGrid(g: Coord)
  {
    IntAbs(g.x) == 1 && IntAbs(g.y) == 1 && IntAbs(g.z) == 1
  }

  /** get_corner_cubelets: the indices of the corner pieces, in list order. */
  function GetCornerCubelets(cs: seq<Cubelet>): (r: seq<nat>)
    ensures forall i: nat :: i in r <==> i < |cs| && IsCornerGrid(cs[i].grid)
    ensures Increasing(r)
  {
    Select(cs, (c: Cubelet) => IsCornerGrid(c.grid))
  }

  /** On the lattice, "all three coordinates are +-1" is exactly the corner class. */
  lemma CornerGridIsCornerKind(g: Coord)
    requires InLattice(g)
    ensures IsCornerGrid(g) <==> Classify(g) == Corner
  {
  }

  /** The face_checks table: which grid attribute must equal which value. */
  function FaceCheck(face: string): (r: Option<(Axis, int)>)
    ensures r.Some? ==> r.value.1 == 1 || r.value.1 == -1
  {
    if face == "R" then Some((X, 1))
    else if face == "L" then Some((X, -1))
    else if face == "U" then Some((Y, 1))
    else if face == "D" then Some((Y, -1))
    else if face == "F" then Some((Z, 1))
    else if face == "B" then Some((Z, -1))
    else None
  }

  predicate InFace(c: Cubelet, face: string)
  {
    FaceCheck(face).Some? && Component(c.grid, FaceCheck(face).value.0) == FaceCheck(face).value.1
  }

  /** get_face_cubelets_by_grid: the pieces of the face's layer in list order;
      an unknown face name selects nothing. */
  function FaceCubeletsByGrid(cs: seq<Cubelet>, face: string): (r: seq<nat>)
    ensures FaceCheck(face).None? ==> r == []
    ensures forall i: nat :: i in r <==> i < |cs| && InFace(cs[i], face)
    ensures Increasing(r)
  {
    match FaceCheck(face)
    case None => []
    case Some(check) => Select(cs, (c: Cubelet) => Component(c.grid, check.0) == check.1)
  }

  /** The axis_map: R and L turn about +x, U and D about +y, F and B about +z;
      anything else falls back to +z. */
  function RotationAxis(face: string): (a: Axis)
    ensures FaceCheck(face).Some? ==> a == FaceCheck(face).value.0
    ensures FaceCheck(face).None? ==> a == Z
  {
    if face == "R" || face == "L" then X
    else if face == "U" || face == "D" then Y
    else Z
  }

  // ---------------------------------------------------------------------------
  // Rounding

  /** Python's round() to an integer: nearest, ties to the even neighbour. */
  function Round(v: real): (n: int)
    ensures -0.5 <= v - n as real <= 0.5
    ensures (v - n as real == 0.5 || v - n as real == -0.5) ==> n % 2 == 0
  {
    var f := v.Floor;
    var frac := v - f as real;
    if frac < 0.5 then f
    else if frac > 0.5 then f + 1
    else if f % 2 == 0 then f
    else f + 1
  }

  lemma RoundInteger(n: int)
    ensures Round(n as real) == n
  {
  }

  /** snap_position: the nearest multiple of `spacing`; Python raises
      ZeroDivisionError for a zero spacing. */
  function SnapPosition(value: real, spacing: real): (r: Result<real>)
    ensures r.Err? <==> spacing == 0.0
    ensures r.Err? ==> r.error == ZeroDivisionError
  {
    if spacing == 0.0 then Err(ZeroDivisionError)
    else Ok(Round(value / spacing) as real * spacing)
  }

  /** The snapped value is a multiple of the spacing at most half a spacing away. */
  lemma {:induction false} SnapIsNearest(value: real, spacing: real)
    requires spacing != 0.0
    ensures Abs(SnapPosition(value, spacing).value - value) <= Abs(spacing) / 2.0
  {
    var q := value / spacing;
    var d := Round(q) as real - q;
    assert value == q * spacing;
    assert SnapPosition(value, spacing).value - value == d * spacing;
    RoundWithinHalf(q);
    AbsProduct(d, spacing);
    assert Abs(d) * Abs(spacing) <= 0.5 * Abs(spacing);
  }

  /** Rounding moves a value by at most one half. */
  lemma RoundWithinHalf(q: real)
    ensures Abs(Round(q) as real - q) <= 0.5
  {
  }

  lemma AbsProduct(a: real, b: real)
    ensures Abs(a * b) == Abs(a) * Abs(b)
  {
    if a < 0.0 && b >= 0.0 {
      assert a * b <= 0.0;
    } else if a >= 0.0 && b < 0.0 {
      assert a * b <= 0.0;
    }
  }

  /** Snapping a point that is already on the grid leaves it there, so snapping twice is snapping once. */
  lemma {:induction false} SnapIdempotent(value: real, spacing: real)
    requires spacing != 0.0
    ensures SnapPosition(SnapPosition(value, spacing).value, spacing) == SnapPosition(value, spacing)
  {
    var n := Round(value / spacing);
    var snapped := SnapPosition(value, spacing).value;
    assert snapped == n as real * spacing;
    assert snapped / spacing == n as real;
    RoundInteger(n);
    assert Round(snapped / spacing) == n;
    assert SnapPosition(value, spacing) == Ok(snapped);
    SnapOf(snapped, spacing);
    assert Round(snapped / spacing) as real * spacing == snapped;
    assert SnapPosition(snapped, spacing) == Ok(snapped);
  }

  lemma SnapOf(value: real, spacing: real)
    requires spacing != 0.0
    ensures SnapPosition(value, spacing) == Ok(Round(value / spacing) as real * spacing)
  {
  }

  /** The grid coordinate update_grid_positions derives from a world position. */
  function GridOf(v: Vec3): Coord
  {
    Coord(Round(v.x / SPACING), Round(v.y / SPACING), Round(v.z / SPACING))
  }

  /** Rounding recovers the coordinate of any piece sitting at grid * SPACING. */
  lemma {:induction false} GridOfWorld(c: Coord)
    ensures GridOf(WorldOf(c)) == c
  {
    assert WorldOf(c).x / SPACING == c.x as real;
    assert WorldOf(c).y / SPACING == c.y as real;
    assert WorldOf(c).z / SPACING == c.z as real;
    RoundInteger(c.x);
    RoundInteger(c.y);
    RoundInteger(c.z);
  }

  function Regrid(c: Cubelet): Cubelet
  {
    c.(grid := GridOf(c.placement.base))
  }

  function RegridAll(cs: seq<Cubelet>): (r: seq<Cubelet>)
    ensures |r| == |cs|
    ensures forall i :: 0 <= i < |cs| ==> r[i] == Regrid(cs[i])
  {
    seq(|cs|, i requires 0 <= i < |cs| => Regrid(cs[i]))
  }

  // ---------------------------------------------------------------------------
  // Legs

  /** The retarget rule: a leg within 2 mm of its target gets the new target
      30 when |extension| < 15 and 0 otherwise, and a freshly drawn speed. */
  function Retarget(leg: Leg, speedDraw: real): (r: Leg)
    ensures r.diagonal == leg.diagonal && r.extension == leg.extension && r.rod == leg.rod
    ensures Abs(leg.extension - leg.target) >= 2.0 ==> r == leg
    ensures Abs(leg.extension - leg.target) < 2.0 ==>
      r.speed == speedDraw &&
      (Abs(leg.extension) < 15.0 ==> r.target == TELESCOPE_EXTENSION) &&
      (Abs(leg.extension) >= 15.0 ==> r.target == 0.0)
  {
    if Abs(leg.extension - leg.target) < 2.0 then
      leg.(target := if Abs(leg.extension) < 15.0 then TELESCOPE_EXTENSION else 0.0, speed := speedDraw)
    else leg
  }

  /** The movement of one cycle: at most `speed`, at most the remaining
      distance, in the direction of the target; it never passes the target and
      covers the whole distance when the speed allows. */
  function Movement(current: real, target: real, speed: real): (m: real)
    ensures Abs(m) <= Abs(target - current)
    ensures Abs(m) <= Max(speed, 0.0)
    ensures target > current ==> m >= 0.0
    ensures target < current ==> m <= 0.0
    ensures speed >= Abs(target - current) ==> m == target - current
  {
    var remaining := target - current;
    var magnitude := Max(Min(speed, Abs(remaining)), 0.0);
    if remaining > 0.0 then magnitude else -magnitude
  }

  /** The new extension lies between the old one and the target, so a leg
      inside [0, 30] heading for a target inside [0, 30] stays inside. */
  lemma MovementStaysInRange(current: real, target: real, speed: real)
    requires 0.0 <= current <= TELESCOPE_EXTENSION && 0.0 <= target <= TELESCOPE_EXTENSION
    ensures 0.0 <= current + Movement(current, target, speed) <= TELESCOPE_EXTENSION
  {
    var m := Movement(current, target, speed);
    if target > current {
      assert 0.0 <= m <= target - current;
    } else if target < current {
      assert target - current <= m <= 0.0;
    } else {
      assert m == 0.0;
    }
  }

  /** A leg that has reached its target is sent the other way at a speed of
      at least LEG_SPEED_MIN, so it always animates on its next turn. */
  lemma {:induction false} RetargetedLegMoves(leg: Leg, speedDraw: real)
    requires 0.0 <= leg.extension <= TELESCOPE_EXTENSION
    requires Abs(leg.extension - leg.target) < 2.0
    requires LEG_SPEED_MIN <= speedDraw <= LEG_SPEED_MAX
    ensures Abs(Movement(leg.extension, Retarget(leg, speedDraw).target, speedDraw)) >= LEG_SPEED_MIN
  {
    var r := Retarget(leg, speedDraw);
    var e := leg.extension;
    if e < 15.0 {
      assert r.target == 30.0 && 30.0 - e > 15.0;
    } else {
      assert r.target == 0.0 && Abs(0.0 - e) >= 15.0;
    }
  }

  /** The leg properties after the planning pass of one turn. */
  function Plan(c: Cubelet, speedDraw: real): Cubelet
  {
    match c.leg
    case None => c
    case Some(leg) => c.(leg := Some(Retarget(leg, speedDraw)))
  }

  function MoveOf(c: Cubelet): real
  {
    match c.leg
    case None => 0.0
    case Some(leg) => Movement(leg.extension, leg.target, leg.speed)
  }

  /** Only legs whose movement exceeds 0.1 mm are animated. */
  predicate Animates(c: Cubelet)
  {
    c.leg.Some? && Abs(MoveOf(c)) > 0.1
  }

  /** A leg with an inner rod moved by `m`: rod base along the diagonal and
      extension by `m`; a leg without a rod is left as it is. */
  function TelescopedBy(c: Cubelet, m: real): Cubelet
  {
    match c.leg
    case None => c
    case Some(leg) =>
      match leg.rod
      case None => c
      case Some(b) => c.(leg := Some(leg.(rod := Some(Add(b, Scale(leg.diagonal, m))), extension := leg.extension + m)))
  }

  /** How far along the diagonal the rod has moved after `k` of the steps. */
  function StepFraction(m: real, k: nat): real
  {
    k as real * (m / ROTATION_STEPS as real)
  }

  /** The state after `k` of the ROTATION_STEPS steps: the rod has moved k
      increments of m / 30; the extension is only updated on the last step. */
  function Stepped(c: Cubelet, m: real, k: nat): Cubelet
  {
    match c.leg
    case None => c
    case Some(leg) =>
      match leg.rod
      case None => c
      case Some(b) =>
        c.(leg := Some(leg.(rod := Some(Add(b, Scale(leg.diagonal, StepFraction(m, k)))),
                           extension := leg.extension + (if k == ROTATION_STEPS then m else 0.0))))
  }

  /** One step of the loop body for a leg: the rod base advances by
      diagonal * perStep, and on the last step the extension takes `m`. */
  function StepOnce(c: Cubelet, perStep: real, m: real, last: bool): Cubelet
  {
    match c.leg
    case None => c
    case Some(leg) =>
      match leg.rod
      case None => c
      case Some(b) =>
        c.(leg := Some(leg.(rod := Some(Add(b, Scale(leg.diagonal, perStep))),
                           extension := if last then leg.extension + m else leg.extension)))
  }

  lemma {:induction false} SteppedStart(c: Cubelet, m: real)
    ensures Stepped(c, m, 0) == c
  {
    if c.leg.Some? && c.leg.value.rod.Some? {
      assert StepFraction(m, 0) == 0.0;
      ScaleZero(c.leg.value.rod.value, c.leg.value.diagonal);
    }
  }

  lemma {:induction false} SteppedNext(c: Cubelet, m: real, k: nat)
    requires k < ROTATION_STEPS
    ensures StepOnce(Stepped(c, m, k), m / ROTATION_STEPS as real, m, k == ROTATION_STEPS - 1) == Stepped(c, m, k + 1)
  {
    if c.leg.Some? && c.leg.value.rod.Some? {
      var perStep := m / ROTATION_STEPS as real;
      assert StepFraction(m, k) + perStep == StepFraction(m, k + 1);
      ScaleSteps(c.leg.value.rod.value, c.leg.value.diagonal, StepFraction(m, k), perStep);
    }
  }

  /** The ROTATION_STEPS increments add up to exactly the planned movement. */
  lemma {:induction false} SteppedComplete(c: Cubelet, m: real)
    ensures Stepped(c, m, ROTATION_STEPS) == TelescopedBy(c, m)
  {
    assert StepFraction(m, ROTATION_STEPS) == m;
  }

  /** The leg part of a turn: the planned movement when the leg animates. */
  function LegStep(p: Cubelet): Cubelet
  {
    if Animates(p) then TelescopedBy(p, MoveOf(p)) else p
  }

  /** A piece at grid * SPACING is turned to the turned grid point. */
  lemma QuarterTurnPlacementOnGrid(a: Axis, positive: bool, p: Placement, g: Coord)
    requires p.base == WorldOf(g)
    ensures QuarterTurnPlacement(a, positive, p).base == WorldOf(Turn(a, positive, g))
  {
  }

  function Rotated(c: Cubelet, a: Axis, positive: bool): Cubelet
  {
    c.(placement := QuarterTurnPlacement(a, positive, c.placement))
  }

  /** The piece after one turn when it lies in the turning layer. */
  function TurnPiece(c: Cubelet, a: Axis, positive: bool, speedDraw: real): Cubelet
  {
    Rotated(LegStep(Plan(c, speedDraw)), a, positive)
  }

  /** The whole document after animate_face_rotation_with_telescoping(face, clockwise):
      an empty selection returns at once; otherwise the layer is turned by
      +-90 degrees about the face's axis (clockwise = +90) and every piece's
      grid coordinate is re-derived from its world position. */
  function AfterTurn(cs: seq<Cubelet>, face: string, clockwise: bool, draws: seq<real>): (r: seq<Cubelet>)
    requires |draws| == |cs|
    ensures |r| == |cs|
  {
    if |FaceCubeletsByGrid(cs, face)| == 0 then cs
    else
      var a := RotationAxis(face);
      seq(|cs|, i requires 0 <= i < |cs| =>
        Regrid(if InFace(cs[i], face) then TurnPiece(cs[i], a, clockwise, draws[i]) else cs[i]))
  }

  // ---------------------------------------------------------------------------
  // Properties of a turn

  predicate LegInRange(c: Cubelet)
  {
    c.leg.Some? ==>
      0.0 <= c.leg.value.extension <= TELESCOPE_EXTENSION && 0.0 <= c.leg.value.target <= TELESCOPE_EXTENSION
  }

  /** A piece sits at its grid coordinate times SPACING and its leg is within range. */
  predicate Consistent(c: Cubelet)
  {
    InLattice(c.grid) && c.placement.base == WorldOf(c.grid) && LegInRange(c)
  }

  predicate AllConsistent(cs: seq<Cubelet>)
  {
    forall i :: 0 <= i < |cs| ==> Consistent(cs[i])
  }

  function Grids(cs: seq<Cubelet>): (r: seq<Coord>)
    ensures |r| == |cs|
    ensures forall i :: 0 <= i < |cs| ==> r[i] == cs[i].grid
  {
    seq(|cs|, i requires 0 <= i < |cs| => cs[i].grid)
  }

  predicate DrawsInRange(draws: seq<real>)
  {
    forall i :: 0 <= i < |draws| ==> LEG_SPEED_MIN <= draws[i] <= LEG_SPEED_MAX
  }

  /** The legs keep extension and target inside [0, 30] through a turn. */
  lemma {:induction false} LegStepInRange(c: Cubelet, speedDraw: real)
    requires LegInRange(c)
    ensures LegInRange(LegStep(Plan(c, speedDraw)))
  {
    var p := Plan(c, speedDraw);
    assert LegInRange(p);
    if Animates(p) && p.leg.value.rod.Some? {
      var leg := p.leg.value;
      MovementStaysInRange(leg.extension, leg.target, leg.speed);
    }
  }

  /** A piece of the layer lands on the quarter-turned grid coordinate. */
  lemma {:induction false} TurnPieceGrid(c: Cubelet, a: Axis, positive: bool, speedDraw: real)
    requires Consistent(c)
    ensures Consistent(Regrid(TurnPiece(c, a, positive, speedDraw)))
    ensures Regrid(TurnPiece(c, a, positive, speedDraw)).grid == Turn(a, positive, c.grid)
  {
    var p := LegStep(Plan(c, speedDraw));
    assert p.placement == c.placement && p.grid == c.grid;
    LegStepInRange(c, speedDraw);
    QuarterTurnPlacementOnGrid(a, positive, p.placement, c.grid);
    GridOfWorld(Turn(a, positive, c.grid));
  }

  /** A piece already at its grid position keeps everything when re-gridded. */
  lemma RegridConsistent(c: Cubelet)
    requires Consistent(c)
    ensures Regrid(c) == c
  {
    GridOfWorld(c.grid);
  }

  /** One turn moves the grid coordinates exactly as the integer face turn
      does: the pieces of the layer take the quarter turn about the face axis
      (keeping their coordinate along it), every other piece stays, and the
      document stays consistent.  An unknown face changes nothing. */
  lemma {:induction false} AfterTurnGrids(cs: seq<Cubelet>, face: string, clockwise: bool, draws: seq<real>)
    requires |draws| == |cs| && AllConsistent(cs)
    ensures AllConsistent(AfterTurn(cs, face, clockwise, draws))
    ensures FaceCheck(face).None? ==> AfterTurn(cs, face, clockwise, draws) == cs
    ensures FaceCheck(face).Some? ==>
      Grids(AfterTurn(cs, face, clockwise, draws))
        == FaceTurnAll(FaceCheck(face).value.0, FaceCheck(face).value.1, clockwise, Grids(cs))
  {
    var r := AfterTurn(cs, face, clockwise, draws);
    if |FaceCubeletsByGrid(cs, face)| == 0 {
      if FaceCheck(face).Some? {
        forall i | 0 <= i < |cs| ensures !InFace(cs[i], face) {
          assert (i as nat) in FaceCubeletsByGrid(cs, face) <==> InFace(cs[i], face);
        }
      }
    } else {
      var a := RotationAxis(face);
      forall i | 0 <= i < |cs|
        ensures Consistent(r[i])
        ensures FaceCheck(face).Some? ==> r[i].grid == FaceTurn(FaceCheck(face).value.0, FaceCheck(face).value.1, clockwise, cs[i].grid)
      {
        if InFace(cs[i], face) {
          TurnPieceGrid(cs[i], a, clockwise, draws[i]);
        } else {
          RegridConsistent(cs[i]);
        }
      }
    }
  }

  /** A piece outside the turning layer is not touched at all. */
  lemma {:induction false} OutsideLayerUntouched(cs: seq<Cubelet>, face: string, clockwise: bool, draws: seq<real>, i: nat)
    requires |draws| == |cs| && AllConsistent(cs)
    requires i < |cs| && !InFace(cs[i], face)
    ensures AfterTurn(cs, face, clockwise, draws)[i] == cs[i]
  {
    RegridConsistent(cs[i]);
  }

  /** A turn keeps the grid coordinates a permutation filling the 26 cells. */
  lemma {:induction false} TurnKeepsArrangement(cs: seq<Cubelet>, face: string, clockwise: bool, draws: seq<real>)
    requires |draws| == |cs| && AllConsistent(cs) && IsArrangement(Grids(cs))
    ensures IsArrangement(Grids(AfterTurn(cs, face, clockwise, draws)))
    ensures multiset(Grids(AfterTurn(cs, face, clockwise, draws))) == multiset(Grids(cs))
  {
    AfterTurnGrids(cs, face, clockwise, draws);
    if FaceCheck(face).Some? {
      FaceTurnKeepsArrangement(FaceCheck(face).value.0, FaceCheck(face).value.1, clockwise, Grids(cs));
      FaceTurnPermutes(FaceCheck(face).value.0, FaceCheck(face).value.1, clockwise, Grids(cs));
    }
  }

  /** A clockwise turn followed by a counter-clockwise turn of the same face
      restores every grid coordinate. */
  lemma {:induction false} TurnThenBack(cs: seq<Cubelet>, face: string, d1: seq<real>, d2: seq<real>)
    requires |d1| == |cs| && |d2| == |cs| && AllConsistent(cs)
    ensures Grids(AfterTurn(AfterTurn(cs, face, true, d1), face, false, d2)) == Grids(cs)
  {
    var c1 := AfterTurn(cs, face, true, d1);
    AfterTurnGrids(cs, face, true, d1);
    AfterTurnGrids(c1, face, false, d2);
    var c2 := AfterTurn(c1, face, false, d2);
    if FaceCheck(face).Some? {
      var (a, v) := FaceCheck(face).value;
      forall i | 0 <= i < |cs| ensures Grids(c2)[i] == Grids(cs)[i] {
        FaceTurnInverse(a, v, true, cs[i].grid);
      }
    }
  }

  /** Four turns of the same face in the same direction restore every grid coordinate. */
  lemma {:induction false} FourTurnsRestore(cs: seq<Cubelet>, face: string, clockwise: bool,
                                             d1: seq<real>, d2: seq<real>, d3: seq<real>, d4: seq<real>)
    requires |d1| == |cs| && |d2| == |cs| && |d3| == |cs| && |d4| == |cs| && AllConsistent(cs)
    ensures Grids(AfterTurn(AfterTurn(AfterTurn(AfterTurn(cs, face, clockwise, d1), face, clockwise, d2),
                                      face, clockwise, d3), face, clockwise, d4)) == Grids(cs)
  {
    var c1 := AfterTurn(cs, face, clockwise, d1);
    AfterTurnGrids(cs, face, clockwise, d1);
    var c2 := AfterTurn(c1, face, clockwise, d2);
    AfterTurnGrids(c1, face, clockwise, d2);
    var c3 := AfterTurn(c2, face, clockwise, d3);
    AfterTurnGrids(c2, face, clockwise, d3);
    var c4 := AfterTurn(c3, face, clockwise, d4);
    AfterTurnGrids(c3, face, clockwise, d4);
    if FaceCheck(face).Some? {
      var (a, v) := FaceCheck(face).value;
      forall i | 0 <= i < |cs| ensures Grids(c4)[i] == Grids(cs)[i] {
        var g := cs[i].grid;
        if Component(g, a) == v {
          FourTurns(a, clockwise, g);
        }
      }
    }
  }

  /** The leg of a layer piece after a turn: the planned movement applied once
      to both the rod base (along the diagonal) and the extension, when the
      leg animates and has a rod; otherwise only the retargeting. */
  lemma {:induction false} TurnLegEffect(c: Cubelet, a: Axis, positive: bool, speedDraw: real)
    requires c.leg.Some? && c.leg.value.rod.Some?
    ensures var p := Plan(c, speedDraw);
            var t := TurnPiece(c, a, positive, speedDraw);
            t.leg.Some? && t.leg.value.rod.Some? &&
            (Animates(p) ==>
              t.leg.value.rod.value == Add(c.leg.value.rod.value, Scale(c.leg.value.diagonal, MoveOf(p))) &&
              t.leg.value.extension == c.leg.value.extension + MoveOf(p)) &&
            (!Animates(p) ==> t.leg == p.leg)
  {
    var p := Plan(c, speedDraw);
    assert p.leg.value.rod == c.leg.value.rod && p.leg.value.diagonal == c.leg.value.diagonal;
    assert TurnPiece(c, a, positive, speedDraw).leg == LegStep(p).leg;
  }

  // ---------------------------------------------------------------------------
  // The document

  class Assembly {
    /** The cubelets of the Model container that carry GridX/Y/Z. */
    const cubelets: array<Cubelet>

    constructor (init: seq<Cubelet>)
      ensures cubelets[..] == init && fresh(cubelets)
    {
      cubelets := new Cubelet[|init|](i requires 0 <= i < |init| => init[i]);
    }

    /** update_grid_positions: every cubelet's grid from its world position. */
    method UpdateGridPositions()
      modifies cubelets
      ensures cubelets[..] == RegridAll(old(cubelets[..]))
    {
      for i := 0 to cubelets.Length
        invariant forall j :: 0 <= j < i ==> cubelets[j] == Regrid(old(cubelets[j]))
        invariant forall j :: i <= j < cubelets.Length ==> cubelets[j] == old(cubelets[j])
      {
        cubelets[i] := Regrid(cubelets[i]);
      }
    }

    /** The planning pass: retarget the legs of the selected pieces and
        collect, in selection order, the pieces that animate with their movement. */
    method PlanLegs(selected: seq<nat>, draws: seq<real>) returns (animated: seq<nat>, moves: seq<real>)
      requires Increasing(selected) && |draws| == cubelets.Length
      requires forall p :: 0 <= p < |selected| ==> selected[p] < cubelets.Length
      modifies cubelets
      ensures forall p :: 0 <= p < |selected| ==> cubelets[selected[p]] == Plan(old(cubelets[selected[p]]), draws[selected[p]])
      ensures forall i :: 0 <= i < cubelets.Length && i !in selected ==> cubelets[i] == old(cubelets[i])
      ensures Increasing(animated) && |moves| == |animated|
      ensures forall k :: 0 <= k < |animated| ==>
        animated[k] in selected && animated[k] < cubelets.Length &&
        Animates(cubelets[animated[k]]) && moves[k] == MoveOf(cubelets[animated[k]])
      ensures forall p :: 0 <= p < |selected| && Animates(cubelets[selected[p]]) ==> selected[p] in animated
    {
      ghost var orig := cubelets[..];
      animated, moves := [], [];
      for j := 0 to |selected|
        invariant orig == old(cubelets[..])
        invariant PlannedPrefix(orig, selected, draws, j, animated, moves)
      {
        animated, moves := PlanNext(orig, selected, draws, j, animated, moves);
      }
      assert selected[..|selected|] == selected;
    }

    /** After planning the first j selected pieces: those are retargeted,
        nothing else has changed, and `animated`/`moves` list, in order, the
        planned pieces that animate. */
    ghost predicate PlannedPrefix(orig: seq<Cubelet>, selected: seq<nat>, draws: seq<real>, j: nat,
                                  animated: seq<nat>, moves: seq<real>)
      reads this, cubelets
    {
      j <= |selected| && |orig| == cubelets.Length && |draws| == cubelets.Length &&
      (forall x :: 0 <= x < cubelets.Length ==>
        cubelets[x] == if x in selected[..j] then Plan(orig[x], draws[x]) else orig[x]) &&
      Increasing(animated) && |moves| == |animated| &&
      (forall k :: 0 <= k < |animated| ==>
        animated[k] in selected && animated[k] < cubelets.Length &&
        Animates(cubelets[animated[k]]) && moves[k] == MoveOf(cubelets[animated[k]])) &&
      (forall p :: 0 <= p < j ==>
        selected[p] < cubelets.Length && (Animates(cubelets[selected[p]]) ==> selected[p] in animated)) &&
      (j < |selected| ==> forall k :: 0 <= k < |animated| ==> animated[k] < selected[j])
    }

    /** One iteration of the planning pass. */
    method PlanNext(ghost orig: seq<Cubelet>, selected: seq<nat>, draws: seq<real>, j: nat, animated: seq<nat>, moves: seq<real>)
      returns (animated': seq<nat>, moves': seq<real>)
      requires Increasing(selected) && j < |selected|
      requires forall p :: 0 <= p < |selected| ==> selected[p] < cubelets.Length
      requires PlannedPrefix(orig, selected, draws, j, animated, moves)
      modifies cubelets
      ensures PlannedPrefix(orig, selected, draws, j + 1, animated', moves')
    {
      var i := selected[j];
      assert i !in selected[..j];
      assert selected[..j + 1] == selected[..j] + [i];
      var c := PlanOne(i, draws[i]);
      animated', moves' := animated, moves;
      if Animates(c) {
        animated', moves' := animated + [i], moves + [MoveOf(c)];
      }
      if j + 1 < |selected| {
        assert selected[j] < selected[j + 1];
      }
    }

    /** Retarget one piece's leg (pieces without a leg are left as they are). */
    method PlanOne(i: nat, speedDraw: real) returns (c: Cubelet)
      requires i < cubelets.Length
      modifies cubelets
      ensures c == Plan(old(cubelets[i]), speedDraw) && cubelets[i] == c
      ensures forall x :: 0 <= x < cubelets.Length && x != i ==> cubelets[x] == old(cubelets[x])
    {
      c := Plan(cubelets[i], speedDraw);
      cubelets[i] := c;
    }

    /** The ROTATION_STEPS steps: each animated leg's rod base advances by
        diagonal * (movement / 30) per step, and its extension takes the whole
        movement on the last step; legs without a rod do not change. */
    method TelescopeSteps(animated: seq<nat>, moves: seq<real>)
      requires Increasing(animated) && |moves| == |animated|
      requires forall k :: 0 <= k < |animated| ==> animated[k] < cubelets.Length
      modifies cubelets
      ensures forall k :: 0 <= k < |animated| ==> cubelets[animated[k]] == TelescopedBy(old(cubelets[animated[k]]), moves[k])
      ensures forall i :: 0 <= i < cubelets.Length && i !in animated ==> cubelets[i] == old(cubelets[i])
    {
      forall k | 0 <= k < |animated| ensures old(cubelets[animated[k]]) == Stepped(old(cubelets[animated[k]]), moves[k], 0) {
        SteppedStart(old(cubelets[animated[k]]), moves[k]);
      }
      for step := 0 to ROTATION_STEPS
        invariant forall k :: 0 <= k < |animated| ==> cubelets[animated[k]] == Stepped(old(cubelets[animated[k]]), moves[k], step)
        invariant forall i :: 0 <= i < cubelets.Length && i !in animated ==> cubelets[i] == old(cubelets[i])
      {
        for t := 0 to |animated|
          invariant forall k :: 0 <= k < t ==> cubelets[animated[k]] == Stepped(old(cubelets[animated[k]]), moves[k], step + 1)
          invariant forall k :: t <= k < |animated| ==> cubelets[animated[k]] == Stepped(old(cubelets[animated[k]]), moves[k], step)
          invariant forall i :: 0 <= i < cubelets.Length && i !in animated ==> cubelets[i] == old(cubelets[i])
        {
          var i, m := animated[t], moves[t];
          SteppedNext(old(cubelets[i]), m, step);
          cubelets[i] := StepOnce(cubelets[i], m / ROTATION_STEPS as real, m, step == ROTATION_STEPS - 1);
        }
      }
      forall k | 0 <= k < |animated| ensures cubelets[animated[k]] == TelescopedBy(old(cubelets[animated[k]]), moves[k]) {
        SteppedComplete(old(cubelets[animated[k]]), moves[k]);
      }
    }

    /** Turns the placements of the selected pieces about the origin. */
    method RotateSelected(selected: seq<nat>, a: Axis, positive: bool)
      requires Increasing(selected)
      requires forall j :: 0 <= j < |selected| ==> selected[j] < cubelets.Length
      modifies cubelets
      ensures forall i :: 0 <= i < cubelets.Length ==>
        cubelets[i] == if i in selected then Rotated(old(cubelets[i]), a, positive) else old(cubelets[i])
    {
      for j := 0 to |selected|
        invariant forall i :: 0 <= i < cubelets.Length ==>
          cubelets[i] == if i in selected[..j] then Rotated(old(cubelets[i]), a, positive) else old(cubelets[i])
      {
        var i := selected[j];
        assert selected[..j + 1] == selected[..j] + [i];
        assert i !in selected[..j];
        cubelets[i] := Rotated(cubelets[i], a, positive);
      }
      assert selected[..|selected|] == selected;
    }

    /** animate_face_rotation_with_telescoping(face, clockwise), with the
        speeds random.uniform would draw given as `draws` (one per cubelet). */
    method AnimateFaceRotationWithTelescoping(face: string, clockwise: bool, draws: seq<real>)
      requires |draws| == cubelets.Length && DrawsInRange(draws)
      modifies cubelets
      ensures cubelets[..] == AfterTurn(old(cubelets[..]), face, clockwise, draws)
    {
      var selected := FaceCubeletsByGrid(cubelets[..], face);
      if |selected| == 0 {
        return;
      }
      assert forall j :: 0 <= j < |selected| ==> selected[j] in selected;
      ghost var start := cubelets[..];
      var axis := RotationAxis(face);
      var animated, moves := PlanLegs(selected, draws);
      ghost var planned := cubelets[..];
      TelescopeSteps(animated, moves);
      ghost var stepped := cubelets[..];
      forall i | 0 <= i < cubelets.Length
        ensures stepped[i] == if InFace(start[i], face) then
                                LegStep(planned[i])
                              else start[i]
      {
        if (i as nat) in selected {
          var p :| 0 <= p < |selected| && selected[p] == i;
          if (i as nat) in animated {
            var k :| 0 <= k < |animated| && animated[k] == i;
          }
        }
      }
      RotateSelected(selected, axis, clockwise);
      UpdateGridPositions();
      assert cubelets[..] == AfterTurn(start, face, clockwise, draws);
    }
  }
}
