/** Two cubes docked leg to leg (Two_Cubes_OO_grids_anim.py): an anchor cube
    whose (1,1,1) corner leg carries a load cube on the load's (-1,-1,-1)
    corner leg.  The placement arithmetic is real-vector algebra with the
    rotations given as matrices; the 180-degree flip about a unit axis u is
    2 u u^T - I.  The animations move the anchor's legs and parts in place
    and re-place the load cube after every change. */
module Docking {
  import opened Base
  import opened Vectors
  import opened Grid
  import opened WorldCube

  const SPHERE_RADIUS: real := LEG_INNER_DIAMETER / 2.0
  /** Corner point to end-sphere centre of a leg at home extension. */
  const HOME_SPHERE_DISTANCE: real := 58.0
  /** The code's stand-in for SPACING * sqrt 3 (43.30127...). */
  const GAP_CORRECTION: real := 43.3
  /** Index of corner (-1,-1,-1) in the corner table: the load's connection corner. */
  const LOAD_CORNER: nat := 7

  /** normalize(1,1,1), with k = 1 / sqrt 3. */
  function AnchorDiagonal(k: real): Vec3
  {
    CornerDiagonal(Coord(1, 1, 1), k)
  }

  /** normalize(-1,-1,-1). */
  function LoadDiagonal(k: real): Vec3
  {
    CornerDiagonal(Coord(-1, -1, -1), k)
  }

  // ---------------------------------------------------------------------------
  // Initial placement of the load cube

  /** The anchor's end-sphere centre at home, in world coordinates: the
      (1,1,1) corner cubelet at (SPACING, SPACING, SPACING) plus the corner
      point plus 58 along the diagonal. */
  function AnchorSphereCentre(k: real): Vec3
  {
    Add(Vec3(SPACING, SPACING, SPACING), Add(CornerPoint(Coord(1, 1, 1)), Scale(AnchorDiagonal(k), HOME_SPHERE_DISTANCE + 0.0)))
  }

  /** One radius out along the anchor diagonal to the touching point, then
      one radius back along the load diagonal: the two moves cancel and the
      load sphere centre is the anchor sphere centre. */
  function LoadSphereCentre(k: real): (r: Vec3)
    ensures r == AnchorSphereCentre(k)
  {
    var touching := Add(AnchorSphereCentre(k), Scale(AnchorDiagonal(k), SPHERE_RADIUS));
    Add(touching, Scale(LoadDiagonal(k), SPHERE_RADIUS))
  }

  /** The load's end-sphere centre at home, relative to the load cube centre. */
  function LoadSphereOffset(k: real): Vec3
  {
    Add(CornerPoint(Coord(-1, -1, -1)), Scale(LoadDiagonal(k), HOME_SPHERE_DISTANCE + 0.0))
  }

  /** calculate_load_cube_position: the load centre is the anchor sphere
      centre minus the load sphere offset, which puts it on the main
      diagonal, (50, 50, 50) + 116 along the unit diagonal. */
  function LoadCubePosition(k: real): (r: Vec3)
    ensures r == Sub(AnchorSphereCentre(k), LoadSphereOffset(k))
    ensures r == Add(Vec3(50.0, 50.0, 50.0), Scale(AnchorDiagonal(k), 116.0))
  {
    Sub(LoadSphereCentre(k), LoadSphereOffset(k))
  }

  /** The hard-coded 58 is the leg's own geometry: -OUTER/2 to the tube
      start, OUTER - OVERLAP + 3 to the rod start, then the rod length; so
      corner point + 58 + extension along the diagonal is the tip (as
      get_tip_position_local computes it) pulled back by the sphere radius. */
  lemma HomeSphereMatchesLeg(pos: Coord, d: Vec3, extension: real)
    ensures HOME_SPHERE_DISTANCE == -LEG_OUTER_LENGTH / 2.0 + (LEG_OUTER_LENGTH - LEG_OVERLAP + 3.0) + LEG_INNER_LENGTH
    ensures Add(CornerPoint(pos), Scale(d, HOME_SPHERE_DISTANCE + extension)) ==
            Sub(TipLocal(RodStart(pos, d), d, extension), Scale(d, SPHERE_RADIUS))
  {
    TipFromCorner(pos, d, extension);
  }

  // ---------------------------------------------------------------------------
  // Re-placing the load cube

  /** The load leg's tip offset from the load centre, as the docking code
      writes it: corner point + (58 + extension + radius) along the load diagonal. */
  function LoadTipOffset(loadExtension: real, k: real): Vec3
  {
    Add(CornerPoint(Coord(-1, -1, -1)), Scale(LoadDiagonal(k), HOME_SPHERE_DISTANCE + loadExtension + SPHERE_RADIUS))
  }

  /** The anchor diagonal after the anchor cubelet's rotation. */
  function ConnectionAxis(anchorGlobal: Placement, k: real): Vec3
  {
    MatVec(anchorGlobal.rot, AnchorDiagonal(k))
  }

  /** update_load_cube_position's arithmetic, for the anchor cubelet's
      global placement, the anchor leg's world tip and the load leg's
      extension: the load is the anchor rotation flipped half a turn about
      the connection axis u, placed so that its leg tip (offset taken from
      the load centre) lies `gap` beyond the anchor tip along u. */
  function LoadPlacement(anchorGlobal: Placement, anchorTip: Vec3, loadExtension: real, k: real, gap: real): Placement
  {
    var u := ConnectionAxis(anchorGlobal, k);
    var rot := MatMul(Flip(u), anchorGlobal.rot);
    Placement(rot, Add(Sub(anchorTip, MatVec(rot, LoadTipOffset(loadExtension, k))), Scale(u, gap)))
  }

  /** The flipped rotation maps anything along the anchor diagonal onto the
      connection axis u. */
  lemma {:induction false} FlipAlongDiagonal(anchorGlobal: Placement, k: real, alpha: real)
    requires IsUnit(ConnectionAxis(anchorGlobal, k))
    ensures var u := ConnectionAxis(anchorGlobal, k);
      MatVec(MatMul(Flip(u), anchorGlobal.rot), Scale(AnchorDiagonal(k), alpha)) == Scale(u, alpha)
  {
    var u := ConnectionAxis(anchorGlobal, k);
    MatMulApply(Flip(u), anchorGlobal.rot, Scale(AnchorDiagonal(k), alpha));
    MatVecScale(anchorGlobal.rot, AnchorDiagonal(k), alpha);
    MatVecScale(Flip(u), u, alpha);
    FlipFixesAxis(u);
  }

  /** The load's corner point, its diagonal and its corner cell's position
      all lie along the anchor diagonal. */
  lemma {:induction false} LoadAlongDiagonal(k: real)
    requires IsInvSqrt3(k)
    ensures LoadDiagonal(k) == Scale(AnchorDiagonal(k), -1.0)
    ensures CornerPoint(Coord(-1, -1, -1)) == Scale(AnchorDiagonal(k), -37.5 * k)
    ensures WorldOf(Coord(-1, -1, -1)) == Scale(AnchorDiagonal(k), -75.0 * k)
  {
    assert k * (-37.5 * k) == -12.5 * (3.0 * k * k);
    assert k * (-75.0 * k) == -25.0 * (3.0 * k * k);
  }

  /** The load offset, rotated, lies along u: -(37.5 k + 63 + e) u. */
  lemma {:induction false} RotatedLoadOffset(anchorGlobal: Placement, loadExtension: real, k: real)
    requires IsInvSqrt3(k) && IsUnit(ConnectionAxis(anchorGlobal, k))
    ensures var u := ConnectionAxis(anchorGlobal, k);
      MatVec(MatMul(Flip(u), anchorGlobal.rot), LoadTipOffset(loadExtension, k)) ==
      Scale(u, -(37.5 * k + HOME_SPHERE_DISTANCE + loadExtension + SPHERE_RADIUS))
  {
    var d := AnchorDiagonal(k);
    LoadAlongDiagonal(k);
    var c := HOME_SPHERE_DISTANCE + loadExtension + SPHERE_RADIUS;
    assert LoadTipOffset(loadExtension, k) == Scale(d, -(37.5 * k + c));
    FlipAlongDiagonal(anchorGlobal, k, -(37.5 * k + c));
  }

  /** The load rotation turns the load's (-1,-1,-1) diagonal to -u, opposing
      the anchor diagonal u, and the load's (1,1,1) diagonal to u. */
  lemma {:induction false} LoadOpposesAnchor(anchorGlobal: Placement, anchorTip: Vec3, loadExtension: real, k: real, gap: real)
    requires IsUnit(ConnectionAxis(anchorGlobal, k))
    ensures var u := ConnectionAxis(anchorGlobal, k);
      var load := LoadPlacement(anchorGlobal, anchorTip, loadExtension, k, gap);
      MatVec(load.rot, LoadDiagonal(k)) == Neg(u) && MatVec(load.rot, AnchorDiagonal(k)) == u
  {
    var u := ConnectionAxis(anchorGlobal, k);
    assert LoadDiagonal(k) == Scale(AnchorDiagonal(k), -1.0);
    assert AnchorDiagonal(k) == Scale(AnchorDiagonal(k), 1.0);
    FlipAlongDiagonal(anchorGlobal, k, -1.0);
    FlipAlongDiagonal(anchorGlobal, k, 1.0);
  }

  /** With the returned placement, the load tip computed from the same local
      offset lies exactly `gap` beyond the anchor tip along u. */
  lemma LoadTipBeyondAnchorTip(anchorGlobal: Placement, anchorTip: Vec3, loadExtension: real, k: real, gap: real)
    ensures Apply(LoadPlacement(anchorGlobal, anchorTip, loadExtension, k, gap), LoadTipOffset(loadExtension, k)) ==
            Add(anchorTip, Scale(ConnectionAxis(anchorGlobal, k), gap))
  {
  }

  /** The load offset is the load leg's tip as the leg itself computes it. */
  lemma LoadOffsetIsLegTip(loadExtension: real, k: real)
    ensures LoadTipOffset(loadExtension, k) ==
            TipLocal(RodStart(Coord(-1, -1, -1), LoadDiagonal(k)), LoadDiagonal(k), loadExtension)
  {
    TipFromCorner(Coord(-1, -1, -1), LoadDiagonal(k), loadExtension);
  }

  /** sqrt 3 is exactly 3 / sqrt 3. */
  lemma {:induction false} SqrtThree(k: real, s: real)
    requires IsInvSqrt3(k) && s > 0.0 && s * s == 3.0
    ensures s == 3.0 * k
  {
    assert (s - 3.0 * k) * (s + 3.0 * k) == s * s - 9.0 * (k * k);
    assert s + 3.0 * k > 0.0;
  }

  /** With the exact gap SPACING * sqrt 3, the offset left out (the load
      corner cell sits at (-25,-25,-25) in the load cube) is put back: the
      load leg's world tip, computed through the corner cubelet's global
      placement, is the anchor tip itself. */
  lemma {:induction false} DockedTipsMeet(anchorGlobal: Placement, anchorTip: Vec3, loadExtension: real, k: real, s: real)
    requires IsInvSqrt3(k) && s > 0.0 && s * s == 3.0
    requires IsUnit(ConnectionAxis(anchorGlobal, k))
    ensures var load := LoadPlacement(anchorGlobal, anchorTip, loadExtension, k, SPACING * s);
      var cell := Placement(Identity, WorldOf(Coord(-1, -1, -1)));
      var ld := LoadDiagonal(k);
      Apply(Compose(load, cell), TipLocal(RodStart(Coord(-1, -1, -1), ld), ld, loadExtension)) == anchorTip
  {
    var load := LoadPlacement(anchorGlobal, anchorTip, loadExtension, k, SPACING * s);
    var cell := Placement(Identity, WorldOf(Coord(-1, -1, -1)));
    var off := LoadTipOffset(loadExtension, k);
    LoadOffsetIsLegTip(loadExtension, k);
    ExactGapIsCellOffset(anchorGlobal, anchorTip, loadExtension, k, s);
    ComposeApply(load, cell, off);
    MatVecIdentity(off);
    assert Apply(cell, off) == Add(WorldOf(Coord(-1, -1, -1)), off);
  }

  /** The exact docking placement is the code's placement with the gap
      SPACING * sqrt 3 in place of 43.3. */
  lemma {:induction false} ExactGapIsCellOffset(anchorGlobal: Placement, anchorTip: Vec3, loadExtension: real, k: real, s: real)
    requires IsInvSqrt3(k) && s > 0.0 && s * s == 3.0
    requires IsUnit(ConnectionAxis(anchorGlobal, k))
    ensures var load := LoadPlacement(anchorGlobal, anchorTip, loadExtension, k, SPACING * s);
      load.base == Sub(anchorTip, MatVec(load.rot, Add(WorldOf(Coord(-1, -1, -1)), LoadTipOffset(loadExtension, k))))
  {
    var load := LoadPlacement(anchorGlobal, anchorTip, loadExtension, k, SPACING * s);
    SqrtThree(k, s);
    LoadAlongDiagonal(k);
    FlipAlongDiagonal(anchorGlobal, k, -75.0 * k);
    MatVecAdd(load.rot, WorldOf(Coord(-1, -1, -1)), LoadTipOffset(loadExtension, k));
  }

  /** 43.3 is SPACING * sqrt 3 to within 0.01 mm. */
  lemma {:induction false} GapCorrectionApproximatesDiagonal(s: real)
    requires s > 0.0 && s * s == 3.0
    ensures -0.01 < GAP_CORRECTION - SPACING * s < 0.01
  {
    assert (s - 1.7316) * (s + 1.7316) == 3.0 - 1.7316 * 1.7316 > 0.0;
    assert (s - 1.7324) * (s + 1.7324) == 3.0 - 1.7324 * 1.7324 < 0.0;
  }

  /** The end spheres touch: with the exact gap, the load sphere centre is
      two radii beyond the anchor sphere centre along u. */
  lemma {:induction false} DockedSpheresTouch(anchorGlobal: Placement, rodStart: Vec3, anchorExtension: real, loadExtension: real, k: real, s: real)
    requires IsInvSqrt3(k) && s > 0.0 && s * s == 3.0
    requires IsUnit(ConnectionAxis(anchorGlobal, k))
    ensures var d := AnchorDiagonal(k);
      var u := ConnectionAxis(anchorGlobal, k);
      var anchorTip := Apply(anchorGlobal, TipLocal(rodStart, d, anchorExtension));
      var anchorSphere := Apply(anchorGlobal, Sub(TipLocal(rodStart, d, anchorExtension), Scale(d, SPHERE_RADIUS)));
      var load := LoadPlacement(anchorGlobal, anchorTip, loadExtension, k, SPACING * s);
      var ld := LoadDiagonal(k);
      var loadSphere := Apply(Compose(load, Placement(Identity, WorldOf(Coord(-1, -1, -1)))),
                              Sub(TipLocal(RodStart(Coord(-1, -1, -1), ld), ld, loadExtension), Scale(ld, SPHERE_RADIUS)));
      loadSphere == Add(anchorSphere, Scale(u, 2.0 * SPHERE_RADIUS))
  {
    var d := AnchorDiagonal(k);
    var u := ConnectionAxis(anchorGlobal, k);
    var tipLocal := TipLocal(rodStart, d, anchorExtension);
    var anchorTip := Apply(anchorGlobal, tipLocal);
    var load := LoadPlacement(anchorGlobal, anchorTip, loadExtension, k, SPACING * s);
    var cell := Placement(Identity, WorldOf(Coord(-1, -1, -1)));
    var ld := LoadDiagonal(k);
    var loadTip := TipLocal(RodStart(Coord(-1, -1, -1), ld), ld, loadExtension);
    DockedTipsMeet(anchorGlobal, anchorTip, loadExtension, k, s);
    MatVecSub(anchorGlobal.rot, tipLocal, Scale(d, SPHERE_RADIUS));
    MatVecScale(anchorGlobal.rot, d, SPHERE_RADIUS);
    ComposeApply(load, cell, Sub(loadTip, Scale(ld, SPHERE_RADIUS)));
    ComposeApply(load, cell, loadTip);
    MatVecSub(load.rot, Apply(cell, loadTip), Scale(ld, SPHERE_RADIUS));
    MatVecIdentity(loadTip);
    MatVecIdentity(Sub(loadTip, Scale(ld, SPHERE_RADIUS)));
    LoadOpposesAnchor(anchorGlobal, anchorTip, loadExtension, k, SPACING * s);
    MatVecScale(load.rot, ld, SPHERE_RADIUS);
  }

  /** Moving the anchor tip along u by x carries the load along with it,
      unrotated: a leg extension translates the load rigidly. */
  lemma LoadTranslatesWithTip(anchorGlobal: Placement, anchorTip: Vec3, x: real, loadExtension: real, k: real, gap: real)
    ensures var u := ConnectionAxis(anchorGlobal, k);
      var before := LoadPlacement(anchorGlobal, anchorTip, loadExtension, k, gap);
      LoadPlacement(anchorGlobal, Add(anchorTip, Scale(u, x)), loadExtension, k, gap) ==
      Placement(before.rot, Add(before.base, Scale(u, x)))
  {
  }

  /** The anchor leg's extension from e1 to e2 moves the anchor tip by
      (e2 - e1) along u, so the load moves by exactly that. */
  lemma {:induction false} LoadFollowsAnchorLeg(anchorGlobal: Placement, rodStart: Vec3, e1: real, e2: real, loadExtension: real, k: real, gap: real)
    ensures var d := AnchorDiagonal(k);
      var u := ConnectionAxis(anchorGlobal, k);
      var before := LoadPlacement(anchorGlobal, Apply(anchorGlobal, TipLocal(rodStart, d, e1)), loadExtension, k, gap);
      LoadPlacement(anchorGlobal, Apply(anchorGlobal, TipLocal(rodStart, d, e2)), loadExtension, k, gap) ==
      Placement(before.rot, Add(before.base, Scale(u, e2 - e1)))
  {
    var d := AnchorDiagonal(k);
    WorldTipShift(anchorGlobal, rodStart, d, e1, e2);
    MatVecScale(anchorGlobal.rot, d, e2 - e1);
    LoadTranslatesWithTip(anchorGlobal, Apply(anchorGlobal, TipLocal(rodStart, d, e1)), e2 - e1, loadExtension, k, gap);
  }

  // ---------------------------------------------------------------------------
  // The blue (load) leg pushing the load away

  /** do_blue_leg_movement's push direction: minus the rotated load diagonal. */
  function PushDirection(loadRot: Mat3, k: real): Vec3
  {
    Neg(MatVec(loadRot, LoadDiagonal(k)))
  }

  /** The blue-leg move as written: the load base moves by the requested
      extension change target - start, although the leg clamps at 30. */
  function BlueMoveAsWritten(initial: Vec3, push: Vec3, start: real, target: real): Vec3
  {
    Add(initial, Scale(push, target - start))
  }

  /** The blue leg's requested extension at step `step` of the 20-step push:
      start + (target - start) * (step + 1) / 20, before set_extension clamps it. */
  function BlueStep(start: real, target: real, step: int): real
  {
    start + (target - start) * (step + 1) as real / 20.0
  }

  /** The blue push's per-step extension is the interpolation the leg
      animations use, so its clamped values are LegFrames over 20 steps. */
  lemma BlueStepIsInterpolation(start: real, target: real, step: int)
    ensures BlueStep(start, target, step) == Interpolate(start, target, 20, step)
  {
    var m := (step + 1) as real;
    assert (target - start) * m / 20.0 == (target - start) / 20.0 * m;
  }

  /** The last of the 20 steps requests exactly the target, so the push's
      final write repeats its last frame. */
  lemma BlueLastStepIsTarget(start: real, target: real)
    ensures BlueStep(start, target, 19) == target
  {
  }

  /** The blue-leg move as intended: the load base moves by the change the
      leg actually makes, Clamp(target) - start. */
  function BlueMove(initial: Vec3, push: Vec3, start: real, target: real): Vec3
  {
    Add(initial, Scale(push, Clamp(target) - start))
  }

  /** As written, a target beyond 30 pushes the load further than the leg
      reaches: the load ends (target - 30) further along the push than the
      leg can account for, e.g. start 0 and target 37 move it 37 mm while
      the leg grows by 30 mm. */
  lemma {:induction false} BlueMoveAsWrittenOvershoots(initial: Vec3, push: Vec3, start: real, target: real)
    requires IsUnit(push) && target > MAX_EXTENSION
    ensures BlueMoveAsWritten(initial, push, start, target) ==
            Add(BlueMove(initial, push, start, target), Scale(push, target - MAX_EXTENSION))
    ensures BlueMoveAsWritten(initial, push, start, target) != BlueMove(initial, push, start, target)
  {
    var t := target - MAX_EXTENSION;
    var diff := Sub(BlueMoveAsWritten(initial, push, start, target), BlueMove(initial, push, start, target));
    assert diff == Scale(push, t);
    DotScaleLeft(push, Scale(push, t), t);
    DotScaleRight(push, push, t);
    assert Dot(diff, diff) == t * (t * Dot(push, push));
    assert t * t > 0.0;
  }

  /** The intended push keeps the docking: a load placed by the tracking
      formula with its leg at `start`, pushed along PushDirection as its leg
      goes to Clamp(target), is where the tracking formula puts it for the
      new extension. */
  lemma {:induction false} BlueMoveKeepsDocking(anchorGlobal: Placement, anchorTip: Vec3, start: real, target: real, k: real, gap: real)
    requires IsInvSqrt3(k) && IsUnit(ConnectionAxis(anchorGlobal, k))
    ensures var before := LoadPlacement(anchorGlobal, anchorTip, start, k, gap);
      PushDirection(before.rot, k) == ConnectionAxis(anchorGlobal, k) &&
      LoadPlacement(anchorGlobal, anchorTip, Clamp(target), k, gap) ==
      Placement(before.rot, BlueMove(before.base, PushDirection(before.rot, k), start, target))
  {
    var u := ConnectionAxis(anchorGlobal, k);
    var before := LoadPlacement(anchorGlobal, anchorTip, start, k, gap);
    LoadOpposesAnchor(anchorGlobal, anchorTip, start, k, gap);
    RotatedLoadOffset(anchorGlobal, start, k);
    RotatedLoadOffset(anchorGlobal, Clamp(target), k);
  }

  /** do_leg_movement / do_blue_leg_movement: near home (extension at most
      1) extend to the drawn target, otherwise retract to 0. */
  function ToggleTarget(extension: real, draw: real): real
  {
    if extension <= 1.0 then draw else 0.0
  }

  /** From home a press drives the leg to full extension (the drawn target
      is in [35, 40], beyond the clamp), and a second press brings it home. */
  lemma ToggleCycle(extension: real, draw1: real, draw2: real)
    requires 0.0 <= extension <= 1.0
    requires 35.0 <= draw1 <= 40.0 && 35.0 <= draw2 <= 40.0
    ensures Clamp(ToggleTarget(extension, draw1)) == MAX_EXTENSION
    ensures Clamp(ToggleTarget(Clamp(ToggleTarget(extension, draw1)), draw2)) == 0.0
  {
  }

  // ---------------------------------------------------------------------------
  // The two cubes in the document

  /** Two distinct, well-formed cubes that share no leg and no part array. */
  ghost predicate Scene(anchor: RubiksCube, load: RubiksCube)
    reads anchor, anchor.legs, load, load.legs
  {
    anchor.Valid() && load.Valid() && anchor != load && anchor.parts != load.parts &&
    forall i, j :: 0 <= i < 8 && 0 <= j < 8 ==> anchor.legs[i] != load.legs[j]
  }

  /** Where update_load_cube_position puts the load when the anchor's
      tracked corner `c` has its leg at `extension` and the load leg is at
      `loadExtension`. */
  function DockedLoad(anchor: RubiksCube, c: nat, extension: real, loadExtension: real, k: real): Placement
    requires c < |anchor.legs| && c < anchor.parts.Length
    reads anchor, anchor.parts
  {
    var g := Compose(anchor.root, anchor.parts[c]);
    var leg := anchor.legs[c];
    LoadPlacement(g, Apply(g, TipLocal(leg.rodStartLocal, leg.diagonal, extension)), loadExtension, k, GAP_CORRECTION)
  }

  /** The load sits where update_load_cube_position puts it for the tracked
      anchor corner `c` and both legs' current extensions. */
  ghost predicate LoadTracks(anchor: RubiksCube, load: RubiksCube, c: nat, k: real)
    reads anchor, anchor.parts, anchor.legs, load, load.legs
  {
    c < |anchor.legs| && c < anchor.parts.Length && LOAD_CORNER < |load.legs| &&
    load.root == DockedLoad(anchor, c, anchor.legs[c].extension, load.legs[LOAD_CORNER].extension, k)
  }

  /** update_load_cube_position: nothing without a tracked anchor cubelet;
      otherwise the load cube's placement is recomputed from the tracked
      cubelet's current global placement (not from whatever sits at
      (1,1,1) now) and both legs' current extensions. */
  method UpdateLoadCubePosition(anchor: RubiksCube, load: RubiksCube, connection: Option<nat>, k: real)
    requires Scene(anchor, load) && (connection.Some? ==> connection.value < 8)
    modifies load`root
    ensures Scene(anchor, load)
    ensures connection.None? ==> load.root == old(load.root)
    ensures connection.Some? ==>
      load.root == DockedLoad(anchor, connection.value, anchor.legs[connection.value].extension, load.legs[LOAD_CORNER].extension, k)
  {
    if connection.None? {
      return;
    }
    var corner := connection.value;
    var g := Compose(anchor.root, anchor.parts[corner]);
    var tip := anchor.legs[corner].TipPositionWorld(g);
    var loadCorner := load.GetCorner(Coord(-1, -1, -1));
    load.root := LoadPlacement(g, tip, loadCorner.value.extension, k, GAP_CORRECTION);
  }

  /** animate_anchor_leg_with_load_tracking: ZeroDivisionError for zero
      steps before anything moves; otherwise the tracked leg steps through
      start + (target - start) * (k + 1) / steps, the load is re-placed after
      every step, and the leg is finally set to the target.  `frames` are
      the leg's extensions after each step and `track` the load placements. */
  method AnimateAnchorLegWithLoadTracking(anchor: RubiksCube, load: RubiksCube, c: nat, target: real, steps: int, k: real)
    returns (err: Option<PyError>, frames: seq<real>, track: seq<Placement>)
    requires Scene(anchor, load) && c < 8
    modifies anchor.legs, load`root
    ensures Scene(anchor, load)
    ensures err == if steps == 0 then Some(ZeroDivisionError) else None
    ensures forall i :: 0 <= i < 8 ==> load.legs[i].extension == old(load.legs[i].extension)
    ensures forall i :: 0 <= i < 8 && i != c ==> anchor.legs[i].extension == old(anchor.legs[i].extension)
    ensures err.Some? ==> anchor.legs[c].extension == old(anchor.legs[c].extension) && load.root == old(load.root)
    ensures err.None? ==>
      var n := if steps > 0 then steps else 0;
      frames == LegFrames(old(anchor.legs[c].extension), target, steps, n) && |track| == n &&
      (forall j :: 0 <= j < n ==> track[j] == DockedLoad(anchor, c, frames[j], load.legs[LOAD_CORNER].extension, k)) &&
      anchor.legs[c].extension == Clamp(target) &&
      load.root == DockedLoad(anchor, c, Clamp(target), load.legs[LOAD_CORNER].extension, k)
  {
    frames, track := [], [];
    if steps == 0 {
      return Some(ZeroDivisionError), frames, track;
    }
    var start := anchor.legs[c].extension;
    var loadExtension := load.legs[LOAD_CORNER].extension;
    for step := 0 to (if steps > 0 then steps else 0)
      invariant Scene(anchor, load)
      invariant forall i :: 0 <= i < 8 ==> load.legs[i].extension == old(load.legs[i].extension)
      invariant forall i :: 0 <= i < 8 && i != c ==> anchor.legs[i].extension == old(anchor.legs[i].extension)
      invariant frames == LegFrames(start, target, steps, step) && |track| == step
      invariant forall j :: 0 <= j < step ==> track[j] == DockedLoad(anchor, c, frames[j], loadExtension, k)
    {
      TrackedLegStep(anchor, load, c, Interpolate(start, target, steps, step), k);
      LegFramesNext(start, target, steps, step);
      frames := frames + [anchor.legs[c].extension];
      track := track + [load.root];
    }
    TrackedLegStep(anchor, load, c, target, k);
    err := None;
  }

  /** One frame of the tracked animation: set the anchor leg, then re-place the load. */
  method TrackedLegStep(anchor: RubiksCube, load: RubiksCube, c: nat, extension: real, k: real)
    requires Scene(anchor, load) && c < 8
    modifies anchor.legs[c], load`root
    ensures Scene(anchor, load)
    ensures forall i :: 0 <= i < 8 ==> load.legs[i].extension == old(load.legs[i].extension)
    ensures forall i :: 0 <= i < 8 && i != c ==> anchor.legs[i].extension == old(anchor.legs[i].extension)
    ensures anchor.legs[c].extension == Clamp(extension)
    ensures load.root == DockedLoad(anchor, c, Clamp(extension), load.legs[LOAD_CORNER].extension, k)
  {
    anchor.legs[c].SetExtension(extension);
    UpdateLoadCubePosition(anchor, load, Some(c), k);
  }

  /** One frame of the blue push: set the load leg and place the load. */
  method SetLoadLeg(anchor: RubiksCube, load: RubiksCube, extension: real, p: Placement)
    requires Scene(anchor, load)
    modifies load.legs[LOAD_CORNER], load`root
    ensures Scene(anchor, load)
    ensures forall i :: 0 <= i < 8 ==> anchor.legs[i].extension == old(anchor.legs[i].extension)
    ensures forall i :: 0 <= i < 8 && i != LOAD_CORNER ==> load.legs[i].extension == old(load.legs[i].extension)
    ensures load.legs[LOAD_CORNER].extension == Clamp(extension) && load.root == p
  {
    load.legs[LOAD_CORNER].SetExtension(extension);
    load.root := p;
  }

  /** _rotate_face_with_load_tracking: an unknown face is a KeyError; an
      empty selection returns without moving anything; zero steps raise
      ZeroDivisionError; otherwise the anchor face turns as rotate_face
      turns it and the load is re-placed from the tracked cubelet. */
  method RotateFaceWithLoadTracking(anchor: RubiksCube, load: RubiksCube, connection: Option<nat>, face: string, clockwise: bool, steps: int, k: real)
    returns (err: Option<PyError>)
    requires Scene(anchor, load) && (connection.Some? ==> connection.value < 8)
    modifies anchor.parts, load`root
    ensures Scene(anchor, load)
    ensures FaceAxis(face).None? ==> err == Some(KeyError)
    ensures FaceAxis(face).Some? && steps != 0 ==> err.None?
    ensures err.Some? || (FaceAxis(face).Some? && |FaceSelection(anchor.root, old(anchor.parts[..]), FaceAxis(face).value)| == 0) ==>
      anchor.parts[..] == old(anchor.parts[..]) && load.root == old(load.root)
    ensures FaceAxis(face).Some? && |FaceSelection(anchor.root, old(anchor.parts[..]), FaceAxis(face).value)| > 0 ==>
      (steps == 0 <==> err == Some(ZeroDivisionError))
    ensures err.None? ==>
      FaceAxis(face).Some? &&
      anchor.parts[..] == TurnParts(anchor.root, old(anchor.parts[..]), FaceSelection(anchor.root, old(anchor.parts[..]), FaceAxis(face).value),
                                    FacePivot(FaceAxis(face).value, clockwise))
    ensures err.None? && FaceAxis(face).Some? && |FaceSelection(anchor.root, old(anchor.parts[..]), FaceAxis(face).value)| > 0 ==>
      (connection.None? ==> load.root == old(load.root)) &&
      (connection.Some? ==> LoadTracks(anchor, load, connection.value, k))
  {
    var selection := anchor.CurrentFaceSelection(face);
    if selection.Err? {
      return Some(KeyError);
    }
    if |selection.value| == 0 {
      assert TurnParts(anchor.root, anchor.parts[..], selection.value, FacePivot(FaceAxis(face).value, clockwise)) == anchor.parts[..];
      return None;
    }
    err := anchor.RotateFace(face, clockwise, steps);
    if err.None? {
      UpdateLoadCubePosition(anchor, load, connection, k);
    }
  }

  /** One leg's value at a step of _rotate_with_legs_and_load_tracking:
      initial + (target - initial) * progress, progress = (step + 1) / steps. */
  function ProgressValue(initial: real, target: real, steps: int, step: int): real
    requires steps != 0
  {
    initial + (target - initial) * ((step + 1) as real / steps as real)
  }

  /** The tracked rotation's progress formula is the common interpolation. */
  lemma {:induction false} ProgressIsInterpolation(initial: real, target: real, steps: int, step: int)
    requires steps != 0
    ensures ProgressValue(initial, target, steps, step) == Interpolate(initial, target, steps, step)
  {
    var n := steps as real;
    var m := (step + 1) as real;
    assert (target - initial) * (m / n) == (target - initial) / n * m;
  }

  /** The frame _rotate_with_legs_and_load_tracking shows after step `s`:
      each listed corner's leg at initial + (target - initial) * progress,
      progress being (s + 1) / steps and the value clamped by set_extension;
      every other leg where it started. */
  lemma {:induction false} TrackedFramesFollowProgress(legExtensions: seq<(Coord, real)>, start: seq<real>, steps: int, n: nat, s: nat, i: nat)
    requires |start| == 8 && steps != 0 && s < n && i < 8
    ensures TurnFrames(legExtensions, start, steps, n)[s][i] ==
      match LastTargetFor(legExtensions, CornerPositions[i])
      case None => start[i]
      case Some(t) => Clamp(ProgressValue(start[i], t, steps, s))
  {
    TurnFramesFollowLegFrames(legExtensions, start, steps, n, i);
    match LastTargetFor(legExtensions, CornerPositions[i])
    case None =>
    case Some(t) =>
      LegFramesAt(start[i], t, steps, n, s);
      ProgressIsInterpolation(start[i], t, steps, s);
  }

  /** _rotate_with_legs_and_load_tracking: like the tracked rotation, with
      the listed corner legs animated alongside the turn and finally set to
      their targets (a later entry for a corner wins); an empty selection
      returns before any leg moves. */
  method RotateWithLegsAndLoadTracking(anchor: RubiksCube, load: RubiksCube, connection: Option<nat>, face: string, clockwise: bool,
                                       legExtensions: seq<(Coord, real)>, steps: int, k: real)
    returns (err: Option<PyError>, frames: seq<seq<real>>)
    requires Scene(anchor, load) && (connection.Some? ==> connection.value < 8)
    modifies anchor.parts, anchor.legs, load`root
    ensures Scene(anchor, load)
    ensures forall i :: 0 <= i < 8 ==> load.legs[i].extension == old(load.legs[i].extension)
    ensures FaceAxis(face).None? ==> err == Some(KeyError)
    ensures FaceAxis(face).Some? && steps != 0 ==> err.None?
    ensures err.Some? || (FaceAxis(face).Some? && |FaceSelection(anchor.root, old(anchor.parts[..]), FaceAxis(face).value)| == 0) ==>
      anchor.parts[..] == old(anchor.parts[..]) && load.root == old(load.root) &&
      forall i :: 0 <= i < 8 ==> anchor.legs[i].extension == old(anchor.legs[i].extension)
    ensures FaceAxis(face).Some? && |FaceSelection(anchor.root, old(anchor.parts[..]), FaceAxis(face).value)| > 0 ==>
      (steps == 0 <==> err == Some(ZeroDivisionError))
    ensures err.None? && FaceAxis(face).Some? && |FaceSelection(anchor.root, old(anchor.parts[..]), FaceAxis(face).value)| > 0 ==>
      anchor.parts[..] == TurnParts(anchor.root, old(anchor.parts[..]), FaceSelection(anchor.root, old(anchor.parts[..]), FaceAxis(face).value),
                                    FacePivot(FaceAxis(face).value, clockwise)) &&
      (forall i :: 0 <= i < 8 ==>
        anchor.legs[i].extension == match LastTargetFor(legExtensions, CornerPositions[i])
                                    case None => old(anchor.legs[i].extension)
                                    case Some(t) => Clamp(t)) &&
      (connection.None? ==> load.root == old(load.root)) &&
      (connection.Some? ==> LoadTracks(anchor, load, connection.value, k))
    ensures err.Some? || (FaceAxis(face).Some? && |FaceSelection(anchor.root, old(anchor.parts[..]), FaceAxis(face).value)| == 0) ==>
      frames == []
    ensures err.None? && FaceAxis(face).Some? && |FaceSelection(anchor.root, old(anchor.parts[..]), FaceAxis(face).value)| > 0 ==>
      steps != 0 && frames == TurnFrames(legExtensions, old(anchor.Extensions()), steps, if steps > 0 then steps else 0)
  {
    frames := [];
    var selection := anchor.CurrentFaceSelection(face);
    if selection.Err? {
      return Some(KeyError), frames;
    }
    if |selection.value| == 0 {
      return None, frames;
    }
    err, frames := anchor.RotateFaceWithLegExtensions(face, clockwise, legExtensions, steps);
    if err.None? {
      UpdateLoadCubePosition(anchor, load, connection, k);
    }
  }

  /** Two freshly created cubes, both at the origin with every leg home. */
  method NewCubes(k: real) returns (anchor: RubiksCube, load: RubiksCube)
    requires IsInvSqrt3(k)
    ensures fresh(anchor) && fresh(load) && Scene(anchor, load)
    ensures anchor.root == IdentityPlacement
    ensures forall i :: 0 <= i < 8 ==> anchor.legs[i].extension == 0.0
    ensures forall i :: 0 <= i < 8 ==> load.legs[i].extension == 0.0
  {
    anchor := new RubiksCube(k);
    load := new RubiksCube(k);
  }

  /** run_infinite_animation_loop's set-up: the anchor at the origin, its
      (1,1,1) cubelet remembered as the connection, the load first put at
      calculate_load_cube_position and then re-placed by the tracking rule. */
  method CreateScene(k: real) returns (anchor: RubiksCube, load: RubiksCube, connection: Option<nat>)
    requires IsInvSqrt3(k)
    ensures fresh(anchor) && fresh(load) && Scene(anchor, load)
    ensures connection == Some(0) && CornerPositions[0] == Coord(1, 1, 1)
    ensures anchor.root == IdentityPlacement
    ensures forall i :: 0 <= i < 8 ==> anchor.legs[i].extension == 0.0
    ensures forall i :: 0 <= i < 8 ==> load.legs[i].extension == 0.0
    ensures load.root == DockedLoad(anchor, 0, 0.0, 0.0, k)
  {
    anchor, load := NewCubes(k);
    connection := CornerIndex(Coord(1, 1, 1));
    load.root := Placement(load.root.rot, LoadCubePosition(k));
    UpdateLoadCubePosition(anchor, load, connection, k);
  }

  /** The control dialog: the two cubes, the remembered connection cubelet
      and the move counter. */
  class AnimationControl {
    const anchor: RubiksCube
    const load: RubiksCube
    /** The module-level _anchor_connection_cubelet. */
    const connection: Option<nat>
    /** 1 / sqrt 3, the normalisation factor of the diagonals. */
    const k: real
    var moveCount: nat

    ghost predicate Valid()
      reads this, anchor, anchor.legs, load, load.legs
    {
      Scene(anchor, load) && IsInvSqrt3(k) && (connection.Some? ==> connection.value < 8)
    }

    constructor (anchor: RubiksCube, load: RubiksCube, connection: Option<nat>, k: real)
      requires Scene(anchor, load) && IsInvSqrt3(k) && (connection.Some? ==> connection.value < 8)
      ensures Valid() && moveCount == 0
      ensures this.anchor == anchor && this.load == load && this.connection == connection && this.k == k
    {
      this.anchor := anchor;
      this.load := load;
      this.connection := connection;
      this.k := k;
      moveCount := 0;
    }

    /** do_rotation: `face` and `clockwise` are the random draws (R, U or F;
        either direction); counts the move and turns with load tracking, so
        the load follows the tracked anchor cubelet after a real turn. */
    method DoRotation(face: string, clockwise: bool) returns (err: Option<PyError>)
      requires Valid() && (face == "R" || face == "U" || face == "F")
      modifies this, anchor.parts, load`root
      ensures Valid() && moveCount == old(moveCount) + 1
      ensures err.None?
      ensures anchor.parts[..] == TurnParts(anchor.root, old(anchor.parts[..]), FaceSelection(anchor.root, old(anchor.parts[..]), FaceAxis(face).value),
                                            FacePivot(FaceAxis(face).value, clockwise))
      ensures |FaceSelection(anchor.root, old(anchor.parts[..]), FaceAxis(face).value)| == 0 || connection.None? ==>
        load.root == old(load.root)
      ensures |FaceSelection(anchor.root, old(anchor.parts[..]), FaceAxis(face).value)| > 0 && connection.Some? ==>
        LoadTracks(anchor, load, connection.value, k)
    {
      assert FaceAxis(face).Some?;
      moveCount := moveCount + 1;
      err := RotateFaceWithLoadTracking(anchor, load, connection, face, clockwise, 40, k);
    }

    /** do_leg_movement: without a connection cubelet nothing happens;
        otherwise the move is counted and the red leg goes to the toggled
        target (`draw` is the random target in [35, 40]) with load tracking. */
    method DoLegMovement(draw: real)
      requires Valid() && 35.0 <= draw <= 40.0
      modifies this, anchor.legs, load`root
      ensures Valid()
      ensures forall i :: 0 <= i < 8 ==> load.legs[i].extension == old(load.legs[i].extension)
      ensures connection.None? ==>
        moveCount == old(moveCount) && load.root == old(load.root) &&
        (forall i :: 0 <= i < 8 ==> anchor.legs[i].extension == old(anchor.legs[i].extension))
      ensures connection.Some? ==>
        var c := connection.value;
        moveCount == old(moveCount) + 1 &&
        anchor.legs[c].extension == Clamp(ToggleTarget(old(anchor.legs[c].extension), draw)) &&
        (forall i :: 0 <= i < 8 && i != c ==> anchor.legs[i].extension == old(anchor.legs[i].extension)) &&
        load.root == DockedLoad(anchor, c, anchor.legs[c].extension, load.legs[LOAD_CORNER].extension, k)
    {
      if connection.None? {
        return;
      }
      var c := connection.value;
      var target := ToggleTarget(anchor.legs[c].extension, draw);
      moveCount := moveCount + 1;
      var err, frames, track := AnimateAnchorLegWithLoadTracking(anchor, load, c, target, 20, k);
    }

    /** do_blue_leg_movement: the load's (-1,-1,-1) leg goes to the toggled
        target (`draw` in [35, 40]) over 20 steps and the load base is pushed
        along PushDirection by the requested change, ending at
        initial + push * (target - start) (BlueMoveAsWritten), even where the
        leg itself stops at 30 (BlueMoveAsWrittenOvershoots). Step s sets the
        leg to BlueStep(start, target, s), recorded clamped in `frames`, and
        the base to initial + push * (BlueStep - start), recorded in `track`. */
    method DoBlueLegMovement(draw: real) returns (frames: seq<real>, track: seq<Placement>)
      requires Valid() && 35.0 <= draw <= 40.0
      modifies this, load.legs, load`root
      ensures Valid() && moveCount == old(moveCount) + 1
      ensures forall i :: 0 <= i < 8 ==> anchor.legs[i].extension == old(anchor.legs[i].extension)
      ensures forall i :: 0 <= i < 8 && i != LOAD_CORNER ==> load.legs[i].extension == old(load.legs[i].extension)
      ensures var start := old(load.legs[LOAD_CORNER].extension);
        var target := ToggleTarget(start, draw);
        load.legs[LOAD_CORNER].extension == Clamp(target) &&
        load.root == Placement(old(load.root.rot),
                               BlueMoveAsWritten(old(load.root.base), PushDirection(old(load.root.rot), k), start, target))
      ensures var start := old(load.legs[LOAD_CORNER].extension);
        var target := ToggleTarget(start, draw);
        frames == LegFrames(start, target, 20, 20) && |track| == 20 &&
        (forall s :: 0 <= s < 20 ==>
          track[s] == Placement(old(load.root.rot),
                                BlueMoveAsWritten(old(load.root.base), PushDirection(old(load.root.rot), k), start, BlueStep(start, target, s)))) &&
        track[19] == load.root
    {
      frames, track := [], [];
      var start := load.legs[LOAD_CORNER].extension;
      var target := ToggleTarget(start, draw);
      moveCount := moveCount + 1;
      var rot := load.root.rot;
      var push := PushDirection(rot, k);
      var initial := load.root.base;
      for step := 0 to 20
        invariant Valid() && moveCount == old(moveCount) + 1
        invariant forall i :: 0 <= i < 8 ==> anchor.legs[i].extension == old(anchor.legs[i].extension)
        invariant forall i :: 0 <= i < 8 && i != LOAD_CORNER ==> load.legs[i].extension == old(load.legs[i].extension)
        invariant load.root.rot == rot
        invariant frames == LegFrames(start, target, 20, step) && |track| == step
        invariant forall j :: 0 <= j < step ==>
          track[j] == Placement(rot, BlueMoveAsWritten(initial, push, start, BlueStep(start, target, j)))
      {
        var newExtension := BlueStep(start, target, step);
        SetLoadLeg(anchor, load, newExtension, Placement(rot, BlueMoveAsWritten(initial, push, start, newExtension)));
        BlueStepIsInterpolation(start, target, step);
        LegFramesNext(start, target, 20, step);
        frames := frames + [load.legs[LOAD_CORNER].extension];
        track := track + [load.root];
      }
      BlueLastStepIsTarget(start, target);
      SetLoadLeg(anchor, load, target, Placement(rot, BlueMoveAsWritten(initial, push, start, target)));
    }
  }
}
