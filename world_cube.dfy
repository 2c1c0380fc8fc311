/** The object-oriented single cube (Cube_OO_worldcoords.py): a telescoping
    leg per corner with its local geometry, the position codes of the
    corners, and a RubiksCube whose face turns select pieces by their current
    world position and turn them with a pivot about the face centre.  Legs
    are objects whose extension is set in place; the 26 cubelet placements
    are an array updated in place; grid properties and the corner dictionary
    are fixed at creation. */
module WorldCube {
  import opened Base
  import opened Vectors
  import opened Grid

  const CUBELET_SIZE: real := 25.0
  const LEG_OUTER_LENGTH: real := 30.0
  const LEG_INNER_DIAMETER: real := 10.0
  const LEG_INNER_LENGTH: real := 50.0
  const LEG_OVERLAP: real := 10.0
  const MAX_EXTENSION: real := 30.0

  /** set_extension's clamp to [0, 30]. */
  function Clamp(e: real): (r: real)
    ensures 0.0 <= r <= MAX_EXTENSION
    ensures 0.0 <= e <= MAX_EXTENSION ==> r == e
    ensures e < 0.0 ==> r == 0.0
    ensures e > MAX_EXTENSION ==> r == MAX_EXTENSION
  {
    Max(0.0, Min(MAX_EXTENSION, e))
  }

  lemma ClampIdempotent(e: real)
    ensures Clamp(Clamp(e)) == Clamp(e)
  {
  }

  lemma ClampMonotone(a: real, b: real)
    requires a <= b
    ensures Clamp(a) <= Clamp(b)
  {
  }

  // ---------------------------------------------------------------------------
  // Leg geometry, in the cubelet's local frame

  /** The outer corner of the cubelet: position * CUBELET_SIZE / 2. */
  function CornerPoint(pos: Coord): Vec3
  {
    Scale(ToVec(pos), CUBELET_SIZE / 2.0)
  }

  /** Start of the outer tube: half a tube length inside the corner. */
  function TubeStart(pos: Coord, d: Vec3): Vec3
  {
    Sub(CornerPoint(pos), Scale(d, LEG_OUTER_LENGTH / 2.0))
  }

  /** Start of the inner rod: tube length minus overlap plus 3 further out. */
  function RodStart(pos: Coord, d: Vec3): Vec3
  {
    Add(TubeStart(pos, d), Scale(d, LEG_OUTER_LENGTH - LEG_OVERLAP + 3.0))
  }

  /** Tip (surface of the end sphere): rod length + extension + sphere radius past the rod start. */
  function TipLocal(rodStart: Vec3, d: Vec3, extension: real): Vec3
  {
    Add(rodStart, Scale(d, LEG_INNER_LENGTH + extension + LEG_INNER_DIAMETER / 2.0))
  }

  /** The normalised corner diagonal, with k = 1 / sqrt 3. */
  function CornerDiagonal(pos: Coord, k: real): Vec3
  {
    Scale(ToVec(pos), k)
  }

  predicate IsCornerPos(pos: Coord)
  {
    (pos.x == 1 || pos.x == -1) && (pos.y == 1 || pos.y == -1) && (pos.z == 1 || pos.z == -1)
  }

  predicate IsInvSqrt3(k: real)
  {
    k > 0.0 && 3.0 * k * k == 1.0
  }

  lemma {:induction false} CornerDiagonalIsUnit(pos: Coord, k: real)
    requires IsCornerPos(pos) && IsInvSqrt3(k)
    ensures IsUnit(CornerDiagonal(pos, k))
  {
    var v := ToVec(pos);
    assert v.x * v.x == 1.0 && v.y * v.y == 1.0 && v.z * v.z == 1.0;
    assert Dot(Scale(v, k), Scale(v, k)) == (v.x * v.x + v.y * v.y + v.z * v.z) * (k * k);
  }

  /** The rod starts 8 mm out along the diagonal from the corner point. */
  lemma RodStartFromCorner(pos: Coord, d: Vec3)
    ensures RodStart(pos, d) == Add(CornerPoint(pos), Scale(d, 8.0))
  {
  }

  /** The tip sits 63 + extension along the diagonal from the corner point. */
  lemma TipFromCorner(pos: Coord, d: Vec3, extension: real)
    ensures TipLocal(RodStart(pos, d), d, extension) == Add(CornerPoint(pos), Scale(d, 63.0 + extension))
  {
  }

  /** Changing the extension by `e` moves the tip by diagonal * e. */
  lemma TipShift(rodStart: Vec3, d: Vec3, e1: real, e2: real)
    ensures TipLocal(rodStart, d, e2) == Add(TipLocal(rodStart, d, e1), Scale(d, e2 - e1))
  {
  }

  /** Along a unit diagonal the tip is 55 + extension from the rod start. */
  lemma {:induction false} TipDistance(rodStart: Vec3, d: Vec3, extension: real)
    requires IsUnit(d)
    ensures Dot(Sub(TipLocal(rodStart, d, extension), rodStart), d) == 55.0 + extension
  {
    var s := LEG_INNER_LENGTH + extension + LEG_INNER_DIAMETER / 2.0;
    assert Sub(TipLocal(rodStart, d, extension), rodStart) == Scale(d, s);
    assert Dot(Scale(d, s), d) == s * Dot(d, d);
  }

  // ---------------------------------------------------------------------------
  // Telescoping leg

  class TelescopingLeg {
    const cornerPosition: Coord
    const diagonal: Vec3
    const tubeStartLocal: Vec3
    const rodStartLocal: Vec3
    var extension: real
    var targetExtension: real
    /** Base of the inner rod object, once it has been created. */
    var innerRodBase: Option<Vec3>

    /** The rod, when present, always sits at rod start + diagonal * extension. */
    ghost predicate Valid()
      reads this
    {
      IsUnit(diagonal) &&
      tubeStartLocal == TubeStart(cornerPosition, diagonal) &&
      rodStartLocal == RodStart(cornerPosition, diagonal) &&
      0.0 <= extension <= MAX_EXTENSION &&
      (innerRodBase.Some? ==> innerRodBase.value == Add(rodStartLocal, Scale(diagonal, extension)))
    }

    constructor (cornerPosition: Coord, diagonal: Vec3)
      requires IsUnit(diagonal)
      ensures Valid()
      ensures this.cornerPosition == cornerPosition && this.diagonal == diagonal
      ensures extension == 0.0 && targetExtension == 0.0 && innerRodBase == None
    {
      this.cornerPosition := cornerPosition;
      this.diagonal := diagonal;
      extension := 0.0;
      targetExtension := 0.0;
      tubeStartLocal := TubeStart(cornerPosition, diagonal);
      rodStartLocal := RodStart(cornerPosition, diagonal);
      innerRodBase := None;
    }

    /** _create_inner_rod: the rod object is placed at the rod start. */
    method CreateInnerRod()
      requires Valid()
      modifies this
      ensures innerRodBase == Some(rodStartLocal)
      ensures extension == old(extension) && targetExtension == old(targetExtension)
      ensures old(extension) == 0.0 ==> Valid()
    {
      innerRodBase := Some(rodStartLocal);
      ScaleZero(rodStartLocal, diagonal);
    }

    /** get_tip_position_local. */
    function TipPositionLocal(): (r: Vec3)
      reads this
      ensures r == TipLocal(rodStartLocal, diagonal, extension)
    {
      Add(rodStartLocal, Scale(diagonal, LEG_INNER_LENGTH + extension + LEG_INNER_DIAMETER / 2.0))
    }

    /** get_tip_position_world, for the parent cubelet's global placement. */
    function TipPositionWorld(cubeletGlobal: Placement): (r: Vec3)
      reads this
      ensures r == Add(cubeletGlobal.base, MatVec(cubeletGlobal.rot, TipPositionLocal()))
    {
      Apply(cubeletGlobal, TipPositionLocal())
    }

    /** set_extension: clamp to [0, 30], store it, and move the rod (if any)
        to rod start + diagonal * extension. */
    method SetExtension(extensionMm: real)
      requires Valid()
      modifies this
      ensures Valid()
      ensures extension == Clamp(extensionMm)
      ensures innerRodBase.Some? == old(innerRodBase).Some?
      ensures innerRodBase.Some? ==> innerRodBase.value == Add(rodStartLocal, Scale(diagonal, Clamp(extensionMm)))
      ensures targetExtension == old(targetExtension)
    {
      var e := Max(0.0, Min(30.0, extensionMm));
      extension := e;
      if innerRodBase.Some? {
        innerRodBase := Some(Add(rodStartLocal, Scale(diagonal, e)));
      }
    }

    /** animate_leg_extension's work on one leg: `steps` interpolated
        extensions from the current one towards `target`, then `target`
        itself (both clamped).  Returns the extension after each step. */
    method AnimateTo(target: real, steps: int) returns (frames: seq<real>)
      requires Valid() && steps != 0
      modifies this
      ensures Valid()
      ensures frames == LegFrames(old(extension), target, steps, if steps > 0 then steps else 0)
      ensures extension == Clamp(target)
      ensures targetExtension == old(targetExtension)
    {
      frames := [];
      var start := extension;
      for step := 0 to (if steps > 0 then steps else 0)
        invariant Valid()
        invariant frames == LegFrames(start, target, steps, step)
        invariant targetExtension == old(targetExtension)
      {
        SetExtension(Interpolate(start, target, steps, step));
        LegFramesNext(start, target, steps, step);
        frames := frames + [extension];
      }
      SetExtension(target);
    }
  }

  /** Moving the extension moves the world tip by the rotated diagonal. */
  lemma {:induction false} WorldTipShift(p: Placement, rodStart: Vec3, d: Vec3, e1: real, e2: real)
    ensures Apply(p, TipLocal(rodStart, d, e2)) == Add(Apply(p, TipLocal(rodStart, d, e1)), MatVec(p.rot, Scale(d, e2 - e1)))
  {
    TipShift(rodStart, d, e1, e2);
    MatVecAdd(p.rot, TipLocal(rodStart, d, e1), Scale(d, e2 - e1));
  }

  // ---------------------------------------------------------------------------
  // Corner position codes

  /** _get_position_code: R/L by x > 0, U/D by y > 0, F/B by z > 0. */
  function PositionCode(pos: Coord): (code: string)
    ensures |code| == 3
    ensures (code[0] == 'R') == (pos.x > 0) && (code[0] == 'L') == (pos.x <= 0)
    ensures (code[1] == 'U') == (pos.y > 0) && (code[1] == 'D') == (pos.y <= 0)
    ensures (code[2] == 'F') == (pos.z > 0) && (code[2] == 'B') == (pos.z <= 0)
  {
    [if pos.x > 0 then 'R' else 'L'] + [if pos.y > 0 then 'U' else 'D'] + [if pos.z > 0 then 'F' else 'B']
  }

  /** Different corners get different codes. */
  lemma PositionCodeInjective(p: Coord, q: Coord)
    requires IsCornerPos(p) && IsCornerPos(q) && p != q
    ensures PositionCode(p) != PositionCode(q)
  {
    if p.x != q.x {
      assert PositionCode(p)[0] != PositionCode(q)[0];
    } else if p.y != q.y {
      assert PositionCode(p)[1] != PositionCode(q)[1];
    } else {
      assert PositionCode(p)[2] != PositionCode(q)[2];
    }
  }

  /** Example: the codes of two opposite corners. */
  lemma PositionCodeExample()
    ensures PositionCode(Coord(1, 1, 1)) == "RUF"
    ensures PositionCode(Coord(-1, -1, -1)) == "LDB"
  {
  }

  // ---------------------------------------------------------------------------
  // Creation tables

  /** The corner dictionary's keys, in creation order. */
  const CornerPositions: seq<Coord> := [
    Coord(1, 1, 1), Coord(1, 1, -1), Coord(1, -1, 1), Coord(1, -1, -1),
    Coord(-1, 1, 1), Coord(-1, 1, -1), Coord(-1, -1, 1), Coord(-1, -1, -1)]

  const EdgePositions: seq<Coord> := [
    Coord(1, 1, 0), Coord(1, -1, 0), Coord(1, 0, 1), Coord(1, 0, -1),
    Coord(-1, 1, 0), Coord(-1, -1, 0), Coord(-1, 0, 1), Coord(-1, 0, -1),
    Coord(0, 1, 1), Coord(0, 1, -1), Coord(0, -1, 1), Coord(0, -1, -1)]

  const CenterPositions: seq<Coord> := [
    Coord(1, 0, 0), Coord(-1, 0, 0), Coord(0, 1, 0), Coord(0, -1, 0), Coord(0, 0, 1), Coord(0, 0, -1)]

  /** All pieces in the order the face selection visits them: corners, edges, centres. */
  function AllPositions(): (r: seq<Coord>)
    ensures |r| == 26
  {
    CornerPositions + EdgePositions + CenterPositions
  }

  /** Creation puts one piece on each of the 26 cells, and each table holds its own kind. */
  lemma {:induction false} CreationFillsCells()
    ensures IsArrangement(AllPositions())
    ensures forall i :: 0 <= i < 8 ==> Classify(AllPositions()[i]) == Corner && IsCornerPos(AllPositions()[i])
    ensures forall i :: 8 <= i < 20 ==> Classify(AllPositions()[i]) == Edge
    ensures forall i :: 20 <= i < 26 ==> Classify(AllPositions()[i]) == Center
  {
    var s := AllPositions();
    AllPositionsKinds();
    AllPositionsSlots();
    forall i, j | 0 <= i < j < 26 ensures s[i] != s[j] {
      assert CellSlots[CellKey(s[i])] != CellSlots[CellKey(s[j])];
    }
    forall c | IsCell(c) ensures c in s {
      CellSlotsInverse(CellKey(c));
      CellKeyInjective(c, s[CellSlots[CellKey(c)]]);
    }
  }

  lemma AllPositionsKinds()
    ensures forall i :: 0 <= i < 26 ==> IsCell(AllPositions()[i])
    ensures forall i :: 0 <= i < 8 ==> Classify(AllPositions()[i]) == Corner && IsCornerPos(AllPositions()[i])
    ensures forall i :: 8 <= i < 20 ==> Classify(AllPositions()[i]) == Edge
    ensures forall i :: 20 <= i < 26 ==> Classify(AllPositions()[i]) == Center
  {
  }

  lemma AllPositionsSlots()
    ensures forall i :: 0 <= i < 26 ==> 0 <= CellKey(AllPositions()[i]) < 27 && CellSlots[CellKey(AllPositions()[i])] == i
  {
  }

  lemma CellSlotsInverse(k: int)
    requires 0 <= k < 27 && k != 13
    ensures 0 <= CellSlots[k] < 26 && CellKey(AllPositions()[CellSlots[k]]) == k
  {
  }

  /** Numbers the 27 lattice points 0..26 (the origin gets 13). */
  function CellKey(c: Coord): int
  {
    (c.x + 1) * 9 + (c.y + 1) * 3 + (c.z + 1)
  }

  lemma CellKeyInjective(c: Coord, d: Coord)
    requires InLattice(c) && InLattice(d) && CellKey(c) == CellKey(d)
    ensures c == d
  {
  }

  /** For each key, the index in AllPositions() of the cell with that key. */
  const CellSlots: seq<int> := [7, 13, 6, 15, 21, 14, 5, 12, 4, 19, 23, 18, 25, -1, 24, 17, 22, 16, 3, 9, 2, 11, 20, 10, 1, 8, 0]

  /** get_corner: the corner dictionary lookup, by creation position.  The
      keys are exactly the eight corners, each at its own index. */
  function CornerIndex(pos: Coord): (r: Option<nat>)
    ensures r.Some? <==> IsCornerPos(pos)
    ensures r.Some? ==> r.value < 8 && CornerPositions[r.value] == pos
    ensures forall i :: 0 <= i < 8 ==> (CornerPositions[i] == pos <==> r == Some(i))
  {
    if IsCornerPos(pos) then
      Some((if pos.x > 0 then 0 else 4) + (if pos.y > 0 then 0 else 2) + (if pos.z > 0 then 0 else 1))
    else None
  }

  /** The dictionary's keys are the eight corner positions. */
  lemma CornerKeys(pos: Coord)
    ensures pos in CornerPositions <==> IsCornerPos(pos)
  {
    if IsCornerPos(pos) {
      assert CornerPositions[CornerIndex(pos).value] == pos;
    }
  }

  // ---------------------------------------------------------------------------
  // Faces

  /** The faces table: a signed axis per face; L, D and B use the negative axis.
      A face that is not in the table is a KeyError. */
  function FaceAxis(face: string): (r: Option<Coord>)
    ensures r.Some? ==> IsCell(r.value) && ZeroCount(r.value) == 2
  {
    if face == "R" then Some(Coord(1, 0, 0))
    else if face == "L" then Some(Coord(-1, 0, 0))
    else if face == "U" then Some(Coord(0, 1, 0))
    else if face == "D" then Some(Coord(0, -1, 0))
    else if face == "F" then Some(Coord(0, 0, 1))
    else if face == "B" then Some(Coord(0, 0, -1))
    else None
  }

  /** The face's `layer` lambda. */
  predicate LayerTest(face: string, g: Coord)
  {
    if face == "R" then g.x == 1
    else if face == "L" then g.x == -1
    else if face == "U" then g.y == 1
    else if face == "D" then g.y == -1
    else if face == "F" then g.z == 1
    else if face == "B" then g.z == -1
    else false
  }

  /** _get_face_cubelets' choice of coordinate: the first axis component
      whose absolute value exceeds 0.5. */
  function CoordIndex(axis: Coord): Axis
  {
    if IntAbs(axis.x) > 0 then X else if IntAbs(axis.y) > 0 then Y else Z
  }

  /** The signed layer value the face's coordinate must have. */
  function LayerValue(axis: Coord): int
  {
    Component(axis, CoordIndex(axis))
  }

  /** The layer lambda of each face agrees with the coordinate index and
      target that _get_face_cubelets derives from its axis. */
  lemma LayerMatchesAxis(face: string, g: Coord)
    requires FaceAxis(face).Some?
    ensures LayerTest(face, g) <==> Component(g, CoordIndex(FaceAxis(face).value)) == LayerValue(FaceAxis(face).value)
  {
  }

  function VecComponent(v: Vec3, a: Axis): real
  {
    match a
    case X => v.x
    case Y => v.y
    case Z => v.z
  }

  /** A piece is on the face when its global coordinate is within 0.1 of axis * SPACING. */
  predicate OnFace(root: Placement, part: Placement, axis: Coord)
  {
    Abs(VecComponent(Apply(root, part.base), CoordIndex(axis)) - LayerValue(axis) as real * SPACING) < 0.1
  }

  /** _get_face_cubelets: every piece (corners, edges, centres) whose current
      world position lies on the face plane. */
  function FaceSelection(root: Placement, parts: seq<Placement>, axis: Coord): (r: seq<nat>)
    ensures forall i: nat :: i in r <==> i < |parts| && OnFace(root, parts[i], axis)
    ensures Increasing(r)
  {
    Select(parts, (p: Placement) => OnFace(root, p, axis))
  }

  /** With the cube at the origin and every piece sitting at grid * SPACING,
      the world-position test picks exactly the pieces of the face's layer. */
  lemma {:induction false} FaceSelectionIsLayer(face: string, parts: seq<Placement>, gs: seq<Coord>, i: nat)
    requires FaceAxis(face).Some? && |gs| == |parts| && i < |parts|
    requires parts[i].base == WorldOf(gs[i])
    ensures i in FaceSelection(IdentityPlacement, parts, FaceAxis(face).value) <==> LayerTest(face, gs[i])
  {
    var axis := FaceAxis(face).value;
    MatVecIdentity(parts[i].base);
    assert Apply(IdentityPlacement, parts[i].base) == WorldOf(gs[i]);
    var a := CoordIndex(axis);
    var diff := (Component(gs[i], a) - LayerValue(axis)) as real;
    assert VecComponent(WorldOf(gs[i]), a) - LayerValue(axis) as real * SPACING == diff * SPACING;
    LayerMatchesAxis(face, gs[i]);
  }

  /** App.Rotation(axis, +-90) about the signed axis: a turn about a negative
      axis is the opposite turn about the positive one. */
  function SignedTurnMatrix(axis: Coord, clockwise: bool): Mat3
  {
    TurnMatrix(CoordIndex(axis), if LayerValue(axis) > 0 then clockwise else !clockwise)
  }

  /** The pivot of a face turn: rotate about the face centre axis * SPACING. */
  function FacePivot(axis: Coord, clockwise: bool): (p: Placement)
    ensures Apply(p, Scale(ToVec(axis), SPACING)) == Scale(ToVec(axis), SPACING)
  {
    Pivot(SignedTurnMatrix(axis, clockwise), Scale(ToVec(axis), SPACING))
  }

  /** The face centre lies on the turning axis, so the pivot is the quarter
      turn about the origin itself. */
  lemma {:induction false} FacePivotAtOrigin(face: string, clockwise: bool)
    requires FaceAxis(face).Some?
    ensures FacePivot(FaceAxis(face).value, clockwise) == Placement(SignedTurnMatrix(FaceAxis(face).value, clockwise), Zero)
  {
    TurnFixesFaceCentre(FaceAxis(face).value, clockwise);
  }

  /** The quarter turn about a face axis fixes that face's centre. */
  lemma TurnFixesFaceCentre(axis: Coord, clockwise: bool)
    requires IsCell(axis) && ZeroCount(axis) == 2
    ensures MatVec(SignedTurnMatrix(axis, clockwise), Scale(ToVec(axis), SPACING)) == Scale(ToVec(axis), SPACING)
  {
    var positive := if LayerValue(axis) > 0 then clockwise else !clockwise;
    TurnMatrixOnGrid(CoordIndex(axis), positive, axis);
    assert Turn(CoordIndex(axis), positive, axis) == axis;
  }

  /** The intended write-back of a cubelet from the pivot to the cube: its
      new local placement is the pivot's placement composed with its old
      one, which keeps its world placement. */
  function WriteBack(pivot: Placement, local: Placement): Placement
  {
    Compose(pivot, local)
  }

  /** What rotate_face and rotate_face_with_leg_extensions actually store:
      the cubelet's global placement (cube * pivot * local) written as its
      new local placement, so the cube's own placement is applied twice. */
  function WriteBackAsWritten(root: Placement, pivot: Placement, local: Placement): Placement
  {
    Compose(root, Compose(pivot, local))
  }

  /** While the cube sits at the origin the stored placement is the right one. */
  lemma WriteBackAsWrittenAtOrigin(pivot: Placement, local: Placement)
    ensures WriteBackAsWritten(IdentityPlacement, pivot, local) == WriteBack(pivot, local)
  {
    ComposeIdentity(Compose(pivot, local));
  }

  /** The corrected write-back keeps every point of the piece where the
      pivot put it in the world. */
  lemma {:induction false} WriteBackKeepsWorld(root: Placement, pivot: Placement, local: Placement, v: Vec3)
    ensures Apply(Compose(root, WriteBack(pivot, local)), v) == Apply(root, Apply(pivot, Apply(local, v)))
  {
    ComposeApply(root, WriteBack(pivot, local), v);
    ComposeApply(pivot, local, v);
  }

  /** For a cube that has been moved without being rotated, the stored
      placement puts every turned piece off by the cube's own offset: it
      lands where it belongs exactly when the cube is at the origin.  For
      example, with the cube at (0, 10, 0) a clockwise R turn leaves the edge
      piece that belongs at world (25, 10, 25) at (25, 20, 25). */
  lemma {:induction false} WriteBackAsWrittenDisplaces(root: Placement, pivot: Placement, local: Placement)
    requires root.rot == Identity
    ensures Compose(root, WriteBackAsWritten(root, pivot, local)).base == Add(root.base, Compose(root, WriteBack(pivot, local)).base)
    ensures Compose(root, WriteBackAsWritten(root, pivot, local)).base == Compose(root, WriteBack(pivot, local)).base
            <==> root.base == Zero
  {
    var w := WriteBack(pivot, local);
    TranslatedBase(root, w);
    TranslatedBase(root, Compose(root, w));
  }

  lemma TranslatedBase(root: Placement, p: Placement)
    requires root.rot == Identity
    ensures Compose(root, p).base == Add(root.base, p.base)
  {
    MatVecIdentity(p.base);
  }

  /** Turning a face one way and then the other puts every piece back. */
  lemma {:induction false} WriteBackUndone(face: string, clockwise: bool, p: Placement)
    requires FaceAxis(face).Some?
    ensures var axis := FaceAxis(face).value;
            WriteBack(FacePivot(axis, !clockwise), WriteBack(FacePivot(axis, clockwise), p)) == p
  {
    var axis := FaceAxis(face).value;
    var a := CoordIndex(axis);
    var dir := LayerValue(axis) > 0 <==> clockwise;
    FacePivotAtOrigin(face, clockwise);
    FacePivotAtOrigin(face, !clockwise);
    assert SignedTurnMatrix(axis, clockwise) == TurnMatrix(a, dir);
    assert SignedTurnMatrix(axis, !clockwise) == TurnMatrix(a, !dir);
    PivotAtOrigin(a, dir);
    PivotAtOrigin(a, !dir);
    QuarterTurnPlacementIsPivot(a, dir, p);
    QuarterTurnPlacementIsPivot(a, !dir, QuarterTurnPlacement(a, dir, p));
    QuarterTurnPlacementInverse(a, dir, p);
  }

  /** The placements after a face turn of the cube placed at `root`: each
      selected piece gets the global placement it had in the pivot, as
      rotate_face stores it; every other piece keeps its placement. */
  function TurnParts(root: Placement, parts: seq<Placement>, selected: seq<nat>, pivot: Placement): (r: seq<Placement>)
    ensures |r| == |parts|
    ensures forall i :: 0 <= i < |parts| ==>
      r[i] == if i in selected then WriteBackAsWritten(root, pivot, parts[i]) else parts[i]
  {
    seq(|parts|, i requires 0 <= i < |parts| => if i in selected then WriteBackAsWritten(root, pivot, parts[i]) else parts[i])
  }

  /** A face turn of a cube at the origin moves each piece's position as the
      integer face turn moves its grid coordinate; other pieces stay. */
  lemma {:induction false} TurnPartsOnGrid(face: string, clockwise: bool, parts: seq<Placement>, gs: seq<Coord>, i: nat)
    requires FaceAxis(face).Some? && |gs| == |parts| && i < |parts|
    requires parts[i].base == WorldOf(gs[i])
    ensures var axis := FaceAxis(face).value;
            var r := TurnParts(IdentityPlacement, parts, FaceSelection(IdentityPlacement, parts, axis), FacePivot(axis, clockwise));
            r[i].base == WorldOf(FaceTurn(CoordIndex(axis), LayerValue(axis), LayerValue(axis) > 0 <==> clockwise, gs[i]))
  {
    var axis := FaceAxis(face).value;
    FaceSelectionIsLayer(face, parts, gs, i);
    LayerMatchesAxis(face, gs[i]);
    if LayerTest(face, gs[i]) {
      WriteBackAsWrittenAtOrigin(FacePivot(axis, clockwise), parts[i]);
      WriteBackOnGrid(face, clockwise, parts[i], gs[i]);
    }
  }

  /** A piece at grid * SPACING written back from a face pivot lands on the
      world position of its turned grid coordinate. */
  lemma {:induction false} WriteBackOnGrid(face: string, clockwise: bool, p: Placement, g: Coord)
    requires FaceAxis(face).Some? && p.base == WorldOf(g)
    ensures var axis := FaceAxis(face).value;
            WriteBack(FacePivot(axis, clockwise), p).base == WorldOf(Turn(CoordIndex(axis), LayerValue(axis) > 0 <==> clockwise, g))
  {
    var axis := FaceAxis(face).value;
    var a := CoordIndex(axis);
    var dir := LayerValue(axis) > 0 <==> clockwise;
    FacePivotAtOrigin(face, clockwise);
    assert SignedTurnMatrix(axis, clockwise) == TurnMatrix(a, dir);
    TurnMatrixOnGrid(a, dir, g);
    assert WriteBack(FacePivot(axis, clockwise), p).base == Add(Zero, MatVec(TurnMatrix(a, dir), WorldOf(g)));
  }

  // ---------------------------------------------------------------------------
  // Leg interpolation

  /** The value set at step k of an animation of `steps` steps:
      start + (target - start) / steps * (k + 1). */
  function Interpolate(start: real, target: real, steps: int, k: int): real
    requires steps != 0
  {
    start + StepDelta(start, target, steps) * (k + 1) as real
  }

  /** The per-step change: (target - start) / steps. */
  function StepDelta(start: real, target: real, steps: int): real
    requires steps != 0
  {
    (target - start) / steps as real
  }

  /** The last animation step lands exactly on the target. */
  lemma {:induction false} InterpolateEndsAtTarget(start: real, target: real, steps: int)
    requires steps > 0
    ensures Interpolate(start, target, steps, steps - 1) == target
  {
    assert (target - start) / steps as real * steps as real == target - start;
  }

  /** Every step lies between the start and the target. */
  lemma {:induction false} InterpolateBetween(start: real, target: real, steps: int, k: int)
    requires 0 <= k < steps
    ensures Min(start, target) <= Interpolate(start, target, steps, k) <= Max(start, target)
  {
    var f := (k + 1) as real / steps as real;
    assert 0.0 < f <= 1.0;
    assert Interpolate(start, target, steps, k) == start + (target - start) * f;
    if start <= target {
      assert 0.0 <= (target - start) * f <= target - start;
    } else {
      assert target - start <= (target - start) * f <= 0.0;
    }
  }

  /** The extensions animate_leg_extension leaves on the leg after each of
      its first `n` steps. */
  function LegFrames(start: real, target: real, steps: int, n: nat): (r: seq<real>)
    requires steps != 0
    ensures |r| == n
  {
    if n == 0 then [] else LegFrames(start, target, steps, n - 1) + [Clamp(Interpolate(start, target, steps, n - 1))]
  }

  /** Frame k of the animation is the clamped interpolation at step k,
      however many frames are taken. */
  lemma {:induction false} LegFramesAt(start: real, target: real, steps: int, n: nat, k: nat)
    requires steps != 0 && k < n
    ensures LegFrames(start, target, steps, n)[k] == Clamp(Interpolate(start, target, steps, k))
  {
    if k < n - 1 {
      LegFramesAt(start, target, steps, n - 1, k);
    }
  }

  lemma LegFramesNext(start: real, target: real, steps: int, n: nat)
    requires steps != 0
    ensures LegFrames(start, target, steps, n + 1) == LegFrames(start, target, steps, n) + [Clamp(Interpolate(start, target, steps, n))]
  {
  }

  /** Every frame is a legal extension between the clamped start and the
      clamped target, and the last frame of a full animation is the clamped
      target itself. */
  lemma {:induction false} LegFramesBetween(start: real, target: real, steps: int, n: nat)
    requires 0 < steps && n <= steps
    ensures forall k :: 0 <= k < n ==>
      0.0 <= LegFrames(start, target, steps, n)[k] <= MAX_EXTENSION &&
      Min(Clamp(start), Clamp(target)) <= LegFrames(start, target, steps, n)[k] <= Max(Clamp(start), Clamp(target))
    ensures n == steps ==> LegFrames(start, target, steps, n)[n - 1] == Clamp(target)
  {
    if n > 0 {
      LegFramesBetween(start, target, steps, n - 1);
      var v := Interpolate(start, target, steps, n - 1);
      InterpolateBetween(start, target, steps, n - 1);
      ClampMonotone(Min(start, target), v);
      ClampMonotone(v, Max(start, target));
      if n == steps {
        InterpolateEndsAtTarget(start, target, steps);
      }
    }
  }

  /** One planned leg animation of rotate_face_with_leg_extensions. */
  datatype LegAnim = LegAnim(corner: nat, start: real, target: real, delta: real)
  {
    /** The extension set at step `step`: start + delta * (step + 1). */
    function ValueAt(step: int): real
    {
      start + delta * (step + 1) as real
    }
  }

  /** The target of the last entry for corner `c`, which is the value the
      final pass leaves on that leg. */
  function LastTarget(anims: seq<LegAnim>, c: nat): (r: Option<real>)
    ensures r.None? <==> forall j :: 0 <= j < |anims| ==> anims[j].corner != c
  {
    if |anims| == 0 then None
    else if anims[|anims| - 1].corner == c then Some(anims[|anims| - 1].target)
    else LastTarget(anims[..|anims| - 1], c)
  }

  /** No entry after index j names corner c. */
  predicate NoLaterEntry(anims: seq<LegAnim>, c: nat, j: nat)
  {
    forall j' :: j < j' < |anims| ==> anims[j'].corner != c
  }

  /** "Last wins": the result is the target of an entry for `c` after which
      no entry names `c`. */
  lemma {:induction false} LastTargetIsLast(anims: seq<LegAnim>, c: nat)
    requires LastTarget(anims, c).Some?
    ensures exists j :: 0 <= j < |anims| && anims[j].corner == c && anims[j].target == LastTarget(anims, c).value &&
                        NoLaterEntry(anims, c, j)
  {
    var n := |anims|;
    if anims[n - 1].corner == c {
      assert anims[n - 1].target == LastTarget(anims, c).value && NoLaterEntry(anims, c, n - 1);
    } else {
      var init := anims[..n - 1];
      assert LastTarget(anims, c) == LastTarget(init, c);
      LastTargetIsLast(init, c);
      var j :| 0 <= j < |init| && init[j].corner == c && init[j].target == LastTarget(init, c).value &&
               NoLaterEntry(init, c, j);
      assert anims[j] == init[j];
      forall j' | j < j' < n ensures anims[j'].corner != c {
        if j' < n - 1 {
          assert anims[j'] == init[j'];
        }
      }
      assert NoLaterEntry(anims, c, j);
    }
  }

  /** Planning one more entry keeps "last wins" in step with the list. */
  lemma {:induction false} PlanStepKeepsLast(anims: seq<LegAnim>, entries: seq<(Coord, real)>, e: (Coord, real), next: seq<LegAnim>, i: nat)
    requires i < 8 && LastTarget(anims, i) == LastTargetFor(entries, CornerPositions[i])
    requires CornerIndex(e.0).None? ==> next == anims
    requires CornerIndex(e.0).Some? ==>
      |next| == |anims| + 1 && next == anims + [next[|anims|]] &&
      next[|anims|].corner == CornerIndex(e.0).value && next[|anims|].target == e.1
    ensures LastTarget(next, i) == LastTargetFor(entries + [e], CornerPositions[i])
  {
    LastTargetForAppend(entries, e, CornerPositions[i]);
    if CornerIndex(e.0).Some? {
      LastTargetAppend(anims, next[|anims|], i);
    }
  }

  lemma LastTargetForAppend(entries: seq<(Coord, real)>, e: (Coord, real), pos: Coord)
    ensures LastTargetFor(entries + [e], pos) == if e.0 == pos then Some(e.1) else LastTargetFor(entries, pos)
  {
    assert (entries + [e])[..|entries|] == entries;
  }

  lemma LastTargetAppend(anims: seq<LegAnim>, a: LegAnim, c: nat)
    ensures LastTarget(anims + [a], c) == if a.corner == c then Some(a.target) else LastTarget(anims, c)
  {
    assert (anims + [a])[..|anims|] == anims;
  }

  /** The last entry for corner `c`: during the steps of a turn its start
      and delta decide the leg's extension, as its target does at the end. */
  function LastAnim(anims: seq<LegAnim>, c: nat): (r: Option<LegAnim>)
    ensures r.None? <==> LastTarget(anims, c).None?
    ensures r.Some? ==> r.value.corner == c && r.value in anims && LastTarget(anims, c) == Some(r.value.target)
  {
    if |anims| == 0 then None
    else if anims[|anims| - 1].corner == c then Some(anims[|anims| - 1])
    else LastAnim(anims[..|anims| - 1], c)
  }

  lemma LastAnimAppend(anims: seq<LegAnim>, a: LegAnim, c: nat)
    ensures LastAnim(anims + [a], c) == if a.corner == c then Some(a) else LastAnim(anims, c)
  {
    assert (anims + [a])[..|anims|] == anims;
  }

  /** The eight extensions shown after step `s` of a turn with legs that
      began with the legs at `start`: a leg no entry names keeps its start,
      a listed leg is at the clamped interpolation towards its last listed
      target. */
  function TurnFrame(legExtensions: seq<(Coord, real)>, start: seq<real>, steps: int, s: int): (r: seq<real>)
    requires |start| == 8 && steps != 0
    ensures |r| == 8
  {
    seq(8, i requires 0 <= i < 8 =>
      match LastTargetFor(legExtensions, CornerPositions[i])
      case None => start[i]
      case Some(t) => Clamp(Interpolate(start[i], t, steps, s)))
  }

  /** The frames of the first `n` steps of a turn with legs. */
  function TurnFrames(legExtensions: seq<(Coord, real)>, start: seq<real>, steps: int, n: nat): (r: seq<seq<real>>)
    requires |start| == 8 && steps != 0
    ensures |r| == n && forall s :: 0 <= s < n ==> |r[s]| == 8
  {
    if n == 0 then [] else TurnFrames(legExtensions, start, steps, n - 1) + [TurnFrame(legExtensions, start, steps, n - 1)]
  }

  /** Every leg of a turn with legs follows animate_leg_extension's frames
      towards its last listed target, and a leg no entry names stays put. */
  lemma {:induction false} TurnFramesFollowLegFrames(legExtensions: seq<(Coord, real)>, start: seq<real>, steps: int, n: nat, i: nat)
    requires |start| == 8 && steps != 0 && i < 8
    ensures forall s :: 0 <= s < n ==>
      TurnFrames(legExtensions, start, steps, n)[s][i] ==
        match LastTargetFor(legExtensions, CornerPositions[i])
        case None => start[i]
        case Some(t) => LegFrames(start[i], t, steps, n)[s]
  {
    if n > 0 {
      TurnFramesFollowLegFrames(legExtensions, start, steps, n - 1, i);
      var frames := TurnFrames(legExtensions, start, steps, n);
      assert frames == TurnFrames(legExtensions, start, steps, n - 1) + [TurnFrame(legExtensions, start, steps, n - 1)];
      forall s | 0 <= s < n
        ensures frames[s][i] ==
          match LastTargetFor(legExtensions, CornerPositions[i])
          case None => start[i]
          case Some(t) => LegFrames(start[i], t, steps, n)[s]
      {
        match LastTargetFor(legExtensions, CornerPositions[i])
        case None =>
        case Some(t) =>
          LegFramesAt(start[i], t, steps, n, s);
          if s < n - 1 {
            LegFramesAt(start[i], t, steps, n - 1, s);
          }
      }
    }
  }

  /** A step of the planned animations leaves leg `i` where a turn that
      began with the leg at `start` puts it: the last entry for the corner
      started from the leg's extension and steps by (target - start) / steps. */
  lemma StepMatchesTurn(anims: seq<LegAnim>, i: nat, target: Option<real>, start: real, steps: int, step: int)
    requires steps != 0
    requires LastTarget(anims, i) == target
    requires forall t :: 0 <= t < |anims| && anims[t].corner == i ==>
      anims[t].start == start && anims[t].delta == StepDelta(anims[t].start, anims[t].target, steps)
    ensures (match LastAnim(anims, i)
             case None => start
             case Some(a) => Clamp(a.ValueAt(step))) ==
            (match target
             case None => start
             case Some(t) => Clamp(Interpolate(start, t, steps, step)))
  {
    match LastAnim(anims, i)
    case None =>
    case Some(a) =>
      var t :| 0 <= t < |anims| && anims[t] == a;
      assert a.start == start && a.delta == StepDelta(start, a.target, steps);
      assert a.ValueAt(step) == Interpolate(start, a.target, steps, step);
  }

  // ---------------------------------------------------------------------------
  // The cube

  class RubiksCube {
    /** corner_cubelets' legs, aligned with CornerPositions (never re-keyed). */
    const legs: seq<TelescopingLeg>
    /** GridX/Y/Z as set at creation, aligned with AllPositions(); turns never update them. */
    const grids: seq<Coord>
    /** The local placements of the 26 cubelet parts: corners, edges, centres. */
    const parts: array<Placement>
    /** model_obj.Placement, the placement of the whole cube. */
    var root: Placement

    ghost predicate Valid()
      reads this, legs
    {
      |legs| == 8 && grids == AllPositions() && parts.Length == 26 &&
      (forall i :: 0 <= i < 8 ==> legs[i].Valid() && legs[i].cornerPosition == CornerPositions[i]) &&
      (forall i, j :: 0 <= i < j < 8 ==> legs[i] != legs[j])
    }

    /** __init__ followed by create_geometry: every part at grid * SPACING,
        the cube at the origin, a leg with its rod on every corner. */
    constructor (k: real)
      requires IsInvSqrt3(k)
      ensures Valid() && fresh(parts)
      ensures root == IdentityPlacement
      ensures forall i :: 0 <= i < 26 ==> parts[i] == Placement(Identity, WorldOf(grids[i]))
      ensures forall i :: 0 <= i < 8 ==>
        fresh(legs[i]) && legs[i].extension == 0.0 && legs[i].targetExtension == 0.0 &&
        legs[i].diagonal == CornerDiagonal(CornerPositions[i], k) && legs[i].innerRodBase == Some(legs[i].rodStartLocal)
    {
      var made: seq<TelescopingLeg> := [];
      for i := 0 to 8
        invariant |made| == i
        invariant forall j :: 0 <= j < i ==>
          fresh(made[j]) && made[j].Valid() && made[j].cornerPosition == CornerPositions[j] &&
          made[j].extension == 0.0 && made[j].targetExtension == 0.0 &&
          made[j].diagonal == CornerDiagonal(CornerPositions[j], k) && made[j].innerRodBase == Some(made[j].rodStartLocal)
        invariant forall j, j' :: 0 <= j < j' < i ==> made[j] != made[j']
      {
        var pos := CornerPositions[i];
        CornerDiagonalIsUnit(pos, k);
        var leg := new TelescopingLeg(pos, CornerDiagonal(pos, k));
        leg.CreateInnerRod();
        made := made + [leg];
      }
      legs := made;
      var all := AllPositions();
      grids := all;
      parts := new Placement[26](i requires 0 <= i < 26 => Placement(Identity, WorldOf(all[i])));
      root := IdentityPlacement;
    }

    /** get_corner. */
    function GetCorner(pos: Coord): (r: Option<TelescopingLeg>)
      requires Valid()
      reads this, legs
      ensures r.Some? <==> IsCornerPos(pos)
      ensures r.Some? ==> r.value.cornerPosition == pos
    {
      match CornerIndex(pos)
      case None => None
      case Some(i) => Some(legs[i])
    }

    /** get_leg_tip_position: the world tip of the corner's leg, or None. */
    function GetLegTipPosition(pos: Coord): (r: Option<Vec3>)
      requires Valid()
      reads this, legs, parts
      ensures r.Some? <==> IsCornerPos(pos)
      ensures r.Some? ==> r.value == legs[CornerIndex(pos).value].TipPositionWorld(Compose(root, parts[CornerIndex(pos).value]))
    {
      match CornerIndex(pos)
      case None => None
      case Some(i) => Some(legs[i].TipPositionWorld(Compose(root, parts[i])))
    }

    /** set_leg_extension: set_extension on the corner's leg; nothing for an unknown corner. */
    method SetLegExtension(pos: Coord, extensionMm: real)
      requires Valid()
      modifies legs
      ensures Valid()
      ensures forall i :: 0 <= i < 8 ==> legs[i].extension == if CornerPositions[i] == pos then Clamp(extensionMm) else old(legs[i].extension)
      ensures forall i :: 0 <= i < 8 ==> legs[i].targetExtension == old(legs[i].targetExtension)
    {
      var corner := CornerIndex(pos);
      if corner.Some? {
        legs[corner.value].SetExtension(extensionMm);
      }
    }

    /** The selection of a face on the current placements, or KeyError. */
    function CurrentFaceSelection(face: string): (r: Result<seq<nat>>)
      reads this, parts
      ensures r.Err? <==> FaceAxis(face).None?
      ensures r.Err? ==> r.error == KeyError
      ensures r.Ok? ==> r.value == FaceSelection(root, parts[..], FaceAxis(face).value)
    {
      match FaceAxis(face)
      case None => Err(KeyError)
      case Some(axis) => Ok(FaceSelection(root, parts[..], axis))
    }

    /** rotate_face(face, clockwise, steps): an unknown face is a KeyError;
        an empty selection returns; a zero step count raises
        ZeroDivisionError before anything moves; otherwise each selected
        piece takes as its new local placement the global placement it had
        in the pivot (root * pivot * local).  For a cube at the origin that
        is the exact +-90 degree turn about the face axis through the face
        centre (TurnPartsOnGrid).  Grid properties and corner keys are not
        touched. */
    method RotateFace(face: string, clockwise: bool, steps: int) returns (err: Option<PyError>)
      requires Valid()
      modifies parts
      ensures Valid()
      ensures FaceAxis(face).None? ==> err == Some(KeyError)
      ensures FaceAxis(face).Some? && steps != 0 ==> err.None?
      ensures FaceAxis(face).Some? && |FaceSelection(root, old(parts[..]), FaceAxis(face).value)| > 0 && steps == 0 ==>
        err == Some(ZeroDivisionError)
      ensures err.Some? || (FaceAxis(face).Some? && |FaceSelection(root, old(parts[..]), FaceAxis(face).value)| == 0) ==>
        parts[..] == old(parts[..])
      ensures err.None? ==>
        FaceAxis(face).Some? &&
        parts[..] == TurnParts(root, old(parts[..]), FaceSelection(root, old(parts[..]), FaceAxis(face).value),
                               FacePivot(FaceAxis(face).value, clockwise))
    {
      var axis := FaceAxis(face);
      if axis.None? {
        return Some(KeyError);
      }
      var selected := FaceSelection(root, parts[..], axis.value);
      if |selected| == 0 {
        assert TurnParts(root, parts[..], selected, FacePivot(axis.value, clockwise)) == parts[..];
        return None;
      }
      if steps == 0 {
        return Some(ZeroDivisionError);
      }
      assert forall j :: 0 <= j < |selected| ==> selected[j] in selected;
      WriteBackSelected(selected, FacePivot(axis.value, clockwise));
      err := None;
    }

    /** Moves the selected pieces out of the pivot, in selection order. */
    method WriteBackSelected(selected: seq<nat>, pivot: Placement)
      requires Valid() && Increasing(selected)
      requires forall j :: 0 <= j < |selected| ==> selected[j] < 26
      modifies parts
      ensures Valid()
      ensures parts[..] == TurnParts(root, old(parts[..]), selected, pivot)
    {
      for j := 0 to |selected|
        invariant forall i :: 0 <= i < parts.Length ==>
          parts[i] == if i in selected[..j] then WriteBackAsWritten(root, pivot, old(parts[i])) else old(parts[i])
      {
        var i := selected[j];
        assert selected[..j + 1] == selected[..j] + [i];
        assert i !in selected[..j];
        parts[i] := WriteBackAsWritten(root, pivot, parts[i]);
      }
      assert selected[..|selected|] == selected;
    }

    /** animate_leg_extension(corner, target, steps): nothing for an unknown
        corner; ZeroDivisionError for zero steps; otherwise each step sets
        start + (target - start) * (k + 1) / steps and the final set puts the
        clamped target.  `frames` lists the extension shown after each step. */
    method AnimateLegExtension(pos: Coord, targetExtension: real, steps: int) returns (err: Option<PyError>, frames: seq<real>)
      requires Valid()
      modifies legs
      ensures Valid()
      ensures !IsCornerPos(pos) ==> err == None && frames == []
      ensures err.Some? <==> IsCornerPos(pos) && steps == 0
      ensures err.Some? ==> err == Some(ZeroDivisionError)
      ensures err.Some? || !IsCornerPos(pos) ==>
        forall i :: 0 <= i < 8 ==> legs[i].extension == old(legs[i].extension)
      ensures err.None? && IsCornerPos(pos) ==>
        var c := CornerIndex(pos).value;
        frames == LegFrames(old(legs[c].extension), targetExtension, steps, if steps > 0 then steps else 0) &&
        (forall i :: 0 <= i < 8 ==> legs[i].extension == if i == c then Clamp(targetExtension) else old(legs[i].extension))
      ensures forall i :: 0 <= i < 8 ==> legs[i].targetExtension == old(legs[i].targetExtension)
    {
      frames := [];
      var corner := CornerIndex(pos);
      if corner.None? {
        return None, frames;
      }
      if steps == 0 {
        return Some(ZeroDivisionError), frames;
      }
      var c := corner.value;
      var leg := legs[c];
      assert forall i :: 0 <= i < 8 && i != c ==> legs[i] != leg;
      frames := leg.AnimateTo(targetExtension, steps);
      err := None;
    }

    /** rotate_face_with_leg_extensions: like rotate_face without the early
        return for an empty selection; every listed corner that exists is
        animated towards its target over the steps and finally set to it, a
        later entry for the same corner overriding an earlier one.  `frames`
        lists the eight leg extensions shown after each step. */
    method RotateFaceWithLegExtensions(face: string, clockwise: bool, legExtensions: seq<(Coord, real)>, steps: int)
      returns (err: Option<PyError>, frames: seq<seq<real>>)
      requires Valid()
      modifies parts, legs
      ensures Valid()
      ensures FaceAxis(face).None? ==> err == Some(KeyError)
      ensures FaceAxis(face).Some? && steps != 0 ==> err.None?
      ensures FaceAxis(face).Some? && steps == 0 ==> err == Some(ZeroDivisionError)
      ensures err.Some? ==>
        frames == [] && parts[..] == old(parts[..]) && forall i :: 0 <= i < 8 ==> legs[i].extension == old(legs[i].extension)
      ensures err.None? ==>
        FaceAxis(face).Some? &&
        parts[..] == TurnParts(root, old(parts[..]), FaceSelection(root, old(parts[..]), FaceAxis(face).value),
                               FacePivot(FaceAxis(face).value, clockwise)) &&
        forall i :: 0 <= i < 8 ==>
          legs[i].extension == match LastTargetFor(legExtensions, CornerPositions[i])
                               case None => old(legs[i].extension)
                               case Some(t) => Clamp(t)
      ensures err.None? ==>
        steps != 0 && frames == TurnFrames(legExtensions, old(Extensions()), steps, if steps > 0 then steps else 0)
      ensures forall i :: 0 <= i < 8 ==> legs[i].targetExtension == old(legs[i].targetExtension)
    {
      frames := [];
      var axis := FaceAxis(face);
      if axis.None? {
        return Some(KeyError), frames;
      }
      var selected := FaceSelection(root, parts[..], axis.value);
      if steps == 0 {
        return Some(ZeroDivisionError), frames;
      }
      var anims := PlanLegAnims(legExtensions, steps);
      frames := AnimateLegSteps(anims, legExtensions, steps);
      FinishLegAnims(anims);
      assert forall j :: 0 <= j < |selected| ==> selected[j] in selected;
      WriteBackSelected(selected, FacePivot(axis.value, clockwise));
      err := None;
    }

    /** The animation loop of rotate_face_with_leg_extensions: after each
        step the eight leg extensions are recorded in `frames`. */
    method AnimateLegSteps(anims: seq<LegAnim>, legExtensions: seq<(Coord, real)>, steps: int) returns (frames: seq<seq<real>>)
      requires Valid() && steps != 0
      requires forall t :: 0 <= t < |anims| ==>
        anims[t].corner < 8 && anims[t].start == legs[anims[t].corner].extension &&
        anims[t].delta == StepDelta(anims[t].start, anims[t].target, steps)
      requires forall i :: 0 <= i < 8 ==> LastTarget(anims, i) == LastTargetFor(legExtensions, CornerPositions[i])
      modifies legs
      ensures Valid()
      ensures forall i :: 0 <= i < 8 && LastTarget(anims, i).None? ==> legs[i].extension == old(legs[i].extension)
      ensures forall i :: 0 <= i < 8 ==> legs[i].targetExtension == old(legs[i].targetExtension)
      ensures frames == TurnFrames(legExtensions, old(Extensions()), steps, if steps > 0 then steps else 0)
    {
      ghost var start := Extensions();
      frames := [];
      for step := 0 to (if steps > 0 then steps else 0)
        invariant Valid()
        invariant forall i :: 0 <= i < 8 && LastTarget(anims, i).None? ==> legs[i].extension == start[i]
        invariant forall i :: 0 <= i < 8 ==> legs[i].targetExtension == old(legs[i].targetExtension)
        invariant frames == TurnFrames(legExtensions, start, steps, step)
      {
        StepLegAnims(anims, step);
        var row := Extensions();
        forall i | 0 <= i < 8
          ensures row[i] == TurnFrame(legExtensions, start, steps, step)[i]
        {
          StepMatchesTurn(anims, i, LastTargetFor(legExtensions, CornerPositions[i]), start[i], steps, step);
        }
        assert row == TurnFrame(legExtensions, start, steps, step);
        frames := frames + [row];
      }
    }

    /** The eight leg extensions, in CornerPositions order. */
    function Extensions(): (r: seq<real>)
      reads legs
      ensures |r| == |legs| && forall i :: 0 <= i < |legs| ==> r[i] == legs[i].extension
    {
      seq(|legs|, i requires 0 <= i < |legs| reads legs => legs[i].extension)
    }

    /** The leg_anims list: one entry per listed corner that exists, in list
        order, starting from the leg's current extension. */
    method PlanLegAnims(legExtensions: seq<(Coord, real)>, steps: int) returns (anims: seq<LegAnim>)
      requires Valid() && steps != 0
      ensures forall t :: 0 <= t < |anims| ==>
        anims[t].corner < 8 && anims[t].start == legs[anims[t].corner].extension &&
        anims[t].delta == StepDelta(anims[t].start, anims[t].target, steps)
      ensures forall i :: 0 <= i < 8 ==> LastTarget(anims, i) == LastTargetFor(legExtensions, CornerPositions[i])
    {
      anims := [];
      for j := 0 to |legExtensions|
        invariant forall t :: 0 <= t < |anims| ==>
          anims[t].corner < 8 && anims[t].start == legs[anims[t].corner].extension &&
          anims[t].delta == StepDelta(anims[t].start, anims[t].target, steps)
        invariant forall i :: 0 <= i < 8 ==> LastTarget(anims, i) == LastTargetFor(legExtensions[..j], CornerPositions[i])
      {
        var (pos, target) := legExtensions[j];
        assert legExtensions[..j + 1] == legExtensions[..j] + [legExtensions[j]];
        var corner := CornerIndex(pos);
        ghost var before := anims;
        if corner.Some? {
          var c := corner.value;
          var start := legs[c].extension;
          anims := anims + [LegAnim(c, start, target, StepDelta(start, target, steps))];
        }
        forall i: nat | i < 8
          ensures LastTarget(anims, i) == LastTargetFor(legExtensions[..j + 1], CornerPositions[i])
        {
          PlanStepKeepsLast(before, legExtensions[..j], legExtensions[j], anims, i);
        }
      }
      assert legExtensions[..|legExtensions|] == legExtensions;
    }

    /** One animation step: each planned leg gets start + delta * (step + 1),
        in list order, so the last entry for a corner decides its value. */
    method StepLegAnims(anims: seq<LegAnim>, step: int)
      requires Valid()
      requires forall t :: 0 <= t < |anims| ==> anims[t].corner < 8
      modifies legs
      ensures Valid()
      ensures forall i :: 0 <= i < 8 ==>
        legs[i].extension == match LastAnim(anims, i)
                             case None => old(legs[i].extension)
                             case Some(a) => Clamp(a.ValueAt(step))
      ensures forall i :: 0 <= i < 8 ==> legs[i].targetExtension == old(legs[i].targetExtension)
    {
      for t := 0 to |anims|
        invariant Valid()
        invariant forall i :: 0 <= i < 8 ==>
          legs[i].extension == match LastAnim(anims[..t], i)
                               case None => old(legs[i].extension)
                               case Some(a) => Clamp(a.ValueAt(step))
        invariant forall i :: 0 <= i < 8 ==> legs[i].targetExtension == old(legs[i].targetExtension)
      {
        var a := anims[t];
        assert anims[..t + 1] == anims[..t] + [a];
        forall i | 0 <= i < 8
          ensures LastAnim(anims[..t + 1], i) == if a.corner == i then Some(a) else LastAnim(anims[..t], i)
        {
          LastAnimAppend(anims[..t], a, i);
        }
        legs[a.corner].SetExtension(a.ValueAt(step));
      }
      assert anims[..|anims|] == anims;
    }

    /** The final pass: each planned leg is set to its target, in list order,
        so the last entry for a corner decides its extension. */
    method FinishLegAnims(anims: seq<LegAnim>)
      requires Valid()
      requires forall t :: 0 <= t < |anims| ==> anims[t].corner < 8
      modifies legs
      ensures Valid()
      ensures forall i :: 0 <= i < 8 ==>
        legs[i].extension == match LastTarget(anims, i)
                             case None => old(legs[i].extension)
                             case Some(x) => Clamp(x)
      ensures forall i :: 0 <= i < 8 ==> legs[i].targetExtension == old(legs[i].targetExtension)
    {
      for t := 0 to |anims|
        invariant Valid()
        invariant forall i :: 0 <= i < 8 ==>
          legs[i].extension == match LastTarget(anims[..t], i)
                               case None => old(legs[i].extension)
                               case Some(x) => Clamp(x)
        invariant forall i :: 0 <= i < 8 ==> legs[i].targetExtension == old(legs[i].targetExtension)
      {
        var a := anims[t];
        assert anims[..t + 1] == anims[..t] + [a];
        forall i | 0 <= i < 8
          ensures LastTarget(anims[..t + 1], i) == if a.corner == i then Some(a.target) else LastTarget(anims[..t], i)
        {
          LastTargetAppend(anims[..t], a, i);
        }
        legs[a.corner].SetExtension(a.target);
      }
      assert anims[..|anims|] == anims;
    }
  }

  /** The target of the last entry of the list naming `pos`. */
  function LastTargetFor(entries: seq<(Coord, real)>, pos: Coord): (r: Option<real>)
    ensures r.None? <==> forall j :: 0 <= j < |entries| ==> entries[j].0 != pos
  {
    if |entries| == 0 then None
    else if entries[|entries| - 1].0 == pos then Some(entries[|entries| - 1].1)
    else LastTargetFor(entries[..|entries| - 1], pos)
  }

  /** "Last wins": the result is the target of an entry for `pos` after which
      no entry names `pos`. */
  lemma {:induction false} LastTargetForIsLast(entries: seq<(Coord, real)>, pos: Coord)
    requires LastTargetFor(entries, pos).Some?
    ensures exists j :: 0 <= j < |entries| && entries[j] == (pos, LastTargetFor(entries, pos).value) &&
                        forall j' :: j < j' < |entries| ==> entries[j'].0 != pos
  {
    var n := |entries|;
    if entries[n - 1].0 == pos {
      assert entries[n - 1] == (pos, LastTargetFor(entries, pos).value);
    } else {
      var init := entries[..n - 1];
      LastTargetForIsLast(init, pos);
      var j :| 0 <= j < |init| && init[j] == (pos, LastTargetFor(init, pos).value) &&
               forall j' :: j < j' < |init| ==> init[j'].0 != pos;
      assert entries[j] == init[j];
    }
  }
}
