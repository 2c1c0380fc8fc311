/** The assembly generator (Cube.py): the leg geometry of a corner cubelet,
    the colour a leg face would take, and generate_assembly, which places the
    6 centres, 12 edges and 8 corners at grid * SPACING, gives every corner
    its leg properties and inner-rod child, and finally tags every cubelet
    with its grid coordinate.  Cube.py's constants (CUBELET_SIZE 25, GAP 0,
    the leg lengths) are the ones WorldCube declares. */
module CubeAssembly {
  import opened Base
  import opened Vectors
  import opened Grid
  import WorldCube

  datatype Color = Color(r: real, g: real, b: real)

  const RED := Color(0.9, 0.5, 0.5)
  const BLUE := Color(0.5, 0.5, 0.9)
  const GREEN := Color(0.5, 0.9, 0.5)
  /** best_color's starting value in get_corner_color, and the corner colour. */
  const YELLOW := Color(0.9, 0.9, 0.5)
  const EDGE_GREY := Color(0.6, 0.6, 0.6)

  // ---------------------------------------------------------------------------
  // create_corner_leg

  datatype CornerLegGeometry = CornerLegGeometry(diagonal: Vec3, tubeStart: Vec3, rodStart: Vec3)

  /** The leg of the corner at `pos`, in the cubelet's own frame; `k` is the
      factor normalize() applies to (x, y, z), 1 / sqrt 3 on a corner.  The
      points agree with the object-oriented TelescopingLeg's. */
  function CreateCornerLeg(pos: Coord, k: real): (g: CornerLegGeometry)
    ensures g.diagonal == WorldCube.CornerDiagonal(pos, k)
    ensures g.tubeStart == WorldCube.TubeStart(pos, g.diagonal)
    ensures g.rodStart == WorldCube.RodStart(pos, g.diagonal)
  {
    var d := Scale(ToVec(pos), k);
    var cornerPoint := Scale(ToVec(pos), WorldCube.CUBELET_SIZE / 2.0);
    var tubeStart := Add(cornerPoint, Scale(d, -WorldCube.LEG_OUTER_LENGTH / 2.0));
    CornerLegGeometry(d, tubeStart, Add(tubeStart, Scale(d, WorldCube.LEG_OUTER_LENGTH - WorldCube.LEG_OVERLAP + 3.0)))
  }

  /** On a corner the outer tube is centred on the cubelet's outer corner
      (half of it embedded), and the inner rod starts 23 mm along the tube,
      so 7 mm of the rod stay inside the 30 mm tube. */
  lemma {:induction false} CornerLegAlongDiagonal(pos: Coord, k: real)
    requires WorldCube.IsCornerPos(pos) && WorldCube.IsInvSqrt3(k)
    ensures var g := CreateCornerLeg(pos, k);
      IsUnit(g.diagonal) &&
      Add(g.tubeStart, Scale(g.diagonal, WorldCube.LEG_OUTER_LENGTH / 2.0)) == WorldCube.CornerPoint(pos) &&
      Dot(Sub(g.rodStart, g.tubeStart), g.diagonal) == 23.0 &&
      Dot(Sub(Add(g.tubeStart, Scale(g.diagonal, WorldCube.LEG_OUTER_LENGTH)), g.rodStart), g.diagonal) == 7.0
  {
    var g := CreateCornerLeg(pos, k);
    var d := g.diagonal;
    WorldCube.CornerDiagonalIsUnit(pos, k);
    ScaleBetween(g.tubeStart, d, 0.0, 23.0);
    ScaleZero(g.tubeStart, d);
    DotScaleLeft(d, d, 23.0);
    ScaleBetween(g.tubeStart, d, 23.0, WorldCube.LEG_OUTER_LENGTH);
    DotScaleLeft(d, d, 7.0);
  }

  // ---------------------------------------------------------------------------
  // get_corner_color

  /** The three candidates in the order the loop tries them: X+, Y+, Z+. */
  function AxisCandidates(x: real, y: real, z: real): (r: seq<(Vec3, Color)>)
    ensures |r| == 3
  {
    [(Vec3(x, 0.0, 0.0), RED), (Vec3(0.0, y, 0.0), BLUE), (Vec3(0.0, 0.0, z), GREEN)]
  }

  function AxisDots(x: real, y: real, z: real, normal: Vec3): (r: seq<real>)
    ensures |r| == 3
  {
    var cs := AxisCandidates(x, y, z);
    [Dot(normal, cs[0].0), Dot(normal, cs[1].0), Dot(normal, cs[2].0)]
  }

  /** `i` holds the strictly greatest value among those before it and at
      least the value of every later one: the first maximum. */
  predicate IsFirstMax(dots: seq<real>, i: int)
  {
    0 <= i < |dots| &&
    (forall j :: 0 <= j < i ==> dots[j] < dots[i]) &&
    (forall j :: i < j < |dots| ==> dots[j] <= dots[i])
  }

  /** The first maximum is unique, so the colour below is determined. */
  lemma FirstMaxUnique(dots: seq<real>, i: int, j: int)
    requires IsFirstMax(dots, i) && IsFirstMax(dots, j)
    ensures i == j
  {
    var atI, atJ := dots[i], dots[j];
  }

  /** The running maximum over the three axes; best_dot starts at -infinity,
      which is None here.  Ties go to the earlier axis and the yellow start
      value never survives. */
  method GetCornerColor(x: real, y: real, z: real, normal: Vec3) returns (bestColor: Color)
    ensures exists i :: IsFirstMax(AxisDots(x, y, z, normal), i) && bestColor == AxisCandidates(x, y, z)[i].1
    ensures bestColor != YELLOW
  {
    var candidates := AxisCandidates(x, y, z);
    ghost var dots := AxisDots(x, y, z, normal);
    var bestDot: Option<real> := None;
    bestColor := YELLOW;
    ghost var best := 0;
    for i := 0 to 3
      invariant i == 0 ==> bestDot == None
      invariant i > 0 ==> IsFirstMax(dots[..i], best) && bestDot == Some(dots[best]) && bestColor == candidates[best].1
    {
      var dot := Dot(normal, candidates[i].0);
      if bestDot == None || dot > bestDot.value {
        bestDot := Some(dot);
        bestColor := candidates[i].1;
        best := i;
      }
    }
    assert dots[..3] == dots;
  }

  // ---------------------------------------------------------------------------
  // get_adjacent_faces

  /** Returns at once; the per-axis face code after the return is unreachable,
      so the function always gives the empty list. */
  function GetAdjacentFaces(x: int, y: int, z: int): (faces: seq<string>)
    ensures faces == []
  {
    []
  }

  // ---------------------------------------------------------------------------
  // generate_assembly

  /** The inner rod child of a corner: its name and its placement base in the
      corner's frame (its alignment rotation is not modelled). */
  datatype InnerRod = InnerRod(name: string, base: Vec3)

  /** The Telescoping properties of a corner part. */
  datatype LegProps = LegProps(diagonal: Vec3, start: Vec3, extension: real, target: real, speed: real, rod: InnerRod)

  /** A cubelet part: its name, placement base, colour, leg (corners only) and
      GridX/Y/Z once tagged. */
  datatype Part = Part(name: string, base: Vec3, color: Color, leg: Option<LegProps>, grid: Option<Coord>)

  const CENTER_TABLE: seq<(Coord, string, Color)> := [
    (Coord(1, 0, 0), "R", RED), (Coord(-1, 0, 0), "L", RED),
    (Coord(0, 1, 0), "U", BLUE), (Coord(0, -1, 0), "D", BLUE),
    (Coord(0, 0, 1), "F", GREEN), (Coord(0, 0, -1), "B", GREEN)]

  const EDGE_TABLE: seq<(Coord, string)> := [
    (Coord(1, 1, 0), "RU"), (Coord(1, -1, 0), "RD"),
    (Coord(-1, 1, 0), "LU"), (Coord(-1, -1, 0), "LD"),
    (Coord(1, 0, 1), "RF"), (Coord(1, 0, -1), "RB"),
    (Coord(-1, 0, 1), "LF"), (Coord(-1, 0, -1), "LB"),
    (Coord(0, 1, 1), "UF"), (Coord(0, 1, -1), "UB"),
    (Coord(0, -1, 1), "DF"), (Coord(0, -1, -1), "DB")]

  const CORNER_TABLE: seq<(Coord, string)> := [
    (Coord(1, 1, 1), "RUF"), (Coord(1, 1, -1), "RUB"),
    (Coord(1, -1, 1), "RDF"), (Coord(1, -1, -1), "RDB"),
    (Coord(-1, 1, 1), "LUF"), (Coord(-1, 1, -1), "LUB"),
    (Coord(-1, -1, 1), "LDF"), (Coord(-1, -1, -1), "LDB")]

  /** The corner codes of the table are the codes CornerCubelet derives from
      the position. */
  lemma CornerCodesArePositionCodes()
    ensures forall i :: 0 <= i < |CORNER_TABLE| ==> CORNER_TABLE[i].1 == WorldCube.PositionCode(CORNER_TABLE[i].0)
  {
    WorldCube.PositionCodeExample();
    assert WorldCube.PositionCode(Coord(1, 1, -1)) == "RUB";
    assert WorldCube.PositionCode(Coord(1, -1, 1)) == "RDF";
    assert WorldCube.PositionCode(Coord(1, -1, -1)) == "RDB";
    assert WorldCube.PositionCode(Coord(-1, 1, 1)) == "LUF";
    assert WorldCube.PositionCode(Coord(-1, 1, -1)) == "LUB";
    assert WorldCube.PositionCode(Coord(-1, -1, 1)) == "LDF";
  }

  /** The cells in creation order: centres, edges, corners. */
  const ASSEMBLY_POSITIONS: seq<Coord> := [
    Coord(1, 0, 0), Coord(-1, 0, 0), Coord(0, 1, 0), Coord(0, -1, 0), Coord(0, 0, 1), Coord(0, 0, -1),
    Coord(1, 1, 0), Coord(1, -1, 0), Coord(-1, 1, 0), Coord(-1, -1, 0),
    Coord(1, 0, 1), Coord(1, 0, -1), Coord(-1, 0, 1), Coord(-1, 0, -1),
    Coord(0, 1, 1), Coord(0, 1, -1), Coord(0, -1, 1), Coord(0, -1, -1),
    Coord(1, 1, 1), Coord(1, 1, -1), Coord(1, -1, 1), Coord(1, -1, -1),
    Coord(-1, 1, 1), Coord(-1, 1, -1), Coord(-1, -1, 1), Coord(-1, -1, -1)]

  /** LegStart and the inner rod's base as Cube.py computes them:
      rod_start minus the parent's position. */
  function LegStartAsWritten(rodStart: Vec3, parentPos: Vec3): Vec3
  {
    Sub(rodStart, parentPos)
  }

  /** The intended leg start: rod_start is already in the corner's own frame
      (the outer tube, built from the same points, is placed by the part's
      placement), so it is the local leg start as it stands. */
  function LegStart(rodStart: Vec3): Vec3
  {
    rodStart
  }

  function CenterPart(pos: Coord, code: string, color: Color): Part
  {
    Part("Center_" + code, WorldOf(pos), color, None, None)
  }

  function EdgePart(pos: Coord, code: string): Part
  {
    Part("Edge_" + code, WorldOf(pos), EDGE_GREY, None, None)
  }

  /** A corner part: at grid * SPACING, retracted (extension, target and
      speed 0), with LegStart and its inner rod's base at rod_start minus
      the part's position, as generate_assembly stores them. */
  function CornerPart(pos: Coord, code: string, k: real): Part
  {
    var g := CreateCornerLeg(pos, k);
    var parentPos := WorldOf(pos);
    var start := LegStartAsWritten(g.rodStart, parentPos);
    Part("Corner_" + code, parentPos, YELLOW,
         Some(LegProps(g.diagonal, start, 0.0, 0.0, 0.0, InnerRod("InnerRod_" + code, start))), None)
  }

  function CenterEntries(): (r: seq<(Coord, Part)>)
    ensures |r| == 6
  {
    seq(6, i requires 0 <= i < 6 => (CENTER_TABLE[i].0, CenterPart(CENTER_TABLE[i].0, CENTER_TABLE[i].1, CENTER_TABLE[i].2)))
  }

  function EdgeEntries(): (r: seq<(Coord, Part)>)
    ensures |r| == 12
  {
    seq(12, i requires 0 <= i < 12 => (EDGE_TABLE[i].0, EdgePart(EDGE_TABLE[i].0, EDGE_TABLE[i].1)))
  }

  function CornerEntries(k: real): (r: seq<(Coord, Part)>)
    ensures |r| == 8
  {
    seq(8, i requires 0 <= i < 8 => (CORNER_TABLE[i].0, CornerPart(CORNER_TABLE[i].0, CORNER_TABLE[i].1, k)))
  }

  /** The (key, part) pairs in the order generate_assembly stores them. */
  function AssemblyEntries(k: real): (r: seq<(Coord, Part)>)
    ensures |r| == 26
  {
    CenterEntries() + EdgeEntries() + CornerEntries(k)
  }

  /** The entries are keyed by the creation positions, in order. */
  lemma AssemblyKeys(k: real)
    ensures Keys(AssemblyEntries(k)) == ASSEMBLY_POSITIONS
  {
    var cs, es, ks := CenterEntries(), EdgeEntries(), CornerEntries(k);
    TableKeys(k);
    assert Keys(cs + es + ks) == Keys(cs) + Keys(es) + Keys(ks);
    assert ASSEMBLY_POSITIONS == ASSEMBLY_POSITIONS[..6] + ASSEMBLY_POSITIONS[6..18] + ASSEMBLY_POSITIONS[18..];
  }

  lemma TableKeys(k: real)
    ensures Keys(CenterEntries()) == ASSEMBLY_POSITIONS[..6]
    ensures Keys(EdgeEntries()) == ASSEMBLY_POSITIONS[6..18]
    ensures Keys(CornerEntries(k)) == ASSEMBLY_POSITIONS[18..]
  {
  }

  /** The inverse of CellKey over ASSEMBLY_POSITIONS: for each CellKey, the
      index of that cell in ASSEMBLY_POSITIONS (-1 for the core), so that
      proofs can go from a cell back to its entry (AssemblySlots). */
  const ASSEMBLY_SLOTS: seq<int> := [25, 9, 24, 13, 1, 12, 23, 8, 22, 17, 3, 16, 5, -1, 4, 15, 2, 14, 21, 7, 20, 11, 0, 10, 19, 6, 18]

  lemma AssemblySlots()
    ensures forall i :: 0 <= i < 26 ==>
      IsCell(ASSEMBLY_POSITIONS[i]) && 0 <= WorldCube.CellKey(ASSEMBLY_POSITIONS[i]) < 27 &&
      ASSEMBLY_SLOTS[WorldCube.CellKey(ASSEMBLY_POSITIONS[i])] == i
  {
  }

  lemma AssemblySlotsInverse(key: int)
    requires 0 <= key < 27 && key != 13
    ensures 0 <= ASSEMBLY_SLOTS[key] < 26 && WorldCube.CellKey(ASSEMBLY_POSITIONS[ASSEMBLY_SLOTS[key]]) == key
  {
  }

  /** The 26 creation positions are the 26 cells, once each. */
  lemma {:induction false} AssemblyPositionsAreCells()
    ensures IsArrangement(ASSEMBLY_POSITIONS)
  {
    var s := ASSEMBLY_POSITIONS;
    AssemblySlots();
    forall i, j | 0 <= i < j < 26 ensures s[i] != s[j] {
      assert ASSEMBLY_SLOTS[WorldCube.CellKey(s[i])] != ASSEMBLY_SLOTS[WorldCube.CellKey(s[j])];
    }
    forall c | IsCell(c) ensures c in s {
      AssemblySlotsInverse(WorldCube.CellKey(c));
      WorldCube.CellKeyInjective(c, s[ASSEMBLY_SLOTS[WorldCube.CellKey(c)]]);
    }
  }

  /** Centres and edges come first, then the eight corners. */
  lemma AssemblyPositionsKinds()
    ensures forall i :: 0 <= i < 18 ==> Classify(ASSEMBLY_POSITIONS[i]) != Corner
    ensures forall i :: 18 <= i < 26 ==> Classify(ASSEMBLY_POSITIONS[i]) == Corner && WorldCube.IsCornerPos(ASSEMBLY_POSITIONS[i])
  {
  }

  /** The part created for the n-th position, table by table. */
  lemma AssemblyEntryAt(k: real, n: int)
    requires 0 <= n < 26
    ensures AssemblyEntries(k)[n].1 ==
      if n < 6 then CenterPart(CENTER_TABLE[n].0, CENTER_TABLE[n].1, CENTER_TABLE[n].2)
      else if n < 18 then EdgePart(EDGE_TABLE[n - 6].0, EDGE_TABLE[n - 6].1)
      else CornerPart(CORNER_TABLE[n - 18].0, CORNER_TABLE[n - 18].1, k)
  {
  }

  /** A dictionary filled by `d[key] = value` in the order of `es`. */
  function Placed(es: seq<(Coord, Part)>): (m: map<Coord, Part>)
  {
    if |es| == 0 then map[]
    else Placed(es[..|es| - 1])[es[|es| - 1].0 := es[|es| - 1].1]
  }

  function Keys(es: seq<(Coord, Part)>): (r: seq<Coord>)
    ensures |r| == |es| && forall i :: 0 <= i < |es| ==> r[i] == es[i].0
  {
    seq(|es|, i requires 0 <= i < |es| => es[i].0)
  }

  lemma AppendSlice(front: seq<(Coord, Part)>, back: seq<(Coord, Part)>, i: int)
    requires 0 <= i < |back|
    ensures front + back[..i + 1] == (front + back[..i]) + [back[i]]
  {
    assert back[..i + 1] == back[..i] + [back[i]];
  }

  /** Storing one more pair is one more dictionary assignment. */
  lemma PlacedSnoc(es: seq<(Coord, Part)>, e: (Coord, Part))
    ensures Placed(es + [e]) == Placed(es)[e.0 := e.1]
    ensures Keys(es + [e]) == Keys(es) + [e.0]
  {
    assert (es + [e])[..|es|] == es;
  }

  /** One iteration of a creation loop: storing the i-th entry extends the
      stored prefix by one. */
  lemma PlaceStep(front: seq<(Coord, Part)>, es: seq<(Coord, Part)>, i: int)
    requires 0 <= i < |es|
    ensures Placed(front + es[..i + 1]) == Placed(front + es[..i])[es[i].0 := es[i].1]
    ensures Keys(front + es[..i + 1]) == Keys(front + es[..i]) + [es[i].0]
  {
    AppendSlice(front, es, i);
    PlacedSnoc(front + es[..i], es[i]);
  }

  /** The dictionary holds exactly the keys stored. */
  lemma {:induction false} PlacedKeys(es: seq<(Coord, Part)>)
    ensures forall c :: c in Placed(es) <==> c in Keys(es)
  {
    if |es| > 0 {
      var init := es[..|es| - 1];
      PlacedKeys(init);
      assert Keys(es) == Keys(init) + [es[|es| - 1].0];
    }
  }

  /** With distinct keys, each key maps to the part stored under it. */
  lemma {:induction false} PlacedValue(es: seq<(Coord, Part)>, n: int)
    requires Distinct(Keys(es)) && 0 <= n < |es|
    ensures es[n].0 in Placed(es) && Placed(es)[es[n].0] == es[n].1
  {
    var last := |es| - 1;
    if n < last {
      var init := es[..last];
      assert Keys(init) == Keys(es)[..last];
      assert es[n].0 != es[last].0;
      PlacedValue(init, n);
    }
  }

  /** GridX/Y/Z set to the dictionary key. */
  function Tagged(c: Coord, p: Part): Part
  {
    p.(grid := Some(c))
  }

  /** The three creation loops: centres, edges, corners, each stored under
      its grid tuple, with the keys in insertion order. */
  method CreateParts(k: real) returns (cubelets: map<Coord, Part>, order: seq<Coord>)
    ensures cubelets == Placed(AssemblyEntries(k)) && order == Keys(AssemblyEntries(k))
  {
    cubelets, order := CreateCenters(map[], [], []);
    assert [] + CenterEntries() == CenterEntries();
    cubelets, order := CreateEdges(cubelets, order, CenterEntries());
    cubelets, order := CreateCorners(cubelets, order, CenterEntries() + EdgeEntries(), k);
  }

  method CreateCenters(m: map<Coord, Part>, o: seq<Coord>, ghost front: seq<(Coord, Part)>)
    returns (cubelets: map<Coord, Part>, order: seq<Coord>)
    requires m == Placed(front) && o == Keys(front)
    ensures cubelets == Placed(front + CenterEntries()) && order == Keys(front + CenterEntries())
  {
    ghost var es := CenterEntries();
    cubelets, order := m, o;
    assert front + es[..0] == front;
    for i := 0 to |CENTER_TABLE|
      invariant cubelets == Placed(front + es[..i]) && order == Keys(front + es[..i])
    {
      var (pos, code, color) := CENTER_TABLE[i];
      var part := CenterPart(pos, code, color);
      assert (pos, part) == es[i];
      PlaceStep(front, es, i);
      cubelets := cubelets[pos := part];
      order := order + [pos];
    }
    assert es[..|CENTER_TABLE|] == es;
  }

  method CreateEdges(m: map<Coord, Part>, o: seq<Coord>, ghost front: seq<(Coord, Part)>)
    returns (cubelets: map<Coord, Part>, order: seq<Coord>)
    requires m == Placed(front) && o == Keys(front)
    ensures cubelets == Placed(front + EdgeEntries()) && order == Keys(front + EdgeEntries())
  {
    ghost var es := EdgeEntries();
    cubelets, order := m, o;
    assert front + es[..0] == front;
    for i := 0 to |EDGE_TABLE|
      invariant cubelets == Placed(front + es[..i]) && order == Keys(front + es[..i])
    {
      var (pos, code) := EDGE_TABLE[i];
      var part := EdgePart(pos, code);
      assert (pos, part) == es[i];
      PlaceStep(front, es, i);
      cubelets := cubelets[pos := part];
      order := order + [pos];
    }
    assert es[..|EDGE_TABLE|] == es;
  }

  method CreateCorners(m: map<Coord, Part>, o: seq<Coord>, ghost front: seq<(Coord, Part)>, k: real)
    returns (cubelets: map<Coord, Part>, order: seq<Coord>)
    requires m == Placed(front) && o == Keys(front)
    ensures cubelets == Placed(front + CornerEntries(k)) && order == Keys(front + CornerEntries(k))
  {
    ghost var es := CornerEntries(k);
    cubelets, order := m, o;
    assert front + es[..0] == front;
    for i := 0 to |CORNER_TABLE|
      invariant cubelets == Placed(front + es[..i]) && order == Keys(front + es[..i])
    {
      var (pos, code) := CORNER_TABLE[i];
      var part := CornerPart(pos, code, k);
      assert (pos, part) == es[i];
      PlaceStep(front, es, i);
      cubelets := cubelets[pos := part];
      order := order + [pos];
    }
    assert es[..|CORNER_TABLE|] == es;
  }

  /** The grid-tagging loop over cubelets.items(): every part gets its own key
      as GridX/Y/Z and nothing else changes. */
  method TagGrid(placed: map<Coord, Part>, order: seq<Coord>) returns (cubelets: map<Coord, Part>)
    requires Distinct(order) && forall c :: c in placed <==> c in order
    ensures cubelets.Keys == placed.Keys
    ensures forall c :: c in placed ==> cubelets[c] == Tagged(c, placed[c])
  {
    cubelets := placed;
    for i := 0 to |order|
      invariant cubelets.Keys == placed.Keys
      invariant forall j :: 0 <= j < i ==> cubelets[order[j]] == Tagged(order[j], placed[order[j]])
      invariant forall j :: i <= j < |order| ==> cubelets[order[j]] == placed[order[j]]
    {
      var c := order[i];
      cubelets := cubelets[c := Tagged(c, cubelets[c])];
    }
    forall c | c in placed ensures cubelets[c] == Tagged(c, placed[c]) {
      var j :| 0 <= j < |order| && order[j] == c;
    }
  }

  /** generate_assembly's dictionary; `k` is 1 / sqrt 3 as normalize() gives
      it.  Every one of the 26 cells holds the part created for it, tagged
      with its own grid coordinate. */
  method GenerateAssembly(k: real) returns (cubelets: map<Coord, Part>)
    ensures forall c :: c in cubelets <==> IsCell(c)
    ensures forall n :: 0 <= n < 26 ==>
      ASSEMBLY_POSITIONS[n] in cubelets &&
      cubelets[ASSEMBLY_POSITIONS[n]] == Tagged(ASSEMBLY_POSITIONS[n], AssemblyEntries(k)[n].1)
  {
    var placed, order := CreateParts(k);
    ghost var es := AssemblyEntries(k);
    AssemblyPositionsAreCells();
    AssemblyKeys(k);
    PlacedKeys(es);
    forall n | 0 <= n < 26 ensures ASSEMBLY_POSITIONS[n] in placed && placed[ASSEMBLY_POSITIONS[n]] == es[n].1 {
      PlacedValue(es, n);
    }
    cubelets := TagGrid(placed, order);
  }

  /** What generate_assembly promises about the n-th part: it sits at
      grid * SPACING with GridX/Y/Z equal to its key; it carries a leg
      exactly when it is a corner, and a leg starts retracted with target
      and speed 0, points along the corner diagonal and starts, like its
      inner rod, at the object-oriented leg's rod_start_local minus the
      part's position (see LegStartAsWrittenBehindTube for where that puts
      the rod). */
  lemma AssemblyPart(k: real, n: int)
    requires 0 <= n < 26
    ensures var c := ASSEMBLY_POSITIONS[n];
      var p := Tagged(c, AssemblyEntries(k)[n].1);
      p.grid == Some(c) && p.base == WorldOf(c) &&
      (p.leg.Some? <==> Classify(c) == Corner) &&
      (p.leg.Some? ==>
        var l := p.leg.value;
        l.extension == 0.0 && l.target == 0.0 && l.speed == 0.0 &&
        l.diagonal == WorldCube.CornerDiagonal(c, k) &&
        l.start == Sub(WorldCube.RodStart(c, l.diagonal), WorldOf(c)) && l.rod.base == l.start)
  {
    AssemblyEntryAt(k, n);
    AssemblyPositionsKinds();
    AssemblyKeys(k);
  }

  /** The same, for the whole dictionary generate_assembly returns: the
      animation scripts find every cubelet at its key, and legs exactly on
      the eight corners, all retracted. */
  lemma {:induction false} AssemblyParts(k: real, cubelets: map<Coord, Part>)
    requires forall c :: c in cubelets <==> IsCell(c)
    requires forall n :: 0 <= n < 26 ==>
      ASSEMBLY_POSITIONS[n] in cubelets &&
      cubelets[ASSEMBLY_POSITIONS[n]] == Tagged(ASSEMBLY_POSITIONS[n], AssemblyEntries(k)[n].1)
    ensures forall c :: c in cubelets ==>
      cubelets[c].grid == Some(c) && cubelets[c].base == WorldOf(c) &&
      (cubelets[c].leg.Some? <==> Classify(c) == Corner)
    ensures forall c :: c in cubelets && cubelets[c].leg.Some? ==>
      cubelets[c].leg.value.extension == 0.0 && cubelets[c].leg.value.target == 0.0 &&
      cubelets[c].leg.value.speed == 0.0
  {
    AssemblyPositionsAreCells();
    forall c | c in cubelets
      ensures cubelets[c].grid == Some(c) && cubelets[c].base == WorldOf(c)
      ensures cubelets[c].leg.Some? <==> Classify(c) == Corner
      ensures cubelets[c].leg.Some? ==>
        cubelets[c].leg.value.extension == 0.0 && cubelets[c].leg.value.target == 0.0 &&
        cubelets[c].leg.value.speed == 0.0
    {
      var n :| 0 <= n < 26 && ASSEMBLY_POSITIONS[n] == c;
      AssemblyPart(k, n);
    }
  }

  // ---------------------------------------------------------------------------
  // The leg start, as written and as intended

  /** As written, the rod sits at rod_start in the world: the parent's offset
      is taken off a point that never had it, so the rod of every corner is
      displaced by minus the corner's position, away from the tube. */
  lemma LegStartAsWrittenDisplaces(pos: Coord, k: real)
    requires WorldCube.IsCornerPos(pos)
    ensures var g := CreateCornerLeg(pos, k);
      var parent := Placement(Identity, WorldOf(pos));
      Apply(parent, LegStartAsWritten(g.rodStart, WorldOf(pos))) == g.rodStart &&
      Apply(parent, LegStartAsWritten(g.rodStart, WorldOf(pos))) != Apply(parent, g.rodStart)
  {
    var g := CreateCornerLeg(pos, k);
    MatVecIdentity(LegStartAsWritten(g.rodStart, WorldOf(pos)));
    MatVecIdentity(g.rodStart);
  }

  /** On every corner the rod as written starts 75k - 23 (about 20.3 mm)
      BEHIND the start of its tube along the diagonal, instead of 23 mm in
      front of it: it never comes out of the tube's end. */
  lemma {:induction false} LegStartAsWrittenBehindTube(pos: Coord, k: real)
    requires WorldCube.IsCornerPos(pos) && WorldCube.IsInvSqrt3(k)
    ensures var g := CreateCornerLeg(pos, k);
      var parent := Placement(Identity, WorldOf(pos));
      var rodWorld := Apply(parent, LegStartAsWritten(g.rodStart, WorldOf(pos)));
      Dot(Sub(rodWorld, Apply(parent, g.tubeStart)), g.diagonal) == 23.0 - 75.0 * k < 0.0
  {
    var g := CreateCornerLeg(pos, k);
    var d := g.diagonal;
    var v := ToVec(pos);
    var parent := Placement(Identity, WorldOf(pos));
    var rodWorld := Apply(parent, LegStartAsWritten(g.rodStart, WorldOf(pos)));
    WorldCube.CornerDiagonalIsUnit(pos, k);
    MatVecIdentity(LegStartAsWritten(g.rodStart, WorldOf(pos)));
    MatVecIdentity(g.tubeStart);
    ScaleBetween(g.tubeStart, d, 0.0, 23.0);
    ScaleZero(g.tubeStart, d);
    var diff := Sub(Scale(d, 23.0), Scale(v, 25.0));
    assert Sub(rodWorld, Apply(parent, g.tubeStart)) == diff;
    DotSubLeft(Scale(d, 23.0), Scale(v, 25.0), d);
    DotScaleLeft(d, d, 23.0);
    DotScaleLeft(v, d, 25.0);
    DotScaleRight(v, v, k);
    assert Dot(v, v) == 3.0;
    assert Dot(diff, d) == 23.0 - 75.0 * k;
    assert (k - 0.31) * (k + 0.31) == k * k - 0.0961;
  }

  /** With the leg start taken as it stands, the rod continues the tube in
      the world: it starts 23 mm along the diagonal from the tube's start,
      wherever the part is placed, and the leg start is the object-oriented
      leg's rod_start_local. */
  lemma LegStartContinuesTube(pos: Coord, k: real, parent: Placement)
    ensures var g := CreateCornerLeg(pos, k);
      var start := LegStart(g.rodStart);
      start == WorldCube.RodStart(pos, g.diagonal) &&
      Apply(parent, start) == Add(Apply(parent, g.tubeStart), MatVec(parent.rot, Scale(g.diagonal, 23.0)))
  {
    var g := CreateCornerLeg(pos, k);
    MatVecAdd(parent.rot, g.tubeStart, Scale(g.diagonal, 23.0));
  }
}
