/** The static tables of the name-based magic cube (magic_cube_with_legs.py):
    the named positions of the 26 cubelets, the face -> cubelet-name map
    used to gather a face, and the face -> (axis, centre) table.  A cubelet's
    name is a letter per non-zero coordinate (R/L for x, U/D for y, F/B for
    z); every table is checked against that rule and against the layer
    predicate of the grid. */
module FaceTables {
  import opened Base
  import opened Vectors
  import opened Grid

  const CUBELET_SIZE: real := 25.0

  datatype FaceName = R | L | U | D | F | B

  const AllFaces: seq<FaceName> := [R, L, U, D, F, B]

  function Letter(f: FaceName): char
  {
    match f
    case R => 'R' case L => 'L' case U => 'U' case D => 'D' case F => 'F' case B => 'B'
  }

  function Opposite(f: FaceName): FaceName
  {
    match f
    case R => L case L => R case U => D case D => U case F => B case B => F
  }

  /** The dictionary key lookup: the face a one-letter key names, if any. */
  function ParseFace(s: string): (r: Option<FaceName>)
    ensures r.Some? ==> s == [Letter(r.value)]
    ensures forall f :: s == [Letter(f)] ==> r == Some(f)
  {
    if s == "R" then Some(R) else if s == "L" then Some(L)
    else if s == "U" then Some(U) else if s == "D" then Some(D)
    else if s == "F" then Some(F) else if s == "B" then Some(B)
    else None
  }

  /** The layer of a face: its axis and the sign the coordinate has there. */
  function FaceLayer(f: FaceName): (r: (Axis, int))
    ensures r.1 == 1 || r.1 == -1
    
  {
    match f
    case R => (X, 1) case L => (X, -1)
    case U => (Y, 1) case D => (Y, -1)
    case F => (Z, 1) case B => (Z, -1)
  }

  /** Opposite faces lie on the same axis with opposite signs. */
  lemma OppositeLayer(f: FaceName)
    ensures FaceLayer(Opposite(f)) == (FaceLayer(f).0, -FaceLayer(f).1)
    ensures Opposite(Opposite(f)) == f && Opposite(f) != f
  {
  }

  predicate OnLayer(f: FaceName, c: Coord)
  {
    Component(c, FaceLayer(f).0) == FaceLayer(f).1
  }

  // ---------------------------------------------------------------------------
  // The naming rule

  predicate NameMatchesPosition(name: string, c: Coord)
  {
    ('R' in name <==> c.x > 0) && ('L' in name <==> c.x < 0) &&
    ('U' in name <==> c.y > 0) && ('D' in name <==> c.y < 0) &&
    ('F' in name <==> c.z > 0) && ('B' in name <==> c.z < 0)
  }

  function SignLetter(v: int, plus: string, minus: string): string
  {
    if v > 0 then plus else if v < 0 then minus else ""
  }

  /** The name of the cubelet created at `c`: x letter, y letter, z letter. */
  function NameOf(c: Coord): string
  {
    SignLetter(c.x, "R", "L") + SignLetter(c.y, "U", "D") + SignLetter(c.z, "F", "B")
  }

  /** A name has one letter per non-zero coordinate, and that letter gives
      the coordinate's sign. */
  lemma NameOfMatches(c: Coord)
    ensures NameMatchesPosition(NameOf(c), c)
    ensures |NameOf(c)| == 3 - ZeroCount(c)
  {
  }

  /** A name determines its cell. */
  lemma NameOfInjective(c: Coord, d: Coord)
    requires InLattice(c) && InLattice(d) && NameOf(c) == NameOf(d)
    ensures c == d
  {
    NameOfMatches(c);
    NameOfMatches(d);
  }

  /** A cubelet lies on a face's layer exactly when its name carries the face's letter. */
  lemma LetterIsLayer(f: FaceName, c: Coord)
    requires InLattice(c)
    ensures Letter(f) in NameOf(c) <==> OnLayer(f, c)
  {
    NameOfMatches(c);
  }

  // ---------------------------------------------------------------------------
  // Named positions (create_magic_cube)

  /** center_positions, on the grid (world position = grid * spacing). */
  const CenterTable: seq<(string, Coord)> := [
    ("R", Coord(1, 0, 0)), ("L", Coord(-1, 0, 0)), ("U", Coord(0, 1, 0)),
    ("D", Coord(0, -1, 0)), ("F", Coord(0, 0, 1)), ("B", Coord(0, 0, -1))]

  /** edge_positions. */
  const EdgeTable: seq<(string, Coord)> := [
    ("RU", Coord(1, 1, 0)), ("RD", Coord(1, -1, 0)), ("LU", Coord(-1, 1, 0)), ("LD", Coord(-1, -1, 0)),
    ("RF", Coord(1, 0, 1)), ("RB", Coord(1, 0, -1)), ("LF", Coord(-1, 0, 1)), ("LB", Coord(-1, 0, -1)),
    ("UF", Coord(0, 1, 1)), ("UB", Coord(0, 1, -1)), ("DF", Coord(0, -1, 1)), ("DB", Coord(0, -1, -1))]

  /** corner_positions. */
  const CornerTable: seq<(string, Coord)> := [
    ("RUF", Coord(1, 1, 1)), ("RUB", Coord(1, 1, -1)), ("RDF", Coord(1, -1, 1)), ("RDB", Coord(1, -1, -1)),
    ("LUF", Coord(-1, 1, 1)), ("LUB", Coord(-1, 1, -1)), ("LDF", Coord(-1, -1, 1)), ("LDB", Coord(-1, -1, -1))]

  /** Each centre is named by the rule, sits on a cell and is a centre. */
  lemma CenterTableNamed()
    ensures forall i :: 0 <= i < |CenterTable| ==>
      CenterTable[i].0 == NameOf(CenterTable[i].1) && IsCell(CenterTable[i].1) && Classify(CenterTable[i].1) == Center
  {
  }

  lemma EdgeTableNamed()
    ensures forall i :: 0 <= i < |EdgeTable| ==>
      EdgeTable[i].0 == NameOf(EdgeTable[i].1) && IsCell(EdgeTable[i].1) && Classify(EdgeTable[i].1) == Edge
  {
  }

  lemma CornerTableNamed()
    ensures forall i :: 0 <= i < |CornerTable| ==>
      CornerTable[i].0 == NameOf(CornerTable[i].1) && IsCell(CornerTable[i].1) && Classify(CornerTable[i].1) == Corner
  {
  }

  /** Every named position's letters match its coordinate signs. */
  lemma {:induction false} NamedPositionsMatchSigns()
    ensures forall i :: 0 <= i < |CenterTable| ==> NameMatchesPosition(CenterTable[i].0, CenterTable[i].1)
    ensures forall i :: 0 <= i < |EdgeTable| ==> NameMatchesPosition(EdgeTable[i].0, EdgeTable[i].1)
    ensures forall i :: 0 <= i < |CornerTable| ==> NameMatchesPosition(CornerTable[i].0, CornerTable[i].1)
  {
    CenterTableNamed();
    EdgeTableNamed();
    CornerTableNamed();
  }

  // ---------------------------------------------------------------------------
  // The face map (get_face_cubelets)

  datatype FaceEntry = FaceEntry(centers: seq<string>, edges: seq<string>, corners: seq<string>)

  /** face_map's entry for a face. */
  function FaceEntryOf(f: FaceName): FaceEntry
  {
    match f
    case R => FaceEntry(["R"], ["RU", "RD", "RF", "RB"], ["RUF", "RUB", "RDF", "RDB"])
    case L => FaceEntry(["L"], ["LU", "LD", "LF", "LB"], ["LUF", "LUB", "LDF", "LDB"])
    case U => FaceEntry(["U"], ["RU", "LU", "UF", "UB"], ["RUF", "RUB", "LUF", "LUB"])
    case D => FaceEntry(["D"], ["RD", "LD", "DF", "DB"], ["RDF", "RDB", "LDF", "LDB"])
    case F => FaceEntry(["F"], ["RF", "LF", "UF", "DF"], ["RUF", "RDF", "LUF", "LDF"])
    case B => FaceEntry(["B"], ["RB", "LB", "UB", "DB"], ["RUB", "RDB", "LUB", "LDB"])
  }

  /** face_map looked up by key: None for a key it does not have. */
  function FaceMap(face: string): (r: Option<FaceEntry>)
    ensures r.Some? <==> ParseFace(face).Some?
  {
    match ParseFace(face)
    case None => None
    case Some(f) => Some(FaceEntryOf(f))
  }

  /** Every name a face lists: centres, then edges, then corners. */
  function FaceNames(f: FaceName): seq<string>
  {
    var e := FaceEntryOf(f);
    e.centers + e.edges + e.corners
  }

  /** The created positions of the names a face lists, in list order. */
  function FaceCells(f: FaceName): seq<Coord>
  {
    match f
    case R => [Coord(1, 0, 0), Coord(1, 1, 0), Coord(1, -1, 0), Coord(1, 0, 1), Coord(1, 0, -1),
               Coord(1, 1, 1), Coord(1, 1, -1), Coord(1, -1, 1), Coord(1, -1, -1)]
    case L => [Coord(-1, 0, 0), Coord(-1, 1, 0), Coord(-1, -1, 0), Coord(-1, 0, 1), Coord(-1, 0, -1),
               Coord(-1, 1, 1), Coord(-1, 1, -1), Coord(-1, -1, 1), Coord(-1, -1, -1)]
    case U => [Coord(0, 1, 0), Coord(1, 1, 0), Coord(-1, 1, 0), Coord(0, 1, 1), Coord(0, 1, -1),
               Coord(1, 1, 1), Coord(1, 1, -1), Coord(-1, 1, 1), Coord(-1, 1, -1)]
    case D => [Coord(0, -1, 0), Coord(1, -1, 0), Coord(-1, -1, 0), Coord(0, -1, 1), Coord(0, -1, -1),
               Coord(1, -1, 1), Coord(1, -1, -1), Coord(-1, -1, 1), Coord(-1, -1, -1)]
    case F => [Coord(0, 0, 1), Coord(1, 0, 1), Coord(-1, 0, 1), Coord(0, 1, 1), Coord(0, -1, 1),
               Coord(1, 1, 1), Coord(1, -1, 1), Coord(-1, 1, 1), Coord(-1, -1, 1)]
    case B => [Coord(0, 0, -1), Coord(1, 0, -1), Coord(-1, 0, -1), Coord(0, 1, -1), Coord(0, -1, -1),
               Coord(1, 1, -1), Coord(1, -1, -1), Coord(-1, 1, -1), Coord(-1, -1, -1)]
  }

  /** Every face lists one centre, four edges and four corners. */
  lemma FaceMapCounts(f: FaceName)
    ensures |FaceEntryOf(f).centers| == 1 && |FaceEntryOf(f).edges| == 4 && |FaceEntryOf(f).corners| == 4
    ensures |FaceNames(f)| == 9
  {
  }

  /** The i-th listed name is the name of the i-th listed cell. */
  lemma FaceNamesOfCells(f: FaceName)
    ensures |FaceCells(f)| == |FaceNames(f)| == 9
    ensures forall i :: 0 <= i < 9 ==> FaceNames(f)[i] == NameOf(FaceCells(f)[i])
  {
    match f
    case R => NamesOfCellsR();
    case L => NamesOfCellsL();
    case U => NamesOfCellsU();
    case D => NamesOfCellsD();
    case F => NamesOfCellsF();
    case B => NamesOfCellsB();
  }

  lemma NamesOfCellsR()
    ensures forall i :: 0 <= i < 9 ==> FaceNames(R)[i] == NameOf(FaceCells(R)[i])
  {
    assert NameOf(Coord(1, 0, 0)) == "R";
    assert NameOf(Coord(1, 1, 0)) == "RU";
    assert NameOf(Coord(1, -1, 0)) == "RD";
    assert NameOf(Coord(1, 0, 1)) == "RF";
    assert NameOf(Coord(1, 0, -1)) == "RB";
    assert NameOf(Coord(1, 1, 1)) == "RUF";
    assert NameOf(Coord(1, 1, -1)) == "RUB";
    assert NameOf(Coord(1, -1, 1)) == "RDF";
    assert NameOf(Coord(1, -1, -1)) == "RDB";
  }

  lemma NamesOfCellsL()
    ensures forall i :: 0 <= i < 9 ==> FaceNames(L)[i] == NameOf(FaceCells(L)[i])
  {
    assert NameOf(Coord(-1, 0, 0)) == "L";
    assert NameOf(Coord(-1, 1, 0)) == "LU";
    assert NameOf(Coord(-1, -1, 0)) == "LD";
    assert NameOf(Coord(-1, 0, 1)) == "LF";
    assert NameOf(Coord(-1, 0, -1)) == "LB";
    assert NameOf(Coord(-1, 1, 1)) == "LUF";
    assert NameOf(Coord(-1, 1, -1)) == "LUB";
    assert NameOf(Coord(-1, -1, 1)) == "LDF";
    assert NameOf(Coord(-1, -1, -1)) == "LDB";
  }

  lemma NamesOfCellsU()
    ensures forall i :: 0 <= i < 9 ==> FaceNames(U)[i] == NameOf(FaceCells(U)[i])
  {
    assert NameOf(Coord(0, 1, 0)) == "U";
    assert NameOf(Coord(1, 1, 0)) == "RU";
    assert NameOf(Coord(-1, 1, 0)) == "LU";
    assert NameOf(Coord(0, 1, 1)) == "UF";
    assert NameOf(Coord(0, 1, -1)) == "UB";
    assert NameOf(Coord(1, 1, 1)) == "RUF";
    assert NameOf(Coord(1, 1, -1)) == "RUB";
    assert NameOf(Coord(-1, 1, 1)) == "LUF";
    assert NameOf(Coord(-1, 1, -1)) == "LUB";
  }

  lemma NamesOfCellsD()
    ensures forall i :: 0 <= i < 9 ==> FaceNames(D)[i] == NameOf(FaceCells(D)[i])
  {
    assert NameOf(Coord(0, -1, 0)) == "D";
    assert NameOf(Coord(1, -1, 0)) == "RD";
    assert NameOf(Coord(-1, -1, 0)) == "LD";
    assert NameOf(Coord(0, -1, 1)) == "DF";
    assert NameOf(Coord(0, -1, -1)) == "DB";
    assert NameOf(Coord(1, -1, 1)) == "RDF";
    assert NameOf(Coord(1, -1, -1)) == "RDB";
    assert NameOf(Coord(-1, -1, 1)) == "LDF";
    assert NameOf(Coord(-1, -1, -1)) == "LDB";
  }

  lemma NamesOfCellsF()
    ensures forall i :: 0 <= i < 9 ==> FaceNames(F)[i] == NameOf(FaceCells(F)[i])
  {
    assert NameOf(Coord(0, 0, 1)) == "F";
    assert NameOf(Coord(1, 0, 1)) == "RF";
    assert NameOf(Coord(-1, 0, 1)) == "LF";
    assert NameOf(Coord(0, 1, 1)) == "UF";
    assert NameOf(Coord(0, -1, 1)) == "DF";
    assert NameOf(Coord(1, 1, 1)) == "RUF";
    assert NameOf(Coord(1, -1, 1)) == "RDF";
    assert NameOf(Coord(-1, 1, 1)) == "LUF";
    assert NameOf(Coord(-1, -1, 1)) == "LDF";
  }

  lemma NamesOfCellsB()
    ensures forall i :: 0 <= i < 9 ==> FaceNames(B)[i] == NameOf(FaceCells(B)[i])
  {
    assert NameOf(Coord(0, 0, -1)) == "B";
    assert NameOf(Coord(1, 0, -1)) == "RB";
    assert NameOf(Coord(-1, 0, -1)) == "LB";
    assert NameOf(Coord(0, 1, -1)) == "UB";
    assert NameOf(Coord(0, -1, -1)) == "DB";
    assert NameOf(Coord(1, 1, -1)) == "RUB";
    assert NameOf(Coord(1, -1, -1)) == "RDB";
    assert NameOf(Coord(-1, 1, -1)) == "LUB";
    assert NameOf(Coord(-1, -1, -1)) == "LDB";
  }

  /** The listed cells are cells of the face's layer. */
  lemma FaceCellsOnLayer(f: FaceName)
    ensures |FaceCells(f)| == 9
    ensures forall i :: 0 <= i < 9 ==> IsCell(FaceCells(f)[i]) && OnLayer(f, FaceCells(f)[i])
  {
    match f
    case R =>
      assert forall i :: 0 <= i < 9 ==> IsCell(FaceCells(R)[i]) && OnLayer(R, FaceCells(R)[i]);
    case L =>
      assert forall i :: 0 <= i < 9 ==> IsCell(FaceCells(L)[i]) && OnLayer(L, FaceCells(L)[i]);
    case U =>
      assert forall i :: 0 <= i < 9 ==> IsCell(FaceCells(U)[i]) && OnLayer(U, FaceCells(U)[i]);
    case D =>
      assert forall i :: 0 <= i < 9 ==> IsCell(FaceCells(D)[i]) && OnLayer(D, FaceCells(D)[i]);
    case F =>
      assert forall i :: 0 <= i < 9 ==> IsCell(FaceCells(F)[i]) && OnLayer(F, FaceCells(F)[i]);
    case B =>
      assert forall i :: 0 <= i < 9 ==> IsCell(FaceCells(B)[i]) && OnLayer(B, FaceCells(B)[i]);
  }

  lemma FaceListNamed(f: FaceName)
    ensures |FaceCells(f)| == |FaceNames(f)| == 9
    ensures forall i :: 0 <= i < 9 ==>
      FaceNames(f)[i] == NameOf(FaceCells(f)[i]) && IsCell(FaceCells(f)[i]) && OnLayer(f, FaceCells(f)[i])
  {
    FaceNamesOfCells(f);
    FaceCellsOnLayer(f);
  }

  /** The listed cells cover the face's layer. */
  lemma FaceListComplete(f: FaceName, c: Coord)
    requires IsCell(c) && OnLayer(f, c)
    ensures c in FaceCells(f)
  {
  }

  /** The face map is the layer predicate: a face lists the cubelet created
      at cell c exactly when c lies on that face's layer. */
  lemma {:induction false} FaceMapIsLayer(f: FaceName, c: Coord)
    requires IsCell(c)
    ensures NameOf(c) in FaceNames(f) <==> OnLayer(f, c)
  {
    FaceListNamed(f);
    if NameOf(c) in FaceNames(f) {
      var i :| 0 <= i < 9 && FaceNames(f)[i] == NameOf(c);
      NameOfInjective(c, FaceCells(f)[i]);
    }
    if OnLayer(f, c) {
      FaceListComplete(f, c);
      var i :| 0 <= i < 9 && FaceCells(f)[i] == c;
      assert FaceNames(f)[i] == NameOf(c);
    }
  }

  /** Every name listed under a face contains that face's letter. */
  lemma {:induction false} FaceMapLetters(f: FaceName, n: string)
    requires n in FaceNames(f)
    ensures Letter(f) in n
  {
    FaceListNamed(f);
    var i :| 0 <= i < 9 && FaceNames(f)[i] == n;
    LetterIsLayer(f, FaceCells(f)[i]);
  }

  /** Opposite faces share no names. */
  lemma {:induction false} OppositeFacesDisjoint(f: FaceName, n: string)
    requires n in FaceNames(f)
    ensures n !in FaceNames(Opposite(f))
  {
    FaceMapLetters(f, n);
    FaceListNamed(Opposite(f));
    forall j | 0 <= j < 9
      ensures Letter(f) !in FaceNames(Opposite(f))[j]
    {
      LetterIsLayer(f, FaceCells(Opposite(f))[j]);
    }
  }

  /** How many faces of `fs` list `name`. */
  function Occurrences(fs: seq<FaceName>, name: string): (n: nat)
    ensures n <= |fs|
  {
    if |fs| == 0 then 0
    else Occurrences(fs[..|fs| - 1], name) + (if name in FaceNames(fs[|fs| - 1]) then 1 else 0)
  }

  /** How many faces of `fs` have `c` on their layer. */
  function LayerCount(fs: seq<FaceName>, c: Coord): (n: nat)
    ensures n <= |fs|
  {
    if |fs| == 0 then 0
    else LayerCount(fs[..|fs| - 1], c) + (if OnLayer(fs[|fs| - 1], c) then 1 else 0)
  }

  /** Counting listings is counting layers, over any list of faces. */
  lemma {:induction false} OccurrencesAreLayers(fs: seq<FaceName>, c: Coord)
    requires IsCell(c)
    ensures Occurrences(fs, NameOf(c)) == LayerCount(fs, c)
  {
    if |fs| > 0 {
      OccurrencesAreLayers(fs[..|fs| - 1], c);
      FaceMapIsLayer(fs[|fs| - 1], c);
    }
  }

  /** The cubelet created at a cell is listed under one face per non-zero
      coordinate: corners under three, edges under two, centres under one. */
  lemma {:induction false} OccurrencesByKind(c: Coord)
    requires IsCell(c)
    ensures Occurrences(AllFaces, NameOf(c)) == 3 - ZeroCount(c)
    ensures Classify(c) == Corner ==> Occurrences(AllFaces, NameOf(c)) == 3
    ensures Classify(c) == Edge ==> Occurrences(AllFaces, NameOf(c)) == 2
    ensures Classify(c) == Center ==> Occurrences(AllFaces, NameOf(c)) == 1
  {
    OccurrencesAreLayers(AllFaces, c);
    assert AllFaces[..5] == [R, L, U, D, F];
    assert AllFaces[..4] == [R, L, U, D];
    assert AllFaces[..3] == [R, L, U];
    assert AllFaces[..2] == [R, L];
    assert AllFaces[..1] == [R];
    assert [R, L, U, D][..3] == [R, L, U] && [R, L, U][..2] == [R, L] && [R, L][..1] == [R];
    assert [R, L, U, D, F][..4] == [R, L, U, D];
  }

  // ---------------------------------------------------------------------------
  // Gathering a face's objects

  /** The objects of the names present in `m`, in name order; missing names
      are skipped. */
  function Lookup<T>(names: seq<string>, m: map<string, T>): (r: seq<T>)
    ensures |r| <= |names|
    ensures (forall n :: n in names ==> n in m) ==> |r| == |names| && forall i :: 0 <= i < |r| ==> r[i] == m[names[i]]
    ensures forall x :: x in r ==> exists n :: n in names && n in m && m[n] == x
  {
    if |names| == 0 then []
    else
      var rest := Lookup(names[1..], m);
      assert forall n :: n in names[1..] ==> n in names;
      if names[0] in m then [m[names[0]]] + rest else rest
  }

  /** get_face_cubelets: the face's centres, then edges, then corners, each
      looked up in its own dictionary; [] for an unknown face.  Every object
      returned is the object of a name the face lists. */
  function GetFaceCubelets<T>(face: string, centers: map<string, T>, edges: map<string, T>, corners: map<string, T>): (r: seq<T>)
    ensures ParseFace(face).None? ==> r == []
    ensures ParseFace(face).Some? ==> |r| <= 9
    ensures ParseFace(face).Some? ==> forall x :: x in r ==>
      exists n :: n in FaceNames(ParseFace(face).value) &&
        ((n in centers && centers[n] == x) || (n in edges && edges[n] == x) || (n in corners && corners[n] == x))
  {
    match FaceMap(face)
    case None => []
    case Some(e) =>
      FaceMapCounts(ParseFace(face).value);
      Lookup(e.centers, centers) + Lookup(e.edges, edges) + Lookup(e.corners, corners)
  }

  /** With every name of the face present, the result is the face's nine
      objects: the centre, the four edges, the four corners, in table order. */
  lemma {:induction false} FullFaceCubelets<T>(f: FaceName, centers: map<string, T>, edges: map<string, T>, corners: map<string, T>)
    requires var e := FaceEntryOf(f);
      (forall n :: n in e.centers ==> n in centers) && (forall n :: n in e.edges ==> n in edges) &&
      (forall n :: n in e.corners ==> n in corners)
    ensures var e := FaceEntryOf(f);
      var r := GetFaceCubelets([Letter(f)], centers, edges, corners);
      |r| == 9 && r[0] == centers[e.centers[0]] &&
      (forall i :: 0 <= i < 4 ==> r[1 + i] == edges[e.edges[i]] && r[5 + i] == corners[e.corners[i]])
  {
    FaceMapCounts(f);
    assert ParseFace([Letter(f)]) == Some(f);
  }

  // ---------------------------------------------------------------------------
  // Face axes (get_face_axis)

  /** get_face_axis: the turning axis (shared by opposite faces) and the
      face centre; ((0,0,1), origin) for an unknown face. */
  function GetFaceAxis(face: string): (r: (Vec3, Vec3))
    ensures ParseFace(face).None? ==> r == (Vec3(0.0, 0.0, 1.0), Zero)
  {
    match ParseFace(face)
    case None => (Vec3(0.0, 0.0, 1.0), Zero)
    case Some(f) => FaceAxisOf(f)
  }

  /** face_axes's entry for a known face. */
  function FaceAxisOf(f: FaceName): (Vec3, Vec3)
  {
    match f
    case R => (Vec3(1.0, 0.0, 0.0), Vec3(CUBELET_SIZE, 0.0, 0.0))
    case L => (Vec3(1.0, 0.0, 0.0), Vec3(-CUBELET_SIZE, 0.0, 0.0))
    case U => (Vec3(0.0, 1.0, 0.0), Vec3(0.0, CUBELET_SIZE, 0.0))
    case D => (Vec3(0.0, 1.0, 0.0), Vec3(0.0, -CUBELET_SIZE, 0.0))
    case F => (Vec3(0.0, 0.0, 1.0), Vec3(0.0, 0.0, CUBELET_SIZE))
    case B => (Vec3(0.0, 0.0, 1.0), Vec3(0.0, 0.0, -CUBELET_SIZE))
  }

  /** face_axes agrees with the layers and with where the centres were created. */
  lemma FaceAxisOfLayer(f: FaceName)
    ensures FaceAxisOf(f).0 == ToVec(UnitAxis(FaceLayer(f).0)) &&
            FaceAxisOf(f).1 == Scale(ToVec(UnitAxis(FaceLayer(f).0)), FaceLayer(f).1 as real * CUBELET_SIZE)
  {
    match f
    case R => case L => case U => case D => case F => case B =>
  }

  /** Opposite faces turn about the same axis. */
  lemma {:induction false} OppositeFacesShareAxis(f: FaceName)
    ensures FaceAxisOf(f).0 == FaceAxisOf(Opposite(f)).0
  {
    FaceAxisOfLayer(f);
    FaceAxisOfLayer(Opposite(f));
    OppositeLayer(f);
  }

  /** The face's own centre cubelet, named by the face letter, is listed first. */
  lemma FaceCentreNamed(f: FaceName)
    ensures FaceNames(f)[0] == [Letter(f)]
  {
    match f
    case R => case L => case U => case D => case F => case B =>
  }

  /** ... and was created at the face centre of face_axes. */
  lemma FaceCentreCell(f: FaceName)
    ensures FaceAxisOf(f).1 == WorldOf(FaceCells(f)[0])
  {
    match f
    case R =>
      assert FaceCells(R)[0] == Coord(1, 0, 0);
    case L =>
      assert FaceCells(L)[0] == Coord(-1, 0, 0);
    case U =>
      assert FaceCells(U)[0] == Coord(0, 1, 0);
    case D =>
      assert FaceCells(D)[0] == Coord(0, -1, 0);
    case F =>
      assert FaceCells(F)[0] == Coord(0, 0, 1);
    case B =>
      assert FaceCells(B)[0] == Coord(0, 0, -1);
  }

  /** For a known face: the axis is the positive unit axis of the face's
      layer (so opposite faces share it), the centre is the layer sign times
      CUBELET_SIZE along it, and that is where the face's own centre
      cubelet, the one named by the face letter and listed first, was created. */
  lemma {:induction false} GetFaceAxisMatchesLayer(f: FaceName)
    ensures GetFaceAxis([Letter(f)]).0 == ToVec(UnitAxis(FaceLayer(f).0))
    ensures GetFaceAxis([Letter(f)]).1 == Scale(ToVec(UnitAxis(FaceLayer(f).0)), FaceLayer(f).1 as real * CUBELET_SIZE)
    ensures GetFaceAxis([Letter(f)]).0 == GetFaceAxis([Letter(Opposite(f))]).0
    ensures FaceNames(f)[0] == [Letter(f)] && GetFaceAxis([Letter(f)]).1 == WorldOf(FaceCells(f)[0])
  {
    assert GetFaceAxis([Letter(f)]) == FaceAxisOf(f);
    assert GetFaceAxis([Letter(Opposite(f))]) == FaceAxisOf(Opposite(f));
    FaceAxisOfLayer(f);
    OppositeFacesShareAxis(f);
    FaceCentreNamed(f);
    FaceCentreCell(f);
  }
}
