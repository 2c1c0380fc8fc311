/** The start of run_infinite_animation_loop in both animation scripts
    (Cube_anim_OO_grids.py and Cube_anim_OO_worldcoords.py): a fresh
    RubiksCube's three dictionaries are refilled by scanning the Group of
    the cube already in the document, sorting each object by its GridX,
    GridY, GridZ properties.  Then the random leg commands the two scripts
    issue: the legs-only cycle and the leg list of one random move.  Random
    draws are parameters whose ranges are preconditions; the cube the
    commands run on is WorldCube.RubiksCube. */
module Rebuild {
  import opened Base
  import opened Grid
  import WorldCube

  /** A member of the cube's Group: its Name, its GridX/GridY/GridZ
      properties when it has them, and the Names of its own Group. */
  datatype GroupObject = GroupObject(name: string, grid: Option<Coord>, children: seq<string>)

  const INNER_ROD := "InnerRod"

  // ---------------------------------------------------------------------------
  // The inner-rod search

  /** The first child whose name contains "InnerRod", None when no child does. */
  function FirstInnerRod(children: seq<string>): (r: Option<nat>)
    ensures r.None? <==> forall j :: 0 <= j < |children| ==> !Contains(children[j], INNER_ROD)
    ensures r.Some? ==>
      r.value < |children| && Contains(children[r.value], INNER_ROD) &&
      forall j :: 0 <= j < r.value ==> !Contains(children[j], INNER_ROD)
  {
    if |children| == 0 then None
    else if Contains(children[0], INNER_ROD) then Some(0)
    else
      match FirstInnerRod(children[1..])
      case None => None
      case Some(j) => Some(j + 1)
  }

  /** The loop over the corner object's children that breaks at the first
      name containing "InnerRod". */
  method FindInnerRod(children: seq<string>) returns (r: Option<nat>)
    ensures r == FirstInnerRod(children)
  {
    r := None;
    var j := 0;
    while j < |children|
      invariant 0 <= j <= |children|
      invariant forall i :: 0 <= i < j ==> !Contains(children[i], INNER_ROD)
    {
      if Contains(children[j], INNER_ROD) {
        r := Some(j);
        break;
      }
      j := j + 1;
    }
  }

  /** The child that becomes corner.leg.inner_rod_obj. */
  function InnerRodOf(children: seq<string>): Option<string>
  {
    match FirstInnerRod(children)
    case None => None
    case Some(j) => Some(children[j])
  }

  // ---------------------------------------------------------------------------
  // The three dictionaries

  /** The CornerCubelet the rebuild makes: its grid position, the index of
      its part object in the Group, and its inner rod. */
  datatype RebuiltCorner = RebuiltCorner(position: Coord, part: nat, innerRod: Option<string>)

  /** corner_cubelets, edge_cubelets and center_cubelets; edges and centres
      map to the index of their object in the Group. */
  datatype Dictionaries = Dictionaries(corners: map<Coord, RebuiltCorner>, edges: map<Coord, nat>, centers: map<Coord, nat>)

  const Empty := Dictionaries(map[], map[], map[])

  /** One pass of the loop body for the object at index i. */
  function Absorb(d: Dictionaries, i: nat, obj: GroupObject): Dictionaries
  {
    match obj.grid
    case None => d
    case Some(g) =>
      match Classify(g)
      case Corner => d.(corners := d.corners[g := RebuiltCorner(g, i, InnerRodOf(obj.children))])
      case Edge => d.(edges := d.edges[g := i])
      case Center => d.(centers := d.centers[g := i])
  }

  /** The dictionaries after the loop has scanned `group`, starting empty. */
  function Scan(group: seq<GroupObject>): Dictionaries
  {
    if |group| == 0 then Empty
    else Absorb(Scan(group[..|group| - 1]), |group| - 1, group[|group| - 1])
  }

  /** Some object of the Group carries grid position g. */
  predicate HasGrid(group: seq<GroupObject>, g: Coord)
  {
    exists i :: 0 <= i < |group| && group[i].grid == Some(g)
  }

  /** Index i is the last object of the Group carrying grid position g. */
  predicate IsLastWith(group: seq<GroupObject>, g: Coord, i: nat)
  {
    i < |group| && group[i].grid == Some(g) &&
    forall j :: i < j < |group| ==> group[j].grid != Some(g)
  }

  lemma HasGridSnoc(group: seq<GroupObject>, g: Coord)
    requires |group| > 0
    ensures HasGrid(group, g) <==>
      HasGrid(group[..|group| - 1], g) || group[|group| - 1].grid == Some(g)
  {
    var init := group[..|group| - 1];
    if HasGrid(init, g) {
      var i :| 0 <= i < |init| && init[i].grid == Some(g);
      assert group[i] == init[i];
    }
  }

  /** A position is a key of the dictionary of its kind exactly when some
      object carries it; objects without GridX are in none. */
  lemma {:induction false} ScanKeys(group: seq<GroupObject>)
    ensures forall g :: g in Scan(group).corners <==> Classify(g) == Corner && HasGrid(group, g)
    ensures forall g :: g in Scan(group).edges <==> Classify(g) == Edge && HasGrid(group, g)
    ensures forall g :: g in Scan(group).centers <==> Classify(g) == Center && HasGrid(group, g)
  {
    if |group| > 0 {
      ScanKeys(group[..|group| - 1]);
      forall g {
        HasGridSnoc(group, g);
      }
    }
  }

  /** Every object with GridX lands in exactly one of the three dictionaries. */
  lemma ScanExactlyOne(group: seq<GroupObject>, g: Coord)
    requires HasGrid(group, g)
    ensures var d := Scan(group);
      (g in d.corners && g !in d.edges && g !in d.centers) ||
      (g !in d.corners && g in d.edges && g !in d.centers) ||
      (g !in d.corners && g !in d.edges && g in d.centers)
  {
    ScanKeys(group);
  }

  lemma IsLastWithSnoc(group: seq<GroupObject>, g: Coord, i: nat)
    requires |group| > 0 && group[|group| - 1].grid != Some(g)
    requires IsLastWith(group[..|group| - 1], g, i)
    ensures IsLastWith(group, g, i)
  {
  }

  /** The value stored under a corner position comes from the last object
      carrying it (a later object overwrites an earlier one); the corner
      records its own position and the first "InnerRod" child of that object. */
  lemma {:induction false} ScanCornerValues(group: seq<GroupObject>)
    ensures forall g :: g in Scan(group).corners ==>
      var c := Scan(group).corners[g];
      IsLastWith(group, g, c.part) && c.position == g && c.innerRod == InnerRodOf(group[c.part].children)
  {
    if |group| > 0 {
      var n := |group| - 1;
      var init := group[..n];
      ScanCornerValues(init);
      ScanKeys(init);
      var prev := Scan(init);
      assert Scan(group) == Absorb(prev, n, group[n]);
      forall g | g in Scan(group).corners
        ensures var c := Scan(group).corners[g];
          IsLastWith(group, g, c.part) && c.position == g && c.innerRod == InnerRodOf(group[c.part].children)
      {
        if group[n].grid != Some(g) {
          assert g in prev.corners && Scan(group).corners[g] == prev.corners[g];
          IsLastWithSnoc(group, g, prev.corners[g].part);
          assert group[prev.corners[g].part] == init[prev.corners[g].part];
        }
      }
    }
  }

  /** An edge position maps to the last object carrying it. */
  lemma {:induction false} ScanEdgeValues(group: seq<GroupObject>)
    ensures forall g :: g in Scan(group).edges ==> IsLastWith(group, g, Scan(group).edges[g])
  {
    if |group| > 0 {
      var n := |group| - 1;
      var init := group[..n];
      ScanEdgeValues(init);
      ScanKeys(init);
      var prev := Scan(init);
      assert Scan(group) == Absorb(prev, n, group[n]);
      forall g | g in Scan(group).edges
        ensures IsLastWith(group, g, Scan(group).edges[g])
      {
        if group[n].grid != Some(g) {
          assert g in prev.edges && Scan(group).edges[g] == prev.edges[g];
          IsLastWithSnoc(group, g, prev.edges[g]);
        }
      }
    }
  }

  /** A centre position maps to the last object carrying it. */
  lemma {:induction false} ScanCenterValues(group: seq<GroupObject>)
    ensures forall g :: g in Scan(group).centers ==> IsLastWith(group, g, Scan(group).centers[g])
  {
    if |group| > 0 {
      var n := |group| - 1;
      var init := group[..n];
      ScanCenterValues(init);
      ScanKeys(init);
      var prev := Scan(init);
      assert Scan(group) == Absorb(prev, n, group[n]);
      forall g | g in Scan(group).centers
        ensures IsLastWith(group, g, Scan(group).centers[g])
      {
        if group[n].grid != Some(g) {
          assert g in prev.centers && Scan(group).centers[g] == prev.centers[g];
          IsLastWithSnoc(group, g, prev.centers[g]);
        }
      }
    }
  }

  /** The RubiksCube whose dictionaries the scripts refill. */
  class CubeDictionaries {
    var corners: map<Coord, RebuiltCorner>
    var edges: map<Coord, nat>
    var centers: map<Coord, nat>

    function Current(): Dictionaries
      reads this
    {
      Dictionaries(corners, edges, centers)
    }

    /** RubiksCube.__init__ starts with three empty dictionaries. */
    constructor ()
      ensures Current() == Empty
    {
      corners, edges, centers := map[], map[], map[];
    }

    /** The rebuild loop over cube_obj.Group: corner when no component is
        zero, edge when exactly one is, centre otherwise. */
    method RebuildFrom(group: seq<GroupObject>)
      requires Current() == Empty
      modifies this
      ensures Current() == Scan(group)
    {
      for i := 0 to |group|
        invariant Current() == Scan(group[..i])
      {
        assert group[..i + 1][..i] == group[..i];
        var obj := group[i];
        if obj.grid.Some? {
          var g := obj.grid.value;
          if g.x != 0 && g.y != 0 && g.z != 0 {
            var rod := FindInnerRod(obj.children);
            var innerRod := if rod.Some? then Some(obj.children[rod.value]) else None;
            corners := corners[g := RebuiltCorner(g, i, innerRod)];
          } else if ZeroCount(g) == 1 {
            edges := edges[g := i];
          } else {
            centers := centers[g := i];
          }
        }
      }
      assert group[..|group|] == group;
    }
  }

  // ---------------------------------------------------------------------------
  // Leg commands

  /** The steps every leg command of the legs-only cycle uses. */
  const LEG_STEPS := 15

  /** animate_leg_extension(pos, target, steps=15) for each command in turn:
      a leg that some command names ends at the clamped target of the last
      such command, every other leg keeps its extension. */
  method IssueExtensions(cube: WorldCube.RubiksCube, commands: seq<(Coord, real)>)
    requires cube.Valid()
    modifies cube.legs
    ensures cube.Valid()
    ensures forall i :: 0 <= i < 8 ==>
      cube.legs[i].extension ==
        match WorldCube.LastTargetFor(commands, WorldCube.CornerPositions[i])
        case None => old(cube.legs[i].extension)
        case Some(t) => WorldCube.Clamp(t)
  {
    for j := 0 to |commands|
      invariant cube.Valid()
      invariant forall i :: 0 <= i < 8 ==>
        cube.legs[i].extension ==
          match WorldCube.LastTargetFor(commands[..j], WorldCube.CornerPositions[i])
          case None => old(cube.legs[i].extension)
          case Some(t) => WorldCube.Clamp(t)
    {
      var _, _ := cube.AnimateLegExtension(commands[j].0, commands[j].1, LEG_STEPS);
      assert commands[..j + 1] == commands[..j] + [commands[j]];
      forall i | 0 <= i < 8 {
        WorldCube.LastTargetForAppend(commands[..j], commands[j], WorldCube.CornerPositions[i]);
      }
    }
    assert commands[..|commands|] == commands;
  }

  /** The draws of one legs-only cycle: randint(3, 6) legs, random.sample's
      picks (distinct indices into the corner list) and one uniform(20, 40)
      target per pick.  When more legs are asked for than there are corners
      random.sample raises instead of picking. */
  datatype CycleDraw = CycleDraw(numLegs: int, picks: seq<nat>, targets: seq<real>)

  predicate IsCycleDraw(d: CycleDraw, n: nat)
  {
    3 <= d.numLegs <= 6 &&
    (d.numLegs <= n ==>
      |d.picks| == d.numLegs && |d.targets| == d.numLegs &&
      (forall j :: 0 <= j < |d.picks| ==> d.picks[j] < n) &&
      (forall j, j' :: 0 <= j < j' < |d.picks| ==> d.picks[j] != d.picks[j']) &&
      (forall j :: 0 <= j < |d.targets| ==> 20.0 <= d.targets[j] <= 40.0))
  }

  /** The extension commands of a cycle: each sampled corner with its target. */
  function Extensions(corners: seq<Coord>, picks: seq<nat>, targets: seq<real>): (r: seq<(Coord, real)>)
    requires |picks| == |targets| && forall j :: 0 <= j < |picks| ==> picks[j] < |corners|
    ensures |r| == |picks|
    ensures forall j :: 0 <= j < |r| ==> r[j].0 in corners && r[j].1 == targets[j]
    ensures Distinct(corners) && (forall j, j' :: 0 <= j < j' < |picks| ==> picks[j] != picks[j']) ==>
      forall j, j' :: 0 <= j < j' < |r| ==> r[j].0 != r[j'].0
  {
    seq(|picks|, j requires 0 <= j < |picks| => (corners[picks[j]], targets[j]))
  }

  /** The retraction commands: every corner of the list, in list order, to 0. */
  function Retractions(corners: seq<Coord>): seq<(Coord, real)>
  {
    seq(|corners|, j requires 0 <= j < |corners| => (corners[j], 0.0))
  }

  /** After the retractions, every corner of the list has 0 as its last
      target, and no other corner has a target. */
  lemma {:induction false} RetractionsTargetZero(corners: seq<Coord>, pos: Coord)
    ensures WorldCube.LastTargetFor(Retractions(corners), pos) == if pos in corners then Some(0.0) else None
  {
    if |corners| > 0 {
      var n := |corners| - 1;
      RetractionsTargetZero(corners[..n], pos);
      assert Retractions(corners)[..n] == Retractions(corners[..n]);
      assert pos in corners <==> pos in corners[..n] || pos == corners[n];
    }
  }

  /** run_legs_only_cycle: per cycle, extend the sampled corners, then
      retract every corner of the list.  A cycle that asks for more legs than
      there are corners raises ValueError (earlier cycles have run); after a
      completed run every leg of a listed corner is at 0 and every other leg
      is untouched. */
  method LegsOnlyCycle(cube: WorldCube.RubiksCube, corners: seq<Coord>, draws: seq<CycleDraw>)
    returns (err: Option<PyError>)
    requires cube.Valid()
    requires forall c :: 0 <= c < |draws| ==> IsCycleDraw(draws[c], |corners|)
    modifies cube.legs
    ensures cube.Valid()
    ensures err.Some? <==> exists c :: 0 <= c < |draws| && draws[c].numLegs > |corners|
    ensures err.Some? ==> err == Some(ValueError)
    ensures forall i :: 0 <= i < 8 && WorldCube.CornerPositions[i] !in corners ==>
      cube.legs[i].extension == old(cube.legs[i].extension)
    ensures err.None? && |draws| > 0 ==> forall i :: 0 <= i < 8 && WorldCube.CornerPositions[i] in corners ==>
      cube.legs[i].extension == 0.0
  {
    for c := 0 to |draws|
      invariant cube.Valid()
      invariant forall c' :: 0 <= c' < c ==> draws[c'].numLegs <= |corners|
      invariant forall i :: 0 <= i < 8 && WorldCube.CornerPositions[i] !in corners ==>
        cube.legs[i].extension == old(cube.legs[i].extension)
      invariant c > 0 ==> forall i :: 0 <= i < 8 && WorldCube.CornerPositions[i] in corners ==>
        cube.legs[i].extension == 0.0
    {
      var d := draws[c];
      if d.numLegs > |corners| {
        return Some(ValueError);
      }
      var extensions := Extensions(corners, d.picks, d.targets);
      IssueExtensions(cube, extensions);
      var retractions := Retractions(corners);
      forall i | 0 <= i < 8 {
        RetractionsTargetZero(corners, WorldCube.CornerPositions[i]);
      }
      IssueExtensions(cube, retractions);
    }
    err := None;
  }

  /** The leg list of one move of run_random_animation: one entry per drawn
      leg, each a random.choice of the corner list (IndexError when the list
      is empty) with its uniform target. */
  method RandomLegExtensions(corners: seq<Coord>, picks: seq<nat>, targets: seq<real>)
    returns (r: Result<seq<(Coord, real)>>)
    requires |picks| == |targets| > 0
    requires |corners| > 0 ==> forall j :: 0 <= j < |picks| ==> picks[j] < |corners|
    ensures r.Err? <==> |corners| == 0
    ensures r.Err? ==> r.error == IndexError
    ensures r.Ok? ==>
      |r.value| == |picks| &&
      forall j :: 0 <= j < |r.value| ==> r.value[j].0 in corners && r.value[j] == (corners[picks[j]], targets[j])
  {
    var legExtensions: seq<(Coord, real)> := [];
    for j := 0 to |picks|
      invariant |corners| == 0 ==> j == 0
      invariant |corners| > 0 ==> |legExtensions| == j
      invariant |corners| > 0 ==> forall t :: 0 <= t < j ==> legExtensions[t] == (corners[picks[t]], targets[t])
    {
      if |corners| == 0 {
        return Err(IndexError);
      }
      legExtensions := legExtensions + [(corners[picks[j]], targets[j])];
    }
    r := Ok(legExtensions);
  }

  /** One move of run_random_animation: randint(1, 3) legs with uniform(0, 30)
      targets, then rotate_face_with_leg_extensions with 30 steps on a face
      drawn from the faces table.  The targets already lie within the leg's
      travel, so every listed corner ends exactly at its last drawn target. */
  method RandomMove(cube: WorldCube.RubiksCube, face: string, clockwise: bool, corners: seq<Coord>,
                    picks: seq<nat>, targets: seq<real>)
    returns (err: Option<PyError>, legExtensions: seq<(Coord, real)>)
    requires cube.Valid()
    requires WorldCube.FaceAxis(face).Some?
    requires 1 <= |picks| <= 3 && |targets| == |picks|
    requires |corners| > 0 ==> forall j :: 0 <= j < |picks| ==> picks[j] < |corners|
    requires forall j :: 0 <= j < |targets| ==> 0.0 <= targets[j] <= WorldCube.MAX_EXTENSION
    modifies cube.parts, cube.legs
    ensures cube.Valid()
    ensures err.Some? <==> |corners| == 0
    ensures err.Some? ==> err == Some(IndexError)
    ensures err.Some? ==>
      cube.parts[..] == old(cube.parts[..]) &&
      forall i :: 0 <= i < 8 ==> cube.legs[i].extension == old(cube.legs[i].extension)
    ensures err.None? ==>
      var axis := WorldCube.FaceAxis(face).value;
      cube.parts[..] == WorldCube.TurnParts(cube.root, old(cube.parts[..]), WorldCube.FaceSelection(cube.root, old(cube.parts[..]), axis),
                                            WorldCube.FacePivot(axis, clockwise))
    ensures err.None? ==>
      1 <= |legExtensions| <= 3 &&
      (forall j :: 0 <= j < |legExtensions| ==> legExtensions[j].0 in corners) &&
      forall i :: 0 <= i < 8 ==>
        cube.legs[i].extension == match WorldCube.LastTargetFor(legExtensions, WorldCube.CornerPositions[i])
                                  case None => old(cube.legs[i].extension)
                                  case Some(t) => t
  {
    var drawn := RandomLegExtensions(corners, picks, targets);
    if drawn.Err? {
      return Some(IndexError), [];
    }
    legExtensions := drawn.value;
    forall i | 0 <= i < 8 && WorldCube.LastTargetFor(legExtensions, WorldCube.CornerPositions[i]).Some?
      ensures 0.0 <= WorldCube.LastTargetFor(legExtensions, WorldCube.CornerPositions[i]).value <= WorldCube.MAX_EXTENSION
    {
      WorldCube.LastTargetForIsLast(legExtensions, WorldCube.CornerPositions[i]);
    }
    var frames;
    err, frames := cube.RotateFaceWithLegExtensions(face, clockwise, legExtensions, 30);
  }
}
