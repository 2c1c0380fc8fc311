/** Integer grid coordinates of the 3x3x3 puzzle, the classification of a
    coordinate into centre, edge and corner, and the exact quarter turns
    about the three axes that every face turn applies to a coordinate.
    World position of a cell is its coordinate times SPACING; a pivot that
    turns by exactly 90 degrees therefore moves grid points to grid points. */
module Grid {
  import opened Vectors

  const SPACING: real := 25.0

  datatype Coord = Coord(x: int, y: int, z: int)

  predicate InLattice(c: Coord)
  {
    -1 <= c.x <= 1 && -1 <= c.y <= 1 && -1 <= c.z <= 1
  }

  /** One of the 26 cells a piece can occupy (the middle is the fixed core). */
  predicate IsCell(c: Coord)
  {
    InLattice(c) && c != Coord(0, 0, 0)
  }

  function ZeroCount(c: Coord): (n: nat)
    ensures n <= 3
  {
    (if c.x == 0 then 1 else 0) + (if c.y == 0 then 1 else 0) + (if c.z == 0 then 1 else 0)
  }

  datatype Kind = Center | Edge | Corner

  /** The classification the rebuild loops use: no zero component is a corner,
      exactly one zero is an edge, anything else (including the origin) a centre. */
  function Classify(c: Coord): (k: Kind)
    ensures k == Corner <==> ZeroCount(c) == 0
    ensures k == Edge <==> ZeroCount(c) == 1
    ensures k == Center <==> ZeroCount(c) >= 2
  {
    if c.x != 0 && c.y != 0 && c.z != 0 then Corner
    else if ZeroCount(c) == 1 then Edge
    else Center
  }

  datatype Axis = X | Y | Z

  function Component(c: Coord, a: Axis): int
  {
    match a
    case X => c.x
    case Y => c.y
    case Z => c.z
  }

  /** +90 degrees about the positive axis, by the right-hand rule. */
  function QuarterTurn(a: Axis, c: Coord): Coord
  {
    match a
    case X => Coord(c.x, -c.z, c.y)
    case Y => Coord(c.z, c.y, -c.x)
    case Z => Coord(-c.y, c.x, c.z)
  }

  /** -90 degrees about the positive axis. */
  function QuarterTurnBack(a: Axis, c: Coord): Coord
  {
    match a
    case X => Coord(c.x, c.z, -c.y)
    case Y => Coord(-c.z, c.y, c.x)
    case Z => Coord(c.y, -c.x, c.z)
  }

  /** A quarter turn about the positive axis `a`: +90 when `positive`, else -90. */
  function Turn(a: Axis, positive: bool, c: Coord): (r: Coord)
    ensures Component(r, a) == Component(c, a)
    ensures InLattice(c) <==> InLattice(r)
    ensures IsCell(c) <==> IsCell(r)
    ensures ZeroCount(r) == ZeroCount(c)
  {
    if positive then QuarterTurn(a, c) else QuarterTurnBack(a, c)
  }

  /** A turn one way undone by the turn the other way, in either order. */
  lemma TurnInverse(a: Axis, positive: bool, c: Coord)
    ensures Turn(a, !positive, Turn(a, positive, c)) == c
    ensures Turn(a, positive, Turn(a, !positive, c)) == c
  {
  }

  /** Four quarter turns the same way are the identity. */
  lemma FourTurns(a: Axis, positive: bool, c: Coord)
    ensures Turn(a, positive, Turn(a, positive, Turn(a, positive, Turn(a, positive, c)))) == c
  {
  }

  lemma TurnInjective(a: Axis, positive: bool, c1: Coord, c2: Coord)
    ensures Turn(a, positive, c1) == Turn(a, positive, c2) ==> c1 == c2
  {
    TurnInverse(a, positive, c1);
    TurnInverse(a, positive, c2);
  }

  function ToVec(c: Coord): Vec3
  {
    Vec3(c.x as real, c.y as real, c.z as real)
  }

  /** Where a piece at grid coordinate `c` sits: `c * SPACING`. */
  function WorldOf(c: Coord): Vec3
  {
    Scale(ToVec(c), SPACING)
  }

  function UnitAxis(a: Axis): Coord
  {
    match a
    case X => Coord(1, 0, 0)
    case Y => Coord(0, 1, 0)
    case Z => Coord(0, 0, 1)
  }

  /** The exact rotation matrix of Turn(a, positive, _). */
  function TurnMatrix(a: Axis, positive: bool): Mat3
  {
    match a
    case X =>
      if positive then Mat3(Vec3(1.0, 0.0, 0.0), Vec3(0.0, 0.0, -1.0), Vec3(0.0, 1.0, 0.0))
      else Mat3(Vec3(1.0, 0.0, 0.0), Vec3(0.0, 0.0, 1.0), Vec3(0.0, -1.0, 0.0))
    case Y =>
      if positive then Mat3(Vec3(0.0, 0.0, 1.0), Vec3(0.0, 1.0, 0.0), Vec3(-1.0, 0.0, 0.0))
      else Mat3(Vec3(0.0, 0.0, -1.0), Vec3(0.0, 1.0, 0.0), Vec3(1.0, 0.0, 0.0))
    case Z =>
      if positive then Mat3(Vec3(0.0, -1.0, 0.0), Vec3(1.0, 0.0, 0.0), Vec3(0.0, 0.0, 1.0))
      else Mat3(Vec3(0.0, 1.0, 0.0), Vec3(-1.0, 0.0, 0.0), Vec3(0.0, 0.0, 1.0))
  }

  /** The matrix moves world positions of grid points exactly as the integer
      map moves the grid points. */
  lemma TurnMatrixOnGrid(a: Axis, positive: bool, c: Coord)
    ensures MatVec(TurnMatrix(a, positive), ToVec(c)) == ToVec(Turn(a, positive, c))
    ensures MatVec(TurnMatrix(a, positive), WorldOf(c)) == WorldOf(Turn(a, positive, c))
  {
    MatVecScale(TurnMatrix(a, positive), ToVec(c), SPACING);
  }

  /** An exact quarter turn of a placement about an axis through the origin:
      rows of the rotation and the base permuted and negated as the turn
      matrix prescribes. */
  function QuarterTurnPlacement(a: Axis, positive: bool, p: Placement): Placement
  {
    var r := p.rot;
    var b := p.base;
    match a
    case X =>
      if positive then Placement(Mat3(r.r0, Neg(r.r2), r.r1), Vec3(b.x, -b.z, b.y))
      else Placement(Mat3(r.r0, r.r2, Neg(r.r1)), Vec3(b.x, b.z, -b.y))
    case Y =>
      if positive then Placement(Mat3(r.r2, r.r1, Neg(r.r0)), Vec3(b.z, b.y, -b.x))
      else Placement(Mat3(Neg(r.r2), r.r1, r.r0), Vec3(-b.z, b.y, b.x))
    case Z =>
      if positive then Placement(Mat3(Neg(r.r1), r.r0, r.r2), Vec3(-b.y, b.x, b.z))
      else Placement(Mat3(r.r1, Neg(r.r0), r.r2), Vec3(b.y, -b.x, b.z))
  }

  /** It is the placement the pivot produces: the pivot at the origin turned
      by the quarter-turn matrix, composed with the piece's placement. */
  lemma {:induction false} QuarterTurnPlacementIsPivot(a: Axis, positive: bool, p: Placement)
    ensures QuarterTurnPlacement(a, positive, p) == Compose(Pivot(TurnMatrix(a, positive), Zero), p)
  {
    PivotAtOrigin(a, positive);
    TurnRowsBase(a, positive, p);
    TurnRows(a, positive, p);
  }

  lemma PivotAtOrigin(a: Axis, positive: bool)
    ensures Pivot(TurnMatrix(a, positive), Zero) == Placement(TurnMatrix(a, positive), Zero)
  {
  }

  lemma TurnRowsBase(a: Axis, positive: bool, p: Placement)
    ensures Add(Zero, MatVec(TurnMatrix(a, positive), p.base)) == QuarterTurnPlacement(a, positive, p).base
  {
  }

  lemma {:induction false} TurnRows(a: Axis, positive: bool, p: Placement)
    ensures MatMul(TurnMatrix(a, positive), p.rot) == QuarterTurnPlacement(a, positive, p).rot
  {
    var r := p.rot;
    var t := Transpose(r);
    assert MatVec(t, Vec3(1.0, 0.0, 0.0)) == r.r0;
    assert MatVec(t, Vec3(0.0, 1.0, 0.0)) == r.r1;
    assert MatVec(t, Vec3(0.0, 0.0, 1.0)) == r.r2;
    assert MatVec(t, Vec3(-1.0, 0.0, 0.0)) == Neg(r.r0);
    assert MatVec(t, Vec3(0.0, -1.0, 0.0)) == Neg(r.r1);
    assert MatVec(t, Vec3(0.0, 0.0, -1.0)) == Neg(r.r2);
  }

  /** The opposite quarter turn undoes it. */
  lemma QuarterTurnPlacementInverse(a: Axis, positive: bool, p: Placement)
    ensures QuarterTurnPlacement(a, !positive, QuarterTurnPlacement(a, positive, p)) == p
  {
  }

  /** Points on the turning axis do not move. */
  lemma TurnMatrixFixesAxis(a: Axis, positive: bool, k: real)
    ensures MatVec(TurnMatrix(a, positive), Scale(ToVec(UnitAxis(a)), k)) == Scale(ToVec(UnitAxis(a)), k)
  {
  }

  // ---------------------------------------------------------------------------
  // Arrangements: the 26 pieces occupy the 26 cells, one each.

  predicate Distinct<T(==)>(s: seq<T>)
  {
    forall i, j :: 0 <= i < j < |s| ==> s[i] != s[j]
  }

  /** Every cell is occupied by exactly one entry. */
  ghost predicate IsArrangement(s: seq<Coord>)
  {
    Distinct(s) && (forall i :: 0 <= i < |s| ==> IsCell(s[i])) && (forall c :: IsCell(c) ==> c in s)
  }

  lemma {:induction false} DistinctMultiplicity<T>(s: seq<T>, v: T)
    requires Distinct(s)
    ensures multiset(s)[v] == if v in s then 1 else 0
  {
    if |s| > 0 {
      assert s == [s[0]] + s[1..];
      assert Distinct(s[1..]);
      DistinctMultiplicity(s[1..], v);
      assert s[0] !in s[1..];
    }
  }

  /** Two duplicate-free sequences with the same elements are permutations of each other. */
  lemma SameElementsPermutation<T>(s: seq<T>, t: seq<T>)
    requires Distinct(s) && Distinct(t)
    requires forall v :: v in s <==> v in t
    ensures multiset(s) == multiset(t)
  {
    forall v ensures multiset(s)[v] == multiset(t)[v] {
      DistinctMultiplicity(s, v);
      DistinctMultiplicity(t, v);
    }
  }

  /** A face turn on one coordinate: cells of the layer `Component(c, a) == layer`
      take the quarter turn, every other cell stays. */
  function FaceTurn(a: Axis, layer: int, positive: bool, c: Coord): (r: Coord)
    ensures Component(r, a) == Component(c, a)
    ensures IsCell(c) <==> IsCell(r)
    ensures Classify(r) == Classify(c)
  {
    if Component(c, a) == layer then Turn(a, positive, c) else c
  }

  lemma FaceTurnInverse(a: Axis, layer: int, positive: bool, c: Coord)
    ensures FaceTurn(a, layer, !positive, FaceTurn(a, layer, positive, c)) == c
  {
    TurnInverse(a, positive, c);
  }

  function FaceTurnAll(a: Axis, layer: int, positive: bool, s: seq<Coord>): (r: seq<Coord>)
    ensures |r| == |s|
    ensures forall i :: 0 <= i < |s| ==> r[i] == FaceTurn(a, layer, positive, s[i])
  {
    seq(|s|, i requires 0 <= i < |s| => FaceTurn(a, layer, positive, s[i]))
  }

  /** A face turn carries an arrangement to an arrangement: after the turn
      the pieces still fill the 26 cells once each. */
  lemma {:induction false} FaceTurnKeepsArrangement(a: Axis, layer: int, positive: bool, s: seq<Coord>)
    requires IsArrangement(s)
    ensures IsArrangement(FaceTurnAll(a, layer, positive, s))
  {
    var r := FaceTurnAll(a, layer, positive, s);
    forall i, j | 0 <= i < j < |r| ensures r[i] != r[j] {
      FaceTurnInverse(a, layer, positive, s[i]);
      FaceTurnInverse(a, layer, positive, s[j]);
    }
    forall c | IsCell(c) ensures c in r {
      var b := FaceTurn(a, layer, !positive, c);
      FaceTurnInverse(a, layer, !positive, c);
      assert IsCell(b);
      var i :| 0 <= i < |s| && s[i] == b;
      assert r[i] == c;
    }
  }

  /** ... so the new coordinate list is a permutation of the old one. */
  lemma {:induction false} FaceTurnPermutes(a: Axis, layer: int, positive: bool, s: seq<Coord>)
    requires IsArrangement(s)
    ensures multiset(FaceTurnAll(a, layer, positive, s)) == multiset(s)
  {
    var r := FaceTurnAll(a, layer, positive, s);
    FaceTurnKeepsArrangement(a, layer, positive, s);
    forall v ensures v in s <==> v in r {
      if v in s {
        var i :| 0 <= i < |s| && s[i] == v;
        assert IsCell(r[i]);
      }
      if v in r {
        var i :| 0 <= i < |r| && r[i] == v;
        assert IsCell(v);
      }
    }
    SameElementsPermutation(r, s);
  }
}
