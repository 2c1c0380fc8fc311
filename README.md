# Telescoping-leg Rubik's cube: a verified model

The FreeCAD scripts of this repository build and animate a 3×3×3 twisty cube.
Its eight corner cubelets carry telescoping legs: an outer tube fixed along
the corner's diagonal and an inner rod that slides out of it by up to 30 mm.
This project models the bookkeeping behind those scenes in Dafny and proves
what the scripts rely on:

- **Grid** (`grid.dfy`) — integer grid coordinates in {-1, 0, 1}³ and the
  classification into centre, edge and corner by the number of zero
  components. It also holds the exact quarter turns about the three axes, and
  the proof that a face turn permutes the 26 cells.
- **Vectors** (`vectors.dfy`) — real 3-vectors, 3×3 matrices and rigid
  placements: the arithmetic FreeCAD's `Vector`, `Rotation` and `Placement`
  perform.
- **TelescopingTurn** (`telescoping_turn.dfy`, animate_with_telescoping.py) —
  a face turn. It selects a layer by grid coordinate, retargets and steps the
  corner legs of that layer, turns it by exactly 90 degrees, and re-derives
  every grid coordinate by rounding.
- **WorldCube** (`world_cube.dfy`, Cube_OO_worldcoords.py) — the
  object-oriented cube, with the `TelescopingLeg` and `RubiksCube` classes:
  - leg geometry, clamping and tip positions;
  - the position codes;
  - face selection by world position;
  - the pivot turn and its write-back;
  - the stepwise leg animations.
- **Docking** (`docking.dfy`, Two_Cubes_OO_grids_anim.py) — a second cube
  docked tip to tip on a leg of the first. This covers the load-placement
  formula, load tracking during leg moves and face turns, and the toggle and
  push rules of the animation control.
- **FaceTables** (`face_tables.dfy`, magic_cube_with_legs.py) — the named
  position tables, the face-to-cubelet-name map and the face axes.
- **MagicAnimation** (`magic_animation.dfy`, animate_magic_cube.py) —
  rebuilding the cube's object lists from object names, selecting cubelets by
  position, tracking face centres and corners through a turn, and spinning
  shapes about an axis.
- **CubeAssembly** (`assembly.dfy`, Cube.py) — the assembly generator:
  - corner-leg point arithmetic;
  - the corner-colour choice;
  - the part tables;
  - leg-property initialisation;
  - grid tagging.
- **Rebuild** (`rebuild.dfy`, Cube_anim_OO_grids.py and
  Cube_anim_OO_worldcoords.py) — refilling the cube's three dictionaries from
  an existing document, the first-inner-rod search, the legs-only cycle, and
  the leg list of a random move.

Modelling choices used throughout:

- Lengths are Dafny `real`s.
- The unit corner diagonal (1, 1, 1)/√3 is a vector scaled by a parameter
  `k` with `k > 0` and `3k² = 1`.
- Rotations are exact matrices.
- Python exceptions the scripts can raise (KeyError, ZeroDivisionError,
  IndexError, ValueError) are returned as values, and the state is left as
  it was.
- Random draws are parameters, with the draw's range as a precondition.

## Model

| member | source | states |
|---|---|---|
| TelescopingTurn.GetCornerCubelets | animate_with_telescoping.py:70-82 | selects exactly the pieces whose three grid coordinates all have absolute value 1, in list order |
| TelescopingTurn.CornerGridIsCornerKind | animate_with_telescoping.py:76-79 | on the lattice, "all three coordinates are ±1" is exactly the corner class (no zero component) |
| TelescopingTurn.FaceCheck | animate_with_telescoping.py:90-97 | the face_checks table names one grid attribute and a value of +1 or -1 for each of R, L, U, D, F, B |
| TelescopingTurn.FaceCubeletsByGrid | animate_with_telescoping.py:85-108 | selects exactly the pieces whose checked grid attribute equals the face's value, in list order; an unknown face selects nothing |
| TelescopingTurn.RotationAxis | animate_with_telescoping.py:111-121 | R/L turn about x, U/D about y, F/B about z; an unknown face falls back to z |
| TelescopingTurn.Round | animate_with_telescoping.py:185-187 | Python's round: within one half of the value, ties to the even neighbour |
| TelescopingTurn.RoundInteger | animate_with_telescoping.py:197-200 | rounding an integer gives it back |
| TelescopingTurn.SnapPosition | animate_with_telescoping.py:185-187 | ZeroDivisionError exactly when the spacing is zero |
| TelescopingTurn.SnapIsNearest | animate_with_telescoping.py:185-187 | the snapped value is at most half a spacing away from the value |
| TelescopingTurn.SnapIdempotent | animate_with_telescoping.py:185-187 | snapping twice is snapping once |
| TelescopingTurn.GridOfWorld | animate_with_telescoping.py:190-200 | rounding world position / SPACING recovers the grid coordinate of a piece at grid·SPACING |
| TelescopingTurn.RegridAll | animate_with_telescoping.py:190-200 | every piece, and only its grid, is re-derived from its world position |
| TelescopingTurn.Retarget | animate_with_telescoping.py:255-266 | within 2 mm of its target a leg gets target 30 if its extension is below 15 in absolute value, else 0, and the drawn speed; otherwise it is unchanged |
| TelescopingTurn.Movement | animate_with_telescoping.py:268-271 | the movement has the sign of target − current, is at most the speed and at most the remaining distance, and covers the distance when the speed allows |
| TelescopingTurn.MovementStaysInRange | animate_with_telescoping.py:268-271 | a leg in [0, 30] moving toward a target in [0, 30] stays in [0, 30] |
| TelescopingTurn.RetargetedLegMoves | animate_with_telescoping.py:255-274 | a leg that has reached its target moves at least LEG_SPEED_MIN on its next turn, so it always animates |
| TelescopingTurn.SteppedComplete | animate_with_telescoping.py:288-302 | the 30 per-step rod translations add up to exactly diagonal·movement, and the extension grows by the movement once |
| TelescopingTurn.QuarterTurnPlacementOnGrid | animate_with_telescoping.py:241-247 | a piece at grid·SPACING is turned by the pivot to the quarter-turned grid point |
| TelescopingTurn.LegStepInRange | animate_with_telescoping.py:250-302 | after planning and stepping, extension and target stay in [0, 30] |
| TelescopingTurn.TurnPieceGrid | animate_with_telescoping.py:284-286 | a piece of the layer lands exactly on the quarter-turned grid coordinate and stays consistent |
| TelescopingTurn.RegridConsistent | animate_with_telescoping.py:190-200 | re-gridding a piece that sits at its grid position changes nothing |
| TelescopingTurn.AfterTurnGrids | animate_with_telescoping.py:203-323 | a turn moves grid coordinates as the integer face turn does (layer pieces quarter-turned about the face axis, their axis coordinate kept); an unknown face changes nothing |
| TelescopingTurn.OutsideLayerUntouched | animate_with_telescoping.py:214-219 | a piece outside the turning layer is left exactly as it was |
| TelescopingTurn.TurnKeepsArrangement | animate_with_telescoping.py:284-323 | the grid coordinates stay a permutation of the 26 cells |
| TelescopingTurn.TurnThenBack | animate_with_telescoping.py:241-244 | a clockwise turn followed by a counter-clockwise turn of the same face restores every grid coordinate |
| TelescopingTurn.FourTurnsRestore | animate_with_telescoping.py:241-244 | four same-direction turns of a face restore every grid coordinate |
| TelescopingTurn.TurnLegEffect | animate_with_telescoping.py:273-302 | an animated leg's rod base moves by diagonal·movement and its extension by the movement, exactly once; a leg that does not animate is only retargeted |
| TelescopingTurn.Assembly.UpdateGridPositions | animate_with_telescoping.py:190-200 | the cubelet array becomes the re-gridded old array |
| TelescopingTurn.Assembly.PlanLegs | animate_with_telescoping.py:250-274 | the selected legs are retargeted and nothing else changes; the animated pieces and their movements are listed in selection order, and every selected piece that animates is among them |
| TelescopingTurn.Assembly.TelescopeSteps | animate_with_telescoping.py:285-302 | each animated piece becomes its leg telescoped by its movement; every other piece is unchanged |
| TelescopingTurn.Assembly.RotateSelected | animate_with_telescoping.py:284-286 | the selected placements are quarter-turned about the origin; the others are unchanged |
| TelescopingTurn.Assembly.AnimateFaceRotationWithTelescoping | animate_with_telescoping.py:203-323 | the cubelet array becomes AfterTurn of the old array, whose grids, legs and arrangement the lemmas above describe |
| WorldCube.Clamp | Cube_OO_worldcoords.py:97 | the result is in [0, 30], equals the input inside that range, and is 0 below it and 30 above it |
| WorldCube.ClampIdempotent | Cube_OO_worldcoords.py:97 | clamping twice is clamping once |
| WorldCube.ClampMonotone | Cube_OO_worldcoords.py:97 | clamping keeps the order of two extensions |
| WorldCube.CornerDiagonalIsUnit | Cube_OO_worldcoords.py:32-33 | the normalised diagonal (1/√3)·position of a corner is a unit vector |
| WorldCube.RodStartFromCorner | Cube_OO_worldcoords.py:39-45 | the rod starts 8 mm out along the diagonal from the corner point (−15 + 30 − 10 + 3) |
| WorldCube.TipFromCorner | Cube_OO_worldcoords.py:55-70 | the local tip sits 63 + extension along the diagonal from the corner point |
| WorldCube.TipShift | Cube_OO_worldcoords.py:55-70 | changing the extension by e moves the local tip by diagonal·e |
| WorldCube.TipDistance | Cube_OO_worldcoords.py:55-70 | along a unit diagonal the tip is 50 + extension + 5 from the rod start |
| WorldCube.TelescopingLeg.constructor | Cube_OO_worldcoords.py:22-49 | a new leg has extension and target 0 and no rod object; tube and rod starts follow the corner geometry |
| WorldCube.TelescopingLeg.CreateInnerRod | Cube_OO_worldcoords.py:206-235 | the rod object's base is the rod start; extension and target are unchanged |
| WorldCube.TelescopingLeg.TipPositionLocal | Cube_OO_worldcoords.py:55-70 | the tip is rod start + diagonal·(50 + extension + 5) |
| WorldCube.TelescopingLeg.TipPositionWorld | Cube_OO_worldcoords.py:72-88 | the world tip is the cubelet's global base plus its rotation applied to the local tip |
| WorldCube.TelescopingLeg.SetExtension | Cube_OO_worldcoords.py:90-106 | the extension becomes the clamped value and the rod, when present, moves to rod start + diagonal·extension; the target is untouched |
| WorldCube.TelescopingLeg.AnimateTo | Cube_OO_worldcoords.py:513-524 | the frames are the clamped interpolations from the old extension, and the leg ends at the clamped target |
| WorldCube.WorldTipShift | Cube_OO_worldcoords.py:72-88 | changing the extension moves the world tip by the rotated diagonal times the change |
| WorldCube.PositionCode | Cube_OO_worldcoords.py:128-135 | three letters: R exactly when x > 0 (else L), U exactly when y > 0 (else D), F exactly when z > 0 (else B) |
| WorldCube.PositionCodeInjective | Cube_OO_worldcoords.py:128-135 | different corners get different codes |
| WorldCube.PositionCodeExample | Cube_OO_worldcoords.py:125-135 | example: corner (1, 1, 1) is RUF and (−1, −1, −1) is LDB |
| WorldCube.AllPositions | Cube_OO_worldcoords.py:264-339 | 26 pieces: eight corners, twelve edges, six centres |
| WorldCube.CreationFillsCells | Cube_OO_worldcoords.py:264-339 | creation puts exactly one piece on each of the 26 cells, and each table holds pieces of its own kind |
| WorldCube.CellKeyInjective | Cube_OO_worldcoords.py:296-339 | the numbering of lattice points is one to one, so the dictionary keys of distinct cells differ |
| WorldCube.CornerIndex | Cube_OO_worldcoords.py:341-343 | a position is a key of corner_cubelets exactly when it is a corner, and the lookup finds the corner created there |
| WorldCube.CornerKeys | Cube_OO_worldcoords.py:330-339 | the corner dictionary's keys are exactly the eight corner positions |
| WorldCube.FaceAxis | Cube_OO_worldcoords.py:255-262 | every face of the table has a signed unit axis (L, D and B negative); any other name is a KeyError |
| WorldCube.LayerMatchesAxis | Cube_OO_worldcoords.py:382-395 | each face's layer lambda agrees with the coordinate and target _get_face_cubelets derives from the axis |
| WorldCube.FaceSelection | Cube_OO_worldcoords.py:382-425 | selects exactly the pieces whose current world coordinate along the axis is within 0.1 of axis·SPACING, corners then edges then centres |
| WorldCube.FaceSelectionIsLayer | Cube_OO_worldcoords.py:382-425 | with the cube at the origin and each piece at grid·SPACING, the world-position test picks exactly the face's layer |
| WorldCube.FacePivot | Cube_OO_worldcoords.py:459-475 | the pivot fixes the face centre axis·SPACING |
| WorldCube.FacePivotAtOrigin | Cube_OO_worldcoords.py:459-475 | the face centre lies on the turning axis, so the pivot is the pure quarter turn about the origin |
| WorldCube.TurnFixesFaceCentre | Cube_OO_worldcoords.py:459-475 | the quarter turn about a face axis fixes that face's centre |
| WorldCube.WriteBackKeepsWorld | Cube_OO_worldcoords.py:478-488 | the corrected write-back keeps every point of the piece where the pivot put it in the world |
| WorldCube.WriteBackAsWrittenAtOrigin | Cube_OO_worldcoords.py:478-488 | while the cube is at the origin, storing the global placement as the local one is correct |
| WorldCube.WriteBackAsWrittenDisplaces | Cube_OO_worldcoords.py:478-488 | for a translated cube the stored global placement displaces each turned piece by the cube's own offset |
| WorldCube.WriteBackUndone | Cube_OO_worldcoords.py:473-488 | with the corrected write-back, turning a face one way and then the other puts every piece back |
| WorldCube.TurnParts | Cube_OO_worldcoords.py:478-488 | each selected piece takes its global placement in the pivot (root·pivot·local) as its new local placement; the others keep their placements |
| WorldCube.TurnPartsOnGrid | Cube_OO_worldcoords.py:427-494 | a face turn of a cube at the origin moves a layer piece's position as the integer face turn moves its grid coordinate; other pieces stay |
| WorldCube.WriteBackOnGrid | Cube_OO_worldcoords.py:473-488 | a piece at grid·SPACING written back from a face pivot lands at the world position of its turned grid coordinate |
| WorldCube.InterpolateEndsAtTarget | Cube_OO_worldcoords.py:513-518 | the last of the interpolated steps lands exactly on the target |
| WorldCube.InterpolateBetween | Cube_OO_worldcoords.py:513-518 | every interpolated step lies between the start and the target |
| WorldCube.LegFramesBetween | Cube_OO_worldcoords.py:513-524 | every frame is between the clamped start and the clamped target, and a full animation ends on the clamped target |
| WorldCube.LastTarget | Cube_OO_worldcoords.py:595-596 | a corner has a final target exactly when some planned animation names it |
| WorldCube.LastTargetIsLast | Cube_OO_worldcoords.py:595-596 | the final target is that of an animation for the corner after which no animation names it |
| WorldCube.LastTargetFor | Cube_OO_worldcoords.py:560-570 | a position has a final target exactly when some entry of the list names it |
| WorldCube.LastTargetForIsLast | Cube_OO_worldcoords.py:560-596 | the final target is the target of an entry for the position after which no entry names it |
| WorldCube.RubiksCube.constructor | Cube_OO_worldcoords.py:240-339 | every part at grid·SPACING, the cube at the origin, and one leg per corner with extension 0 and its rod placed |
| WorldCube.RubiksCube.GetCorner | Cube_OO_worldcoords.py:341-343 | finds a leg exactly for the eight corner positions, and it is the leg of that corner |
| WorldCube.RubiksCube.GetLegTipPosition | Cube_OO_worldcoords.py:345-358 | the world tip of the corner's leg under the cube and cubelet placements, or None for a non-corner |
| WorldCube.RubiksCube.SetLegExtension | Cube_OO_worldcoords.py:360-370 | only the named corner's leg takes the clamped extension; every other leg is unchanged |
| WorldCube.RubiksCube.CurrentFaceSelection | Cube_OO_worldcoords.py:382-425 | KeyError exactly for an unknown face, otherwise the world-position selection |
| WorldCube.RubiksCube.RotateFace | Cube_OO_worldcoords.py:427-494 | KeyError for an unknown face; an empty selection or a failure changes nothing; zero steps is a ZeroDivisionError; otherwise each selected part stores root·pivot·local as its new local placement (TurnParts), which for a cube at the origin is the exact quarter turn of its layer (TurnPartsOnGrid) |
| WorldCube.RubiksCube.WriteBackSelected | Cube_OO_worldcoords.py:478-488 | the loop leaves the part array equal to TurnParts of the old one under the cube's own placement |
| WorldCube.RubiksCube.AnimateLegExtension | Cube_OO_worldcoords.py:496-525 | nothing for an unknown corner; ZeroDivisionError exactly for a corner with zero steps; otherwise the frames are the clamped interpolations and only that corner's leg ends at the clamped target |
| WorldCube.RubiksCube.RotateFaceWithLegExtensions | Cube_OO_worldcoords.py:527-612 | KeyError for an unknown face, ZeroDivisionError for zero steps, otherwise the selected parts store root·pivot·local as in rotate_face (TurnParts), each listed corner ends at the clamped target of its last entry while unlisted legs stay, and the returned frames are the eight leg extensions after each of the steps: TurnFrames of the starting extensions, where a listed leg at step s is Clamp(start + (target − start)/steps·(s + 1)) for its last target and an unlisted leg keeps its start |
| WorldCube.RubiksCube.AnimateLegSteps | Cube_OO_worldcoords.py:575-583 | the step loop records, after each step, exactly the row TurnFrame of the starting extensions; legs without a planned animation keep their extension and no target changes |
| WorldCube.TurnFramesFollowLegFrames | Cube_OO_worldcoords.py:560-583 | leg i's column of the turn frames is that leg's own AnimateTo frame sequence toward its last target, or constant at its start when it is not listed |
| WorldCube.StepMatchesTurn | Cube_OO_worldcoords.py:560-583 | start + delta·(step + 1) of a leg's last planned animation, with delta = (target − start)/steps, is the interpolated extension toward its last target, and an unplanned leg keeps its start |
| WorldCube.LastAnim | Cube_OO_worldcoords.py:575-583 | the last planned animation of a corner exists exactly when the corner has a last target; it names that corner, belongs to the plan and carries that target |
| WorldCube.LastAnimAppend | Cube_OO_worldcoords.py:566-570 | appending an animation makes it the corner's last one, and leaves every other corner's last animation as it was |
| WorldCube.LegFramesAt | Cube_OO_worldcoords.py:513-524 | frame k of a leg animation is the clamped interpolation at step k, whatever the number of frames after it |
| WorldCube.RubiksCube.PlanLegAnims | Cube_OO_worldcoords.py:560-570 | one animation per listed existing corner, in list order, from the leg's current extension; its last-target function agrees with the list's |
| WorldCube.RubiksCube.StepLegAnims | Cube_OO_worldcoords.py:575-583 | after one step each leg with a planned animation is at Clamp(start + delta·(step + 1)) of its last planned animation (later entries override earlier ones); the other legs keep their extension and no target changes |
| WorldCube.RubiksCube.FinishLegAnims | Cube_OO_worldcoords.py:595-596 | each planned leg ends at the clamped target of its last animation; the others are unchanged |
| Docking.LoadSphereCentre | Two_Cubes_OO_grids_anim.py:64-71 | the one-radius step out along the anchor diagonal and the one-radius step back along the load diagonal cancel: the load sphere centre is the anchor sphere centre |
| Docking.LoadCubePosition | Two_Cubes_OO_grids_anim.py:41-81 | calculate_load_cube_position is the anchor sphere centre minus the load sphere offset, which is the point 116 mm out along the main diagonal from (50, 50, 50) |
| Docking.HomeSphereMatchesLeg | Two_Cubes_OO_grids_anim.py:57-58 | the hard-coded 58 is -LEG_OUTER_LENGTH/2 + (LEG_OUTER_LENGTH - LEG_OVERLAP + 3) + LEG_INNER_LENGTH, so corner point + (58 + e) along the diagonal is the leg's local tip pulled back by one sphere radius |
| Docking.LoadOffsetIsLegTip | Two_Cubes_OO_grids_anim.py:133-136 | the load tip offset written in the docking code is the load leg's own local tip for the same extension |
| Docking.FlipAlongDiagonal | Two_Cubes_OO_grids_anim.py:122-130 | the flipped load rotation maps any multiple of the anchor diagonal to the same multiple of the connection axis u |
| Docking.LoadAlongDiagonal | Two_Cubes_OO_grids_anim.py:133-135 | the load diagonal is minus the anchor diagonal, and the load corner point and corner cell lie on the anchor diagonal |
| Docking.RotatedLoadOffset | Two_Cubes_OO_grids_anim.py:136-139 | the rotated load tip offset is -(37.5k + 58 + e + radius)·u |
| Docking.LoadOpposesAnchor | Two_Cubes_OO_grids_anim.py:126-130 | the load rotation sends the load's (-1,-1,-1) diagonal to -u, opposing the anchor diagonal, and the (1,1,1) diagonal to u |
| Docking.LoadTipBeyondAnchorTip | Two_Cubes_OO_grids_anim.py:136-142 | with the returned placement the load tip lies exactly GAP_CORRECTION beyond the anchor tip along u |
| Docking.SqrtThree | Two_Cubes_OO_grids_anim.py:118 | with 3k² = 1, √3 is 3k |
| Docking.ExactGapIsCellOffset | Two_Cubes_OO_grids_anim.py:117-142 | with the gap SPACING·√3 in place of 43.3 the placement equals the one computed with the load corner cell's (-25,-25,-25) offset put back |
| Docking.DockedTipsMeet | Two_Cubes_OO_grids_anim.py:117-142 | with the exact gap, the load leg's world tip, computed through its corner cell, is the anchor tip |
| Docking.GapCorrectionApproximatesDiagonal | Two_Cubes_OO_grids_anim.py:118 | 43.3 is SPACING·√3 to within 0.01 mm |
| Docking.DockedSpheresTouch | Two_Cubes_OO_grids_anim.py:84-149 | with the exact gap, the two end-sphere centres are two radii apart along u, so the spheres touch |
| Docking.LoadTranslatesWithTip | Two_Cubes_OO_grids_anim.py:142-148 | moving the anchor tip by x along u moves the load base by x along u and leaves its rotation |
| Docking.LoadFollowsAnchorLeg | Two_Cubes_OO_grids_anim.py:330-346 | changing the anchor leg from e1 to e2 translates the load by (e2 - e1)·u without rotating it |
| Docking.BlueMoveAsWrittenOvershoots | Two_Cubes_OO_grids_anim.py:653-670 | as written, a target beyond 30 pushes the load (target - 30) further than the clamped leg grows |
| Docking.BlueMoveKeepsDocking | Two_Cubes_OO_grids_anim.py:645-670 | the push direction is u, and the corrected push puts the load where the tracking formula puts it for the leg's new extension |
| Docking.ToggleCycle | Two_Cubes_OO_grids_anim.py:588-593 | from home a press drives the leg to full extension, since the drawn target in [35, 40] clamps to 30, and the next press brings it back to 0 |
| Docking.UpdateLoadCubePosition | Two_Cubes_OO_grids_anim.py:84-149 | without a tracked cubelet nothing changes; otherwise the load placement is recomputed from the tracked cubelet's current placement and both legs' extensions |
| Docking.AnimateAnchorLegWithLoadTracking | Two_Cubes_OO_grids_anim.py:315-347 | ZeroDivisionError exactly for zero steps, with nothing moved; otherwise the frames are the interpolations, the load is re-placed after each frame, and the leg ends at the clamped target |
| Docking.TrackedLegStep | Two_Cubes_OO_grids_anim.py:334-338 | one frame: only the tracked leg changes, to the clamped value, and the load is at the tracking placement |
| Docking.SetLoadLeg | Two_Cubes_OO_grids_anim.py:655-661 | one push frame: only the load's (-1,-1,-1) leg changes, to the clamped value, and the load base is the given placement |
| Docking.RotateFaceWithLoadTracking | Two_Cubes_OO_grids_anim.py:152-219 | KeyError for an unknown face; an empty selection or an error changes nothing; zero steps is a ZeroDivisionError; otherwise the face turns as in rotate_face and the load follows the tracked cubelet |
| Docking.ProgressIsInterpolation | Two_Cubes_OO_grids_anim.py:271-278 | the docking script's per-step value initial + (target − initial)·((step + 1)/steps) equals the interpolation (target − initial)/steps·(step + 1) used by the cube's leg animations |
| Docking.TrackedFramesFollowProgress | Two_Cubes_OO_grids_anim.py:240-278 | in the frames of a tracked face turn, leg i at step s is Clamp(initial + (target − initial)·(s + 1)/steps) for its last listed target, and its initial extension when it is not listed |
| Docking.RotateWithLegsAndLoadTracking | Two_Cubes_OO_grids_anim.py:222-312 | as the tracked rotation; in addition each listed corner leg ends at the clamped target of its last entry, the other legs keep their extensions, and the returned frames are the leg extensions after each step (TurnFrames of the initial extensions, read per step by TrackedFramesFollowProgress); an unknown face or empty selection returns no frames |
| Docking.NewCubes | Two_Cubes_OO_grids_anim.py:467-486 | two fresh, distinct cubes at the origin with every leg at 0 |
| Docking.CreateScene | Two_Cubes_OO_grids_anim.py:451-495 | the anchor is at the origin with its (1,1,1) cubelet as the connection, and the load is at the tracking placement for both legs at home |
| Docking.AnimationControl.constructor | Two_Cubes_OO_grids_anim.py:518-522 | the dialog holds the two cubes and starts with a move count of 0 |
| Docking.AnimationControl.DoRotation | Two_Cubes_OO_grids_anim.py:558-577 | counts the move and turns the drawn face of the anchor without error; with no connection cubelet or an empty selection the load stays, otherwise it is re-placed on the tracked cubelet (LoadTracks) |
| Docking.AnimationControl.DoLegMovement | Two_Cubes_OO_grids_anim.py:579-609 | without a connection nothing changes; otherwise the move is counted, the red leg goes to the clamped toggle target and the load follows it |
| Docking.AnimationControl.DoBlueLegMovement | Two_Cubes_OO_grids_anim.py:611-676 | counts the move, sets the blue leg to the clamped toggle target and leaves the load base at initial + push·(target - start), the requested change, even where the leg stops at 30; the 20 returned frames are the leg's clamped extensions start + (target − start)·(s + 1)/20 (LegFrames over 20 steps), and the 20 tracked placements keep the rotation with base initial + push·(new − start) for the unclamped new extension of step s, the last equal to the final placement |
| Docking.BlueStepIsInterpolation | Two_Cubes_OO_grids_anim.py:653-655 | the push's per-step extension start + delta·(step + 1)/20 is the interpolation over 20 steps that the leg animations use |
| Docking.BlueLastStepIsTarget | Two_Cubes_OO_grids_anim.py:653-670 | the 20th step already requests the target, so the final write repeats the last frame |
| FaceTables.ParseFace | magic_cube_with_legs.py:358-359 | a key names a face exactly when it is that face's one letter |
| FaceTables.NameOfMatches | magic_cube_with_legs.py:181-241 | a cubelet name has one letter per non-zero coordinate, and the letter gives that coordinate's sign |
| FaceTables.NameOfInjective | magic_cube_with_legs.py:181-241 | two cells with the same name are the same cell |
| FaceTables.LetterIsLayer | magic_cube_with_legs.py:325-356 | a cubelet name contains a face's letter exactly when its cell lies on that face's layer |
| FaceTables.CenterTableNamed | magic_cube_with_legs.py:181-188 | each entry of center_positions is named by the rule and sits on a centre cell |
| FaceTables.EdgeTableNamed | magic_cube_with_legs.py:202-218 | each entry of edge_positions is named by the rule and sits on an edge cell |
| FaceTables.CornerTableNamed | magic_cube_with_legs.py:232-241 | each entry of corner_positions is named by the rule and sits on a corner cell |
| FaceTables.NamedPositionsMatchSigns | magic_cube_with_legs.py:181-241 | in all three tables the letters of each name match the signs of its coordinates (R/L for x, U/D for y, F/B for z) |
| FaceTables.FaceMap | magic_cube_with_legs.py:325-359 | face_map has an entry exactly for the six face letters |
| FaceTables.FaceMapCounts | magic_cube_with_legs.py:325-356 | every face lists one centre, four edges and four corners |
| FaceTables.FaceNamesOfCells | magic_cube_with_legs.py:325-356 | the i-th name a face lists is the name of the i-th cell it stands for |
| FaceTables.FaceCellsOnLayer | magic_cube_with_legs.py:325-356 | every listed cell is a cell of the face's layer |
| FaceTables.FaceListComplete | magic_cube_with_legs.py:325-356 | every cell of the face's layer is listed |
| FaceTables.FaceMapIsLayer | magic_cube_with_legs.py:325-356 | a face lists the cubelet of cell c exactly when c lies on the face's layer |
| FaceTables.FaceMapLetters | magic_cube_with_legs.py:325-356 | every name listed under a face contains the face's letter |
| FaceTables.OppositeFacesDisjoint | magic_cube_with_legs.py:325-356 | opposite faces (R/L, U/D, F/B) list no common name |
| FaceTables.OccurrencesAreLayers | magic_cube_with_legs.py:325-356 | the number of faces listing a cubelet is the number of face layers its cell lies on |
| FaceTables.OccurrencesByKind | magic_cube_with_legs.py:325-356 | each corner is listed under exactly three faces, each edge under two and each centre under one |
| FaceTables.Lookup | magic_cube_with_legs.py:364-377 | the objects of the listed names that are present, in list order; with every name present, exactly their objects |
| FaceTables.GetFaceCubelets | magic_cube_with_legs.py:314-379 | [] for an unknown face; otherwise at most nine objects, each the object of a name the face lists |
| FaceTables.FullFaceCubelets | magic_cube_with_legs.py:361-379 | with every listed name present the result is the centre, the four edges and the four corners, in table order |
| FaceTables.GetFaceAxis | magic_cube_with_legs.py:382-397 | an unknown face gives the axis (0,0,1) and the origin |
| FaceTables.FaceAxisOfLayer | magic_cube_with_legs.py:389-396 | each face's axis is the positive unit axis of its layer and its centre is the layer sign times CUBELET_SIZE along it |
| FaceTables.OppositeFacesShareAxis | magic_cube_with_legs.py:389-396 | R/L, U/D and F/B share their turning axis |
| FaceTables.FaceCentreCell | magic_cube_with_legs.py:181-188 | a face's centre point is where its own centre cubelet, the first one listed, was created |
| FaceTables.GetFaceAxisMatchesLayer | magic_cube_with_legs.py:382-397 | for a known face, the axis is the positive unit axis of the layer (shared with the opposite face) and the centre is the world position of the face's own centre cubelet |
| MagicAnimation.Put | animate_magic_cube.py:481-490 | a dictionary assignment: the map gets the new value; a new key is appended to the key order and an existing key keeps its place |
| MagicAnimation.Values | animate_magic_cube.py:119-121 | the values in key order, one per key, each value of the map and nothing else |
| MagicAnimation.KeyOf | animate_magic_cube.py:480 | the key is the text up to the first '_' of what follows the prefix: a prefix of it, free of '_', and followed by '_' when shorter |
| MagicAnimation.ClassifyNameExact | animate_magic_cube.py:477-490 | the if/elif chain never shadows a later branch: a name is filed under a group with key k exactly when it starts with that group's prefix and k is the field after it |
| MagicAnimation.SpiderByName | animate_magic_cube.py:477-478 | only the object named exactly "Spider" is the spider |
| MagicAnimation.CollectHas | animate_magic_cube.py:474-490 | a group holds key k exactly when some object's name files it under that group with key k |
| MagicAnimation.CollectLast | animate_magic_cube.py:474-490 | when a group holds key k, its value is the last object filed under k: later objects replace earlier ones |
| MagicAnimation.CollectSpiderHas | animate_magic_cube.py:474-478 | the spider entry is set exactly when some object is the spider |
| MagicAnimation.CollectSpiderLast | animate_magic_cube.py:474-478 | when set, the spider entry is the last object named "Spider" |
| MagicAnimation.GroupNamesAreObjects | animate_magic_cube.py:474-490 | every object filed in a group is an object of the document |
| MagicAnimation.LinkLegsSound | animate_magic_cube.py:494-523 | every leg entry comes from an inner leg whose corner key exists, joins that corner object to that inner leg, points along the normalised corner position, and the corner's tracked position is that position unnormalised |
| MagicAnimation.LinkLegsComplete | animate_magic_cube.py:494-496 | every inner leg whose corner key exists gets a leg entry |
| MagicAnimation.LinkLegsTracked | animate_magic_cube.py:516 | only corners with a leg entry are tracked |
| MagicAnimation.CollectObjects | animate_magic_cube.py:474-490 | the loop over the document's objects computes the first pass |
| MagicAnimation.LinkInnerLegs | animate_magic_cube.py:494-523 | the loop over the inner legs computes the leg list and the tracked positions |
| MagicAnimation.RebuildLegsAreObjects | animate_magic_cube.py:494-523 | every linked leg joins a corner and an inner leg that are objects of the document |
| MagicAnimation.RebuiltCentre | animate_magic_cube.py:59-96 | right after the rebuild, get_cubelet_center puts a corner at its Label2 position when it has one and at its shape centre otherwise, and any other cubelet at its shape centre |
| MagicAnimation.AtSlice | animate_magic_cube.py:126-145 | the result keeps exactly the cubelets whose current coordinate is strictly within the tolerance of the slice value, in order |
| MagicAnimation.CubeletsAtPositionOrder | animate_magic_cube.py:118-148 | the matching centres come first, then the matching edges, then the matching corners |
| MagicAnimation.LegsFor | animate_magic_cube.py:151-171 | exactly the (inner, direction) pairs of the legs whose corner object is among the cubelets |
| MagicAnimation.LegsForAppend | animate_magic_cube.py:165-170 | the legs come grouped by cubelet, in cubelet order |
| MagicAnimation.InnersAreObjects | animate_magic_cube.py:339-345 | the inner legs to rotate are objects of the document |
| MagicAnimation.FaceConfig | animate_magic_cube.py:271-284 | a face configuration exists exactly for the six face letters |
| MagicAnimation.SliceCentre | animate_magic_cube.py:296-302 | the rotation centre has the slice value at the axis index and 0 elsewhere |
| MagicAnimation.FaceConfigMatchesFaceAxis | animate_magic_cube.py:271-302 | the animation's axis and centre are get_face_axis's axis and centre, and its slice value is the face's layer sign times CUBELET_SIZE |
| MagicAnimation.AnglePerStep | animate_magic_cube.py:305 | angle / steps, a ZeroDivisionError exactly for zero steps |
| MagicAnimation.StepsMakeAngle | animate_magic_cube.py:305-313 | steps times angle_per_step is the requested angle |
| MagicAnimation.RotateAboutIsPivot | animate_magic_cube.py:241-247 | translate by -c, rotate, translate back is the pivot placement R·(p - c) + c |
| MagicAnimation.SpinFixesCentre | animate_magic_cube.py:241-247 | the rotation centre is a fixed point of any number of steps |
| MagicAnimation.SpinAdds | animate_magic_cube.py:313-345 | a steps followed by b steps is a + b steps |
| MagicAnimation.SpinKeepsSlice | animate_magic_cube.py:313-345 | a rotation about the slice axis keeps every point's coordinate along that axis, so turned cubelets and tracked corners stay in the slice |
| MagicAnimation.TurnedKeepsSlice | animate_magic_cube.py:313-345 | turning the selected objects any number of steps about the slice axis keeps every object's coordinate along that axis |
| MagicAnimation.SpinAllAppend | animate_magic_cube.py:315-345 | turning the names of one list and then of another is turning the names of both |
| MagicAnimation.TurnedStep | animate_magic_cube.py:313-345 | one more step of the loop is one more round of turns |
| MagicAnimation.SpinMore | animate_magic_cube.py:313-345 | n rounds of a steps and one more round make n + 1 rounds |
| MagicAnimation.TrackedFollowsShape | animate_magic_cube.py:315-336 | a tracked corner whose tracked position agreed with its shape centre before the turn still agrees after it |
| MagicAnimation.MagicCube.Rebuild | animate_magic_cube.py:449-530 | the dictionaries are the first pass over the document, and the legs and tracked positions are the second pass |
| MagicAnimation.MagicCube.CurrentCentres | animate_magic_cube.py:59-96 | every object of the document has a current centre |
| MagicAnimation.MagicCube.AnimateFaceRotation | animate_magic_cube.py:250-366 | an unknown face or an empty selection changes nothing; zero steps is a ZeroDivisionError; otherwise the selected cubelets and their inner legs are turned steps times about the slice centre and the tracked corners follow; given a step rotation about the face's axis, every shape and tracked corner keeps its coordinate along that axis |
| MagicAnimation.MagicCube.RotateSteps | animate_magic_cube.py:313-345 | the step loop turns cubelets and inner legs steps times, and the tracked positions of the cubelets with them; a rotation about the slice axis keeps every coordinate along that axis |
| MagicAnimation.MagicCube.SpinCubelets | animate_magic_cube.py:315-336 | one step turns each selected cubelet and, when tracked, its tracked position |
| MagicAnimation.MagicCube.SpinInners | animate_magic_cube.py:339-345 | one step turns each inner leg to rotate |
| CubeAssembly.CreateCornerLeg | Cube.py:65-111 | the diagonal, tube start and rod start are the object-oriented leg's: corner point minus half the tube along the diagonal, then LEG_OUTER_LENGTH - LEG_OVERLAP + 3 further along it |
| CubeAssembly.CornerLegAlongDiagonal | Cube.py:99-109 | on a corner the diagonal is a unit vector, the tube is centred on the cubelet's outer corner, the rod starts 23 mm along the tube and 7 mm of the 30 mm tube remain in front of it |
| CubeAssembly.FirstMaxUnique | Cube.py:127-139 | the first maximum of the dot products is unique, so the chosen colour is determined |
| CubeAssembly.GetCornerColor | Cube.py:114-141 | the colour of the first of X, Y, Z with strictly greatest dot product (ties go to the earlier axis), never the yellow start value |
| CubeAssembly.GetAdjacentFaces | Cube.py:152-157 | always the empty list |
| CubeAssembly.CornerCodesArePositionCodes | Cube.py:277-282 | the corner names of the table are the position codes the object-oriented corner derives from its coordinates |
| CubeAssembly.AssemblyKeys | Cube.py:233-284 | the parts are stored under the table positions, centres, then edges, then corners |
| CubeAssembly.AssemblyPositionsAreCells | Cube.py:233-282 | the 26 table positions are the 26 non-core cells of the grid, each once |
| CubeAssembly.AssemblyPositionsKinds | Cube.py:233-282 | the first 18 positions are centres and edges, the last 8 are the corners |
| CubeAssembly.PlacedKeys | Cube.py:242-351 | the dictionary holds exactly the keys stored in it |
| CubeAssembly.PlacedValue | Cube.py:242-351 | with distinct keys each key holds the part stored under it |
| CubeAssembly.CreateParts | Cube.py:233-351 | the three creation loops fill the dictionary with the table's parts, keys in insertion order |
| CubeAssembly.CreateCenters | Cube.py:242-250 | the centre loop stores the six centre parts under their positions |
| CubeAssembly.CreateEdges | Cube.py:265-271 | the edge loop stores the twelve edge parts under their positions |
| CubeAssembly.CreateCorners | Cube.py:284-351 | the corner loop stores the eight corner parts under their positions, each with LegStart and its inner rod base at rod_start - parent_pos |
| CubeAssembly.TagGrid | Cube.py:375-381 | every part gets its own key as GridX/Y/Z, and nothing else changes |
| CubeAssembly.GenerateAssembly | Cube.py:171-381 | the dictionary holds exactly the 26 cells, each with the part created for it and tagged with its own coordinate |
| CubeAssembly.AssemblyPart | Cube.py:284-381 | each part sits at grid·SPACING with GridX/Y/Z equal to its key; it has a leg exactly when it is a corner, and the leg starts retracted with target and speed 0, along the corner diagonal, with LegStart and the inner rod's base both rod_start - grid·SPACING |
| CubeAssembly.AssemblyParts | Cube.py:171-381 | the same for the whole dictionary: every cubelet is at its key and legs are on the eight corners only, all retracted |
| CubeAssembly.LegStartAsWrittenDisplaces | Cube.py:296-328 | as written, the rod lands at rod_start in the world frame, not at the corner's own rod start: it is displaced by minus the corner's position |
| CubeAssembly.LegStartAsWrittenBehindTube | Cube.py:307-328 | as written, on every corner the rod starts 75k - 23 (about 20.3 mm) behind its tube's start along the diagonal |
| CubeAssembly.LegStartContinuesTube | Cube.py:99-109 | the corrected leg start is the object-oriented leg's rod start, and in the world the rod starts 23 mm along the diagonal from the tube's start wherever the part is placed |
| Rebuild.FirstInnerRod | Cube_anim_OO_grids.py:141-144 | None exactly when no child's name contains "InnerRod"; otherwise a child whose name contains it, with none before it |
| Rebuild.FindInnerRod | Cube_anim_OO_worldcoords.py:97-100 | the loop that breaks at the first "InnerRod" child finds the first such child |
| Rebuild.ScanKeys | Cube_anim_OO_grids.py:129-152 | a position is a key of the corner, edge or centre dictionary exactly when some object with GridX carries it and it has no, exactly one, or more zero components; objects without GridX are in none |
| Rebuild.ScanExactlyOne | Cube_anim_OO_worldcoords.py:85-108 | every position an object with GridX carries is a key of exactly one of the three dictionaries |
| Rebuild.ScanCornerValues | Cube_anim_OO_grids.py:135-146 | a corner entry comes from the last object carrying its position, records that position, and holds the first "InnerRod" child of that object |
| Rebuild.ScanEdgeValues | Cube_anim_OO_grids.py:147-149 | an edge entry is the last object carrying its position |
| Rebuild.ScanCenterValues | Cube_anim_OO_grids.py:150-152 | a centre entry is the last object carrying its position, (0,0,0) included |
| Rebuild.CubeDictionaries.constructor | Cube_OO_worldcoords.py:240-253 | a new cube starts with three empty dictionaries |
| Rebuild.CubeDictionaries.RebuildFrom | Cube_anim_OO_grids.py:129-152 | the loop over the Group leaves the dictionaries equal to the scan of the whole Group |
| Rebuild.IssueExtensions | Cube_anim_OO_grids.py:40-42 | after animate_leg_extension for each command in turn, every leg some command names ends at the clamped target of the last such command and every other leg keeps its extension |
| Rebuild.Extensions | Cube_anim_OO_grids.py:36-42 | one command per sampled corner, each a listed corner with its drawn target; distinct picks give distinct corners |
| Rebuild.RetractionsTargetZero | Cube_anim_OO_grids.py:48-49 | after the retractions every listed corner has 0 as its last target and no other corner has a target |
| Rebuild.LegsOnlyCycle | Cube_anim_OO_grids.py:23-51 | ValueError exactly when some cycle asks for more legs than there are corners; legs of unlisted corners are untouched; after a completed run every listed corner's leg is at 0 |
| Rebuild.RandomLegExtensions | Cube_anim_OO_worldcoords.py:41-48 | IndexError exactly when the corner list is empty; otherwise one entry per drawn leg, each a listed corner with its drawn target |
| Rebuild.RandomMove | Cube_anim_OO_worldcoords.py:35-53 | IndexError exactly when there are no corners, and then the parts and legs are unchanged; otherwise the parts become TurnParts of the drawn face and every listed corner ends exactly at its last drawn target, which lies in [0, 30], while unlisted legs keep their extensions |
| Grid.Classify | Cube_anim_OO_grids.py:135-152 | corner exactly when no component is zero, edge exactly when one is, centre otherwise (the origin included) |
| Grid.Turn | animate_with_telescoping.py:241-244 | a quarter turn keeps the coordinate along its axis and the number of zero components, and maps the lattice and the 26 cells onto themselves |
| Grid.TurnInverse | animate_with_telescoping.py:241-244 | a quarter turn one way is undone by the quarter turn the other way |
| Grid.FourTurns | animate_with_telescoping.py:241-244 | four quarter turns the same way are the identity |
| Grid.TurnInjective | animate_with_telescoping.py:241-244 | distinct coordinates stay distinct under a quarter turn |
| Grid.TurnMatrixOnGrid | Cube_OO_worldcoords.py:473-475 | the exact rotation matrix moves the world position of a grid point to the world position of the turned grid point |
| Grid.QuarterTurnPlacementIsPivot | animate_with_telescoping.py:284-286 | turning a piece's placement by the quarter turn is composing it with the pivot at the origin |
| Grid.QuarterTurnPlacementInverse | animate_with_telescoping.py:241-244 | the opposite quarter turn restores the placement |
| Grid.TurnMatrixFixesAxis | Cube_OO_worldcoords.py:473-475 | points on the turning axis do not move, so the face centre stays where it is |
| Grid.SameElementsPermutation | animate_with_telescoping.py:284-286 | two duplicate-free lists with the same elements are permutations of each other |
| Grid.FaceTurn | animate_with_telescoping.py:284-286 | a face turn keeps a coordinate's component along the axis and its class, and maps cells to cells |
| Grid.FaceTurnInverse | animate_with_telescoping.py:241-244 | a face turn is undone by the turn of the same layer the other way |
| Grid.FaceTurnKeepsArrangement | animate_with_telescoping.py:284-323 | after a face turn the pieces still fill the 26 cells once each |
| Grid.FaceTurnPermutes | animate_with_telescoping.py:284-323 | a face turn permutes the list of grid coordinates |
| Vectors.Pivot | Cube_OO_worldcoords.py:466 | the pivot placement with base center - R·center leaves the centre fixed |
| Vectors.PivotRotatesAboutCenter | Cube_OO_worldcoords.py:466 | the pivot maps p to R·(p - center) + center, the rotation about the centre |
| Vectors.FlipFixesAxis | Two_Cubes_OO_grids_anim.py:129 | the half-turn 2uuᵀ - I about a unit axis u fixes u |
| Base.ContainsAt | Cube_anim_OO_grids.py:142 | Python's `in` on strings: the needle occurs in the text exactly when it occurs at some index |
| TelescopingTurn.Assembly.PlanOne | animate_with_telescoping.py:250-266 | one piece is retargeted and the other pieces are unchanged |
| TelescopingTurn.Assembly.PlanNext | animate_with_telescoping.py:248-274 | one iteration of the planning loop extends the planned prefix by one selected piece |

## Left out

- The FreeCAD document itself is not modelled: shape construction (boxes, cylinders, spheres, fuse, cut), `addObject`/`removeObject`, the pivot re-parenting, `recompute` and `getGlobalPlacement`. Placements are composed directly instead.
- Trigonometry is not modelled: `App.Rotation(axis, angle)` for arbitrary angles, the `acos`/`degrees` rod alignment (Cube_OO_worldcoords.py:189-199, Cube.py:335-349) and the sine-driven telescoping phase of animate_magic_cube.py (disabled in the script). Only exact quarter turns are built in; step rotations are matrices passed in as parameters.
- Intermediate pivot placements of a face turn (the pivot at angle_per_step·(step + 1)) are not modelled: the face-turn methods state the final placements. The leg extensions at every intermediate step are modelled: RotateFaceWithLegExtensions and RotateWithLegsAndLoadTracking return them as frames.
- Docking.RotateWithLegsAndLoadTracking: the load position after each intermediate step (update_load_cube_position inside the step loop) is not modelled, because it depends on the intermediate pivot placements; only the update after the final write-back is.
- `normalize()` and `sqrt` are not modelled: a corner diagonal is its position scaled by a parameter k with k > 0 and 3k² = 1, and other normalised vectors are a parameter function.
- Floating point is not modelled: lengths are exact reals, so rounding error and NaN do not arise. Python's `round` is modelled for ties (to even), but a world coordinate is only shown to round back to its grid value when it is an exact multiple of SPACING.
- Qt dialogs, button enabling, `App.Gui.updateGui`, `time.sleep`, printing and the infinite animation loops (with their KeyboardInterrupt handling) are left out. Random draws are parameters constrained to the ranges the scripts draw from.
- Single_Cube_OOP and Cube_OO_grids are not part of this model. The animation scripts and the docking script import their cube classes from them; WorldCube.RubiksCube (Cube_OO_worldcoords.py) stands in for both.
- Label2 strings are taken as already parsed into coordinates; the `try`/`except` fallback for a malformed Label2 is not modelled.
- `get_shape_center` (centre of mass, or bounding-box centre) is abstracted as one stored centre per shape.
- Several random-driven drivers are not modelled as loops; each is a sequence of calls to operations that are modelled:
  - run_rotations_only_cycle and run_combined_cycle in both cube scripts and in the docking script;
  - the docking script's run_legs_only_cycle;
  - perform_random_rotations, continuous_rotation and test_single_rotation in animate_magic_cube.py;
  - animate_random_moves in animate_with_telescoping.py.
- create_spider, create_cubelet, create_telescoping_leg and create_magic_cube (magic_cube_with_legs.py), and create_component, create_leg_tip_marker and create_mating_plane (Cube.py), build geometry only. Only their position tables and names are modelled.
- run_animation_guide.py only checks for files and prints instructions; it is not modelled.
- Rebuild.RandomMove: models one move of run_random_animation. The loop over num_moves moves is the same move repeated.
- Rebuild.LegsOnlyCycle: the corner list is a parameter (the corner dictionary's keys after the rebuild), and legs exist only on the eight lattice corners of WorldCube.RubiksCube. A listed position that is not one of them names no leg and changes nothing.
- Rebuild.CubeDictionaries.RebuildFrom: requires the three dictionaries to be empty, as RubiksCube.__init__ leaves them just before the rebuild loop runs.
- Docking.UpdateLoadCubePosition: the load cube always has its (-1,-1,-1) corner, so the "load corner not found" branch is not modelled. A missing anchor cubelet is modelled as `None`.
- MagicAnimation.MagicCube.AnimateFaceRotation: the check for a missing active document is not modelled. The step rotation App.Rotation(axis, angle_per_step) is a parameter, required to be a rotation about the face's axis (its row for that axis is the unit vector).
- MagicAnimation.MagicCube.CurrentCentres: states only that every object has a centre. Which centre get_cubelet_center picks is stated by MagicAnimation.RebuiltCentre, for the state right after the rebuild.

## Findings

The face-turn, blue-push and assembly operations model the code as written (they use the as-written member); the corrected member stands beside it with the intended property proved.

| source | as written | input that shows it | evidently intended | confidence | as-written member | corrected member |
|---|---|---|---|---|---|---|
| Cube_OO_worldcoords.py:478-488 | after a face turn each piece's global placement (cube · pivot · local) is stored as its new local placement | cube placed at (0, 10, 0), clockwise R turn: the edge that should end at world (25, 10, 25) ends at (25, 20, 25) | store the placement relative to the cube (pivot · local), so turned pieces stay where the pivot put them | not executed | WorldCube.WriteBackAsWritten, shown by WorldCube.WriteBackAsWrittenDisplaces | WorldCube.WriteBack, proved by WorldCube.WriteBackKeepsWorld |
| Two_Cubes_OO_grids_anim.py:653-670 | the load base is pushed by the requested extension change (target - start), although the leg clamps at 30 | blue leg at 0, drawn target 37: the leg grows by 30 mm but the load moves 37 mm | push by the change the leg actually makes, Clamp(target) - start, which keeps the load docked | not executed | Docking.BlueMoveAsWritten, shown by Docking.BlueMoveAsWrittenOvershoots | Docking.BlueMove, proved by Docking.BlueMoveKeepsDocking |
| Cube.py:307-328 | LegStart and the inner rod's base are rod_start - parent_pos, although rod_start is already in the corner's own frame | corner RUF (1, 1, 1): the rod starts about 20.3 mm behind the tube's start along the diagonal instead of 23 mm in front of it | use rod_start as it stands as the local leg start | not executed | CubeAssembly.LegStartAsWritten, shown by CubeAssembly.LegStartAsWrittenBehindTube | CubeAssembly.LegStart, proved by CubeAssembly.LegStartContinuesTube |
