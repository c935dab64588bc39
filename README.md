# Volleyball tactics board: coordinate logic

A model, in Dafny, of the plain coordinate logic inside `main.js` of the
volleyball tactics board. The rest of that file builds a Three.js scene. The
model covers four pieces:

- **Court placement** (`clampToCourt`). A dragged player, the ball or the
  attack target is kept 0.4 inside the court lines and pinned to its drag
  height. A home-side object stays behind the net: at least 0.3 behind it,
  or 0.6 for the attack target. An away-side object stays at z >= 0.4.
  `Placement.Draggable` is the scene object whose position the method
  updates in place.
- **Block shadow** (`updateBlockShadow`). Each blocker casts a quadrilateral
  on the ground, seen from the ball. Its silhouette edges are 0.35 either
  side of the blocker, perpendicular to the line of sight. Its far corners
  are 12.5 further out along the rays from the ball through those edges.
  Blocker `i` rewrites shadow slot `i`. A blocker standing where the ball is
  (squared ground distance below 0.001) leaves its slot as it was.
- **Zone sizing** (the paint `pointermove` handler). A painted rectangle is
  at least 0.3 in each direction and centred on the midpoint of the drag.
  The centre is kept 0.2 inside the court.
- **Net layout** (the net-height `change` handler and start-up code). A zero
  or non-numeric height falls back to 2.43. The panel and both tapes are
  placed at fixed offsets from the height.

Coordinates are exact reals. x runs across the court and z along it. The net
stands at z = 0, and home is the z < 0 half. JavaScript's `Math.sqrt`, used by
`Vector3.normalize`, is passed in as a function `sqrt`. The only thing the
model assumes about it is `Vectors.IsSqrt`: on non-negative inputs it returns
a non-negative number whose square is the input.

Files: `wrappers.dfy` (Option), `court.dfy` (court size, min/max/clamp),
`vectors.dfy` (the `Vector3` operations used), `placement.dfy`,
`block_shadow.dfy`, `zones.dfy`, `net_layout.dfy`.

## Model

| member | source | states |
|---|---|---|
| `Vectors.NormalizeNonZero` | main.js:391-398 | `Vector3.normalize` of a non-zero vector divides it by its length, which is positive and squares to the squared length, and yields a unit vector |
| `Court.Clamp` | main.js:361-362 | `THREE.MathUtils.clamp`: the result is at least the lower bound and, for an ordered range, at most the upper one; a value inside is kept, one below gives the lower bound, one above the upper |
| `Placement.NetBuffer` | main.js:366 | the net buffer is positive, and is 0.6 exactly for the attack target (0.3 otherwise) |
| `Placement.ClampedPosition` | main.js:354-372 | x lies in [-4.1, 4.1] and z in [-8.6, 8.6]; y is the drag height, or 0 when none is set; a home target ends at z <= -0.6, another home object at z <= -0.3, an away object at z >= 0.4; an x already in range is kept, and so is an in-range z with no side rule |
| `Placement.ClampedIsOnCourt` | main.js:354-372 | the clamped position satisfies every placement rule (`OnCourt`), and a position is left unchanged exactly when it already satisfies them |
| `Placement.ClampIsNearest` | main.js:361-370 | each clamped coordinate is the nearest legal one: for any position that satisfies the placement rules, the clamped x and z are no further from the input's x and z than that position's are |
| `Placement.ClampIdempotent` | main.js:354-372 | clamping twice gives the same position as clamping once |
| `Placement.Draggable.ClampToCourt` | main.js:354-372 | the object's new position is `ClampedPosition` of its old one, and it is on the court |
| `Placement.Draggable.DragTo` | main.js:459-461 | a drag moves the object to the pointer point plus the grab offset at its drag height, then clamps it; the object ends on the court |
| `Placement.PlacedPlayerHeight` | main.js:244-250 | once a player is placed at its drag height, the bottom of its sprite (drawn `height` tall, centred on the position) is on the floor for a defender and exactly 0.35 above it for a blocker, whatever the height; a blocker's drag height is 0.35 above a defender's of the same height |
| `Placement.StartPositionsOnCourt` | main.js:257-312 | the start positions of the two blockers, four defenders, ball and target already satisfy the placement rules, so clamping does not move them |
| `BlockShadow.ShadowWedge` | main.js:378-401 | a blocker casts no shadow exactly when its squared ground distance to the ball is below 0.001; otherwise all four corners lie on the ground plane |
| `BlockShadow.UnitPerpendicular` | main.js:391-392 | the perpendicular `(-dir.z, 0, dir.x)` of the normalized line of sight is a unit vector, orthogonal to the line of sight and a quarter turn from it (cross product equal to the line-of-sight length) |
| `BlockShadow.OffsetLengthSq` | main.js:394-395 | moving a point off the line of sight by r along that unit perpendicular adds exactly r squared to its squared distance from the ball |
| `BlockShadow.WedgeShape` | main.js:391-401 | closed form of a wedge: the edges are the blocker's ground position plus or minus 0.35 times the unit perpendicular of the line of sight; each far point is its edge plus 12.5 times the unit ray from the ball through it; the ray from the ball to each edge is longer than the line of sight by exactly 0.35 squared (in squared length) |
| `BlockShadow.RayExtension` | main.js:397-401 | pushing a point 12.5 along the normalized ray from the ball through it moves it by a positive multiple of that ray, and by exactly 12.5 |
| `BlockShadow.WedgeEdges` | main.js:391-395 | both edge points lie exactly 0.35 from the blocker, on opposite sides of it, offset perpendicular to the ball-to-blocker direction; looking from the ball towards the blocker, edge A is right and edge B left of the line of sight |
| `BlockShadow.WedgeFarPoints` | main.js:397-401 | each far point lies exactly 12.5 beyond its edge, in the direction of the ray from the ball through that edge (zero cross product, positive dot product), on the same side of the line of sight as its edge |
| `BlockShadow.WedgeTriangles` | main.js:411-419 | the index buffer's two triangles (edgeA, edgeB, farB) and (farB, farA, edgeA) both have positive area and the same winding, so the quad has no fold |
| `BlockShadow.WedgeMesh` | main.js:411-419 | the vertex buffer holds edgeA, edgeB, farB, farA at height 0.02, in that order, and the six indices all point into it |
| `BlockShadow.SlotAfter` | main.js:384-422 | a blocker coincident with the ball leaves its slot's previous geometry; any other blocker's slot becomes exactly the mesh of that blocker's wedge (`WedgeMesh` of `ShadowWedge`), a four-vertex mesh with indices [0, 1, 2, 2, 3, 0] |
| `BlockShadow.CastShadow` | main.js:384-422 | one pass of the loop: slot `index` becomes `SlotAfter` of its previous content for this blocker, and every other slot is unchanged |
| `BlockShadow.UpdateBlockShadow` | main.js:378-424 | slot `i` for each blocker `i` becomes `SlotAfter` of its previous content; slots beyond the blockers are unchanged |
| `Zones.ZoneRect` | main.js:489-502 | width is max(0.3, the x extent of the drag) and height is max(0.3, the z extent), each stated as a bound attained by one of the two; the centre is exactly the drag's midpoint clamped to [-4.3, 4.3] x [-8.8, 8.8], at y = 0.021 |
| `Zones.ZoneRectSymmetric` | main.js:489-502 | dragging from a to b paints the same zone as dragging from b to a |
| `Zones.ZoneCoversDrag` | main.js:489-502 | while the drag's midpoint is inside the inset court, the zone is centred on it and covers both the start point and the current point |
| `Zones.ZoneSizeTranslationInvariant` | main.js:494-495 | shifting both drag points by the same vector leaves width and height unchanged |
| `NetLayout.NetHeight` | main.js:539 | `Number(value) \|\| 2.43`: NaN and zero give 2.43, any other number is kept; the height is never zero |
| `NetLayout.LayoutFor` | main.js:542-544 | the 1.0-high panel's top edge is at the net height; the top tape is 0.02 above the panel top and the bottom tape 0.03 above the panel bottom |
| `NetLayout.LayoutForInput` | main.js:538-552 | the panel laid out for any input is centred half a panel below the resulting net height, which is never zero; a non-numeric input (including the missing input element at start-up) puts the panel centre at 2.43 - 0.5 |
| `NetLayout.LayoutRigid` | main.js:542-544 | raising the net by d raises the panel and both tapes by d; the top tape is 0.52 above the panel centre and the bottom tape 0.47 below it |
| `NetLayout.LayoutInjective` | main.js:542-544 | two heights give the same layout exactly when they are equal |
| `NetLayout.DefaultLayoutIff` | main.js:538-545 | the layout for an input is the default layout exactly when the input is NaN, zero or 2.43 |
| `NetLayout.InitialLayoutIsDefault` | main.js:183-201 | the positions the net and tapes are built with are the layout for the default height 2.43 |

## Left out

- Scene, camera, lights, orbit controls, renderer and resize handling (main.js:22-65, 559-564): presentation only.
- Canvas drawing of the player sprites and the court and net textures (main.js:71-93, 143-171, 207-242): drawing, with no logic beyond constants. The drag height that `createPlayer` derives is modelled as `Placement.PlayerDragHeight`.
- Raycasting and pointer-to-world conversion (`worldPointFromEvent`, `setPointerFromEvent`, `intersectPlane`, the drag plane; main.js:331-339, 434-452): they depend on camera and ray code that is not part of this model. The pointer's ground point is a parameter of `Placement.Draggable.DragTo` and `Zones.ZoneRect`.
- Event-listener wiring, paint-mode toggling, the guards at the top of each handler, zone creation and clearing, and `controls.enabled` flips (main.js:325-329, 440-536): UI plumbing.
- `updateAttackIndicator` (main.js:374-376): it only copies the ball and target positions into a line.
- The `animate` loop (main.js:567-585): it re-pins y to the drag height and drives a pulse from `Math.sin(performance.now())`, which is time-dependent float animation.
- Buffer plumbing: `Float32Array` rounding, `BufferGeometry`, `computeVertexNormals`, `dispose`, and the unused `THREE.Shape` (main.js:403-408, 417-422). Vertices are exact reals, so the model does not capture single-precision rounding of the stored coordinates.
- Floating point in general: all arithmetic is exact real arithmetic. `Math.sqrt` is a parameter with its defining property, and its rounding is not modelled.
- `Number(value)` parsing of the input text: the model starts from its result, a number or NaN. Infinity is not represented. The start-up read `Number(ui.netHeight?.value)` gives NaN when the input element is missing, and that case falls back to 2.43 like any NaN (`NetLayout.LayoutForInput`).
- `BlockShadow.UpdateBlockShadow` requires no more blockers than shadow slots. In main.js there are two of each; with more blockers, `blockShadows[index]` would be undefined and the handler would throw.
- Vectors.Normalize: only the non-zero case is stated (`NormalizeNonZero`). The zero-vector fallback of `length() || 1` never arises here, because both vectors main.js normalizes are proved non-zero before it does so.
- `Vectors.LengthSq`: only non-negativity is stated. "Zero exactly at the origin" is not needed by the model.
- Blocker clustering, a finite shadow depth derived from reach height, trajectory curves with collision search, and the net dead zone are not implemented in main.js. They are not modelled; the shadow depth is the constant 12.5 (main.js:381).
