/** The block shadow: for every blocker, the quadrilateral of ground that the
    blocker hides from the ball, seen from the ball's ground position
    (`updateBlockShadow` in main.js). */
module BlockShadow {
  import opened Vectors
  import opened Wrappers

  /** How far the shadow reaches beyond the blocker's silhouette edge. */
  const ShadowDepth: real := 12.5
  /** Half-width of a blocker's silhouette on the ground. */
  const BlockerRadius: real := 0.35
  /** Blockers closer than this (squared distance) to the ball cast no shadow. */
  const CoincidenceLimit: real := 0.001
  /** Height of the shadow vertices above the court surface. */
  const ShadowLift: real := 0.02

  /** The ground-plane corners of one shadow, in the order they are
      written to the vertex buffer: the two silhouette edge points, then
      the far end of the ray through edge B and the far end of the ray
      through edge A. */
  datatype Wedge = Wedge(edgeA: Vec3, edgeB: Vec3, farB: Vec3, farA: Vec3)

  /** What a shadow slot holds: the 1 x 1 plane every slot starts with, or
      the vertex and index buffers of a built shadow. */
  datatype ShadowGeometry = InitialPlane | Mesh(positions: seq<Vec3>, indices: seq<nat>)

  /** The two triangles (0, 1, 2) and (2, 3, 0) covering the quadrilateral. */
  const WedgeIndices: seq<nat> := [0, 1, 2, 2, 3, 0]

  /** The vector from the ball's ground position to the blocker's. */
  function ToBlocker(ball: Vec3, blocker: Vec3): (t: Vec3)
    ensures t.y == 0.0
  {
    Sub(Ground(blocker), Ground(ball))
  }

  /** Blocker and ball are too close on the ground for a direction to be taken. */
  predicate Coincident(ball: Vec3, blocker: Vec3) {
    LengthSq(ToBlocker(ball, blocker)) < CoincidenceLimit
  }

  /** The shadow one blocker casts, or nothing when it stands (almost)
      where the ball is. */
  function ShadowWedge(ball: Vec3, blocker: Vec3, sqrt: real -> real): (r: Option<Wedge>)
    ensures r.None? <==> Coincident(ball, blocker)
    ensures r.Some? ==>
      r.value.edgeA.y == 0.0 && r.value.edgeB.y == 0.0 &&
      r.value.farB.y == 0.0 && r.value.farA.y == 0.0
  {
    var ballPos := Ground(ball);
    var bPos := Ground(blocker);
    var toBlocker := Sub(bPos, ballPos);
    if LengthSq(toBlocker) < CoincidenceLimit then None
    else
      var dir := Normalize(toBlocker, sqrt);
      var perp := Vec3(-dir.z, 0.0, dir.x);
      var edgeA := AddScaled(bPos, perp, BlockerRadius);
      var edgeB := AddScaled(bPos, perp, -BlockerRadius);
      var rayA := Normalize(Sub(edgeA, ballPos), sqrt);
      var rayB := Normalize(Sub(edgeB, ballPos), sqrt);
      var farA := AddScaled(edgeA, rayA, ShadowDepth);
      var farB := AddScaled(edgeB, rayB, ShadowDepth);
      Some(Wedge(edgeA, edgeB, farB, farA))
  }

  /** A ground point raised to the shadow's drawing height. */
  function Lift(p: Vec3): (r: Vec3)
    ensures r.y == ShadowLift && r.x == p.x && r.z == p.z
  {
    Vec3(p.x, ShadowLift, p.z)
  }

  /** The vertex and index buffers built from a wedge. */
  function WedgeMesh(w: Wedge): (g: ShadowGeometry)
    ensures g.Mesh? && |g.positions| == 4
    ensures forall i :: 0 <= i < 4 ==> g.positions[i].y == ShadowLift
    ensures Ground(g.positions[0]) == Ground(w.edgeA) && Ground(g.positions[1]) == Ground(w.edgeB)
    ensures Ground(g.positions[2]) == Ground(w.farB) && Ground(g.positions[3]) == Ground(w.farA)
    ensures |g.indices| == 6 && forall i :: 0 <= i < 6 ==> g.indices[i] < |g.positions|
  {
    Mesh([Lift(w.edgeA), Lift(w.edgeB), Lift(w.farB), Lift(w.farA)], WedgeIndices)
  }

  /** The content of a blocker's shadow slot after one refresh, given what
      it held before. */
  function SlotAfter(previous: ShadowGeometry, ball: Vec3, blocker: Vec3, sqrt: real -> real): (g: ShadowGeometry)
    ensures Coincident(ball, blocker) ==> g == previous
    ensures !Coincident(ball, blocker) ==> g.Mesh? && |g.positions| == 4 && g.indices == WedgeIndices
    ensures !Coincident(ball, blocker) ==> g == WedgeMesh(ShadowWedge(ball, blocker, sqrt).value)
  {
    match ShadowWedge(ball, blocker, sqrt)
    case None => previous
    case Some(w) => WedgeMesh(w)
  }

  /** `updateBlockShadow`: blocker `index` rebuilds shadow slot `index`
      unless it is coincident with the ball, in which case the slot keeps
      what it held; no other slot is touched. */
  method UpdateBlockShadow(ball: Vec3, blockers: seq<Vec3>, shadows: array<ShadowGeometry>, sqrt: real -> real)
    requires |blockers| <= shadows.Length
    modifies shadows
    ensures forall i :: 0 <= i < |blockers| ==> shadows[i] == SlotAfter(old(shadows[i]), ball, blockers[i], sqrt)
    ensures forall i :: |blockers| <= i < shadows.Length ==> shadows[i] == old(shadows[i])
  {
    var index := 0;
    while index < |blockers|
      invariant 0 <= index <= |blockers|
      invariant forall i :: 0 <= i < index ==> shadows[i] == SlotAfter(old(shadows[i]), ball, blockers[i], sqrt)
      invariant forall i :: index <= i < shadows.Length ==> shadows[i] == old(shadows[i])
    {
      CastShadow(ball, blockers[index], index, shadows, sqrt);
      index := index + 1;
    }
  }

  /** The `forEach` callback of `updateBlockShadow` for the blocker at
      `index`: it returns early for a blocker coincident with the ball and
      otherwise replaces the geometry of shadow slot `index`. */
  method CastShadow(ball: Vec3, blocker: Vec3, index: nat, shadows: array<ShadowGeometry>, sqrt: real -> real)
    requires index < shadows.Length
    modifies shadows
    ensures shadows[index] == SlotAfter(old(shadows[index]), ball, blocker, sqrt)
    ensures forall i :: 0 <= i < shadows.Length && i != index ==> shadows[i] == old(shadows[i])
  {
    var wedge := ShadowWedge(ball, blocker, sqrt);
    if wedge.None? {
      return;
    }
    shadows[index] := WedgeMesh(wedge.value);
  }

  /** The closed form of a wedge: the silhouette edges sit at +/- 0.35 along
      the unit perpendicular of the ball-to-blocker direction, and each far
      point lies `ShadowDepth` along the unit ray from the ball through its
      edge. */
  lemma WedgeShape(ball: Vec3, blocker: Vec3, sqrt: real -> real)
    requires IsSqrt(sqrt)
    requires !Coincident(ball, blocker)
    ensures var t := ToBlocker(ball, blocker);
            var w := ShadowWedge(ball, blocker, sqrt).value;
            var perp := Vec3(-t.z / Length(t, sqrt), 0.0, t.x / Length(t, sqrt));
            var eA := Sub(w.edgeA, Ground(ball));
            var eB := Sub(w.edgeB, Ground(ball));
            Length(t, sqrt) > 0.0 && Length(t, sqrt) * Length(t, sqrt) == LengthSq(t) &&
            Sub(w.edgeA, Ground(blocker)) == Scale(perp, BlockerRadius) &&
            Sub(w.edgeB, Ground(blocker)) == Scale(perp, -BlockerRadius) &&
            LengthSq(perp) == 1.0 && Dot(perp, t) == 0.0 &&
            Cross(t, perp) == Length(t, sqrt) &&
            eA == AddScaled(t, perp, BlockerRadius) && eB == AddScaled(t, perp, -BlockerRadius) &&
            LengthSq(eA) == LengthSq(t) + Sq(BlockerRadius) &&
            LengthSq(eB) == LengthSq(t) + Sq(BlockerRadius) &&
            w.farA == AddScaled(w.edgeA, Normalize(eA, sqrt), ShadowDepth) &&
            w.farB == AddScaled(w.edgeB, Normalize(eB, sqrt), ShadowDepth)
  {
    var t := ToBlocker(ball, blocker);
    UnitPerpendicular(t, sqrt);
    var len := Length(t, sqrt);
    var perp := Vec3(-t.z / len, 0.0, t.x / len);
    OffsetLengthSq(t, perp, BlockerRadius);
    OffsetLengthSq(t, perp, -BlockerRadius);
  }

  /** The ground perpendicular of a non-zero ground vector `t`, taken from
      its normalized direction as `(-dir.z, 0, dir.x)`, is a unit vector
      orthogonal to `t` and a quarter turn from it. */
  lemma UnitPerpendicular(t: Vec3, sqrt: real -> real)
    requires IsSqrt(sqrt)
    requires t.y == 0.0 && LengthSq(t) > 0.0
    ensures var len := Length(t, sqrt);
            var dir := Normalize(t, sqrt);
            var perp := Vec3(-t.z / len, 0.0, t.x / len);
            len > 0.0 && len * len == LengthSq(t) &&
            Vec3(-dir.z, 0.0, dir.x) == perp &&
            LengthSq(perp) == 1.0 && Dot(perp, t) == 0.0 && Cross(t, perp) == len
  {
    NormalizeNonZero(t, sqrt);
    var len := Length(t, sqrt);
    var k := 1.0 / len;
    var dir := Normalize(t, sqrt);
    assert dir == Scale(t, k);
    var perp := Vec3(-dir.z, 0.0, dir.x);
    assert perp == Vec3(-t.z / len, 0.0, t.x / len);
    assert LengthSq(perp) == 1.0 by {
      assert LengthSq(perp) == Sq(dir.z) + Sq(dir.x);
      assert LengthSq(dir) == Sq(dir.x) + Sq(dir.z);
    }
    assert Dot(perp, t) == 0.0 by {
      assert Dot(perp, t) == -(t.z * k) * t.x + (t.x * k) * t.z;
    }
    assert Cross(t, perp) == len by {
      assert Cross(t, perp) == t.x * (t.x * k) + t.z * (t.z * k);
      assert Cross(t, perp) == k * (Sq(t.x) + Sq(t.z));
      assert Sq(t.x) + Sq(t.z) == LengthSq(t);
      assert k * (len * len) == (k * len) * len;
    }
  }

  /** Moving off `t` along a unit vector orthogonal to it by `r` adds
      exactly `r` squared to the squared length. */
  lemma OffsetLengthSq(t: Vec3, perp: Vec3, r: real)
    requires LengthSq(perp) == 1.0 && Dot(perp, t) == 0.0
    ensures LengthSq(AddScaled(t, perp, r)) == LengthSq(t) + Sq(r)
  {
    assert LengthSq(AddScaled(t, perp, r)) == LengthSq(t) + 2.0 * r * Dot(perp, t) + Sq(r) * LengthSq(perp);
  }


  /** Pushing `edge` by `ShadowDepth` along the unit ray from `origin`
      through it moves it by a positive multiple of that ray, and by exactly
      `ShadowDepth`. */
  lemma RayExtension(origin: Vec3, edge: Vec3, sqrt: real -> real)
    requires IsSqrt(sqrt)
    requires LengthSq(Sub(edge, origin)) > 0.0
    ensures var e := Sub(edge, origin);
            var push := Sub(AddScaled(edge, Normalize(e, sqrt), ShadowDepth), edge);
            ShadowDepth / Length(e, sqrt) > 0.0 &&
            push == Scale(e, ShadowDepth / Length(e, sqrt)) &&
            LengthSq(push) == Sq(ShadowDepth)
  {
    var e := Sub(edge, origin);
    NormalizeNonZero(e, sqrt);
    var len := Length(e, sqrt);
    var ray := Normalize(e, sqrt);
    var push := Sub(AddScaled(edge, ray, ShadowDepth), edge);
    assert push == Scale(ray, ShadowDepth);
    ScaleLengthSq(ray, ShadowDepth);
    assert Scale(ray, ShadowDepth) == Scale(e, ShadowDepth / len) by {
      assert ray == Scale(e, 1.0 / len);
      assert (1.0 / len) * ShadowDepth == ShadowDepth / len;
    }
  }

  /** The silhouette edge points lie exactly `BlockerRadius` from the
      blocker's ground position, on opposite sides of it, offset
      perpendicular to the ball-to-blocker direction; looking from the ball
      towards the blocker, edge A is right of the line of sight and edge B
      left of it. */
  lemma WedgeEdges(ball: Vec3, blocker: Vec3, sqrt: real -> real)
    requires IsSqrt(sqrt)
    requires !Coincident(ball, blocker)
    ensures var t := ToBlocker(ball, blocker);
            var w := ShadowWedge(ball, blocker, sqrt).value;
            var offA := Sub(w.edgeA, Ground(blocker));
            var offB := Sub(w.edgeB, Ground(blocker));
            LengthSq(offA) == Sq(BlockerRadius) && LengthSq(offB) == Sq(BlockerRadius) &&
            offB == Scale(offA, -1.0) &&
            Dot(offA, t) == 0.0 && Dot(offB, t) == 0.0 &&
            Cross(t, Sub(w.edgeA, Ground(ball))) > 0.0 &&
            Cross(t, Sub(w.edgeB, Ground(ball))) < 0.0
  {
    WedgeShape(ball, blocker, sqrt);
    var t := ToBlocker(ball, blocker);
    var len := Length(t, sqrt);
    var perp := Vec3(-t.z / len, 0.0, t.x / len);
    ScaleLengthSq(perp, BlockerRadius);
    ScaleLengthSq(perp, -BlockerRadius);
    DotScaled(perp, t, BlockerRadius);
    DotScaled(perp, t, -BlockerRadius);
    CrossAddScaled(t, t, perp, BlockerRadius);
    CrossAddScaled(t, t, perp, -BlockerRadius);
  }

  /** Each far point lies `ShadowDepth` beyond its edge point, in the
      direction of the ray from the ball through that edge, and on the same
      side of the line of sight as its edge. */
  lemma WedgeFarPoints(ball: Vec3, blocker: Vec3, sqrt: real -> real)
    requires IsSqrt(sqrt)
    requires !Coincident(ball, blocker)
    ensures var t := ToBlocker(ball, blocker);
            var w := ShadowWedge(ball, blocker, sqrt).value;
            var eA := Sub(w.edgeA, Ground(ball));
            var eB := Sub(w.edgeB, Ground(ball));
            LengthSq(Sub(w.farA, w.edgeA)) == Sq(ShadowDepth) &&
            LengthSq(Sub(w.farB, w.edgeB)) == Sq(ShadowDepth) &&
            Cross(Sub(w.farA, w.edgeA), eA) == 0.0 && Dot(Sub(w.farA, w.edgeA), eA) > 0.0 &&
            Cross(Sub(w.farB, w.edgeB), eB) == 0.0 && Dot(Sub(w.farB, w.edgeB), eB) > 0.0 &&
            Cross(t, Sub(w.farA, Ground(ball))) > 0.0 &&
            Cross(t, Sub(w.farB, Ground(ball))) < 0.0
  {
    WedgeShape(ball, blocker, sqrt);
    WedgeEdges(ball, blocker, sqrt);
    var t := ToBlocker(ball, blocker);
    var w := ShadowWedge(ball, blocker, sqrt).value;
    var ballPos := Ground(ball);
    DotScaled(t, Sub(w.edgeB, ballPos), -1.0);
    FarPoint(t, ballPos, w.edgeA, w.farA, sqrt);
    FarPoint(Scale(t, -1.0), ballPos, w.edgeB, w.farB, sqrt);
    DotScaled(t, Sub(w.farB, ballPos), -1.0);
  }

  /** One side of `WedgeFarPoints`: `far` is `edge` pushed along the ray
      from `origin`, and `edge` lies to the left of `t`. */
  lemma FarPoint(t: Vec3, origin: Vec3, edge: Vec3, far: Vec3, sqrt: real -> real)
    requires IsSqrt(sqrt)
    requires LengthSq(Sub(edge, origin)) > 0.0
    requires far == AddScaled(edge, Normalize(Sub(edge, origin), sqrt), ShadowDepth)
    requires Cross(t, Sub(edge, origin)) > 0.0
    ensures var e := Sub(edge, origin);
            LengthSq(Sub(far, edge)) == Sq(ShadowDepth) &&
            Cross(Sub(far, edge), e) == 0.0 && Dot(Sub(far, edge), e) > 0.0 &&
            Cross(t, Sub(far, origin)) > 0.0
  {
    var e := Sub(edge, origin);
    RayExtension(origin, edge, sqrt);
    var c := ShadowDepth / Length(e, sqrt);
    DotScaled(e, e, c);
    PositiveProduct(c, LengthSq(e));
    assert Sub(far, origin) == AddScaled(e, e, c);
    CrossAddScaled(t, e, e, c);
    PositiveProduct(c, Cross(t, e));
  }

  /** The two triangles of the index buffer, (edgeA, edgeB, farB) and
      (farB, farA, edgeA), both have positive area and the same winding
      seen from above, so the quadrilateral is drawn without a fold. */
  lemma WedgeTriangles(ball: Vec3, blocker: Vec3, sqrt: real -> real)
    requires IsSqrt(sqrt)
    requires !Coincident(ball, blocker)
    ensures var w := ShadowWedge(ball, blocker, sqrt).value;
            Cross(Sub(w.edgeB, w.edgeA), Sub(w.farB, w.edgeA)) > 0.0 &&
            Cross(Sub(w.farA, w.farB), Sub(w.edgeA, w.farB)) > 0.0
  {
    WedgeShape(ball, blocker, sqrt);
    var t := ToBlocker(ball, blocker);
    var len := Length(t, sqrt);
    var perp := Vec3(-t.z / len, 0.0, t.x / len);
    var w := ShadowWedge(ball, blocker, sqrt).value;
    var ballPos := Ground(ball);
    var eA := Sub(w.edgeA, ballPos);
    var eB := Sub(w.edgeB, ballPos);
    assert Length(eA, sqrt) == Length(eB, sqrt);
    RayExtension(ballPos, w.edgeA, sqrt);
    RayExtension(ballPos, w.edgeB, sqrt);
    var c := ShadowDepth / Length(eA, sqrt);
    NearTriangle(perp, t, c, len, w.edgeA, w.edgeB, w.farB, ballPos);
    FarTriangle(perp, t, c, len, w.edgeA, w.edgeB, w.farA, w.farB, ballPos);
  }

  /** The sign computations behind `WedgeTriangles`: edges at +/- 0.35
      along `p` from the point `t` (relative to `origin`), far points pushed
      by the same factor `c` along their rays. This one is the triangle
      (edgeA, edgeB, farB). */
  lemma NearTriangle(p: Vec3, t: Vec3, c: real, len: real, edgeA: Vec3, edgeB: Vec3, farB: Vec3, origin: Vec3)
    requires c > 0.0 && len > 0.0
    requires Cross(t, p) == len
    requires Sub(edgeA, origin) == AddScaled(t, p, 0.35)
    requires Sub(edgeB, origin) == AddScaled(t, p, -0.35)
    requires Sub(farB, edgeB) == Scale(Sub(edgeB, origin), c)
    ensures Cross(Sub(edgeB, edgeA), Sub(farB, edgeA)) > 0.0
  {
    var u := Sub(edgeB, edgeA);
    var v := Sub(farB, edgeA);
    var a, d, e := -0.7, -(2.0 + c) * 0.35, c;
    assert u.x == a * p.x && u.z == a * p.z;
    assert v.x == d * p.x + e * t.x && v.z == d * p.z + e * t.z;
    assert Cross(u, v) == (a * p.x) * (d * p.z + e * t.z) - (a * p.z) * (d * p.x + e * t.x);
    CrossExpansion(a, d, e, p, t);
    assert Cross(p, t) == -len;
    assert Cross(u, v) == a * e * -len;
    assert a * e * -len == (0.7 * c) * len;
    PositiveProduct(0.7 * c, len);
  }

  /** The triangle (farB, farA, edgeA) of `WedgeTriangles`. */
  lemma FarTriangle(p: Vec3, t: Vec3, c: real, len: real, edgeA: Vec3, edgeB: Vec3, farA: Vec3, farB: Vec3, origin: Vec3)
    requires c > 0.0 && len > 0.0
    requires Cross(t, p) == len
    requires Sub(edgeA, origin) == AddScaled(t, p, 0.35)
    requires Sub(edgeB, origin) == AddScaled(t, p, -0.35)
    requires Sub(farA, edgeA) == Scale(Sub(edgeA, origin), c)
    requires Sub(farB, edgeB) == Scale(Sub(edgeB, origin), c)
    ensures Cross(Sub(farA, farB), Sub(edgeA, farB)) > 0.0
  {
    var u := Sub(farA, farB);
    var v := Sub(edgeA, farB);
    var a, d, e := (1.0 + c) * 0.7, (2.0 + c) * 0.35, -c;
    assert u.x == a * p.x && u.z == a * p.z;
    assert v.x == d * p.x + e * t.x && v.z == d * p.z + e * t.z;
    assert Cross(u, v) == (a * p.x) * (d * p.z + e * t.z) - (a * p.z) * (d * p.x + e * t.x);
    CrossExpansion(a, d, e, p, t);
    assert Cross(p, t) == -len;
    assert Cross(u, v) == a * e * -len;
    assert a * e * -len == (a * c) * len;
    PositiveProduct(a * c, len);
  }

  /** Bilinearity of the ground cross product: `a p` against `d p + e t`. */
  lemma CrossExpansion(a: real, d: real, e: real, p: Vec3, t: Vec3)
    ensures (a * p.x) * (d * p.z + e * t.z) - (a * p.z) * (d * p.x + e * t.x) == a * e * Cross(p, t)
  {
  }
}
