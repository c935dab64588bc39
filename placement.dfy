/** Keeping a dragged object on the court (`clampToCourt` in main.js and
    the drag handler that calls it). */
module Placement {
  import opened Court
  import opened Vectors
  import opened Wrappers

  /** Distance kept from the court's boundary lines. */
  const Margin: real := 0.4
  /** How far behind the net a home-side object stays. */
  const HomeNetBuffer: real := 0.3
  /** How far behind the net the attack target stays. */
  const TargetNetBuffer: real := 0.6
  /** The least z an away-side object may have. */
  const AwayMinZ: real := 0.4

  /** `userData.side`: "home" (z < 0), "away" (z > 0), or any other string,
      for which no side rule applies. */
  datatype Side = Home | Away | OtherSide
  /** `userData.kind`: only "target" changes the side rule. */
  datatype Kind = PlayerKind | BallKind | TargetKind
  /** The parts of `userData` that placement reads; `dragHeight` is
      `None` when it is `null` or `undefined`. */
  datatype UserData = UserData(side: Side, kind: Kind, dragHeight: Option<real>)

  const MinX: real := -HalfWidth + Margin
  const MaxX: real := HalfWidth - Margin
  const MinZ: real := -HalfLength + Margin
  const MaxZ: real := HalfLength - Margin

  /** The buffer a home-side object keeps from the net. */
  function NetBuffer(kind: Kind): (b: real)
    ensures b > 0.0
    ensures kind == TargetKind <==> b == TargetNetBuffer
    ensures kind != TargetKind ==> b == HomeNetBuffer
  {
    if kind == TargetKind then TargetNetBuffer else HomeNetBuffer
  }

  /** Where `clampToCourt` leaves an object that was at `p`. */
  function ClampedPosition(p: Vec3, data: UserData): (r: Vec3)
    ensures -4.1 <= r.x <= 4.1
    ensures -8.6 <= r.z <= 8.6
    ensures r.y == data.dragHeight.GetOr(0.0)
    ensures data.side == Home && data.kind == TargetKind ==> r.z <= -0.6
    ensures data.side == Home && data.kind != TargetKind ==> r.z <= -0.3
    ensures data.side == Away ==> r.z >= 0.4
    ensures -4.1 <= p.x <= 4.1 ==> r.x == p.x
    ensures data.side == OtherSide && -8.6 <= p.z <= 8.6 ==> r.z == p.z
  {
    var x := Clamp(p.x, MinX, MaxX);
    var z := Clamp(p.z, MinZ, MaxZ);
    var y := data.dragHeight.GetOr(0.0);
    var z' := if data.side == Home then Min(z, -NetBuffer(data.kind))
              else if data.side == Away then Max(z, AwayMinZ)
              else z;
    Vec3(x, y, z')
  }

  /** The positions `clampToCourt` leaves unchanged: inside the margins,
      at the drag height, and on the right side of the net. */
  predicate OnCourt(p: Vec3, data: UserData) {
    MinX <= p.x <= MaxX && MinZ <= p.z <= MaxZ &&
    p.y == data.dragHeight.GetOr(0.0) &&
    (data.side == Home ==> p.z <= -NetBuffer(data.kind)) &&
    (data.side == Away ==> p.z >= AwayMinZ)
  }

  /** Clamping always lands on the court, and leaves a position already
      on the court exactly where it is. */
  lemma ClampedIsOnCourt(p: Vec3, data: UserData)
    ensures OnCourt(ClampedPosition(p, data), data)
    ensures OnCourt(p, data) <==> ClampedPosition(p, data) == p
  {
  }

  /** Clamping moves each coordinate to the nearest allowed value: no
      position that satisfies the placement rules is closer to the original
      in x, or in z. An out-of-range coordinate therefore goes to the bound
      it overshot, and a coordinate in range is kept whatever the other one
      does. */
  lemma ClampIsNearest(p: Vec3, data: UserData, q: Vec3)
    requires OnCourt(q, data)
    ensures Abs(ClampedPosition(p, data).x - p.x) <= Abs(q.x - p.x)
    ensures Abs(ClampedPosition(p, data).z - p.z) <= Abs(q.z - p.z)
  {
  }

  /** `clampToCourt` is idempotent. */
  lemma ClampIdempotent(p: Vec3, data: UserData)
    ensures ClampedPosition(ClampedPosition(p, data), data) == ClampedPosition(p, data)
  {
    ClampedIsOnCourt(p, data);
    ClampedIsOnCourt(ClampedPosition(p, data), data);
  }

  /** `createPlayer`: the drag height of a player sprite of the given height,
      raised by the jump offset for a blocker. */
  function PlayerDragHeight(height: real, isBlocker: bool): (h: real)
    ensures isBlocker ==> h == height / 2.0 + 0.35
    ensures !isBlocker ==> h == height / 2.0
  {
    var jumpOffset := if isBlocker then 0.35 else 0.0;
    height / 2.0 + jumpOffset
  }

  /** The bottom edge of a player sprite, which is drawn `height` tall and
      centred on its position. */
  function SpriteBottom(y: real, height: real): real {
    y - height / 2.0
  }

  /** Once placed, a defender's sprite stands on the floor and a blocker's
      floats exactly the 0.35 jump offset above it, whatever the player's
      height. */
  lemma PlacedPlayerHeight(p: Vec3, side: Side, height: real, isBlocker: bool)
    ensures var r := ClampedPosition(p, UserData(side, PlayerKind, Some(PlayerDragHeight(height, isBlocker))));
            SpriteBottom(r.y, height) == (if isBlocker then 0.35 else 0.0)
    ensures PlayerDragHeight(height, true) == PlayerDragHeight(height, false) + 0.35
  {
  }

  /** A draggable scene object: a player sprite, the ball or the attack target. */
  class Draggable {
    var x: real
    var y: real
    var z: real
    const userData: UserData

    function Position(): Vec3
      reads this
    {
      Vec3(x, y, z)
    }

    constructor (position: Vec3, data: UserData)
      ensures Position() == position && userData == data
    {
      x, y, z := position.x, position.y, position.z;
      userData := data;
    }

    /** `clampToCourt(object)` */
    method ClampToCourt()
      modifies this
      ensures Position() == ClampedPosition(old(Position()), userData)
      ensures OnCourt(Position(), userData)
    {
      x := Clamp(x, MinX, MaxX);
      z := Clamp(z, MinZ, MaxZ);
      y := userData.dragHeight.GetOr(0.0);

      if userData.side == Home {
        z := Min(z, -NetBuffer(userData.kind));
      }
      if userData.side == Away {
        z := Max(z, AwayMinZ);
      }
      ClampedIsOnCourt(old(Position()), userData);
    }

    /** The drag `pointermove` handler: the object goes to the point under
        the pointer on its drag plane, shifted by the grab offset, at its
        drag height, and is then clamped. */
    method DragTo(dragPoint: Vec3, dragOffset: Vec3)
      modifies this
      ensures Position() == ClampedPosition(Vec3(dragPoint.x + dragOffset.x, userData.dragHeight.GetOr(0.0), dragPoint.z + dragOffset.z), userData)
      ensures OnCourt(Position(), userData)
    {
      var dragHeight := userData.dragHeight.GetOr(0.0);
      x, y, z := dragPoint.x + dragOffset.x, dragHeight, dragPoint.z + dragOffset.z;
      ClampToCourt();
    }
  }

  /** The start positions set at load and by "reset players" are already on
      the court, so the first drag does not make them jump. */
  lemma StartPositionsOnCourt()
    ensures var blocker := UserData(Home, PlayerKind, Some(PlayerDragHeight(1.7, true)));
            OnCourt(Vec3(-1.2, blocker.dragHeight.value, -0.6), blocker) &&
            OnCourt(Vec3(1.2, blocker.dragHeight.value, -0.6), blocker)
    ensures var defender := UserData(Home, PlayerKind, Some(PlayerDragHeight(1.7, false)));
            OnCourt(Vec3(-2.5, defender.dragHeight.value, -5.5), defender) &&
            OnCourt(Vec3(0.0, defender.dragHeight.value, -6.4), defender) &&
            OnCourt(Vec3(2.7, defender.dragHeight.value, -5.6), defender) &&
            OnCourt(Vec3(0.0, defender.dragHeight.value, -2.8), defender)
    ensures OnCourt(Vec3(0.0, 3.0, 4.0), UserData(Away, BallKind, Some(3.0)))
    ensures OnCourt(Vec3(0.0, 0.06, -4.5), UserData(Home, TargetKind, Some(0.06)))
  {
  }
}
