/** Sizing the rectangle of a painted zone while the pointer is dragged
    (the paint `pointermove` handler in main.js). */
module Zones {
  import opened Court
  import opened Vectors

  /** The smallest width or depth a zone is drawn with. */
  const MinZoneSize: real := 0.3
  /** How far inside the court boundary a zone's centre is kept. */
  const CentreInset: real := 0.2
  /** Height of a zone above the court surface. */
  const ZoneLift: real := 0.021

  /** A zone rectangle: its extent along x (`width`) and along z
      (`height`), and where its centre is placed. */
  datatype Zone = Zone(width: real, height: real, position: Vec3)

  /** The rectangle spanned by the paint start point and the current
      pointer point. */
  function ZoneRect(start: Vec3, point: Vec3): (r: Zone)
    ensures r.width >= MinZoneSize && r.width >= Abs(start.x - point.x)
    ensures r.width == MinZoneSize || r.width == Abs(start.x - point.x)
    ensures r.height >= MinZoneSize && r.height >= Abs(start.z - point.z)
    ensures r.height == MinZoneSize || r.height == Abs(start.z - point.z)
    ensures -4.3 <= r.position.x <= 4.3 && -8.8 <= r.position.z <= 8.8
    ensures r.position.x == Clamp((start.x + point.x) / 2.0, -HalfWidth + CentreInset, HalfWidth - CentreInset)
    ensures r.position.z == Clamp((start.z + point.z) / 2.0, -HalfLength + CentreInset, HalfLength - CentreInset)
    ensures r.position.y == ZoneLift
  {
    var center := Vec3((start.x + point.x) / 2.0, 0.02, (start.z + point.z) / 2.0);
    var width := Max(MinZoneSize, Abs(start.x - point.x));
    var height := Max(MinZoneSize, Abs(start.z - point.z));
    Zone(width, height, Vec3(
      Clamp(center.x, -HalfWidth + CentreInset, HalfWidth - CentreInset),
      ZoneLift,
      Clamp(center.z, -HalfLength + CentreInset, HalfLength - CentreInset)))
  }

  /** Dragging from `a` to `b` paints the same rectangle as dragging from
      `b` to `a`. */
  lemma ZoneRectSymmetric(a: Vec3, b: Vec3)
    ensures ZoneRect(a, b) == ZoneRect(b, a)
  {
  }

  /** While the midpoint of the drag stays inside the inset court, the zone
      is centred on it and covers both the start and the current point. */
  lemma ZoneCoversDrag(start: Vec3, point: Vec3)
    requires -4.3 <= (start.x + point.x) / 2.0 <= 4.3
    requires -8.8 <= (start.z + point.z) / 2.0 <= 8.8
    ensures var r := ZoneRect(start, point);
            r.position.x == (start.x + point.x) / 2.0 &&
            r.position.z == (start.z + point.z) / 2.0 &&
            r.position.x - r.width / 2.0 <= Min(start.x, point.x) &&
            Max(start.x, point.x) <= r.position.x + r.width / 2.0 &&
            r.position.z - r.height / 2.0 <= Min(start.z, point.z) &&
            Max(start.z, point.z) <= r.position.z + r.height / 2.0
  {
  }

  /** The size depends only on how far the pointer moved, not on where: a
      drag shifted along the ground paints a rectangle of the same size. */
  lemma ZoneSizeTranslationInvariant(start: Vec3, point: Vec3, shift: Vec3)
    ensures ZoneRect(Add(start, shift), Add(point, shift)).width == ZoneRect(start, point).width
    ensures ZoneRect(Add(start, shift), Add(point, shift)).height == ZoneRect(start, point).height
  {
  }
}
