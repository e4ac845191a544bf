// Implementation limits and the size preconditions checked against them: the
// texture units and colour attachment points an implementation exposes, and
// the smallest texture and renderbuffer sizes the allocators accept.  The
// integers the driver reports (GL_MAX_TEXTURE_IMAGE_UNITS,
// GL_MAX_COLOR_ATTACHMENTS) and the soft restriction the application applies
// to the unit count are parameters.

module Limits {
  import opened Wrappers

  datatype TextureUnit = TextureUnit(index: int)

  datatype AttachmentPoint = AttachmentPoint(index: int)

  /** Constraints.constrainRange: the value must lie in [lo, hi]. */
  function ConstrainRange(x: int, lo: int, hi: int, name: string): (r: Outcome)
    ensures r.Pass? <==> lo <= x <= hi
    ensures r.Fail? ==> r.error == ConstraintError(name)
  {
    if x < lo || hi < x then Fail(ConstraintError(name)) else Pass
  }

  /** texture2DStaticAllocate: both sides must be at least 2; the width is
      checked first. */
  function Texture2DSizeCheck(width: int, height: int): (r: Outcome)
    requires IsInt(width) && IsInt(height)
    ensures r.Pass? <==> width >= 2 && height >= 2
    ensures width < 2 ==> r == Fail(ConstraintError("Width"))
    ensures width >= 2 && height < 2 ==> r == Fail(ConstraintError("Height"))
  {
    var w := ConstrainRange(width, 2, INT_MAX, "Width");
    if w.Fail? then w else ConstrainRange(height, 2, INT_MAX, "Height")
  }

  /** textureCubeStaticAllocate: the side must be at least 2. */
  function TextureCubeSizeCheck(size: int): (r: Outcome)
    requires IsInt(size)
    ensures r.Pass? <==> size >= 2
    ensures r.Fail? ==> r.error == ConstraintError("Size")
  {
    ConstrainRange(size, 2, INT_MAX, "Size")
  }

  /** renderbufferAllocate: both sides must be at least 1.  The source gives
      these two constraints no name; the model calls them "Renderbuffer
      width" and "Renderbuffer height". */
  function RenderbufferSizeCheck(width: int, height: int): (r: Outcome)
    requires IsInt(width) && IsInt(height)
    ensures r.Pass? <==> width >= 1 && height >= 1
    ensures width < 1 ==> r == Fail(ConstraintError("Renderbuffer width"))
    ensures width >= 1 && height < 1 ==> r == Fail(ConstraintError("Renderbuffer height"))
  {
    var w := ConstrainRange(width, 1, INT_MAX, "Renderbuffer width");
    if w.Fail? then w else ConstrainRange(height, 1, INT_MAX, "Renderbuffer height")
  }

  /** Every texture the 2D allocator accepts is also a valid renderbuffer
      size, but not the other way round. */
  lemma Texture2DSizeStricterThanRenderbuffer(width: int, height: int)
    requires IsInt(width) && IsInt(height)
    ensures Texture2DSizeCheck(width, height).Pass? ==> RenderbufferSizeCheck(width, height).Pass?
    ensures Texture2DSizeCheck(1, 1).Fail? && RenderbufferSizeCheck(1, 1).Pass?
  {
  }

  /** The number of units the LWJGL backend exposes: the soft restriction of
      the reported maximum, clamped to [1, max]. */
  function UnitCount(max: int, restricted: int): (n: int)
    ensures n >= 1
    ensures max >= 1 ==> n <= max
    ensures max > 1 ==> (n == max <==> restricted >= max)
    ensures 1 <= restricted <= max ==> n == restricted
    ensures restricted < 1 ==> n == 1
  {
    var m := if restricted < max then restricted else max;
    if m < 1 then 1 else m
  }

  /** textureGetUnitsActual (LWJGL): a list of UnitCount(max, restricted)
      units, the unit at position i having index i. */
  method TextureUnitsClamped(max: int, restricted: int) returns (units: seq<TextureUnit>)
    ensures |units| == UnitCount(max, restricted)
    ensures forall i :: 0 <= i < |units| ==> units[i].index == i
  {
    var count := if restricted < max then restricted else max;
    if count < 1 {
      count := 1;
    }
    units := [];
    var index := 0;
    while index < count
      invariant 0 <= index <= count
      invariant |units| == index
      invariant forall i :: 0 <= i < index ==> units[i].index == i
    {
      units := units + [TextureUnit(index)];
      index := index + 1;
    }
  }

  /** textureGetUnitsActual (JOGL): an array of exactly `max` units, the unit
      at position i having index i.  A negative maximum would make the array
      allocation throw; the driver never reports one. */
  method TextureUnitsArray(max: int) returns (units: array<TextureUnit>)
    requires 0 <= max
    ensures fresh(units)
    ensures units.Length == max
    ensures forall i :: 0 <= i < max ==> units[i].index == i
  {
    units := new TextureUnit[max](_ => TextureUnit(0));
    var index := 0;
    while index < max
      invariant 0 <= index <= max
      invariant forall i :: 0 <= i < index ==> units[i].index == i
      modifies units
    {
      units[index] := TextureUnit(index);
      index := index + 1;
    }
  }

  /** framebufferGetAttachmentPointsActual (GLES2Functions): an array of
      exactly `max` points, point i having index i. */
  method AttachmentPointsArray(max: int) returns (points: array<AttachmentPoint>)
    requires 0 <= max
    ensures fresh(points)
    ensures points.Length == max
    ensures forall i :: 0 <= i < max ==> points[i].index == i
  {
    points := new AttachmentPoint[max](_ => AttachmentPoint(0));
    var index := 0;
    while index < max
      invariant 0 <= index <= max
      invariant forall i :: 0 <= i < index ==> points[i].index == i
      modifies points
    {
      points[index] := AttachmentPoint(index);
      index := index + 1;
    }
  }

  /** framebufferGetAttachmentPointsActual (LWJGL): a list of points 0 ..
      max-1; a maximum below 1 gives the empty list. */
  method AttachmentPointsList(max: int) returns (points: seq<AttachmentPoint>)
    ensures |points| == (if max < 0 then 0 else max)
    ensures forall i :: 0 <= i < |points| ==> points[i].index == i
  {
    points := [];
    var index := 0;
    while index < max
      invariant if max < 0 then index == 0 else 0 <= index <= max
      invariant |points| == index
      invariant forall i :: 0 <= i < index ==> points[i].index == i
    {
      points := points + [AttachmentPoint(index)];
      index := index + 1;
    }
  }

  /** Every attachment point index the LWJGL list offers is accepted by the
      colour index check of framebuffer attachment (0 <= index < max). */
  method AttachmentPointsInRange(max: int) returns (points: seq<AttachmentPoint>)
    ensures forall p :: p in points ==> 0 <= p.index < max
  {
    points := AttachmentPointsList(max);
    forall p | p in points
      ensures 0 <= p.index < max
    {
      var i :| 0 <= i < |points| && points[i] == p;
    }
  }
}
