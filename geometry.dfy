/**
  * The two pure clamps of the player controller: the pointer clamp that keeps
  * the raw screen-space pointer inside the screen rectangle, and the sprite
  * bounding clamp that keeps the body sprite inside the camera rectangle.
  * Coordinates are reals: the source's single-precision floats are only
  * compared and added here.
  */
module Geometry {

  datatype Vec3 = Vec3(x: real, y: real, z: real)

  const Origin: Vec3 := Vec3(0.0, 0.0, 0.0)

  function Add(a: Vec3, b: Vec3): Vec3 {
    Vec3(a.x + b.x, a.y + b.y, a.z + b.z)
  }

  /** A sprite border in pixels: x is the left inset, y the bottom, z the right and w the top. */
  datatype Vec4 = Vec4(x: real, y: real, z: real, w: real)

  type PositiveReal = r: real | r > 0.0 witness 1.0

  /** The two properties of the body sprite asset that the bounding clamp reads. */
  datatype Sprite = Sprite(border: Vec4, pixelsPerUnit: PositiveReal)

  /** An axis-aligned box given, as the engine gives it, by its centre and half-size. */
  datatype Bounds = Bounds(center: Vec3, extents: Vec3) {
    function Min(): Vec3 {
      Vec3(center.x - extents.x, center.y - extents.y, center.z - extents.z)
    }
    function Max(): Vec3 {
      Vec3(center.x + extents.x, center.y + extents.y, center.z + extents.z)
    }
  }

  /** One axis of the pointer clamp: at or below zero snaps to zero, past the screen size snaps to it. */
  function ClampToScreen(v: real, size: int): (r: real)
    ensures size >= 0 ==> 0.0 <= r <= size as real
    ensures 0.0 <= v <= size as real ==> r == v
    ensures v <= 0.0 ==> r == 0.0
    ensures size >= 0 && v > size as real ==> r == size as real
  {
    if v <= 0.0 then 0.0
    else if v > size as real then size as real
    else v
  }

  /**
    * The pointer clamp of the per-frame update: the pointer is brought into
    * [0, width] x [0, height]; its depth is left alone.
    */
  function ClampPointer(p: Vec3, width: int, height: int): (r: Vec3)
    ensures r.z == p.z
    ensures width >= 0 ==> 0.0 <= r.x <= width as real
    ensures height >= 0 ==> 0.0 <= r.y <= height as real
    ensures 0.0 <= p.x <= width as real && 0.0 <= p.y <= height as real ==> r == p
    ensures p.x < 0.0 ==> r.x == 0.0
    ensures p.y < 0.0 ==> r.y == 0.0
    ensures width >= 0 && p.x > width as real ==> r.x == width as real
    ensures height >= 0 && p.y > height as real ==> r.y == height as real
  {
    Vec3(ClampToScreen(p.x, width), ClampToScreen(p.y, height), p.z)
  }

  /** Clamping a pointer that is already clamped changes nothing. */
  lemma ClampPointerIdempotent(p: Vec3, width: int, height: int)
    requires width >= 0 && height >= 0
    ensures ClampPointer(ClampPointer(p, width, height), width, height) == ClampPointer(p, width, height)
  {
  }

  /** The horizontal inset the bounding clamp uses on BOTH vertical edges: the sprite's right border. */
  function InsetX(sprite: Sprite): real {
    sprite.border.z / sprite.pixelsPerUnit
  }

  /** The inset of the top edge: the sprite's top border. */
  function InsetTop(sprite: Sprite): real {
    sprite.border.w / sprite.pixelsPerUnit
  }

  /** The inset of the bottom edge: the sprite's bottom border. */
  function InsetBottom(sprite: Sprite): real {
    sprite.border.y / sprite.pixelsPerUnit
  }

  /**
    * The bounding clamp. `rt` and `lb` are the world-space top-right and
    * bottom-left corners of the camera, `bounds` the rendered bounds of the
    * body sprite. Each axis is tested against its far edge first and its near
    * edge only otherwise; a clamped axis puts the sprite, centred on the
    * returned coordinate, exactly on the inset edge.
    */
  function CheckBounding(pos: Vec3, rt: Vec3, lb: Vec3, bounds: Bounds, sprite: Sprite): (r: Vec3)
    ensures r.z == pos.z
    // x: right edge wins over left edge
    ensures bounds.Max().x > rt.x + InsetX(sprite) ==>
              r.x + bounds.extents.x == rt.x + InsetX(sprite)
    ensures bounds.Max().x <= rt.x + InsetX(sprite) && bounds.Min().x + InsetX(sprite) < lb.x ==>
              r.x - bounds.extents.x == lb.x - InsetX(sprite)
    ensures bounds.Max().x <= rt.x + InsetX(sprite) && bounds.Min().x + InsetX(sprite) >= lb.x ==>
              r.x == pos.x
    // y: top edge wins over bottom edge
    ensures bounds.Max().y > rt.y + InsetTop(sprite) ==>
              r.y + bounds.extents.y == rt.y + InsetTop(sprite)
    ensures bounds.Max().y <= rt.y + InsetTop(sprite) && bounds.Min().y + InsetBottom(sprite) < lb.y ==>
              r.y - bounds.extents.y == lb.y - InsetBottom(sprite)
    ensures bounds.Max().y <= rt.y + InsetTop(sprite) && bounds.Min().y + InsetBottom(sprite) >= lb.y ==>
              r.y == pos.y
  {
    var borderX := InsetX(sprite);
    var x := if bounds.Max().x > rt.x + borderX then rt.x - bounds.extents.x + borderX
             else if bounds.Min().x + borderX < lb.x then lb.x + bounds.extents.x - borderX
             else pos.x;
    var borderW := InsetTop(sprite);
    var borderB := InsetBottom(sprite);
    var y := if bounds.Max().y > rt.y + borderW then rt.y - bounds.extents.y + borderW
             else if bounds.Min().y + borderB < lb.y then lb.y + bounds.extents.y - borderB
             else pos.y;
    Vec3(x, y, pos.z)
  }

  /**
    * When the sprite is centred on the position and fits between the inset
    * camera edges, clamping a clamped position changes nothing.
    */
  lemma CheckBoundingIdempotent(pos: Vec3, rt: Vec3, lb: Vec3, extents: Vec3, sprite: Sprite)
    requires rt.x - lb.x >= 2.0 * (extents.x - InsetX(sprite))
    requires rt.y - lb.y >= 2.0 * extents.y - InsetTop(sprite) - InsetBottom(sprite)
    ensures var r := CheckBounding(pos, rt, lb, Bounds(pos, extents), sprite);
            CheckBounding(r, rt, lb, Bounds(r, extents), sprite) == r
  {
  }

  /** A sprite that lies within the inset camera edges is never moved. */
  lemma CheckBoundingInside(pos: Vec3, rt: Vec3, lb: Vec3, bounds: Bounds, sprite: Sprite)
    requires lb.x <= bounds.Min().x + InsetX(sprite) && bounds.Max().x <= rt.x + InsetX(sprite)
    requires lb.y <= bounds.Min().y + InsetBottom(sprite) && bounds.Max().y <= rt.y + InsetTop(sprite)
    ensures CheckBounding(pos, rt, lb, bounds, sprite) == pos
  {
  }
}
