/** Shared vocabulary of the combat core: screen constants, 2-D vectors,
    axis-aligned boxes with the screen-space conventions of the game (y grows
    downwards), the library functions the core calls (trigonometry and square
    root, as functions with range axioms), and the plain values that the
    save/restore dictionaries hold. */
module Geometry {

  // ---------------------------------------------------------------- constants
  // config/Constants.py, GENERAL section
  const WIDTH: real := 800.0
  const HEIGHT: real := 600.0
  const GRAVITY: real := 3000.0
  const EPSILON: real := 0.000000001
  /** The double closest to pi, which is what numpy's `np.pi` holds. */
  const PI: real := 3.141592653589793
  const TAU: real := 2.0 * PI
  /** A critical shot's image is its glow border, CRITICAL_SHOT_WIDTH_BORDER
      by CRITICAL_SHOT_HEIGHT_BORDER, whatever the size of the base image. */
  const CRITICAL_SHOT_SIZE: Vec2 := Vec2(24.0, 24.0)

  datatype Option<T> = None | Some(value: T) {
    function GetOr(default: T): T {
      if Some? then value else default
    }
  }

  /** An error path of the source (an exception it raises) is an `Err`. */
  datatype Result<T> = Ok(value: T) | Err(reason: string)

  function Abs(x: real): real {
    if x < 0.0 then -x else x
  }

  /** Python's `int(x)`: truncation toward zero. */
  function Trunc(x: real): int {
    if x >= 0.0 then x.Floor else -((-x).Floor)
  }

  /** Python's `math.ceil(x)`. */
  function Ceil(x: real): int {
    -((-x).Floor)
  }

  lemma CeilBounds(x: real)
    ensures x <= Ceil(x) as real < x + 1.0
  {
  }

  // ---------------------------------------------------------------- vectors

  datatype Vec2 = Vec2(x: real, y: real) {
    function Plus(o: Vec2): Vec2 {
      Vec2(x + o.x, y + o.y)
    }
    function Scale(k: real): Vec2 {
      Vec2(x * k, y * k)
    }
  }

  const Zero: Vec2 := Vec2(0.0, 0.0)

  // ---------------------------------------------------------------- boxes

  /** A pygame `Rect`: top-left corner (x, y), width w and height h. */
  datatype Rect = Rect(x: real, y: real, w: real, h: real) {
    function Left(): real { x }
    function Right(): real { x + w }
    function Top(): real { y }
    function Bottom(): real { y + h }
    function CenterX(): real { x + w / 2.0 }
    function CenterY(): real { y + h / 2.0 }
    function Center(): Vec2 { Vec2(CenterX(), CenterY()) }

    /** `rect.center = c` */
    function WithCenter(c: Vec2): (r: Rect)
      ensures r.Center() == c && r.w == w && r.h == h
    {
      Rect(c.x - w / 2.0, c.y - h / 2.0, w, h)
    }
    /** `rect.centerx = cx` */
    function WithCenterX(cx: real): (r: Rect)
      ensures r.CenterX() == cx && r.y == y && r.w == w && r.h == h
    {
      Rect(cx - w / 2.0, y, w, h)
    }
    /** `rect.centery = cy` */
    function WithCenterY(cy: real): (r: Rect)
      ensures r.CenterY() == cy && r.x == x && r.w == w && r.h == h
    {
      Rect(x, cy - h / 2.0, w, h)
    }
    /** `rect.right = r` */
    function WithRight(right: real): (r: Rect)
      ensures r.Right() == right && r.y == y && r.w == w && r.h == h
    {
      Rect(right - w, y, w, h)
    }
    /** `rect.bottom = b` */
    function WithBottom(bottom: real): (r: Rect)
      ensures r.Bottom() == bottom && r.x == x && r.w == w && r.h == h
    {
      Rect(x, bottom - h, w, h)
    }
  }

  /** The box of size `size` centred on `p`: an image rect after `rect.center = p`. */
  function RectAt(p: Vec2, size: Vec2): (r: Rect)
    ensures r.Center() == p && r.w == size.x && r.h == size.y
  {
    Rect(p.x - size.x / 2.0, p.y - size.y / 2.0, size.x, size.y)
  }

  /** pygame's `colliderect` / `collide_rect`: the interiors overlap; boxes
      that only touch along an edge do not collide. */
  predicate Collide(a: Rect, b: Rect) {
    a.Left() < b.Right() && b.Left() < a.Right() &&
    a.Top() < b.Bottom() && b.Top() < a.Bottom()
  }

  /** The blocks of `blocks` that collide with `r`, in group order:
      `pygame.sprite.spritecollide(sprite, group, False)`. */
  function Hits(r: Rect, blocks: seq<Rect>): (hs: seq<Rect>)
    ensures forall b :: b in hs <==> b in blocks && Collide(r, b)
    ensures |hs| <= |blocks|
  {
    if blocks == [] then []
    else Hits(r, blocks[..|blocks| - 1]) +
         (if Collide(r, blocks[|blocks| - 1]) then [blocks[|blocks| - 1]] else [])
  }

  /** The box lies wholly beyond one side of the 800x600 screen. */
  predicate OffScreen(r: Rect) {
    r.Right() < 0.0 || r.Left() > WIDTH || r.Bottom() < 0.0 || r.Top() > HEIGHT
  }

  predicate OnScreen(p: Vec2) {
    0.0 <= p.x <= WIDTH && 0.0 <= p.y <= HEIGHT
  }

  /** The box lies within [0, WIDTH] x [0, HEIGHT]. */
  predicate InsideScreen(r: Rect) {
    0.0 <= r.Left() && r.Right() <= WIDTH && 0.0 <= r.Top() && r.Bottom() <= HEIGHT
  }

  // ------------------------------------------------------- library functions

  /** The numeric library calls of the core (`np.arctan`, `np.arctan2`,
      `np.sin`, `np.cos`, `Vector2.length`'s square root), as functions about
      which only the facts in `Valid` are known. */
  datatype Lib = Lib(atan: real -> real, atan2: (real, real) -> real,
                     sin: real -> real, cos: real -> real, sqrt: real -> real)
  {
    ghost predicate Valid() {
      (forall t :: -PI / 2.0 < atan(t) < PI / 2.0) &&
      (forall t :: 0.0 < atan(t) <==> 0.0 < t) &&
      (forall t :: atan(t) < 0.0 <==> t < 0.0) &&
      (forall py, px :: -PI <= atan2(py, px) <= PI) &&
      (forall a :: sin(a) * sin(a) + cos(a) * cos(a) == 1.0) &&
      (forall v :: 0.0 <= v ==> 0.0 <= sqrt(v) && sqrt(v) * sqrt(v) == v)
    }

    /** The unit vector `(cos a, sin a)`. */
    function Direction(a: real): Vec2 {
      Vec2(cos(a), sin(a))
    }

    /** Euclidean length, `pygame.math.Vector2.length()`. */
    function Length(v: Vec2): real {
      sqrt(v.x * v.x + v.y * v.y)
    }
  }

  /** A unit vector is never zero, so a projectile with non-zero speed and a
      non-zero frame time always moves. */
  lemma DirectionNonZero(lib: Lib, a: real, k: real)
    requires lib.Valid() && k != 0.0
    ensures lib.Direction(a).Scale(k) != Zero
  {
    var c, s := lib.cos(a), lib.sin(a);
    assert s * s + c * c == 1.0;
    assert c != 0.0 || s != 0.0;
  }

  lemma LengthNonNegative(lib: Lib, v: Vec2)
    requires lib.Valid()
    ensures 0.0 <= lib.Length(v)
  {
    assert 0.0 <= v.x * v.x + v.y * v.y;
  }

  // --------------------------------------------------- screen clamping

  datatype Clamped = Clamped(rect: Rect, clamped: bool)

  /** `_limit_bounds`: push each side of the box back onto the screen, in the
      order left, right, top, bottom, and report whether any side moved. */
  function LimitBounds(r: Rect): (c: Clamped)
    ensures c.rect.w == r.w && c.rect.h == r.h
  {
    var r1 := if r.Left() < 0.0 then r.(x := 0.0) else r;
    var r2 := if r1.Right() > WIDTH then r1.WithRight(WIDTH) else r1;
    var r3 := if r2.Top() < 0.0 then r2.(y := 0.0) else r2;
    var r4 := if r3.Bottom() > HEIGHT then r3.WithBottom(HEIGHT) else r3;
    Clamped(r4, r.Left() < 0.0 || r1.Right() > WIDTH || r2.Top() < 0.0 || r3.Bottom() > HEIGHT)
  }

  /** The flag is raised exactly when the box was not already inside the
      screen, and a box that fits on the screen ends up inside it. */
  lemma LimitBoundsMeaning(r: Rect)
    requires 0.0 <= r.w && 0.0 <= r.h
    ensures LimitBounds(r).clamped <==> !InsideScreen(r)
    ensures r.w <= WIDTH && r.h <= HEIGHT ==> InsideScreen(LimitBounds(r).rect)
    ensures InsideScreen(r) ==> LimitBounds(r).rect == r
  {
  }

  /** Clamping twice is clamping once. */
  lemma LimitBoundsIdempotent(r: Rect)
    requires 0.0 <= r.w <= WIDTH && 0.0 <= r.h <= HEIGHT
    ensures LimitBounds(LimitBounds(r).rect) == Clamped(LimitBounds(r).rect, false)
  {
    LimitBoundsMeaning(r);
    LimitBoundsMeaning(LimitBounds(r).rect);
  }

  // ------------------------------------------------ save-file dictionaries

  /** A value of a save dictionary (`to_dict` / `from_dict`). */
  datatype Value = Num(n: real) | Int(i: int) | Flag(b: bool) | Text(s: string)

  type Dict = map<string, Value>

  /** A stored value as Python's arithmetic takes it: an int or a float as
      itself, a bool as 1 or 0 (Python's `bool` is an `int`); text is no
      number. */
  function AsNumber(v: Value): (r: Result<real>)
    ensures r.Err? <==> v.Text?
    ensures v.Num? ==> r == Ok(v.n)
    ensures v.Int? ==> r == Ok(v.i as real)
  {
    match v
    case Num(n) => Ok(n)
    case Int(i) => Ok(i as real)
    case Flag(b) => Ok(if b then 1.0 else 0.0)
    case Text(_) => Err("TypeError")
  }

  /** Python's truth value of a stored value. */
  function Truthy(v: Value): bool {
    match v
    case Num(n) => n != 0.0
    case Int(i) => i != 0
    case Flag(b) => b
    case Text(s) => s != ""
  }

  /** `data[key]` used as a number: KeyError when absent. */
  function GetNum(d: Dict, key: string): (r: Result<real>)
    ensures key !in d ==> r == Err("KeyError")
    ensures r.Ok? <==> key in d && !d[key].Text?
    ensures key in d && d[key].Num? ==> r == Ok(d[key].n)
    ensures key in d && d[key].Int? ==> r == Ok(d[key].i as real)
  {
    if key !in d then Err("KeyError") else AsNumber(d[key])
  }

  /** `data[key]` used as a truth value: KeyError when absent; any stored
      value has one. */
  function GetFlag(d: Dict, key: string): (r: Result<bool>)
    ensures key !in d ==> r == Err("KeyError")
    ensures r.Ok? <==> key in d
    ensures key in d && d[key].Flag? ==> r == Ok(d[key].b)
  {
    if key !in d then Err("KeyError") else Ok(Truthy(d[key]))
  }

  /** `data.get(key, default)` used as a number. */
  function GetNumOr(d: Dict, key: string, default: real): (r: Result<real>)
    ensures key !in d ==> r == Ok(default)
    ensures key in d ==> (r.Ok? <==> !d[key].Text?)
    ensures key in d && d[key].Num? ==> r == Ok(d[key].n)
    ensures key in d && d[key].Int? ==> r == Ok(d[key].i as real)
  {
    if key !in d then Ok(default) else AsNumber(d[key])
  }

  // ------------------------------------------------------------ sprites

  /** Which bound `create_explosion` an ability sprite carries, if any: the
      one of a missile barrage or the one of a laser beam. */
  datatype ExplosionCallback = NoCallback | MissileExplosion | LaserExplosion
}
