/** What one call of a moving sprite's `update` and `jump` computes,
    as functions of the sprite's box, its velocities and the level's
    platforms. The class methods in module Sprites perform these steps
    in place and are proved equal to them. */
module Kinematics {
  import opened Geometry

  /** Downward acceleration added to the vertical velocity every tick.
      The game adds 0.45 px/tick to a float; this model keeps velocities in
      whole pixels per tick and only relies on the increment being positive. */
  const Gravity: int := 1

  /** Vertical velocity granted by a jump (upwards). */
  const JumpVelocity: int := -10

  /** How far below the sprite the jump probe looks. */
  const Probe: int := 2

  /** Below this y a sprite may always jump (it is under the visible floor). */
  const GroundLine: int := 717

  // ---------------------------------------------------------------- horizontal

  /** The sprite pushed out of platform p along x: moving right puts its right
      edge on p's left edge; otherwise (moving left or standing) its left edge
      goes on p's right edge. */
  function FaceX(r: Rect, vx: int, p: Rect): (q: Rect)
    ensures q.y == r.y && q.w == r.w && q.h == r.h
    ensures vx > 0 ==> q.Right() == p.x
    ensures vx <= 0 ==> q.x == p.Right()
  {
    if vx > 0 then r.(x := p.x - r.w) else r.(x := p.Right())
  }

  /** Each platform of `hits`, in order, pushes the sprite out along x. */
  function ResolveX(r: Rect, vx: int, hits: seq<Rect>): (q: Rect)
    ensures q.y == r.y && q.w == r.w && q.h == r.h
    ensures hits == [] ==> q == r
    decreases |hits|
  {
    if hits == [] then r else ResolveX(FaceX(r, vx, hits[0]), vx, hits[1..])
  }

  /** The horizontal phase: move by vx, then resolve against every platform the moved box overlaps. */
  function Horizontal(r: Rect, vx: int, platforms: seq<Rect>): (q: Rect)
    ensures q.y == r.y && q.w == r.w && q.h == r.h
    ensures Touching(r.MoveX(vx), platforms) == [] ==> q == r.MoveX(vx)
  {
    var moved := r.MoveX(vx);
    ResolveX(moved, vx, Touching(moved, platforms))
  }

  /** Only the last platform of the horizontal collision list decides where the sprite ends. */
  lemma {:induction false} ResolveXLastWins(r: Rect, vx: int, hits: seq<Rect>)
    requires hits != []
    ensures ResolveX(r, vx, hits) == FaceX(r, vx, hits[|hits| - 1])
    decreases |hits|
  {
    if |hits| > 1 {
      ResolveXLastWins(FaceX(r, vx, hits[0]), vx, hits[1..]);
    }
  }

  /** After the horizontal phase the sprite no longer overlaps the last platform it
      was pushed out of. With a single overlapping platform, the sprite ends up
      touching that platform's facing edge. */
  lemma HorizontalSettles(r: Rect, vx: int, platforms: seq<Rect>)
    ensures var moved := r.MoveX(vx);
      var hits := Touching(moved, platforms);
      var q := Horizontal(r, vx, platforms);
      && (hits != [] ==> !Overlaps(q, hits[|hits| - 1]))
      && (|hits| == 1 && vx > 0 ==> q.Right() == hits[0].x)
      && (|hits| == 1 && vx <= 0 ==> q.x == hits[0].Right())
  {
    var moved := r.MoveX(vx);
    var hits := Touching(moved, platforms);
    if hits != [] {
      ResolveXLastWins(moved, vx, hits);
    }
  }

  // ------------------------------------------------------------------ vertical

  /** The sprite pushed out of platform p along y: falling (vy > 0) puts its
      bottom on p's top; otherwise its top goes on p's bottom. */
  function FaceY(r: Rect, vy: int, p: Rect): (q: Rect)
    ensures q.x == r.x && q.w == r.w && q.h == r.h
    ensures vy > 0 ==> q.Bottom() == p.y
    ensures vy <= 0 ==> q.y == p.Bottom()
  {
    if vy > 0 then r.(y := p.y - r.h) else r.(y := p.Bottom())
  }

  /** Each platform of `hits`, in order, pushes the sprite out along y and sets
      the vertical velocity to 0. The direction is read from the velocity as it
      is at that moment, so every platform after the first sees velocity 0. */
  function ResolveY(r: Rect, vy: int, hits: seq<Rect>): (res: (Rect, int))
    ensures res.0.x == r.x && res.0.w == r.w && res.0.h == r.h
    ensures hits == [] ==> res == (r, vy)
    ensures hits != [] ==> res.1 == 0
    decreases |hits|
  {
    if hits == [] then (r, vy) else ResolveY(FaceY(r, vy, hits[0]), 0, hits[1..])
  }

  /** The vertical phase: move by vy, then resolve against every platform the moved box overlaps. */
  function Vertical(r: Rect, vy: int, platforms: seq<Rect>): (res: (Rect, int))
    ensures res.0.x == r.x && res.0.w == r.w && res.0.h == r.h
    ensures Touching(r.MoveY(vy), platforms) == [] ==> res == (r.MoveY(vy), vy)
    ensures Touching(r.MoveY(vy), platforms) != [] ==> res.1 == 0
  {
    var moved := r.MoveY(vy);
    ResolveY(moved, vy, Touching(moved, platforms))
  }

  /** Where the vertical phase leaves the sprite: with one platform hit, on the
      face its direction of travel points at; with two or more, whatever the
      direction, with its top on the LAST platform's bottom, because the velocity
      was already 0 when the later platforms were handled. */
  lemma {:induction false} ResolveYLast(r: Rect, vy: int, hits: seq<Rect>)
    requires hits != []
    ensures |hits| == 1 ==> ResolveY(r, vy, hits).0 == FaceY(r, vy, hits[0])
    ensures |hits| >= 2 ==> ResolveY(r, vy, hits).0.y == hits[|hits| - 1].Bottom()
    ensures !Overlaps(ResolveY(r, vy, hits).0, hits[|hits| - 1])
    decreases |hits|
  {
    if |hits| > 1 {
      ResolveYLast(FaceY(r, vy, hits[0]), 0, hits[1..]);
    }
  }

  /** One `update` of a moving sprite: gravity, then the horizontal phase, then
      the vertical phase. Returns the new box and vertical velocity. */
  function Advance(r: Rect, vx: int, vy: int, platforms: seq<Rect>): (res: (Rect, int))
    ensures res.0.w == r.w && res.0.h == r.h
    ensures res.1 == 0 || res.1 == vy + Gravity
  {
    Vertical(Horizontal(r, vx, platforms), vy + Gravity, platforms)
  }

  /** Gravity is added exactly once: a tick with no vertical collision ends with
      velocity vy + Gravity; a tick with any vertical collision ends with 0.
      The box keeps its size, so a valid box stays valid. */
  lemma AdvanceVelocity(r: Rect, vx: int, vy: int, platforms: seq<Rect>)
    ensures var h := Horizontal(r, vx, platforms);
      var moved := h.MoveY(vy + Gravity);
      var (q, v) := Advance(r, vx, vy, platforms);
      && (Touching(moved, platforms) == [] ==> v == vy + Gravity && q == moved)
      && (Touching(moved, platforms) != [] ==> v == 0)
      && q.w == r.w && q.h == r.h
      && (r.Valid() ==> q.Valid())
  {
    HorizontalSettles(r, vx, platforms);
  }

  /** A sprite falling onto exactly one platform lands on it: its bottom is the
      platform's top and its vertical velocity is 0. */
  lemma LandsOnSinglePlatform(r: Rect, vx: int, vy: int, platforms: seq<Rect>)
    requires vy + Gravity > 0
    requires |Touching(Horizontal(r, vx, platforms).MoveY(vy + Gravity), platforms)| == 1
    ensures var p := Touching(Horizontal(r, vx, platforms).MoveY(vy + Gravity), platforms)[0];
      Advance(r, vx, vy, platforms).0.Bottom() == p.y && Advance(r, vx, vy, platforms).1 == 0
  {
    var moved := Horizontal(r, vx, platforms).MoveY(vy + Gravity);
    ResolveYLast(moved, vy + Gravity, Touching(moved, platforms));
  }

  // ---------------------------------------------------------------------- jump

  /** The jump test: the box moved Probe pixels down overlaps some platform, or
      the sprite is already below the ground line. */
  predicate Grounded(r: Rect, platforms: seq<Rect>): (g: bool)
    ensures r.y > GroundLine ==> g
    ensures platforms == [] ==> (g <==> r.y > GroundLine)
  {
    Touching(r.MoveY(Probe), platforms) != [] || r.y > GroundLine
  }

  /** Grounded, stated without the collision list: some platform is within the
      probe distance under (or inside) the sprite, or the sprite is below the ground line. */
  lemma GroundedMeans(r: Rect, platforms: seq<Rect>)
    ensures Grounded(r, platforms) <==>
      (exists p :: p in platforms && Overlaps(r.MoveY(Probe), p)) || r.y > GroundLine
  {
    var hits := Touching(r.MoveY(Probe), platforms);
    if hits != [] {
      assert hits[0] in hits;
    }
    forall p | p in platforms && Overlaps(r.MoveY(Probe), p)
      ensures hits != []
    {
      assert p in hits;
    }
  }
}
