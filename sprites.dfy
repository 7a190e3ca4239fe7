/** The game's sprites and levels, as objects updated in place:
    a moving sprite (shared by the player and the enemies), the player's own
    counters, bullets, and a level with its sprite collections and scroll offset. */
module Sprites {
  import opened Seqs
  import opened Geometry
  import opened Kinematics

  /** Size of a moving sprite's box (player and enemies). */
  const SpriteWidth: int := 30
  const SpriteHeight: int := 60
  /** Size of a bullet's box. */
  const BulletSize: int := 10
  /** Size of a coin's box: that of its image, 34 by 34 pixels. */
  const CoinSize: int := 34

  /** Remaining bullets. An enemy's supply is a float sentinel so large that
      subtracting 1 leaves it unchanged: it never runs out. */
  datatype Ammo = Rounds(count: int) | Unlimited {
    /** The shoot test "ammo > 0". */
    predicate Available() {
      Unlimited? || count > 0
    }

    /** Ammo after one shot. */
    function Spent(): Ammo {
      if Unlimited? then Unlimited else Rounds(count - 1)
    }
  }

  /** What kind of moving sprite this is; an enemy carries its jump interval. */
  datatype Kind = PlayerSprite | EnemySprite(jumpTime: int)

  /** An enemy's jump interval is drawn from 45..120 ticks. */
  predicate IsEnemyKind(k: Kind) {
    k.EnemySprite? && 45 <= k.jumpTime <= 120
  }

  /** The box of a bullet fired by a shooter whose box is `shooter`. */
  function BulletBox(shooter: Rect): (b: Rect)
    ensures b.Valid() && b.x == shooter.x && b.y == shooter.y
  {
    Rect(shooter.x, shooter.y, BulletSize, BulletSize)
  }

  /** `after` is `before` with one more bullet at the end, placed at the
      shooter's corner and travelling with velocity v. */
  ghost predicate Fired(before: seq<Bullet>, after: seq<Bullet>, shooter: Rect, v: int)
    reads after
  {
    && |after| == |before| + 1
    && after[..|before|] == before
    && after[|before|].rect == BulletBox(shooter)
    && after[|before|].velocityX == v
  }

  /** A sprite that falls under gravity, collides with platforms, jumps and shoots. */
  class MovingSprite {
    var rect: Rect
    var velocityX: int
    var velocityY: int
    var ammo: Ammo
    var currentFrame: int
    const kind: Kind

    constructor (x: int, y: int, ammo: Ammo, kind: Kind)
      ensures rect == Rect(x, y, SpriteWidth, SpriteHeight)
      ensures velocityX == 0 && velocityY == 0 && currentFrame == 0
      ensures this.ammo == ammo && this.kind == kind
    {
      rect := Rect(x, y, SpriteWidth, SpriteHeight);
      velocityX, velocityY := 0, 0;
      this.ammo := ammo;
      currentFrame := 0;
      this.kind := kind;
    }

    /** The state a freshly generated enemy starts in: at the table position,
        at rest, with unlimited ammo and its own jump interval. */
    ghost predicate SpawnedAt(p: Pos, jumpTime: int)
      reads this
    {
      && rect == Rect(p.x, p.y, SpriteWidth, SpriteHeight)
      && velocityX == 0 && velocityY == 0 && currentFrame == 0
      && ammo == Unlimited && kind == EnemySprite(jumpTime)
    }

    /** One tick of motion against the level's platforms. */
    method Update(platforms: seq<Rect>)
      modifies this`rect, this`velocityY, this`currentFrame
      ensures (rect, velocityY) == Advance(old(rect), velocityX, old(velocityY), platforms)
      ensures currentFrame == old(currentFrame) + 1
    {
      // gravity
      velocityY := velocityY + Gravity;

      // horizontal move, then push out of every platform overlapped now
      var moved := rect.MoveX(velocityX);
      rect := PushOutX(moved, velocityX, Touching(moved, platforms));

      // vertical move, then push out of every platform overlapped now and stop
      moved := rect.MoveY(velocityY);
      rect, velocityY := PushOutY(moved, velocityY, Touching(moved, platforms));

      currentFrame := currentFrame + 1;
    }

    /** Jump if standing on (or sunk into) a platform, or below the ground line. */
    method Jump(platforms: seq<Rect>)
      modifies this`rect, this`velocityY
      ensures rect == old(rect)
      ensures velocityY == if Grounded(old(rect), platforms) then JumpVelocity else old(velocityY)
    {
      rect := rect.MoveY(Probe);
      var collisions := Touching(rect, platforms);
      rect := rect.MoveY(-Probe);
      if |collisions| > 0 || rect.y > GroundLine {
        velocityY := JumpVelocity;
      }
    }

    /** Set the horizontal velocity; it is not accumulated. */
    method Move(change: int)
      modifies this`velocityX
      ensures velocityX == change
    {
      velocityX := change;
    }

    /** Fire one bullet with the given velocity, if there is ammo. The bullet is
        an enemy bullet when this sprite is one of the level's enemies, and a
        player bullet otherwise. */
    method Shoot(level: Level, bulletVelocity: int)
      requires level.Valid()
      modifies this`ammo, level`playerBullets, level`enemyBullets
      ensures level.Valid()
      ensures !old(ammo.Available()) ==>
        && ammo == old(ammo)
        && level.playerBullets == old(level.playerBullets)
        && level.enemyBullets == old(level.enemyBullets)
      ensures old(ammo.Available()) ==> ammo == old(ammo).Spent()
      ensures old(ammo.Available()) && this in level.enemies ==>
        && level.playerBullets == old(level.playerBullets)
        && Fired(old(level.enemyBullets), level.enemyBullets, rect, bulletVelocity)
      ensures old(ammo.Available()) && this !in level.enemies ==>
        && level.enemyBullets == old(level.enemyBullets)
        && Fired(old(level.playerBullets), level.playerBullets, rect, bulletVelocity)
      ensures forall i :: 0 <= i < |level.playerBullets| ==> level.playerBullets[i] in old(level.playerBullets) || fresh(level.playerBullets[i])
      ensures forall i :: 0 <= i < |level.enemyBullets| ==> level.enemyBullets[i] in old(level.enemyBullets) || fresh(level.enemyBullets[i])
    {
      if ammo.Available() {
        ammo := ammo.Spent();
        var bullet := new Bullet(rect, bulletVelocity);
        if this in level.enemies {
          level.enemyBullets := level.enemyBullets + [bullet];
        } else {
          level.playerBullets := level.playerBullets + [bullet];
        }
      }
    }

    /** An enemy's shot at a target: aimed at it, and only when it is near. */
    method ShootAt(target: Rect, level: Level)
      requires level.Valid()
      modifies this`ammo, level`playerBullets, level`enemyBullets
      ensures level.Valid()
      ensures !InShootingRange(target, rect) || !old(ammo.Available()) ==>
        && ammo == old(ammo)
        && level.playerBullets == old(level.playerBullets)
        && level.enemyBullets == old(level.enemyBullets)
      ensures InShootingRange(target, rect) && old(ammo.Available()) ==> ammo == old(ammo).Spent()
      ensures InShootingRange(target, rect) && old(ammo.Available()) && this in level.enemies ==>
        && level.playerBullets == old(level.playerBullets)
        && Fired(old(level.enemyBullets), level.enemyBullets, rect, ShotVelocity(target, rect))
      ensures InShootingRange(target, rect) && old(ammo.Available()) && this !in level.enemies ==>
        && level.enemyBullets == old(level.enemyBullets)
        && Fired(old(level.playerBullets), level.playerBullets, rect, ShotVelocity(target, rect))
      ensures forall i :: 0 <= i < |level.playerBullets| ==> level.playerBullets[i] in old(level.playerBullets) || fresh(level.playerBullets[i])
      ensures forall i :: 0 <= i < |level.enemyBullets| ==> level.enemyBullets[i] in old(level.enemyBullets) || fresh(level.enemyBullets[i])
    {
      var bulletVelocity := if target.x < rect.x then -15 else 15;
      if Abs(target.x - rect.x) < 500 && Abs(target.y - rect.y) < 50 {
        Shoot(level, bulletVelocity);
      }
    }

    /** An enemy's jump: the ordinary jump, but only when the target is near. */
    method JumpNear(target: Rect, platforms: seq<Rect>)
      modifies this`rect, this`velocityY
      ensures rect == old(rect)
      ensures velocityY ==
        if InJumpingRange(target, rect) && Grounded(rect, platforms) then JumpVelocity else old(velocityY)
    {
      if Abs(target.x - rect.x) < 700 && Abs(target.y - rect.y) < 400 {
        Jump(platforms);
      }
    }
  }

  /** The horizontal collision loop of `update`: each platform of `collisions`,
      in order, pushes the box out along x. */
  method PushOutX(r: Rect, vx: int, collisions: seq<Rect>) returns (q: Rect)
    ensures q == ResolveX(r, vx, collisions)
  {
    q := r;
    for i := 0 to |collisions|
      invariant ResolveX(q, vx, collisions[i..]) == ResolveX(r, vx, collisions)
    {
      if vx > 0 {
        q := q.(x := collisions[i].x - q.w);
      } else {
        q := q.(x := collisions[i].Right());
      }
      assert collisions[i..][1..] == collisions[i + 1..];
    }
  }

  /** The vertical collision loop of `update`: each platform of `collisions`,
      in order, pushes the box out along y and stops the vertical motion. */
  method PushOutY(r: Rect, vy: int, collisions: seq<Rect>) returns (q: Rect, v: int)
    ensures (q, v) == ResolveY(r, vy, collisions)
  {
    q, v := r, vy;
    for i := 0 to |collisions|
      invariant ResolveY(q, v, collisions[i..]) == ResolveY(r, vy, collisions)
    {
      if v > 0 {
        q := q.(y := collisions[i].y - q.h);
      } else {
        q := q.(y := collisions[i].Bottom());
      }
      v := 0;
      assert collisions[i..][1..] == collisions[i + 1..];
    }
  }

  /** The enemy's bullet velocity: 15 pixels per tick towards the target, to
      the right when level with it. */
  function ShotVelocity(target: Rect, shooter: Rect): (v: int)
    ensures v == 15 || v == -15
    ensures v < 0 <==> target.x < shooter.x
  {
    if target.x < shooter.x then -15 else 15
  }

  /** A bullet leaving the shooter closes the horizontal distance to the
      target. The bound 7 is half of the bullet's 15-pixel step, rounded down:
      from closer than that, the first step overshoots the target by at least
      as much as it was away. */
  lemma ShotHeadsForTarget(target: Rect, shooter: Rect)
    requires target.x - shooter.x > 7 || shooter.x - target.x > 7
    ensures Abs(target.x - (shooter.x + ShotVelocity(target, shooter))) < Abs(target.x - shooter.x)
  {
  }

  function Abs(n: int): int {
    if n < 0 then -n else n
  }

  /** An enemy only shoots at a target less than 500 pixels away
      horizontally and less than 50 vertically. */
  predicate InShootingRange(target: Rect, shooter: Rect): (near: bool)
    ensures near ==> InJumpingRange(target, shooter)
  {
    Abs(target.x - shooter.x) < 500 && Abs(target.y - shooter.y) < 50
  }

  /** An enemy only tries to jump when the target is less than 700 pixels
      away horizontally and less than 400 vertically. */
  predicate InJumpingRange(target: Rect, jumper: Rect) {
    Abs(target.x - jumper.x) < 700 && Abs(target.y - jumper.y) < 400
  }

  /** Both ranges are symmetric: a target is near a sprite exactly when the
      sprite is near the target. */
  lemma RangesSymmetric(a: Rect, b: Rect)
    ensures InJumpingRange(a, b) <==> InJumpingRange(b, a)
    ensures InShootingRange(a, b) <==> InShootingRange(b, a)
  {
  }

  /** The player: a moving sprite plus the counters the HUD shows. */
  class Player {
    const body: MovingSprite
    var health: int
    var score: int
    var coins: int
    var indexWalk: int

    constructor ()
      ensures fresh(body)
      ensures body.rect == Rect(150, 150, SpriteWidth, SpriteHeight)
      ensures body.velocityX == 0 && body.velocityY == 0 && body.currentFrame == 0
      ensures body.ammo == Rounds(20) && body.kind == PlayerSprite
      ensures health == 100 && score == 0 && coins == 0 && indexWalk == 0
    {
      body := new MovingSprite(150, 150, Rounds(20), PlayerSprite);
      health, score, coins := 100, 0, 0;
      indexWalk := 0;
    }

    /** Advance the walking animation: while moving, the walk frame index
        alternates between the two walking images. */
    method Walk()
      requires indexWalk == 0 || indexWalk == 1
      modifies this`indexWalk
      ensures indexWalk == 0 || indexWalk == 1
      ensures body.velocityX != 0 ==> indexWalk == 1 - old(indexWalk)
      ensures body.velocityX == 0 ==> indexWalk == old(indexWalk)
    {
      if body.velocityX != 0 {
        if indexWalk == 1 {
          indexWalk := 0;
        } else {
          indexWalk := indexWalk + 1;
        }
      }
    }
  }

  /** A bullet: flies horizontally at a fixed velocity, without gravity. */
  class Bullet {
    var rect: Rect
    const velocityX: int

    constructor (shooter: Rect, velocityX: int)
      ensures rect == BulletBox(shooter) && this.velocityX == velocityX
    {
      rect := BulletBox(shooter);
      this.velocityX := velocityX;
    }

    method Update()
      modifies this`rect
      ensures rect == old(rect).MoveX(velocityX)
    {
      rect := rect.(x := rect.x + velocityX);
    }
  }

  /** One row of a platform or obstacle table: position, size and a category
      that only selects the picture. */
  datatype TileInfo = TileInfo(x: int, y: int, w: int, h: int, category: string)

  /** One row of a coin or enemy table. */
  datatype Pos = Pos(x: int, y: int)

  /** A text annotation drawn in the level; it scrolls with the level. */
  datatype Text = Text(message: string, x: int, y: int)

  function Boxes(info: seq<TileInfo>): (rs: seq<Rect>)
    ensures |rs| == |info|
    ensures forall i :: 0 <= i < |info| ==> rs[i] == Rect(info[i].x, info[i].y, info[i].w, info[i].h)
  {
    seq(|info|, i requires 0 <= i < |info| => Rect(info[i].x, info[i].y, info[i].w, info[i].h))
  }

  function CoinBoxes(pos: seq<Pos>): (rs: seq<Rect>)
    ensures |rs| == |pos|
    ensures forall i :: 0 <= i < |pos| ==> rs[i] == Rect(pos[i].x, pos[i].y, CoinSize, CoinSize) && rs[i].Valid()
  {
    seq(|pos|, i requires 0 <= i < |pos| => Rect(pos[i].x, pos[i].y, CoinSize, CoinSize))
  }

  function ShiftedTexts(ts: seq<Text>, dx: int): (out: seq<Text>)
    ensures |out| == |ts|
    ensures forall i :: 0 <= i < |ts| ==> out[i] == ts[i].(x := ts[i].x + dx)
  {
    seq(|ts|, i requires 0 <= i < |ts| => ts[i].(x := ts[i].x + dx))
  }

  /** Move every box of a static collection horizontally, one at a time. */
  method ShiftAll(rs: seq<Rect>, dx: int) returns (out: seq<Rect>)
    ensures out == Shifted(rs, dx)
  {
    out := rs;
    for i := 0 to |out|
      invariant |out| == |rs|
      invariant forall k :: 0 <= k < i ==> out[k] == rs[k].MoveX(dx)
      invariant forall k :: i <= k < |rs| ==> out[k] == rs[k]
    {
      out := out[i := out[i].(x := out[i].x + dx)];
    }
  }

  /** Move every text annotation horizontally, one at a time. */
  method ShiftTexts(ts: seq<Text>, dx: int) returns (out: seq<Text>)
    ensures out == ShiftedTexts(ts, dx)
  {
    out := ts;
    for i := 0 to |out|
      invariant |out| == |ts|
      invariant forall k :: 0 <= k < i ==> out[k] == ts[k].(x := ts[k].x + dx)
      invariant forall k :: i <= k < |ts| ==> out[k] == ts[k]
    {
      out := out[i := out[i].(x := out[i].x + dx)];
    }
  }

  /** Add one box per platform or obstacle table row to a collection, in table order. */
  method AppendBoxes(group: seq<Rect>, info: seq<TileInfo>) returns (out: seq<Rect>)
    ensures out == group + Boxes(info)
  {
    out := group;
    for i := 0 to |info|
      invariant out == group + Boxes(info[..i])
    {
      out := out + [Rect(info[i].x, info[i].y, info[i].w, info[i].h)];
    }
    assert info[..|info|] == info;
  }

  /** Add one coin box per coin table row to a collection, in table order. */
  method AppendCoins(group: seq<Rect>, pos: seq<Pos>) returns (out: seq<Rect>)
    ensures out == group + CoinBoxes(pos)
  {
    out := group;
    for i := 0 to |pos|
      invariant out == group + CoinBoxes(pos[..i])
    {
      out := out + [Rect(pos[i].x, pos[i].y, CoinSize, CoinSize)];
    }
    assert pos[..|pos|] == pos;
  }

  /** A level: static platforms, coins and obstacles, text annotations, enemies,
      the bullets in flight on each side, and the scroll bookkeeping. Every box
      is in screen coordinates; worldShift is the scroll already applied to them. */
  class Level {
    var platforms: seq<Rect>
    var coins: seq<Rect>
    var obstacles: seq<Rect>
    var texts: seq<Text>
    var enemies: seq<MovingSprite>
    var playerBullets: seq<Bullet>
    var enemyBullets: seq<Bullet>
    var worldShift: int
    var maxWorldShift: int

    /** Each sprite group holds a sprite at most once, no bullet is on both
        sides, and every enemy is an enemy-kind sprite with a jump interval in range. */
    ghost predicate Valid()
      reads this`enemies, this`playerBullets, this`enemyBullets
    {
      && Distinct(enemies) && Distinct(playerBullets) && Distinct(enemyBullets)
      && (forall b :: b in playerBullets ==> b !in enemyBullets)
      && forall e :: e in enemies ==> IsEnemyKind(e.kind)
    }

    constructor ()
      ensures Valid()
      ensures platforms == [] && coins == [] && obstacles == [] && texts == []
      ensures enemies == [] && playerBullets == [] && enemyBullets == []
      ensures worldShift == 0 && maxWorldShift == 1000
    {
      platforms, coins, obstacles, texts := [], [], [], [];
      enemies, playerBullets, enemyBullets := [], [], [];
      worldShift := 0;
      maxWorldShift := 1000;
    }

    /** Populate the level from its layout tables. The enemies' jump intervals
        are the random draws, one per enemy. */
    method GenerateLevel(platformInfo: seq<TileInfo>, enemyPos: seq<Pos>, coinPos: seq<Pos>,
                         text: seq<Text>, obstacleInfo: seq<TileInfo>, jumpTimes: seq<int>)
      requires Valid()
      requires |jumpTimes| == |enemyPos| && forall t :: t in jumpTimes ==> 45 <= t <= 120
      modifies this`platforms, this`coins, this`enemies, this`texts, this`obstacles
      ensures Valid()
      ensures platforms == old(platforms) + Boxes(platformInfo)
      ensures coins == old(coins) + CoinBoxes(coinPos)
      ensures texts == old(texts) + text
      ensures obstacles == old(obstacles) + Boxes(obstacleInfo)
      ensures |enemies| == |old(enemies)| + |enemyPos| && enemies[..|old(enemies)|] == old(enemies)
      ensures forall j :: |old(enemies)| <= j < |enemies| ==>
        fresh(enemies[j]) && enemies[j].SpawnedAt(enemyPos[j - |old(enemies)|], jumpTimes[j - |old(enemies)|])
    {
      var added := AppendBoxes(platforms, platformInfo);
      platforms := added;
      added := AppendCoins(coins, coinPos);
      coins := added;
      SpawnEnemies(enemyPos, jumpTimes);
      texts := texts + text;
      added := AppendBoxes(obstacles, obstacleInfo);
      obstacles := added;
    }

    /** Create one enemy per table row, in table order, and add each to the
        enemy group; `jumpTimes` holds the random jump interval of each. */
    method SpawnEnemies(enemyPos: seq<Pos>, jumpTimes: seq<int>)
      requires Valid()
      requires |jumpTimes| == |enemyPos| && forall t :: t in jumpTimes ==> 45 <= t <= 120
      modifies this`enemies
      ensures Valid()
      ensures |enemies| == |old(enemies)| + |enemyPos| && enemies[..|old(enemies)|] == old(enemies)
      ensures forall j :: |old(enemies)| <= j < |enemies| ==>
        fresh(enemies[j]) && enemies[j].SpawnedAt(enemyPos[j - |old(enemies)|], jumpTimes[j - |old(enemies)|])
    {
      for i := 0 to |enemyPos|
        invariant |enemies| == |old(enemies)| + i && enemies[..|old(enemies)|] == old(enemies)
        invariant Valid()
        invariant forall j :: |old(enemies)| <= j < |enemies| ==>
          fresh(enemies[j]) && enemies[j].SpawnedAt(enemyPos[j - |old(enemies)|], jumpTimes[j - |old(enemies)|])
      {
        assert jumpTimes[i] in jumpTimes;
        var enemy := new MovingSprite(enemyPos[i].x, enemyPos[i].y, Unlimited, EnemySprite(jumpTimes[i]));
        enemies := enemies + [enemy];
      }
    }

    /** Scroll the level horizontally by `value`: a rigid translation of the
        platforms, coins, texts, obstacles and enemies, recorded in worldShift.
        Bullets and the player are not moved. */
    method Scroll(value: int)
      requires Valid()
      modifies this`worldShift, this`platforms, this`coins, this`texts, this`obstacles, enemies`rect
      ensures Valid()
      ensures worldShift == old(worldShift) + value
      ensures platforms == Shifted(old(platforms), value)
      ensures coins == Shifted(old(coins), value)
      ensures obstacles == Shifted(old(obstacles), value)
      ensures texts == ShiftedTexts(old(texts), value)
      ensures forall i :: 0 <= i < |enemies| ==>
        && enemies[i].rect == old(enemies[i].rect).MoveX(value)
        && enemies[i].velocityX == old(enemies[i].velocityX)
        && enemies[i].velocityY == old(enemies[i].velocityY)
        && enemies[i].ammo == old(enemies[i].ammo)
        && enemies[i].currentFrame == old(enemies[i].currentFrame)
    {
      worldShift := worldShift + value;
      platforms := ShiftAll(platforms, value);
      coins := ShiftAll(coins, value);
      texts := ShiftTexts(texts, value);
      obstacles := ShiftAll(obstacles, value);
      ShiftEnemies(value);
    }

    /** Move every enemy horizontally, one at a time; nothing else about them changes. */
    method ShiftEnemies(value: int)
      requires Valid()
      modifies enemies`rect
      ensures forall i :: 0 <= i < |enemies| ==>
        && enemies[i].rect == old(enemies[i].rect).MoveX(value)
        && enemies[i].velocityX == old(enemies[i].velocityX)
        && enemies[i].velocityY == old(enemies[i].velocityY)
        && enemies[i].ammo == old(enemies[i].ammo)
        && enemies[i].currentFrame == old(enemies[i].currentFrame)
    {
      for i := 0 to |enemies|
        invariant forall k :: 0 <= k < i ==> enemies[k].rect == old(enemies[k].rect).MoveX(value)
        invariant forall k :: i <= k < |enemies| ==> enemies[k].rect == old(enemies[k].rect)
      {
        enemies[i].rect := enemies[i].rect.MoveX(value);
      }
    }
  }
}
