/** The main loop of the game: the events of a frame, then one frame of game
    logic over the player, the two levels, the clock and the win flag, then
    the choice of the screen to show. The rules of the level advance and of
    the end screen are pure functions used by the loop. */
module Game {
  import opened Seqs
  import opened Geometry
  import opened Kinematics
  import opened Sprites
  import opened Interactions

  /** Seconds on the clock at the start. */
  const TimeLimit: int := 180
  /** Frames per second: the clock loses a second every this many frames. */
  const FramesPerSecond: int := 60
  /** Most bullets the player can carry. */
  const MaxAmmo: int := 20
  /** Points for finishing a level that is not the last. */
  const LevelBonus: int := 2500
  /** Scroll distance at which each level ends. */
  const FirstLevelEnd: int := 9970
  const SecondLevelEnd: int := 1920

  // ------------------------------------------------------------- level advance

  /** The player's ammo on reaching the next level: 10 more bullets when fewer
      than 10 are left, otherwise a full supply. */
  function RefilledAmmo(ammo: int): (r: int)
    ensures r <= MaxAmmo
    ensures 0 <= ammo ==> 10 <= r
    ensures ammo <= MaxAmmo ==> ammo <= r <= ammo + 10
    ensures ammo < 10 ==> r == ammo + 10
    ensures ammo >= 10 ==> r == MaxAmmo
  {
    if ammo < 10 then ammo + 10 else MaxAmmo
  }

  /** The health granted on reaching the next level: a third of what is
      missing to 100, rounded to the nearest integer. (100 - health) / 3 is
      never halfway between two integers, so there is no tie to break, and
      floor((100 - health + 1) / 3) is that nearest integer. */
  function HealBonus(health: int): (r: int)
    ensures -1 <= 3 * r - (100 - health) <= 1
    ensures health <= 100 ==> 0 <= r && health + r <= 100
  {
    (100 - health + 1) / 3
  }

  /** The level bonus closes about a third of the gap to full health: what is
      left missing is at most two thirds of it, rounded up; a player at full
      health gains nothing, and any player more than one point short gains something. */
  lemma HealBonusApproaches(health: int)
    requires health <= 100
    ensures 3 * (100 - (health + HealBonus(health))) <= 2 * (100 - health) + 1
    ensures health == 100 ==> HealBonus(health) == 0
    ensures health < 99 ==> HealBonus(health) > 0
  {
  }

  // ---------------------------------------------------------------- end screen

  /** What the frame ends by showing. */
  datatype Screen = Playing | Lost | Won | OutOfTime

  /** The end-screen choice, in priority order: no health left loses, even
      when the player has also won or run out of time; then a win; then the
      clock. */
  function ScreenOf(health: int, playerWon: bool, time: int): (s: Screen)
    ensures s == Lost <==> health <= 0
    ensures s == Won <==> health > 0 && playerWon
    ensures s == OutOfTime <==> health > 0 && !playerWon && time <= 0
    ensures s == Playing <==> health > 0 && !playerWon && time > 0
  {
    if health <= 0 then Lost
    else if playerWon then Won
    else if time <= 0 then OutOfTime
    else Playing
  }

  /** The score shown on an end screen: the game score plus 50 per second left
      and 75 per health point, where a loss counts neither (its health is set
      to 0) and a time-out counts no seconds. */
  function FinalScore(score: int, health: int, time: int, s: Screen): (r: int)
    requires s != Playing
    ensures s == Lost ==> r == score
    ensures s == OutOfTime ==> r == score + 75 * health
    ensures s == Won ==> r == score + 50 * time + 75 * health
  {
    var time := if s == Won then time else 0;
    var health := if s == Lost then 0 else health;
    score + time * 50 + health * 75
  }

  /** For the same game state, dying never pays more than running out of
      time, and running out of time never pays more than winning; the bonus
      is never negative. */
  lemma FinalScoreOrder(score: int, health: int, time: int)
    requires health > 0 && time >= 0
    ensures score <= FinalScore(score, health, time, Lost)
    ensures FinalScore(score, health, time, Lost) < FinalScore(score, health, time, OutOfTime)
    ensures FinalScore(score, health, time, OutOfTime) <= FinalScore(score, health, time, Won)
  {
  }

  // -------------------------------------------------------------------- events

  /** The keys the game reacts to; every other key is OtherKey. */
  datatype Key = LeftArrow | RightArrow | Space | KeyA | KeyD | KeyN | KeyM | Key1 | Key3 | OtherKey

  /** One event of the window's queue. */
  datatype Event = Quit | KeyDown(key: Key) | KeyUp(key: Key) | OtherEvent

  /** Releasing an arrow key stops the player only when the player is moving
      in that key's direction. */
  predicate ReleaseStops(k: Key, velocityX: int): (stops: bool)
    ensures stops ==> velocityX != 0 && (k == LeftArrow || k == RightArrow)
  {
    (k == RightArrow && velocityX > 0) || (k == LeftArrow && velocityX < 0)
  }

  /** The player's horizontal velocity after event e, from velocity vx:
      an arrow key press sets it to 6 pixels per frame in that direction, a
      release may stop it, and every other event leaves it. */
  function VelocityAfter(e: Event, vx: int): (v: int)
    ensures v == -6 || v == 0 || v == 6 || v == vx
    ensures !e.KeyDown? && !e.KeyUp? ==> v == vx
  {
    match e
    case KeyDown(LeftArrow) => -6
    case KeyDown(RightArrow) => 6
    case KeyUp(k) => if ReleaseStops(k, vx) then 0 else vx
    case _ => vx
  }

  /** Pressing an arrow key and releasing it stops the player, whatever the
      velocity before; releasing the other arrow key in between does not. A
      release never starts a player at rest. */
  lemma ReleaseAfterPress(k: Key, vx: int)
    requires k == LeftArrow || k == RightArrow
    ensures VelocityAfter(KeyUp(k), VelocityAfter(KeyDown(k), vx)) == 0
    ensures var other := if k == LeftArrow then RightArrow else LeftArrow;
      VelocityAfter(KeyUp(other), VelocityAfter(KeyDown(k), vx)) == VelocityAfter(KeyDown(k), vx) != 0
    ensures forall k: Key :: VelocityAfter(KeyUp(k), 0) == 0
  {
  }

  /** The player's horizontal velocity after a queue of events, from velocity vx. */
  function Steered(events: seq<Event>, vx: int): (v: int)
    ensures v == vx || v == -6 || v == 0 || v == 6
    decreases |events|
  {
    if events == [] then vx
    else
      var n := |events| - 1;
      VelocityAfter(events[n], Steered(events[..n], vx))
  }

  /** A queue without key presses or releases leaves the velocity alone. */
  lemma {:induction false} SteeredIdle(events: seq<Event>, vx: int)
    requires forall k :: 0 <= k < |events| ==> !events[k].KeyDown? && !events[k].KeyUp?
    ensures Steered(events, vx) == vx
    decreases |events|
  {
    if events != [] {
      SteeredIdle(events[..|events| - 1], vx);
    }
  }

  /** How many times key k is pressed in a queue of events. */
  function Presses(events: seq<Event>, k: Key): (n: nat)
    ensures n <= |events|
    ensures n == 0 <==> KeyDown(k) !in events
    decreases |events|
  {
    if events == [] then 0
    else
      var n := |events| - 1;
      assert events == events[..n] + [events[n]];
      Presses(events[..n], k) + (if events[n] == KeyDown(k) then 1 else 0)
  }

  /** A switch that key k flips, after a queue of events, from setting b. */
  function Flipped(events: seq<Event>, k: Key, b: bool): bool
    decreases |events|
  {
    if events == [] then b
    else
      var n := |events| - 1;
      Flipped(events[..n], k, b) != (events[n] == KeyDown(k))
  }

  /** The switch and velocity folds over a queue, one event further. */
  lemma SwitchesStep(prefix: seq<Event>, e: Event, vx: int)
    ensures Steered(prefix + [e], vx) == VelocityAfter(e, Steered(prefix, vx))
    ensures forall k: Key, b: bool {:trigger Flipped(prefix + [e], k, b)} ::
      Flipped(prefix + [e], k, b) == (Flipped(prefix, k, b) != (e == KeyDown(k)))
    ensures KeyDown(Space) in prefix + [e] <==> KeyDown(Space) in prefix || e == KeyDown(Space)
    ensures Quit in prefix + [e] <==> Quit in prefix || e == Quit
  {
    assert (prefix + [e])[..|prefix|] == prefix;
  }

  /** The shots fired over a queue, one event further. */
  lemma ShotsStep(prefix: seq<Event>, e: Event, ammo: int, box: Rect)
    ensures ShotsFired(prefix + [e], ammo, box) == ShotsFired(prefix, ammo, box)
      + (if FiresShot(e) && |ShotsFired(prefix, ammo, box)| < ammo
         then [Shot(BulletBox(box), ShotVelocityOf(e.key))] else [])
  {
    assert (prefix + [e])[..|prefix|] == prefix;
  }

  /** The switches and velocities the event queue acts on. */
  datatype Controls = Controls(done: bool, sound: bool, hud: bool, log: bool, vx: int, vy: int)

  /** A switch ends flipped exactly when its key was pressed an odd number of times. */
  lemma {:induction false} FlippedParity(events: seq<Event>, k: Key, b: bool)
    ensures Flipped(events, k, b) == (b != (Presses(events, k) % 2 == 1))
    decreases |events|
  {
    if events != [] {
      FlippedParity(events[..|events| - 1], k, b);
    }
  }

  /** The shots the player fires during a queue of events, starting with
      `ammo` rounds and standing with box `box`: every press of A or D fires
      one while rounds are left, and a press without rounds fires nothing. */
  function ShotsFired(events: seq<Event>, ammo: int, box: Rect): (shots: seq<Shot>)
    ensures |shots| <= |events|
    ensures 0 <= ammo ==> |shots| <= ammo
    decreases |events|
  {
    if events == [] then []
    else
      var n := |events| - 1;
      var earlier := ShotsFired(events[..n], ammo, box);
      earlier + (if FiresShot(events[n]) && |earlier| < ammo
                 then [Shot(BulletBox(box), ShotVelocityOf(events[n].key))] else [])
  }

  /** Every shot the player fires leaves from the player's corner, at 15
      pixels per frame one way or the other. */
  lemma {:induction false} ShotsFiredFromPlayer(events: seq<Event>, ammo: int, box: Rect)
    ensures forall k :: 0 <= k < |ShotsFired(events, ammo, box)| ==>
      && ShotsFired(events, ammo, box)[k].box == BulletBox(box)
      && (ShotsFired(events, ammo, box)[k].velocityX == 15 || ShotsFired(events, ammo, box)[k].velocityX == -15)
    decreases |events|
  {
    if events != [] {
      ShotsFiredFromPlayer(events[..|events| - 1], ammo, box);
    }
  }

  /** The velocity of the bullet a key fires: A shoots left, D shoots right. */
  function ShotVelocityOf(k: Key): (v: int)
    requires k == KeyA || k == KeyD
    ensures v == 15 || v == -15
    ensures v < 0 <==> k == KeyA
  {
    if k == KeyA then -15 else 15
  }

  /** Whether event e is a press of a shooting key. */
  predicate FiresShot(e: Event) {
    e.KeyDown? && (e.key == KeyA || e.key == KeyD)
  }

  /** The player fires one shot per press of A or D until the rounds run out:
      as many shots as presses, but never more than the rounds held. */
  lemma {:induction false} ShotsFiredCount(events: seq<Event>, ammo: int, box: Rect)
    requires 0 <= ammo
    ensures var presses := Presses(events, KeyA) + Presses(events, KeyD);
      |ShotsFired(events, ammo, box)| == if presses < ammo then presses else ammo
    decreases |events|
  {
    if events != [] {
      ShotsFiredCount(events[..|events| - 1], ammo, box);
    }
  }

  // ------------------------------------------------------ enemies, every frame

  /** One enemy's shot, if it takes one: the box and velocity of its bullet. */
  datatype Shot = Shot(box: Rect, velocityX: int)

  /** The shots the enemies take when they all shoot at `target`, in group
      order: each enemy with ammo and within shooting range fires once, aimed
      at the target. */
  ghost function Shots(es: seq<MovingSprite>, target: Rect): (shots: seq<Shot>)
    reads es
    ensures |shots| <= |es|
    decreases |es|
  {
    if es == [] then []
    else
      var n := |es| - 1;
      Shots(es[..n], target) + ShotBy(es[n], target)
  }

  /** The shot enemy e takes at `target`: one bullet aimed at it when e has
      ammo and the target is in shooting range, none otherwise. */
  ghost function ShotBy(e: MovingSprite, target: Rect): seq<Shot>
    reads e
  {
    if InShootingRange(target, e.rect) && e.ammo.Available()
    then [Shot(BulletBox(e.rect), ShotVelocity(target, e.rect))] else []
  }

  /** Every enemy shot is a bullet-sized box travelling at 15 pixels per
      frame, one way or the other. */
  lemma {:induction false} ShotsAimed(es: seq<MovingSprite>, target: Rect)
    ensures forall k :: 0 <= k < |Shots(es, target)| ==>
      && Shots(es, target)[k].box.Valid()
      && (Shots(es, target)[k].velocityX == 15 || Shots(es, target)[k].velocityX == -15)
    decreases |es|
  {
    if es != [] {
      ShotsAimed(es[..|es| - 1], target);
    }
  }

  /** The bullets bs are the shots, one for one, in order. */
  ghost predicate Carry(bs: seq<Bullet>, shots: seq<Shot>)
    reads bs
  {
    && |bs| == |shots|
    && forall k :: 0 <= k < |bs| ==> bs[k].rect == shots[k].box && bs[k].velocityX == shots[k].velocityX
  }

  /** Carrying extends by one bullet that matches one more shot. */
  lemma CarryAppend(bs: seq<Bullet>, shots: seq<Shot>, b: Bullet, s: Shot)
    requires Carry(bs, shots) && b.rect == s.box && b.velocityX == s.velocityX
    ensures Carry(bs + [b], shots + [s])
  {
  }

  /** An enemy's ammo after it shoots at `target` from box r: one round
      less when it fires, the same otherwise. An unlimited supply stays
      unlimited. */
  function AmmoAfterShot(ammo: Ammo, target: Rect, r: Rect): (a: Ammo)
    ensures a == ammo || a == ammo.Spent()
    ensures ammo.Unlimited? ==> a == Unlimited
    ensures a != ammo <==> InShootingRange(target, r) && ammo.Rounds? && ammo.count > 0
  {
    if InShootingRange(target, r) && ammo.Available() then ammo.Spent() else ammo
  }

  /** Every enemy of the level shoots at the target, one after the other.
      Their bullets are appended to the enemy-bullet group in group order,
      and each enemy's ammo is what its own shot left. */
  method EnemiesShoot(level: Level, target: Rect)
    requires level.Valid()
    modifies level`enemyBullets, level`playerBullets, level.enemies`ammo
    ensures level.Valid()
    ensures level.playerBullets == old(level.playerBullets)
    ensures |level.enemyBullets| >= |old(level.enemyBullets)|
    ensures level.enemyBullets[..|old(level.enemyBullets)|] == old(level.enemyBullets)
    ensures Carry(level.enemyBullets[|old(level.enemyBullets)|..], old(Shots(level.enemies, target)))
    ensures fresh(level.enemyBullets[|old(level.enemyBullets)|..])
    ensures forall k :: 0 <= k < |level.enemies| ==>
      level.enemies[k].ammo == AmmoAfterShot(old(level.enemies[k].ammo), target, level.enemies[k].rect)
  {
    var es := level.enemies;
    ghost var added: seq<Bullet> := [];
    for i := 0 to |es|
      invariant level.Valid() && level.enemies == es
      invariant level.playerBullets == old(level.playerBullets)
      invariant level.enemyBullets == old(level.enemyBullets) + added
      invariant Carry(added, old(Shots(es[..i], target)))
      invariant fresh(added)
      invariant forall k :: 0 <= k < |es| ==>
        es[k].ammo == if k < i then AmmoAfterShot(old(es[k].ammo), target, es[k].rect) else old(es[k].ammo)
    {
      assert es[..i + 1][..i] == es[..i];
      assert old(Shots(es[..i + 1], target)) == old(Shots(es[..i], target)) + old(ShotBy(es[i], target));
      ghost var fired := ShootInTurn(level, es[i], target, old(level.enemyBullets), added, old(Shots(es[..i], target)));
      added := added + fired;
    }
    assert es[..|es|] == es;
    assert level.enemyBullets[|old(level.enemyBullets)|..] == added;
  }

  /** One enemy's turn in EnemiesShoot: it shoots at the target, and the
      bullet it fires, if any, is appended after the ones fired before it. */
  method ShootInTurn(level: Level, e: MovingSprite, target: Rect,
                     ghost start: seq<Bullet>, ghost added: seq<Bullet>, ghost prior: seq<Shot>)
    returns (ghost fired: seq<Bullet>)
    requires level.Valid() && e in level.enemies
    requires level.enemyBullets == start + added && Carry(added, prior)
    modifies level`enemyBullets, level`playerBullets, e`ammo
    ensures level.Valid()
    ensures level.playerBullets == old(level.playerBullets)
    ensures level.enemyBullets == start + added + fired && fresh(fired)
    ensures Carry(added + fired, prior + old(ShotBy(e, target)))
    ensures e.ammo == AmmoAfterShot(old(e.ammo), target, e.rect)
  {
    e.ShootAt(target, level);
    fired := level.enemyBullets[|start + added|..];
    assert level.enemyBullets == start + added + fired;
  }

  /** Every enemy of the level whose jump interval divides the frame number
      tries to jump towards the target. */
  method EnemiesJump(level: Level, target: Rect, frame: int)
    requires Distinct(level.enemies)
    modifies level.enemies`rect, level.enemies`velocityY
    ensures forall k :: 0 <= k < |level.enemies| ==>
      && level.enemies[k].rect == old(level.enemies[k].rect)
      && level.enemies[k].velocityY ==
        (if JumpDue(level.enemies[k].kind, frame) && InJumpingRange(target, old(level.enemies[k].rect))
            && Grounded(old(level.enemies[k].rect), level.platforms)
         then JumpVelocity else old(level.enemies[k].velocityY))
    ensures forall e :: e in level.enemies ==>
      && e.velocityX == old(e.velocityX) && e.ammo == old(e.ammo) && e.currentFrame == old(e.currentFrame)
  {
    var es := level.enemies;
    for i := 0 to |es|
      invariant forall k :: 0 <= k < i ==>
        && es[k].rect == old(es[k].rect)
        && es[k].velocityY ==
          (if JumpDue(es[k].kind, frame) && InJumpingRange(target, old(es[k].rect))
              && Grounded(old(es[k].rect), level.platforms)
           then JumpVelocity else old(es[k].velocityY))
      invariant forall k :: i <= k < |es| ==> unchanged(es[k])
    {
      if JumpDue(es[i].kind, frame) {
        es[i].JumpNear(target, level.platforms);
      }
    }
  }

  /** An enemy's jump interval divides the frame number. */
  predicate JumpDue(k: Kind, frame: int) {
    k.EnemySprite? && k.jumpTime > 0 && frame % k.jumpTime == 0
  }

  /** An enemy's jumps come round on a fixed period: a jump is due again
      exactly one interval later, and never sooner than 45 frames after the
      last. The player never jumps on this schedule. */
  lemma JumpsSpaced(k: Kind, f: int, g: int)
    requires JumpDue(k, f)
    ensures k.EnemySprite? && JumpDue(k, f + k.jumpTime)
    ensures IsEnemyKind(k) && JumpDue(k, g) && f < g ==> g - f >= 45
  {
    var j := k.jumpTime;
    MultipleMod(j, f / j + 1);
    assert f + j == j * (f / j + 1);
    if IsEnemyKind(k) && JumpDue(k, g) && f < g {
      MultiplesApart(j, f / j, g / j);
    }
  }

  /** Two distinct multiples of a positive j lie at least j apart. */
  lemma MultiplesApart(j: int, a: int, b: int)
    requires j > 0 && j * a < j * b
    ensures j * b - j * a >= j
  {
    if b <= a {
      assert j * a - j * b == j * (a - b);
      assert j * (a - b) >= 0 by { NonNegativeProduct(j, a - b); }
    } else {
      assert j * b - j * a == j * (b - a - 1) + j;
      NonNegativeProduct(j, b - a - 1);
    }
  }

  lemma NonNegativeProduct(j: int, m: int)
    requires j > 0 && m >= 0
    ensures j * m >= 0
  {
  }

  /** A multiple of a positive j leaves no remainder. */
  lemma MultipleMod(j: int, c: int)
    requires j > 0
    ensures (j * c) % j == 0
  {
    var q, r := (j * c) / j, (j * c) % j;
    assert j * c == j * q + r && 0 <= r < j;
    var m := c - q;
    assert j * m == r by { assert j * c - j * q == j * (c - q); }
    if m >= 1 {
      NonNegativeProduct(j, m - 1);
    }
  }

  // ------------------------------------------------------- moving, every frame

  /** Sprite e has taken one tick of motion from box r, vertical velocity vy
      and frame number frame, against the given platforms. */
  ghost predicate Ticked(e: MovingSprite, r: Rect, vy: int, frame: int, platforms: seq<Rect>)
    reads e
  {
    (e.rect, e.velocityY) == Advance(r, e.velocityX, vy, platforms) && e.currentFrame == frame + 1
  }

  /** Every enemy of the level takes one tick of motion against the level's platforms. */
  method UpdateEnemies(level: Level)
    requires Distinct(level.enemies)
    modifies level.enemies`rect, level.enemies`velocityY, level.enemies`currentFrame
    ensures forall k :: 0 <= k < |level.enemies| ==>
      Ticked(level.enemies[k], old(level.enemies[k].rect), old(level.enemies[k].velocityY),
             old(level.enemies[k].currentFrame), level.platforms)
    ensures forall e :: e in level.enemies ==> e.velocityX == old(e.velocityX) && e.ammo == old(e.ammo)
  {
    var es := level.enemies;
    for i := 0 to |es|
      invariant forall k :: 0 <= k < i ==>
        Ticked(es[k], old(es[k].rect), old(es[k].velocityY), old(es[k].currentFrame), level.platforms)
      invariant forall k :: i <= k < |es| ==> unchanged(es[k])
    {
      es[i].Update(level.platforms);
    }
  }

  /** Every bullet of a group flies one step. */
  method UpdateBullets(bs: seq<Bullet>)
    requires Distinct(bs)
    modifies bs`rect
    ensures forall k :: 0 <= k < |bs| ==> bs[k].rect == old(bs[k].rect).MoveX(bs[k].velocityX)
  {
    for i := 0 to |bs|
      invariant forall k :: 0 <= k < i ==> bs[k].rect == old(bs[k].rect).MoveX(bs[k].velocityX)
      invariant forall k :: i <= k < |bs| ==> bs[k].rect == old(bs[k].rect)
    {
      bs[i].Update();
    }
  }

  /** One `update` of every sprite of the level: the enemies tick, the
      bullets of both sides fly. Platforms and coins do not move. */
  method UpdateGroups(level: Level)
    requires level.Valid()
    modifies level.enemies`rect, level.enemies`velocityY, level.enemies`currentFrame
    modifies level.playerBullets`rect, level.enemyBullets`rect
    ensures forall k :: 0 <= k < |level.enemies| ==>
      Ticked(level.enemies[k], old(level.enemies[k].rect), old(level.enemies[k].velocityY),
             old(level.enemies[k].currentFrame), level.platforms)
    ensures forall k :: 0 <= k < |level.playerBullets| ==>
      level.playerBullets[k].rect == old(level.playerBullets[k].rect).MoveX(level.playerBullets[k].velocityX)
    ensures forall k :: 0 <= k < |level.enemyBullets| ==>
      level.enemyBullets[k].rect == old(level.enemyBullets[k].rect).MoveX(level.enemyBullets[k].velocityX)
  {
    UpdateEnemies(level);
    UpdateBullets(level.playerBullets);
    assert forall k :: 0 <= k < |level.playerBullets| ==> level.playerBullets[k] !in level.enemyBullets;
    UpdateBullets(level.enemyBullets);
  }

  // ------------------------------------------------------------- the controls

  /** The player shoots with the given bullet velocity, if it has ammo. */
  method Fire(player: Player, level: Level, velocity: int)
    requires level.Valid() && player.body !in level.enemies && player.body.ammo.Rounds?
    modifies player.body`ammo, level`playerBullets, level`enemyBullets
    ensures level.Valid()
    ensures level.enemyBullets == old(level.enemyBullets)
    ensures old(player.body.ammo.count) <= 0 ==>
      && player.body.ammo == old(player.body.ammo)
      && level.playerBullets == old(level.playerBullets)
    ensures old(player.body.ammo.count) > 0 ==>
      && player.body.ammo == Rounds(old(player.body.ammo.count) - 1)
      && Fired(old(level.playerBullets), level.playerBullets, player.body.rect, velocity)
    ensures forall i :: 0 <= i < |level.playerBullets| ==> level.playerBullets[i] in old(level.playerBullets) || fresh(level.playerBullets[i])
  {
    player.body.Shoot(level, velocity);
  }

  /** The player's controls: the arrow keys set the horizontal velocity,
      space jumps, A and D shoot left and right, and releasing the arrow key
      of the current direction stops. Any other event leaves the player alone. */
  method Steer(player: Player, e: Event, level: Level)
    requires level.Valid() && player.body !in level.enemies && player.body.ammo.Rounds?
    modifies player.body`velocityX, player.body`velocityY, player.body`rect, player.body`ammo
    modifies level`playerBullets, level`enemyBullets
    ensures level.Valid() && player.body.ammo.Rounds?
    ensures player.body.rect == old(player.body.rect)
    ensures player.body.velocityX == VelocityAfter(e, old(player.body.velocityX))
    ensures player.body.velocityY ==
      if e == KeyDown(Space) && Grounded(old(player.body.rect), level.platforms)
      then JumpVelocity else old(player.body.velocityY)
    ensures level.enemyBullets == old(level.enemyBullets)
    ensures !FiresShot(e) || old(player.body.ammo.count) <= 0 ==>
      && player.body.ammo == old(player.body.ammo)
      && level.playerBullets == old(level.playerBullets)
    ensures FiresShot(e) && old(player.body.ammo.count) > 0 ==>
      && player.body.ammo.count == old(player.body.ammo.count) - 1
      && Fired(old(level.playerBullets), level.playerBullets,
               player.body.rect, ShotVelocityOf(e.key))
    ensures forall i :: 0 <= i < |level.playerBullets| ==> level.playerBullets[i] in old(level.playerBullets) || fresh(level.playerBullets[i])
  {
    match e {
      case KeyDown(LeftArrow) => player.body.Move(-6);
      case KeyDown(RightArrow) => player.body.Move(6);
      case KeyDown(Space) => player.body.Jump(level.platforms);
      case KeyDown(KeyA) => Fire(player, level, -15);
      case KeyDown(KeyD) => Fire(player, level, 15);
      case KeyUp(k) =>
        if ReleaseStops(k, player.body.velocityX) {
          player.body.Move(0);
        }
      case _ =>
    }
  }

  // ------------------------------------------------------------------ the game

  /** A phase that changes only the current level's groups (keeping them
      well formed), lowers the player's health at most and moves the
      player's frame counter forward keeps the game well formed. */
  twostate lemma StaysValid(g: Game)
    requires old(g.Valid())
    requires g.currentLevelNo == old(g.currentLevelNo) && g.time == old(g.time)
    requires g.levels[g.currentLevelNo].Valid()
    requires g.levels[1 - g.currentLevelNo].enemies == old(g.levels[1 - g.currentLevelNo].enemies)
    requires g.levels[1 - g.currentLevelNo].playerBullets == old(g.levels[1 - g.currentLevelNo].playerBullets)
    requires g.levels[1 - g.currentLevelNo].enemyBullets == old(g.levels[1 - g.currentLevelNo].enemyBullets)
    requires g.player.indexWalk == old(g.player.indexWalk)
    requires g.player.body.ammo.Rounds? && 0 <= g.player.body.ammo.count <= old(g.player.body.ammo.count)
    requires g.player.health <= old(g.player.health)
    requires old(g.player.body.currentFrame) <= g.player.body.currentFrame
    ensures g.Valid()
  {
  }

  /** The state of a running game: the player, the two levels, which level is
      being played, the clock in seconds, the win flag, and the switches the
      keyboard toggles. */
  class Game {
    const player: Player
    const levels: seq<Level>
    var currentLevelNo: int
    var time: int
    var playerWon: bool
    var done: bool
    var playCoinSound: bool
    var dispHud: bool
    var dispLog: bool

    /** Two distinct well-formed levels, one of them current; the player is
        not an enemy, carries between 0 and 20 bullets, has at most 100 health
        and a walk frame index of 0 or 1; the clock is between 0 and 180. */
    ghost predicate Valid()
      reads this, player, player.body, levels
    {
      && |levels| == 2 && levels[0] != levels[1]
      && 0 <= currentLevelNo < |levels|
      && levels[0].Valid() && levels[1].Valid()
      && player.body.kind == PlayerSprite
      && (player.indexWalk == 0 || player.indexWalk == 1)
      && player.body.ammo.Rounds? && 0 <= player.body.ammo.count <= MaxAmmo
      && player.health <= 100
      && 0 <= time <= TimeLimit
      && 0 <= player.body.currentFrame
    }

    /** A new game on the two generated levels: the first level ends at a
        scroll of 9970 pixels and the second at 1920; the player starts on the
        first level with the clock at 180 seconds. */
    constructor (first: Level, second: Level)
      requires first != second && first.Valid() && second.Valid()
      modifies first`maxWorldShift, second`maxWorldShift
      ensures Valid()
      ensures levels == [first, second] && currentLevelNo == 0
      ensures first.maxWorldShift == FirstLevelEnd && second.maxWorldShift == SecondLevelEnd
      ensures fresh(player) && fresh(player.body)
      ensures player.body.rect == Rect(150, 150, SpriteWidth, SpriteHeight)
      ensures player.body.ammo == Rounds(MaxAmmo) && player.health == 100 && player.score == 0 && player.coins == 0
      ensures time == TimeLimit && !playerWon && !done
      ensures playCoinSound && dispHud && !dispLog
    {
      levels := [first, second];
      currentLevelNo := 0;
      player := new Player();
      time := TimeLimit;
      playerWon, done := false, false;
      playCoinSound, dispHud, dispLog := true, true, false;
      new;
      first.maxWorldShift := FirstLevelEnd;
      second.maxWorldShift := SecondLevelEnd;
    }

    /** Handle one event of the queue: quitting and toggling the coin
        sound, the HUD or the log here; moving, jumping, shooting and
        stopping on release through the player's controls. The key tests are
        exclusive, so doing the toggles first changes nothing. */
    method HandleEvent(e: Event, level: Level)
      requires level.Valid() && player.body !in level.enemies && player.body.ammo.Rounds?
      modifies this`done, this`playCoinSound, this`dispHud, this`dispLog
      modifies player.body`velocityX, player.body`velocityY, player.body`rect, player.body`ammo
      modifies level`playerBullets, level`enemyBullets
      ensures level.Valid() && player.body.ammo.Rounds?
      ensures done == (old(done) || e == Quit)
      ensures playCoinSound == (old(playCoinSound) != (e == KeyDown(Key3)))
      ensures dispHud == (old(dispHud) != (e == KeyDown(KeyN)))
      ensures dispLog == (old(dispLog) != (e == KeyDown(KeyM)))
      ensures player.body.rect == old(player.body.rect)
      ensures player.body.velocityX == VelocityAfter(e, old(player.body.velocityX))
      ensures player.body.velocityY ==
        if e == KeyDown(Space) && Grounded(old(player.body.rect), level.platforms)
        then JumpVelocity else old(player.body.velocityY)
      ensures level.enemyBullets == old(level.enemyBullets)
      ensures !FiresShot(e) || old(player.body.ammo.count) <= 0 ==>
        && player.body.ammo == old(player.body.ammo)
        && level.playerBullets == old(level.playerBullets)
      ensures FiresShot(e) && old(player.body.ammo.count) > 0 ==>
        && player.body.ammo.count == old(player.body.ammo.count) - 1
        && Fired(old(level.playerBullets), level.playerBullets,
                 player.body.rect, ShotVelocityOf(e.key))
      ensures forall i :: 0 <= i < |level.playerBullets| ==> level.playerBullets[i] in old(level.playerBullets) || fresh(level.playerBullets[i])
    {
      if e == Quit {
        done := true;
      } else if e == KeyDown(Key3) {
        playCoinSound := !playCoinSound;
      } else if e == KeyDown(KeyN) {
        dispHud := !dispHud;
      } else if e == KeyDown(KeyM) {
        dispLog := !dispLog;
      }
      Steer(player, e, level);
    }

    /** The frame's events before the end of `prefix` have acted on the
        switches and velocities in order, starting from `start`, with the
        player standing at `box`. */
    ghost predicate Switched(prefix: seq<Event>, start: Controls, box: Rect, level: Level)
      reads this, player.body, level
    {
      && done == (start.done || Quit in prefix)
      && playCoinSound == Flipped(prefix, Key3, start.sound)
      && dispHud == Flipped(prefix, KeyN, start.hud)
      && dispLog == Flipped(prefix, KeyM, start.log)
      && player.body.rect == box
      && player.body.velocityX == Steered(prefix, start.vx)
      && player.body.velocityY ==
        (if KeyDown(Space) in prefix && Grounded(box, level.platforms) then JumpVelocity else start.vy)
    }

    /** The frame's events before the end of `prefix` have fired their shots,
        starting from `ammo` rounds with the player at `box` and the current
        level's player bullets `pb0`: the rounds left are the ones not fired,
        and `added`, the bullets appended, are the shots in order. */
    ghost predicate Loaded(prefix: seq<Event>, box: Rect, ammo: int, pb0: seq<Bullet>, added: seq<Bullet>, level: Level)
      reads player.body, level, added
    {
      && player.body.ammo.Rounds? && player.body.ammo.count == ammo - |ShotsFired(prefix, ammo, box)|
      && level.playerBullets == pb0 + added
      && Carry(added, ShotsFired(prefix, ammo, box))
    }

    /** The next event of the queue, seen from the switches and velocities;
        what it does to the ammo and the bullets is HandleEvent's. */
    method HandleSwitched(events: seq<Event>, i: nat, level: Level, ghost start: Controls, ghost box: Rect)
      requires i < |events| && level.Valid() && player.body !in level.enemies && player.body.ammo.Rounds?
      requires Switched(events[..i], start, box, level)
      modifies this`done, this`playCoinSound, this`dispHud, this`dispLog
      modifies player.body`velocityX, player.body`velocityY, player.body`rect, player.body`ammo
      modifies level`playerBullets, level`enemyBullets
      ensures level.Valid() && player.body.ammo.Rounds? && Switched(events[..i + 1], start, box, level)
      ensures level.enemyBullets == old(level.enemyBullets)
      ensures !FiresShot(events[i]) || old(player.body.ammo.count) <= 0 ==>
        && player.body.ammo == old(player.body.ammo)
        && level.playerBullets == old(level.playerBullets)
      ensures FiresShot(events[i]) && old(player.body.ammo.count) > 0 ==>
        && player.body.ammo.count == old(player.body.ammo.count) - 1
        && Fired(old(level.playerBullets), level.playerBullets,
                 player.body.rect, ShotVelocityOf(events[i].key))
      ensures forall k :: 0 <= k < |level.playerBullets| ==>
        level.playerBullets[k] in old(level.playerBullets) || fresh(level.playerBullets[k])
    {
      assert events[..i + 1] == events[..i] + [events[i]];
      SwitchesStep(events[..i], events[i], start.vx);
      HandleEvent(events[i], level);
    }

    /** The next event of the queue, handled on top of the ones before it. */
    method HandleQueued(events: seq<Event>, i: nat, level: Level, ghost start: Controls, ghost box: Rect,
                        ghost ammo: int, ghost pb0: seq<Bullet>, ghost added: seq<Bullet>)
      returns (ghost more: seq<Bullet>)
      requires i < |events| && level.Valid() && player.body !in level.enemies
      requires Switched(events[..i], start, box, level) && Loaded(events[..i], box, ammo, pb0, added, level)
      modifies this`done, this`playCoinSound, this`dispHud, this`dispLog
      modifies player.body`velocityX, player.body`velocityY, player.body`rect, player.body`ammo
      modifies level`playerBullets, level`enemyBullets
      ensures level.Valid() && Switched(events[..i + 1], start, box, level)
      ensures Loaded(events[..i + 1], box, ammo, pb0, more, level)
      ensures level.enemyBullets == old(level.enemyBullets)
      ensures forall k :: 0 <= k < |level.playerBullets| ==>
        level.playerBullets[k] in old(level.playerBullets) || fresh(level.playerBullets[k])
    {
      ghost var fired := ShotsFired(events[..i], ammo, box);
      assert events[..i + 1] == events[..i] + [events[i]];
      ShotsStep(events[..i], events[i], ammo, box);
      ghost var fires := FiresShot(events[i]) && |fired| < ammo;
      assert ShotsFired(events[..i + 1], ammo, box) ==
        fired + if fires then [Shot(BulletBox(box), ShotVelocityOf(events[i].key))] else [];
      HandleSwitched(events, i, level, start, box);
      more := added;
      if fires {
        ghost var b := level.playerBullets[|pb0 + added|];
        assert level.playerBullets == old(level.playerBullets) + [b];
        more := added + [b];
        assert more[..|added|] == added;
        assert level.playerBullets == pb0 + more;
        CarryAppend(added, fired, b, Shot(BulletBox(box), ShotVelocityOf(events[i].key)));
      }
    }

    /** All the events of a frame, in queue order. Quitting is sticky, each
        switch flips once per press of its key, the velocity is the fold of
        the single-event rule over the queue, space makes a grounded player
        jump, and the fire keys append one player bullet per press while
        rounds are left. The player does not move. */
    method HandleEvents(events: seq<Event>)
      requires Valid()
      modifies this`done, this`playCoinSound, this`dispHud, this`dispLog
      modifies player.body`velocityX, player.body`velocityY, player.body`rect, player.body`ammo
      modifies levels[currentLevelNo]
      ensures Valid()
      ensures done == (old(done) || Quit in events)
      ensures playCoinSound == (old(playCoinSound) != (Presses(events, Key3) % 2 == 1))
      ensures dispHud == (old(dispHud) != (Presses(events, KeyN) % 2 == 1))
      ensures dispLog == (old(dispLog) != (Presses(events, KeyM) % 2 == 1))
      ensures player.body.rect == old(player.body.rect)
      ensures player.body.velocityX == Steered(events, old(player.body.velocityX))
      ensures player.body.velocityY ==
        if KeyDown(Space) in events && Grounded(old(player.body.rect), levels[currentLevelNo].platforms)
        then JumpVelocity else old(player.body.velocityY)
      ensures var fired := ShotsFired(events, old(player.body.ammo.count), old(player.body.rect));
        var pb, pb0 := levels[currentLevelNo].playerBullets, old(levels[currentLevelNo].playerBullets);
        && player.body.ammo.count == old(player.body.ammo.count) - |fired|
        && |pb| == |pb0| + |fired| && pb[..|pb0|] == pb0
        && Carry(pb[|pb0|..], fired)
      ensures forall l :: l in levels ==>
        && l.enemies == old(l.enemies) && l.enemyBullets == old(l.enemyBullets)
        && l.platforms == old(l.platforms) && l.coins == old(l.coins)
        && l.obstacles == old(l.obstacles) && l.texts == old(l.texts)
        && l.worldShift == old(l.worldShift) && l.maxWorldShift == old(l.maxWorldShift)
      ensures forall l, i :: l in levels && 0 <= i < |l.playerBullets| ==>
          l.playerBullets[i] in old(l.playerBullets) || fresh(l.playerBullets[i])
    {
      var level: Level := levels[currentLevelNo];
      assert player.body !in level.enemies;
      ghost var added := HandleQueue(events, level);
      assert level.playerBullets[|old(level.playerBullets)|..] == added;
      StaysValid(this);
      FlippedParity(events, Key3, old(playCoinSound));
      FlippedParity(events, KeyN, old(dispHud));
      FlippedParity(events, KeyM, old(dispLog));
    }

    /** The frame's events, in queue order, on the current level. */
    method HandleQueue(events: seq<Event>, level: Level) returns (ghost added: seq<Bullet>)
      requires level.Valid() && player.body !in level.enemies && player.body.ammo.Rounds?
      requires 0 <= player.body.ammo.count
      modifies this`done, this`playCoinSound, this`dispHud, this`dispLog
      modifies player.body`velocityX, player.body`velocityY, player.body`rect, player.body`ammo
      modifies level`playerBullets, level`enemyBullets
      ensures level.Valid() && level.enemyBullets == old(level.enemyBullets)
      ensures Switched(events, old(Controls(done, playCoinSound, dispHud, dispLog, player.body.velocityX, player.body.velocityY)),
                       old(player.body.rect), level)
      ensures Loaded(events, old(player.body.rect), old(player.body.ammo.count), old(level.playerBullets), added, level)
      ensures forall k :: 0 <= k < |level.playerBullets| ==>
        level.playerBullets[k] in old(level.playerBullets) || fresh(level.playerBullets[k])
    {
      ghost var start := Controls(done, playCoinSound, dispHud, dispLog, player.body.velocityX, player.body.velocityY);
      ghost var box, ammo, pb0 := player.body.rect, player.body.ammo.count, level.playerBullets;
      added := [];
      for i := 0 to |events|
        invariant level.Valid() && Switched(events[..i], start, box, level)
        invariant Loaded(events[..i], box, ammo, pb0, added, level)
        invariant level.enemyBullets == old(level.enemyBullets)
        invariant forall k :: 0 <= k < |level.playerBullets| ==>
          level.playerBullets[k] in old(level.playerBullets) || fresh(level.playerBullets[k])
      {
        added := HandleQueued(events, i, level, start, box, ammo, pb0, added);
      }
      assert events[..|events|] == events;
    }

    /** The level-end test, on the player's position in the level taken at
        the start of the frame's logic (before the collisions and the scroll
        band moved it). On the last level it sets the win flag; on the first
        it moves the player to the second level, back at (150, 150), with
        refilled ammo, 2500 more points and some health back. */
    method CheckCompletion(grossPosition: int)
      requires Valid()
      modifies this`currentLevelNo, this`playerWon, player`score, player`health, player.body`rect, player.body`ammo
      ensures Valid()
      ensures grossPosition < levels[old(currentLevelNo)].maxWorldShift ==>
        && currentLevelNo == old(currentLevelNo) && playerWon == old(playerWon)
        && player.score == old(player.score) && player.health == old(player.health)
        && player.body.rect == old(player.body.rect) && player.body.ammo == old(player.body.ammo)
      ensures grossPosition >= levels[old(currentLevelNo)].maxWorldShift && old(currentLevelNo) == 1 ==>
        && currentLevelNo == 1 && playerWon
        && player.score == old(player.score) && player.health == old(player.health)
        && player.body.rect == old(player.body.rect) && player.body.ammo == old(player.body.ammo)
      ensures grossPosition >= levels[old(currentLevelNo)].maxWorldShift && old(currentLevelNo) == 0 ==>
        && currentLevelNo == 1 && playerWon == old(playerWon)
        && player.body.rect == old(player.body.rect).(x := 150, y := 150)
        && player.body.ammo == Rounds(RefilledAmmo(old(player.body.ammo.count)))
        && player.score == old(player.score) + LevelBonus
        && player.health == old(player.health) + HealBonus(old(player.health))
    {
      if grossPosition >= levels[currentLevelNo].maxWorldShift {
        if currentLevelNo == 1 {
          playerWon := true;
        } else {
          currentLevelNo := currentLevelNo + 1;
          player.body.rect := player.body.rect.(x := 150, y := 150);
          if player.body.ammo.count < 10 {
            player.body.ammo := Rounds(player.body.ammo.count + 10);
          } else {
            player.body.ammo := Rounds(MaxAmmo);
          }
          player.score := player.score + LevelBonus;
          player.health := player.health + HealBonus(player.health);
        }
      }
    }

    /** The walk animation advances every 15th frame of the player. */
    method AnimateOnCadence()
      requires Valid()
      modifies player`indexWalk
      ensures Valid()
      ensures player.indexWalk == (if player.body.currentFrame % 15 == 0 && player.body.velocityX != 0
                                   then 1 - old(player.indexWalk) else old(player.indexWalk))
    {
      if player.body.currentFrame % 15 == 0 {
        player.Walk();
      }
    }

    /** Every 30th frame of the player, every enemy of the level shoots at the player. */
    method ShootOnCadence(level: Level)
      requires Valid() && level == levels[currentLevelNo]
      modifies level`enemyBullets, level`playerBullets, level.enemies`ammo
      ensures Valid()
      ensures level.playerBullets == old(level.playerBullets)
      ensures player.body.currentFrame % 30 != 0 ==> level.enemyBullets == old(level.enemyBullets)
      ensures player.body.currentFrame % 30 == 0 ==>
        && |old(level.enemyBullets)| <= |level.enemyBullets|
        && level.enemyBullets[..|old(level.enemyBullets)|] == old(level.enemyBullets)
        && Carry(level.enemyBullets[|old(level.enemyBullets)|..], old(Shots(level.enemies, player.body.rect)))
      ensures fresh(level.enemyBullets[|old(level.enemyBullets)|..])
      ensures forall k :: 0 <= k < |level.enemies| ==>
        level.enemies[k].ammo == if player.body.currentFrame % 30 == 0
          then AmmoAfterShot(old(level.enemies[k].ammo), player.body.rect, level.enemies[k].rect)
          else old(level.enemies[k].ammo)
    {
      assert player.body !in level.enemies;
      if player.body.currentFrame % 30 == 0 {
        EnemiesShoot(level, player.body.rect);
      }
    }

    /** Every 60th frame of the player the clock loses a second, while the
        player is alive, has not won and has time left. */
    method CountDown()
      requires Valid()
      modifies this`time
      ensures Valid()
      ensures time == (if player.body.currentFrame % FramesPerSecond == 0 && player.health > 0 && !playerWon && old(time) > 0
                       then old(time) - 1 else old(time))
    {
      if player.body.currentFrame % FramesPerSecond == 0 && player.health > 0 && !playerWon && time > 0 {
        time := time - 1;
      }
    }

    /** The contact phases of a frame on the level being played, with the
        effect Contacted states. Here: the game stays valid, score and coin
        count never drop, health never rises, and no enemy joins the group. */
    method Contacts(level: Level)
      requires Valid() && level == levels[currentLevelNo]
      modifies player`score, player`coins, player`health, player.body`rect, level`coins, level`enemies
      ensures Valid()
      ensures player.score >= old(player.score) && player.coins >= old(player.coins)
      ensures player.health <= old(player.health)
      ensures forall i :: 0 <= i < |level.enemies| ==> level.enemies[i] in old(level.enemies)
    {
      ghost var other := levels[1 - currentLevelNo];
      assert other != level;
      ContactPhases(player, level);
      assert unchanged(other);
      StaysValid(this);
    }

    /** The two bullet passes of a frame on the level being played, with the
        effect BulletsResolved states. Here: the game stays valid, score never
        drops, health never rises, and no sprite joins a group. */
    method Shootouts(level: Level)
      requires Valid() && level == levels[currentLevelNo]
      modifies player`score, player`health, level`enemies, level`playerBullets, level`enemyBullets
      ensures Valid()
      ensures player.score >= old(player.score) && player.health <= old(player.health)
      ensures forall i :: 0 <= i < |level.enemies| ==> level.enemies[i] in old(level.enemies)
      ensures forall i :: 0 <= i < |level.playerBullets| ==> level.playerBullets[i] in old(level.playerBullets)
      ensures forall i :: 0 <= i < |level.enemyBullets| ==> level.enemyBullets[i] in old(level.enemyBullets)
    {
      ghost var other := levels[1 - currentLevelNo];
      assert other != level;
      BulletPhases(player, level);
      assert unchanged(other);
      StaysValid(this);
    }

    /** The collision phases of a frame, then the scroll band. Score and coin
        count never drop, health never rises, no sprite joins a group, and the
        player ends inside the band. */
    method Collide(level: Level)
      requires Valid() && level == levels[currentLevelNo]
      modifies player`score, player`coins, player`health, player.body`rect
      modifies level`coins, level`enemies, level`playerBullets, level`enemyBullets, level`worldShift,
        level`platforms, level`texts, level`obstacles, level.enemies`rect
      ensures Valid()
      ensures player.score >= old(player.score) && player.coins >= old(player.coins)
      ensures player.health <= old(player.health)
      ensures 366 <= player.body.rect.x <= 1000
      ensures forall i :: 0 <= i < |level.enemies| ==> level.enemies[i] in old(level.enemies)
      ensures forall i :: 0 <= i < |level.playerBullets| ==> level.playerBullets[i] in old(level.playerBullets)
      ensures forall i :: 0 <= i < |level.enemyBullets| ==> level.enemyBullets[i] in old(level.enemyBullets)
    {
      Contacts(level);
      Shootouts(level);
      ScrollBand(level);
    }

    /** The scroll band on the level being played: the player ends inside
        the band at the same position in the level, and the level's contents
        move by the same amount as the player's box. */
    method ScrollBand(level: Level)
      requires Valid() && level == levels[currentLevelNo]
      modifies player.body`rect, level`worldShift, level`platforms, level`coins, level`texts, level`obstacles,
        level.enemies`rect
      ensures Valid()
      ensures 366 <= player.body.rect.x <= 1000
      ensures player.body.rect.x - level.worldShift == old(player.body.rect.x - level.worldShift)
      ensures player.body.rect == old(player.body.rect).(x := player.body.rect.x)
      ensures 366 <= old(player.body.rect.x) <= 1000 ==> player.body.rect == old(player.body.rect)
      ensures var d := player.body.rect.x - old(player.body.rect.x);
        && level.platforms == Shifted(old(level.platforms), d)
        && level.coins == Shifted(old(level.coins), d)
        && level.obstacles == Shifted(old(level.obstacles), d)
        && level.texts == ShiftedTexts(old(level.texts), d)
        && forall i :: 0 <= i < |level.enemies| ==>
          && level.enemies[i].rect == old(level.enemies[i].rect).MoveX(d)
          && level.enemies[i].velocityX == old(level.enemies[i].velocityX)
          && level.enemies[i].velocityY == old(level.enemies[i].velocityY)
          && level.enemies[i].ammo == old(level.enemies[i].ammo)
          && level.enemies[i].currentFrame == old(level.enemies[i].currentFrame)
    {
      KeepInScrollBand(player, level);
      StaysValid(this);
    }

    /** The motion tick of the player and of every sprite of the level: the
        player and the enemies fall, move and collide with the level's
        platforms, and every bullet flies one step. */
    method UpdateSprites(level: Level)
      requires Valid() && level == levels[currentLevelNo]
      modifies player.body`rect, player.body`velocityY, player.body`currentFrame
      modifies level.enemies`rect, level.enemies`velocityY, level.enemies`currentFrame
      modifies level.playerBullets`rect, level.enemyBullets`rect
      ensures Valid()
      ensures Ticked(player.body, old(player.body.rect), old(player.body.velocityY),
                     old(player.body.currentFrame), level.platforms)
      ensures forall k :: 0 <= k < |level.enemies| ==>
        Ticked(level.enemies[k], old(level.enemies[k].rect), old(level.enemies[k].velocityY),
               old(level.enemies[k].currentFrame), level.platforms)
      ensures forall k :: 0 <= k < |level.playerBullets| ==>
        level.playerBullets[k].rect == old(level.playerBullets[k].rect).MoveX(level.playerBullets[k].velocityX)
      ensures forall k :: 0 <= k < |level.enemyBullets| ==>
        level.enemyBullets[k].rect == old(level.enemyBullets[k].rect).MoveX(level.enemyBullets[k].velocityX)
    {
      assert player.body !in level.enemies;
      player.body.Update(level.platforms);
      UpdateGroups(level);
    }

    /** The end-of-frame decision: a loss (which zeroes the player's health),
        a win or a time-out stops the player at (50, 50); otherwise the game
        goes on untouched. */
    method ShowOutcome() returns (screen: Screen)
      requires Valid()
      modifies player`health, player.body`rect
      ensures Valid()
      ensures screen == ScreenOf(old(player.health), playerWon, time)
      ensures screen == ScreenOf(player.health, playerWon, time)
      ensures screen == Lost ==> player.health == 0
      ensures screen != Lost ==> player.health == old(player.health)
      ensures screen == Playing ==> player.body.rect == old(player.body.rect)
      ensures screen != Playing ==> player.body.rect == old(player.body.rect).(x := 50, y := 50)
    {
      screen := ScreenOf(player.health, playerWon, time);
      if screen == Lost {
        player.health := 0;
      }
      if screen != Playing {
        player.body.rect := player.body.rect.(x := 50, y := 50);
      }
    }

    /** The logic of one frame after its events, in the loop's order: the
        level-end test is taken on the position in the level before the
        collisions; then the collisions and the scroll band, the level-end
        test, the walk animation, enemy fire and the clock on their
        cadences, the enemies' jumps, one tick of motion for every sprite,
        and the end-of-frame decision. */
    method Step() returns (screen: Screen)
      requires Valid()
      modifies this`currentLevelNo, this`playerWon, this`time
      modifies player`score, player`coins, player`health, player`indexWalk
      modifies player.body`rect, player.body`velocityY, player.body`currentFrame, player.body`ammo
      modifies levels, levels[0].enemies, levels[1].enemies
      modifies levels[0].playerBullets, levels[1].playerBullets, levels[0].enemyBullets, levels[1].enemyBullets
      ensures Valid()
      ensures screen == ScreenOf(player.health, playerWon, time)
      ensures screen == Lost ==> player.health == 0
      ensures screen != Playing ==> player.body.rect.x == 50 && player.body.rect.y == 50
      ensures old(time) - 1 <= time <= old(time)
      ensures old(playerWon) ==> playerWon
      ensures old(currentLevelNo) <= currentLevelNo
      ensures player.score >= old(player.score) && player.coins >= old(player.coins)
      ensures player.body.currentFrame == old(player.body.currentFrame) + 1
    {
      var level := levels[currentLevelNo];
      var grossPosition := player.body.rect.x - level.worldShift;
      Collide(level);
      CheckCompletion(grossPosition);
      level := levels[currentLevelNo];
      TimedPhases(level);
      screen := ShowOutcome();
    }

    /** One pass of the main loop: the frame's events, then its logic. */
    method Tick(events: seq<Event>) returns (screen: Screen)
      requires Valid()
      modifies this`done, this`playCoinSound, this`dispHud, this`dispLog
      modifies this`currentLevelNo, this`playerWon, this`time
      modifies player`score, player`coins, player`health, player`indexWalk
      modifies player.body`rect, player.body`velocityX, player.body`velocityY, player.body`currentFrame,
        player.body`ammo
      modifies levels, levels[0].enemies, levels[1].enemies
      modifies levels[0].playerBullets, levels[1].playerBullets, levels[0].enemyBullets, levels[1].enemyBullets
      ensures Valid()
      ensures done == (old(done) || Quit in events)
      ensures screen == ScreenOf(player.health, playerWon, time)
      ensures screen == Lost ==> player.health == 0
      ensures screen != Playing ==> player.body.rect.x == 50 && player.body.rect.y == 50
      ensures old(time) - 1 <= time <= old(time)
      ensures old(playerWon) ==> playerWon
      ensures old(currentLevelNo) <= currentLevelNo
      ensures player.score >= old(player.score) && player.coins >= old(player.coins)
      ensures player.body.currentFrame == old(player.body.currentFrame) + 1
    {
      HandleEvents(events);
      screen := Step();
    }

    /** The cadenced and motion phases of a frame on the current level: the
        walk animation, enemy fire and the clock on their cadences, the
        enemies' jumps, then one tick of motion for every sprite. */
    method TimedPhases(level: Level)
      requires Valid() && level == levels[currentLevelNo]
      modifies this`time, player`indexWalk
      modifies player.body`rect, player.body`velocityY, player.body`currentFrame
      modifies level`playerBullets, level`enemyBullets, level.enemies, level.playerBullets`rect, level.enemyBullets`rect
      ensures Valid()
      ensures old(time) - 1 <= time <= old(time)
      ensures player.body.currentFrame == old(player.body.currentFrame) + 1
    {
      AnimateOnCadence();
      ShootOnCadence(level);
      CountDown();
      Motion(level);
    }

    /** The motion phases of a frame on the current level: the enemies'
        jumps, then one tick of motion for every sprite. */
    method Motion(level: Level)
      requires Valid() && level == levels[currentLevelNo]
      modifies player.body`rect, player.body`velocityY, player.body`currentFrame
      modifies level.enemies`rect, level.enemies`velocityY, level.enemies`currentFrame
      modifies level.playerBullets`rect, level.enemyBullets`rect
      ensures Valid()
      ensures player.body.currentFrame == old(player.body.currentFrame) + 1
    {
      assert player.body !in level.enemies;
      EnemiesJump(level, player.body.rect, player.body.currentFrame);
      UpdateSprites(level);
    }
  }
}
