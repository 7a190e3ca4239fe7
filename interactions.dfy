/** The collision phases of one game tick, in the order the main loop runs them:
    coins, lava, enemies, the player's bullets, the enemies' bullets, and the
    scroll band. Each phase is a method on the player and the current level,
    proved against a function of the state it starts from.

    A collision query returns the members of a group that a box overlaps, in
    group order; with `dokill` set, the query also takes them out of the group
    at once, so later removals of the same members change nothing. Iterating
    over a group visits a snapshot taken when the loop starts. */
module Interactions {
  import opened Seqs
  import opened Geometry
  import opened Sprites

  // ------------------------------------------------------------ group queries

  /** Each enemy's box as it is when a phase starts; no phase moves the
      sprites it queries, so the queries of the whole phase see these boxes. */
  function EnemyBoxes(es: seq<MovingSprite>): (box: MovingSprite -> Rect)
    reads es
    ensures forall e :: e in es ==> box(e) == e.rect
    decreases |es|
  {
    if es == [] then (e: MovingSprite) => NoBox
    else WithBox<MovingSprite>(EnemyBoxes(es[1..]), es[0], es[0].rect)
  }

  /** Each bullet's box as it is when a phase starts. */
  function BulletBoxes(bs: seq<Bullet>): (box: Bullet -> Rect)
    reads bs
    ensures forall b :: b in bs ==> box(b) == b.rect
    decreases |bs|
  {
    if bs == [] then (b: Bullet) => NoBox
    else WithBox<Bullet>(BulletBoxes(bs[1..]), bs[0], bs[0].rect)
  }

  /** The box function `box` with the box of x set to r. */
  function WithBox<T(==)>(box: T -> Rect, x: T, r: Rect): T -> Rect {
    (y: T) => if y == x then r else box(y)
  }

  /** Box reported for an object outside the group a box function was made for; never queried. */
  const NoBox := Rect(0, 0, 1, 1)

  // -------------------------------------------------------------------- coins

  /** Coin pickup: every coin the player overlaps is taken out of the level
      and is worth 100 points, one coin and a 10-pixel hop upwards. */
  method CollectCoins(player: Player, level: Level)
    modifies level`coins, player`score, player`coins, player.body`rect
    ensures var hits := Touching(old(player.body.rect), old(level.coins));
      && level.coins == Apart(old(player.body.rect), old(level.coins))
      && player.score == old(player.score) + 100 * |hits|
      && player.coins == old(player.coins) + |hits|
      && player.body.rect == old(player.body.rect).MoveY(-10 * |hits|)
    ensures player.coins + |level.coins| == old(player.coins) + |old(level.coins)|
  {
    var box := player.body.rect;
    var coinList := Touching(box, level.coins);
    TouchingSplit(box, level.coins);
    level.coins := Apart(box, level.coins);
    for i := 0 to |coinList|
      modifies player`score, player`coins, player.body`rect
      invariant player.score == old(player.score) + 100 * i
      invariant player.coins == old(player.coins) + i
      invariant player.body.rect == box.MoveY(-10 * i)
    {
      player.score := player.score + 100;
      // the coin already left the group in the query; removing it again changes nothing
      player.coins := player.coins + 1;
      player.body.rect := player.body.rect.(y := player.body.rect.y - 10);
    }
  }

  /** Pickup at the same place finds nothing the second time. */
  lemma CoinsTakenOnce(r: Rect, coins: seq<Rect>)
    ensures Touching(r, Apart(r, coins)) == []
  {
    TouchingNone(r, Apart(r, coins));
  }

  // --------------------------------------------------------------------- lava

  /** Where lava sends the player: 200 pixels left of and above the lava's corner. */
  function SetBack(r: Rect, lava: Rect): (q: Rect)
    ensures q.w == r.w && q.h == r.h
    ensures q.Right() <= lava.x + r.w - 200 && q.Bottom() <= lava.y + r.h - 200
    ensures r.w <= 200 || r.h <= 200 ==> !Overlaps(q, lava)
  {
    r.(x := lava.x - 200, y := lava.y - 200)
  }

  /** Lava contact: 20 health per lava block touched; the last block touched
      decides where the player is set back to. */
  method TouchObstacles(player: Player, level: Level)
    modifies player`health, player.body`rect
    ensures var hits := Touching(old(player.body.rect), level.obstacles);
      && player.health == old(player.health) - 20 * |hits|
      && (hits == [] ==> player.body.rect == old(player.body.rect))
      && (hits != [] ==> player.body.rect == SetBack(old(player.body.rect), hits[|hits| - 1]))
  {
    var obsCollided := Touching(player.body.rect, level.obstacles);
    for i := 0 to |obsCollided|
      invariant player.health == old(player.health) - 20 * i
      invariant i == 0 ==> player.body.rect == old(player.body.rect)
      invariant i > 0 ==> player.body.rect == SetBack(old(player.body.rect), obsCollided[i - 1])
    {
      player.health := player.health - 20;
      player.body.rect := player.body.rect.(x := obsCollided[i].x - 200, y := obsCollided[i].y - 200);
    }
  }

  // ------------------------------------------------------------------ enemies

  /** Enemy contact: every enemy the player overlaps dies, and each costs
      20 health and pushes the player 5 pixels to the left. */
  method TouchEnemies(player: Player, level: Level)
    requires level.Valid()
    modifies level`enemies, player`health, player.body`rect
    ensures level.Valid()
    ensures EnemyContact(player, level)
    ensures player.health <= old(player.health)
    ensures forall i :: 0 <= i < |level.enemies| ==> level.enemies[i] in old(level.enemies)
  {
    var box := player.body.rect;
    var ebox := EnemyBoxes(level.enemies);
    var enemiesCollided := Hit(box, level.enemies, ebox);
    HitSplit(box, level.enemies, ebox);
    level.enemies := Missed(box, level.enemies, ebox);
    forall i | 0 <= i < |level.enemies|
      ensures level.enemies[i] in old(level.enemies)
    {
      assert level.enemies[i] in level.enemies;
    }
    for i := 0 to |enemiesCollided|
      modifies player`health, player.body`rect
      invariant player.health == old(player.health) - 20 * i
      invariant player.body.rect == box.MoveX(-5 * i)
    {
      player.body.rect := player.body.rect.(x := player.body.rect.x - 5);
      player.health := player.health - 20;
    }
  }

  /** What enemy contact does, from the state before it to the state after:
      the enemies the player's box overlaps leave the group, and each costs
      20 health and a 5-pixel push to the left. */
  twostate predicate EnemyContact(player: Player, level: Level)
    reads level, player, player.body
  {
    var box := old(player.body.rect);
    var ebox := old(EnemyBoxes(level.enemies));
    var hits := Hit(box, old(level.enemies), ebox);
    && level.enemies == Missed(box, old(level.enemies), ebox)
    && player.health == old(player.health) - 20 * |hits|
    && player.body.rect == box.MoveX(-5 * |hits|)
    && |hits| + |level.enemies| == |old(level.enemies)|
  }

  // ----------------------------------------------------------- player bullets

  /** State of the player-bullet pass: the enemies still alive, the bullet
      group, and the number of enemies killed so far. */
  datatype VolleyState<E, B> = VolleyState(alive: seq<E>, group: seq<B>, kills: nat)

  /** One bullet b of the player-bullet pass: it kills every enemy still alive
      that it overlaps, and it leaves the group when it killed something or
      touches a platform. Boxes are read through ebox and bbox. */
  function VolleyStep<E(==), B(==)>(b: B, st: VolleyState<E, B>, platforms: seq<Rect>,
                                    ebox: E -> Rect, bbox: B -> Rect): (next: VolleyState<E, B>)
    ensures next.kills >= st.kills && |next.group| <= |st.group|
    ensures |next.alive| <= |st.alive|
  {
    var killed := Hit(bbox(b), st.alive, ebox);
    var g1 := if killed != [] then Remove(st.group, b) else st.group;
    var g2 := if Touching(bbox(b), platforms) != [] then Remove(g1, b) else g1;
    VolleyState(Missed(bbox(b), st.alive, ebox), g2, st.kills + |killed|)
  }

  /** The player-bullet pass over `bullets` (a snapshot of the group), one
      bullet after the other, from state `start`. */
  function Volley<E(==), B(==)>(bullets: seq<B>, start: VolleyState<E, B>, platforms: seq<Rect>,
                                ebox: E -> Rect, bbox: B -> Rect): (v: VolleyState<E, B>)
    ensures v.kills >= start.kills && |v.group| <= |start.group|
    ensures |v.alive| <= |start.alive|
    decreases |bullets|
  {
    if bullets == [] then start
    else
      var n := |bullets| - 1;
      VolleyStep(bullets[n], Volley(bullets[..n], start, platforms, ebox, bbox), platforms, ebox, bbox)
  }

  /** Bullet resolution for the player's side: enemies hit die (250 points
      each), and a bullet that killed or touches a platform disappears. */
  method ResolvePlayerBullets(player: Player, level: Level)
    requires level.Valid()
    modifies level`enemies, level`playerBullets, player`score
    ensures level.Valid()
    ensures var v := old(Volley(level.playerBullets, VolleyState(level.enemies, level.playerBullets, 0),
                                level.platforms, EnemyBoxes(level.enemies), BulletBoxes(level.playerBullets)));
      && level.enemies == v.alive
      && level.playerBullets == v.group
      && player.score == old(player.score) + 250 * v.kills
    ensures forall i :: 0 <= i < |level.enemies| ==> level.enemies[i] in old(level.enemies)
    ensures forall i :: 0 <= i < |level.playerBullets| ==> level.playerBullets[i] in old(level.playerBullets)
  {
    var ebox, bbox := EnemyBoxes(level.enemies), BulletBoxes(level.playerBullets);
    var v, points := PlayerBulletPass(level.playerBullets, level.enemies, level.platforms, ebox, bbox);
    level.enemies, level.playerBullets, player.score := v.alive, v.group, player.score + points;
  }

  /** The player-bullet loop over a snapshot of the bullet group. It works on
      the groups as they stand, which the caller stores back: nothing else
      reads them while the loop runs. */
  method PlayerBulletPass(snapshot: seq<Bullet>, enemies: seq<MovingSprite>, platforms: seq<Rect>,
                          ebox: MovingSprite -> Rect, bbox: Bullet -> Rect)
    returns (v: VolleyState<MovingSprite, Bullet>, points: int)
    requires Distinct(snapshot) && Distinct(enemies)
    ensures v == Volley(snapshot, VolleyState(enemies, snapshot, 0), platforms, ebox, bbox)
    ensures points == 250 * v.kills
    ensures Distinct(v.alive) && Distinct(v.group)
    ensures forall e :: e in v.alive ==> e in enemies
    ensures forall b :: b in v.group ==> b in snapshot
  {
    v, points := VolleyState(enemies, snapshot, 0), 0;
    for i := 0 to |snapshot|
      invariant v == Volley(snapshot[..i], VolleyState(enemies, snapshot, 0), platforms, ebox, bbox)
      invariant Distinct(v.alive) && Distinct(v.group)
      invariant forall e :: e in v.alive ==> e in enemies
      invariant forall b :: b in v.group ==> b in snapshot
      invariant points == 250 * v.kills
    {
      assert snapshot[..i + 1][..i] == snapshot[..i];
      var next, p := PlayerBulletStep(snapshot[i], v, platforms, ebox, bbox);
      v, points := next, points + p;
    }
    assert snapshot[..|snapshot|] == snapshot;
  }

  /** One bullet of the player-bullet pass, as the main loop does it: the
      enemies it overlaps are killed by the query, each kill is worth 250
      points and asks the bullet group to drop the bullet, and so does each
      platform the bullet touches. */
  method PlayerBulletStep(bull: Bullet, st: VolleyState<MovingSprite, Bullet>, platforms: seq<Rect>,
                          ebox: MovingSprite -> Rect, bbox: Bullet -> Rect)
    returns (next: VolleyState<MovingSprite, Bullet>, points: int)
    ensures next == VolleyStep(bull, st, platforms, ebox, bbox)
    ensures points == 250 * (next.kills - st.kills)
    ensures Distinct(st.alive) ==> Distinct(next.alive)
    ensures Distinct(st.group) ==> Distinct(next.group)
    ensures forall e :: e in next.alive ==> e in st.alive
    ensures forall b :: b in next.group ==> b in st.group
  {
    var bulletsCollidedEnem := Hit(bbox(bull), st.alive, ebox);
    HitSplit(bbox(bull), st.alive, ebox);
    var group;
    group, points := RewardKills(st.group, bull, |bulletsCollidedEnem|);
    var bulletsCollidedPlats := Touching(bbox(bull), platforms);
    group := RemoveOnEachHit(group, bull, |bulletsCollidedPlats|);
    next := VolleyState(Missed(bbox(bull), st.alive, ebox), group, st.kills + |bulletsCollidedEnem|);
  }

  /** The kills of one player bullet: each is worth 250 points and asks the
      bullet group to drop the bullet (the enemy itself is not in that group,
      so only the first request changes it). */
  method RewardKills(group: seq<Bullet>, bull: Bullet, kills: nat) returns (out: seq<Bullet>, points: int)
    ensures out == if kills == 0 then group else Remove(group, bull)
    ensures points == 250 * kills
    ensures Distinct(group) ==> Distinct(out)
  {
    out, points := group, 0;
    RemoveTwice(group, bull);
    if Distinct(group) {
      RemoveDistinct(group, bull);
    }
    for j := 0 to kills
      invariant out == if j == 0 then group else Remove(group, bull)
      invariant points == 250 * j
    {
      out := Remove(out, bull);
      points := points + 250;
    }
  }

  /** A bullet removes itself from its group once per platform it touches:
      after the first removal the others change nothing. */
  method RemoveOnEachHit<B(==)>(group: seq<B>, bull: B, times: nat) returns (out: seq<B>)
    ensures out == if times == 0 then group else Remove(group, bull)
    ensures Distinct(group) ==> Distinct(out)
  {
    out := group;
    RemoveTwice(group, bull);
    if Distinct(group) {
      RemoveDistinct(group, bull);
    }
    for j := 0 to times
      invariant out == if j == 0 then group else Remove(group, bull)
    {
      out := Remove(out, bull);
    }
  }

  /** An enemy survives the pass exactly when no bullet of the snapshot
      overlaps it, whatever the order of the bullets. */
  lemma {:induction false} VolleySurvivors<E, B>(bullets: seq<B>, start: VolleyState<E, B>, platforms: seq<Rect>,
                                                 ebox: E -> Rect, bbox: B -> Rect)
    ensures forall e :: e in Volley(bullets, start, platforms, ebox, bbox).alive ==>
      e in start.alive && forall b :: b in bullets ==> !Overlaps(bbox(b), ebox(e))
    ensures forall e :: e in start.alive && (forall b :: b in bullets ==> !Overlaps(bbox(b), ebox(e))) ==>
      e in Volley(bullets, start, platforms, ebox, bbox).alive
    decreases |bullets|
  {
    if bullets != [] {
      var n := |bullets| - 1;
      VolleySurvivors(bullets[..n], start, platforms, ebox, bbox);
      assert bullets == bullets[..n] + [bullets[n]];
    }
  }

  /** Every enemy is either killed (and counted) or survives. */
  lemma {:induction false} VolleyCount<E, B>(bullets: seq<B>, start: VolleyState<E, B>, platforms: seq<Rect>,
                                             ebox: E -> Rect, bbox: B -> Rect)
    ensures var v := Volley(bullets, start, platforms, ebox, bbox);
      v.kills + |v.alive| == start.kills + |start.alive|
    decreases |bullets|
  {
    if bullets != [] {
      var n := |bullets| - 1;
      var before := Volley(bullets[..n], start, platforms, ebox, bbox);
      VolleyCount(bullets[..n], start, platforms, ebox, bbox);
      HitSplit(bbox(bullets[n]), before.alive, ebox);
    }
  }

  /** Which bullets remain: only bullets of the group do; bullets not in the
      snapshot stay; a snapshot bullet touching a platform goes. */
  lemma {:induction false} VolleyBullets<E, B>(bullets: seq<B>, start: VolleyState<E, B>, platforms: seq<Rect>,
                                               ebox: E -> Rect, bbox: B -> Rect)
    ensures forall b :: b in Volley(bullets, start, platforms, ebox, bbox).group ==> b in start.group
    ensures forall b :: b in start.group && b !in bullets ==> b in Volley(bullets, start, platforms, ebox, bbox).group
    ensures forall b :: b in bullets && Touching(bbox(b), platforms) != [] ==>
      b !in Volley(bullets, start, platforms, ebox, bbox).group
    decreases |bullets|
  {
    if bullets != [] {
      var n := |bullets| - 1;
      var last := bullets[n];
      var before := Volley(bullets[..n], start, platforms, ebox, bbox);
      assert forall b :: b in bullets <==> b in bullets[..n] || b == last by {
        assert bullets == bullets[..n] + [last];
      }
      VolleyBullets(bullets[..n], start, platforms, ebox, bbox);
      VolleyStepGroup(last, before, platforms, ebox, bbox);
    }
  }

  /** A bullet of the group that touches neither a platform nor any enemy
      alive at the start stays in the group. */
  lemma {:induction false} VolleySpares<E, B>(bullets: seq<B>, start: VolleyState<E, B>, platforms: seq<Rect>,
                                              ebox: E -> Rect, bbox: B -> Rect)
    ensures forall b ::
      (b in start.group && Touching(bbox(b), platforms) == [] && forall e :: e in start.alive ==> !Overlaps(bbox(b), ebox(e)))
      ==> b in Volley(bullets, start, platforms, ebox, bbox).group
    decreases |bullets|
  {
    if bullets != [] {
      var n := |bullets| - 1;
      var last := bullets[n];
      var before := Volley(bullets[..n], start, platforms, ebox, bbox);
      VolleySpares(bullets[..n], start, platforms, ebox, bbox);
      VolleySurvivors(bullets[..n], start, platforms, ebox, bbox);
      VolleyStepGroup(last, before, platforms, ebox, bbox);
    }
  }

  /** One step of the player-bullet pass on the bullet group: only bullet b
      can leave; it leaves if it touches a platform, and stays if it touches
      neither a platform nor an enemy still alive. */
  lemma VolleyStepGroup<E, B>(b: B, st: VolleyState<E, B>, platforms: seq<Rect>, ebox: E -> Rect, bbox: B -> Rect)
    ensures (forall e :: e in st.alive ==> !Overlaps(bbox(b), ebox(e))) ==> Hit(bbox(b), st.alive, ebox) == []
    ensures var next := VolleyStep(b, st, platforms, ebox, bbox);
      && (forall x :: x in next.group ==> x in st.group)
      && (forall x :: x in st.group && x != b ==> x in next.group)
      && (Touching(bbox(b), platforms) != [] ==> b !in next.group)
      && (b in st.group && Touching(bbox(b), platforms) == [] && Hit(bbox(b), st.alive, ebox) == []
          ==> b in next.group)
  {
    var killed := Hit(bbox(b), st.alive, ebox);
    if killed != [] {
      assert killed[0] in killed;
    }
  }

  /** A bullet that kills an enemy leaves the bullet group, whether or not
      it also touches a platform. */
  lemma VolleyStepKills<E, B>(b: B, st: VolleyState<E, B>, platforms: seq<Rect>, ebox: E -> Rect, bbox: B -> Rect)
    requires Hit(bbox(b), st.alive, ebox) != []
    ensures b !in VolleyStep(b, st, platforms, ebox, bbox).group
  {
  }

  // ------------------------------------------------------------ enemy bullets

  /** State of the enemy-bullet pass: the bullet group and the number of
      bullets that have reached the player so far. */
  datatype BarrageState<B> = BarrageState(group: seq<B>, hits: nat)

  /** One bullet b of the enemy-bullet pass: b leaves the group if it touches a
      platform; then every bullet still in the group that overlaps the
      player's box (target) leaves it and counts as a hit. */
  function BarrageStep<B(==)>(b: B, st: BarrageState<B>, target: Rect, platforms: seq<Rect>,
                              bbox: B -> Rect): (next: BarrageState<B>)
    ensures next.hits >= st.hits
    ensures next.hits - st.hits + |next.group| <= |st.group|
  {
    HitSplit(target, if Touching(bbox(b), platforms) != [] then Remove(st.group, b) else st.group, bbox);
    var g1 := if Touching(bbox(b), platforms) != [] then Remove(st.group, b) else st.group;
    BarrageState(Missed(target, g1, bbox), st.hits + |Hit(target, g1, bbox)|)
  }

  /** The enemy-bullet pass over `bullets` (a snapshot of the group), one
      bullet after the other, from state `start`. */
  function Barrage<B(==)>(bullets: seq<B>, start: BarrageState<B>, target: Rect, platforms: seq<Rect>,
                          bbox: B -> Rect): (r: BarrageState<B>)
    ensures r.hits >= start.hits
    ensures r.hits - start.hits + |r.group| <= |start.group|
    decreases |bullets|
  {
    if bullets == [] then start
    else
      var n := |bullets| - 1;
      BarrageStep(bullets[n], Barrage(bullets[..n], start, target, platforms, bbox), target, platforms, bbox)
  }

  /** Bullet resolution for the enemies' side: 5 health per bullet that
      reaches the player; bullets touching a platform or the player disappear. */
  method ResolveEnemyBullets(player: Player, level: Level)
    requires level.Valid()
    modifies level`enemyBullets, player`health
    ensures level.Valid()
    ensures var r := old(Barrage(level.enemyBullets, BarrageState(level.enemyBullets, 0), player.body.rect,
                                 level.platforms, BulletBoxes(level.enemyBullets)));
      && level.enemyBullets == r.group
      && player.health == old(player.health) - 5 * r.hits
    ensures forall i :: 0 <= i < |level.enemyBullets| ==> level.enemyBullets[i] in old(level.enemyBullets)
  {
    var bbox := BulletBoxes(level.enemyBullets);
    var r, damage := EnemyBulletPass(level.enemyBullets, player.body.rect, level.platforms, bbox);
    level.enemyBullets, player.health := r.group, player.health - damage;
  }

  /** The enemy-bullet loop over a snapshot of the group. It works on the
      group as it stands, which the caller stores back: nothing else reads the
      group while the loop runs. */
  method EnemyBulletPass(snapshot: seq<Bullet>, box: Rect, platforms: seq<Rect>, bbox: Bullet -> Rect)
    returns (r: BarrageState<Bullet>, damage: int)
    requires Distinct(snapshot)
    ensures r == Barrage(snapshot, BarrageState(snapshot, 0), box, platforms, bbox)
    ensures damage == 5 * r.hits
    ensures Distinct(r.group)
    ensures forall b :: b in r.group ==> b in snapshot
  {
    r, damage := BarrageState(snapshot, 0), 0;
    for i := 0 to |snapshot|
      invariant r == Barrage(snapshot[..i], BarrageState(snapshot, 0), box, platforms, bbox)
      invariant Distinct(r.group)
      invariant forall b :: b in r.group ==> b in snapshot
      invariant damage == 5 * r.hits
    {
      assert snapshot[..i + 1][..i] == snapshot[..i];
      var next, d := EnemyBulletStep(snapshot[i], r, box, platforms, bbox);
      r, damage := next, damage + d;
    }
    assert snapshot[..|snapshot|] == snapshot;
  }

  /** One bullet of the enemy-bullet pass, as the main loop does it: the
      bullet leaves the group once per platform it touches; then every bullet
      of the group that overlaps the player leaves it and costs 5 health. */
  method EnemyBulletStep(bull: Bullet, st: BarrageState<Bullet>, box: Rect, platforms: seq<Rect>,
                         bbox: Bullet -> Rect)
    returns (next: BarrageState<Bullet>, damage: int)
    requires Distinct(st.group)
    ensures next == BarrageStep(bull, st, box, platforms, bbox)
    ensures damage == 5 * (next.hits - st.hits)
    ensures Distinct(next.group)
    ensures forall b :: b in next.group ==> b in st.group
  {
    var bulletsCollidedPlats := Touching(bbox(bull), platforms);
    var group := RemoveOnEachHit(st.group, bull, |bulletsCollidedPlats|);
    var bulletsCollidedPlayer := Hit(box, group, bbox);
    ghost var group1 := group;
    damage := 0;
    for j := 0 to |bulletsCollidedPlayer|
      invariant Distinct(group)
      invariant RemoveAll(group, bulletsCollidedPlayer[j..]) == RemoveAll(group1, bulletsCollidedPlayer)
      invariant damage == 5 * j
    {
      RemoveDistinct(group, bulletsCollidedPlayer[j]);
      group := Remove(group, bulletsCollidedPlayer[j]);
      damage := damage + 5;
      assert bulletsCollidedPlayer[j..][1..] == bulletsCollidedPlayer[j + 1..];
    }
    assert bulletsCollidedPlayer[|bulletsCollidedPlayer|..] == [];
    HitFilters(box, group1, bbox);
    RemoveAllKept(group1, HitMask(box, BoxesOf(group1, bbox)));
    next := BarrageState(group, st.hits + |bulletsCollidedPlayer|);
  }

  /** The step of the first bullet of a group of distinct bullets: it costs
      health for every bullet of the group that overlaps the player, except
      itself when it also touches a platform; after it, the bullets left are
      those not overlapping the player, less the first one if it touches a
      platform. */
  lemma {:induction false} BarrageFirst<B>(bullets: seq<B>, one: BarrageState<B>, target: Rect,
                                           platforms: seq<Rect>, bbox: B -> Rect)
    requires Distinct(bullets) && bullets != []
    requires one == BarrageStep(bullets[0], BarrageState(bullets, 0), target, platforms, bbox)
    ensures one.hits == |Hit(target, bullets, bbox)|
      - (if Overlaps(target, bbox(bullets[0])) && Touching(bbox(bullets[0]), platforms) != [] then 1 else 0)
    ensures forall b :: b in one.group <==>
      b in bullets && !Overlaps(target, bbox(b)) && !(b == bullets[0] && Touching(bbox(b), platforms) != [])
  {
    var first := bullets[0];
    var tail := bullets[1..];
    assert bullets == [first] + tail;
    assert first !in tail;
    var g1 := if Touching(bbox(first), platforms) != [] then Remove(bullets, first) else bullets;
    if Touching(bbox(first), platforms) != [] {
      RemoveAt(bullets, 0);
      assert g1 == tail;
    }
    RemoveDistinct(bullets, first);
    assert |Hit(target, bullets, bbox)| == (if Overlaps(target, bbox(first)) then 1 else 0) + |Hit(target, tail, bbox)|;
  }

  /** The pass over a concatenation is the pass over the second part,
      started from where the pass over the first part ends. */
  lemma {:induction false} BarrageAppend<B>(xs: seq<B>, ys: seq<B>, st: BarrageState<B>, target: Rect,
                                            platforms: seq<Rect>, bbox: B -> Rect)
    ensures Barrage(xs + ys, st, target, platforms, bbox)
      == Barrage(ys, Barrage(xs, st, target, platforms, bbox), target, platforms, bbox)
    decreases |ys|
  {
    if ys == [] {
      assert xs + ys == xs;
    } else {
      BarrageAppend(xs, ys[..|ys| - 1], st, target, platforms, bbox);
      BarrageAppendStep(xs, ys, st, target, platforms, bbox);
    }
  }

  /** The inductive step of BarrageAppend: appending one more bullet. */
  lemma {:induction false} BarrageAppendStep<B>(xs: seq<B>, ys: seq<B>, st: BarrageState<B>, target: Rect,
                             platforms: seq<Rect>, bbox: B -> Rect)
    requires ys != []
    requires Barrage(xs + ys[..|ys| - 1], st, target, platforms, bbox)
      == Barrage(ys[..|ys| - 1], Barrage(xs, st, target, platforms, bbox), target, platforms, bbox)
    ensures Barrage(xs + ys, st, target, platforms, bbox)
      == Barrage(ys, Barrage(xs, st, target, platforms, bbox), target, platforms, bbox)
  {
    var n := |ys| - 1;
    var zs := xs + ys;
    assert zs[..|zs| - 1] == xs + ys[..n];
    assert zs[|zs| - 1] == ys[n];
    BarrageLast(zs, st, target, platforms, bbox);
    BarrageLast(ys, Barrage(xs, st, target, platforms, bbox), target, platforms, bbox);
  }

  /** The pass ends with the step of its last bullet. */
  lemma {:induction false} BarrageLast<B>(bullets: seq<B>, st: BarrageState<B>, target: Rect, platforms: seq<Rect>, bbox: B -> Rect)
    requires bullets != []
    ensures var n := |bullets| - 1;
      Barrage(bullets, st, target, platforms, bbox)
        == BarrageStep(bullets[n], Barrage(bullets[..n], st, target, platforms, bbox), target, platforms, bbox)
  {
  }

  /** Once no bullet of the group overlaps the player, the rest of the pass
      costs nothing and only takes out the bullets it visits that touch a
      platform. */
  lemma {:induction false} BarrageQuiet<B>(bullets: seq<B>, st: BarrageState<B>, target: Rect,
                                           platforms: seq<Rect>, bbox: B -> Rect)
    requires forall x :: x in st.group ==> !Overlaps(target, bbox(x))
    ensures Barrage(bullets, st, target, platforms, bbox).hits == st.hits
    ensures forall x :: x in Barrage(bullets, st, target, platforms, bbox).group <==>
      x in st.group && x !in Landed(bullets, platforms, bbox)
    decreases |bullets|
  {
    if bullets != [] {
      var before := Barrage(bullets[..|bullets| - 1], st, target, platforms, bbox);
      BarrageQuiet(bullets[..|bullets| - 1], st, target, platforms, bbox);
      BarrageQuietNext(bullets, st, before, target, platforms, bbox);
    }
  }

  /** The inductive step of BarrageQuiet: one more bullet. */
  lemma {:induction false} BarrageQuietNext<B>(bullets: seq<B>, st: BarrageState<B>, before: BarrageState<B>,
                                               target: Rect, platforms: seq<Rect>, bbox: B -> Rect)
    requires bullets != [] && before == Barrage(bullets[..|bullets| - 1], st, target, platforms, bbox)
    requires forall x :: x in st.group ==> !Overlaps(target, bbox(x))
    requires before.hits == st.hits
    requires forall x :: x in before.group <==> x in st.group && x !in Landed(bullets[..|bullets| - 1], platforms, bbox)
    ensures Barrage(bullets, st, target, platforms, bbox).hits == st.hits
    ensures forall x :: x in Barrage(bullets, st, target, platforms, bbox).group <==>
      x in st.group && x !in Landed(bullets, platforms, bbox)
  {
    var n := |bullets| - 1;
    var b := bullets[n];
    var g1 := if Touching(bbox(b), platforms) != [] then Remove(before.group, b) else before.group;
    assert Barrage(bullets, st, target, platforms, bbox) == BarrageState(g1, st.hits) by {
      BarrageLast(bullets, st, target, platforms, bbox);
      BarrageQuietStep(b, before, target, platforms, bbox);
    }
  }

  /** The bullets of `bullets` that touch a platform, collected in the
      order the pass visits them. */
  function Landed<B>(bullets: seq<B>, platforms: seq<Rect>, bbox: B -> Rect): set<B>
    decreases |bullets|
  {
    if bullets == [] then {}
    else
      var n := |bullets| - 1;
      Landed(bullets[..n], platforms, bbox) + (if Touching(bbox(bullets[n]), platforms) != [] then {bullets[n]} else {})
  }

  /** A bullet is in Landed exactly when it is one of the bullets and touches a platform. */
  lemma {:induction false} LandedMeans<B>(bullets: seq<B>, platforms: seq<Rect>, bbox: B -> Rect)
    ensures forall x :: x in Landed(bullets, platforms, bbox) <==> x in bullets && Touching(bbox(x), platforms) != []
    decreases |bullets|
  {
    if bullets != [] {
      var n := |bullets| - 1;
      LandedMeans(bullets[..n], platforms, bbox);
      assert bullets == bullets[..n] + [bullets[n]];
    }
  }

  /** A step of the enemy-bullet pass when no bullet of the group overlaps the
      player: it costs nothing, and only the stepping bullet can leave, when
      it touches a platform. */
  lemma BarrageQuietStep<B>(b: B, st: BarrageState<B>, target: Rect, platforms: seq<Rect>, bbox: B -> Rect)
    requires forall x :: x in st.group ==> !Overlaps(target, bbox(x))
    ensures BarrageStep(b, st, target, platforms, bbox)
      == BarrageState(if Touching(bbox(b), platforms) != [] then Remove(st.group, b) else st.group, st.hits)
  {
    var g1 := if Touching(bbox(b), platforms) != [] then Remove(st.group, b) else st.group;
    var m := HitMask(target, BoxesOf(g1, bbox));
    forall i | 0 <= i < |m|
      ensures !m[i]
    {
      assert g1[i] in g1;
    }
    KeepNone(g1, m);
    HitFilters(target, g1, bbox);
  }

  /** The enemy-bullet pass, for a group of distinct bullets, is the step of
      its first bullet followed by a pass in which no bullet overlaps the player. */
  lemma {:induction false} BarrageAfterFirst<B>(bullets: seq<B>, target: Rect, platforms: seq<Rect>, bbox: B -> Rect)
    requires Distinct(bullets) && bullets != []
    ensures var one := BarrageStep(bullets[0], BarrageState(bullets, 0), target, platforms, bbox);
      Barrage(bullets, BarrageState(bullets, 0), target, platforms, bbox)
        == Barrage(bullets[1..], one, target, platforms, bbox)
  {
    var start := BarrageState(bullets, 0);
    assert bullets == bullets[..1] + bullets[1..];
    BarrageAppend(bullets[..1], bullets[1..], start, target, platforms, bbox);
    assert bullets[..1][..0] == [];
    BarrageLast(bullets[..1], start, target, platforms, bbox);
  }

  /** The damage of the enemy-bullet pass in closed form, for a group of
      distinct bullets: each bullet touching the player costs 5 health, except
      that the first bullet of the group, when it also touches a platform, is
      taken out before the player is checked and costs nothing. The damage
      thus depends on which bullet the group lists first. */
  lemma {:induction false} BarrageDamage<B>(bullets: seq<B>, target: Rect, platforms: seq<Rect>, bbox: B -> Rect)
    requires Distinct(bullets) && bullets != []
    ensures Barrage(bullets, BarrageState(bullets, 0), target, platforms, bbox).hits ==
      |Hit(target, bullets, bbox)|
      - (if Overlaps(target, bbox(bullets[0])) && Touching(bbox(bullets[0]), platforms) != [] then 1 else 0)
  {
    var one := BarrageStep(bullets[0], BarrageState(bullets, 0), target, platforms, bbox);
    BarrageFirst(bullets, one, target, platforms, bbox);
    BarrageAfterFirst(bullets, target, platforms, bbox);
    BarrageQuiet(bullets[1..], one, target, platforms, bbox);
  }

  /** The bullets the enemy-bullet pass leaves, for a group of distinct
      bullets: exactly those touching neither a platform nor the player. */
  lemma {:induction false} BarrageSurvivors<B>(bullets: seq<B>, target: Rect, platforms: seq<Rect>, bbox: B -> Rect)
    requires Distinct(bullets) && bullets != []
    ensures forall b :: b in Barrage(bullets, BarrageState(bullets, 0), target, platforms, bbox).group <==>
      b in bullets && !Overlaps(target, bbox(b)) && Touching(bbox(b), platforms) == []
  {
    var one := BarrageStep(bullets[0], BarrageState(bullets, 0), target, platforms, bbox);
    var rest := bullets[1..];
    BarrageFirst(bullets, one, target, platforms, bbox);
    BarrageAfterFirst(bullets, target, platforms, bbox);
    BarrageQuiet(rest, one, target, platforms, bbox);
    LandedMeans(rest, platforms, bbox);
    HeadTail(bullets);
  }

  // ------------------------------------------------------------ frame phases

  /** What the contact phases do, from the state before them to the state
      after: the coins the player touched are taken, the hop they give is
      applied, lava sets the player back from the last block it touches,
      then the enemies the player overlaps die and push it back. */
  twostate predicate Contacted(player: Player, level: Level)
    reads player, player.body, level
  {
    var taken := Touching(old(player.body.rect), old(level.coins));
    var hop := old(player.body.rect).MoveY(-10 * |taken|);
    var lava := Touching(hop, level.obstacles);
    var placed := if lava == [] then hop else SetBack(hop, lava[|lava| - 1]);
    var ebox := old(EnemyBoxes(level.enemies));
    var hits := Hit(placed, old(level.enemies), ebox);
    && level.coins == Apart(old(player.body.rect), old(level.coins))
    && player.score == old(player.score) + 100 * |taken|
    && player.coins == old(player.coins) + |taken|
    && level.enemies == Missed(placed, old(level.enemies), ebox)
    && player.health == old(player.health) - 20 * |lava| - 20 * |hits|
    && player.body.rect == placed.MoveX(-5 * |hits|)
  }

  /** The contact phases of a frame, in order: coins, lava, then enemy
      contact, each seeing the player where the previous one left it. */
  method ContactPhases(player: Player, level: Level)
    requires level.Valid() && player.body !in level.enemies
    modifies player`score, player`coins, player`health, player.body`rect, level`coins, level`enemies
    ensures level.Valid()
    ensures Contacted(player, level)
    ensures player.score >= old(player.score) && player.coins >= old(player.coins)
    ensures player.health <= old(player.health)
    ensures forall i :: 0 <= i < |level.enemies| ==> level.enemies[i] in old(level.enemies)
  {
    ghost var enemies, ebox := level.enemies, EnemyBoxes(level.enemies);
    CollectCoins(player, level);
    ghost var hop := player.body.rect;
    assert hop == old(player.body.rect).MoveY(-10 * |Touching(old(player.body.rect), old(level.coins))|);
    TouchObstacles(player, level);
    ghost var lava, placed := Touching(hop, level.obstacles), player.body.rect;
    assert placed == if lava == [] then hop else SetBack(hop, lava[|lava| - 1]);
    assert EnemyBoxes(level.enemies) == ebox;
    TouchEnemies(player, level);
    ghost var hits := Hit(placed, enemies, ebox);
    assert level.enemies == Missed(placed, enemies, ebox);
    assert player.health == old(player.health) - 20 * |lava| - 20 * |hits|;
    assert player.body.rect == placed.MoveX(-5 * |hits|);
  }

  /** What the two bullet passes do, from the state before them to the
      state after: the player-bullet pass over the groups as they stood, then
      the enemy-bullet pass against the player's box. */
  twostate predicate BulletsResolved(player: Player, level: Level)
    reads player, player.body, level
  {
    var v := old(Volley(level.playerBullets, VolleyState(level.enemies, level.playerBullets, 0),
                        level.platforms, EnemyBoxes(level.enemies), BulletBoxes(level.playerBullets)));
    var r := old(Barrage(level.enemyBullets, BarrageState(level.enemyBullets, 0), player.body.rect,
                         level.platforms, BulletBoxes(level.enemyBullets)));
    && level.enemies == v.alive && level.playerBullets == v.group && level.enemyBullets == r.group
    && player.score == old(player.score) + 250 * v.kills
    && player.health == old(player.health) - 5 * r.hits
  }

  /** The two bullet passes of a frame: the player's bullets, then the
      enemies'. The first pass does not move the player, so the enemy
      bullets see the player where the frame left it. */
  method BulletPhases(player: Player, level: Level)
    requires level.Valid()
    modifies player`score, player`health, level`enemies, level`playerBullets, level`enemyBullets
    ensures level.Valid()
    ensures BulletsResolved(player, level)
    ensures player.score >= old(player.score) && player.health <= old(player.health)
    ensures forall i :: 0 <= i < |level.enemies| ==> level.enemies[i] in old(level.enemies)
    ensures forall i :: 0 <= i < |level.playerBullets| ==> level.playerBullets[i] in old(level.playerBullets)
    ensures forall i :: 0 <= i < |level.enemyBullets| ==> level.enemyBullets[i] in old(level.enemyBullets)
  {
    ghost var bbox := BulletBoxes(level.enemyBullets);
    ResolvePlayerBullets(player, level);
    assert BulletBoxes(level.enemyBullets) == bbox;
    ResolveEnemyBullets(player, level);
  }

  // ------------------------------------------------------------- scroll band

  /** Keep the player between x = 366 and x = 1000 on screen by scrolling the
      level under it: the player's position in the level (x minus worldShift)
      does not change, and the level moves by as much as the player was
      pulled back. */
  method KeepInScrollBand(player: Player, level: Level)
    requires level.Valid() && player.body.kind == PlayerSprite
    modifies player.body`rect, level`worldShift, level`platforms, level`coins, level`texts, level`obstacles,
      level.enemies`rect
    ensures level.Valid()
    ensures 366 <= player.body.rect.x <= 1000
    ensures player.body.rect.x - level.worldShift == old(player.body.rect.x - level.worldShift)
    ensures player.body.rect == old(player.body.rect).(x := player.body.rect.x)
    ensures 366 <= old(player.body.rect.x) <= 1000 ==> player.body.rect == old(player.body.rect)
    ensures var d := player.body.rect.x - old(player.body.rect.x);
      && level.platforms == Shifted(old(level.platforms), d)
      && level.coins == Shifted(old(level.coins), d)
      && level.obstacles == Shifted(old(level.obstacles), d)
      && level.texts == ShiftedTexts(old(level.texts), d)
      && forall i :: 0 <= i < |level.enemies| ==>
        && level.enemies[i].rect == old(level.enemies[i].rect).MoveX(d)
        && level.enemies[i].velocityX == old(level.enemies[i].velocityX)
        && level.enemies[i].velocityY == old(level.enemies[i].velocityY)
        && level.enemies[i].ammo == old(level.enemies[i].ammo)
        && level.enemies[i].currentFrame == old(level.enemies[i].currentFrame)
  {
    assert player.body !in level.enemies;
    ShiftedComposes(level.platforms, 0, 0);
    ShiftedComposes(level.coins, 0, 0);
    ShiftedComposes(level.obstacles, 0, 0);
    assert ShiftedTexts(level.texts, 0) == level.texts;
    if player.body.rect.x > 1000 {
      var distancePast := 1000 - player.body.rect.x;
      player.body.rect := player.body.rect.(x := 1000);
      level.Scroll(distancePast);
    }
    if player.body.rect.x < 366 {
      var distancePast := 366 - player.body.rect.x;
      player.body.rect := player.body.rect.(x := 366);
      level.Scroll(distancePast);
    }
  }
}
