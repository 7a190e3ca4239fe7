# The Quest for the Golden Coins — a verified model of the game loop

"The Quest for the Golden Coins" is a two-level side-scrolling platformer
written in Python on pygame (`project.py`). This project models its core,
the per-frame simulation, in Dafny and proves properties of it:

- **Seqs**: sprite groups as sequences. It covers removing a member (a
  no-op when the member is absent) and filtering by a mask.
- **Geometry**: axis-aligned integer boxes and pygame's strict rectangle
  overlap. It models the collision query `spritecollide` over static boxes
  (`Touching`, `Apart`) and over sprite groups (`Hit`, `Missed`). It also
  models the horizontal translation used by scrolling.
- **Kinematics**: the pure meaning of `MovingSprite.update` and `jump`.
  `update` applies gravity, then moves horizontally and pushes the sprite out
  of platforms, then moves vertically and pushes it out of platforms.
- **Sprites**: the classes whose fields the game updates in place.
  - `MovingSprite` is shared by the player and the enemies.
  - `Player` is a moving sprite with health, score, coins and a walk frame.
  - `Bullet` is a bullet in flight.
  - `Level` holds the platforms, coins, obstacles, texts, enemies, the two
    bullet groups and the scroll offset.
  - `MovingSprite.Update`, `MovingSprite.Jump` and the collision loops
    `PushOutX` and `PushOutY` are proved equal to their Kinematics functions.
- **Interactions**: the collision phases of one frame, as methods on the
  player and the current level, in the loop's order:
  - coins, lava, enemy contact;
  - the player's bullets, the enemies' bullets;
  - the scroll band.

  Each bullet pass is a loop over a snapshot of its group. It is proved
  against a fold (`Volley`, `Barrage`) whose outcome is then stated in closed
  form. `ContactPhases` and `BulletPhases` run the phases in order and state
  their combined effect (`Contacted`, `BulletsResolved`).
- **Game**: the `Game` object. It holds the player, the two levels, the
  current level number, the clock, the win flag and the keyboard switches.
  - `HandleEvent` handles one event of the queue, and `HandleEvents` the
    whole queue. Its effect is stated through folds over the queue
    (`Steered`, `Flipped`, `ShotsFired`).
  - `Step` runs the frame logic in the loop's order: collisions and scroll
    band, level-end test, walk animation, enemy fire, clock, enemy jumps, one
    motion tick for every sprite, then the end-of-frame decision.
  - `Tick` is one pass of the main loop.
  - Pure functions state the level-advance bonuses, the end-screen priority
    and the final score.

`Game.Valid` is the whole-game invariant, and every phase preserves it:
- two distinct well-formed levels;
- no sprite twice in a group;
- no bullet on both sides;
- the player is not an enemy;
- ammo in 0..20;
- health at most 100;
- the clock in 0..180.

Some of the code's behaviour may surprise a reader. The model follows it as coded:
- **Vertical collisions are not idempotent.** The vertical collision loop
  re-reads `velocityY` for every platform, and `velocityY` is already 0 after
  the first one. With two or more overlapping platforms, the sprite's top
  therefore goes to the bottom of the last platform even when it was falling
  (`Kinematics.ResolveYLast`).
- **The enemy-bullet pass keeps the source's nested loop.** For each enemy
  bullet it re-queries the whole group against the player (project.py:1090-1112).
  Every bullet touching the player is removed on the first iteration. The
  first bullet of the group is removed earlier, without costing health, when
  it touches a platform as well as the player (`Interactions.BarrageDamage`).
- **The level-end ammo rule.** The player gets 10 more bullets when fewer
  than 10 are left, and a full supply of 20 otherwise, as the comment at
  project.py:1142 says (project.py:1143-1147). With 9 bullets left that is 19,
  fewer than the player with 10 left ends with.
- **Health is not clamped at 0.** Nothing in the code bounds it below, so
  damage can take it below 0. Only the loss screen sets it to 0.
- **Line 1076 changes nothing.** It removes the killed enemy from the
  player-bullet group, where the enemy never is (`Seqs.RemoveAbsent`).

## Model

| member | source | states |
|---|---|---|
| Seqs.RemoveAbsent | project.py:1076 | removing a sprite from a group that does not hold it leaves the group unchanged |
| Seqs.RemoveTwice | project.py:1072-1087 | a second removal of the same bullet changes nothing, so removing once per hit equals removing once |
| Seqs.Remove | project.py:1072 | after removing a sprite, the group holds exactly its other members and never grows |
| Seqs.RemoveDistinct | project.py:1072 | removing a member keeps a repeat-free group repeat-free |
| Geometry.Overlaps | project.py:67 | two valid boxes overlap exactly when both hold the pixel at the larger of their left edges and the larger of their top edges |
| Geometry.SharedPixel | project.py:67 | two boxes that hold a common pixel overlap |
| Geometry.Touching | project.py:1017 | the collision query returns exactly the boxes of the group that overlap the box, never more than the group holds |
| Geometry.Apart | project.py:1017 | what a killing query leaves: exactly the boxes that the box does not overlap |
| Geometry.TouchingSplit | project.py:1017 | touched and untouched boxes add up to the whole group |
| Geometry.TouchingNone | project.py:1017 | a box overlapping none of the group touches nothing |
| Geometry.Hit | project.py:1052 | the query over a sprite group returns exactly the members whose box overlaps, never more than the group holds |
| Geometry.Missed | project.py:1052 | the members a killing query leaves in the group: exactly those not overlapped |
| Geometry.HitSplit | project.py:1052 | hit and missed members add up to the group, and neither repeats a member when the group does not |
| Geometry.HitFilters | project.py:1102 | a query over a group is the filter of the group by its members' overlap mask |
| Geometry.OverlapsSymmetric | project.py:1102 | the overlap test does not depend on which sprite is queried against which |
| Geometry.OverlapsUnderShift | project.py:377-400 | scrolling a level moves its boxes rigidly, so it never creates or removes an overlap between them |
| Geometry.ShiftedComposes | project.py:377-400 | two scrolls compose into one by the sum, and a scroll by 0 changes nothing |
| Kinematics.FaceX | project.py:72-76 | moving right puts the sprite's right edge on the platform's left edge, otherwise its left edge on the platform's right edge |
| Kinematics.ResolveX | project.py:70-76 | the horizontal loop changes only x, and with no collision nothing |
| Kinematics.Horizontal | project.py:63-76 | the horizontal phase changes only x; with no platform at the moved box the sprite is simply moved by its velocity |
| Kinematics.ResolveXLastWins | project.py:70-76 | after the horizontal loop, only the last platform hit decides where the sprite ends |
| Kinematics.HorizontalSettles | project.py:63-76 | after the horizontal phase the sprite no longer overlaps the last platform hit; with one hit it sits on that platform's facing edge |
| Kinematics.FaceY | project.py:87-91 | falling puts the sprite's bottom on the platform's top, otherwise its top on the platform's bottom |
| Kinematics.ResolveY | project.py:85-92 | the vertical loop changes only y, and stops the vertical motion as soon as any platform is hit |
| Kinematics.Vertical | project.py:78-92 | the vertical phase changes only y; with no platform at the moved box the sprite is moved and keeps its velocity, otherwise its vertical velocity becomes 0 |
| Kinematics.ResolveYLast | project.py:85-92 | one platform: the sprite rests on the face it moved towards; two or more: its top is on the last platform's bottom; it never overlaps the last one |
| Kinematics.Advance | project.py:58-95 | one update keeps the box size, and the new vertical velocity is either 0 or the old one plus gravity |
| Kinematics.AdvanceVelocity | project.py:58-95 | gravity is added once per tick; a vertical hit stops the sprite; the box keeps its size |
| Kinematics.LandsOnSinglePlatform | project.py:78-92 | a falling sprite that meets one platform lands on its top with zero vertical velocity |
| Kinematics.Grounded | project.py:98-112 | a sprite below y = 717 may always jump; in a level without platforms, only then |
| Kinematics.GroundedMeans | project.py:98-112 | a sprite may jump exactly when a platform lies within 2 pixels under it, or it is below y = 717 |
| Sprites.BulletBox | project.py:450-465 | a bullet is a valid 10-by-10 box at the shooter's top-left corner |
| Sprites.MovingSprite.constructor | project.py:35-55 | a new moving sprite is 30 by 60 pixels and at rest, on frame 0 |
| Sprites.MovingSprite.Update | project.py:58-95 | one tick: the new box and vertical velocity are the Kinematics advance of the old ones; the frame counter goes up by 1 |
| Sprites.MovingSprite.Jump | project.py:98-112 | the box is unchanged, and the vertical velocity becomes -10 exactly when the sprite is grounded |
| Sprites.MovingSprite.Move | project.py:116-118 | the horizontal velocity is set, not accumulated |
| Sprites.MovingSprite.Shoot | project.py:122-138 | without ammo nothing changes; otherwise one round is spent and one bullet at the shooter's corner is appended to the enemies' group when the shooter is an enemy, else to the player's |
| Sprites.MovingSprite.ShootAt | project.py:226-237 | an enemy fires only at a target less than 500 pixels away horizontally and 50 vertically, at 15 pixels per tick towards it |
| Sprites.MovingSprite.JumpNear | project.py:241-245 | an enemy jumps only when grounded and with the target within 700 pixels horizontally and 400 vertically |
| Sprites.PushOutX | project.py:70-76 | the horizontal collision loop computes Kinematics.ResolveX |
| Sprites.PushOutY | project.py:85-92 | the vertical collision loop computes Kinematics.ResolveY |
| Sprites.ShotVelocity | project.py:229-232 | an enemy bullet flies at 15 pixels per tick, leftwards exactly when the target is to the shooter's left |
| Sprites.ShotHeadsForTarget | project.py:229-232 | from more than 7 pixels away (half the 15-pixel step) an enemy's bullet closes the horizontal distance to the target |
| Sprites.InShootingRange | project.py:235 | an enemy close enough to shoot is also close enough to jump |
| Sprites.RangesSymmetric | project.py:235-244 | the shooting and the jumping ranges are symmetric: a target is near a sprite exactly when the sprite is near the target |
| Sprites.Player.constructor | project.py:154-181 | the player starts at (150, 150) at rest with 20 bullets, 100 health, no score, no coins, on walk frame 0 |
| Sprites.Player.Walk | project.py:184-194 | while moving, the walk frame alternates between 0 and 1; at rest it stays |
| Sprites.Bullet.constructor | project.py:450-465 | a new bullet has the shooter's corner box and the given velocity |
| Sprites.Bullet.Update | project.py:468-471 | a bullet moves by its velocity along x, without gravity |
| Sprites.Boxes | project.py:341-345 | one platform or obstacle box per table row, with the row's position and size |
| Sprites.CoinBoxes | project.py:349-354 | one 34-by-34 coin box per table row, at the row's position |
| Sprites.ShiftedTexts | project.py:391-392 | scrolling moves every text by the value and changes nothing else about it; no text is added or lost |
| Sprites.ShiftAll | project.py:383-396 | the scroll loop over a static group moves every box by the scroll value and nothing else |
| Sprites.ShiftTexts | project.py:391-392 | the scroll loop over the texts moves every text by the scroll value |
| Sprites.AppendBoxes | project.py:341-345 | the platforms or obstacles of the table are added after the existing ones, in table order |
| Sprites.AppendCoins | project.py:349-354 | the coins of the table are added after the existing ones, in table order |
| Sprites.Level.constructor | project.py:317-333 | a new level is empty and unscrolled, with maxWorldShift 1000 |
| Sprites.Level.GenerateLevel | project.py:338-373 | every table becomes its group in table order; each enemy is fresh, at its table position, at rest, with unlimited ammo and its own jump interval |
| Sprites.Level.SpawnEnemies | project.py:357-363 | one fresh enemy per table row is appended to the enemy group, in table order |
| Sprites.Level.Scroll | project.py:377-400 | worldShift grows by the value, and platforms, coins, texts, obstacles and enemies all move by it; nothing else about the enemies changes |
| Sprites.Level.ShiftEnemies | project.py:399-400 | every enemy moves by the value; nothing else about the enemies changes |
| Interactions.EnemyBoxes | project.py:1052 | the box the queries read for every enemy is its box when the phase starts |
| Interactions.BulletBoxes | project.py:1063 | the box the queries read for every bullet is its box when the phase starts |
| Interactions.CollectCoins | project.py:1017-1033 | the coins the player touches leave the level; each is worth 100 points, one coin and a 10-pixel hop up; coins are conserved |
| Interactions.CoinsTakenOnce | project.py:1017 | a coin is never collected twice: a second pickup at the same place finds nothing |
| Interactions.SetBack | project.py:1044-1045 | lava sends the player 200 pixels left of and above the lava's corner, out of it for a sprite no larger than 200 pixels |
| Interactions.TouchObstacles | project.py:1037-1048 | 20 health per lava block touched; the last block touched decides where the player is set back |
| Interactions.TouchEnemies | project.py:1052-1059 | the enemies the player touches leave the group; each costs 20 health and a 5-pixel push left; survivors are conserved |
| Interactions.VolleyStep | project.py:1066-1087 | one bullet never lowers the kill count, and neither the live enemies nor the bullet group grow |
| Interactions.Volley | project.py:1063-1087 | the player-bullet pass never lowers the kill count, and neither the live enemies nor the bullet group grow |
| Interactions.ResolvePlayerBullets | project.py:1063-1087 | the player-bullet loop yields the fold Volley: the surviving enemies and bullets, and 250 points per kill |
| Interactions.PlayerBulletPass | project.py:1063-1087 | the loop over the snapshot of the player's bullets computes Volley and 250 points per kill |
| Interactions.PlayerBulletStep | project.py:1066-1087 | one bullet kills what it overlaps and leaves the group if it killed or touches a platform |
| Interactions.RewardKills | project.py:1069-1079 | each kill is worth 250 points; the bullet leaves the group once, however many it killed |
| Interactions.RemoveOnEachHit | project.py:1085-1087 | removing the bullet once per platform touched removes it once |
| Interactions.VolleySurvivors | project.py:1063-1087 | an enemy survives the player-bullet pass exactly when no bullet overlaps it, whatever the bullets' order |
| Interactions.VolleyCount | project.py:1063-1087 | every enemy is either killed and counted or survives |
| Interactions.VolleyBullets | project.py:1063-1087 | only bullets of the group remain; bullets outside the snapshot stay; every snapshot bullet touching a platform goes |
| Interactions.VolleySpares | project.py:1063-1087 | a bullet touching neither a platform nor any enemy alive at the start stays in the group |
| Interactions.VolleyStepGroup | project.py:1066-1087 | one bullet's step removes at most that bullet; it removes it when it touches a platform and keeps it when it touches neither a platform nor a live enemy |
| Interactions.VolleyStepKills | project.py:1069-1079 | a bullet that kills an enemy leaves the group, whether or not it also touches a platform |
| Interactions.ResolveEnemyBullets | project.py:1090-1112 | the enemy-bullet loop yields the fold Barrage: the surviving bullets, and 5 health per bullet reaching the player |
| Interactions.EnemyBulletPass | project.py:1090-1112 | the loop over the snapshot of the enemies' bullets computes Barrage and 5 health per hit |
| Interactions.BarrageStep | project.py:1093-1112 | one bullet never lowers the hit count, and the hits it adds plus the bullets left never exceed the group |
| Interactions.Barrage | project.py:1090-1112 | over the whole pass, the hits added plus the bullets left never exceed the group, so each hit removes a bullet |
| Interactions.EnemyBulletStep | project.py:1093-1112 | one bullet leaves on a platform; then every bullet of the group touching the player leaves and costs 5 health |
| Interactions.BarrageFirst | project.py:1090-1112 | the first bullet's step takes out every bullet touching the player, except itself when it is also on a platform |
| Interactions.BarrageAppend | project.py:1090 | the pass over two runs of bullets is the pass over the second started where the first ends |
| Interactions.BarrageQuiet | project.py:1090-1112 | once no bullet touches the player, the rest of the pass costs nothing and only removes bullets on platforms |
| Interactions.LandedMeans | project.py:1093-1099 | the bullets the pass removes on platforms are exactly those touching a platform |
| Interactions.BarrageAfterFirst | project.py:1090-1112 | the pass is the first bullet's step followed by a pass with nothing left touching the player |
| Interactions.BarrageDamage | project.py:1090-1112 | the damage is 5 per bullet touching the player, less one bullet when the first is on a platform as well |
| Interactions.BarrageSurvivors | project.py:1090-1112 | the bullets left are exactly those touching neither a platform nor the player |
| Interactions.ContactPhases | project.py:1017-1059 | the three contact phases in order, as Contacted states: the coins touched are taken with their points and hop; lava costs 20 health per block and sets the player back from the last block, measured after the hop; then the enemies overlapped there die, each costing 20 health and a 5-pixel push |
| Interactions.BulletPhases | project.py:1063-1112 | the two bullet passes in order, as BulletsResolved states: the Volley of the player's bullets with 250 points per kill, then the Barrage of the enemies' bullets against the unmoved player with 5 health per hit |
| Interactions.KeepInScrollBand | project.py:1116-1125 | the player ends with x in 366..1000, its position in the level unchanged, and the level scrolled by the same amount |
| Game.RefilledAmmo | project.py:1143-1147 | the ammo on reaching level 2: 10 more when fewer than 10 are left, otherwise 20; never above 20, at least 10 |
| Game.HealBonus | project.py:1152 | the heal is a third of what is missing to 100, rounded to nearest, and never takes health above 100 |
| Game.HealBonusApproaches | project.py:1152 | healing brings health closer to 100 without passing it, and gives nothing at full health |
| Game.ScreenOf | project.py:1188-1212 | the end-of-frame screen: loss when health <= 0, else a win, else a time-out when time <= 0, else play; each screen exactly in its case |
| Game.FinalScore | project.py:554-600 | the final score adds 50 per second left and 75 per health point; a loss counts neither, a time-out no seconds |
| Game.FinalScoreOrder | project.py:559-600 | for the same state, dying pays less than a time-out, which pays no more than a win |
| Game.ReleaseAfterPress | project.py:931-934 | pressing and releasing an arrow stops the player; releasing the other arrow does not; a release never starts a still player |
| Game.ReleaseStops | project.py:1001 | a release stops only a moving player and only for an arrow key |
| Game.VelocityAfter | project.py:930-1002 | one event leaves the velocity at -6, 0, 6 or unchanged, and an event that is neither a press nor a release leaves it unchanged |
| Game.Steered | project.py:902-1002 | the velocity after a queue of events is the one before, -6, 0 or 6 |
| Game.SteeredIdle | project.py:902-1002 | a queue without key presses or releases leaves the velocity unchanged |
| Game.Presses | project.py:909 | a key is pressed at most once per event, and zero times exactly when the queue holds no press of it |
| Game.FlippedParity | project.py:921-970 | a switch ends flipped exactly when its key was pressed an odd number of times |
| Game.ShotsFiredCount | project.py:940-956 | a queue fires as many shots as it holds presses of A and D, capped by the rounds held |
| Game.ShotVelocityOf | project.py:940-950 | A fires at -15 and D at 15 pixels per tick |
| Game.ShotsFired | project.py:940-956 | a queue fires at most one shot per event and never more than the rounds held |
| Game.ShotsFiredFromPlayer | project.py:940-956 | every shot the player fires leaves from the player's corner at 15 pixels per tick, one way or the other |
| Game.SwitchesStep | project.py:902-1002 | one more event extends the quit flag, the switches and the velocity by that event's own rule |
| Game.ShotsStep | project.py:940-956 | one more event adds a shot exactly when it is a press of A or D and rounds are left |
| Game.Shots | project.py:1163-1167 | the enemies take at most one shot each |
| Game.ShotsAimed | project.py:226-237 | every enemy shot is a valid box flying at 15 pixels per tick, one way or the other |
| Game.EnemiesShoot | project.py:1163-1167 | every enemy shoots at the player in group order; the new enemy bullets are fresh and carry the Shots of the enemies, one for one; each enemy's ammo is AmmoAfterShot of its own turn; enemies do not move |
| Game.CarryAppend | project.py:1166-1167 | one more shot extends the bullets that carry the shots |
| Game.AmmoAfterShot | project.py:122-138 | an enemy's turn spends one round exactly when the target is in range and rounds are left; unlimited ammo stays unlimited |
| Game.ShootInTurn | project.py:1166-1167 | one enemy's turn appends exactly its own shot, if any, to the fresh enemy bullets and leaves its ammo as AmmoAfterShot |
| Game.EnemiesJump | project.py:1174-1178 | an enemy gets vertical velocity -10 exactly when its jump interval divides the frame, the player is near and it is grounded |
| Game.JumpsSpaced | project.py:1174-1178 | an enemy's jumps are due every jumpTime frames, and two distinct due frames of an enemy are at least 45 frames apart |
| Game.UpdateEnemies | project.py:1182 | every enemy takes one Kinematics tick against the level's platforms |
| Game.UpdateBullets | project.py:1182 | every bullet of a group moves by its velocity |
| Game.UpdateGroups | project.py:1182 | every enemy ticks and every bullet of both sides moves |
| Game.Fire | project.py:940-956 | without ammo nothing changes; otherwise one round is spent and one player bullet is fired at the given velocity |
| Game.Steer | project.py:931-1002 | arrows set the horizontal velocity to -6 or 6, space jumps when grounded, A and D fire at -15 and 15, releasing the arrow of the current direction stops |
| Game.Game.constructor | project.py:876-895 | a new game starts on level 1 with the clock at 180, no win, coin sound and HUD on, log off; the levels end at 9970 and 1920 |
| Game.Game.HandleEvent | project.py:902-1007 | quit sets done; 3, N and M flip their switch; the velocity is VelocityAfter; Space sets -10 exactly when grounded; A or D with rounds spends one and fires one bullet at -15 or 15, otherwise the ammo and the bullets are unchanged; the player does not move |
| Game.Game.HandleEvents | project.py:902-1007 | quitting is sticky and set exactly when a quit is queued; each switch ends flipped exactly when its key was pressed an odd number of times; the velocity is the fold Steered; Space makes a grounded player jump; the rounds drop by the shots fired and the new player bullets are exactly those shots in order; the player does not move; every level's enemies, enemy bullets, platforms, coins, obstacles, texts and scroll offsets are unchanged |
| Game.Game.HandleQueue | project.py:902-1007 | after the queue, the switches and velocities are the folds over it (Switched) and the rounds and bullets are the shots fired (Loaded) |
| Game.Game.CheckCompletion | project.py:1128-1152 | past the level's end, the last level sets the win flag, the first moves to level 2 at (150, 150) with refilled ammo, 2500 points and the heal bonus |
| Game.Game.AnimateOnCadence | project.py:1159-1160 | the walk frame changes only every 15th frame and while moving |
| Game.Game.ShootOnCadence | project.py:1163-1167 | enemies fire only every 30th frame, then exactly the Shots of the enemies as fresh bullets, each enemy's ammo being AmmoAfterShot; on other frames bullets and ammo are unchanged |
| Game.Game.CountDown | project.py:1170-1171 | the clock loses a second every 60th frame while the player is alive, has not won and has time left |
| Game.Game.Contacts | project.py:1017-1059 | the contact phases, through ContactPhases, keep the game valid; score and coins never drop, health never rises, no enemy is added |
| Game.Game.Shootouts | project.py:1063-1112 | the bullet passes, through BulletPhases, keep the game valid; score never drops, health never rises, no sprite is added to a group |
| Game.Game.Collide | project.py:1017-1125 | after the collision phases and the scroll band the player is inside 366..1000, the game is valid, score and coins never drop, health never rises and no sprite is added to a group |
| Game.Game.ScrollBand | project.py:1116-1125 | the scroll band keeps the game valid and leaves the player inside 366..1000 at the same position in the level; platforms, coins, obstacles, texts and enemies shift by the player's own move, enemies otherwise unchanged |
| Game.Game.UpdateSprites | project.py:1181-1182 | the player and every enemy take one Kinematics tick; every bullet moves |
| Game.Game.ShowOutcome | project.py:1188-1210 | any end screen puts the player at (50, 50); a loss zeroes health; play leaves everything alone |
| Game.Game.TimedPhases | project.py:1159-1182 | the cadenced and motion phases keep the game valid, lose at most one second and advance the frame by one |
| Game.Game.Motion | project.py:1174-1182 | the enemies' jumps and one tick of motion keep the game valid and advance the frame by one |
| Game.Game.Step | project.py:1011-1210 | one frame keeps the game valid; the screen is ScreenOf the new state; the clock drops at most a second; a win, the level number, score and coins never go back |
| Game.Game.Tick | project.py:899-1210 | one pass of the main loop: done reflects quit events, then the guarantees of Step |

## Left out

- Rendering, images, sounds, fonts, the window and the clock object are left out. This covers `draw`, the HUD, the end-screen text and the walk images. Only the walk frame index is kept.
- The help and event log (`LOGLST`) and the `1` key that fills it are left out. They only produce text.
- The cheat keys (project.py:972-996) are left out. They sit inside a string literal and are never run.
- Kinematics.AdvanceVelocity: gravity is an integer 1 pixel per tick per tick, not the source's float 0.45, so no pixel-exact trajectory is claimed. The proved facts hold for any positive gravity.
- Sprites.Level.GenerateLevel: the enemies' jump intervals (`randint(45, 120)`) are an input sequence, constrained to 45..120.
- The level layout tables are inputs to `GenerateLevel`, not constants of the model.
- Sprites.CoinBoxes: a coin's box is taken as 34 by 34 pixels. In the source it is the size of `images/coin.png`, which is not part of this model.
- Enemy ammo: the source uses the float `2e64`, which subtracting 1 leaves unchanged. It is modelled as `Unlimited`.
- The `allSprites` group is not a separate collection. Every addition and removal in the source keeps it equal to the union of the level's groups. Its `update` reaches enemies and bullets; platforms, coins and obstacles have no `update`.
- `player.currentLevel` is the `level` parameter, which is always `levels[currentLevelNo]`. An enemy's `currentLevel` is the level whose group holds it.
- Group order: a pygame group is modelled as a sequence in insertion order. Iteration visits a snapshot taken when the loop starts.
- Game.Game.TimedPhases: states validity, the clock and the frame counter. The per-phase effects are stated by the members it calls, not restated here.
- Game.Game.Motion: states validity and the frame counter. The jumps are stated by Game.EnemiesJump and the motion tick by Game.Game.UpdateSprites, which it calls.
- Game.Game.Contacts: states validity and the monotone facts only. The exact effect of the contact phases is Contacted, the contract of Interactions.ContactPhases, which it calls; it is not restated here, to keep the proofs of Collide and Step small.
- Game.Game.Shootouts: states validity and the monotone facts only. The exact effect of the bullet passes is BulletsResolved, the contract of Interactions.BulletPhases, which it calls; it is not restated here, for the same reason.
- Game.Game.Collide: states validity, the monotone facts, the scroll band and that no sprite joins a group, not the composed effect of its three phases.
- Game.Game.Step: states the frame's monotone quantities and the screen, not the full new state. Exact effects are stated below Collide (ContactPhases, BulletPhases, KeepInScrollBand) and by CheckCompletion, the cadence methods and UpdateSprites; Collide, Contacts and Shootouts pass on only the monotone facts.
- Game.Game.Tick: states the quit flag from HandleEvents and the guarantees of Step. The switches, velocities and shots HandleEvents states are not carried through Step, whose phases change them again.
- Health is unbounded below, as in the source. Damage beyond 0 is kept until the loss screen sets it to 0.
- Integer widths: Python integers are unbounded, so no wrap-around is modelled.
