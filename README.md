# Merge Runner gameplay model

A Dafny model of the gameplay simulation of Merge Runner, a side-scrolling
runner built on the `arcade` library (`merge-runner-ui.py`). The player runs
right at a fixed speed. Obstacles and coins spawn ahead of the player on a
cadence that quickens with distance, and are reaped once they trail 900
behind. Coins pay 25. Obstacles cost 40 points and knock the player back.
At growing distances a boss arrives. It is a three-phase state machine
driven by its health ratio: it fires volleys aimed at the player and, in
its later phases, walks left. The player runs right much faster, so the
boss soon falls behind and walks away from the player. The player can
hurt the boss with a melee punch or a cooldown-gated skill. With no boss
present, the skill clears the obstacles near the player.

The model follows the code's own structure:

- `lists.dfy` (`Lists`): the order-preserving filter. Every "remove the
  sprites that ..." loop of the game computes it.
- `sprites.dfy` (`Sprites`): the animation frame counter (a class), and
  projectile motion with removal at the world bounds.
- `rules.dfy` (`Rules`): the game's constants and formulas: speed,
  cadences, penalties, damage, the boss schedule, clamped projectile hits,
  and popup decay.
- `boss.dfy` (`Bosses`): the phase rule, the volley, and the `Boss` class
  with its per-tick behaviour.
- `game.dfy` (`Runner`): the `Game` class. It has one method per step of a
  frame, in the code's order, composed into `Tick`, plus the SPACE, Z and
  X key presses.

Modelling choices:

- The source's `boss_active` flag is always set together with `boss` (on
  spawn and on win), so it is folded into `boss != null`.
- Sprite lists are `seq` fields of values (obstacle x, `Coin`, `Projectile`,
  `Popup`). Each removal loop builds the survivors in order.
- Random draws are parameters with their ranges as preconditions. The k-th
  projectile hit of a tick uses `hitDamage[k]`, a value from 8 to 18.
- Overlap tests are caller-supplied predicates, plus a bool for boss
  contact.
- Positions, times and the score are exact `real`s.
- Python's `int()` is `Floor` on the non-negative distances and sums. It
  is `Truncate` on the saved score.
- The explosion and the leaderboard entry are recorded as `Signal`s in a
  log, so the model shows how often each happens.
- What a frame reads and changes is also a value, `Snapshot` (the boss as
  `BossState`). Each step of a frame is a function on snapshots (`Ran`,
  `Spawned`, `Reaped`, `Collected`, `Struck`, `AfterArrival`,
  `AfterShots`, `AfterHits`, `AfterContact`), and the steps compose into
  `AfterFrame`. The methods for these steps and for the stages that
  compose them (`Run`, `SpawnOnCadence`, `ReapTrailing`, `CollectCoins`,
  `HitObstacles`, `BossArrival`, `BossVolley`, `ResolveProjectileHits`,
  `BossTouch`, `BossShoots`, `BossFight`, `Refresh`, `RunAhead`,
  `Collide`, `BossStage`, `DecayPopups`, `Encounters`, `Frame`, `Tick`)
  ensure `Snap() == F(old(Snap()), ...)` for their function `F`. The
  spawn, win and lose, animation, single-loop, single-hit and key-press
  methods state their changed fields one by one. The lemmas about these
  functions state what a frame promises.

Where the code's behaviour is unusual, the model follows the code:

- Health is clamped at zero after a projectile hit, but not after boss
  contact (`BossContact`). Health can therefore go negative.
- `lose_game` and its leaderboard entry run once per lethal hit, so they
  can run several times in one tick. Every hit after a lethal one is lethal
  again (`Rules.DefeatsAfterLethal`).
- Once the game is over, a tick changes nothing, popups included.
- A jump moves the player up 90, and nothing ever brings the player down.
- The horizontal shot speed is 7.0, 7.2 and 7.0 in phases 1, 2 and 3
  (`Bosses.HorizontalShotSpeed`).
- The projectile bounds are absolute world coordinates. A boss beyond
  x = 10040 fires shots that vanish in the tick they are fired
  (`Bosses.FarVolleyVanishes`).

## Model

| member | source | states |
|---|---|---|
| Sprites.Animation.constructor | merge-runner-ui.py:84-87 | a new frame counter shows frame 0 with a zero timer and the default frame time of 0.08 |
| Sprites.Stepped | merge-runner-ui.py:89-94 | one animation step keeps the frame in range and the timer below the frame time; the frame changes only when the timer restarts, and a running timer has grown by exactly dt |
| Sprites.SteppedTimes | merge-runner-ui.py:89-94 | any number of animation steps keeps the frame in range and the timer non-negative |
| Sprites.WholeFramesCycle | merge-runner-ui.py:89-94 | steps of at least a frame time each show one frame after another, so after n of them the animation is n frames on (modulo the frame count) |
| Sprites.Animation.Update | merge-runner-ui.py:89-94 | the new frame and timer are the animation step of the old ones by dt, and the frame stays in range |
| Sprites.Moved | merge-runner-ui.py:107-109 | a projectile's position changes by exactly its velocity, and its velocity stays the same |
| Sprites.MovedAll | merge-runner-ui.py:107-109 | every projectile in the list moves one step, and the list keeps its order and length |
| Sprites.InBounds | merge-runner-ui.py:110-112 | a projectile is kept exactly when its centre lies in the absolute box [-1000, 10000] x [-1000, 3000] |
| Sprites.Advanced | merge-runner-ui.py:107-112 | the projectile update (every projectile moved, those outside the box removed) never grows the list |
| Sprites.AdvancedSurvivors | merge-runner-ui.py:107-112 | after a projectile update, the list does not grow; every survivor is inside the world box and is the moved form of an earlier projectile; every projectile whose move stays inside survives |
| Bosses.Ratio | merge-runner-ui.py:129 | the health ratio has the sign of the health (max(1, max_health) keeps the divisor positive), and is 0 for a boss at zero health |
| Bosses.Phase | merge-runner-ui.py:129-147 | the phase is 1 exactly when health/max(1, max_health) > 0.66, 3 exactly when that ratio is <= 0.33, and 2 otherwise |
| Bosses.PhaseNeverReverts | merge-runner-ui.py:129-147 | losing health never moves the boss back to an earlier phase |
| Bosses.PhaseAtRatios | merge-runner-ui.py:131-147 | at 67%, 50% and 20% of its maximum health the boss is in phase 1, 2 and 3 |
| Bosses.ShotInterval | merge-runner-ui.py:133-146 | every phase has a positive shot interval |
| Bosses.ShotSpeed | merge-runner-ui.py:131-147 | the shot speed of every phase lies between 5.0 and 7.0 |
| Bosses.Advance | merge-runner-ui.py:131-147 | the boss walks left between 0 and 1.4 per tick, and stands still exactly in phase 1 |
| Bosses.LaterPhasesAreFaster | merge-runner-ui.py:131-147 | a later phase shoots more often, with faster shots, and walks faster |
| Bosses.HorizontalShotSpeed | merge-runner-ui.py:155 | with the phase bonus, the horizontal shot speed is 7.2 in phase 2 and 7.0 in phases 1 and 3 |
| Bosses.Aimed | merge-runner-ui.py:150-157 | a shot starts 30 left of the boss centre at its height, and its vertical speed is towards the aim height 200 (zero when the boss is at that height) |
| Bosses.Volley | merge-runner-ui.py:149-162 | a volley is one shot from 30 left of the boss centre at its height, or two in phase 3, the second 50 higher and climbing 1.0 faster |
| Bosses.AimedAtPlayer | merge-runner-ui.py:151-155 | a shot heads horizontally towards the player, never faster than its phase's speed, and at exactly that speed when the player is at least 1 away |
| Bosses.FarVolleyVanishes | merge-runner-ui.py:110-112 | every shot fired by a boss standing beyond x = 10040 is removed in the projectile update of the same tick |
| Bosses.DeadOnArrival | merge-runner-ui.py:110-112 | projectiles that all leave the box on their next move all disappear |
| Bosses.Fires | merge-runner-ui.py:127-147 | definition: a boss fires this tick exactly when its shot timer plus dt reaches the interval of the phase its health puts it in; `Bosses.Boss.UpdateBehavior` appends the volley exactly then |
| Bosses.Acted | merge-runner-ui.py:127-147 | definition: the boss after one tick of behaviour, in the phase its health gives, one phase step further left, its shot timer restarted when it fires and otherwise dt older; `Bosses.Boss.UpdateBehavior` leaves its fields exactly so, and `Runner.FightKeepsGame` places the explosion of a beaten boss at its x |
| Bosses.Boss.constructor | merge-runner-ui.py:118-125 | a new boss has 100 of 100 health, phase 1, a zero shoot timer, and stands at (0, 220) |
| Bosses.Boss.UpdateBehavior | merge-runner-ui.py:127-162 | the phase is set from the health ratio; the boss walks 0, 0.8 or 1.4 to the left by phase; once the timer plus dt reaches the phase interval, the timer resets and that volley is appended, otherwise the timer grows by dt and the list is unchanged; the new fields are `Acted` of the old ones, and the volley is appended exactly when `Fires` holds of them |
| Rules.DistanceGain | merge-runner-ui.py:412-414 | the distance grows by 0.6 of the pixels run, which is never negative |
| Rules.RunScore | merge-runner-ui.py:412-415 | the score grows by 0.05 per pixel run, which is never negative |
| Rules.Cooldown | merge-runner-ui.py:407-408 | the cooldown drops by dt but never below zero and never rises |
| Rules.ObstacleCadence | merge-runner-ui.py:424 | the obstacle interval is 2.4 - distance/8000 up to distance 14400 and the floor 0.6 from there on |
| Rules.CoinCadence | merge-runner-ui.py:427 | the coin interval is 2.3 - distance/9000 up to distance 13500 and the floor 0.8 from there on |
| Rules.CadenceNonIncreasing | merge-runner-ui.py:424-427 | spawning never slows down as the distance grows |
| Rules.ObstacleSpawnX | merge-runner-ui.py:300 | a new obstacle lands more than 599 and at most 3000 ahead of the player |
| Rules.CoinSpawnX | merge-runner-ui.py:307 | a new coin lands more than 499 and at most 2600 ahead of the player |
| Rules.InWindow | merge-runner-ui.py:432-437 | a sprite stays in play exactly when it is at most 900 behind the player, so anything level with or ahead of the player does |
| Rules.ScoreAfterImpacts | merge-runner-ui.py:449 | after obstacle impacts, the score is never negative and is either 0 or the score less 40 per impact |
| Rules.KnockedBack | merge-runner-ui.py:450 | after knock-backs, the player is never left of x = 200 and is either at 200 or 140 back per impact |
| Rules.ImpactsCompose | merge-runner-ui.py:446-450 | one more clamped penalty after k impacts is the same as k + 1 impacts, for the score and for the position |
| Rules.SkillDamage | merge-runner-ui.py:547 | the skill does 40 damage plus one per whole 1000 of distance |
| Rules.ContactDamage | merge-runner-ui.py:477 | boss contact does 18 damage plus one per whole 1000 of distance |
| Rules.BossMaxHealth | merge-runner-ui.py:316 | a new boss has 80 health plus 10 per whole 500 of distance, which is at least 80 and a multiple of 10 |
| Rules.BossMaxHealthGrows | merge-runner-ui.py:316 | a boss met further along never has less health |
| Rules.NextBossAt | merge-runner-ui.py:456 | the next boss threshold strictly increases, by 2000 plus a quarter of the distance |
| Rules.HealthAfterHits | merge-runner-ui.py:469-473 | after at least one clamped hit, or from non-negative health, the player's health is never negative |
| Rules.Defeats | merge-runner-ui.py:469-473 | there are never more defeats than hits |
| Rules.HitStep | merge-runner-ui.py:468-473 | one more hit subtracts its damage, clamps at zero, and counts one more defeat exactly when it leaves the player at or below zero |
| Rules.HitsClampAtZero | merge-runner-ui.py:469-472 | with non-negative damage, the clamped hits equal health minus their total, or 0 |
| Rules.DefeatedIffLethal | merge-runner-ui.py:469-473 | the hits end the game exactly when their total reaches the player's health |
| Rules.DefeatsAfterLethal | merge-runner-ui.py:469-473 | once hits have brought the player to zero, health stays at zero and every further hit of positive damage counts as one more defeat |
| Rules.DefeatRepeats | merge-runner-ui.py:471-473 | for example, ten health and two hits of 18 give two defeats, so the defeat runs twice in one tick |
| Rules.Aged | merge-runner-ui.py:494 | every popup keeps its place, position and value, and has dt less time left |
| Rules.Decayed | merge-runner-ui.py:494 | popup decay never grows the list |
| Rules.DecayedPopups | merge-runner-ui.py:494 | popup decay keeps exactly the popups with more than dt left, each dt older, so every survivor is still alive |
| Rules.DecayedExpire | merge-runner-ui.py:494 | popups with at most dt left all disappear |
| Lists.Filter | merge-runner-ui.py:432-437 | removing sprites never grows a list |
| Lists.FilterMembers | merge-runner-ui.py:432-437 | the sprites kept are exactly those that pass the test |
| Lists.FilterStep | merge-runner-ui.py:432-434 | a removal loop that examines one more sprite keeps it exactly when it passes |
| Lists.FilterKeepsAll | merge-runner-ui.py:432-437 | a removal loop where every sprite passes removes nothing |
| Lists.FilterIdempotent | merge-runner-ui.py:432-437 | running the same removal twice is the same as running it once |
| Lists.Repeat | merge-runner-ui.py:471-473 | n defeats give n copies of the leaderboard entry |
| Runner.Truncate | merge-runner-ui.py:511 | the saved score is the whole number nearest the score on the side of zero: at most the score and less than 1 below it for a non-negative score, at least the score and less than 1 above it for a negative one |
| Runner.ReapingIsIdempotent | merge-runner-ui.py:432-437 | a second cleanup with the player in the same place removes nothing more |
| Runner.ReapingKeepsWindow | merge-runner-ui.py:432-437 | when nothing trails more than 900 behind, cleanup keeps every obstacle and coin in order |
| Runner.HitPopups | merge-runner-ui.py:470 | each projectile hit shows its damage 80 above the player for 1 second, one popup per hit, in order |
| Runner.HitsKeepHealthInRange | merge-runner-ui.py:469-473 | clamped hits never heal the player and never leave negative health; the player survives exactly when no hit was lethal |
| Runner.OutOfSkillReach | merge-runner-ui.py:557-560 | the area skill leaves an obstacle standing exactly when it is 220 or more from the player |
| Runner.HitClamps | merge-runner-ui.py:466-473 | a single hit never leaves health negative, and afterwards the game is lost exactly when it already was or health is zero |
| Runner.HitsStayLost | merge-runner-ui.py:464-473 | a lost game stays lost through any number of further hits, and every hit adds one popup |
| Runner.HitsParts | merge-runner-ui.py:464-473 | the hit sequence gives clamped health, one popup per hit, game over exactly when a hit was lethal, and one leaderboard entry per lethal hit |
| Runner.AfterVolley | merge-runner-ui.py:460-462 | definition: the projectiles after the boss acts, its volley appended when it fires and then all of them moved and cleared from outside the world box; `Runner.Game.BossVolley` proves at most two are added and all lie in the box |
| Runner.FreshBoss | merge-runner-ui.py:313-323 | definition: a boss as it spawns, at full health scaled with the distance, timer 0, phase 1, 900 ahead of the player at height 220; `Runner.Game.SpawnBoss` states the same fields |
| Runner.Ran | merge-runner-ui.py:412-415 | definition: the player runs 180 per second, and distance and score grow by their shares of it; `Runner.FrameFacts` states the distance a frame reaches |
| Runner.Spawned | merge-runner-ui.py:422-429 | definition: each spawn timer grows by dt, and one past its cadence at the current distance spawns one sprite ahead of the player and restarts; `Runner.FrameFacts` states that each timer grows by dt or restarts |
| Runner.Reaped | merge-runner-ui.py:431-437 | definition: the obstacles and coins more than 900 behind the player are dropped, the others kept in order; `Runner.ReapingIsIdempotent` and `Runner.ReapingKeepsWindow` state its promises |
| Runner.AfterRun | merge-runner-ui.py:411-437 | definition: the running part of a frame, run then spawn (at the new distance) then reap; `Runner.Game.RunAhead` keeps the game valid through it, so every sprite left is within 900 behind the player |
| Runner.Collected | merge-runner-ui.py:440-443 | definition: the touched coins are removed and pay 25 each; `Runner.FrameFacts` states that no touched coin is left |
| Runner.Struck | merge-runner-ui.py:446-450 | definition: the touched obstacles are removed, each costing 40 points and 140 of x, clamped at 0 and 200; `Rules.ScoreAfterImpacts`, `Rules.KnockedBack` and `Runner.FrameFacts` state its promises |
| Runner.AfterCollisions | merge-runner-ui.py:439-450 | definition: coins are collected first, then obstacles strike; `Runner.FrameFacts` states that no touched sprite is left |
| Runner.AfterArrival | merge-runner-ui.py:453-456 | definition: with no boss and the threshold reached, a fresh boss appears, the projectiles are cleared and the threshold moves on, and otherwise nothing changes; `Runner.FrameFacts` and `Runner.FrameWithoutBoss` state when the threshold moves |
| Runner.AfterShots | merge-runner-ui.py:460-462 | definition: the boss acts and the projectiles become its volley update; `Runner.FightKeepsGame` states what the fight makes of it |
| Runner.AfterHits | merge-runner-ui.py:464-473 | definition: the touching projectiles hit in order, the k-th for the k-th damage draw, with clamped health, one popup per hit, and a lost game and saved score per lethal hit; `Runner.HitsKeepGame` and `Runner.HitsParts` state its promises |
| Runner.AfterContact | merge-runner-ui.py:475-491 | definition: boss body contact hurts the player (unclamped) and the boss, the player checked first, then a boss at or below 0 is beaten for 700 and an explosion; `Runner.FightKeepsGame` states its promises |
| Runner.AfterFight | merge-runner-ui.py:459-491 | definition: shots, then hits, then body contact; `Runner.FightKeepsGame` states what a fight promises |
| Runner.AfterBoss | merge-runner-ui.py:452-491 | definition: a boss arrives when due, then a boss present fights; `Runner.FrameFacts` and `Runner.FrameWithoutBoss` state its promises |
| Runner.AfterEncounters | merge-runner-ui.py:439-494 | definition: collisions, the boss, then the popups aged by dt; `Runner.FrameFacts` and `Runner.FrameWithoutBoss` state its promises |
| Runner.AfterFrame | merge-runner-ui.py:397-494 | definition: one whole frame of a running game, the cooldown decayed, then running and encounters; `Runner.FrameFacts` and `Runner.FrameWithoutBoss` state its promises, and `Runner.Game.Frame` and `Runner.Game.Tick` leave the game exactly so |
| Runner.HitsKeepGame | merge-runner-ui.py:464-473 | projectile hits on a living player never heal it and never leave negative health, the game is over afterwards exactly when health is at 0, and every popup is still alive |
| Runner.FightKeepsGame | merge-runner-ui.py:459-491 | a boss fight never heals the player, and the game is over after it exactly when health is at or below 0; a beaten boss is gone, pays exactly 700 and leaves an explosion where it stood as the last signal; a surviving boss keeps positive health and its maximum, and the score is unchanged |
| Runner.FrameFacts | merge-runner-ui.py:397-494 | over a whole frame of a running game the player keeps its height and never heals, the distance and cooldown follow dt, each spawn timer grows by dt or restarts, the boss threshold moves only when a boss arrives, the game is over exactly when health is at or below 0, and no touched coin or obstacle is left |
| Runner.FrameWithoutBoss | merge-runner-ui.py:452-494 | a frame with no boss and the threshold not reached changes no projectile, does not hurt the player, sends no signal, and only ages the popups |
| Runner.Game.constructor | merge-runner-ui.py:228-291 | a new run starts with the player at (200, 200) and full health, zero distance, score and timers, the first boss at 2000, no boss, and six obstacles and five coins spawned from the draws |
| Runner.Game.SpawnObstacle | merge-runner-ui.py:299-304 | appends one obstacle at the truncated player x plus the offset |
| Runner.Game.SpawnCoin | merge-runner-ui.py:306-311 | appends one coin at the truncated player x plus the offset, at the drawn height |
| Runner.Game.SpawnBoss | merge-runner-ui.py:313-323 | a fresh boss at full scaled health stands 900 ahead at height 220 with a zero shoot timer, and the projectiles are cleared |
| Runner.Game.WinBoss | merge-runner-ui.py:496-502 | the boss is removed, the score grows by exactly 700, and an explosion is signalled where the boss stood |
| Runner.Game.LoseGame | merge-runner-ui.py:504-511 | the game is over and the truncated score is saved |
| Runner.Game.AnimateSprites | merge-runner-ui.py:398-400 | the player's frame and timer, and the boss's when there is a boss, become the animation step of their old values by dt |
| Runner.Game.DecayCooldown | merge-runner-ui.py:407-408 | the skill cooldown becomes max(0, cooldown - dt) while positive |
| Runner.Game.Run | merge-runner-ui.py:412-415 | the player moves 180 per second, and the distance and score grow by their shares; nothing else in the game changes |
| Runner.Game.SpawnOnCadence | merge-runner-ui.py:422-429 | each timer grows by dt; a timer past its cadence (at the distance already advanced) spawns exactly one sprite and resets to 0, otherwise nothing spawns; nothing else changes |
| Runner.Game.ObstacleOnCadence | merge-runner-ui.py:422-426 | the obstacle timer grows by dt; past the obstacle cadence it spawns exactly one obstacle and resets to 0, otherwise no obstacle is added |
| Runner.Game.CoinOnCadence | merge-runner-ui.py:423-429 | the coin timer grows by dt; past the coin cadence it spawns exactly one coin at the drawn height and resets to 0, otherwise no coin is added |
| Runner.Game.ReapTrailing | merge-runner-ui.py:431-437 | the obstacles and coins kept are exactly those at most 900 behind the player, in order; nothing else changes |
| Runner.Game.ReapObstacles | merge-runner-ui.py:432-434 | the obstacles kept are exactly those at most 900 behind the player, in order |
| Runner.Game.ReapCoins | merge-runner-ui.py:435-437 | the coins kept are exactly those at most 900 behind the player, in order |
| Runner.Game.CollectCoins | merge-runner-ui.py:440-443 | the touched coins are removed and each adds 25 to the score; the others stay in order, no touched coin remains, and nothing else changes |
| Runner.Game.HitObstacles | merge-runner-ui.py:446-450 | the touched obstacles are removed, the others stay in order and no touched one remains; each costs 40 points, never going below 0, and knocks the player 140 back, never left of 200; nothing else changes |
| Runner.Game.BossArrival | merge-runner-ui.py:453-456 | a boss spawns exactly when none is present and the distance has reached the threshold, and the threshold then moves on; otherwise nothing changes |
| Runner.Game.UpdateProjectiles | merge-runner-ui.py:462 | every projectile moves, and those that leave the world box are removed |
| Runner.Game.ResolveProjectileHits | merge-runner-ui.py:464-473 | the touching projectiles are removed; each hit lowers health by its draw and clamps at 0, shows a popup, and on a lethal hit ends the game and saves the score; nothing else changes |
| Runner.Game.HitEach | merge-runner-ui.py:464-473 | the hit loop leaves the untouched projectiles in order, and its effect is the fold of single hits over the damage draws |
| Runner.Game.TakeHit | merge-runner-ui.py:468-473 | one hit: health drops by the damage and clamps at 0, a popup appears, and a lethal hit ends the game and saves the score |
| Runner.Game.BossContact | merge-runner-ui.py:475-484 | contact costs the player 18 + distance/1000 (not clamped) and the boss 40; a player at or below 0 loses, a boss at or below 0 is beaten |
| Runner.Game.BossVolley | merge-runner-ui.py:460-462 | the boss acts (its phase set from its health ratio, a step left by its phase, its timer reset when it fires or grown by dt) and the projectiles become the update of the old ones plus the volley when it fires; at most two are added, all lie in the world box, and nothing else changes |
| Runner.Game.BossShoots | merge-runner-ui.py:459-473 | the boss acts, every projectile moves, and the touching ones hit in order; the game state is exactly that of these two steps; health never rises and never goes negative, and the game is over exactly when health is at 0 |
| Runner.Game.BossFight | merge-runner-ui.py:459-491 | the game state after the fight is exactly the boss acting, the projectile hits, then the contact and the win check; health never rises, the game is over exactly when health is at or below 0, and a remaining boss is the same one with positive health |
| Runner.Game.BossTouch | merge-runner-ui.py:475-491 | boss contact, if any, hurts both sides (the player not clamped) and a player at or below 0 loses; then a boss at or below 0 is beaten for 700 points and an explosion; the game state is exactly that, and without contact the player's health is unchanged |
| Runner.Game.Refresh | merge-runner-ui.py:397-408 | the player's and the boss's animations take one step of dt, the cooldown decays, nothing else changes, and the game state stays valid |
| Runner.Game.RunAhead | merge-runner-ui.py:411-437 | the game state after the running part is exactly the player running, the spawns on cadence at the new distance, and the reaping; the game state stays valid, so every obstacle and coin is within 900 behind the player |
| Runner.Game.Collide | merge-runner-ui.py:439-450 | the game state is exactly coins collected and then obstacles hit: the touched ones removed and the rest kept in order, 25 per coin, then 40 per impact clamped at 0 and 140 knock-back per impact, never left of 200; no touched coin or obstacle remains |
| Runner.Game.BossStage | merge-runner-ui.py:452-491 | the game state is exactly a boss arriving when due, then the fight of the boss present; the game state stays valid |
| Runner.Game.DecayPopups | merge-runner-ui.py:494 | the popups become their decayed list, all alive, and nothing else changes |
| Runner.Game.Encounters | merge-runner-ui.py:439-494 | the game state is exactly collisions, then the boss stage, then the popups aged by dt; the game state stays valid |
| Runner.Game.Frame | merge-runner-ui.py:397-494 | the game state after a frame of a running game is exactly the whole frame function of the old one, and the animations take one step of dt; so the player keeps its height and never heals, distance and cooldown follow dt, each spawn timer grows by dt or restarts, the boss threshold moves only when a boss arrives, no touched coin or obstacle remains, and the game state stays valid |
| Runner.Game.Tick | merge-runner-ui.py:391-494 | once the game is over a tick changes nothing; otherwise the game state is exactly one frame of the old one, with the same field-by-field promises as a frame, and the game state stays valid |
| Runner.Game.StrikeBoss | merge-runner-ui.py:536-541 | a blow lowers the boss's health by its damage and shows a popup over the boss; a boss at or below 0 is beaten |
| Runner.Game.Jump | merge-runner-ui.py:527-530 | SPACE raises the player by exactly 90 while the game runs, and does nothing after it ends |
| Runner.Game.Melee | merge-runner-ui.py:532-541 | Z hurts the boss only when it is present and less than 140 away, by the drawn damage, with a 0.9 s popup; otherwise nothing changes |
| Runner.Game.Skill | merge-runner-ui.py:542-563 | X does nothing while the cooldown runs; otherwise the cooldown becomes 3 and either the boss takes the skill damage with a 1.2 s popup, or, with no boss, exactly the obstacles within 220 are removed and counted |
| Runner.Game.ClearAround | merge-runner-ui.py:555-561 | the obstacles kept are exactly those 220 or more from the player, in order, and the count removed makes up the difference |

## Left out

- Drawing, the camera, the parallax background, the health bars, and
  the menu, character-select and leaderboard views. These are presentation
  and carry no game state.
- Sounds, and the particle emitters of explosions. An explosion is logged
  as a `Signal`, and its particles are not modelled.
- The JSON persistence of player data and the leaderboard. Saving the
  score is logged as a `ScoreSaved` signal.
- Texture loading and sprite-sheet slicing. Only the frame index of an
  animation is modelled.
- Hit-box geometry. Every overlap test is an input.
- Floating-point rounding. Positions, times and the score are exact reals.
- The random distributions. Draws are inputs within their ranges.
- ESC and R (menu and restart). These replace the whole view.
- Runner.Game.Tick: needs at least `|projectiles| + 2` damage draws, enough
  for every projectile present after a volley. The source draws one per
  hit.
