/** The runner's game state and its per-frame simulation: the player runs
    right at a constant speed, obstacles and coins are spawned ahead and
    reaped behind, a boss appears at growing distances, shoots volleys and
    can be fought with a melee strike and a cooldown-gated skill. Random
    draws and overlap tests are inputs of each step. */
module Runner {
  import opened Lists
  import opened Rules
  import opened Sprites
  import opened Bosses

  /** A coin: its centre. An obstacle is only its x (all stand at y = 200). */
  datatype Coin = Coin(x: real, y: real)

  /** Fire-and-forget events for the presentation and persistence layers. */
  datatype Signal =
    | Explosion(x: real, y: real)  // particle burst where a boss was beaten
    | ScoreSaved(score: int)       // the leaderboard entry written on defeat

  /** The random draws one tick may consume: where a new obstacle and coin
      land, the vertical spread of a volley, and the damage of the k-th
      projectile hit. */
  datatype Draws = Draws(obstacleOffset: int, coinOffset: int, coinY: int,
                         spread: real, hitDamage: seq<int>)

  predicate DrawsInRange(d: Draws)
  {
    && 600 <= d.obstacleOffset <= 3000
    && 500 <= d.coinOffset <= 2600
    && 240 <= d.coinY <= 320
    && 0.8 <= d.spread <= 2.0
    && forall k :: 0 <= k < |d.hitDamage| ==> 8 <= d.hitDamage[k] <= 18
  }

  /** The overlap tests of one tick, against the player's hit box at the
      moment each is asked. */
  datatype Contacts = Contacts(coin: Coin -> bool, obstacle: real -> bool,
                               projectile: Projectile -> bool, boss: bool)

  /** Python's `int` on a float: truncation towards zero. */
  function Truncate(r: real): (n: int)
    ensures r >= 0.0 ==> n as real <= r < n as real + 1.0
    ensures r < 0.0 ==> n as real - 1.0 < r <= n as real
  {
    if r >= 0.0 then r.Floor else -((-r).Floor)
  }

  /** Sprites that are not trailing too far behind the player. */
  function WindowTest(playerX: real): real -> bool
  {
    x => InWindow(x, playerX)
  }

  function CoinWindowTest(playerX: real): Coin -> bool
  {
    (c: Coin) => InWindow(c.x, playerX)
  }

  /** Reaping is idempotent: a second cleanup with the player where it
      stands removes nothing more. */
  lemma ReapingIsIdempotent(obstacles: seq<real>, coins: seq<Coin>, playerX: real)
    ensures Filter(Filter(obstacles, WindowTest(playerX)), WindowTest(playerX))
            == Filter(obstacles, WindowTest(playerX))
    ensures Filter(Filter(coins, CoinWindowTest(playerX)), CoinWindowTest(playerX))
            == Filter(coins, CoinWindowTest(playerX))
  {
    FilterIdempotent(obstacles, WindowTest(playerX));
    FilterIdempotent(coins, CoinWindowTest(playerX));
  }

  /** Reaping keeps everything that is within 900 behind the player, in
      order: when nothing trails too far, nothing is removed. */
  lemma ReapingKeepsWindow(obstacles: seq<real>, coins: seq<Coin>, playerX: real)
    requires forall i :: 0 <= i < |obstacles| ==> InWindow(obstacles[i], playerX)
    requires forall i :: 0 <= i < |coins| ==> InWindow(coins[i].x, playerX)
    ensures Filter(obstacles, WindowTest(playerX)) == obstacles
    ensures Filter(coins, CoinWindowTest(playerX)) == coins
  {
    FilterKeepsAll(obstacles, WindowTest(playerX));
    FilterKeepsAll(coins, CoinWindowTest(playerX));
  }

  /** The sprites an overlap test does not report. */
  function Missed<T>(touches: T -> bool): T -> bool
  {
    x => !touches(x)
  }

  /** Obstacles the area skill leaves standing: those 220 or more away. */
  function OutOfSkillReach(playerX: real): (keep: real -> bool)
    ensures forall x :: keep(x) <==> Abs(x - playerX) >= SkillRadius
  {
    x => !(Abs(x - playerX) < SkillRadius)
  }

  /** The damage numbers shown for projectile hits `ds` on the player at
      (`x`, `y`). */
  function HitPopups(x: real, y: real, ds: seq<int>): (r: seq<Popup>)
    ensures |r| == |ds|
    ensures forall i :: 0 <= i < |ds| ==> r[i] == Popup(x, y + 80.0, ds[i], 1.0)
  {
    if ds == [] then [] else HitPopups(x, y, ds[..|ds| - 1]) + [Popup(x, y + 80.0, ds[|ds| - 1], 1.0)]
  }

  /** One more hit shows one more damage number. */
  lemma HitPopupsStep(x: real, y: real, ds: seq<int>, k: nat)
    requires k < |ds|
    ensures HitPopups(x, y, ds[..k + 1]) == HitPopups(x, y, ds[..k]) + [Popup(x, y + 80.0, ds[k], 1.0)]
  {
    assert ds[..k + 1][..k] == ds[..k];
  }

  /** Clamped projectile hits never heal and never leave health negative,
      and the player is still alive after them exactly when none of them
      was lethal. */
  lemma {:induction false} HitsKeepHealthInRange(health: int, ds: seq<int>)
    requires health > 0
    requires forall k :: 0 <= k < |ds| ==> ds[k] >= 0
    ensures 0 <= HealthAfterHits(health, ds) <= health
    ensures Defeats(health, ds) == 0 <==> HealthAfterHits(health, ds) > 0
  {
    if ds != [] {
      HitsKeepHealthInRange(health, ds[..|ds| - 1]);
    }
  }

  /** What projectile hits change: the player's health, the damage numbers,
      whether the game is lost, and the signals emitted. */
  datatype HitLog = HitLog(health: int, popups: seq<Popup>, over: bool, signals: seq<Signal>)

  /** One projectile hit for `dmg` on the player at (`x`, `y`): a damage
      number, and health clamped at zero with the game lost (and `lost`
      emitted) when it drops that far. */
  function Hit(log: HitLog, x: real, y: real, lost: Signal, dmg: int): HitLog
  {
    var h := log.health - dmg;
    HitLog(if h <= 0 then 0 else h,
           log.popups + [Popup(x, y + 80.0, dmg, 1.0)],
           log.over || h <= 0,
           log.signals + (if h <= 0 then [lost] else []))
  }

  /** The first `n` hits of `ds`, in order. */
  function Hits(log: HitLog, x: real, y: real, lost: Signal, ds: seq<int>, n: nat): HitLog
    requires n <= |ds|
  {
    if n == 0 then log else Hit(Hits(log, x, y, lost, ds, n - 1), x, y, lost, ds[n - 1])
  }

  /** A hit never leaves health negative, and afterwards the game is lost
      exactly when it already was or health is down to zero. */
  lemma HitClamps(log: HitLog, x: real, y: real, lost: Signal, dmg: int)
    ensures Hit(log, x, y, lost, dmg).health >= 0
    ensures Hit(log, x, y, lost, dmg).over <==> log.over || Hit(log, x, y, lost, dmg).health == 0
  {
  }

  /** A lost game stays lost however many hits follow, and every hit shows
      its damage number. */
  lemma {:induction false} HitsStayLost(log: HitLog, x: real, y: real, lost: Signal, ds: seq<int>, n: nat)
    requires n <= |ds|
    ensures log.over ==> Hits(log, x, y, lost, ds, n).over
    ensures |Hits(log, x, y, lost, ds, n).popups| == |log.popups| + n
  {
    if n > 0 {
      HitsStayLost(log, x, y, lost, ds, n - 1);
    }
  }

  /** The first `n` hits, field by field: health after the clamped hits,
      one damage number per hit, the game lost exactly when some hit was
      lethal, and the loss signalled once per lethal hit. */
  lemma {:induction false} HitsParts(log: HitLog, x: real, y: real, lost: Signal, ds: seq<int>, n: nat)
    requires n <= |ds|
    ensures var r := Hits(log, x, y, lost, ds, n);
            && r.health == HealthAfterHits(log.health, ds[..n])
            && r.popups == log.popups + HitPopups(x, y, ds[..n])
            && r.over == (log.over || Defeats(log.health, ds[..n]) > 0)
            && r.signals == log.signals + Repeat(lost, Defeats(log.health, ds[..n]))
  {
    if n > 0 {
      HitsParts(log, x, y, lost, ds, n - 1);
      HitStep(log.health, ds, n - 1);
      HitPopupsStep(x, y, ds, n - 1);
      var prev := Hits(log, x, y, lost, ds, n - 1);
      var d := Defeats(log.health, ds[..n - 1]);
      var h := prev.health - ds[n - 1];
      assert Hits(log, x, y, lost, ds, n) == Hit(prev, x, y, lost, ds[n - 1]);
      assert Repeat(lost, d + 1) == Repeat(lost, d) + [lost];
      assert prev.popups + [Popup(x, y + 80.0, ds[n - 1], 1.0)]
             == log.popups + HitPopups(x, y, ds[..n]);
      assert prev.signals + (if h <= 0 then [lost] else [])
             == log.signals + Repeat(lost, Defeats(log.health, ds[..n]));
    }
  }

  /** The projectiles after the boss acts and every projectile moves: the
      boss's volley appended when it `fires`, then all of them advanced. */
  function AfterVolley(ps: seq<Projectile>, fires: bool, bossX: real, bossY: real,
                       playerX: real, phase: int, spread: real): seq<Projectile>
    requires 1 <= phase <= 3
  {
    Advanced(ps + (if fires then Volley(bossX, bossY, playerX, phase, spread) else []))
  }

  /** A boss as it appears: full health scaled with `distance`, its
      clock at zero, in phase 1, 900 ahead of the player's `x`. */
  function FreshBoss(distance: real, x: real): BossState
    requires distance >= 0.0
  {
    BossState(BossMaxHealth(distance), BossMaxHealth(distance), 0.0, 1, x + 900.0, 220.0)
  }

  /** The game's state between frames, as a value: what one frame reads
      and what it changes (the animation clocks aside). */
  datatype Snapshot = Snapshot(
    playerX: real, playerY: real, playerHealth: int, distance: real, nextBossAt: real,
    score: real, skillCd: real, obstacleTimer: real, coinTimer: real, gameOver: bool,
    obstacles: seq<real>, coins: seq<Coin>, projectiles: seq<Projectile>,
    boss: Option<BossState>, popups: seq<Popup>, signals: seq<Signal>)

  /** The player runs `dt` seconds: x, distance and score advance. */
  function Ran(s: Snapshot, dt: real): Snapshot
    requires dt >= 0.0
  {
    s.(playerX := s.playerX + BaseSpeed * dt, distance := s.distance + DistanceGain(dt),
       score := s.score + RunScore(dt))
  }

  /** Each spawn timer advances by `dt`; one that has run past its cadence
      spawns a sprite ahead of the player and restarts. */
  function Spawned(s: Snapshot, dt: real, obstacleOffset: int, coinOffset: int, coinY: int): Snapshot
    requires s.playerX >= 0.0
    requires 600 <= obstacleOffset <= 3000 && 500 <= coinOffset <= 2600 && 240 <= coinY <= 320
  {
    var firesO := s.obstacleTimer + dt > ObstacleCadence(s.distance);
    var firesC := s.coinTimer + dt > CoinCadence(s.distance);
    s.(obstacleTimer := if firesO then 0.0 else s.obstacleTimer + dt,
       coinTimer := if firesC then 0.0 else s.coinTimer + dt,
       obstacles := s.obstacles + (if firesO then [ObstacleSpawnX(s.playerX, obstacleOffset)] else []),
       coins := s.coins + (if firesC then [Coin(CoinSpawnX(s.playerX, coinOffset), coinY as real)] else []))
  }

  /** Obstacles and coins trailing more than 900 behind the player are
      dropped, the others kept in order. */
  function Reaped(s: Snapshot): Snapshot
  {
    s.(obstacles := Filter(s.obstacles, WindowTest(s.playerX)),
       coins := Filter(s.coins, CoinWindowTest(s.playerX)))
  }

  /** The running part of a frame: the player runs, sprites spawn on
      cadence (at the new distance) ahead, and trailing ones are reaped. */
  function AfterRun(s: Snapshot, dt: real, draws: Draws): Snapshot
    requires s.playerX >= 0.0 && dt >= 0.0 && DrawsInRange(draws)
  {
    Reaped(Spawned(Ran(s, dt), dt, draws.obstacleOffset, draws.coinOffset, draws.coinY))
  }

  /** Coins touched are collected, 25 points each. */
  function Collected(s: Snapshot, touches: Coin -> bool): Snapshot
  {
    s.(coins := Filter(s.coins, Missed(touches)),
       score := s.score + CoinReward * |Filter(s.coins, touches)| as real)
  }

  /** Obstacles touched are removed, each costing 40 points (never below
      zero) and knocking the player back 140 (never left of x = 200). */
  function Struck(s: Snapshot, touches: real -> bool): Snapshot
  {
    var impacts := |Filter(s.obstacles, touches)|;
    s.(obstacles := Filter(s.obstacles, Missed(touches)),
       score := ScoreAfterImpacts(s.score, impacts),
       playerX := KnockedBack(s.playerX, impacts))
  }

  /** The collision part of a frame: coins first, then obstacles. */
  function AfterCollisions(s: Snapshot, contacts: Contacts): Snapshot
  {
    Struck(Collected(s, contacts.coin), contacts.obstacle)
  }

  /** With no boss and the threshold reached, a fresh boss appears, the
      projectiles are cleared and the next threshold is scheduled. */
  function AfterArrival(s: Snapshot): Snapshot
    requires s.distance >= 0.0
  {
    if s.boss.None? && s.distance >= s.nextBossAt then
      s.(boss := Some(FreshBoss(s.distance, s.playerX)), projectiles := [],
         nextBossAt := NextBossAt(s.nextBossAt, s.distance))
    else s
  }

  /** The boss acts: it takes its phase from its health, walks, and fires
      a volley when its timer has run past the phase's interval; then
      every projectile moves, those leaving the world box disappearing. */
  function AfterShots(s: Snapshot, dt: real, spread: real): Snapshot
    requires s.boss.Some?
  {
    var a := Acted(s.boss.value, dt);
    s.(boss := Some(a),
       projectiles := AfterVolley(s.projectiles, Fires(s.boss.value, dt), a.centerX, a.centerY, s.playerX, a.phase, spread))
  }

  /** The projectiles touching the player hit it in order, the k-th for
      `hitDamage[k]`: health clamped at zero, a damage number each, and
      the game lost (and the score saved) by each hit that leaves the
      player at or below zero. */
  function AfterHits(s: Snapshot, hitDamage: seq<int>, touches: Projectile -> bool): Snapshot
    requires |hitDamage| >= |s.projectiles|
  {
    var hits := hitDamage[..|Filter(s.projectiles, touches)|];
    var defeats := Defeats(s.playerHealth, hits);
    s.(projectiles := Filter(s.projectiles, Missed(touches)),
       playerHealth := HealthAfterHits(s.playerHealth, hits),
       popups := s.popups + HitPopups(s.playerX, s.playerY, hits),
       gameOver := s.gameOver || defeats > 0,
       signals := s.signals + Repeat(ScoreSaved(Truncate(s.score)), defeats))
  }

  /** Projectile hits on a living player never heal it and never leave
      its health negative, the game is over afterwards exactly when its
      health reached zero, and every damage number shown is still alive. */
  lemma HitsKeepGame(s: Snapshot, hitDamage: seq<int>, touches: Projectile -> bool)
    requires |hitDamage| >= |s.projectiles|
    requires forall k :: 0 <= k < |hitDamage| ==> hitDamage[k] >= 0
    requires !s.gameOver && s.playerHealth > 0
    requires forall q :: q in s.popups ==> Alive(q)
    ensures var r := AfterHits(s, hitDamage, touches);
            && 0 <= r.playerHealth <= s.playerHealth
            && (r.gameOver <==> r.playerHealth <= 0)
            && forall q :: q in r.popups ==> Alive(q)
  {
    var hits := hitDamage[..|Filter(s.projectiles, touches)|];
    HitsKeepHealthInRange(s.playerHealth, hits);
    var shown := HitPopups(s.playerX, s.playerY, hits);
    forall q | q in s.popups + shown
      ensures Alive(q)
    {
      if q !in s.popups {
        var i :| 0 <= i < |shown| && shown[i] == q;
      }
    }
  }

  /** The boss body may touch the player, hurting both at once, the player
      checked first; then a boss at or below zero health is beaten for 700
      points and an explosion where it stood. */
  function AfterContact(s: Snapshot, touching: bool): Snapshot
    requires s.boss.Some? && s.distance >= 0.0
  {
    var b := s.boss.value;
    var lost := ScoreSaved(Truncate(s.score));
    var health := s.playerHealth - (if touching then ContactDamage(s.distance) else 0);
    var bossHealth := b.health - (if touching then BossContactDamage else 0);
    var won := bossHealth <= 0;
    s.(boss := if won then None else Some(b.(health := bossHealth)),
       playerHealth := health,
       gameOver := s.gameOver || (touching && health <= 0),
       popups := s.popups + (if touching then [Popup(s.playerX, s.playerY + 80.0, ContactDamage(s.distance), 1.0)] else []),
       signals := s.signals + (if touching && health <= 0 then [lost] else [])
                  + (if won then [Explosion(b.centerX, b.centerY)] else []),
       score := s.score + (if won then BossReward else 0.0))
  }

  /** The boss's part of a frame: it shoots, its shots fly and hit, and its
      body may touch the player. */
  function AfterFight(s: Snapshot, dt: real, spread: real, hitDamage: seq<int>, contacts: Contacts): Snapshot
    requires s.boss.Some? && s.distance >= 0.0 && |hitDamage| >= |s.projectiles| + 2
  {
    var shot := AfterShots(s, dt, spread);
    assert |shot.projectiles| <= |s.projectiles| + 2;
    AfterContact(AfterHits(shot, hitDamage, contacts.projectile), contacts.boss)
  }

  /** A boss arrives when due, then a boss present fights. */
  function AfterBoss(s: Snapshot, dt: real, draws: Draws, contacts: Contacts): Snapshot
    requires s.distance >= 0.0 && |draws.hitDamage| >= |s.projectiles| + 2
  {
    var a := AfterArrival(s);
    if a.boss.Some? then AfterFight(a, dt, draws.spread, draws.hitDamage, contacts) else a
  }

  /** The second half of a frame: collisions, the boss, and the damage
      numbers aged by `dt`. */
  function AfterEncounters(s: Snapshot, dt: real, draws: Draws, contacts: Contacts): Snapshot
    requires s.distance >= 0.0 && |draws.hitDamage| >= |s.projectiles| + 2
  {
    var b := AfterBoss(AfterCollisions(s, contacts), dt, draws, contacts);
    b.(popups := Decayed(b.popups, dt))
  }

  /** One whole frame of a game in progress: the skill cooldown runs down,
      then the running part and the encounters. */
  function AfterFrame(s: Snapshot, dt: real, draws: Draws, contacts: Contacts): Snapshot
    requires s.playerX >= 0.0 && s.skillCd >= 0.0 && s.distance >= 0.0 && dt >= 0.0
    requires DrawsInRange(draws) && |draws.hitDamage| >= |s.projectiles| + 2
  {
    AfterEncounters(AfterRun(s.(skillCd := Cooldown(s.skillCd, dt)), dt, draws), dt, draws, contacts)
  }

  /** A fight never heals the player, and the game is over after it exactly
      when the player's health is at or below zero. A boss it beats is gone,
      pays 700 points and leaves an explosion where it stood as the last
      signal; a boss that survives keeps positive health and its maximum,
      and the score is untouched. */
  lemma FightKeepsGame(s: Snapshot, dt: real, spread: real, hitDamage: seq<int>, contacts: Contacts)
    requires s.boss.Some? && s.distance >= 0.0 && |hitDamage| >= |s.projectiles| + 2
    requires forall k :: 0 <= k < |hitDamage| ==> hitDamage[k] >= 0
    requires !s.gameOver && s.playerHealth > 0
    requires forall q :: q in s.popups ==> Alive(q)
    ensures var r := AfterFight(s, dt, spread, hitDamage, contacts);
            && r.playerHealth <= s.playerHealth
            && (r.gameOver <==> r.playerHealth <= 0)
            && (r.boss.None? ==>
                  && r.score == s.score + BossReward
                  && r.signals != []
                  && r.signals[|r.signals| - 1] == Explosion(Acted(s.boss.value, dt).centerX, s.boss.value.centerY))
            && (r.boss.Some? ==>
                  && r.score == s.score
                  && r.boss.value.health > 0
                  && r.boss.value.maxHealth == s.boss.value.maxHealth)
  {
    var shot := AfterShots(s, dt, spread);
    HitsKeepGame(shot, hitDamage, contacts.projectile);
  }

  /** What a frame of a game in progress promises, field by field: the
      player keeps its height and never heals, distance and cooldown follow
      `dt`, each spawn timer advances by `dt` or restarts, the boss
      threshold moves only when a boss arrives, the game is over exactly
      when health is at or below zero, and no sprite the player touched is
      left. */
  lemma FrameFacts(s: Snapshot, dt: real, draws: Draws, contacts: Contacts)
    requires s.playerX >= 0.0 && s.skillCd >= 0.0 && s.distance >= 0.0 && dt >= 0.0
    requires DrawsInRange(draws) && |draws.hitDamage| >= |s.projectiles| + 2
    requires !s.gameOver && s.playerHealth > 0
    requires forall q :: q in s.popups ==> Alive(q)
    ensures var r := AfterFrame(s, dt, draws, contacts);
            && r.playerY == s.playerY
            && r.playerHealth <= s.playerHealth
            && (r.gameOver <==> r.playerHealth <= 0)
            && r.distance == s.distance + DistanceGain(dt)
            && r.skillCd == Cooldown(s.skillCd, dt)
            && (r.obstacleTimer == 0.0 || r.obstacleTimer == s.obstacleTimer + dt)
            && (r.coinTimer == 0.0 || r.coinTimer == s.coinTimer + dt)
            && (r.nextBossAt == s.nextBossAt ||
                  (s.boss.None? && r.distance >= s.nextBossAt &&
                   r.nextBossAt == NextBossAt(s.nextBossAt, r.distance)))
            && (forall c :: c in r.coins ==> !contacts.coin(c))
            && (forall x :: x in r.obstacles ==> !contacts.obstacle(x))
  {
    var ran := AfterRun(s.(skillCd := Cooldown(s.skillCd, dt)), dt, draws);
    var hit := AfterCollisions(ran, contacts);
    FilterMembers(ran.coins, Missed(contacts.coin));
    FilterMembers(Collected(ran, contacts.coin).obstacles, Missed(contacts.obstacle));
    var a := AfterArrival(hit);
    if a.boss.Some? {
      FightKeepsGame(a, dt, draws.spread, draws.hitDamage, contacts);
    }
  }

  /** A frame with no boss about and the threshold not reached leaves the
      fight alone: no projectiles change, the player is not hurt, no signal
      is sent, and damage numbers only age. */
  lemma FrameWithoutBoss(s: Snapshot, dt: real, draws: Draws, contacts: Contacts)
    requires s.playerX >= 0.0 && s.skillCd >= 0.0 && s.distance >= 0.0 && dt >= 0.0
    requires DrawsInRange(draws) && |draws.hitDamage| >= |s.projectiles| + 2
    requires s.boss.None? && s.distance + DistanceGain(dt) < s.nextBossAt
    ensures var r := AfterFrame(s, dt, draws, contacts);
            && r.boss.None? && r.nextBossAt == s.nextBossAt
            && r.projectiles == s.projectiles
            && r.playerHealth == s.playerHealth && r.gameOver == s.gameOver
            && r.signals == s.signals
            && r.popups == Decayed(s.popups, dt)
  {
  }

  class Game {
    var playerX: real
    var playerY: real
    const playerAnim: Animation
    var playerHealth: int
    var distance: real
    var nextBossAt: real
    var score: real
    var skillCd: real
    var obstacleTimer: real
    var coinTimer: real
    var gameOver: bool
    var obstacles: seq<real>
    var coins: seq<Coin>
    var projectiles: seq<Projectile>
    var boss: Boss?
    var popups: seq<Popup>
    var signals: seq<Signal>

    /** The boss and its animation, when there is a boss. */
    ghost function BossParts(): set<object>
      reads this`boss
    {
      if boss == null then {} else {boss, boss.anim}
    }

    /** The game's fields, with the boss's, as a value. */
    ghost function Snap(): Snapshot
      reads this, BossSet()
    {
      Snapshot(playerX, playerY, playerHealth, distance, nextBossAt, score, skillCd,
               obstacleTimer, coinTimer, gameOver, obstacles, coins, projectiles,
               if boss == null then None else Some(boss.State()), popups, signals)
    }

    /** The boss, as a set, so that a frame can name its health alone. */
    ghost function BossSet(): set<Boss>
      reads this`boss
    {
      if boss == null then {} else {boss}
    }

    /** The objects are consistent: animations are well formed and the
        boss's frame counter is its own. */
    ghost predicate WellFormed()
      reads this`boss, playerAnim, BossParts()
    {
      && playerAnim.Valid() && playerAnim.frames == 6
      && (boss != null ==> boss.Valid() && boss.anim != playerAnim)
    }

    /** The game's invariant between frames and key presses. */
    ghost predicate Valid()
      reads this, playerAnim, BossParts()
    {
      && WellFormed()
      && (boss != null ==> boss.health > 0 && boss.maxHealth >= 80)
      && playerX >= PlayerStartX && distance >= 0.0
      && score >= 0.0 && skillCd >= 0.0
      && obstacleTimer >= 0.0 && coinTimer >= 0.0
      && playerHealth <= PlayerMaxHealth
      && (gameOver <==> playerHealth <= 0)
      && (forall x :: x in obstacles ==> InWindow(x, playerX))
      && (forall c :: c in coins ==> InWindow(c.x, playerX))
      && (forall p :: p in projectiles ==> InBounds(p))
      && (forall q :: q in popups ==> Alive(q))
    }

    /** A new run, set up: the player at (200, 200) with full health, six
        obstacles and five coins spawned from the given draws, no boss. */
    constructor (obstacleOffsets: seq<int>, coinOffsets: seq<int>, coinYs: seq<int>)
      requires |obstacleOffsets| == 6 && |coinOffsets| == 5 && |coinYs| == 5
      requires forall i :: 0 <= i < 6 ==> 600 <= obstacleOffsets[i] <= 3000
      requires forall i :: 0 <= i < 5 ==> 500 <= coinOffsets[i] <= 2600 && 240 <= coinYs[i] <= 320
      ensures Valid() && fresh(playerAnim)
      ensures playerX == PlayerStartX && playerY == PlayerStartY
      ensures playerHealth == PlayerMaxHealth && !gameOver
      ensures distance == 0.0 && nextBossAt == DistanceForBoss && score == 0.0
      ensures skillCd == 0.0 && obstacleTimer == 0.0 && coinTimer == 0.0
      ensures boss == null && projectiles == [] && popups == [] && signals == []
      ensures |obstacles| == 6 && forall i :: 0 <= i < 6 ==> obstacles[i] == ObstacleSpawnX(PlayerStartX, obstacleOffsets[i])
      ensures |coins| == 5 && forall i :: 0 <= i < 5 ==>
                coins[i] == Coin(CoinSpawnX(PlayerStartX, coinOffsets[i]), coinYs[i] as real)
    {
      playerX, playerY := PlayerStartX, PlayerStartY;
      playerAnim := new Animation(6);
      playerHealth := PlayerMaxHealth;
      distance, nextBossAt, score := 0.0, DistanceForBoss, 0.0;
      skillCd, obstacleTimer, coinTimer := 0.0, 0.0, 0.0;
      gameOver := false;
      obstacles, coins, projectiles := [], [], [];
      boss := null;
      popups, signals := [], [];
      new;
      for i := 0 to 6
        modifies this`obstacles
        invariant |obstacles| == i
        invariant forall j :: 0 <= j < i ==> obstacles[j] == ObstacleSpawnX(PlayerStartX, obstacleOffsets[j])
      {
        SpawnObstacle(obstacleOffsets[i]);
      }
      for i := 0 to 5
        modifies this`coins
        invariant |coins| == i
        invariant forall j :: 0 <= j < i ==>
                    coins[j] == Coin(CoinSpawnX(PlayerStartX, coinOffsets[j]), coinYs[j] as real)
      {
        SpawnCoin(coinOffsets[i], coinYs[i]);
      }
    }

    // ------------------------------------------------------------------
    // Spawning, defeat and victory

    /** Adds an obstacle `offset` pixels ahead of the player. */
    method SpawnObstacle(offset: int)
      requires playerX >= 0.0 && 600 <= offset <= 3000
      modifies this`obstacles
      ensures obstacles == old(obstacles) + [ObstacleSpawnX(playerX, offset)]
    {
      obstacles := obstacles + [(playerX + offset as real).Floor as real];
    }

    /** Adds a coin `offset` pixels ahead of the player at height `y`. */
    method SpawnCoin(offset: int, y: int)
      requires playerX >= 0.0 && 500 <= offset <= 2600 && 240 <= y <= 320
      modifies this`coins
      ensures coins == old(coins) + [Coin(CoinSpawnX(playerX, offset), y as real)]
    {
      coins := coins + [Coin((playerX + offset as real).Floor as real, y as real)];
    }

    /** Brings in a new boss 900 ahead of the player, its health scaled
        with the distance run, and clears the projectiles. */
    method SpawnBoss()
      requires WellFormed() && distance >= 0.0
      modifies this`boss, this`projectiles
      ensures WellFormed()
      ensures boss != null && fresh(boss) && fresh(boss.anim)
      ensures boss.maxHealth == BossMaxHealth(distance) && boss.health == boss.maxHealth
      ensures boss.centerX == playerX + 900.0 && boss.centerY == 220.0
      ensures boss.shootTimer == 0.0 && boss.phase == 1
      ensures projectiles == []
    {
      var b := new Boss();
      b.maxHealth := 80 + (distance / 500.0).Floor * 10;
      b.health := b.maxHealth;
      b.centerX := playerX + 900.0;
      b.centerY := 220.0;
      boss := b;
      projectiles := [];
      b.shootTimer := 0.0;
    }

    /** The boss is beaten: an explosion where it stood, 700 points, and no
        boss any more. */
    method WinBoss()
      requires boss != null
      modifies this`boss, this`score, this`signals
      ensures boss == null
      ensures score == old(score) + BossReward
      ensures signals == old(signals) + [Explosion(old(boss).centerX, old(boss).centerY)]
    {
      signals := signals + [Explosion(boss.centerX, boss.centerY)];
      score := score + 700.0;
      boss := null;
    }

    /** The player is beaten: the game is over and the score is saved. */
    method LoseGame()
      modifies this`gameOver, this`signals
      ensures gameOver
      ensures signals == old(signals) + [ScoreSaved(Truncate(score))]
    {
      gameOver := true;
      signals := signals + [ScoreSaved(Truncate(score))];
    }

    // ------------------------------------------------------------------
    // The steps of a frame, in the order the frame runs them

    /** Both sprite animations advance by `dt`. */
    method AnimateSprites(dt: real)
      requires WellFormed() && dt >= 0.0
      modifies playerAnim, if boss != null then {boss.anim} else {}
      ensures WellFormed()
      ensures playerAnim.State() == Stepped(old(playerAnim.State()), dt, playerAnim.frames, playerAnim.frameTime)
      ensures boss != null ==>
                boss.anim.State() == Stepped(old(boss.anim.State()), dt, boss.anim.frames, boss.anim.frameTime)
    {
      playerAnim.Update(dt);
      if boss != null {
        boss.anim.Update(dt);
      }
    }

    /** The skill cooldown runs down, never below zero. */
    method DecayCooldown(dt: real)
      requires skillCd >= 0.0 && dt >= 0.0
      modifies this`skillCd
      ensures skillCd == Cooldown(old(skillCd), dt)
    {
      if skillCd > 0.0 {
        skillCd := Max(0.0, skillCd - dt);
      }
    }

    /** The player runs `dt` seconds: x, distance and score all advance. */
    method Run(dt: real)
      requires dt >= 0.0
      modifies this`playerX, this`distance, this`score
      ensures playerX == old(playerX) + BaseSpeed * dt
      ensures distance == old(distance) + DistanceGain(dt)
      ensures score == old(score) + RunScore(dt)
      ensures Snap() == Ran(old(Snap()), dt)
    {
      var dx := BaseSpeed * dt;
      playerX := playerX + dx;
      distance := distance + dx * 0.6;
      score := score + dx * 0.05;
    }

    /** Both spawn timers advance; a timer that has run past its cadence
        spawns one sprite and restarts. */
    method SpawnOnCadence(dt: real, obstacleOffset: int, coinOffset: int, coinY: int)
      requires playerX >= 0.0
      requires 600 <= obstacleOffset <= 3000 && 500 <= coinOffset <= 2600 && 240 <= coinY <= 320
      modifies this`obstacleTimer, this`coinTimer, this`obstacles, this`coins
      ensures old(obstacleTimer) + dt > ObstacleCadence(distance) ==>
                obstacleTimer == 0.0 && obstacles == old(obstacles) + [ObstacleSpawnX(playerX, obstacleOffset)]
      ensures old(obstacleTimer) + dt <= ObstacleCadence(distance) ==>
                obstacleTimer == old(obstacleTimer) + dt && obstacles == old(obstacles)
      ensures old(coinTimer) + dt > CoinCadence(distance) ==>
                coinTimer == 0.0 && coins == old(coins) + [Coin(CoinSpawnX(playerX, coinOffset), coinY as real)]
      ensures old(coinTimer) + dt <= CoinCadence(distance) ==>
                coinTimer == old(coinTimer) + dt && coins == old(coins)
      ensures Snap() == Spawned(old(Snap()), dt, obstacleOffset, coinOffset, coinY)
    {
      ObstacleOnCadence(dt, obstacleOffset);
      CoinOnCadence(dt, coinOffset, coinY);
    }

    /** The obstacle half of `SpawnOnCadence`. */
    method ObstacleOnCadence(dt: real, offset: int)
      requires playerX >= 0.0 && 600 <= offset <= 3000
      modifies this`obstacleTimer, this`obstacles
      ensures old(obstacleTimer) + dt > ObstacleCadence(distance) ==>
                obstacleTimer == 0.0 && obstacles == old(obstacles) + [ObstacleSpawnX(playerX, offset)]
      ensures old(obstacleTimer) + dt <= ObstacleCadence(distance) ==>
                obstacleTimer == old(obstacleTimer) + dt && obstacles == old(obstacles)
    {
      obstacleTimer := obstacleTimer + dt;
      if obstacleTimer > ObstacleCadence(distance) {
        SpawnObstacle(offset);
        obstacleTimer := 0.0;
      }
    }

    /** The coin half of `SpawnOnCadence`. */
    method CoinOnCadence(dt: real, offset: int, y: int)
      requires playerX >= 0.0 && 500 <= offset <= 2600 && 240 <= y <= 320
      modifies this`coinTimer, this`coins
      ensures old(coinTimer) + dt > CoinCadence(distance) ==>
                coinTimer == 0.0 && coins == old(coins) + [Coin(CoinSpawnX(playerX, offset), y as real)]
      ensures old(coinTimer) + dt <= CoinCadence(distance) ==>
                coinTimer == old(coinTimer) + dt && coins == old(coins)
    {
      coinTimer := coinTimer + dt;
      if coinTimer > CoinCadence(distance) {
        SpawnCoin(offset, y);
        coinTimer := 0.0;
      }
    }

    /** Removes every obstacle and coin more than 900 behind the player,
        keeping the others in order. */
    method ReapTrailing()
      modifies this`obstacles, this`coins
      ensures obstacles == Filter(old(obstacles), WindowTest(playerX))
      ensures coins == Filter(old(coins), CoinWindowTest(playerX))
      ensures forall x :: x in obstacles ==> InWindow(x, playerX)
      ensures forall c :: c in coins ==> InWindow(c.x, playerX)
      ensures Snap() == Reaped(old(Snap()))
    {
      ReapObstacles();
      ReapCoins();
    }

    /** The obstacle half of `ReapTrailing`. */
    method ReapObstacles()
      modifies this`obstacles
      ensures obstacles == Filter(old(obstacles), WindowTest(playerX))
      ensures forall x :: x in obstacles ==> InWindow(x, playerX)
    {
      var keepObstacle := WindowTest(playerX);
      var standing: seq<real> := [];
      for i := 0 to |obstacles|
        invariant standing == Filter(obstacles[..i], keepObstacle)
      {
        assert obstacles[..i + 1][..i] == obstacles[..i];
        if !(obstacles[i] < playerX - TrailingWindow) {
          standing := standing + [obstacles[i]];
        }
      }
      assert obstacles[..|obstacles|] == obstacles;
      FilterMembers(obstacles, keepObstacle);
      obstacles := standing;
    }

    /** The coin half of `ReapTrailing`. */
    method ReapCoins()
      modifies this`coins
      ensures coins == Filter(old(coins), CoinWindowTest(playerX))
      ensures forall c :: c in coins ==> InWindow(c.x, playerX)
    {
      var keepCoin := CoinWindowTest(playerX);
      var left: seq<Coin> := [];
      for i := 0 to |coins|
        invariant left == Filter(coins[..i], keepCoin)
      {
        assert coins[..i + 1][..i] == coins[..i];
        if !(coins[i].x < playerX - TrailingWindow) {
          left := left + [coins[i]];
        }
      }
      assert coins[..|coins|] == coins;
      FilterMembers(coins, keepCoin);
      coins := left;
    }

    /** Every coin the player touches is removed and is worth 25. */
    method CollectCoins(touches: Coin -> bool)
      modifies this`coins, this`score
      ensures coins == Filter(old(coins), Missed(touches))
      ensures score == old(score) + CoinReward * |Filter(old(coins), touches)| as real
      ensures forall c :: c in coins ==> c in old(coins) && !touches(c)
      ensures Snap() == Collected(old(Snap()), touches)
    {
      var untouched := Missed(touches);
      var left: seq<Coin> := [];
      var collected: nat := 0;
      for i := 0 to |coins|
        modifies this`score
        invariant left == Filter(coins[..i], untouched)
        invariant collected == |Filter(coins[..i], touches)|
        invariant score == old(score) + CoinReward * collected as real
      {
        assert coins[..i + 1][..i] == coins[..i];
        if touches(coins[i]) {
          score := score + 25.0;
          collected := collected + 1;
        } else {
          left := left + [coins[i]];
        }
      }
      assert coins[..|coins|] == coins;
      FilterMembers(coins, untouched);
      coins := left;
    }

    /** Every obstacle the player runs into is removed; each impact costs
        40 points (never below zero) and knocks the player 140 back (never
        left of x = 200). */
    method HitObstacles(touches: real -> bool)
      requires score >= 0.0 && playerX >= PlayerStartX
      modifies this`obstacles, this`score, this`playerX
      ensures obstacles == Filter(old(obstacles), Missed(touches))
      ensures forall x :: x in obstacles ==> x in old(obstacles) && !touches(x)
      ensures score == ScoreAfterImpacts(old(score), |Filter(old(obstacles), touches)|)
      ensures playerX == KnockedBack(old(playerX), |Filter(old(obstacles), touches)|)
      ensures Snap() == Struck(old(Snap()), touches)
    {
      ghost var s0 := Snap();
      var untouched := Missed(touches);
      var all := obstacles;
      var standing: seq<real> := [];
      var impacts: nat := 0;
      for i := 0 to |all|
        modifies this`score, this`playerX
        invariant standing == Filter(all[..i], untouched)
        invariant impacts == |Filter(all[..i], touches)|
        invariant score == ScoreAfterImpacts(old(score), impacts)
        invariant playerX == KnockedBack(old(playerX), impacts)
      {
        FilterStep(all, i, untouched);
        FilterStep(all, i, touches);
        if touches(all[i]) {
          ImpactsCompose(old(score), old(playerX), impacts);
          score := Max(0.0, score - 40.0);
          playerX := Max(200.0, playerX - 140.0);
          impacts := impacts + 1;
        } else {
          standing := standing + [all[i]];
        }
      }
      assert all[..|all|] == all;
      FilterMembers(all, untouched);
      obstacles := standing;
      assert Snap() == s0.(obstacles := obstacles, score := score, playerX := playerX);
    }

    /** With no boss about and the threshold reached, a boss appears and the
        next threshold is scheduled further out. */
    method BossArrival()
      requires WellFormed() && distance >= 0.0
      modifies this`boss, this`projectiles, this`nextBossAt
      ensures WellFormed()
      ensures old(boss) == null && distance >= old(nextBossAt) ==>
                && boss != null && fresh(boss) && fresh(boss.anim)
                && boss.maxHealth == BossMaxHealth(distance) && boss.health == boss.maxHealth
                && boss.centerX == playerX + 900.0 && boss.centerY == 220.0
                && boss.shootTimer == 0.0 && boss.phase == 1
                && projectiles == []
                && nextBossAt == NextBossAt(old(nextBossAt), distance)
      ensures !(old(boss) == null && distance >= old(nextBossAt)) ==>
                boss == old(boss) && projectiles == old(projectiles) && nextBossAt == old(nextBossAt)
      ensures Snap() == AfterArrival(old(Snap()))
    {
      if boss == null && distance >= nextBossAt {
        SpawnBoss();
        nextBossAt := nextBossAt + 2000.0 * (1.0 + distance / 8000.0);
      }
    }

    /** Every projectile moves one step; those that leave the world box
        are removed. */
    method UpdateProjectiles()
      modifies this`projectiles
      ensures projectiles == Advanced(old(projectiles))
      ensures forall p :: p in projectiles ==> InBounds(p)
    {
      var flying: seq<Projectile> := [];
      for i := 0 to |projectiles|
        invariant flying == Filter(MovedAll(projectiles[..i]), InBounds)
      {
        assert projectiles[..i + 1][..i] == projectiles[..i];
        var moved := MovedAll(projectiles[..i + 1]);
        assert moved[..i] == MovedAll(projectiles[..i]);
        var p := Moved(projectiles[i]);
        if InBounds(p) {
          flying := flying + [p];
        }
      }
      assert projectiles[..|projectiles|] == projectiles;
      FilterMembers(MovedAll(projectiles), InBounds);
      projectiles := flying;
    }

    /** Every projectile touching the player is removed and hurts: the k-th
        hit takes `hitDamage[k]` and shows a damage number; a hit that
        leaves the player at or below zero sets health to zero and ends the
        game (again, if it already ended in this frame). */
    method ResolveProjectileHits(touches: Projectile -> bool, hitDamage: seq<int>)
      requires |hitDamage| >= |projectiles|
      modifies this`projectiles, this`playerHealth, this`popups, this`gameOver, this`signals
      ensures var hits := hitDamage[..|Filter(old(projectiles), touches)|];
              && projectiles == Filter(old(projectiles), Missed(touches))
              && playerHealth == HealthAfterHits(old(playerHealth), hits)
              && popups == old(popups) + HitPopups(playerX, playerY, hits)
              && gameOver == (old(gameOver) || Defeats(old(playerHealth), hits) > 0)
              && signals == old(signals) + Repeat(ScoreSaved(Truncate(score)), Defeats(old(playerHealth), hits))
      ensures forall p :: p in projectiles ==> p in old(projectiles)
      ensures Snap() == AfterHits(old(Snap()), hitDamage, touches)
    {
      ghost var start := HitLog(playerHealth, popups, gameOver, signals);
      ghost var lost := ScoreSaved(Truncate(score));
      ghost var shots := projectiles;
      HitEach(touches, hitDamage);
      FilterMembers(shots, Missed(touches));
      HitsParts(start, playerX, playerY, lost, hitDamage, |Filter(shots, touches)|);
    }

    /** The loop of `ResolveProjectileHits`, stated as one fold of `Hit`
        over the damage draws of the touching projectiles. */
    method HitEach(touches: Projectile -> bool, hitDamage: seq<int>)
      requires |hitDamage| >= |projectiles|
      modifies this`projectiles, this`playerHealth, this`popups, this`gameOver, this`signals
      ensures projectiles == Filter(old(projectiles), Missed(touches))
      ensures |Filter(old(projectiles), touches)| <= |hitDamage|
      ensures HitLog(playerHealth, popups, gameOver, signals)
              == Hits(HitLog(old(playerHealth), old(popups), old(gameOver), old(signals)),
                      playerX, playerY, ScoreSaved(Truncate(score)),
                      hitDamage, |Filter(old(projectiles), touches)|)
    {
      var untouched := Missed(touches);
      var all := projectiles;
      ghost var lost := ScoreSaved(Truncate(score));
      ghost var start := HitLog(playerHealth, popups, gameOver, signals);
      ghost var log := start;
      var flying: seq<Projectile> := [];
      var k: nat := 0;
      for i := 0 to |all|
        modifies this`playerHealth, this`popups, this`gameOver, this`signals
        invariant flying == Filter(all[..i], untouched)
        invariant k == |Filter(all[..i], touches)| && k <= i
        invariant log == Hits(start, playerX, playerY, lost, hitDamage, k)
        invariant HitLog(playerHealth, popups, gameOver, signals) == log
      {
        FilterStep(all, i, untouched);
        FilterStep(all, i, touches);
        if touches(all[i]) {
          TakeHit(hitDamage[k]);
          log := Hit(log, playerX, playerY, lost, hitDamage[k]);
          k := k + 1;
        } else {
          flying := flying + [all[i]];
        }
      }
      assert all[..|all|] == all;
      projectiles := flying;
    }

    /** One projectile hit for `dmg`: a damage number over the player, and
        health clamped at zero with the game lost when it drops that far. */
    method TakeHit(dmg: int)
      modifies this`playerHealth, this`popups, this`gameOver, this`signals
      ensures HitLog(playerHealth, popups, gameOver, signals)
              == Hit(HitLog(old(playerHealth), old(popups), old(gameOver), old(signals)),
                     playerX, playerY, ScoreSaved(Truncate(score)), dmg)
    {
      playerHealth := playerHealth - dmg;
      popups := popups + [Popup(playerX, playerY + 80.0, dmg, 1.0)];
      if playerHealth <= 0 {
        playerHealth := 0;
        LoseGame();
      }
    }

    /** The boss body touches the player: both are hurt at once (the player
        by 18 plus one per 1000 distance, not clamped; the boss by 40), and
        either side at or below zero is beaten, the player checked first. */
    method BossContact()
      requires WellFormed() && boss != null && distance >= 0.0
      modifies this`playerHealth, this`popups, this`gameOver, this`signals, this`score, this`boss, boss`health
      ensures WellFormed()
      ensures old(boss).health == old(boss.health) - BossContactDamage
      ensures playerHealth == old(playerHealth) - ContactDamage(distance)
      ensures popups == old(popups) + [Popup(playerX, playerY + 80.0, ContactDamage(distance), 1.0)]
      ensures gameOver == (old(gameOver) || playerHealth <= 0)
      ensures var lost := if playerHealth <= 0 then [ScoreSaved(Truncate(old(score)))] else [];
              var won := if old(boss).health <= 0 then [Explosion(old(boss.centerX), old(boss.centerY))] else [];
              signals == old(signals) + lost + won
      ensures old(boss).health <= 0 ==> boss == null && score == old(score) + BossReward
      ensures old(boss).health > 0 ==> boss == old(boss) && score == old(score)
    {
      var dmg := 18 + (distance / 1000.0).Floor;
      playerHealth := playerHealth - dmg;
      boss.health := boss.health - 40;
      popups := popups + [Popup(playerX, playerY + 80.0, dmg, 1.0)];
      if playerHealth <= 0 {
        LoseGame();
      }
      if boss.health <= 0 {
        WinBoss();
      }
    }

    /** The boss acts (which may fire a volley) and every projectile
        moves, those leaving the world box disappearing. */
    method BossVolley(dt: real, spread: real)
      requires WellFormed() && boss != null
      requires 0.8 <= spread <= 2.0
      modifies this`projectiles, boss`shootTimer, boss`phase, boss`centerX
      ensures WellFormed()
      ensures Snap() == AfterShots(old(Snap()), dt, spread)
      ensures |projectiles| <= |old(projectiles)| + 2
      ensures forall p :: p in projectiles ==> InBounds(p)
    {
      ghost var s0 := Snap();
      var b := boss;
      var fired := b.UpdateBehavior(dt, playerX, projectiles, spread);
      assert old(projectiles) + [] == old(projectiles);
      projectiles := fired;
      UpdateProjectiles();
      assert Snap() == s0.(boss := Some(b.State()), projectiles := projectiles);
    }

    /** The boss shoots and its shots fly: its behaviour (which may fire a
        volley), projectile motion, and the hits on the player. */
    method BossShoots(dt: real, spread: real, hitDamage: seq<int>, touches: Projectile -> bool)
      requires WellFormed() && boss != null
      requires 0.8 <= spread <= 2.0
      requires |hitDamage| >= |projectiles| + 2
      requires forall k :: 0 <= k < |hitDamage| ==> hitDamage[k] >= 0
      requires !gameOver && playerHealth > 0
      requires forall q :: q in popups ==> Alive(q)
      modifies this`projectiles, this`playerHealth, this`popups, this`gameOver, this`signals,
               boss`shootTimer, boss`phase, boss`centerX
      ensures WellFormed()
      ensures Snap() == AfterHits(AfterShots(old(Snap()), dt, spread), hitDamage, touches)
      ensures 0 <= playerHealth <= old(playerHealth)
      ensures gameOver <==> playerHealth <= 0
      ensures forall p :: p in projectiles ==> InBounds(p)
      ensures forall q :: q in popups ==> Alive(q)
    {
      ghost var s0 := Snap();
      BossVolley(dt, spread);
      ghost var s1 := Snap();
      ResolveProjectileHits(touches, hitDamage);
      HitsKeepGame(s1, hitDamage, touches);
    }

    /** The boss's part of a frame: it shoots, its body may touch the
        player, and a boss at or below zero health is removed at the end. */
    method BossFight(dt: real, spread: real, hitDamage: seq<int>, contacts: Contacts)
      requires WellFormed() && boss != null && distance >= 0.0
      requires 0.8 <= spread <= 2.0
      requires |hitDamage| >= |projectiles| + 2
      requires forall k :: 0 <= k < |hitDamage| ==> hitDamage[k] >= 0
      requires !gameOver && playerHealth > 0
      requires forall q :: q in popups ==> Alive(q)
      modifies this`projectiles, this`playerHealth, this`popups, this`gameOver, this`signals,
               this`score, this`boss, boss`health, boss`shootTimer, boss`phase, boss`centerX
      ensures WellFormed()
      ensures Snap() == AfterFight(old(Snap()), dt, spread, hitDamage, contacts)
      ensures boss == null || (boss == old(boss) && boss.health > 0 && boss.maxHealth == old(boss.maxHealth))
      ensures playerHealth <= old(playerHealth)
      ensures gameOver <==> playerHealth <= 0
      ensures forall p :: p in projectiles ==> InBounds(p)
      ensures forall q :: q in popups ==> Alive(q)
    {
      BossShoots(dt, spread, hitDamage, contacts.projectile);
      BossTouch(contacts.boss);
    }

    /** The boss body may touch the player; then a boss at or below zero
        health is beaten. */
    method BossTouch(touching: bool)
      requires WellFormed() && boss != null && distance >= 0.0
      modifies this`playerHealth, this`popups, this`gameOver, this`signals, this`score, this`boss, boss`health
      ensures WellFormed()
      ensures Snap() == AfterContact(old(Snap()), touching)
      ensures boss == null || (boss == old(boss) && boss.health > 0)
      ensures playerHealth <= old(playerHealth)
      ensures gameOver == (old(gameOver) || (touching && playerHealth <= 0))
      ensures !touching ==> playerHealth == old(playerHealth)
      ensures (forall q :: q in old(popups) ==> Alive(q)) ==> forall q :: q in popups ==> Alive(q)
    {
      if touching {
        BossContact();
      }
      if boss != null && boss.health <= 0 {
        WinBoss();
      }
    }

    /** The first part of a frame: animations and the skill cooldown. */
    method Refresh(dt: real)
      requires Valid() && dt >= 0.0
      modifies playerAnim, if boss != null then {boss.anim} else {}, this`skillCd
      ensures Valid()
      ensures skillCd == Cooldown(old(skillCd), dt)
      ensures Snap() == old(Snap()).(skillCd := Cooldown(old(skillCd), dt))
      ensures playerAnim.State() == Stepped(old(playerAnim.State()), dt, playerAnim.frames, playerAnim.frameTime)
      ensures boss != null ==>
                boss.anim.State() == Stepped(old(boss.anim.State()), dt, boss.anim.frames, boss.anim.frameTime)
    {
      AnimateSprites(dt);
      DecayCooldown(dt);
    }

    /** The running part of a frame: the player runs, sprites spawn on
        cadence ahead, and what trails too far behind is reaped. */
    method RunAhead(dt: real, draws: Draws)
      requires Valid() && dt >= 0.0 && DrawsInRange(draws)
      modifies this`playerX, this`distance, this`score,
               this`obstacleTimer, this`coinTimer, this`obstacles, this`coins
      ensures Valid()
      ensures Snap() == AfterRun(old(Snap()), dt, draws)
    {
      Run(dt);
      SpawnOnCadence(dt, draws.obstacleOffset, draws.coinOffset, draws.coinY);
      ReapTrailing();
    }

    /** The collision part of a frame: coins collected, then obstacles hit. */
    method Collide(contacts: Contacts)
      requires Valid() && !gameOver
      modifies this`coins, this`obstacles, this`score, this`playerX
      ensures Valid()
      ensures Snap() == AfterCollisions(old(Snap()), contacts)
      ensures forall c :: c in coins ==> !contacts.coin(c)
      ensures forall x :: x in obstacles ==> !contacts.obstacle(x)
    {
      CollectCoins(contacts.coin);
      HitObstacles(contacts.obstacle);
    }

    /** The boss part of a frame: a boss arrives at its distance, then an
        active boss fights. */
    method BossStage(dt: real, draws: Draws, contacts: Contacts)
      requires Valid() && !gameOver && DrawsInRange(draws)
      requires |draws.hitDamage| >= |projectiles| + 2
      modifies this`boss, this`projectiles, this`nextBossAt, this`playerHealth, this`popups,
               this`gameOver, this`signals, this`score, BossSet()
      ensures Valid()
      ensures Snap() == AfterBoss(old(Snap()), dt, draws, contacts)
    {
      BossArrival();
      if boss != null {
        BossFight(dt, draws.spread, draws.hitDamage, contacts);
      }
    }

    /** Damage numbers age by `dt`; those whose time ran out are dropped. */
    method DecayPopups(dt: real)
      modifies this`popups
      ensures popups == Decayed(old(popups), dt)
      ensures forall q :: q in popups ==> Alive(q)
      ensures Snap() == old(Snap()).(popups := Decayed(old(popups), dt))
    {
      DecayedPopups(popups, dt);
      popups := Decayed(popups, dt);
    }

    /** The second half of a frame: coins, obstacles, the boss, and the
        decay of damage numbers. */
    method Encounters(dt: real, draws: Draws, contacts: Contacts)
      requires Valid() && !gameOver
      requires DrawsInRange(draws) && |draws.hitDamage| >= |projectiles| + 2
      modifies this`coins, this`obstacles, this`score, this`playerX,
               this`boss, this`projectiles, this`nextBossAt, this`playerHealth, this`popups,
               this`gameOver, this`signals, BossSet()
      ensures Valid()
      ensures Snap() == AfterEncounters(old(Snap()), dt, draws, contacts)
    {
      ghost var s0 := Snap();
      Collide(contacts);
      ghost var s1 := Snap();
      BossStage(dt, draws, contacts);
      ghost var s2 := Snap();
      DecayPopups(dt);
      assert Snap() == s2.(popups := Decayed(s2.popups, dt));
    }

    /** A frame of a game in progress: in order, animations, cooldown,
        running, spawning, reaping, coins, obstacles, boss arrival, the boss
        fight, and the decay of damage numbers. */
    method Frame(dt: real, draws: Draws, contacts: Contacts)
      requires Valid() && !gameOver && dt >= 0.0
      requires DrawsInRange(draws) && |draws.hitDamage| >= |projectiles| + 2
      modifies this, playerAnim, BossParts()
      ensures Valid()
      ensures Snap() == AfterFrame(old(Snap()), dt, draws, contacts)
      ensures playerAnim.State() == Stepped(old(playerAnim.State()), dt, playerAnim.frames, playerAnim.frameTime)
      ensures old(boss) != null ==>
                old(boss).anim.State() == Stepped(old(boss.anim.State()), dt, old(boss).anim.frames, old(boss).anim.frameTime)
      ensures playerY == old(playerY)
      ensures playerHealth <= old(playerHealth)
      ensures distance == old(distance) + DistanceGain(dt)
      ensures skillCd == Cooldown(old(skillCd), dt)
      ensures obstacleTimer == 0.0 || obstacleTimer == old(obstacleTimer) + dt
      ensures coinTimer == 0.0 || coinTimer == old(coinTimer) + dt
      ensures nextBossAt == old(nextBossAt) ||
                (old(boss) == null && distance >= old(nextBossAt) &&
                 nextBossAt == NextBossAt(old(nextBossAt), distance))
      ensures forall c :: c in coins ==> !contacts.coin(c)
      ensures forall x :: x in obstacles ==> !contacts.obstacle(x)
    {
      ghost var s0 := Snap();
      Refresh(dt);
      ghost var s1 := Snap();
      RunAhead(dt, draws);
      ghost var s2 := Snap();
      Encounters(dt, draws, contacts);
      assert Snap() == AfterEncounters(s2, dt, draws, contacts);
      FrameFacts(s0, dt, draws, contacts);
    }

    /** One frame of `dt` seconds. After the game is over nothing changes
        (only particle effects, which are not modelled, still play). */
    method Tick(dt: real, draws: Draws, contacts: Contacts)
      requires Valid() && dt >= 0.0
      requires DrawsInRange(draws) && |draws.hitDamage| >= |projectiles| + 2
      modifies this, playerAnim, BossParts()
      ensures Valid()
      ensures old(gameOver) ==> unchanged(this) && unchanged(playerAnim) && unchanged(old(BossParts()))
      ensures Snap() == if old(gameOver) then old(Snap()) else AfterFrame(old(Snap()), dt, draws, contacts)
      ensures !old(gameOver) ==>
                playerAnim.State() == Stepped(old(playerAnim.State()), dt, playerAnim.frames, playerAnim.frameTime)
      ensures !old(gameOver) && old(boss) != null ==>
                old(boss).anim.State() == Stepped(old(boss.anim.State()), dt, old(boss).anim.frames, old(boss).anim.frameTime)
      ensures playerY == old(playerY)
      ensures playerHealth <= old(playerHealth)
      ensures !old(gameOver) ==> distance == old(distance) + DistanceGain(dt)
      ensures !old(gameOver) ==> skillCd == Cooldown(old(skillCd), dt)
      ensures !old(gameOver) ==> obstacleTimer == 0.0 || obstacleTimer == old(obstacleTimer) + dt
      ensures !old(gameOver) ==> coinTimer == 0.0 || coinTimer == old(coinTimer) + dt
      ensures nextBossAt == old(nextBossAt) ||
                (old(boss) == null && distance >= old(nextBossAt) &&
                 nextBossAt == NextBossAt(old(nextBossAt), distance))
      ensures !old(gameOver) ==> forall c :: c in coins ==> !contacts.coin(c)
      ensures !old(gameOver) ==> forall x :: x in obstacles ==> !contacts.obstacle(x)
    {
      if !gameOver {
        Frame(dt, draws, contacts);
      }
    }

    // ------------------------------------------------------------------
    // Key presses during a game; once it is over they do nothing

    /** A blow of `dmg` to the boss from a key press: a damage number that
        lasts `ttl` seconds over the boss, and the boss beaten at or below
        zero health. */
    method StrikeBoss(dmg: int, ttl: real)
      requires Valid() && boss != null && ttl > 0.0
      modifies this`boss, this`score, this`signals, this`popups, boss`health
      ensures Valid()
      ensures old(boss).health == old(boss.health) - dmg
      ensures popups == old(popups) + [Popup(old(boss.centerX), old(boss.centerY) + 100.0, dmg, ttl)]
      ensures old(boss.health) - dmg <= 0 ==>
                boss == null && score == old(score) + BossReward
                && signals == old(signals) + [Explosion(old(boss.centerX), old(boss.centerY))]
      ensures old(boss.health) - dmg > 0 ==>
                boss == old(boss) && score == old(score) && signals == old(signals)
    {
      boss.health := boss.health - dmg;
      popups := popups + [Popup(boss.centerX, boss.centerY + 100.0, dmg, ttl)];
      if boss.health <= 0 {
        WinBoss();
      }
    }

    /** SPACE: the player moves 90 up (the code never brings it down). */
    method Jump()
      requires Valid()
      modifies this`playerY
      ensures Valid()
      ensures playerY == if old(gameOver) then old(playerY) else old(playerY) + JumpHeight
    {
      if !gameOver {
        playerY := playerY + 90.0;
      }
    }

    /** Z: a punch for `dmg` (drawn from 8 to 16) lands on a boss whose centre
        is less than 140 away from the player's, shows a damage number over
        it, and beats it at or below zero health. */
    method Melee(dmg: int)
      requires Valid() && 8 <= dmg <= 16
      modifies this`boss, this`score, this`signals, this`popups, BossSet()`health
      ensures Valid()
      ensures var lands := !old(gameOver) && old(boss) != null && Abs(old(boss.centerX) - playerX) < MeleeRange;
              && (!lands ==> boss == old(boss) && score == old(score) && signals == old(signals)
                             && popups == old(popups) && (boss != null ==> boss.health == old(boss.health)))
              && (lands ==> old(boss).health == old(boss.health) - dmg
                            && popups == old(popups) + [Popup(old(boss.centerX), old(boss.centerY) + 100.0, dmg, 0.9)])
              && (lands && old(boss.health) - dmg <= 0 ==>
                    boss == null && score == old(score) + BossReward
                    && signals == old(signals) + [Explosion(old(boss.centerX), old(boss.centerY))])
              && (lands && old(boss.health) - dmg > 0 ==>
                    boss == old(boss) && score == old(score) && signals == old(signals))
    {
      if gameOver {
        return;
      }
      if boss != null && Abs(boss.centerX - playerX) < 140.0 {
        StrikeBoss(dmg, 0.9);
      }
    }

    /** X: when the cooldown has run out, the skill restarts it at 3 seconds
        and either hits the boss wherever it is for `SkillDamage(distance)`,
        or, with no boss, clears every obstacle less than 220 from the
        player, returning how many it cleared. */
    method Skill() returns (removed: nat)
      requires Valid()
      modifies this`skillCd, this`boss, this`score, this`signals, this`popups, this`obstacles,
               BossSet()`health
      ensures Valid()
      ensures var ready := !old(gameOver) && old(skillCd) <= 0.0;
              && (!ready ==> skillCd == old(skillCd) && boss == old(boss) && score == old(score)
                             && signals == old(signals) && popups == old(popups) && obstacles == old(obstacles)
                             && removed == 0 && (boss != null ==> boss.health == old(boss.health)))
              && (ready ==> skillCd == SkillCooldown)
              && (ready && old(boss) == null ==>
                    && obstacles == Filter(old(obstacles), OutOfSkillReach(playerX))
                    && removed + |obstacles| == |old(obstacles)|
                    && boss == null && score == old(score) && signals == old(signals) && popups == old(popups))
              && (ready && old(boss) != null ==>
                    && obstacles == old(obstacles) && removed == 0
                    && old(boss).health == old(boss.health) - SkillDamage(distance)
                    && popups == old(popups) + [Popup(old(boss.centerX), old(boss.centerY) + 100.0,
                                                      SkillDamage(distance), 1.2)])
              && (ready && old(boss) != null && old(boss.health) - SkillDamage(distance) <= 0 ==>
                    boss == null && score == old(score) + BossReward
                    && signals == old(signals) + [Explosion(old(boss.centerX), old(boss.centerY))])
              && (ready && old(boss) != null && old(boss.health) - SkillDamage(distance) > 0 ==>
                    boss == old(boss) && score == old(score) && signals == old(signals))
    {
      removed := 0;
      if gameOver || skillCd > 0.0 {
        return;
      }
      skillCd := 3.0;
      var dmg := 40 + (distance / 1000.0).Floor;
      if boss != null {
        StrikeBoss(dmg, 1.2);
      } else {
        removed := ClearAround();
      }
    }

    /** The skill's area effect: removes every obstacle less than 220 from
        the player, keeping the rest in order, and counts the removed. */
    method ClearAround() returns (removed: nat)
      modifies this`obstacles
      ensures obstacles == Filter(old(obstacles), OutOfSkillReach(playerX))
      ensures forall x :: x in obstacles ==> x in old(obstacles)
      ensures removed + |obstacles| == |old(obstacles)|
    {
      var spared := OutOfSkillReach(playerX);
      var all := obstacles;
      var standing: seq<real> := [];
      removed := 0;
      for i := 0 to |all|
        invariant standing == Filter(all[..i], spared)
        invariant removed + |standing| == i
      {
        FilterStep(all, i, spared);
        if Abs(all[i] - playerX) < 220.0 {
          removed := removed + 1;
        } else {
          standing := standing + [all[i]];
        }
      }
      assert all[..|all|] == all;
      FilterMembers(all, spared);
      obstacles := standing;
    }
  }
}
