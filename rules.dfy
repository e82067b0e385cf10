/** The arithmetic of the runner's gameplay: constants, spawn cadences,
    the trailing window, penalties, damage formulas, the boss schedule, the
    clamping of projectile hits, and the decay of damage popups. Python's
    `int(x)` on the non-negative quantities used here is `Floor`. */
module Rules {
  import opened Lists

  const BaseSpeed: real := 180.0
  const DistanceForBoss: real := 2000.0
  const PlayerStartX: real := 200.0
  const PlayerStartY: real := 200.0
  const PlayerMaxHealth: int := 100
  const TrailingWindow: real := 900.0
  const CoinReward: real := 25.0
  const ObstaclePenalty: real := 40.0
  const KnockBack: real := 140.0
  const BossReward: real := 700.0
  const BossContactDamage: int := 40
  const SkillCooldown: real := 3.0
  const SkillRadius: real := 220.0
  const MeleeRange: real := 140.0
  const JumpHeight: real := 90.0

  function Max(a: real, b: real): real
  {
    if a >= b then a else b
  }

  function Abs(a: real): real
  {
    if a < 0.0 then -a else a
  }

  // ---------------------------------------------------------------------
  // Movement

  /** World distance covered in `dt` seconds: 0.6 of the pixels run. */
  function DistanceGain(dt: real): (g: real)
    requires dt >= 0.0
    ensures g >= 0.0
    ensures g == 0.6 * (BaseSpeed * dt)
  {
    108.0 * dt
  }

  /** Score earned by running for `dt` seconds: 0.05 per pixel run. */
  function RunScore(dt: real): (g: real)
    requires dt >= 0.0
    ensures g >= 0.0
    ensures g == 0.05 * (BaseSpeed * dt)
  {
    9.0 * dt
  }

  /** The skill cooldown after `dt` seconds: it decays only while positive
      and never goes below zero. */
  function Cooldown(cd: real, dt: real): (r: real)
    requires cd >= 0.0 && dt >= 0.0
    ensures 0.0 <= r <= cd
    ensures dt <= cd ==> r == cd - dt
    ensures dt >= cd ==> r == 0.0
  {
    if cd > 0.0 then Max(0.0, cd - dt) else cd
  }

  // ---------------------------------------------------------------------
  // Spawning

  /** Seconds between obstacle spawns: shrinks linearly with distance and
      reaches its floor of 0.6 at distance 14400. */
  function ObstacleCadence(distance: real): (c: real)
    ensures c >= 0.6
    ensures distance <= 14400.0 ==> c == 2.4 - distance / 8000.0
    ensures distance >= 14400.0 ==> c == 0.6
  {
    Max(0.6, 2.4 - distance / 8000.0)
  }

  /** Seconds between coin spawns: shrinks linearly with distance and
      reaches its floor of 0.8 at distance 13500. */
  function CoinCadence(distance: real): (c: real)
    ensures c >= 0.8
    ensures distance <= 13500.0 ==> c == 2.3 - distance / 9000.0
    ensures distance >= 13500.0 ==> c == 0.8
  {
    Max(0.8, 2.3 - distance / 9000.0)
  }

  /** Both cadences are non-increasing in distance: spawns never slow down. */
  lemma CadenceNonIncreasing(d1: real, d2: real)
    requires d1 <= d2
    ensures ObstacleCadence(d2) <= ObstacleCadence(d1)
    ensures CoinCadence(d2) <= CoinCadence(d1)
  {
  }

  /** Where a newly spawned obstacle lands: `offset` pixels ahead of the
      player, truncated to a whole pixel. */
  function ObstacleSpawnX(playerX: real, offset: int): (x: real)
    requires playerX >= 0.0 && 600 <= offset <= 3000
    ensures playerX + 599.0 < x <= playerX + 3000.0
  {
    (playerX + offset as real).Floor as real
  }

  /** Where a newly spawned coin lands horizontally (same truncation). */
  function CoinSpawnX(playerX: real, offset: int): (x: real)
    requires playerX >= 0.0 && 500 <= offset <= 2600
    ensures playerX + 499.0 < x <= playerX + 2600.0
  {
    (playerX + offset as real).Floor as real
  }

  // ---------------------------------------------------------------------
  // Reaping

  /** An entity at `x` is still in play while it is at most the trailing
      window behind the player. */
  predicate InWindow(x: real, playerX: real)
    ensures InWindow(x, playerX) <==> playerX - x <= TrailingWindow
    ensures x >= playerX ==> InWindow(x, playerX)
  {
    !(x < playerX - TrailingWindow)
  }

  // ---------------------------------------------------------------------
  // Obstacle impacts

  /** The score after `hits` obstacle impacts, each taking 40 off but never
      going below zero. */
  function ScoreAfterImpacts(score: real, hits: nat): (r: real)
    ensures r >= 0.0
    ensures r >= score - ObstaclePenalty * hits as real
    ensures r == 0.0 || r == score - ObstaclePenalty * hits as real
  {
    Max(0.0, score - ObstaclePenalty * hits as real)
  }

  /** The player's x after `hits` knock-backs, each 140 back but never left
      of the start column. */
  function KnockedBack(x: real, hits: nat): (r: real)
    ensures r >= PlayerStartX
    ensures r <= Max(PlayerStartX, x)
    ensures r == PlayerStartX || r == x - KnockBack * hits as real
  {
    Max(PlayerStartX, x - KnockBack * hits as real)
  }

  /** One more impact after `hits` impacts is the same as `hits + 1` impacts:
      the clamped penalties compose. */
  lemma ImpactsCompose(score: real, x: real, hits: nat)
    ensures Max(0.0, ScoreAfterImpacts(score, hits) - ObstaclePenalty)
            == ScoreAfterImpacts(score, hits + 1)
    ensures Max(PlayerStartX, KnockedBack(x, hits) - KnockBack)
            == KnockedBack(x, hits + 1)
  {
  }

  // ---------------------------------------------------------------------
  // Damage

  /** Damage the skill does to a boss: grows by one every 1000 distance. */
  function SkillDamage(distance: real): (d: int)
    requires distance >= 0.0
    ensures d >= 40
    ensures (d - 40) as real <= distance / 1000.0 < (d - 39) as real
  {
    40 + (distance / 1000.0).Floor
  }

  /** Damage a boss's body does to the player on contact. */
  function ContactDamage(distance: real): (d: int)
    requires distance >= 0.0
    ensures d >= 18
    ensures (d - 18) as real <= distance / 1000.0 < (d - 17) as real
  {
    18 + (distance / 1000.0).Floor
  }

  // ---------------------------------------------------------------------
  // The boss schedule

  /** A new boss's health: 80 plus 10 for every whole 500 of distance. */
  function BossMaxHealth(distance: real): (h: int)
    requires distance >= 0.0
    ensures h >= 80 && h % 10 == 0
    ensures ((h - 80) / 10) as real <= distance / 500.0 < ((h - 80) / 10 + 1) as real
  {
    80 + (distance / 500.0).Floor * 10
  }

  /** A boss met further along never has less health. */
  lemma {:induction false} BossMaxHealthGrows(d1: real, d2: real)
    requires 0.0 <= d1 <= d2
    ensures BossMaxHealth(d1) <= BossMaxHealth(d2)
  {
    var f1, f2 := (d1 / 500.0).Floor, (d2 / 500.0).Floor;
    assert f1 as real <= d1 / 500.0 <= d2 / 500.0 < (f2 + 1) as real;
  }

  /** The distance at which the next boss may appear, scheduled when a boss
      appears at `distance`: the gap is 2000 and grows with distance. */
  function NextBossAt(threshold: real, distance: real): (t: real)
    requires distance >= 0.0
    ensures t >= threshold + DistanceForBoss
    ensures t > threshold
    ensures t - threshold == DistanceForBoss + distance / 4.0
  {
    threshold + DistanceForBoss * (1.0 + distance / 8000.0)
  }

  // ---------------------------------------------------------------------
  // Projectile hits on the player

  /** The player's health after the projectile hits `ds`, in order: each
      hit subtracts its damage, and a hit that leaves health at or below
      zero sets it to exactly zero. */
  function HealthAfterHits(health: int, ds: seq<int>): (r: int)
    ensures ds != [] || health >= 0 ==> r >= 0
  {
    if ds == [] then health
    else
      var h := HealthAfterHits(health, ds[..|ds| - 1]) - ds[|ds| - 1];
      if h <= 0 then 0 else h
  }

  /** How many of the hits `ds` leave the player at or below zero health;
      each such hit ends the game again (the code does not stop at the
      first). */
  function Defeats(health: int, ds: seq<int>): (n: nat)
    ensures n <= |ds|
  {
    if ds == [] then 0
    else
      var before := ds[..|ds| - 1];
      Defeats(health, before)
      + (if HealthAfterHits(health, before) - ds[|ds| - 1] <= 0 then 1 else 0)
  }

  /** One more hit: the health and the defeat count after the first
      `k + 1` hits, from those after the first `k`. */
  lemma HitStep(health: int, ds: seq<int>, k: nat)
    requires k < |ds|
    ensures var h := HealthAfterHits(health, ds[..k]) - ds[k];
            && HealthAfterHits(health, ds[..k + 1]) == (if h <= 0 then 0 else h)
            && Defeats(health, ds[..k + 1]) == Defeats(health, ds[..k]) + (if h <= 0 then 1 else 0)
  {
    assert ds[..k + 1][..k] == ds[..k];
  }

  /** With non-negative damages, the clamped hits are one clamped
      subtraction of their total. */
  lemma {:induction false} HitsClampAtZero(health: int, ds: seq<int>)
    requires health >= 0
    requires forall k :: 0 <= k < |ds| ==> ds[k] >= 0
    ensures HealthAfterHits(health, ds) == if health - Sum(ds) > 0 then health - Sum(ds) else 0
  {
    if ds != [] {
      HitsClampAtZero(health, ds[..|ds| - 1]);
    }
  }

  /** The hits end the game exactly when their total reaches the player's
      health. */
  lemma {:induction false} DefeatedIffLethal(health: int, ds: seq<int>)
    requires health > 0
    requires forall k :: 0 <= k < |ds| ==> ds[k] >= 0
    ensures Defeats(health, ds) > 0 <==> Sum(ds) >= health
  {
    if ds != [] {
      var before := ds[..|ds| - 1];
      DefeatedIffLethal(health, before);
      HitsClampAtZero(health, before);
    }
  }

  /** Once the hits have brought the player to zero, every further hit
      of positive damage is lethal again: health stays at zero and each of
      those hits counts as one more defeat. */
  lemma {:induction false} DefeatsAfterLethal(health: int, ds: seq<int>, k: nat)
    requires k <= |ds|
    requires HealthAfterHits(health, ds[..k]) == 0
    requires forall j :: k <= j < |ds| ==> ds[j] > 0
    ensures HealthAfterHits(health, ds) == 0
    ensures Defeats(health, ds) == Defeats(health, ds[..k]) + (|ds| - k)
    decreases |ds| - k
  {
    if k == |ds| {
      assert ds[..k] == ds;
    } else {
      HitStep(health, ds, k);
      DefeatsAfterLethal(health, ds, k + 1);
    }
  }

  /** For example, ten health and two hits of 18 give two defeats. */
  lemma DefeatRepeats()
    ensures Defeats(10, [18, 18]) == 2
    ensures HealthAfterHits(10, [18, 18]) == 0
  {
    var ds := [18, 18];
    HitStep(10, ds, 0);
    assert ds[..0] == [];
    DefeatsAfterLethal(10, ds, 1);
  }

  // ---------------------------------------------------------------------
  // Damage popups

  /** A floating damage number: where it is drawn, the damage, and the
      seconds it has left. */
  datatype Popup = Popup(x: real, y: real, value: int, ttl: real)

  /** Every popup `dt` seconds older. */
  function Aged(ps: seq<Popup>, dt: real): (r: seq<Popup>)
    ensures |r| == |ps|
    ensures forall i :: 0 <= i < |ps| ==> r[i] == ps[i].(ttl := ps[i].ttl - dt)
  {
    if ps == [] then [] else Aged(ps[..|ps| - 1], dt) + [ps[|ps| - 1].(ttl := ps[|ps| - 1].ttl - dt)]
  }

  predicate Alive(p: Popup)
  {
    p.ttl > 0.0
  }

  /** The popups after `dt` seconds: aged, and those whose time ran out
      dropped. */
  function Decayed(ps: seq<Popup>, dt: real): (r: seq<Popup>)
    ensures |r| <= |ps|
  {
    Filter(Aged(ps, dt), Alive)
  }

  /** What the popup decay keeps: exactly the popups that had more than `dt`
      seconds left, each `dt` seconds older; nothing else. */
  lemma DecayedPopups(ps: seq<Popup>, dt: real)
    ensures |Decayed(ps, dt)| <= |ps|
    ensures forall q :: q in Decayed(ps, dt) ==> q.ttl > 0.0
    ensures forall p :: p in ps && p.ttl > dt ==> p.(ttl := p.ttl - dt) in Decayed(ps, dt)
    ensures forall q :: q in Decayed(ps, dt) ==> exists p :: p in ps && q == p.(ttl := p.ttl - dt)
  {
    var a := Aged(ps, dt);
    FilterMembers(a, Alive);
    forall p | p in ps && p.ttl > dt
      ensures p.(ttl := p.ttl - dt) in Decayed(ps, dt)
    {
      var i :| 0 <= i < |ps| && ps[i] == p;
      assert a[i] == p.(ttl := p.ttl - dt);
    }
    forall q | q in Decayed(ps, dt)
      ensures exists p :: p in ps && q == p.(ttl := p.ttl - dt)
    {
      var i :| 0 <= i < |a| && a[i] == q;
      assert ps[i] in ps;
    }
  }

  /** Popups with at most `dt` seconds left all disappear. */
  lemma {:induction false} DecayedExpire(ps: seq<Popup>, dt: real)
    requires forall i :: 0 <= i < |ps| ==> ps[i].ttl <= dt
    ensures Decayed(ps, dt) == []
  {
    if ps != [] {
      var init := ps[..|ps| - 1];
      DecayedExpire(init, dt);
      var a := Aged(ps, dt);
      assert a[..|a| - 1] == Aged(init, dt);
    }
  }
}
