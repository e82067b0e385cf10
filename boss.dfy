/** The boss: a three-phase state machine driven by its remaining health
    ratio. Each phase fixes a shot interval, a shot speed and how fast the
    boss walks left (towards smaller x, whichever side the player is on); a
    volley is one aimed projectile, or two in the last phase. */
module Bosses {
  import opened Rules
  import opened Sprites

  /** The height the boss aims its shots at. */
  const AimY: real := 200.0

  /** Remaining health as a fraction of the maximum (the divisor is at
      least 1). */
  function Ratio(health: int, maxHealth: int): (r: real)
    ensures health == 0 ==> r == 0.0
    ensures health > 0 ==> r > 0.0
    ensures health < 0 ==> r < 0.0
  {
    health as real / (if maxHealth >= 1 then maxHealth else 1) as real
  }

  /** The phase the boss is in: 1 above two thirds of its health, 2 above
      one third, 3 at or below one third. */
  function Phase(health: int, maxHealth: int): (p: int)
    ensures 1 <= p <= 3
    ensures p == 1 <==> Ratio(health, maxHealth) > 0.66
    ensures p == 3 <==> Ratio(health, maxHealth) <= 0.33
  {
    var ratio := Ratio(health, maxHealth);
    if ratio > 0.66 then 1 else if ratio > 0.33 then 2 else 3
  }

  /** Losing health never moves the boss back to an earlier phase. */
  lemma {:induction false} PhaseNeverReverts(h1: int, h2: int, maxHealth: int)
    requires h1 <= h2
    ensures Phase(h1, maxHealth) >= Phase(h2, maxHealth)
  {
    var m := (if maxHealth >= 1 then maxHealth else 1) as real;
    assert h1 as real / m <= h2 as real / m by {
      assert h1 as real / m * m == h1 as real && h2 as real / m * m == h2 as real;
    }
  }

  /** The phase for a boss at exactly a given fraction of any maximum. */
  lemma PhaseAtRatios(maxHealth: int, health: int)
    requires maxHealth >= 1
    ensures 100 * health == 67 * maxHealth ==> Phase(health, maxHealth) == 1
    ensures 2 * health == maxHealth ==> Phase(health, maxHealth) == 2
    ensures 5 * health == maxHealth ==> Phase(health, maxHealth) == 3
  {
    var m := maxHealth as real;
    var h := health as real;
    if 100 * health == 67 * maxHealth {
      assert h == 0.67 * m;
      assert h / m == 0.67;
    }
    if 2 * health == maxHealth {
      assert h == 0.5 * m;
      assert h / m == 0.5;
    }
    if 5 * health == maxHealth {
      assert h == 0.2 * m;
      assert h / m == 0.2;
    }
  }

  /** Seconds between volleys in each phase. */
  function ShotInterval(phase: int): (t: real)
    ensures t > 0.0
  {
    if phase == 1 then 1.2 else if phase == 2 then 0.9 else 0.5
  }

  /** The speed factor of each phase's shots. */
  function ShotSpeed(phase: int): (s: real)
    ensures 5.0 <= s <= 7.0
  {
    if phase == 1 then 5.0 else if phase == 2 then 6.0 else 7.0
  }

  /** How far the boss walks left per tick in each phase: not at all in
      phase 1, and never to the right. */
  function Advance(phase: int): (a: real)
    ensures 0.0 <= a <= 1.4
    ensures a == 0.0 <==> phase == 1
  {
    if phase == 1 then 0.0 else if phase == 2 then 0.8 else 1.4
  }

  /** The phase rules get faster and more aggressive phase by phase. */
  lemma LaterPhasesAreFaster(p: int, q: int)
    requires 1 <= p < q <= 3
    ensures ShotInterval(q) < ShotInterval(p)
    ensures ShotSpeed(q) > ShotSpeed(p)
    ensures Advance(q) > Advance(p)
  {
  }

  /** The horizontal speed of an aimed shot, once the phase's bonus
      `1 + (3 - phase) * 0.2` is applied. */
  function HorizontalShotSpeed(phase: int): (s: real)
    requires 1 <= phase <= 3
    ensures s == 7.0 || s == 7.2
    ensures s == 7.2 <==> phase == 2
  {
    ShotSpeed(phase) * (1.0 + (3 - phase) as real * 0.2)
  }

  /** The projectile aimed from the boss at (`bossX`, `bossY`) towards the player
      at `playerX` and the fixed aim height; `spread` is the random factor of
      the vertical speed. */
  function Aimed(bossX: real, bossY: real, playerX: real, phase: int, spread: real): (p: Projectile)
    requires 1 <= phase <= 3
    ensures p.x == bossX - 30.0 && p.y == bossY
    ensures spread > 0.0 && bossY > AimY ==> p.vy < 0.0
    ensures spread > 0.0 && bossY < AimY ==> p.vy > 0.0
    ensures bossY == AimY ==> p.vy == 0.0
  {
    var dx := playerX - bossX;
    var dy := AimY - bossY;
    var dist := Max(Abs(dx), 1.0);
    Projectile(bossX - 30.0, bossY, dx / dist * HorizontalShotSpeed(phase), dy / dist * spread)
  }

  /** One volley: a shot aimed at the player from 30 left of the boss centre,
      and in phase 3 a second shot 50 higher that climbs 1.0 faster. */
  function Volley(bossX: real, bossY: real, playerX: real, phase: int, spread: real): (r: seq<Projectile>)
    requires 1 <= phase <= 3
    ensures |r| == if phase == 3 then 2 else 1
    ensures r[0].x == bossX - 30.0 && r[0].y == bossY
    ensures phase == 3 ==> r[1] == r[0].(y := bossY + 50.0, vy := r[0].vy + 1.0)
  {
    var p := Aimed(bossX, bossY, playerX, phase, spread);
    if phase == 3 then [p, p.(y := bossY + 50.0, vy := p.vy + 1.0)] else [p]
  }

  /** Shots head towards the player horizontally, at their phase's full
      horizontal speed once the player is at least one pixel away, and never
      faster. */
  lemma {:induction false} AimedAtPlayer(bossX: real, bossY: real, playerX: real, phase: int, spread: real)
    requires 1 <= phase <= 3
    ensures playerX < bossX ==> Aimed(bossX, bossY, playerX, phase, spread).vx < 0.0
    ensures playerX > bossX ==> Aimed(bossX, bossY, playerX, phase, spread).vx > 0.0
    ensures Abs(Aimed(bossX, bossY, playerX, phase, spread).vx) <= HorizontalShotSpeed(phase)
    ensures Abs(playerX - bossX) >= 1.0 ==>
              Abs(Aimed(bossX, bossY, playerX, phase, spread).vx) == HorizontalShotSpeed(phase)
  {
    var dx := playerX - bossX;
    var dist := Max(Abs(dx), 1.0);
    var s := HorizontalShotSpeed(phase);
    var u := dx / dist;
    assert u * dist == dx;
    assert -1.0 <= u <= 1.0;
    assert Abs(dx) >= 1.0 ==> Abs(u) == 1.0;
    assert dx < 0.0 ==> u < 0.0;
    assert dx > 0.0 ==> u > 0.0;
    assert Abs(u * s) <= s;
  }

  /** Projectile bounds are absolute world coordinates: once the boss stands
      beyond x = 10040, every shot it fires is out of bounds after its first
      move, so it is removed in the tick it was fired. */
  lemma FarVolleyVanishes(bossX: real, bossY: real, playerX: real, phase: int, spread: real)
    requires 1 <= phase <= 3
    requires bossX > 10040.0
    ensures Advanced(Volley(bossX, bossY, playerX, phase, spread)) == []
  {
    var v := Volley(bossX, bossY, playerX, phase, spread);
    AimedAtPlayer(bossX, bossY, playerX, phase, spread);
    assert forall i :: 0 <= i < |v| ==> !InBounds(Moved(v[i]));
    DeadOnArrival(v);
  }

  /** A list whose every projectile leaves the box on its next move is
      empty after the update. */
  lemma {:induction false} DeadOnArrival(ps: seq<Projectile>)
    requires forall i :: 0 <= i < |ps| ==> !InBounds(Moved(ps[i]))
    ensures Advanced(ps) == []
  {
    if ps != [] {
      var init := ps[..|ps| - 1];
      DeadOnArrival(init);
      assert MovedAll(ps)[..|ps| - 1] == MovedAll(init);
    }
  }

  /** The boss's fields as a value: what a frame reads and changes. */
  datatype BossState = BossState(health: int, maxHealth: int, shootTimer: real, phase: int,
                                 centerX: real, centerY: real)

  /** Whether a boss in state `b` fires this tick: its shot timer, advanced
      by `dt`, has reached the interval of the phase its health puts it in. */
  predicate Fires(b: BossState, dt: real)
  {
    b.shootTimer + dt >= ShotInterval(Phase(b.health, b.maxHealth))
  }

  /** A boss's state after one tick of behaviour: the phase its health
      puts it in, a step left by that phase's advance, and the shot timer
      advanced by `dt`, or restarted when the boss fires. */
  function Acted(b: BossState, dt: real): BossState
  {
    var phase := Phase(b.health, b.maxHealth);
    b.(phase := phase, centerX := b.centerX - Advance(phase),
       shootTimer := if Fires(b, dt) then 0.0 else b.shootTimer + dt)
  }

  /** The boss. Its animation is a separate frame counter; everything else
      the update and the fight change is a field here. */
  class Boss {
    var maxHealth: int
    var health: int
    var shootTimer: real
    var phase: int
    var centerX: real
    var centerY: real
    const anim: Animation

    ghost predicate Valid()
      reads this, anim
    {
      1 <= phase <= 3 && anim.Valid() && anim.frames == 6
    }

    /** The boss's fields, as a value. */
    function State(): BossState
      reads this
    {
      BossState(health, maxHealth, shootTimer, phase, centerX, centerY)
    }

    /** A boss as constructed, before the game places it and scales its
        health. */
    constructor ()
      ensures Valid() && fresh(anim)
      ensures maxHealth == 100 && health == 100 && shootTimer == 0.0 && phase == 1
      ensures centerX == 0.0 && centerY == 220.0
      ensures anim.currentFrame == 0 && anim.timer == 0.0
    {
      maxHealth := 100;
      health := 100;
      shootTimer := 0.0;
      phase := 1;
      centerX := 0.0;
      centerY := 220.0;
      anim := new Animation(6);
    }

    /** One tick of boss behaviour: advance the shot timer, recompute the
        phase from the health ratio, walk left in phases 2 and 3, and fire
        a volley when the phase's interval has passed. The volley is
        appended to `projectiles`, whose new value is returned. */
    method UpdateBehavior(dt: real, playerX: real, projectiles: seq<Projectile>, spread: real)
      returns (fired: seq<Projectile>)
      requires Valid()
      requires 0.8 <= spread <= 2.0
      modifies this`shootTimer, this`phase, this`centerX
      ensures Valid()
      ensures phase == Phase(health, maxHealth)
      ensures centerX == old(centerX) - Advance(phase)
      ensures old(shootTimer) + dt >= ShotInterval(phase) ==>
                shootTimer == 0.0 &&
                fired == projectiles + Volley(centerX, centerY, playerX, phase, spread)
      ensures old(shootTimer) + dt < ShotInterval(phase) ==>
                shootTimer == old(shootTimer) + dt && fired == projectiles
      ensures State() == Acted(old(State()), dt)
      ensures fired == projectiles + (if Fires(old(State()), dt) then Volley(centerX, centerY, playerX, phase, spread) else [])
    {
      shootTimer := shootTimer + dt;
      var ratio := Ratio(health, maxHealth);
      var interval: real;
      if ratio > 0.66 {
        phase := 1;
        interval := 1.2;
      } else if ratio > 0.33 {
        phase := 2;
        interval := 0.9;
        centerX := centerX - 0.8;
      } else {
        phase := 3;
        interval := 0.5;
        centerX := centerX - 1.4;
      }
      fired := projectiles;
      if shootTimer >= interval {
        shootTimer := 0.0;
        var p := Aimed(centerX, centerY, playerX, phase, spread);
        fired := fired + [p];
        if phase == 3 {
          fired := fired + [p.(y := centerY + 50.0, vy := p.vy + 1.0)];
        }
      }
    }
  }
}
