/** The two sprite behaviours of the runner that carry state: the frame
    counter of a sprite-sheet animation and the straight-line motion of a
    boss projectile, with its removal once it leaves the world's box. */
module Sprites {
  import opened Lists

  /** Frame time of every animated sprite of the game (the default of the
      animated-sprite constructor, never overridden). */
  const DefaultFrameTime: real := 0.08

  /** An animation's position: the frame shown and the seconds accumulated
      towards the next one. */
  datatype Clock = Clock(frame: nat, timer: real)

  /** The position after `dt` more seconds: once a whole frame time has
      accumulated, the next frame (wrapping round after the last) with the
      timer restarted; otherwise the same frame and a later timer. */
  function Stepped(c: Clock, dt: real, frames: nat, frameTime: real): (r: Clock)
    requires frames > 0 && c.frame < frames && c.timer >= 0.0 && dt >= 0.0
    ensures r.frame < frames && r.timer >= 0.0
    ensures frameTime > 0.0 ==> r.timer < frameTime
    ensures r.frame != c.frame ==> r.timer == 0.0
    ensures r.timer > 0.0 ==> r.timer == c.timer + dt
  {
    if c.timer + dt >= frameTime then Clock((c.frame + 1) % frames, 0.0)
    else Clock(c.frame, c.timer + dt)
  }

  /** The position after `n` updates of `dt` seconds each. */
  function SteppedTimes(c: Clock, dt: real, frames: nat, frameTime: real, n: nat): (r: Clock)
    requires frames > 0 && c.frame < frames && c.timer >= 0.0 && dt >= 0.0
    ensures r.frame < frames && r.timer >= 0.0
  {
    if n == 0 then c else Stepped(SteppedTimes(c, dt, frames, frameTime, n - 1), dt, frames, frameTime)
  }

  /** Updates of at least a frame time each show one frame after another:
      after `n` of them the animation is `n` frames further on, so after
      `frames` of them it is back where it started. */
  lemma {:induction false} WholeFramesCycle(c: Clock, dt: real, frames: nat, frameTime: real, n: nat)
    requires frames > 0 && c.frame < frames && c.timer >= 0.0 && dt >= frameTime
    requires dt >= 0.0
    ensures SteppedTimes(c, dt, frames, frameTime, n).frame == (c.frame + n) % frames
  {
    if n > 0 {
      WholeFramesCycle(c, dt, frames, frameTime, n - 1);
      var prev := SteppedTimes(c, dt, frames, frameTime, n - 1);
      assert prev.timer + dt >= frameTime;
      ModSucc(c.frame + n - 1, frames);
    }
  }

  /** Counting one on from a remainder is counting one on and then taking
      the remainder. */
  lemma ModSucc(a: nat, m: nat)
    requires m > 0
    ensures (a % m + 1) % m == (a + 1) % m
  {
    var q, r := a / m, a % m;
    if r + 1 < m {
      ModUnique(a + 1, m, q, r + 1);
      ModUnique(r + 1, m, 0, r + 1);
    } else {
      ModUnique(a + 1, m, q + 1, 0);
      ModUnique(r + 1, m, 1, 0);
    }
  }

  /** A positive multiple of `m` is at least `m`. */
  lemma MultipleAtLeast(k: int, m: int)
    requires k >= 1 && m > 0
    ensures k * m >= m && (-k) * m <= -m
  {
    assert k * m == m + (k - 1) * m;
    assert (k - 1) * m >= 0;
  }

  /** The remainder is the unique `r` below `m` with `x == q * m + r`. */
  lemma ModUnique(x: int, m: int, q: int, r: int)
    requires m > 0 && 0 <= r < m && x == q * m + r
    ensures x % m == r
  {
    var k := q - x / m;
    assert k * m == x % m - r;
    if k >= 1 {
      MultipleAtLeast(k, m);
      assert false;
    } else if k <= -1 {
      MultipleAtLeast(-k, m);
      assert false;
    }
  }

  /** An animated sprite's frame counter. Which texture is shown is the frame
      index; loading and slicing the sheet is not modelled. */
  class Animation {
    const frames: nat
    const frameTime: real
    var currentFrame: nat
    var timer: real

    ghost predicate Valid()
      reads this
    {
      frames > 0 && currentFrame < frames && timer >= 0.0
    }

    /** Where the animation stands. */
    function State(): Clock
      reads this
    {
      Clock(currentFrame, timer)
    }

    constructor (frames: nat)
      requires frames > 0
      ensures Valid()
      ensures this.frames == frames && frameTime == DefaultFrameTime
      ensures currentFrame == 0 && timer == 0.0
    {
      this.frames := frames;
      frameTime := DefaultFrameTime;
      currentFrame := 0;
      timer := 0.0;
    }

    /** Accumulates `dt`; once a whole frame time has passed, shows the next
        frame, wrapping around after the last one, and restarts the timer. */
    method Update(dt: real)
      requires Valid() && dt >= 0.0
      modifies this
      ensures Valid()
      ensures State() == Stepped(old(State()), dt, frames, frameTime)
    {
      timer := timer + dt;
      if timer >= frameTime {
        currentFrame := (currentFrame + 1) % frames;
        timer := 0.0;
      }
    }
  }

  /** A boss projectile: its centre and the velocity added to it every tick. */
  datatype Projectile = Projectile(x: real, y: real, vx: real, vy: real)

  /** The world box outside which a projectile is discarded. The bounds are
      absolute world coordinates, not relative to the player. */
  predicate InBounds(p: Projectile)
    ensures InBounds(p) <==> -1000.0 <= p.x <= 10000.0 && -1000.0 <= p.y <= 3000.0
  {
    !(p.x < -1000.0 || p.x > 10000.0 || p.y < -1000.0 || p.y > 3000.0)
  }

  /** One step of straight-line motion. */
  function Moved(p: Projectile): (q: Projectile)
    ensures q.x - p.x == p.vx && q.y - p.y == p.vy
    ensures q.vx == p.vx && q.vy == p.vy
  {
    p.(x := p.x + p.vx, y := p.y + p.vy)
  }

  /** Every projectile moved one step, in order. */
  function MovedAll(ps: seq<Projectile>): (r: seq<Projectile>)
    ensures |r| == |ps|
    ensures forall i :: 0 <= i < |ps| ==> r[i] == Moved(ps[i])
  {
    if ps == [] then [] else MovedAll(ps[..|ps| - 1]) + [Moved(ps[|ps| - 1])]
  }

  /** The projectile list after every projectile has updated itself: moved,
      and removed if the move took it out of the world box. */
  function Advanced(ps: seq<Projectile>): (r: seq<Projectile>)
    ensures |r| <= |ps|
  {
    Filter(MovedAll(ps), InBounds)
  }

  /** After an update every remaining projectile is inside the box, none is
      invented, and a projectile whose move keeps it inside is still there. */
  lemma AdvancedSurvivors(ps: seq<Projectile>)
    ensures |Advanced(ps)| <= |ps|
    ensures forall q :: q in Advanced(ps) ==> InBounds(q)
    ensures forall q :: q in Advanced(ps) ==> exists p :: p in ps && q == Moved(p)
    ensures forall p :: p in ps && InBounds(Moved(p)) ==> Moved(p) in Advanced(ps)
  {
    var m := MovedAll(ps);
    FilterMembers(m, InBounds);
    forall q | q in Advanced(ps)
      ensures exists p :: p in ps && q == Moved(p)
    {
      var i :| 0 <= i < |m| && m[i] == q;
      assert ps[i] in ps;
    }
    forall p | p in ps && InBounds(Moved(p))
      ensures Moved(p) in Advanced(ps)
    {
      var i :| 0 <= i < |ps| && ps[i] == p;
      assert m[i] == Moved(p);
    }
  }
}
