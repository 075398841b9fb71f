/** The per-particle update run for every particle on each frame of `animate`
    in js/scripts.js: a reset near the globe's centre, otherwise one step of
    inverse-square attraction toward the origin. */
module Physics {
  import opened Vectors
  import opened SimConfig
  import opened Grid
  import opened Particles

  /** Squared guard radius: a particle closer than 0.5 to the origin is reset. */
  const GuardRadius2: real := 0.25

  /** What the stored life counter gains on every integration step. */
  const LifeStep: real := 0.1

  /** The position is within distance 0.5 of the globe's centre: the guard
      is stated on the squared distance, and agrees with `earthDist < 0.5`
      for the distance, whatever non-negative root of |pos|² it is. */
  predicate Inside(pos: Vec3): (b: bool)
    ensures forall d :: IsMagnitude(d, pos) ==> (b <==> d < 0.5)
  {
    GuardIsDistance(pos);
    Norm2(pos) < GuardRadius2
  }

  lemma GuardIsDistance(pos: Vec3)
    ensures forall d :: IsMagnitude(d, pos) ==> (Norm2(pos) < GuardRadius2 <==> d < 0.5)
  {
    forall d | IsMagnitude(d, pos)
      ensures Norm2(pos) < GuardRadius2 <==> d < 0.5
    {
      if d < 0.5 {
        assert d * d <= d * 0.5;
        assert d * 0.5 < 0.25;
      } else {
        assert d * d >= 0.5 * d;
        assert 0.5 * d >= 0.25;
      }
    }
  }

  /** `Math.min(1, x)`. */
  function Min1(x: real): (m: real)
    ensures m <= 1.0 && m <= x
    ensures m == 1.0 || m == x
  {
    if x < 1.0 then x else 1.0
  }

  /** The per-axis pull `pos * gravity / |pos|²`, defined only away from the
      centre: multiplied back by |pos|² it is `gravity * pos`, an
      inverse-square attraction along each axis. */
  function Accel(cfg: Config, pos: Vec3): (a: Vec3)
    requires !Inside(pos)
    ensures Scale(Norm2(pos), a) == Scale(cfg.gravity, pos)
  {
    var k := cfg.gravity / Norm2(pos);
    UndoDivision(cfg.gravity, Norm2(pos), k, pos);
    Scale(k, pos)
  }

  lemma UndoDivision(g: real, d2: real, k: real, pos: Vec3)
    requires d2 > 0.0 && k == g / d2
    ensures Scale(d2, Scale(k, pos)) == Scale(g, pos)
  {
    assert d2 * k == g;
    assert d2 * (k * pos.x) == (d2 * k) * pos.x;
    assert d2 * (k * pos.y) == (d2 * k) * pos.y;
    assert d2 * (k * pos.z) == (d2 * k) * pos.z;
  }

  /** One frame for particle `i`. `speed` is the length of the velocity the
      particle had before this frame; it only stretches the drawn cone. */
  function Step(cfg: Config, p: Particle, i: nat, speed: real): (r: Particle)
    requires cfg.density > 0
    requires IsMagnitude(speed, p.vel)
    ensures Inside(p.pos) ==> r == Reset(cfg, i)
    ensures !Inside(p.pos) ==>
      && Scale(Norm2(p.pos), Sub(r.vel, p.vel)) == Scale(cfg.gravity, p.pos)
      && Sub(p.pos, r.pos) == r.vel
      && r.life == p.life + LifeStep
      && r.display == Vec3(Min1(r.life), Min1(r.life), speed * 200.0 - 0.5)
    ensures r.display.x <= 1.0 && r.display.y <= 1.0
  {
    if Inside(p.pos) then
      Reset(cfg, i)
    else
      var a := Accel(cfg, p.pos);
      var v := Add(p.vel, a);
      var life := p.life + LifeStep;
      var shown := Min1(life);
      Particle(Sub(p.pos, v), v, life, Vec3(shown, shown, speed * 200.0 - 0.5))
  }

  /** The part of a particle the integration step evolves. */
  datatype Motion = Motion(pos: Vec3, vel: Vec3, life: real)

  function MotionOf(p: Particle): Motion {
    Motion(p.pos, p.vel, p.life)
  }

  /** Undoes the integration branch of `Step` for a particle that ended up at
      `q`: the old position is the new one plus the new velocity, and the old
      velocity is the new one minus the pull at the old position. */
  function Unstep(cfg: Config, q: Particle): Motion
    requires !Inside(Add(q.pos, q.vel))
  {
    var pos := Add(q.pos, q.vel);
    Motion(pos, Sub(q.vel, Accel(cfg, pos)), q.life - LifeStep)
  }

  /** The integration step loses nothing: position, velocity and life before
      the step are recovered from the state after it. */
  lemma StepReversible(cfg: Config, p: Particle, i: nat, speed: real)
    requires cfg.density > 0 && IsMagnitude(speed, p.vel) && !Inside(p.pos)
    ensures var r := Step(cfg, p, i, speed);
      && !Inside(Add(r.pos, r.vel))
      && Unstep(cfg, r) == MotionOf(p)
  {
    var r := Step(cfg, p, i, speed);
    assert Add(r.pos, r.vel) == p.pos;
  }

  /** Conversely, any state whose predecessor lies outside the guard is
      reached by stepping that predecessor. */
  lemma UnstepThenStep(cfg: Config, q: Particle, i: nat, speed: real)
    requires cfg.density > 0 && !Inside(Add(q.pos, q.vel))
    requires IsMagnitude(speed, Unstep(cfg, q).vel)
    ensures var u := Unstep(cfg, q);
      var r := Step(cfg, Particle(u.pos, u.vel, u.life, q.display), i, speed);
      MotionOf(r) == MotionOf(q)
  {
  }

  lemma ShrinkFactor(g: real, d2: real) returns (k: real)
    requires 0.0 < g < 0.5 && d2 >= GuardRadius2
    ensures k == g / d2
    ensures (1.0 - k) * (1.0 - k) < 1.0
  {
    k := g / d2;
    assert k * d2 == g;
    assert 0.0 < k;
    if k >= 2.0 {
      assert false;
    }
  }

  lemma ShrinkNorm(k: real, v: Vec3)
    requires (1.0 - k) * (1.0 - k) < 1.0 && Norm2(v) > 0.0
    ensures Norm2(Scale(1.0 - k, v)) < Norm2(v)
  {
    Norm2Scale(1.0 - k, v);
    var f := (1.0 - k) * (1.0 - k);
    assert f >= 0.0;
    assert (1.0 - f) * Norm2(v) > 0.0;
  }

  lemma RestStepPosition(cfg: Config, p: Particle, i: nat)
    requires cfg.density > 0 && p.vel == Zero && !Inside(p.pos)
    ensures Step(cfg, p, i, 0.0).pos == Scale(1.0 - cfg.gravity / Norm2(p.pos), p.pos)
  {
  }

  /** Starting from rest, one step moves a particle strictly closer to the
      centre whenever the pull is weaker than 0.5 per frame (the script's
      gravity is about 0.00136). */
  lemma FromRestMovesInward(cfg: Config, p: Particle, i: nat)
    requires cfg.density > 0 && 0.0 < cfg.gravity < 0.5
    requires p.vel == Zero && !Inside(p.pos)
    ensures Norm2(Step(cfg, p, i, 0.0).pos) < Norm2(p.pos)
  {
    var k := ShrinkFactor(cfg.gravity, Norm2(p.pos));
    RestStepPosition(cfg, p, i);
    ShrinkNorm(k, p.pos);
  }

  /** A particle at (1, 0, 0) at rest moves to (1 - g, 0, 0) with velocity (g, 0, 0). */
  lemma UnitParticleStep(cfg: Config, i: nat)
    requires cfg.density > 0
    ensures var r := Step(cfg, Particle(Vec3(1.0, 0.0, 0.0), Zero, 0.0, Zero), i, 0.0);
      && r.vel == Vec3(cfg.gravity, 0.0, 0.0)
      && r.pos == Vec3(1.0 - cfg.gravity, 0.0, 0.0)
  {
  }

  /** The stored life counter is not clamped: it passes 1 while the drawn
      scale stays at 1. */
  lemma StoredLifeExceedsOne(cfg: Config, p: Particle, i: nat, speed: real)
    requires cfg.density > 0 && IsMagnitude(speed, p.vel)
    requires !Inside(p.pos) && p.life == 1.0
    ensures Step(cfg, p, i, speed).life == 1.1
    ensures Step(cfg, p, i, speed).display.x == 1.0
  {
  }

  /** The square of a default lattice coordinate: 121/2116 on the two central
      steps 11 and 12, at least 1089/2116 on every other step. */
  lemma DefaultCoordSquare(c: nat)
    requires c < 23
    ensures var x := Coord(23, 11.0, c);
      && (c == 11 || c == 12 ==> x * x == 121.0 / 2116.0)
      && (c != 11 && c != 12 ==> x * x >= 1089.0 / 2116.0)
  {
    var m: int := 22 * c - 253;
    var x := Coord(23, 11.0, c);
    assert x == (m as real) / 46.0;
    assert x * x == ((m * m) as real) / 2116.0;
    if c <= 10 {
      assert -m >= 33;
      assert (-m) * (-m) >= 33 * (-m) >= 33 * 33;
    } else if c >= 13 {
      assert m >= 33;
      assert m * m >= 33 * m >= 33 * 33;
    }
  }

  lemma DefaultCentre(a: nat, b: nat, c: nat)
    requires a < 23 && b < 23 && c < 23
    ensures Inside(Vec3(Coord(23, 11.0, a), Coord(23, 11.0, b), Coord(23, 11.0, c))) <==>
      (a == 11 || a == 12) && (b == 11 || b == 12) && (c == 11 || c == 12)
  {
    var v := Vec3(Coord(23, 11.0, a), Coord(23, 11.0, b), Coord(23, 11.0, c));
    DefaultCoordSquare(a);
    DefaultCoordSquare(b);
    DefaultCoordSquare(c);
    var sa, sb, sc := v.x * v.x, v.y * v.y, v.z * v.z;
    assert Norm2(v) == sa + sb + sc;
    assert sa >= 0.0 && sb >= 0.0 && sc >= 0.0;
    if (a == 11 || a == 12) && (b == 11 || b == 12) && (c == 11 || c == 12) {
      assert sa + sb + sc == 363.0 / 2116.0;
    } else {
      assert sa >= 1089.0 / 2116.0 || sb >= 1089.0 / 2116.0 || sc >= 1089.0 / 2116.0;
      assert sa + sb + sc >= 1089.0 / 2116.0;
    }
  }

  /** On the default lattice a particle resets inside the guard exactly when
      its column, row and layer all lie in {11, 12}: those eight particles are
      reset again on every frame and never move. */
  lemma DefaultStuckCells(i: nat)
    requires i < Count(Default)
    ensures var c := Decompose(23, i);
      Inside(Reset(Default, i).pos) <==>
        (c.col == 11 || c.col == 12) && (c.row == 11 || c.row == 12) && (c.layer == 11 || c.layer == 12)
  {
    assert Count(Default) == 23 * 23 * 23;
    var c := Decompose(23, i);
    assert InRange(23, c);
    assert Reset(Default, i).pos == Vec3(Coord(23, 11.0, c.col), Coord(23, 11.0, c.row), Coord(23, 11.0, c.layer));
    DefaultCentre(c.col, c.row, c.layer);
  }

  /** A stuck particle is a fixed point of the frame update. */
  lemma DefaultCentreIsFixed()
    ensures Decompose(23, 6083) == Cell(11, 11, 11)
    ensures Step(Default, Reset(Default, 6083), 6083, 0.0) == Reset(Default, 6083)
  {
    DefaultStuckCells(6083);
  }
}
