/** One call of `animate` in js/scripts.js as a whole: gate the frame, then
    step every particle and ease every tracked group. */
module Animation {
  import opened Vectors
  import opened SimConfig
  import opened Particles
  import opened Physics
  import opened Smoother
  import opened FrameGate

  /** The simulation context the script keeps in global state: the particle
      pool, the tracked groups and the `then` of the last frame that ran. */
  datatype State = State(particles: seq<Particle>, groups: seq<Tracked>, prev: real)

  /** `speeds[i]` is the length of particle i's velocity. */
  predicate SpeedsOf(ps: seq<Particle>, speeds: seq<real>) {
    |speeds| == |ps| && forall i :: 0 <= i < |ps| ==> IsMagnitude(speeds[i], ps[i].vel)
  }

  /** The `forEach` over the pool: particle i is stepped with its own index. */
  function Tick(cfg: Config, ps: seq<Particle>, speeds: seq<real>): (qs: seq<Particle>)
    requires cfg.density > 0 && SpeedsOf(ps, speeds)
    ensures |qs| == |ps|
    ensures forall i :: 0 <= i < |ps| ==> qs[i] == Step(cfg, ps[i], i, speeds[i])
  {
    seq(|ps|, i requires 0 <= i < |ps| => Step(cfg, ps[i], i, speeds[i]))
  }

  /** A particle's new state depends on nothing but its own old state, its
      speed and its index: two pools that agree at i agree at i after a tick. */
  lemma TickIsLocal(cfg: Config, ps: seq<Particle>, sp: seq<real>, qs: seq<Particle>, sq: seq<real>, i: nat)
    requires cfg.density > 0 && SpeedsOf(ps, sp) && SpeedsOf(qs, sq)
    requires i < |ps| && i < |qs| && ps[i] == qs[i] && sp[i] == sq[i]
    ensures Tick(cfg, ps, sp)[i] == Tick(cfg, qs, sq)[i]
  {
  }

  /** No particle that starts a frame within 0.5 of the centre is integrated:
      it ends the frame at its reset position, at rest. */
  lemma TickResetsInside(cfg: Config, ps: seq<Particle>, speeds: seq<real>, i: nat)
    requires cfg.density > 0 && SpeedsOf(ps, speeds) && i < |ps|
    requires Inside(ps[i].pos)
    ensures Tick(cfg, ps, speeds)[i] == Reset(cfg, i)
    ensures Tick(cfg, ps, speeds)[i].vel == Zero
  {
  }

  /** The same pass written as the loop the script runs. */
  method TickPool(cfg: Config, ps: seq<Particle>, speeds: seq<real>) returns (qs: seq<Particle>)
    requires cfg.density > 0 && SpeedsOf(ps, speeds)
    ensures |qs| == |ps|
    ensures forall i :: 0 <= i < |ps| ==> qs[i] == Step(cfg, ps[i], i, speeds[i])
  {
    qs := [];
    var i := 0;
    while i < |ps|
      invariant 0 <= i <= |ps|
      invariant |qs| == i
      invariant forall j :: 0 <= j < i ==> qs[j] == Step(cfg, ps[j], j, speeds[j])
    {
      qs := qs + [Step(cfg, ps[i], i, speeds[i])];
      i := i + 1;
    }
  }

  /** One `animate(now, then)` call. On a tick the pool is stepped, the groups
      are eased and `now` becomes the new `then`; otherwise nothing changes. */
  function Frame(cfg: Config, s: State, c: Callback, m: Pointer, speeds: seq<real>): (s': State)
    requires cfg.density > 0 && SpeedsOf(s.particles, speeds)
    ensures |s'.particles| == |s.particles| && |s'.groups| == |s.groups|
    ensures forall i :: 0 <= i < |s.groups| ==> s'.groups[i].group == s.groups[i].group
    ensures c.now - s.prev >= FrameDuration ==>
      && s'.prev == c.now
      && s'.particles == Tick(cfg, s.particles, speeds)
      && s'.groups == SmoothAll(s.groups, m)
    ensures c.now - s.prev < FrameDuration ==> s' == s
  {
    var d := Gate(c.now, s.prev, c.scrolling);
    if d.tick then
      State(Tick(cfg, s.particles, speeds), SmoothAll(s.groups, m), d.next)
    else
      State(s.particles, s.groups, d.next)
  }

  /** The groups as the scene is built: the globe starts turned by -π about
      its y axis, every other group unrotated. */
  function InitialGroups(): (ts: seq<Tracked>)
    ensures |ts| == 6
    ensures ts[0] == Tracked(Earth, Rotation(0.0, -Pi))
    ensures forall i :: 1 <= i < 6 ==> ts[i].rot == Rotation(0.0, 0.0)
    ensures forall i, j :: 0 <= i < j < 6 ==> ts[i].group != ts[j].group
  {
    [ Tracked(Earth, Rotation(0.0, -Pi)),
      Tracked(VectorsContainer, Rotation(0.0, 0.0)),
      Tracked(ParticlesContainer, Rotation(0.0, 0.0)),
      Tracked(GravityLines, Rotation(0.0, 0.0)),
      Tracked(GravityLinesLat, Rotation(0.0, 0.0)),
      Tracked(GravityLinesLng, Rotation(0.0, 0.0)) ]
  }

  /** The state `init` hands to the first `animate(100, 0)`: the full pool
      with every particle at its reset state, the groups as built, and
      `then` equal to 0. */
  function Initial(cfg: Config): (s: State)
    requires cfg.density > 0
    ensures |s.particles| == Count(cfg)
    ensures forall i :: 0 <= i < |s.particles| ==> s.particles[i] == Reset(cfg, i)
    ensures s.groups == InitialGroups() && s.prev == 0.0
  {
    State(InitialPool(cfg), InitialGroups(), 0.0)
  }

  /** Every velocity of a pool at rest has length 0. */
  function RestSpeeds(ps: seq<Particle>): (speeds: seq<real>)
    requires forall i :: 0 <= i < |ps| ==> ps[i].vel == Zero
    ensures SpeedsOf(ps, speeds)
  {
    seq(|ps|, i => 0.0)
  }

  lemma FreshStepLife(cfg: Config, p: Particle, i: nat, speed: real)
    requires cfg.density > 0 && IsMagnitude(speed, p.vel) && p.life == 0.0
    ensures Step(cfg, p, i, speed).life == 0.0 || Step(cfg, p, i, speed).life == LifeStep
  {
    if !Inside(p.pos) {
      assert Step(cfg, p, i, speed).life == p.life + LifeStep;
    }
  }

  /** After one tick of a pool with no life, every particle has either been
      reset (life 0) or taken its first step (life 0.1). */
  lemma TickFromNoLife(cfg: Config, ps: seq<Particle>, speeds: seq<real>)
    requires cfg.density > 0 && SpeedsOf(ps, speeds)
    requires forall i :: 0 <= i < |ps| ==> ps[i].life == 0.0
    ensures var qs := Tick(cfg, ps, speeds);
      forall i :: 0 <= i < |qs| ==> qs[i].life == 0.0 || qs[i].life == LifeStep
  {
    var qs := Tick(cfg, ps, speeds);
    forall i | 0 <= i < |qs|
      ensures qs[i].life == 0.0 || qs[i].life == LifeStep
    {
      FreshStepLife(cfg, ps[i], i, speeds[i]);
    }
  }

  /** The first frame always runs: with every particle at rest on the
      lattice, each one either resets or takes its first step, and the next
      callback measures from 100. */
  lemma FirstFrameRuns(cfg: Config, scrolling: bool, m: Pointer)
    requires cfg.density > 0
    ensures var s := Initial(cfg);
      var s' := Frame(cfg, s, Callback(100.0, scrolling), m, RestSpeeds(s.particles));
      && s'.prev == 100.0
      && |s'.particles| == Count(cfg)
      && (forall i :: 0 <= i < |s'.particles| ==> s'.particles[i].life == 0.0 || s'.particles[i].life == LifeStep)
  {
    var s := Initial(cfg);
    var sp := RestSpeeds(s.particles);
    var s' := Frame(cfg, s, Callback(100.0, scrolling), m, sp);
    assert s'.particles == Tick(cfg, s.particles, sp);
    TickFromNoLife(cfg, s.particles, sp);
  }
}
