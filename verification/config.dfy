/** The simulation constants held in the canvas state of js/scripts.js. */
module SimConfig {

  /** `density` is the lattice side (the script's row, column and layer counts,
      which are all the same constant), `spread` the side of the lattice cube in
      world units, `gravity` the per-frame pull of the globe. */
  datatype Config = Config(density: nat, spread: real, gravity: real)

  /** The values the script sets up: a 23-wide lattice, spread 11, gravity 9.8/120/60. */
  const Default: Config := Config(23, 11.0, 9.8 / 120.0 / 60.0)

  predicate Valid(cfg: Config) {
    cfg.density > 0 && cfg.spread > 0.0 && cfg.gravity > 0.0
  }

  /** Number of particles in the pool: one per lattice cell. */
  function Count(cfg: Config): nat {
    cfg.density * cfg.density * cfg.density
  }

  lemma DefaultIsValid()
    ensures Valid(Default)
    ensures Count(Default) == 12167
    ensures Default.gravity < 0.5
  {
  }
}
