/** The particle pool and its reset policy (`resetParticle` in js/scripts.js). */
module Particles {
  import opened Vectors
  import opened SimConfig
  import opened Grid

  /** One simulated particle: its world position, its velocity (the script's
      `vX`, `vY`, `vZ`), its life counter (the script's stored `scale`) and the
      scale its cone is drawn with. */
  datatype Particle = Particle(pos: Vec3, vel: Vec3, life: real, display: Vec3)

  /** The particle is at rest with no life and an invisible cone. */
  predicate Fresh(p: Particle) {
    p.vel == Zero && p.life == 0.0 && p.display == Zero
  }

  /** Every coordinate lies in [-spread/2, spread/2). */
  predicate InBox(v: Vec3, spread: real) {
    && -spread / 2.0 <= v.x < spread / 2.0
    && -spread / 2.0 <= v.y < spread / 2.0
    && -spread / 2.0 <= v.z < spread / 2.0
  }

  /** The position of lattice cell `c`: column, row and layer give x, y and z.
      A cell of the lattice lies inside the spread box. */
  function CellPosition(cfg: Config, c: Cell): (v: Vec3)
    requires cfg.density > 0
    ensures InRange(cfg.density, c) && cfg.spread > 0.0 ==> InBox(v, cfg.spread)
    ensures (v.x + cfg.spread / 2.0) * (cfg.density as real) == (c.col as real) * cfg.spread
    ensures (v.y + cfg.spread / 2.0) * (cfg.density as real) == (c.row as real) * cfg.spread
    ensures (v.z + cfg.spread / 2.0) * (cfg.density as real) == (c.layer as real) * cfg.spread
  {
    Vec3(Coord(cfg.density, cfg.spread, c.col),
         Coord(cfg.density, cfg.spread, c.row),
         Coord(cfg.density, cfg.spread, c.layer))
  }

  /** Re-initialises the particle with index `i`. The result depends on `i`
      and the constants alone: whatever state the particle was in is
      forgotten, so resetting twice gives the same particle as resetting once. */
  function Reset(cfg: Config, i: nat): (r: Particle)
    requires cfg.density > 0
    ensures Fresh(r)
    ensures i < Count(cfg) && cfg.spread > 0.0 ==> InBox(r.pos, cfg.spread)
  {
    var c := Decompose(cfg.density, i);
    Particle(CellPosition(cfg, c), Zero, 0.0, Zero)
  }

  /** Every lattice cell is the reset position of the index that composes it:
      the reset placement covers the whole lattice. */
  lemma ResetCoversLattice(cfg: Config, c: Cell)
    requires cfg.density > 0 && InRange(cfg.density, c)
    ensures Compose(cfg.density, c) < Count(cfg)
    ensures Reset(cfg, Compose(cfg.density, c)).pos == CellPosition(cfg, c)
  {
    DecomposeCompose(cfg.density, c);
  }

  /** Two different indices never share a reset position. */
  lemma ResetInjective(cfg: Config, i: nat, j: nat)
    requires cfg.density > 0 && cfg.spread != 0.0 && i != j
    ensures Reset(cfg, i).pos != Reset(cfg, j).pos
  {
    var n := cfg.density;
    var a := Decompose(n, i);
    var b := Decompose(n, j);
    DecomposeInjective(n, i, j);
    if a.col != b.col {
      CoordInjective(n, cfg.spread, a.col, b.col);
    } else if a.row != b.row {
      CoordInjective(n, cfg.spread, a.row, b.row);
    } else {
      CoordInjective(n, cfg.spread, a.layer, b.layer);
    }
  }

  /** The pool as `createParticles` builds it: one reset particle per index. */
  function InitialPool(cfg: Config): (ps: seq<Particle>)
    requires cfg.density > 0
    ensures |ps| == Count(cfg)
    ensures forall i :: 0 <= i < |ps| ==> Fresh(ps[i])
    ensures cfg.spread > 0.0 ==> forall i :: 0 <= i < |ps| ==> InBox(ps[i].pos, cfg.spread)
  {
    seq(Count(cfg), i requires 0 <= i < Count(cfg) => Reset(cfg, i))
  }

  /** No two particles of the initial pool start at the same place. */
  lemma InitialPoolDistinct(cfg: Config)
    requires cfg.density > 0 && cfg.spread != 0.0
    ensures var ps := InitialPool(cfg);
      forall i, j :: 0 <= i < j < |ps| ==> ps[i].pos != ps[j].pos
  {
    var ps := InitialPool(cfg);
    forall i, j | 0 <= i < j < |ps|
      ensures ps[i].pos != ps[j].pos
    {
      ResetInjective(cfg, i, j);
    }
  }

  /** On a two-wide lattice of spread 2 lattice step k sits at k - 1. */
  lemma TwoWideCoord(k: nat)
    ensures Coord(2, 2.0, k) == (k as real) - 1.0
  {
    assert (k as real) / 2.0 * 2.0 == k as real;
  }

  lemma TwoWideCorner(i: nat)
    requires i < 8
    ensures var p := Reset(Config(2, 2.0, 0.0), i).pos;
      && (p.x == -1.0 || p.x == 0.0)
      && (p.y == -1.0 || p.y == 0.0)
      && (p.z == -1.0 || p.z == 0.0)
  {
    var c := Decompose(2, i);
    assert InRange(2, c);
    TwoWideCoord(c.col);
    TwoWideCoord(c.row);
    TwoWideCoord(c.layer);
  }

  /** A two-wide lattice of spread 2 puts its eight particles on the eight
      distinct corners of a unit cube whose corners are -1 and 0 on every
      axis: the lattice is half-open, so the cube is not centred on the origin. */
  lemma TwoWideLattice(i: nat, j: nat)
    requires i < 8 && j < 8
    ensures var p := Reset(Config(2, 2.0, 0.0), i).pos;
      && (p.x == -1.0 || p.x == 0.0)
      && (p.y == -1.0 || p.y == 0.0)
      && (p.z == -1.0 || p.z == 0.0)
    ensures i != j ==> Reset(Config(2, 2.0, 0.0), i).pos != Reset(Config(2, 2.0, 0.0), j).pos
  {
    TwoWideCorner(i);
    if i != j {
      ResetInjective(Config(2, 2.0, 0.0), i, j);
    }
  }
}
