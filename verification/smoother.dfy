/** The orientation smoother at the end of each frame in js/scripts.js: every
    tracked scene group eases its rotation 40% of the way toward a target
    derived from the pointer. */
module Smoother {

  /** The easing factor applied on every frame. */
  const SmoothingFactor: real := 0.4

  /** The part of the gap to the target that remains after one frame. */
  const Remaining: real := 0.6

  /** `Math.PI` as the decimal the JavaScript double prints as. */
  const Pi: real := 3.141592653589793

  function Abs(x: real): real {
    if x < 0.0 then -x else x
  }

  /** One easing update `r + 0.4 * (t - r)`: the gap to the target shrinks to
      six tenths, the value never passes the target, and it gets strictly
      closer unless it is already there. */
  function Smooth(r: real, t: real): (r': real)
    ensures t - r' == Remaining * (t - r)
    ensures r <= t ==> r <= r' <= t
    ensures t <= r ==> t <= r' <= r
    ensures r != t ==> Abs(t - r') < Abs(t - r)
  {
    r + SmoothingFactor * (t - r)
  }

  /** `k` easing updates toward a fixed target. */
  function Iterate(r: real, t: real, k: nat): (r': real)
    ensures Abs(t - r') <= Abs(t - r)
    ensures r <= t ==> r <= r' <= t
    ensures t <= r ==> t <= r' <= r
    decreases k
  {
    if k == 0 then r else Iterate(Smooth(r, t), t, k - 1)
  }

  function Pow(b: real, k: nat): real {
    if k == 0 then 1.0 else b * Pow(b, k - 1)
  }

  lemma Regroup(p: real, a: real, d: real)
    requires a == Remaining * d
    ensures p * a == (Remaining * p) * d
  {
  }

  /** After `k` updates the gap to the target is 0.6^k of the original gap. */
  lemma {:induction false} IterateClosedForm(r: real, t: real, k: nat)
    ensures t - Iterate(r, t, k) == Pow(Remaining, k) * (t - r)
    decreases k
  {
    if k > 0 {
      var s := Smooth(r, t);
      IterateClosedForm(s, t, k - 1);
      Regroup(Pow(Remaining, k - 1), t - s, t - r);
    }
  }

  /** Bernoulli's bound in the form 0.6^k * (1 + 2k/3) <= 1. */
  lemma {:induction false} PowBound(k: nat)
    ensures 0.0 < Pow(Remaining, k) <= 1.0
    ensures Pow(Remaining, k) * (1.0 + 2.0 * (k as real) / 3.0) <= 1.0
  {
    if k > 0 {
      PowBound(k - 1);
      var p := Pow(Remaining, k - 1);
      var kr := (k - 1) as real;
      assert Pow(Remaining, k) == 0.6 * p;
      calc {
        Pow(Remaining, k) * (1.0 + 2.0 * (k as real) / 3.0);
        0.6 * p * (1.0 + 2.0 * kr / 3.0) + 0.6 * p * (2.0 / 3.0);
        <= 0.6 + 0.4 * p;
        <= 1.0;
      }
    }
  }

  lemma ScaledBelow(p: real, k: real, d: real, eps: real)
    requires 0.0 < p && p * (1.0 + k) <= 1.0 && eps > 0.0 && d >= 0.0
    requires d < eps * (1.0 + k)
    ensures p * d < eps
  {
    assert p * d <= p * (eps * (1.0 + k)) by {
      assert p * (eps * (1.0 + k) - d) > 0.0;
    }
    assert p * (eps * (1.0 + k)) == eps * (p * (1.0 + k));
    assert eps * (p * (1.0 + k)) <= eps;
  }

  lemma AbsScaled(p: real, x: real)
    requires p >= 0.0
    ensures Abs(p * x) == p * Abs(x)
  {
    if x < 0.0 {
      assert p * x == -(p * -x);
      assert p * -x >= 0.0;
    } else {
      assert p * x >= 0.0;
    }
  }

  lemma WithinAfter(r: real, t: real, eps: real, j: nat)
    requires eps > 0.0 && Abs(t - r) < eps * (1.0 + 2.0 * (j as real) / 3.0)
    ensures Abs(t - Iterate(r, t, j)) < eps
  {
    var p := Pow(Remaining, j);
    assert 0.0 < p && p * (1.0 + 2.0 * (j as real) / 3.0) <= 1.0 by {
      PowBound(j);
    }
    assert Abs(t - Iterate(r, t, j)) == p * Abs(t - r) by {
      IterateClosedForm(r, t, j);
      AbsScaled(p, t - r);
    }
    ScaledBelow(p, 2.0 * (j as real) / 3.0, Abs(t - r), eps);
  }

  /** `j` frames are enough once `j * eps` exceeds 1.5 times the gap. */
  lemma EnoughFrames(eps: real, j: real, d: real)
    requires eps > 0.0 && d >= 0.0 && j * eps > 1.5 * d
    ensures d < eps * (1.0 + 2.0 * j / 3.0)
  {
    assert eps * (1.0 + 2.0 * j / 3.0) == eps + (2.0 / 3.0) * (j * eps);
  }

  /** With a fixed target the rotation converges: for any tolerance there is a
      number of frames after which it stays within that tolerance. */
  lemma Converges(r: real, t: real, eps: real) returns (k: nat)
    requires eps > 0.0
    ensures forall j: nat :: j >= k ==> Abs(t - Iterate(r, t, j)) < eps
  {
    var d := Abs(t - r);
    k := (1.5 * d / eps).Floor as nat + 1;
    assert (k as real) > 1.5 * d / eps;
    assert (k as real) * eps > 1.5 * d;
    forall j: nat | j >= k
      ensures Abs(t - Iterate(r, t, j)) < eps
    {
      assert (j as real) * eps >= (k as real) * eps;
      EnoughFrames(eps, j as real, d);
      WithinAfter(r, t, eps, j);
    }
  }

  /** The scene groups whose rotation follows the pointer. */
  datatype Group = Earth | VectorsContainer | ParticlesContainer
                 | GravityLines | GravityLinesLat | GravityLinesLng

  /** A group's rotation about the x axis (pitch) and the y axis (yaw). */
  datatype Rotation = Rotation(x: real, y: real)

  /** The normalised pointer position, each axis roughly in [-0.5, 0.5]. */
  datatype Pointer = Pointer(x: real, y: real)

  datatype Tracked = Tracked(group: Group, rot: Rotation)

  /** Only the globe's yaw target is shifted, by 0.8. */
  function YawOffset(g: Group): (o: real)
    ensures g == Earth <==> o == 0.8
    ensures g != Earth <==> o == 0.0
  {
    if g == Earth then 0.8 else 0.0
  }

  /** The rotation a group eases toward: pitch `mouseY * π` for every group,
      yaw `mouseX * π - 0.8` for the globe and `mouseX * π` for the rest. */
  function Target(g: Group, m: Pointer): (t: Rotation)
    ensures g == Earth ==> t == Rotation(m.y * Pi, m.x * Pi - 0.8)
    ensures g != Earth ==> t == Rotation(m.y * Pi, m.x * Pi)
  {
    Rotation(m.y * Pi, m.x * Pi - YawOffset(g))
  }

  /** Every group pitches toward the same target; the globe yaws toward a
      target 0.8 below the one all other groups share. */
  lemma TargetsAgree(g: Group, h: Group, m: Pointer)
    requires g != Earth && h != Earth
    ensures Target(g, m) == Target(h, m)
    ensures Target(Earth, m).x == Target(g, m).x
    ensures Target(Earth, m).y == Target(g, m).y - 0.8
  {
  }

  /** One frame of easing for one group: both angles close 40% of their gap
      to the group's target. */
  function SmoothRotation(g: Group, rot: Rotation, m: Pointer): (r: Rotation)
    ensures Target(g, m).x - r.x == Remaining * (Target(g, m).x - rot.x)
    ensures Target(g, m).y - r.y == Remaining * (Target(g, m).y - rot.y)
  {
    var t := Target(g, m);
    Rotation(Smooth(rot.x, t.x), Smooth(rot.y, t.y))
  }

  /** Eases every tracked group; the list of groups is unchanged. */
  function SmoothAll(ts: seq<Tracked>, m: Pointer): (rs: seq<Tracked>)
    ensures |rs| == |ts|
    ensures forall i :: 0 <= i < |ts| ==> rs[i].group == ts[i].group
    ensures forall i :: 0 <= i < |ts| ==>
      && Target(ts[i].group, m).x - rs[i].rot.x == Remaining * (Target(ts[i].group, m).x - ts[i].rot.x)
      && Target(ts[i].group, m).y - rs[i].rot.y == Remaining * (Target(ts[i].group, m).y - ts[i].rot.y)
  {
    seq(|ts|, i requires 0 <= i < |ts| => Tracked(ts[i].group, SmoothRotation(ts[i].group, ts[i].rot, m)))
  }
}
