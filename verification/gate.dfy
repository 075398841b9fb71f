/** The frame gate at the head of `animate(now, then)` in js/scripts.js: a
    callback does a frame's work only when at least 16 ms have passed since
    the last frame that did. */
module FrameGate {

  /** Milliseconds a frame must be apart from the previous one. */
  const FrameDuration: real := 16.0

  /** The interval the script picks from its scrolling flag; both choices are
      the same, so scrolling never changes the pacing. */
  function FrameInterval(scrolling: bool): (d: real)
    ensures d == FrameDuration
  {
    if scrolling then 16.0 else 16.0
  }

  /** Whether the callback ticks, and the `then` handed to the next callback. */
  datatype Decision = Decision(tick: bool, next: real)

  /** A tick happens exactly when at least 16 ms have elapsed; after a tick
      the next callback measures from `now`, after a skip from the old `then`. */
  function Gate(now: real, prev: real, scrolling: bool): (d: Decision)
    ensures d.tick <==> now - prev >= FrameDuration
    ensures d.tick ==> d.next == now
    ensures !d.tick ==> d.next == prev
  {
    var ticks := now - prev >= FrameInterval(scrolling);
    Decision(ticks, if ticks then now else prev)
  }

  /** The start-up call `animate(100, 0)` always does a frame's work. */
  lemma FirstCallTicks(scrolling: bool)
    ensures Gate(100.0, 0.0, scrolling) == Decision(true, 100.0)
  {
  }

  /** One animation-frame callback: its timestamp and the scrolling flag. */
  datatype Callback = Callback(now: real, scrolling: bool)

  /** The timestamps of the callbacks that tick, starting from `prev` (the script's `then`). */
  function Ticks(prev: real, cs: seq<Callback>): seq<real>
    decreases |cs|
  {
    if |cs| == 0 then []
    else
      var d := Gate(cs[0].now, prev, cs[0].scrolling);
      (if d.tick then [cs[0].now] else []) + Ticks(d.next, cs[1..])
  }

  /** The `then` carried after all the callbacks. */
  function LastThen(prev: real, cs: seq<Callback>): real
    decreases |cs|
  {
    if |cs| == 0 then prev
    else LastThen(Gate(cs[0].now, prev, cs[0].scrolling).next, cs[1..])
  }

  /** Ticks are rate limited: the first comes at least 16 ms after `prev`,
      and each later one at least 16 ms after the one before. */
  lemma {:induction false} TicksSpaced(prev: real, cs: seq<Callback>)
    ensures var ts := Ticks(prev, cs);
      && (|ts| > 0 ==> ts[0] - prev >= FrameDuration)
      && (forall k :: 0 <= k < |ts| - 1 ==> ts[k + 1] - ts[k] >= FrameDuration)
    decreases |cs|
  {
    if |cs| > 0 {
      var d := Gate(cs[0].now, prev, cs[0].scrolling);
      TicksSpaced(d.next, cs[1..]);
      var rest := Ticks(d.next, cs[1..]);
      if d.tick {
        assert Ticks(prev, cs) == [cs[0].now] + rest;
      } else {
        assert Ticks(prev, cs) == rest;
        if |rest| > 0 {
          assert rest[0] - d.next >= FrameDuration;
        }
      }
    }
  }

  /** The carried `then` is always the most recent tick, or `prev`
      while nothing has ticked. */
  lemma {:induction false} LastThenIsLastTick(prev: real, cs: seq<Callback>)
    ensures var ts := Ticks(prev, cs);
      LastThen(prev, cs) == if |ts| == 0 then prev else ts[|ts| - 1]
    decreases |cs|
  {
    if |cs| > 0 {
      var d := Gate(cs[0].now, prev, cs[0].scrolling);
      LastThenIsLastTick(d.next, cs[1..]);
    }
  }

  /** Runs the callbacks one after another, as the host's frame clock does,
      collecting the tick timestamps and the final `then`. */
  method Drive(prev: real, cs: seq<Callback>) returns (ticks: seq<real>, last: real)
    ensures ticks == Ticks(prev, cs)
    ensures last == LastThen(prev, cs)
    ensures forall k :: 0 <= k < |ticks| - 1 ==> ticks[k + 1] - ticks[k] >= FrameDuration
  {
    ticks := [];
    last := prev;
    var i := 0;
    while i < |cs|
      invariant 0 <= i <= |cs|
      invariant ticks + Ticks(last, cs[i..]) == Ticks(prev, cs)
      invariant LastThen(last, cs[i..]) == LastThen(prev, cs)
    {
      var d := Gate(cs[i].now, last, cs[i].scrolling);
      var here: seq<real> := if d.tick then [cs[i].now] else [];
      assert cs[i..][1..] == cs[i + 1..];
      assert Ticks(last, cs[i..]) == here + Ticks(d.next, cs[i + 1..]);
      assert LastThen(last, cs[i..]) == LastThen(d.next, cs[i + 1..]);
      assert (ticks + here) + Ticks(d.next, cs[i + 1..]) == ticks + (here + Ticks(d.next, cs[i + 1..]));
      ticks := ticks + here;
      last := d.next;
      i := i + 1;
    }
    assert cs[i..] == [];
    TicksSpaced(prev, cs);
  }
}
