/** The frame counter of a sprite-sheet animation (`AnimEntity` in js/app.js). */
module Animation {

  /** The animation's mutable part: the frame index and the time accumulated in it. */
  datatype AnimState = AnimState(step: nat, acc: real)

  /**
   * One `update(dt)` call: the elapsed time is added to the accumulator; once the
   * accumulator strictly exceeds the frame duration, the frame advances by one and
   * the accumulated time, excess included, is dropped.
   */
  function Advance(a: AnimState, perFrame: real, dt: real): (r: AnimState)
    ensures r.step == a.step || r.step == a.step + 1
    ensures r.step == a.step + 1 <==> a.acc + dt > perFrame
    ensures r.step == a.step ==> r.acc == a.acc + dt
    ensures r.step == a.step + 1 ==> r.acc == 0.0
  {
    var acc := a.acc + dt;
    if acc > perFrame then AnimState(a.step + 1, 0.0) else AnimState(a.step, acc)
  }

  /** The animation after one `update` call per element of `dts`. */
  function AdvanceAll(a: AnimState, perFrame: real, dts: seq<real>): AnimState
    decreases |dts|
  {
    if dts == [] then a else AdvanceAll(Advance(a, perFrame, dts[0]), perFrame, dts[1..])
  }

  function Sum(dts: seq<real>): real
    decreases |dts|
  {
    if dts == [] then 0.0 else dts[0] + Sum(dts[1..])
  }

  /** The frame index never decreases and grows by at most one per call, however large `dt` is. */
  lemma {:induction false} FramesPerCall(a: AnimState, perFrame: real, dts: seq<real>)
    ensures a.step <= AdvanceAll(a, perFrame, dts).step <= a.step + |dts|
    decreases |dts|
  {
    if dts != [] {
      FramesPerCall(Advance(a, perFrame, dts[0]), perFrame, dts[1..]);
    }
  }

  /** When every call brings more than a frame's time, every call advances one frame. */
  lemma {:induction false} LongCallsAdvanceEveryTime(a: AnimState, perFrame: real, dts: seq<real>)
    requires a.acc >= 0.0
    requires forall i :: 0 <= i < |dts| ==> dts[i] > perFrame
    ensures AdvanceAll(a, perFrame, dts).step == a.step + |dts|
    decreases |dts|
  {
    if dts != [] {
      LongCallsAdvanceEveryTime(Advance(a, perFrame, dts[0]), perFrame, dts[1..]);
    }
  }

  /**
   * Time is only ever dropped, never created: each frame advanced consumed more than
   * `perFrame` of the time fed in (plus what was already accumulated).
   */
  lemma {:induction false} FramesNeedTime(a: AnimState, perFrame: real, dts: seq<real>)
    ensures var r := AdvanceAll(a, perFrame, dts);
      a.step <= r.step &&
      (r.step - a.step) as real * perFrame + r.acc <= a.acc + Sum(dts)
    decreases |dts|
  {
    if dts != [] {
      var b := Advance(a, perFrame, dts[0]);
      FramesNeedTime(b, perFrame, dts[1..]);
      var r := AdvanceAll(a, perFrame, dts);
      var k := (r.step - b.step) as real;
      assert (r.step - a.step) as real * perFrame == k * perFrame + (b.step - a.step) as real * perFrame;
    }
  }

  /**
   * A single call advances at most one frame: 0.40 s in one call moves a fresh
   * five-frame, 0.08 s-per-frame animation to frame 1 only, and a call of exactly
   * one frame's duration does not advance it at all.
   */
  lemma LargeDeltaOneFrame()
    ensures AdvanceAll(AnimState(0, 0.0), 0.08, [0.40]) == AnimState(1, 0.0)
    ensures AdvanceAll(AnimState(0, 0.0), 0.08, [0.08]) == AnimState(0, 0.08)
    ensures AdvanceAll(AnimState(0, 0.0), 0.08, [0.08, 0.08]) == AnimState(1, 0.0)
  {
  }

  class AnimEntity {
    const sprite: string
    const size: int
    const cols: nat
    const dtPerFrame: real
    /** Where the animation is drawn; rendering only. */
    var pos: (int, int)
    var step: nat
    var dt: real

    function State(): AnimState
      reads this
    {
      AnimState(step, dt)
    }

    constructor (sprite: string, frames: nat, size: int, dtFrame: real)
      ensures this.sprite == sprite && cols == frames && this.size == size && dtPerFrame == dtFrame
      ensures State() == AnimState(0, 0.0)
    {
      this.sprite := sprite;
      this.size := size;
      cols := frames;
      dtPerFrame := dtFrame;
      pos := (0, 0);
      step := 0;
      dt := 0.0;
    }

    method Update(elapsed: real)
      modifies this
      ensures State() == Advance(old(State()), dtPerFrame, elapsed)
      ensures pos == old(pos)
    {
      dt := dt + elapsed;
      if dt > dtPerFrame {
        step := step + 1;
        dt := 0.0;
      }
    }

    method Reset()
      modifies this
      ensures State() == AnimState(0, 0.0)
      ensures pos == old(pos)
    {
      dt := 0.0;
      step := 0;
    }
  }
}
