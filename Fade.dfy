/**
 * FadeManager: a full-screen black image on its own canvas whose alpha is
 * driven by a fade routine. A fade is refused while another runs; while one
 * runs the canvas is on top and blocks input; a fade-in hands the screen
 * back at its end. The completion callback is returned to the caller, which
 * runs it.
 */
module Fade {
  import opened Wrappers
  import Mathf

  /** The canvas order while a fade runs or the screen is black. */
  const TopOrder: int := 999

  /** The canvas order when the screen is clear. */
  const BackOrder: int := -1

  /** A completion callback, named by the code that passed it. */
  datatype Callback = Callback(id: nat)

  /** A running FadeRoutine: its direction and its locals. */
  datatype FadeRun = FadeRun(isFadeOut: bool, duration: real, elapsed: real, onComplete: Option<Callback>)

  function StartAlpha(isFadeOut: bool): real {
    if isFadeOut then 0.0 else 1.0
  }

  function EndAlpha(isFadeOut: bool): real {
    if isFadeOut then 1.0 else 0.0
  }

  /** The alpha a fade shows after elapsed of duration seconds. */
  function FadeAlpha(isFadeOut: bool, elapsed: real, duration: real): (a: real)
    requires duration > 0.0
    ensures 0.0 <= a <= 1.0
    ensures elapsed <= 0.0 ==> a == StartAlpha(isFadeOut)
    ensures elapsed >= duration ==> a == EndAlpha(isFadeOut)
  {
    assert elapsed >= duration ==> elapsed / duration >= 1.0 by {
      var q := elapsed / duration;
      assert q * duration == elapsed;
    }
    Mathf.Lerp(StartAlpha(isFadeOut), EndAlpha(isFadeOut), elapsed / duration)
  }

  /** A fade-out only darkens and a fade-in only lightens as time passes. */
  lemma FadeAlphaMonotone(isFadeOut: bool, e1: real, e2: real, duration: real)
    requires duration > 0.0 && e1 <= e2
    ensures isFadeOut ==> FadeAlpha(true, e1, duration) <= FadeAlpha(true, e2, duration)
    ensures !isFadeOut ==> FadeAlpha(false, e1, duration) >= FadeAlpha(false, e2, duration)
  {
    assert e1 / duration <= e2 / duration by {
      assert e2 / duration - e1 / duration == (e2 - e1) / duration;
    }
  }

  class FadeManager {
    var isTransitioning: bool
    var sortingOrder: int
    var raycastTarget: bool
    var alpha: real
    var run: Option<FadeRun>

    /** A fade runs exactly while the flag is up, on top and blocking input; at rest the screen is clear at the back or black on top. */
    ghost predicate Valid()
      reads this
    {
      && (isTransitioning <==> run.Some?)
      && 0.0 <= alpha <= 1.0
      && (run.Some? ==>
            && sortingOrder == TopOrder && raycastTarget
            && run.value.duration > 0.0 && run.value.elapsed >= 0.0
            && alpha == FadeAlpha(run.value.isFadeOut, run.value.elapsed, run.value.duration))
      && (run.None? ==>
            || (sortingOrder == BackOrder && !raycastTarget && alpha == 0.0)
            || (sortingOrder == TopOrder && raycastTarget && alpha == 1.0))
    }

    /** CreateFadeUI: the canvas at the back, the image transparent and not blocking input. */
    constructor CreateFadeUI()
      ensures Valid()
      ensures !isTransitioning && run == None
      ensures alpha == 0.0 && sortingOrder == BackOrder && !raycastTarget
    {
      isTransitioning := false;
      sortingOrder := BackOrder;
      raycastTarget := false;
      alpha := 0.0;
      run := None;
    }

    /**
     * Ends a fade, which the routine's start left on top and blocking input:
     * final alpha, the screen handed back after a fade-in, the flag down, and
     * the callback returned.
     */
    method Finish(isFadeOut: bool, onComplete: Option<Callback>) returns (invoked: Option<Callback>)
      requires sortingOrder == TopOrder && raycastTarget
      modifies this
      ensures Valid()
      ensures !isTransitioning && run == None && alpha == EndAlpha(isFadeOut)
      ensures isFadeOut ==> sortingOrder == TopOrder && raycastTarget
      ensures !isFadeOut ==> sortingOrder == BackOrder && !raycastTarget
      ensures invoked == onComplete
    {
      alpha := EndAlpha(isFadeOut);
      if !isFadeOut {
        sortingOrder := BackOrder;
        raycastTarget := false;
      }
      isTransitioning := false;
      run := None;
      invoked := onComplete;
    }

    /**
     * FadeRoutine up to its first yield, on a frame of dt seconds: the flag
     * goes up and the canvas to the top; a duration that is not positive ends
     * the fade at once, otherwise one frame of the loop runs.
     */
    method FadeRoutine(isFadeOut: bool, duration: real, onComplete: Option<Callback>, dt: real) returns (invoked: Option<Callback>)
      requires dt >= 0.0
      modifies this
      ensures Valid()
      ensures duration <= 0.0 ==>
                && !isTransitioning && run == None && alpha == EndAlpha(isFadeOut) && invoked == onComplete
                && (sortingOrder == TopOrder && raycastTarget <==> isFadeOut)
      ensures duration > 0.0 ==>
                && isTransitioning && run == Some(FadeRun(isFadeOut, duration, dt, onComplete))
                && alpha == FadeAlpha(isFadeOut, dt, duration)
                && sortingOrder == TopOrder && raycastTarget && invoked == None
    {
      isTransitioning := true;
      sortingOrder := TopOrder;
      raycastTarget := true;
      if duration <= 0.0 {
        invoked := Finish(isFadeOut, onComplete);
        return;
      }
      alpha := FadeAlpha(isFadeOut, dt, duration);
      run := Some(FadeRun(isFadeOut, duration, dt, onComplete));
      invoked := None;
    }

    /** FadeOut: refused while a fade runs (no callback then); otherwise a fade from clear to black starts. */
    method FadeOut(duration: real, onComplete: Option<Callback>, dt: real) returns (invoked: Option<Callback>)
      requires Valid() && dt >= 0.0
      modifies this
      ensures Valid()
      ensures old(isTransitioning) ==> unchanged(this) && invoked == None
      ensures !old(isTransitioning) && duration <= 0.0 ==>
                !isTransitioning && alpha == 1.0 && sortingOrder == TopOrder && raycastTarget && invoked == onComplete
      ensures !old(isTransitioning) && duration > 0.0 ==>
                isTransitioning && run == Some(FadeRun(true, duration, dt, onComplete)) && invoked == None
    {
      if isTransitioning {
        return None;
      }
      invoked := FadeRoutine(true, duration, onComplete, dt);
    }

    /** FadeIn: refused while a fade runs (no callback then); otherwise a fade from black to clear starts. */
    method FadeIn(duration: real, onComplete: Option<Callback>, dt: real) returns (invoked: Option<Callback>)
      requires Valid() && dt >= 0.0
      modifies this
      ensures Valid()
      ensures old(isTransitioning) ==> unchanged(this) && invoked == None
      ensures !old(isTransitioning) && duration <= 0.0 ==>
                !isTransitioning && alpha == 0.0 && sortingOrder == BackOrder && !raycastTarget && invoked == onComplete
      ensures !old(isTransitioning) && duration > 0.0 ==>
                isTransitioning && run == Some(FadeRun(false, duration, dt, onComplete)) && invoked == None
    {
      if isTransitioning {
        return None;
      }
      invoked := FadeRoutine(false, duration, onComplete, dt);
    }

    /**
     * One later frame of the routine: while elapsed is short of the duration
     * dt is added and the alpha follows; otherwise the fade ends with its
     * final alpha and the flag is cleared before the callback is handed back,
     * so the callback may start the next fade.
     */
    method Step(dt: real) returns (invoked: Option<Callback>)
      requires Valid() && dt >= 0.0
      modifies this
      ensures Valid()
      ensures old(run).None? ==> unchanged(this) && invoked == None
      ensures old(run).Some? && old(run.value.elapsed < run.value.duration) ==>
                && run == Some(old(run.value).(elapsed := old(run.value.elapsed) + dt))
                && isTransitioning && invoked == None
      ensures old(run).Some? && old(run.value.elapsed >= run.value.duration) ==>
                && run == None && !isTransitioning && alpha == EndAlpha(old(run.value.isFadeOut))
                && (old(run.value.isFadeOut) ==> sortingOrder == TopOrder && raycastTarget)
                && (!old(run.value.isFadeOut) ==> sortingOrder == BackOrder && !raycastTarget)
                && invoked == old(run.value.onComplete)
    {
      if run.None? {
        return None;
      }
      var r := run.value;
      if r.elapsed < r.duration {
        var elapsed := r.elapsed + dt;
        alpha := FadeAlpha(r.isFadeOut, elapsed, r.duration);
        run := Some(r.(elapsed := elapsed));
        return None;
      }
      invoked := Finish(r.isFadeOut, r.onComplete);
    }
  }
}
