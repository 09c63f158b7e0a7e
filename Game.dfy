/**
 * GameManager: the inactivity timer that sends the kiosk back to its title
 * after a quiet period, the debug key toggles, and the return routine that
 * fades out, resets and fades back in through the FadeManager.
 */
module Game {
  import opened Wrappers
  import TemplateData
  import Fade

  const DefaultInactivityLimit: real := 60.0
  const DefaultFadeTime: real := 1.0

  /** The callback the return routine hands to FadeOut: it sets the routine's fadeDone. */
  const FadeDoneCallback: Fade.Callback := Fade.Callback(0)

  /** What the input system reports for one frame. */
  datatype FrameInput = FrameInput(dDown: bool, mDown: bool, anyKey: bool, touchCount: int, deltaTime: real)

  /** Where ReturnToTitleRoutine stands. */
  datatype Routine = NotRunning | AwaitingFadeOut

  /** The in-game log viewer's two flags the manager drives. */
  class Reporter {
    var show: bool
    var showGameManagerControl: bool

    constructor (show: bool, showGameManagerControl: bool)
      ensures this.show == show && this.showGameManagerControl == showGameManagerControl
    {
      this.show := show;
      this.showGameManagerControl := showGameManagerControl;
    }
  }

  class GameManager {
    /** FadeManager.Instance; null stands for an instance that cannot be found. */
    const fade: Fade.FadeManager?
    const reporter: Reporter?
    var cursorVisible: bool
    var inactivityTimer: real
    var isTransitioning: bool
    var inactivityLimit: real
    var fadeTime: real
    var routine: Routine
    /** The routine's local flag, set by its fade-out callback. */
    var fadeDone: bool

    ghost predicate Valid()
      reads this, fade
    {
      && inactivityTimer >= 0.0
      && (isTransitioning <==> routine == AwaitingFadeOut)
      && (routine == AwaitingFadeOut ==> fade != null)
      && (routine == NotRunning ==> !fadeDone)
      && (routine == NotRunning || fadeDone ==> !FadeCarriesCallback())
      && (fade != null ==> fade.Valid())
    }

    /** The fade manager, when there is one, is as it was. */
    twostate predicate FadeUnchanged()
      reads this, fade
    {
      fade != null ==> unchanged(fade)
    }

    /**
     * The routine waits on a callback that will never come: its FadeOut was
     * refused, or the fade that carried its callback was replaced, and
     * nothing set fadeDone.
     */
    ghost predicate Stalled()
      reads this, fade
    {
      && routine == AwaitingFadeOut && !fadeDone && fade != null
      && !FadeCarriesCallback()
    }

    /**
     * What ReturnToTitle leaves when it was called with the flag down, on a
     * frame of dt seconds and with the timer at timer: no fade manager drops
     * the flag again; a busy one refuses the fade-out and the routine stalls;
     * an idle one starts the fade-out carrying the routine's callback, or,
     * with a fade time that is not positive, completes it at once so that the
     * routine resets the timer, drops the flag and fades back in.
     */
    twostate predicate ReturnedToTitle(dt: real, timer: real)
      reads this, fade
    {
      && (fade == null ==> !isTransitioning && routine == NotRunning && inactivityTimer == timer)
      && (fade != null && old(fade.isTransitioning) ==>
            isTransitioning && Stalled() && FadeUnchanged() && inactivityTimer == timer)
      && (fade != null && !old(fade.isTransitioning) && fadeTime > 0.0 ==>
            && isTransitioning && routine == AwaitingFadeOut && !fadeDone
            && fade.run == Some(Fade.FadeRun(true, fadeTime, dt, Some(FadeDoneCallback)))
            && inactivityTimer == timer)
      && (fade != null && !old(fade.isTransitioning) && fadeTime <= 0.0 ==>
            && !isTransitioning && routine == NotRunning && inactivityTimer == 0.0
            && !fade.isTransitioning && fade.run == None && fade.alpha == 0.0 && fade.sortingOrder == Fade.BackOrder)
    }

    /** The fade manager is running the fade-out that will hand back the routine's callback. */
    predicate FadeCarriesCallback()
      reads this, fade
    {
      fade != null && fade.run.Some? && fade.run.value.onComplete == Some(FadeDoneCallback)
    }

    /**
     * Awake and Start: the cursor is hidden, the settings are read, and a
     * reporter that is showing is hidden.
     */
    constructor Start(fade: Fade.FadeManager?, reporter: Reporter?, settings: Option<TemplateData.Settings>)
      requires fade != null ==> fade.Valid()
      requires !(fade != null && fade.run.Some? && fade.run.value.onComplete == Some(FadeDoneCallback))
      modifies reporter
      ensures Valid() && this.fade == fade && this.reporter == reporter
      ensures !cursorVisible && inactivityTimer == 0.0 && !isTransitioning && routine == NotRunning
      ensures settings.Some? ==> inactivityLimit == settings.value.inactivityTime && fadeTime == settings.value.fadeTime
      ensures settings.None? ==> inactivityLimit == DefaultInactivityLimit && fadeTime == DefaultFadeTime
      ensures reporter != null ==> !reporter.show && reporter.showGameManagerControl == old(reporter.showGameManagerControl)
    {
      this.fade := fade;
      this.reporter := reporter;
      inactivityTimer := 0.0;
      isTransitioning := false;
      routine := NotRunning;
      fadeDone := false;
      inactivityLimit := DefaultInactivityLimit;
      fadeTime := DefaultFadeTime;
      cursorVisible := false;
      new;
      LoadSettings(settings);
      if reporter != null && reporter.show {
        reporter.show := false;
      }
    }

    /** A loaded settings file replaces the limit and the fade time; a missing one keeps them. */
    method LoadSettings(settings: Option<TemplateData.Settings>)
      modifies this`inactivityLimit, this`fadeTime
      ensures settings.Some? ==> inactivityLimit == settings.value.inactivityTime && fadeTime == settings.value.fadeTime
      ensures settings.None? ==> inactivityLimit == old(inactivityLimit) && fadeTime == old(fadeTime)
    {
      if settings.Some? {
        inactivityLimit := settings.value.inactivityTime;
        fadeTime := settings.value.fadeTime;
      }
    }

    /**
     * ReturnToTitle and the routine up to its first yield. A missing fade
     * manager drops the flag again. Otherwise FadeOut is asked for with the
     * callback; a fade time that is not positive completes the fade-out at
     * once, so the routine goes straight on to reset the timer, drop the flag
     * and fade back in.
     */
    method ReturnToTitle(dt: real)
      requires Valid() && dt >= 0.0
      modifies this, fade
      ensures Valid()
      ensures old(isTransitioning) ==> unchanged(this) && FadeUnchanged()
      ensures !old(isTransitioning) ==> ReturnedToTitle(dt, old(inactivityTimer))
      ensures cursorVisible == old(cursorVisible) && inactivityLimit == old(inactivityLimit) && fadeTime == old(fadeTime)
    {
      if isTransitioning {
        return;
      }
      isTransitioning := true;
      if fade == null {
        isTransitioning := false;
        return;
      }
      fadeDone := false;
      routine := AwaitingFadeOut;
      var invoked := fade.FadeOut(fadeTime, Some(FadeDoneCallback), dt);
      if invoked.Some? {
        DeliverCallback(invoked.value);
        ResumeRoutine(dt);
      }
    }

    /** The fade-out callback: marks the awaited fade done; any other callback is not the routine's. */
    method DeliverCallback(cb: Fade.Callback)
      requires Valid() && !FadeCarriesCallback()
      modifies this`fadeDone
      ensures Valid()
      ensures cb == FadeDoneCallback && routine == AwaitingFadeOut ==> fadeDone
      ensures !(cb == FadeDoneCallback && routine == AwaitingFadeOut) ==> fadeDone == old(fadeDone)
      ensures old(Stalled()) && cb != FadeDoneCallback ==> Stalled()
    {
      if cb == FadeDoneCallback && routine == AwaitingFadeOut {
        fadeDone := true;
      }
    }

    /**
     * One frame of the fade manager's routine; the callback it hands back,
     * if any, is run.
     */
    method FadeFrame(dt: real)
      requires Valid() && dt >= 0.0
      modifies this`fadeDone, fade
      ensures Valid()
      ensures old(FadeCarriesCallback()) && old(fade.run.value.elapsed >= fade.run.value.duration) ==> fadeDone
      ensures old(Stalled()) ==> Stalled()
      ensures fade == null ==> fadeDone == old(fadeDone)
      ensures !(old(FadeCarriesCallback()) && old(fade.run.value.elapsed >= fade.run.value.duration)) ==>
                fadeDone == old(fadeDone)
      ensures fade != null && old(fade.run).None? ==> unchanged(fade)
      ensures fade != null && old(fade.run).Some? && old(fade.run.value.elapsed < fade.run.value.duration) ==>
                fade.run == Some(old(fade.run.value).(elapsed := old(fade.run.value.elapsed) + dt)) && fade.isTransitioning
      ensures fade != null && old(fade.run).Some? && old(fade.run.value.elapsed >= fade.run.value.duration) ==>
                && fade.run == None && !fade.isTransitioning && fade.alpha == Fade.EndAlpha(old(fade.run.value.isFadeOut))
                && (old(fade.run.value.isFadeOut) ==> fade.sortingOrder == Fade.TopOrder && fade.raycastTarget)
                && (!old(fade.run.value.isFadeOut) ==> fade.sortingOrder == Fade.BackOrder && !fade.raycastTarget)
    {
      if fade == null {
        return;
      }
      var cb := fade.Step(dt);
      if cb.Some? {
        DeliverCallback(cb.value);
      }
    }

    /**
     * The routine resumed on a later frame: once the fade-out reported back,
     * the timer is reset, the flag dropped and a fade-in of the configured
     * time asked for; until then it keeps waiting.
     */
    method ResumeRoutine(dt: real)
      requires Valid() && dt >= 0.0
      modifies this`inactivityTimer, this`isTransitioning, this`routine, this`fadeDone, fade
      ensures Valid()
      ensures !(old(routine) == AwaitingFadeOut && old(fadeDone)) ==> unchanged(this) && FadeUnchanged()
      ensures old(Stalled()) ==> Stalled()
      ensures old(routine) == AwaitingFadeOut && old(fadeDone) ==>
                && inactivityTimer == 0.0 && !isTransitioning && routine == NotRunning
                && (!old(fade.isTransitioning) && fadeTime > 0.0 ==>
                      fade.run == Some(Fade.FadeRun(false, fadeTime, dt, None)))
                && (!old(fade.isTransitioning) && fadeTime <= 0.0 ==>
                      !fade.isTransitioning && fade.alpha == 0.0 && fade.sortingOrder == Fade.BackOrder)
                && (old(fade.isTransitioning) ==> FadeUnchanged())
    {
      if routine == AwaitingFadeOut && fadeDone {
        inactivityTimer := 0.0;
        isTransitioning := false;
        routine := NotRunning;
        fadeDone := false;
        var _ := fade.FadeIn(fadeTime, None, dt);
      }
    }

    /**
     * One frame. D toggles the control panel and hides the reporter when
     * there is one; only when that branch is not taken does M toggle the
     * cursor. The keys work during a transition, but the timer then neither
     * grows nor resets. Otherwise a key or touch resets it, and a quiet frame
     * adds dt and returns to the title once the limit is reached.
     */
    method Update(input: FrameInput)
      requires Valid() && input.deltaTime >= 0.0
      modifies this, reporter, fade
      ensures Valid()
      ensures input.dDown && reporter != null ==>
                && reporter.showGameManagerControl == !old(reporter.showGameManagerControl)
                && !reporter.show && cursorVisible == old(cursorVisible)
      ensures !(input.dDown && reporter != null) && input.mDown ==> cursorVisible == !old(cursorVisible)
      ensures !(input.dDown && reporter != null) && !input.mDown ==> cursorVisible == old(cursorVisible)
      ensures !(input.dDown && reporter != null) && reporter != null ==> unchanged(reporter)
      ensures old(isTransitioning) ==>
                && inactivityTimer == old(inactivityTimer) && routine == old(routine) && fadeDone == old(fadeDone)
                && FadeUnchanged()
      ensures old(Stalled()) ==> Stalled() && isTransitioning
      ensures !old(isTransitioning) && (input.anyKey || input.touchCount > 0) ==>
                inactivityTimer == 0.0 && !isTransitioning && FadeUnchanged()
      ensures !old(isTransitioning) && !(input.anyKey || input.touchCount > 0)
              && old(inactivityTimer) + input.deltaTime < inactivityLimit ==>
                inactivityTimer == old(inactivityTimer) + input.deltaTime && !isTransitioning && FadeUnchanged()
      ensures !old(isTransitioning) && !(input.anyKey || input.touchCount > 0)
              && old(inactivityTimer) + input.deltaTime >= inactivityLimit ==>
                ReturnedToTitle(input.deltaTime, old(inactivityTimer) + input.deltaTime)
      ensures inactivityLimit == old(inactivityLimit) && fadeTime == old(fadeTime)
    {
      if input.dDown && reporter != null {
        reporter.showGameManagerControl := !reporter.showGameManagerControl;
        if reporter.show {
          reporter.show := false;
        }
      } else if input.mDown {
        cursorVisible := !cursorVisible;
      }
      if isTransitioning {
        return;
      }
      HandleInactivity(input);
    }

    method HandleInactivity(input: FrameInput)
      requires Valid() && !isTransitioning && input.deltaTime >= 0.0
      modifies this, fade
      ensures Valid()
      ensures cursorVisible == old(cursorVisible) && inactivityLimit == old(inactivityLimit) && fadeTime == old(fadeTime)
      ensures input.anyKey || input.touchCount > 0 ==> inactivityTimer == 0.0 && !isTransitioning && FadeUnchanged()
      ensures !(input.anyKey || input.touchCount > 0) && old(inactivityTimer) + input.deltaTime < inactivityLimit ==>
                inactivityTimer == old(inactivityTimer) + input.deltaTime && !isTransitioning && FadeUnchanged()
      ensures !(input.anyKey || input.touchCount > 0) && old(inactivityTimer) + input.deltaTime >= inactivityLimit ==>
                ReturnedToTitle(input.deltaTime, old(inactivityTimer) + input.deltaTime)
    {
      if input.anyKey || input.touchCount > 0 {
        inactivityTimer := 0.0;
      } else {
        inactivityTimer := inactivityTimer + input.deltaTime;
        if inactivityTimer >= inactivityLimit {
          ReturnToTitle(input.deltaTime);
        }
      }
    }
  }

  /**
   * A stalled return routine stays stalled whatever the frames bring (each
   * frame: Update, the fade manager's routine, then the return routine): the
   * manager keeps isTransitioning set and its inactivity timer frozen.
   */
  method StalledForever(gm: GameManager, frames: seq<FrameInput>)
    requires gm.Valid() && gm.Stalled()
    requires forall i :: 0 <= i < |frames| ==> frames[i].deltaTime >= 0.0
    modifies gm, gm.reporter, gm.fade
    ensures gm.Valid() && gm.Stalled() && gm.isTransitioning && gm.inactivityTimer == old(gm.inactivityTimer)
  {
    var i := 0;
    while i < |frames|
      invariant 0 <= i <= |frames|
      invariant gm.Valid() && gm.Stalled() && gm.inactivityTimer == old(gm.inactivityTimer)
    {
      gm.Update(frames[i]);
      gm.FadeFrame(frames[i].deltaTime);
      gm.ResumeRoutine(frames[i].deltaTime);
      i := i + 1;
    }
  }

  /**
   * The stall is reachable: with a zero inactivity limit, the first quiet
   * frame after a one-second fade-in started asks for a fade-out the fade
   * manager refuses.
   */
  method StallDuringFadeIn() returns (gm: GameManager)
    ensures gm.Valid() && gm.Stalled() && gm.isTransitioning
  {
    var fade := new Fade.FadeManager.CreateFadeUI();
    var _ := fade.FadeIn(1.0, None, 0.0);
    var settings := TemplateData.Settings(0.0, 1.0, None, None);
    gm := new GameManager.Start(fade, null, Some(settings));
    gm.Update(FrameInput(false, false, false, 0, 0.1));
  }
}
