/**
 * GameCloser: a hidden button that quits the application after a number
 * of clicks made without a pause as long as the reset time.
 */
module Closer {
  import opened Wrappers
  import TemplateData

  /** The button's placement and tint, where InitializeUI writes the settings. */
  class RectTransform {
    var anchorMin: TemplateData.Vector2
    var anchorMax: TemplateData.Vector2
    var pivot: TemplateData.Vector2
    var anchoredPosition: TemplateData.Vector2
    /** The alpha of the Image on the same object; None when there is no Image. */
    var imageAlpha: Option<real>

    constructor (hasImage: bool)
      ensures imageAlpha == (if hasImage then Some(1.0) else None)
    {
      var centre := TemplateData.Vector2(0.5, 0.5);
      anchorMin, anchorMax, pivot := centre, centre, centre;
      anchoredPosition := TemplateData.Vector2(0.0, 0.0);
      imageAlpha := if hasImage then Some(1.0) else None;
    }
  }

  class GameCloser {
    /** The serialised reference, or the component's own RectTransform; null when it has none. */
    const rectTransform: RectTransform?
    var closeSetting: Option<TemplateData.CloseSetting>
    /** Behaviour.enabled: the engine calls Update only while it is set. */
    var enabled: bool
    var clickCount: int
    var timer: real
    var counting: bool

    /** Counting starts with a click, and only with a close setting; at rest nothing is counted. */
    ghost predicate Valid()
      reads this
    {
      && timer >= 0.0
      && (!counting ==> clickCount == 0 && timer == 0.0)
      && (counting ==> closeSetting.Some? && clickCount >= 1)
    }

    /**
     * Start: the close setting comes from the settings file, when there is
     * one. Without a close setting the component disables itself; with one,
     * the button is anchored at its position and the image takes its alpha.
     */
    constructor Start(rectTransform: RectTransform?, settings: Option<TemplateData.Settings>)
      modifies rectTransform
      ensures Valid() && this.rectTransform == rectTransform
      ensures clickCount == 0 && !counting && timer == 0.0
      ensures settings.Some? ==> closeSetting == settings.value.closeSetting
      ensures settings.None? ==> closeSetting == None
      ensures enabled <==> closeSetting.Some?
      ensures closeSetting.None? && rectTransform != null ==> unchanged(rectTransform)
      ensures closeSetting.Some? && rectTransform != null ==>
                var p := closeSetting.value.position;
                && rectTransform.anchorMin == p && rectTransform.anchorMax == p && rectTransform.pivot == p
                && rectTransform.anchoredPosition == TemplateData.Vector2(0.0, 0.0)
                && rectTransform.imageAlpha == (if old(rectTransform.imageAlpha).Some? then Some(closeSetting.value.imageAlpha) else None)
    {
      this.rectTransform := rectTransform;
      clickCount := 0;
      timer := 0.0;
      counting := false;
      var loaded := if settings.Some? then settings.value.closeSetting else None;
      closeSetting := loaded;
      enabled := loaded.Some?;
      new;
      if closeSetting.Some? && rectTransform != null {
        var p := closeSetting.value.position;
        rectTransform.anchorMin := p;
        rectTransform.anchorMax := p;
        rectTransform.pivot := p;
        rectTransform.anchoredPosition := TemplateData.Vector2(0.0, 0.0);
        if rectTransform.imageAlpha.Some? {
          rectTransform.imageAlpha := Some(closeSetting.value.imageAlpha);
        }
      }
    }

    /**
     * A click on the button: ignored without a close setting; otherwise it
     * starts or continues the count, and quit is asked for once the count
     * reaches the configured number.
     */
    method Click() returns (quit: bool)
      requires Valid()
      modifies this`counting, this`clickCount
      ensures Valid()
      ensures closeSetting.None? ==> unchanged(this) && !quit
      ensures closeSetting.Some? ==> counting && clickCount == old(clickCount) + 1 && timer == old(timer)
      ensures quit <==> closeSetting.Some? && old(clickCount) + 1 >= closeSetting.value.numToClose
    {
      if closeSetting.None? {
        return false;
      }
      counting := true;
      clickCount := clickCount + 1;
      quit := clickCount >= closeSetting.value.numToClose;
    }

    /** Drops the count and its timer. */
    method ResetClickCount()
      modifies this`clickCount, this`timer, this`counting
      ensures Valid()
      ensures clickCount == 0 && timer == 0.0 && !counting
    {
      clickCount := 0;
      timer := 0.0;
      counting := false;
    }

    /**
     * One frame: nothing while disabled or not counting; otherwise dt is
     * added and, once the reset time is reached, the count is dropped.
     */
    method Update(dt: real)
      requires Valid() && dt >= 0.0
      modifies this`clickCount, this`timer, this`counting
      ensures Valid()
      ensures !enabled || !old(counting) ==> unchanged(this)
      ensures enabled && old(counting) && old(timer) + dt < closeSetting.value.resetClickTime ==>
                timer == old(timer) + dt && counting && clickCount == old(clickCount)
      ensures enabled && old(counting) && old(timer) + dt >= closeSetting.value.resetClickTime ==>
                timer == 0.0 && !counting && clickCount == 0
    {
      if !enabled || !counting {
        return;
      }
      timer := timer + dt;
      if timer >= closeSetting.value.resetClickTime {
        ResetClickCount();
      }
    }
  }

  /**
   * Clicks in one burst, with no frame between them, from a reset count:
   * the burst asks for quit exactly when it is at least as long as the
   * configured number, with a single click always enough for a number of at
   * most one.
   */
  method ClickBurst(closer: GameCloser, n: nat) returns (quit: bool)
    requires closer.Valid() && !closer.counting && closer.closeSetting.Some? && n >= 1
    modifies closer`counting, closer`clickCount
    ensures closer.Valid() && closer.clickCount == n && closer.counting
    ensures quit <==> n >= closer.closeSetting.value.numToClose
  {
    var i := 0;
    quit := false;
    while i < n
      invariant 0 <= i <= n
      invariant closer.Valid() && closer.clickCount == i && closer.closeSetting == old(closer.closeSetting)
      invariant i > 0 ==> closer.counting
      invariant quit <==> i >= 1 && i >= closer.closeSetting.value.numToClose
    {
      quit := closer.Click();
      i := i + 1;
    }
  }
}
