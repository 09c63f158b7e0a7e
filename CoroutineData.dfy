/**
 * CoroutineData: the shared yield instructions. WaitForSeconds objects are
 * memoised per duration, so every request for the same duration gets the
 * same object.
 */
module CoroutineData {

  class WaitForSeconds {
    const seconds: real

    constructor (seconds: real)
      ensures this.seconds == seconds
    {
      this.seconds := seconds;
    }
  }

  class WaitForEndOfFrame {
    constructor ()
    {
    }
  }

  class CoroutineData {
    var waitForSeconds: map<real, WaitForSeconds>
    const waitForEndOfFrame: WaitForEndOfFrame

    /** Every memoised instruction waits for the duration it is stored under. */
    ghost predicate Valid()
      reads this, set k | k in waitForSeconds :: waitForSeconds[k]
    {
      forall k :: k in waitForSeconds ==> waitForSeconds[k].seconds == k
    }

    constructor ()
      ensures Valid() && waitForSeconds == map[]
    {
      waitForSeconds := map[];
      waitForEndOfFrame := new WaitForEndOfFrame();
    }

    /**
     * The instruction for a duration: the stored one when the duration was
     * asked for before, otherwise a new one, which is stored.
     */
    method GetWaitForSeconds(seconds: real) returns (w: WaitForSeconds)
      requires Valid()
      modifies this`waitForSeconds
      ensures Valid()
      ensures w.seconds == seconds
      ensures seconds in old(waitForSeconds) ==> w == old(waitForSeconds[seconds]) && waitForSeconds == old(waitForSeconds)
      ensures seconds !in old(waitForSeconds) ==> fresh(w) && waitForSeconds == old(waitForSeconds)[seconds := w]
    {
      if seconds !in waitForSeconds {
        var created := new WaitForSeconds(seconds);
        waitForSeconds := waitForSeconds[seconds := created];
      }
      w := waitForSeconds[seconds];
    }
  }

  /** Two requests for one duration, with any requests between them, return the same object. */
  method SameInstance(data: CoroutineData, seconds: real, between: seq<real>) returns (first: WaitForSeconds, second: WaitForSeconds)
    requires data.Valid()
    modifies data`waitForSeconds
    ensures data.Valid() && first == second && first.seconds == seconds
  {
    first := data.GetWaitForSeconds(seconds);
    var i := 0;
    while i < |between|
      invariant 0 <= i <= |between|
      invariant data.Valid() && seconds in data.waitForSeconds && data.waitForSeconds[seconds] == first
    {
      var _ := data.GetWaitForSeconds(between[i]);
      i := i + 1;
    }
    second := data.GetWaitForSeconds(seconds);
  }
}
