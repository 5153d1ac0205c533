/**
 * The `SpinWheel` component as a state machine: its React state fields, the flag
 * it keeps in local storage, the scroll trigger that reveals it, and the handlers
 * `spin`, the deferred completion of a spin, `close` and `copyCode`.
 */
module SpinWheelComponent {
  import opened Wrappers
  import opened Wheel

  class SpinWheel {
    /** The pop-up is on screen. */
    var show: bool
    /** A spin is under way: its completion callback has not run yet. */
    var spinning: bool
    /** The cumulative clockwise rotation of the wheel face, in degrees. */
    var rotation: real
    /** The announced outcome, "free" or "20", or none. */
    var result: Option<string>
    /** A free spin has been granted in this session. */
    var hadFreeSpin: bool
    /** The discount code was just copied. */
    var copied: bool
    /** Local storage holds the "rlr-wheel-done" key. */
    var wheelDone: bool
    /** The scroll handler that reveals the pop-up is installed. */
    var revealArmed: bool
    /** The slice captured by the completion callback of the spin under way. */
    var pending: Option<nat>

    ghost predicate Valid()
      reads this
    {
      (spinning <==> pending.Some?) &&
      (pending.Some? ==>
         pending.value < |Segments| && Segments[pending.value].value in {"free", "20"} &&
         (hadFreeSpin ==> Segments[pending.value].value == "20") &&
         SegmentAt(rotation) == pending.value) &&
      (result.Some? ==> result.value in {"free", "20"}) &&
      (result == Some("free") ==> hadFreeSpin) &&
      (result == Some("20") ==> wheelDone) &&
      (revealArmed ==> !show) &&
      rotation >= 0.0
    }

    /**
     * Mounting the component with `storedDone` telling whether local storage holds
     * the done flag: the scroll trigger is installed only when it does not.
     */
    constructor (storedDone: bool)
      ensures Valid()
      ensures !show && !spinning && rotation == 0.0 && result == None && !hadFreeSpin && !copied
      ensures wheelDone == storedDone && revealArmed == !storedDone && pending == None
    {
      show, spinning, rotation, result, hadFreeSpin, copied := false, false, 0.0, None, false, false;
      wheelDone, revealArmed, pending := storedDone, !storedDone, None;
    }

    /**
     * A scroll event: once the page is scrolled past half the viewport height the
     * installed handler shows the pop-up and removes itself.
     */
    method OnScroll(scrollY: real, innerHeight: real)
      requires Valid()
      modifies this
      ensures Valid()
      ensures show == (old(show) || (old(revealArmed) && scrollY > innerHeight * 0.5))
      ensures revealArmed == (old(revealArmed) && scrollY <= innerHeight * 0.5)
      ensures spinning == old(spinning) && rotation == old(rotation) && result == old(result)
      ensures hadFreeSpin == old(hadFreeSpin) && copied == old(copied)
      ensures wheelDone == old(wheelDone) && pending == old(pending)
    {
      if revealArmed && scrollY > innerHeight * 0.5 {
        show := true;
        revealArmed := false;
      }
    }

    /**
     * `spin()`: ignored while a spin is under way; otherwise it starts one towards
     * the rigged target slice, clears the result and turns the wheel forward.
     */
    method Spin(d: Draws)
      requires Valid() && ValidDraws(d)
      modifies this
      ensures Valid()
      ensures old(spinning) ==> spinning && rotation == old(rotation) && result == old(result) && pending == old(pending)
      ensures !old(spinning) ==>
        var idx := TargetIndex(old(hadFreeSpin), d.freeRoll, d.coinRoll);
        spinning && result == None && pending == Some(idx) &&
        rotation == NextRotation(old(rotation), idx, d) &&
        old(rotation) + 1800.0 <= rotation < old(rotation) + 2880.0 &&
        SegmentAt(rotation) == idx
      ensures show == old(show) && hadFreeSpin == old(hadFreeSpin) && copied == old(copied)
      ensures wheelDone == old(wheelDone) && revealArmed == old(revealArmed)
    {
      if spinning {
        return;
      }
      spinning := true;
      result := None;
      var targetIdx := TargetIndex(hadFreeSpin, d.freeRoll, d.coinRoll);
      SpinAdvance(rotation, targetIdx, d);
      LandsOnTarget(rotation, targetIdx, d);
      rotation := NextRotation(rotation, targetIdx, d);
      pending := Some(targetIdx);
    }

    /**
     * The completion callback of a spin: the spin ends; a free-spin slice grants
     * the free spin, any other slice announces 20% off and sets the done flag.
     * Either way the announced outcome is the slice under the pointer.
     */
    method SettleSpin()
      requires Valid() && spinning
      modifies this
      ensures Valid()
      ensures !spinning && pending == None
      ensures result == Some(Segments[SegmentAt(rotation)].value)
      ensures old(Segments[pending.value].value) == "free" ==>
        hadFreeSpin && result == Some("free") && wheelDone == old(wheelDone)
      ensures old(Segments[pending.value].value) != "free" ==>
        result == Some("20") && wheelDone && hadFreeSpin == old(hadFreeSpin)
      ensures show == old(show) && rotation == old(rotation) && copied == old(copied)
      ensures revealArmed == old(revealArmed)
    {
      var targetIdx := pending.value;
      spinning := false;
      pending := None;
      if Segments[targetIdx].value == "free" {
        hadFreeSpin := true;
        result := Some("free");
      } else {
        result := Some("20");
        wheelDone := true;
      }
    }

    /**
     * `close()`: hides the pop-up and sets the done flag.  A pop-up that was on
     * screen has no scroll trigger left, so it stays hidden for the session, and
     * later mounts see the flag and install none.
     */
    method Close()
      requires Valid()
      modifies this
      ensures Valid()
      ensures !show && wheelDone
      ensures old(show) ==> !revealArmed
      ensures spinning == old(spinning) && rotation == old(rotation) && result == old(result)
      ensures hadFreeSpin == old(hadFreeSpin) && copied == old(copied)
      ensures revealArmed == old(revealArmed) && pending == old(pending)
    {
      show := false;
      wheelDone := true;
    }

    /** `copyCode()`: marks the code as copied (the clipboard write is not modelled). */
    method CopyCode()
      requires Valid()
      modifies this`copied
      ensures Valid() && copied
    {
      copied := true;
    }

    /** The timer `copyCode` schedules: the "Copied!" label reverts. */
    method CopiedExpired()
      requires Valid()
      modifies this`copied
      ensures Valid() && !copied
    {
      copied := false;
    }
  }

  /**
   * The first visit of a session, end to end: scrolling past half a screen shows
   * the pop-up, a spin grants a free spin, then the spin it allows can only be
   * 20% off and sets the done flag.
   */
  method FreeSpinThenDiscount(first: Draws, second: Draws)
    returns (shown: bool, before: Option<string>, after: Option<string>, done: bool)
    requires ValidDraws(first) && ValidDraws(second) && first.freeRoll < 0.35
    ensures shown && before == Some("free") && after == Some("20") && done
  {
    var w := new SpinWheel(false);
    w.OnScroll(1000.0, 800.0);
    shown := w.show;
    w.Spin(first);
    w.SettleSpin();
    before := w.result;
    w.Spin(second);
    w.SettleSpin();
    after := w.result;
    done := w.wheelDone;
  }

  /** One event the pop-up can receive. */
  datatype Event =
    | Scrolled(scrollY: real, innerHeight: real)
    | SpinClicked(draws: Draws)
    | SpinSettled
    | CloseClicked
    | CopyClicked
    | CopyExpired

  /**
   * A later visit, with the done flag already in local storage: whatever the
   * visitor does, the pop-up is never shown, because no scroll trigger is installed.
   */
  method ReturningVisitStaysHidden(events: seq<Event>) returns (shown: bool)
    requires forall e :: e in events && e.SpinClicked? ==> ValidDraws(e.draws)
    ensures !shown
  {
    var w := new SpinWheel(true);
    for i := 0 to |events|
      invariant w.Valid() && !w.show && !w.revealArmed
    {
      match events[i]
      case Scrolled(y, h) => w.OnScroll(y, h);
      case SpinClicked(d) => w.Spin(d);
      case SpinSettled => if w.spinning { w.SettleSpin(); }
      case CloseClicked => w.Close();
      case CopyClicked => w.CopyCode();
      case CopyExpired => w.CopiedExpired();
    }
    shown := w.show;
  }
}
