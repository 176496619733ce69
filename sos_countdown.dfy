/** The emergency SOS button of the client app: pressing it starts a
    three-second countdown driven by a one-second interval, after which the
    emergency is triggered and a 30-second timer resets the button. Timers
    are modelled by counting the live intervals and the pending resets; each
    firing is a method call. */
module SosCountdown {

  datatype Mode = Idle | Confirming | Broadcasting

  class SosButton {
    var isSOSActive: bool
    var countdown: int
    /** Intervals started by presses and not yet cleared. */
    var liveIntervals: nat
    /** Reset timeouts scheduled by triggers and not yet fired. */
    var pendingResets: nat
    /** How many times the emergency has been triggered. */
    var triggered: nat

    ghost predicate Valid()
      reads this
    {
      0 <= countdown <= 3 && (countdown > 0 ==> liveIntervals > 0)
    }

    constructor ()
      ensures Valid()
      ensures !isSOSActive && countdown == 0 && liveIntervals == 0 && pendingResets == 0 && triggered == 0
    {
      isSOSActive := false;
      countdown := 0;
      liveIntervals := 0;
      pendingResets := 0;
      triggered := 0;
    }

    /** Which card is rendered. */
    function RenderMode(): (m: Mode)
      reads this
      ensures m == Confirming <==> isSOSActive && countdown > 0
      ensures m == Broadcasting <==> isSOSActive && countdown <= 0
      ensures m == Idle <==> !isSOSActive
    {
      if isSOSActive && countdown > 0 then Confirming
      else if isSOSActive then Broadcasting
      else Idle
    }

    /** `handleSOSPress`: ignored while active; otherwise activates, sets the
        countdown to 3 and starts a new interval. */
    method Press()
      requires Valid()
      modifies this
      ensures Valid()
      ensures old(isSOSActive) ==>
        isSOSActive && countdown == old(countdown) && liveIntervals == old(liveIntervals)
        && pendingResets == old(pendingResets) && triggered == old(triggered)
      ensures !old(isSOSActive) ==>
        && isSOSActive && countdown == 3 && liveIntervals == old(liveIntervals) + 1
        && pendingResets == old(pendingResets) && triggered == old(triggered)
        && RenderMode() == Confirming
    {
      if isSOSActive {
        return;
      }
      isSOSActive := true;
      countdown := 3;
      liveIntervals := liveIntervals + 1;
    }

    /** One firing of one live interval: at 1 or below the interval clears
        itself, the emergency is triggered (scheduling a reset) and the
        countdown becomes 0; above 1 the countdown goes down by one. The
        active flag is not consulted. */
    method Tick()
      requires Valid() && liveIntervals > 0
      modifies this
      ensures Valid()
      ensures isSOSActive == old(isSOSActive)
      ensures old(countdown) <= 1 ==>
        && countdown == 0 && liveIntervals == old(liveIntervals) - 1
        && triggered == old(triggered) + 1 && pendingResets == old(pendingResets) + 1
      ensures old(countdown) > 1 ==>
        && countdown == old(countdown) - 1 && liveIntervals == old(liveIntervals)
        && triggered == old(triggered) && pendingResets == old(pendingResets)
    {
      if countdown <= 1 {
        liveIntervals := liveIntervals - 1;
        triggered := triggered + 1;
        pendingResets := pendingResets + 1;
        countdown := 0;
      } else {
        countdown := countdown - 1;
      }
    }

    /** `cancelSOS`: back to idle with the countdown at 0, but the interval
        is left running. */
    method Cancel()
      requires Valid()
      modifies this
      ensures Valid()
      ensures !isSOSActive && countdown == 0 && RenderMode() == Idle
      ensures liveIntervals == old(liveIntervals) && pendingResets == old(pendingResets) && triggered == old(triggered)
    {
      isSOSActive := false;
      countdown := 0;
    }

    /** The 30-second timeout scheduled by a trigger. */
    method ResetTimeout()
      requires Valid() && pendingResets > 0
      modifies this
      ensures Valid()
      ensures !isSOSActive && pendingResets == old(pendingResets) - 1
      ensures countdown == old(countdown) && liveIntervals == old(liveIntervals) && triggered == old(triggered)
    {
      isSOSActive := false;
      pendingResets := pendingResets - 1;
    }
  }

  /** Pressing and letting three seconds pass triggers the emergency once and
      shows the broadcasting card. */
  method PressAndWait() returns (mode: Mode, triggered: nat)
    ensures mode == Broadcasting && triggered == 1
  {
    var b := new SosButton();
    b.Press();
    b.Tick();
    b.Tick();
    b.Tick();
    mode := b.RenderMode();
    triggered := b.triggered;
  }

  /** Cancelling during the countdown does not stop it: the next firing of
      the interval still triggers the emergency, from the idle card. */
  method CancelDoesNotStopCountdown() returns (mode: Mode, triggered: nat)
    ensures mode == Idle && triggered == 1
  {
    var b := new SosButton();
    b.Press();
    b.Tick();
    b.Cancel();
    b.Tick();
    mode := b.RenderMode();
    triggered := b.triggered;
  }

  /** Pressing again after a cancel starts a second interval beside the
      first one, and the emergency is triggered twice. */
  method PressAfterCancelTriggersTwice() returns (triggered: nat)
    ensures triggered == 2
  {
    var b := new SosButton();
    b.Press();
    b.Cancel();
    b.Press();
    b.Tick();
    b.Tick();
    b.Tick();
    b.Tick();
    triggered := b.triggered;
  }
}
