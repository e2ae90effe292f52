/**
 * The debug build's usage checker. A misuse makes the source print a
 * diagnostic and terminate the process; here the check returns Abort with
 * that diagnostic, and a caller that receives Abort goes no further.
 */
module Debug {

  datatype Outcome = Pass | Abort(message: string)

  const InitTwiceMessage: string := "DebugStateTracker::init() called twice"
  const AddBeforeInitMessage: string := "add() called before init()"
  const NothingToLogMessage: string := "print_current() called without ever adding events"

  class DebugStateTracker {
    var initialized: bool
    var numberOfEvents: int

    constructor ()
      ensures !initialized && numberOfEvents == 0
    {
      initialized := false;
      numberOfEvents := 0;
    }

    method DebugReset()
      modifies this
      ensures !initialized && numberOfEvents == 0
    {
      initialized := false;
      numberOfEvents := 0;
    }

    /** Marks the tracker initialized; a second call without a reset in between is a misuse. */
    method DebugInit() returns (o: Outcome)
      modifies this
      ensures o == (if old(initialized) then Abort(InitTwiceMessage) else Pass)
      ensures initialized && numberOfEvents == old(numberOfEvents)
    {
      if initialized {
        return Abort(InitTwiceMessage);
      }
      initialized := true;
      o := Pass;
    }

    /** Events may only be added to an initialized tracker. */
    method DebugCheckIfInitialized() returns (o: Outcome)
      ensures o.Pass? <==> initialized
      ensures o.Abort? ==> o.message == AddBeforeInitMessage
    {
      if !initialized {
        return Abort(AddBeforeInitMessage);
      }
      o := Pass;
    }

    method DebugAddEvent()
      modifies this
      ensures numberOfEvents == old(numberOfEvents) + 1 && initialized == old(initialized)
    {
      numberOfEvents := numberOfEvents + 1;
    }

    /** The first event marks initialization, so there is something to print only from the second on. */
    method DebugCheckIfLoggable() returns (o: Outcome)
      ensures o.Pass? <==> numberOfEvents > 1
      ensures o.Abort? ==> o.message == NothingToLogMessage
    {
      if numberOfEvents <= 1 {
        return Abort(NothingToLogMessage);
      }
      o := Pass;
    }
  }

  /** A second initialization without a reset in between aborts; after a reset it passes again. */
  method InitTwiceWithoutReset() returns (first: Outcome, second: Outcome, afterReset: Outcome)
    ensures first == Pass
    ensures second == Abort(InitTwiceMessage)
    ensures afterReset == Pass
  {
    var t := new DebugStateTracker();
    first := t.DebugInit();
    second := t.DebugInit();
    t.DebugReset();
    afterReset := t.DebugInit();
  }
}
