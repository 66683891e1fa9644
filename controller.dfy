// The controller as src/main.cpp keeps it: global relay objects, the current
// phase and the unload latch, updated in place by loop() and the seven
// handlers. Each method is proved to leave the state its pure counterpart in
// Handlers or Sequencer describes.

module Controller {
  import opened Types
  import Handlers
  import Sequencer

  class BaleWagon {
    // The six relays (src/main.cpp:6-11); turnOn/turnOff are writes of true/false.
    var pushArmOut: bool
    var pushArmIn: bool
    var sweepArmOut: bool
    var sweepArmIn: bool
    var loadChain: bool
    var unloadChain: bool
    // _machineState (src/main.cpp:25) and unloadSwitchHasOpened (src/main.cpp:39).
    var phase: Phase
    var unloadSwitchHasOpened: bool

    function Outputs(): Relays
      reads this
    {
      Relays(pushArmOut, pushArmIn, sweepArmOut, sweepArmIn, loadChain, unloadChain)
    }

    function State(): Sequencer.Machine
      reads this
    {
      Sequencer.Machine(phase, Outputs(), unloadSwitchHasOpened)
    }

    /** setup() (src/main.cpp:41-48): start in Home with the latch cleared. */
    constructor (initial: Relays)
      ensures State() == Sequencer.Initial(initial)
    {
      pushArmOut, pushArmIn := initial.pushArmOut, initial.pushArmIn;
      sweepArmOut, sweepArmIn := initial.sweepArmOut, initial.sweepArmIn;
      loadChain, unloadChain := initial.loadChain, initial.unloadChain;
      phase := Home;
      unloadSwitchHasOpened := false;
    }

    method DoHome(sw: Switches) returns (done: bool)
      modifies this
      ensures Outcome(Outputs(), done) == Handlers.Home(old(Outputs()), sw)
      ensures phase == old(phase) && unloadSwitchHasOpened == old(unloadSwitchHasOpened)
    {
      loadChain := false;
      pushArmOut := false;
      sweepArmOut := false;

      if !sw.pushArmIn {
        pushArmIn := true;
        return false;
      } else {
        pushArmIn := false;
      }

      if !sw.sweepArmIn {
        sweepArmIn := true;
        return false;
      } else {
        sweepArmIn := false;
      }

      if !sw.unloadChain {
        unloadChain := true;
        return false;
      } else {
        unloadChain := false;
      }

      return true;
    }

    method DoLoad(sw: Switches) returns (done: bool)
      modifies this
      ensures Outcome(Outputs(), done) == Handlers.Load(old(Outputs()), sw)
      ensures phase == old(phase) && unloadSwitchHasOpened == old(unloadSwitchHasOpened)
    {
      unloadChain := false;
      pushArmIn := false;
      pushArmOut := false;
      sweepArmIn := false;
      sweepArmOut := false;

      if !sw.baleRowReady {
        loadChain := true;
        return false;
      } else {
        loadChain := false;
        return true;
      }
    }

    method DoPushArmOut(sw: Switches) returns (done: bool)
      modifies this
      ensures Outcome(Outputs(), done) == Handlers.PushArmOut(old(Outputs()), sw)
      ensures phase == old(phase) && unloadSwitchHasOpened == old(unloadSwitchHasOpened)
    {
      loadChain := false;
      unloadChain := false;
      pushArmIn := false;
      sweepArmIn := false;
      sweepArmOut := false;

      if !sw.pushArmOut && !sw.loadIsFull {
        pushArmOut := true;
        return false;
      } else {
        pushArmOut := false;
        return true;
      }
    }

    method DoPushArmIn(sw: Switches) returns (done: bool)
      modifies this
      ensures Outcome(Outputs(), done) == Handlers.PushArmIn(old(Outputs()), sw)
      ensures phase == old(phase) && unloadSwitchHasOpened == old(unloadSwitchHasOpened)
    {
      loadChain := false;
      unloadChain := false;
      pushArmOut := false;
      sweepArmIn := false;
      sweepArmOut := false;

      if !sw.pushArmIn {
        pushArmIn := true;
        return false;
      } else {
        pushArmIn := false;
        return true;
      }
    }

    method DoSweepArmOut(sw: Switches) returns (done: bool)
      modifies this
      ensures Outcome(Outputs(), done) == Handlers.SweepArmOut(old(Outputs()), sw)
      ensures phase == old(phase) && unloadSwitchHasOpened == old(unloadSwitchHasOpened)
    {
      loadChain := false;
      unloadChain := false;
      pushArmIn := false;
      pushArmOut := false;
      sweepArmIn := false;

      if !sw.sweepArmOut {
        sweepArmOut := true;
        return false;
      } else {
        sweepArmOut := false;
        return true;
      }
    }

    method DoSweepArmIn(sw: Switches) returns (done: bool)
      modifies this
      ensures Outcome(Outputs(), done) == Handlers.SweepArmIn(old(Outputs()), sw)
      ensures phase == old(phase) && unloadSwitchHasOpened == old(unloadSwitchHasOpened)
    {
      loadChain := false;
      unloadChain := false;
      pushArmIn := false;
      pushArmOut := false;
      sweepArmOut := false;

      if !sw.sweepArmIn {
        sweepArmIn := true;
        return false;
      } else {
        sweepArmIn := false;
        return true;
      }
    }

    method DoUnload(sw: Switches) returns (done: bool)
      modifies this
      ensures Unloaded(Outcome(Outputs(), done), unloadSwitchHasOpened)
        == Handlers.Unload(old(Outputs()), old(unloadSwitchHasOpened), sw)
      ensures phase == old(phase)
    {
      loadChain := false;
      pushArmIn := false;
      pushArmOut := false;
      sweepArmIn := false;
      sweepArmOut := false;

      // The chain runs unconditionally; only completion stops it.
      unloadChain := true;

      // Still at rest before the stroke: the switch has not opened yet.
      if !unloadSwitchHasOpened && sw.unloadChain {
        return false;
      }

      unloadSwitchHasOpened := true;

      // In transit: the switch is open.
      if !sw.unloadChain {
        return false;
      }

      // Closed again after having opened: the stroke is over.
      unloadSwitchHasOpened := false;
      unloadChain := false;
      return true;
    }

    /** One call of loop() (src/main.cpp:50-123) on this tick's switch readings. */
    method Tick(sw: Switches)
      modifies this
      ensures State() == Sequencer.Step(old(State()), sw)
    {
      match phase
      case Home =>
        var done := DoHome(sw);
        if done {
          phase := Load;
        }
      case Load =>
        var done := DoLoad(sw);
        if done {
          if sw.rowSwept {
            phase := PushArmOut;
          } else {
            phase := SweepArmOut;
          }
        }
      case SweepArmOut =>
        var done := DoSweepArmOut(sw);
        if done {
          phase := SweepArmIn;
        }
      case SweepArmIn =>
        var done := DoSweepArmIn(sw);
        if done {
          phase := Load;
        }
      case PushArmOut =>
        var done := DoPushArmOut(sw);
        if done {
          phase := PushArmIn;
        }
      case PushArmIn =>
        var done := DoPushArmIn(sw);
        if done {
          if sw.loadIsFull {
            unloadSwitchHasOpened := false;
            phase := Unload;
          } else {
            phase := Load;
          }
        }
      case Unload =>
        var done := DoUnload(sw);
        if done {
          phase := Load;
        }
    }
  }
}
