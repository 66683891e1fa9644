// Values shared by the bale-wagon controller: its phases, one tick's switch
// readings, and the state of its six relays.

module Types {

  /** The seven operating phases of the wagon (src/main.cpp:24). */
  datatype Phase = Home | Load | SweepArmOut | SweepArmIn | PushArmOut | PushArmIn | Unload

  /**
   * One tick's debounced readings of the eight limit switches; `true` means the
   * switch reads pressed. The readings are taken once at the start of a tick
   * and do not change while the handlers run.
   */
  datatype Switches = Switches(
    pushArmIn: bool,
    pushArmOut: bool,
    sweepArmIn: bool,
    sweepArmOut: bool,
    unloadChain: bool,
    baleRowReady: bool,
    loadIsFull: bool,
    rowSwept: bool)

  /** Names of the six relays, used to speak about "every relay but this one". */
  datatype RelayId =
    | PushArmOutRelay
    | PushArmInRelay
    | SweepArmOutRelay
    | SweepArmInRelay
    | LoadChainRelay
    | UnloadChainRelay

  /** The state of the six relays; `true` means the relay is switched on. */
  datatype Relays = Relays(
    pushArmOut: bool,
    pushArmIn: bool,
    sweepArmOut: bool,
    sweepArmIn: bool,
    loadChain: bool,
    unloadChain: bool)
  {
    function Get(id: RelayId): bool {
      match id
      case PushArmOutRelay => pushArmOut
      case PushArmInRelay => pushArmIn
      case SweepArmOutRelay => sweepArmOut
      case SweepArmInRelay => sweepArmIn
      case LoadChainRelay => loadChain
      case UnloadChainRelay => unloadChain
    }

    /** Relay `own` is on exactly when `on` holds, and every other relay is off. */
    predicate OnlyOwn(own: RelayId, on: bool) {
      forall id :: Get(id) == (on && id == own)
    }

    predicate AllOff() {
      forall id :: !Get(id)
    }

    predicate AtMostOneOn() {
      forall a, b :: Get(a) && Get(b) ==> a == b
    }
  }

  const NoneOn := Relays(false, false, false, false, false, false)

  /** What a phase handler leaves behind: the relays and whether its phase is complete. */
  datatype Outcome = Outcome(relays: Relays, done: bool)

  /** The Unload handler's outcome together with the new value of its latch. */
  datatype Unloaded = Unloaded(out: Outcome, hasOpened: bool)
}
