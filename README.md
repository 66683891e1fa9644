# Bale wagon sequencer

A Dafny model of the controller of a bale-accumulating wagon (jgodfrey/BaleCollector,
`src/main.cpp`). On every tick the controller reads eight limit switches. It runs the
handler of the current phase. The handler drives the six relays and reports whether its
phase is complete. When it is, `loop()` picks the next phase.

The seven phases are Home, Load, SweepArmOut, SweepArmIn, PushArmOut, PushArmIn and
Unload. The wagon loads a row of two bales. It sweeps the first row of a set ninety
degrees and pushes later rows across the chamber. Once the load reads full, the unload
chain runs one full stroke.

The hard part is Unload. The unload switch reads pressed both at rest before the stroke
and again when the stroke is over. The latch `unloadSwitchHasOpened` is there so the
first pressed reading is not taken for the end of the stroke.

Files:

- `types.dfy` (module `Types`): phases, one tick's switch readings, the relay record,
  and a handler's outcome.
- `handlers.dfy` (module `Handlers`): each `do*` handler as a function of the relays
  before the call and the tick's readings. The body follows the source's
  `turnOff`/`turnOn` writes. The contract states what the handler guarantees.
- `sequencer.dfy` (module `Sequencer`): the transition table `Next`, one `loop()` call
  as `Step`, runs over a finite trace of ticks, and properties of runs.
- `unload_latch.dfy` (module `UnloadLatch`): consecutive Unload ticks, and how they tie
  the sequencer's exit from Unload to the switch closing again.
- `controller.dfy` (module `Controller`): class `BaleWagon`. It holds the source's global
  state as fields: six relay booleans, the phase and the latch. The handlers and `Tick`
  are imperative methods. Each is proved to leave exactly the state its pure
  counterpart describes.

What the proofs show:

- The latch makes `doUnload` an edge detector. After each call the latch holds whether
  the switch read open on that tick. A tick completes the unload exactly when the switch
  reads pressed and the previous tick read open.
- The latch is never set outside Unload. So the reset on entry to Unload
  (`src/main.cpp:105`) never finds it set.
- Every change of phase leaves all six relays off. Outside Home, at most one relay is on
  after any tick.

Where the design description and the code differ, the model follows the code:

- `doLoad` has no first-row dwell. `doUnload` uses only the edge latch and has no
  timed-ignore variant.
- The design says that at most one retract relay is engaged per tick while homing. The
  code does not guarantee this. `doHome` leaves alone the retract relays after the first
  arm that is not home. So a retract relay switched on by an earlier Home tick stays on
  when a higher-priority arm's switch opens again. `Handlers.HomeCanLeaveTwoRetractsOn`
  shows such a tick.
- The switch interface in the design also has "became active/inactive" edge signals.
  The code only uses `isPressed()`, so readings here are plain booleans.

## Model

| member | source | states |
|---|---|---|
| `Handlers.Home` | src/main.cpp:126-167 | Load chain, push-out and sweep-out relays always end off. It completes iff push arm, sweep arm and unload chain are all home, and then every relay is off. The first of these (in that order) not home gets its retract relay on, the earlier ones' retract relays end off, and the later ones' retract relays are unchanged. |
| `Handlers.Load` | src/main.cpp:170-190 | Completes iff bale-row-ready is pressed. Afterwards the load chain is on iff it did not complete, and every other relay is off. |
| `Handlers.PushArmOut` | src/main.cpp:193-213 | Completes iff push-arm-out or load-is-full is pressed (early abort on a full load). The push-out relay is on iff it did not complete, and every other relay is off. |
| `Handlers.PushArmIn` | src/main.cpp:216-235 | Completes iff push-arm-in is pressed. The push-in relay is on iff it did not complete, and every other relay is off. |
| `Handlers.SweepArmOut` | src/main.cpp:238-258 | Completes iff sweep-arm-out is pressed. The sweep-out relay is on iff it did not complete, and every other relay is off. |
| `Handlers.SweepArmIn` | src/main.cpp:261-280 | Completes iff sweep-arm-in is pressed. The sweep-in relay is on iff it did not complete, and every other relay is off. |
| `Handlers.Unload` | src/main.cpp:283-320 | Completes iff the latch was set at the start of the call and the unload switch is pressed now. The unload chain is on iff it did not complete, and every other relay is off. After the call the latch is set iff the switch reads open, so completion clears it. |
| `Handlers.HomeStopsAtFirstUnhomed` | src/main.cpp:133-164 | If push-arm-in is not pressed, Home's result does not depend on the other switches. If push-arm-in is pressed and sweep-arm-in is not, it does not depend on the unload switch. It only ever depends on those three switches. |
| `Handlers.HandlersOverwriteAllRelays` | src/main.cpp:170-320 | Every handler but Home leaves relays that do not depend on the relays before the call. They depend only on the tick's readings, plus the latch for Unload. |
| `Handlers.HomeCanLeaveTwoRetractsOn` | src/main.cpp:133-164 | Shows a Home tick after which both the push-in and the sweep-in relays are on. |
| `Sequencer.Next` | src/main.cpp:58-120 | The transition table, read as the set of ways into each phase. Load comes from Home, SweepArmIn, Unload, or PushArmIn when the load is not full. SweepArmOut comes from Load when the row is not swept, and PushArmOut from Load when it is. SweepArmIn comes from SweepArmOut and PushArmIn from PushArmOut. Unload comes only from PushArmIn with the load full. No phase follows itself and nothing leads back to Home. |
| `Sequencer.Handle` | src/main.cpp:56-122 | A phase other than Unload completes exactly when its own switch condition (`Reached`) holds, and leaves the latch alone. Unload completes iff the latch is set and its switch is pressed. Every handler but Home leaves only its own relay on, and only while not complete. A completing handler leaves every relay off. |
| `Sequencer.Step` | src/main.cpp:50-123 | The phase moves along `Next` when the handler completes and does not change otherwise. The relays are what the handler left. The latch is cleared on the way into Unload. Any phase change leaves all relays off. Outside Home at most one relay is on. Home is never re-entered. A latch that is clear outside Unload stays clear. |
| `Sequencer.Run` | src/main.cpp:50-123 | Repeated `loop()` calls: each state in the run is `Step` of the previous state on that tick's readings. |
| `Sequencer.LatchOnlyWhileUnloading` | src/main.cpp:100-120 | From any state whose latch is clear outside Unload (the initial one among them), every state of every run has the latch clear outside Unload. |
| `Sequencer.NeverBackHome` | src/main.cpp:56-122 | Once the machine is out of Home, no later tick of any run is in Home. |
| `Sequencer.StallsUntilReached` | src/main.cpp:56-122 | With no timeout: while a phase other than Unload never sees its completion condition, the machine stays in that phase on every tick. Outside Home it keeps exactly that phase's relay on. |
| `Sequencer.HomedMachineLoadsAtOnce` | src/main.cpp:41-63 | Starting from setup's state with all three retract switches pressed, one tick leads to Load with every relay off and the latch clear. |
| `Sequencer.WholeCycle` | src/main.cpp:50-320 | One concrete ten-tick run goes through every phase: Home, Load, SweepArmOut, SweepArmIn, Load, PushArmOut, PushArmIn, then Unload over a pressed-open-pressed stroke, then back to Load. The unload chain runs during the stroke and every relay is off at the end. |
| `UnloadLatch.UnloadRun` | src/main.cpp:283-320 | Consecutive `doUnload` calls: each outcome is the handler applied to the relays and latch that the previous call left. |
| `UnloadLatch.CompletesOnClosingEdge` | src/main.cpp:296-319 | On consecutive Unload ticks, a tick completes iff the switch reads pressed and the previous reading was open. For the first tick, the initial latch stands in for the previous reading. After each tick the latch holds whether that tick's reading was open. The unload chain is on iff the tick did not complete. |
| `UnloadLatch.NeverCompletesWhilePressed` | src/main.cpp:299-303 | Starting with a cleared latch, a switch that reads pressed on every tick never completes the unload. |
| `UnloadLatch.FullStroke` | src/main.cpp:292-319 | From a cleared latch, take `a` pressed ticks, then `b > 0` open ticks, then one pressed tick. The handler reports not complete on the first `a + b` ticks and complete on the last. The latch is clear through the pressed prefix and set on the first open tick. |
| `UnloadLatch.PressedOpenPressed` | src/main.cpp:292-319 | Readings pressed, open, pressed from a cleared latch give not complete, not complete, complete. |
| `UnloadLatch.UnloadPhaseFollowsRun` | src/main.cpp:100-120 | Entry to Unload leaves the latch clear. From that state, the sequencer's states match consecutive `doUnload` outcomes until the first completion, which moves the machine to Load. |
| `UnloadLatch.LeavesUnloadOnClosingEdge` | src/main.cpp:103-119 | After entering Unload, the machine leaves Unload on exactly the first tick where the unload switch reads pressed after an open reading on the tick before. |
| `Controller.BaleWagon.constructor` | src/main.cpp:41-48 | Starts in Home with the latch cleared and the given relay state. |
| `Controller.BaleWagon.DoHome` | src/main.cpp:126-167 | The relays and result are those of `Handlers.Home`. Phase and latch are unchanged. |
| `Controller.BaleWagon.DoLoad` | src/main.cpp:170-190 | The relays and result are those of `Handlers.Load`. Phase and latch are unchanged. |
| `Controller.BaleWagon.DoPushArmOut` | src/main.cpp:193-213 | The relays and result are those of `Handlers.PushArmOut`. Phase and latch are unchanged. |
| `Controller.BaleWagon.DoPushArmIn` | src/main.cpp:216-235 | The relays and result are those of `Handlers.PushArmIn`. Phase and latch are unchanged. |
| `Controller.BaleWagon.DoSweepArmOut` | src/main.cpp:238-258 | The relays and result are those of `Handlers.SweepArmOut`. Phase and latch are unchanged. |
| `Controller.BaleWagon.DoSweepArmIn` | src/main.cpp:261-280 | The relays and result are those of `Handlers.SweepArmIn`. Phase and latch are unchanged. |
| `Controller.BaleWagon.DoUnload` | src/main.cpp:283-320 | The relays, the latch and the result are those of `Handlers.Unload`. The phase is unchanged. |
| `Controller.BaleWagon.Tick` | src/main.cpp:50-123 | The new phase, relays and latch are `Sequencer.Step` of the old ones, so every property of `Step` holds of the object. |

## Left out

- `setup()`'s serial port, `initSwitches`, `initRelays` and `readSwitches` (src/main.cpp:41-48, 322-357) are hardware start-up and input wiring. Each tick's readings are a `Switches` value passed to `Tick`.
- The pin assignments (src/main.cpp:6-21) are hardware detail with no logic.
- `JC_Button.h` and `Relay.h` are not part of this model. Debouncing and relay polarity are not modelled. `isPressed()` is a boolean input, and `turnOn`/`turnOff` write `true`/`false` to a relay field. The relay state after `Relay::begin` is unknown, so it is a parameter of the constructor and of `Sequencer.Initial`.
- The Arduino runtime calls `loop()` forever. Runs here are over finite traces of ticks, and properties of the endless loop are stated for every finite prefix.
- A first-row dwell in Load and a timed-ignore unload policy do not exist in this code. Both are blocking waits, so they are not modelled.
- Status output to a display does not exist in this code.
