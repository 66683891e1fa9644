// The sequencer of loop() (src/main.cpp:50-123): once per tick it runs the
// handler of the current phase and, when that handler reports completion,
// moves to the next phase of the transition table.

module Sequencer {
  import opened Types
  import Handlers

  /** The controller's whole state: phase, relays and the unload latch. */
  datatype Machine = Machine(phase: Phase, relays: Relays, hasOpened: bool)

  /**
   * The state setup() leaves: phase HOME (src/main.cpp:47) and the latch
   * cleared (src/main.cpp:39); the relays are as Relay::begin left them.
   */
  function Initial(r: Relays): Machine {
    Machine(Home, r, false)
  }

  /**
   * The condition on a tick's readings under which the handler of a phase
   * other than Unload completes, stated phase by phase on its own; Unload's
   * completion also depends on its latch.
   */
  predicate Reached(p: Phase, s: Switches)
    requires p != Unload
  {
    match p
    case Home => s.pushArmIn && s.sweepArmIn && s.unloadChain
    case Load => s.baleRowReady
    case SweepArmOut => s.sweepArmOut
    case SweepArmIn => s.sweepArmIn
    case PushArmOut => s.pushArmOut || s.loadIsFull
    case PushArmIn => s.pushArmIn
  }

  /** The relay that the handler of a phase other than Home drives. */
  function Own(p: Phase): RelayId
    requires p != Home
  {
    match p
    case Load => LoadChainRelay
    case SweepArmOut => SweepArmOutRelay
    case SweepArmIn => SweepArmInRelay
    case PushArmOut => PushArmOutRelay
    case PushArmIn => PushArmInRelay
    case Unload => UnloadChainRelay
  }

  /**
   * The transition table of loop() (src/main.cpp:58-120): the phase that
   * follows `p` once its handler completes, given the tick's readings. Each
   * ensures names every way into one phase, so together they are the table
   * read backwards; no phase follows itself and Home is never re-entered.
   */
  function Next(p: Phase, s: Switches): (q: Phase)
    ensures q != p && q != Home
    ensures q == Load <==> p in {Home, SweepArmIn, Unload} || (p == PushArmIn && !s.loadIsFull)
    ensures q == SweepArmOut <==> p == Load && !s.rowSwept
    ensures q == PushArmOut <==> p == Load && s.rowSwept
    ensures q == SweepArmIn <==> p == SweepArmOut
    ensures q == PushArmIn <==> p == PushArmOut
    ensures q == Unload <==> p == PushArmIn && s.loadIsFull
  {
    match p
    case Home => Load
    case Load => if s.rowSwept then PushArmOut else SweepArmOut
    case SweepArmOut => SweepArmIn
    case SweepArmIn => Load
    case PushArmOut => PushArmIn
    case PushArmIn => if s.loadIsFull then Unload else Load
    case Unload => Load
  }

  /**
   * The current phase's handler applied to the machine: the relays it leaves,
   * the latch after it, and whether it completed. Only Unload touches the
   * latch; every other phase completes exactly when Reached holds, and every
   * handler but Home leaves only its own relay on, and that only while not
   * complete.
   */
  function Handle(m: Machine, s: Switches): (u: Unloaded)
    ensures m.phase != Unload ==> u.hasOpened == m.hasOpened && (u.out.done <==> Reached(m.phase, s))
    ensures m.phase == Unload ==> (u.out.done <==> m.hasOpened && s.unloadChain)
    ensures m.phase != Home ==> u.out.relays.OnlyOwn(Own(m.phase), !u.out.done)
    ensures u.out.done ==> u.out.relays.AllOff()
  {
    match m.phase
    case Home => Unloaded(Handlers.Home(m.relays, s), m.hasOpened)
    case Load => Unloaded(Handlers.Load(m.relays, s), m.hasOpened)
    case SweepArmOut => Unloaded(Handlers.SweepArmOut(m.relays, s), m.hasOpened)
    case SweepArmIn => Unloaded(Handlers.SweepArmIn(m.relays, s), m.hasOpened)
    case PushArmOut => Unloaded(Handlers.PushArmOut(m.relays, s), m.hasOpened)
    case PushArmIn => Unloaded(Handlers.PushArmIn(m.relays, s), m.hasOpened)
    case Unload => Handlers.Unload(m.relays, m.hasOpened, s)
  }

  /** The latch can only be set while the machine is unloading. */
  predicate LatchClear(m: Machine) {
    m.phase != Unload ==> !m.hasOpened
  }

  /**
   * One call of loop() (src/main.cpp:50-123). The phase moves along Next
   * exactly when the handler completes and stays put otherwise; the relays
   * are the ones the handler left; the latch is the handler's, except that it
   * is cleared on the way into Unload. Every change of phase leaves all six
   * relays off, outside Home at most one relay is ever on, Home is never
   * re-entered, and a clear latch outside Unload stays clear.
   */
  function Step(m: Machine, s: Switches): (n: Machine)
    ensures n.phase == (if Handle(m, s).out.done then Next(m.phase, s) else m.phase)
    ensures n.relays == Handle(m, s).out.relays
    ensures n.phase != m.phase ==> n.relays.AllOff()
    ensures n.phase == Unload && m.phase != Unload ==> !n.hasOpened
    ensures n.phase == m.phase ==> n.hasOpened == Handle(m, s).hasOpened
    ensures n.phase != Home ==> n.relays.AtMostOneOn()
    ensures m.phase != Home ==> n.phase != Home
    ensures LatchClear(m) ==> LatchClear(n)
  {
    var u := Handle(m, s);
    if !u.out.done then Machine(m.phase, u.out.relays, u.hasOpened)
    else
      var q := Next(m.phase, s);
      Machine(q, u.out.relays, if q == Unload then false else u.hasOpened)
  }

  /** The states after each of a sequence of ticks, starting from `m`. */
  function Run(m: Machine, trace: seq<Switches>): (ms: seq<Machine>)
    ensures |ms| == |trace|
    ensures trace != [] ==> ms[0] == Step(m, trace[0])
    ensures forall i :: 0 < i < |trace| ==> ms[i] == Step(ms[i - 1], trace[i])
    decreases |trace|
  {
    if trace == [] then []
    else
      var n := Step(m, trace[0]);
      [n] + Run(n, trace[1..])
  }

  /**
   * From a state whose latch is clear outside Unload (in particular the
   * initial one), the latch is set only while unloading, on every tick of
   * every run; so the reset on entry to Unload (src/main.cpp:105) never
   * finds the latch set.
   */
  lemma {:induction false} LatchOnlyWhileUnloading(m: Machine, trace: seq<Switches>)
    requires LatchClear(m)
    ensures forall i :: 0 <= i < |trace| ==> LatchClear(Run(m, trace)[i])
    decreases |trace|
  {
    if trace != [] {
      var n := Step(m, trace[0]);
      LatchOnlyWhileUnloading(n, trace[1..]);
      assert Run(m, trace) == [n] + Run(n, trace[1..]);
    }
  }

  /** Once the machine has left Home it never returns there. */
  lemma {:induction false} NeverBackHome(m: Machine, trace: seq<Switches>)
    requires m.phase != Home
    ensures forall i :: 0 <= i < |trace| ==> Run(m, trace)[i].phase != Home
    decreases |trace|
  {
    if trace != [] {
      var n := Step(m, trace[0]);
      NeverBackHome(n, trace[1..]);
      assert Run(m, trace) == [n] + Run(n, trace[1..]);
    }
  }

  /**
   * There is no timeout: while a phase other than Unload never sees its
   * completion condition, the machine stays in that phase on every tick and,
   * outside Home, keeps driving that phase's relay and no other.
   */
  lemma {:induction false} StallsUntilReached(m: Machine, trace: seq<Switches>)
    requires m.phase != Unload
    requires forall i :: 0 <= i < |trace| ==> !Reached(m.phase, trace[i])
    ensures forall i :: 0 <= i < |trace| ==> Run(m, trace)[i].phase == m.phase
    ensures m.phase != Home ==>
      forall i :: 0 <= i < |trace| ==> Run(m, trace)[i].relays.OnlyOwn(Own(m.phase), true)
    decreases |trace|
  {
    if trace != [] {
      var n := Step(m, trace[0]);
      assert n.phase == m.phase;
      StallsUntilReached(n, trace[1..]);
      assert Run(m, trace) == [n] + Run(n, trace[1..]);
    }
  }

  /**
   * Starting in Home with the push arm, the sweep arm and the unload chain all
   * home, Home completes on the first tick, leaves every relay off, and the
   * machine is in Load for the next tick.
   */
  lemma HomedMachineLoadsAtOnce(r: Relays, s: Switches)
    requires s.pushArmIn && s.sweepArmIn && s.unloadChain
    ensures Step(Initial(r), s) == Machine(Load, NoneOn, false)
  {
  }

  /**
   * One whole cycle, one tick per phase except the unload stroke: home; load
   * the first row and sweep it; load the second row and push it across, which
   * fills the load; then unload over three ticks (unload switch pressed at
   * rest, open in transit, pressed again) and go back to loading.
   */
  lemma WholeCycle(r: Relays)
    ensures var ms := Run(Initial(r), CycleTrace());
      && [ms[0].phase, ms[1].phase, ms[2].phase, ms[3].phase, ms[4].phase,
          ms[5].phase, ms[6].phase, ms[7].phase, ms[8].phase, ms[9].phase]
         == [Load, SweepArmOut, SweepArmIn, Load, PushArmOut,
             PushArmIn, Unload, Unload, Unload, Load]
      && ms[7].relays.unloadChain && ms[8].relays.unloadChain
      && ms[9].relays == NoneOn
  {
    var t := CycleTrace();
    var ms := Run(Initial(r), t);
    assert ms[0] == Machine(Load, NoneOn, false);
    assert ms[1] == Machine(SweepArmOut, NoneOn, false);
    assert ms[2] == Machine(SweepArmIn, NoneOn, false);
    assert ms[3] == Machine(Load, NoneOn, false);
    assert ms[4] == Machine(PushArmOut, NoneOn, false);
    assert ms[5] == Machine(PushArmIn, NoneOn, false);
    assert ms[6] == Machine(Unload, NoneOn, false);
    assert ms[7] == Machine(Unload, NoneOn.(unloadChain := true), false);
    assert ms[8] == Machine(Unload, NoneOn.(unloadChain := true), true);
    assert ms[9] == Machine(Load, NoneOn, false);
  }

  /** The readings of WholeCycle's ten ticks; all three retract switches start pressed. */
  function CycleTrace(): seq<Switches> {
    var homed := Switches(true, false, true, false, true, false, false, false);
    [ homed,                                              // Home completes
      homed.(baleRowReady := true),                       // Load, row not swept yet
      homed.(sweepArmIn := false, sweepArmOut := true),   // SweepArmOut
      homed,                                              // SweepArmIn
      homed.(baleRowReady := true, rowSwept := true),     // Load, row swept
      homed.(pushArmIn := false, pushArmOut := true),     // PushArmOut
      homed.(loadIsFull := true),                         // PushArmIn, load full
      homed,                                              // Unload: still at rest
      homed.(unloadChain := false),                       // Unload: in transit
      homed ]                                             // Unload: stroke over
  }
}
