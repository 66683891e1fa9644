// The seven phase handlers of src/main.cpp as functions of the relays before
// the call and the tick's switch readings. Each body follows the handler's
// sequence of turnOff/turnOn writes; each contract says what the handler
// guarantees about the relays it leaves and about when it reports completion.

module Handlers {
  import opened Types

  /**
   * doHome (src/main.cpp:126-167): the load chain and both "out" relays are
   * always switched off; the push arm, the sweep arm and the unload chain are
   * then homed in that fixed order, and the first one not yet home gets its
   * retract relay switched on while the later ones are left exactly as they
   * were. Home completes only when all three are home, and then no relay is on.
   */
  function Home(r: Relays, s: Switches): (o: Outcome)
    ensures !o.relays.loadChain && !o.relays.pushArmOut && !o.relays.sweepArmOut
    ensures o.done <==> s.pushArmIn && s.sweepArmIn && s.unloadChain
    ensures o.done ==> o.relays.AllOff()
    ensures !s.pushArmIn ==>
      o.relays.pushArmIn && o.relays.sweepArmIn == r.sweepArmIn && o.relays.unloadChain == r.unloadChain
    ensures s.pushArmIn ==> !o.relays.pushArmIn
    ensures s.pushArmIn && !s.sweepArmIn ==>
      o.relays.sweepArmIn && o.relays.unloadChain == r.unloadChain
    ensures s.pushArmIn && s.sweepArmIn ==>
      !o.relays.sweepArmIn && (o.relays.unloadChain <==> !s.unloadChain)
  {
    var r1 := r.(loadChain := false, pushArmOut := false, sweepArmOut := false);
    if !s.pushArmIn then Outcome(r1.(pushArmIn := true), false)
    else
      var r2 := r1.(pushArmIn := false);
      if !s.sweepArmIn then Outcome(r2.(sweepArmIn := true), false)
      else
        var r3 := r2.(sweepArmIn := false);
        if !s.unloadChain then Outcome(r3.(unloadChain := true), false)
        else Outcome(r3.(unloadChain := false), true)
  }

  /** doLoad (src/main.cpp:170-190): run the load chain until a row of bales is ready. */
  function Load(r: Relays, s: Switches): (o: Outcome)
    ensures o.done <==> s.baleRowReady
    ensures o.relays.OnlyOwn(LoadChainRelay, !o.done)
  {
    var r1 := r.(unloadChain := false, pushArmIn := false, pushArmOut := false,
                 sweepArmIn := false, sweepArmOut := false);
    if !s.baleRowReady then Outcome(r1.(loadChain := true), false)
    else Outcome(r1.(loadChain := false), true)
  }

  /**
   * doPushArmOut (src/main.cpp:193-213): stroke the push arm out until it is
   * out, or stop early as soon as the load reads full.
   */
  function PushArmOut(r: Relays, s: Switches): (o: Outcome)
    ensures o.done <==> s.pushArmOut || s.loadIsFull
    ensures o.relays.OnlyOwn(PushArmOutRelay, !o.done)
  {
    var r1 := r.(loadChain := false, unloadChain := false, pushArmIn := false,
                 sweepArmIn := false, sweepArmOut := false);
    if !s.pushArmOut && !s.loadIsFull then Outcome(r1.(pushArmOut := true), false)
    else Outcome(r1.(pushArmOut := false), true)
  }

  /** doPushArmIn (src/main.cpp:216-235): retract the push arm until it is home. */
  function PushArmIn(r: Relays, s: Switches): (o: Outcome)
    ensures o.done <==> s.pushArmIn
    ensures o.relays.OnlyOwn(PushArmInRelay, !o.done)
  {
    var r1 := r.(loadChain := false, unloadChain := false, pushArmOut := false,
                 sweepArmIn := false, sweepArmOut := false);
    if !s.pushArmIn then Outcome(r1.(pushArmIn := true), false)
    else Outcome(r1.(pushArmIn := false), true)
  }

  /** doSweepArmOut (src/main.cpp:238-258): swing the sweep arm out until it is out. */
  function SweepArmOut(r: Relays, s: Switches): (o: Outcome)
    ensures o.done <==> s.sweepArmOut
    ensures o.relays.OnlyOwn(SweepArmOutRelay, !o.done)
  {
    var r1 := r.(loadChain := false, unloadChain := false, pushArmIn := false,
                 pushArmOut := false, sweepArmIn := false);
    if !s.sweepArmOut then Outcome(r1.(sweepArmOut := true), false)
    else Outcome(r1.(sweepArmOut := false), true)
  }

  /** doSweepArmIn (src/main.cpp:261-280): retract the sweep arm until it is home. */
  function SweepArmIn(r: Relays, s: Switches): (o: Outcome)
    ensures o.done <==> s.sweepArmIn
    ensures o.relays.OnlyOwn(SweepArmInRelay, !o.done)
  {
    var r1 := r.(loadChain := false, unloadChain := false, pushArmIn := false,
                 pushArmOut := false, sweepArmOut := false);
    if !s.sweepArmIn then Outcome(r1.(sweepArmIn := true), false)
    else Outcome(r1.(sweepArmIn := false), true)
  }

  /**
   * doUnload (src/main.cpp:283-320) with its edge latch `hasOpened`
   * (unloadSwitchHasOpened, src/main.cpp:39). The unload switch reads pressed
   * both before and after a full stroke, so a pressed reading completes the
   * phase only once the latch has recorded an open reading. The chain runs on
   * every tick that does not complete; completion switches it off. Whatever
   * the latch was, after the call it records exactly whether the switch read
   * open on this tick: it is set by an open reading and cleared by a pressed
   * one, either on completion or because it was not set.
   */
  function Unload(r: Relays, hasOpened: bool, s: Switches): (u: Unloaded)
    ensures u.out.done <==> hasOpened && s.unloadChain
    ensures u.out.relays.OnlyOwn(UnloadChainRelay, !u.out.done)
    ensures u.hasOpened <==> !s.unloadChain
  {
    var r1 := r.(loadChain := false, pushArmIn := false, pushArmOut := false,
                 sweepArmIn := false, sweepArmOut := false);
    var r2 := r1.(unloadChain := true);
    if !hasOpened && s.unloadChain then Unloaded(Outcome(r2, false), hasOpened)
    else if !s.unloadChain then Unloaded(Outcome(r2, false), true)
    else Unloaded(Outcome(r2.(unloadChain := false), true), false)
  }

  /**
   * Home looks at its three switches one at a time and returns at the first
   * one not pressed: the readings after that one do not influence the call.
   */
  lemma HomeStopsAtFirstUnhomed(r: Relays, s: Switches, t: Switches)
    ensures !s.pushArmIn && !t.pushArmIn ==> Home(r, s) == Home(r, t)
    ensures s.pushArmIn && t.pushArmIn && !s.sweepArmIn && !t.sweepArmIn ==> Home(r, s) == Home(r, t)
    ensures s.pushArmIn == t.pushArmIn && s.sweepArmIn == t.sweepArmIn && s.unloadChain == t.unloadChain
      ==> Home(r, s) == Home(r, t)
  {
  }

  /**
   * Every handler except Home writes all six relays, so what it leaves
   * depends only on the tick's readings (and, for Unload, on the latch), not
   * on the relays before the call.
   */
  lemma HandlersOverwriteAllRelays(r: Relays, q: Relays, hasOpened: bool, s: Switches)
    ensures Load(r, s) == Load(q, s)
    ensures PushArmOut(r, s) == PushArmOut(q, s)
    ensures PushArmIn(r, s) == PushArmIn(q, s)
    ensures SweepArmOut(r, s) == SweepArmOut(q, s)
    ensures SweepArmIn(r, s) == SweepArmIn(q, s)
    ensures Unload(r, hasOpened, s) == Unload(q, hasOpened, s)
  {
  }

  /**
   * Home does not write the retract relays after the first one it finds not
   * home, so a retract relay switched on by an earlier Home tick stays on
   * while a higher-priority arm is being retracted: here the sweep arm's
   * retract relay is still on while the push arm's is switched on.
   */
  lemma HomeCanLeaveTwoRetractsOn()
    ensures var before := Relays(false, false, false, true, false, false);
            var s := Switches(false, false, false, false, true, false, false, false);
            var o := Home(before, s);
            o.relays.pushArmIn && o.relays.sweepArmIn && !o.relays.AtMostOneOn()
  {
    var o := Home(Relays(false, false, false, true, false, false),
                  Switches(false, false, false, false, true, false, false, false));
    assert o.relays.Get(PushArmInRelay) && o.relays.Get(SweepArmInRelay);
  }
}
