// The unload edge latch over consecutive ticks (src/main.cpp:283-320). The
// unload switch reads pressed when the chain rests before the stroke and again
// when the stroke is over, and open only in between; the latch is what lets
// the handler tell those two pressed readings apart.

module UnloadLatch {
  import opened Types
  import Handlers
  import Sequencer

  /**
   * The outcomes of doUnload over consecutive ticks, each call starting from
   * the relays and the latch the previous call left.
   */
  function UnloadRun(r: Relays, hasOpened: bool, trace: seq<Switches>): (outs: seq<Unloaded>)
    ensures |outs| == |trace|
    ensures trace != [] ==> outs[0] == Handlers.Unload(r, hasOpened, trace[0])
    ensures forall i :: 0 < i < |trace| ==>
      outs[i] == Handlers.Unload(outs[i - 1].out.relays, outs[i - 1].hasOpened, trace[i])
    decreases |trace|
  {
    if trace == [] then []
    else
      var u := Handlers.Unload(r, hasOpened, trace[0]);
      [u] + UnloadRun(u.out.relays, u.hasOpened, trace[1..])
  }

  /** The switch reading before tick `k`; before the first tick the latch stands in for it. */
  predicate OpenBefore(hasOpened: bool, trace: seq<Switches>, k: nat)
    requires k < |trace|
  {
    if k == 0 then hasOpened else !trace[k - 1].unloadChain
  }

  /**
   * The latch turns doUnload into a detector of the switch closing again: a
   * tick completes exactly when the switch reads pressed on it after reading
   * open on the tick before, and between ticks the latch holds whether the
   * last reading was open. The unload chain runs on every tick up to that
   * edge.
   */
  lemma {:induction false} CompletesOnClosingEdge(r: Relays, hasOpened: bool, trace: seq<Switches>, k: nat)
    requires k < |trace|
    ensures UnloadRun(r, hasOpened, trace)[k].out.done <==>
      trace[k].unloadChain && OpenBefore(hasOpened, trace, k)
    ensures UnloadRun(r, hasOpened, trace)[k].hasOpened <==> !trace[k].unloadChain
    ensures UnloadRun(r, hasOpened, trace)[k].out.relays.unloadChain <==>
      !UnloadRun(r, hasOpened, trace)[k].out.done
    decreases k
  {
    var outs := UnloadRun(r, hasOpened, trace);
    var u := if k == 0 then Handlers.Unload(r, hasOpened, trace[0])
             else Handlers.Unload(outs[k - 1].out.relays, outs[k - 1].hasOpened, trace[k]);
    assert outs[k] == u;
    assert u.out.relays.Get(UnloadChainRelay) == !u.out.done;
    if k > 0 {
      CompletesOnClosingEdge(r, hasOpened, trace, k - 1);
    }
  }

  /**
   * Starting with a cleared latch, a switch that reads pressed on every tick
   * never completes the unload: the pressed reading at the start of the
   * stroke is not mistaken for its end.
   */
  lemma NeverCompletesWhilePressed(r: Relays, trace: seq<Switches>)
    requires forall i :: 0 <= i < |trace| ==> trace[i].unloadChain
    ensures forall i :: 0 <= i < |trace| ==> !UnloadRun(r, false, trace)[i].out.done
  {
    forall i | 0 <= i < |trace|
      ensures !UnloadRun(r, false, trace)[i].out.done
    {
      CompletesOnClosingEdge(r, false, trace, i);
    }
  }

  /**
   * One whole stroke from a cleared latch: `a` ticks pressed at rest, `b > 0`
   * ticks open in transit, then pressed again. The handler reports not
   * complete on each of the first `a + b` ticks and complete on the last one,
   * and the latch is first set on the first open tick.
   */
  lemma FullStroke(r: Relays, trace: seq<Switches>, a: nat, b: nat)
    requires 0 < b && |trace| == a + b + 1
    requires forall i :: 0 <= i < a ==> trace[i].unloadChain
    requires forall i :: a <= i < a + b ==> !trace[i].unloadChain
    requires trace[a + b].unloadChain
    ensures forall i :: 0 <= i < a + b ==> !UnloadRun(r, false, trace)[i].out.done
    ensures UnloadRun(r, false, trace)[a + b].out.done
    ensures forall i :: 0 <= i < a ==> !UnloadRun(r, false, trace)[i].hasOpened
    ensures UnloadRun(r, false, trace)[a].hasOpened
  {
    forall i | 0 <= i <= a + b
      ensures UnloadRun(r, false, trace)[i].out.done <==> i == a + b
      ensures UnloadRun(r, false, trace)[i].hasOpened <==> a <= i < a + b
    {
      CompletesOnClosingEdge(r, false, trace, i);
    }
  }

  /** The three-tick trace pressed, open, pressed gives not complete, not complete, complete. */
  lemma PressedOpenPressed(r: Relays, p: Switches, o: Switches, q: Switches)
    requires p.unloadChain && !o.unloadChain && q.unloadChain
    ensures var outs := UnloadRun(r, false, [p, o, q]);
      !outs[0].out.done && !outs[1].out.done && outs[2].out.done
  {
    FullStroke(r, [p, o, q], 1, 1);
  }

  /**
   * Entering Unload clears the latch (src/main.cpp:105), so from the state
   * the machine is in on entry, the sequencer follows UnloadRun tick for tick
   * until the handler completes, and then moves to Load.
   */
  lemma {:induction false} UnloadPhaseFollowsRun(r: Relays, trace: seq<Switches>, k: nat)
    requires k < |trace|
    requires forall i :: 0 <= i < k ==> Sequencer.Run(Sequencer.Machine(Unload, r, false), trace)[i].phase == Unload
    ensures var u := UnloadRun(r, false, trace)[k];
      Sequencer.Run(Sequencer.Machine(Unload, r, false), trace)[k]
        == Sequencer.Machine(if u.out.done then Load else Unload, u.out.relays, u.hasOpened)
    decreases k
  {
    if k > 0 {
      UnloadPhaseFollowsRun(r, trace, k - 1);
    }
  }

  /**
   * Once in Unload with the latch cleared, the machine leaves Unload on the
   * first tick on which the unload switch closes after having read open, and
   * on no other.
   */
  lemma LeavesUnloadOnClosingEdge(r: Relays, trace: seq<Switches>, k: nat)
    requires k < |trace|
    requires forall i :: 0 <= i < k ==> Sequencer.Run(Sequencer.Machine(Unload, r, false), trace)[i].phase == Unload
    ensures Sequencer.Run(Sequencer.Machine(Unload, r, false), trace)[k].phase != Unload <==>
      0 < k && !trace[k - 1].unloadChain && trace[k].unloadChain
  {
    UnloadPhaseFollowsRun(r, trace, k);
    CompletesOnClosingEdge(r, false, trace, k);
  }
}
