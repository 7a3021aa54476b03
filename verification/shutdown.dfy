/**
 The shutdown handshake: a control connection claims the shutdown, flushes its response and
 commits; a signal may commit beside it; the owner of the process drains the server and reports
 that it is complete or failed; the control connection then sends its terminal proof.
 */
module Shutdown {
  import opened Basics

  datatype Phase = Running | ShuttingDown | Stopped

  /** What the server's wait-group lock guards, besides the count. */
  datatype Gate = Gate(phase: Phase, shuttingDown: bool, claimed: bool, committed: bool)

  const Open := Gate(Running, false, false, false)

  /** No request, and no serve loop, is let in any more. */
  predicate Barred(g: Gate) { g.shuttingDown || g.claimed }

  function Release(g: Gate): Gate {
    if g.committed then g else g.(claimed := false)
  }

  function Request(g: Gate): Gate {
    g.(phase := ShuttingDown, shuttingDown := true, claimed := true, committed := true)
  }

  /** The same sections, run in place. */
  class ShutdownGate {
    var phase: Phase
    var shuttingDown: bool
    var claimed: bool
    var committed: bool

    function View(): Gate
      reads this
    {
      Gate(phase, shuttingDown, claimed, committed)
    }

    constructor ()
      ensures View() == Open
    {
      phase, shuttingDown, claimed, committed := Running, false, false, false;
    }

    method ClaimShutdown() returns (ok: bool)
      modifies this
      ensures ok == !Barred(old(View()))
      ensures View() == if ok then old(View()).(claimed := true) else old(View())
    {
      if shuttingDown || claimed {
        return false;
      }
      claimed := true;
      return true;
    }

    method ReleaseShutdownClaim()
      modifies this
      ensures View() == Release(old(View()))
    {
      if !committed {
        claimed := false;
      }
    }

    method RequestShutdown()
      modifies this
      ensures View() == Request(old(View()))
    {
      shuttingDown := true;
      claimed := true;
      committed := true;
      phase := ShuttingDown;
    }
  }

  /** Where a serve loop is. Up to Leaving it is counted in the wait group. */
  datatype LoopPc =
    | Reading
    | Dispatching(shutdown: bool)   // let in; a server.shutdown has yet to claim
    | Claimed                       // before its response is flushed
    | Releasing(ends: bool)         // the response failed
    | Flushed                       // the response reached the transport
    | Committing                    // committed, before announcing it
    | Leaving(control: bool)        // detaching, before it is taken off the wait group
    | Holding                       // waits for the owner's verdict
    | Gone

  datatype OwnerPc =
    | Serving
    | Requested                     // committed, before announcing it
    | Draining                      // waits for the wait group or its own time limit
    | Drained                       // the wait group is empty and cleanup succeeded
    | Completing                    // saw the shutdown in progress, before marking it stopped
    | Marked                        // stopped, before the channel is closed
    | Failing
    | Finished

  datatype State = State(
    gate: Gate,
    requested: bool, complete: bool, failed: bool,   // closed channels
    wg: int,
    loops: map<nat, LoopPc>,
    turns: set<nat>,
    owner: OwnerPc,
    claimant: Option<nat>,          // auxiliary: the last loop to claim
    acked: set<nat>,                // connections whose shutdown response reached the transport
    told: multiset<nat>)            // connections sent server.stopped

  datatype Act =
    | BeginDispatch(shutdown: bool) | EndDispatch | Claim | MarshalFails | Flush(ok: bool) | ReleaseClaim | Commit | Announce
    | Disconnect | Depart | HearComplete | HearFailed

  datatype OwnerAct = OwnerCommit | OwnerAnnounce | SeeDrained(ok: bool) | GiveUp | CheckComplete | MarkStopped | CloseComplete | CloseFailed

  datatype Step = Serve(c: nat) | Loop(c: nat, act: Act) | SpawnTurn(t: nat) | EndTurn(t: nat) | Owner(own: OwnerAct)

  predicate Counted(pc: LoopPc) { !pc.Holding? && !pc.Gone? }

  ghost predicate LoopEnabled(s: State, c: nat, act: Act) {
    c in s.loops &&
    match act
    case BeginDispatch(_) => s.loops[c].Reading?
    case EndDispatch => s.loops[c].Dispatching?
    case Claim => s.loops[c] == Dispatching(true)
    case MarshalFails => s.loops[c].Claimed?
    case Flush(_) => s.loops[c].Claimed?
    case ReleaseClaim => s.loops[c].Releasing?
    case Commit => s.loops[c].Flushed?
    case Announce => s.loops[c].Committing?
    case Disconnect => s.loops[c].Reading?
    case Depart => s.loops[c].Leaving?
    case HearComplete => s.loops[c].Holding? && s.complete
    case HearFailed => s.loops[c].Holding? && s.failed
  }

  ghost predicate OwnerEnabled(s: State, act: OwnerAct) {
    match act
    case OwnerCommit => s.owner.Serving?
    case OwnerAnnounce => s.owner.Requested?
    case SeeDrained(_) => s.owner.Draining? && s.wg == 0
    case GiveUp => s.owner.Draining?
    case CheckComplete => s.owner.Drained?
    case MarkStopped => s.owner.Completing?
    case CloseComplete => s.owner.Marked?
    case CloseFailed => s.owner.Failing?
  }

  ghost predicate Enabled(s: State, step: Step) {
    match step
    case Serve(c) => c !in s.loops
    case Loop(c, act) => LoopEnabled(s, c, act)
    case SpawnTurn(t) => t !in s.turns
    case EndTurn(t) => t in s.turns
    case Owner(act) => OwnerEnabled(s, act)
  }

  ghost function At(s: State, c: nat, pc: LoopPc): State {
    s.(loops := s.loops[c := pc])
  }

  ghost function LoopApply(s: State, c: nat, act: Act): State
    requires LoopEnabled(s, c, act)
  {
    match act
    case BeginDispatch(shutdown) => At(s, c, if Barred(s.gate) then Reading else Dispatching(shutdown))
    case EndDispatch => At(s, c, Reading)
    case Claim => ClaimApply(s, c)
    case MarshalFails => At(s, c, Releasing(false))
    case Flush(ok) => FlushApply(s, c, ok)
    case ReleaseClaim => At(s.(gate := Release(s.gate)), c, if s.loops[c].ends then Leaving(false) else Reading)
    case Commit => At(s.(gate := Request(s.gate)), c, Committing)
    case Announce => At(s.(requested := true), c, Leaving(true))
    case Disconnect => At(s, c, Leaving(false))
    case Depart => At(s.(wg := s.wg - 1), c, if s.loops[c].control then Holding else Gone)
    case HearComplete => At(s.(told := s.told + multiset{c}), c, Gone)
    case HearFailed => At(s, c, Gone)
  }

  ghost function ClaimApply(s: State, c: nat): State {
    if Barred(s.gate) then At(s, c, Reading)
    else At(s.(gate := s.gate.(claimed := true), claimant := Some(c)), c, Claimed)
  }

  ghost function FlushApply(s: State, c: nat, ok: bool): State {
    if ok then At(s.(acked := s.acked + {c}), c, Flushed) else At(s, c, Releasing(true))
  }

  ghost function OwnerApply(s: State, act: OwnerAct): State
    requires OwnerEnabled(s, act)
  {
    match act
    case OwnerCommit => s.(gate := Request(s.gate), owner := Requested)
    case OwnerAnnounce => s.(requested := true, owner := Draining)
    case SeeDrained(ok) => s.(owner := if ok then Drained else Failing)
    case GiveUp => s.(owner := Failing)
    case CheckComplete => s.(owner := if s.gate.phase == ShuttingDown then Completing else Finished)
    case MarkStopped => s.(gate := s.gate.(phase := Stopped), owner := Marked)
    case CloseComplete => s.(complete := true, owner := Finished)
    case CloseFailed => s.(failed := true, owner := Finished)
  }

  ghost function ServeApply(s: State, c: nat): State {
    if Barred(s.gate) then s else At(s.(wg := s.wg + 1), c, Reading)
  }

  ghost function SpawnApply(s: State, t: nat): State {
    if s.gate.shuttingDown then s else s.(wg := s.wg + 1, turns := s.turns + {t})
  }

  ghost function Apply(s: State, step: Step): State
    requires Enabled(s, step)
  {
    match step
    case Serve(c) => ServeApply(s, c)
    case Loop(c, act) => LoopApply(s, c, act)
    case SpawnTurn(t) => SpawnApply(s, t)
    case EndTurn(t) => s.(wg := s.wg - 1, turns := s.turns - {t})
    case Owner(act) => OwnerApply(s, act)
  }

  ghost predicate Init(s: State) {
    s == State(Open, false, false, false, 0, map[], {}, Serving, None, {}, multiset{})
  }

  ghost predicate Next(s: State, s': State) {
    exists step :: Enabled(s, step) && s' == Apply(s, step)
  }

  ghost predicate Run(tr: seq<State>) {
    |tr| > 0 && Init(tr[0]) && forall i :: 0 <= i < |tr| - 1 ==> Next(tr[i], tr[i + 1])
  }

  // ---- the invariant ----

  ghost predicate GateOk(g: Gate) {
    (g.committed <==> g.shuttingDown) && (g.committed ==> g.claimed) && (g.committed <==> g.phase != Running)
  }

  ghost function Inside(loops: map<nat, LoopPc>): set<nat> {
    set c | c in loops && Counted(loops[c])
  }

  predicate Claiming(pc: LoopPc) { pc.Claimed? || pc.Releasing? || pc.Flushed? }

  predicate Acked(pc: LoopPc) { pc.Flushed? || pc.Committing? || pc == Leaving(true) || pc.Holding? }

  /** The claim is one loop's, and a connection is acknowledged only under it. */
  ghost predicate ClaimsOk(g: Gate, loops: map<nat, LoopPc>, claimant: Option<nat>, acked: set<nat>) {
    && (forall c :: c in loops && Claiming(loops[c]) ==> g.claimed && claimant == Some(c))
    && (forall c :: c in loops && Acked(loops[c]) ==> c in acked)
    && (forall c :: c in loops && (loops[c].Committing? || loops[c] == Leaving(true)) ==> g.committed)
    && (forall c :: c in acked ==> c in loops && claimant == Some(c) && (g.committed || loops[c].Flushed?) &&
                                    (Acked(loops[c]) || loops[c].Gone?))
  }

  ghost predicate OwnerOk(s: State) {
    && (!s.owner.Serving? ==> s.gate.committed)
    && (s.owner.Drained? || s.owner.Completing? || s.owner.Marked? ==> s.wg == 0)
    && (s.gate.phase == Stopped ==> s.wg == 0 && (s.owner.Marked? || s.owner.Finished?))
    && (s.owner.Marked? ==> s.gate.phase == Stopped && !s.complete)
    && (s.complete ==> s.gate.phase == Stopped)
    && (s.owner.Finished? ==> s.complete || s.failed)
  }

  ghost predicate ToldOk(loops: map<nat, LoopPc>, acked: set<nat>, told: multiset<nat>, complete: bool) {
    forall c :: told[c] > 0 ==> told[c] == 1 && c in acked && c in loops && loops[c].Gone? && complete
  }

  ghost predicate Inv(s: State) {
    GateOk(s.gate) && s.wg == |Inside(s.loops)| + |s.turns| && ClaimsOk(s.gate, s.loops, s.claimant, s.acked) && OwnerOk(s) &&
    ToldOk(s.loops, s.acked, s.told, s.complete)
  }

  lemma InsideMove(loops: map<nat, LoopPc>, c: nat, pc: LoopPc)
    requires c in loops
    ensures |Inside(loops[c := pc])| ==
            |Inside(loops)| + (if Counted(pc) then 1 else 0) - (if Counted(loops[c]) then 1 else 0)
    ensures Counted(loops[c]) ==> |Inside(loops)| > 0
  {
    var before, after := Inside(loops), Inside(loops[c := pc]);
    assert before - {c} == after - {c};
    assert |before| == |before - {c}| + (if Counted(loops[c]) then 1 else 0);
    assert |after| == |after - {c}| + (if Counted(pc) then 1 else 0);
  }

  lemma InsideNew(loops: map<nat, LoopPc>, c: nat)
    requires c !in loops
    ensures |Inside(loops[c := Reading])| == |Inside(loops)| + 1
  {
    assert Inside(loops[c := Reading]) == Inside(loops) + {c};
  }

  lemma LoopGate(s: State, c: nat, act: Act)
    requires Inv(s) && LoopEnabled(s, c, act)
    ensures GateOk(LoopApply(s, c, act).gate)
  {
    hide Inside, ToldOk, OwnerOk;
  }

  lemma LoopOwner(s: State, c: nat, act: Act)
    requires Inv(s) && LoopEnabled(s, c, act)
    ensures OwnerOk(LoopApply(s, c, act))
  {
    InsideMove(s.loops, c, s.loops[c]);
    hide Inside, ToldOk, ClaimsOk;
  }

  lemma LoopCount(s: State, c: nat, act: Act)
    requires s.wg == |Inside(s.loops)| + |s.turns| && LoopEnabled(s, c, act)
    ensures var s' := LoopApply(s, c, act); s'.wg == |Inside(s'.loops)| + |s'.turns|
  {
    InsideMove(s.loops, c, LoopApply(s, c, act).loops[c]);
    hide Inside;
  }

  /** The acts that end a claim. */
  predicate Ends(act: Act) { act.ReleaseClaim? || act.Commit? }

  lemma ClaimClaims(s: State, c: nat)
    requires Inv(s) && c in s.loops && s.loops[c] == Dispatching(true)
    ensures var s' := ClaimApply(s, c); ClaimsOk(s'.gate, s'.loops, s'.claimant, s'.acked)
  {
    hide Inside, ToldOk, OwnerOk;
  }

  lemma FlushClaims(s: State, c: nat, ok: bool)
    requires Inv(s) && c in s.loops && s.loops[c].Claimed?
    ensures var s' := FlushApply(s, c, ok); ClaimsOk(s'.gate, s'.loops, s'.claimant, s'.acked)
  {
    hide Inside, ToldOk, OwnerOk;
  }

  lemma EndClaims(s: State, c: nat, act: Act)
    requires Inv(s) && LoopEnabled(s, c, act) && Ends(act)
    ensures var s' := LoopApply(s, c, act); ClaimsOk(s'.gate, s'.loops, s'.claimant, s'.acked)
  {
    hide Inside, ToldOk, OwnerOk;
  }

  lemma MoveClaims(s: State, c: nat, act: Act)
    requires Inv(s) && LoopEnabled(s, c, act) && !act.Claim? && !act.Flush? && !Ends(act)
    ensures var s' := LoopApply(s, c, act); ClaimsOk(s'.gate, s'.loops, s'.claimant, s'.acked)
  {
    hide Inside, ToldOk, OwnerOk;
  }

  lemma LoopTold(s: State, c: nat, act: Act)
    requires Inv(s) && LoopEnabled(s, c, act)
    ensures var s' := LoopApply(s, c, act); ToldOk(s'.loops, s'.acked, s'.told, s'.complete)
  {
    hide Inside, OwnerOk;
  }

  lemma LoopKept(s: State, c: nat, act: Act)
    requires Inv(s) && LoopEnabled(s, c, act)
    ensures Inv(LoopApply(s, c, act))
  {
    LoopGate(s, c, act);
    LoopOwner(s, c, act);
    LoopCount(s, c, act);
    if act.Claim? { ClaimClaims(s, c); } else if act.Flush? { FlushClaims(s, c, act.ok); } else if Ends(act) { EndClaims(s, c, act); } else { MoveClaims(s, c, act); }
    LoopTold(s, c, act);
    hide LoopApply, GateOk, OwnerOk, ClaimsOk, ToldOk, Inside;
  }

  lemma OwnerKept(s: State, act: OwnerAct)
    requires Inv(s) && OwnerEnabled(s, act)
    ensures Inv(OwnerApply(s, act))
  {
  }

  lemma StepInv(s: State, step: Step)
    requires Inv(s) && Enabled(s, step)
    ensures Inv(Apply(s, step))
  {
    match step
    case Serve(c) => InsideNew(s.loops, c);
    case Loop(c, act) => LoopKept(s, c, act);
    case SpawnTurn(t) =>
    case EndTurn(t) =>
    case Owner(act) => OwnerKept(s, act);
  }

  /** Every state of every run satisfies the invariant. */
  lemma {:induction false} RunInv(tr: seq<State>, i: nat)
    requires Run(tr) && i < |tr|
    ensures Inv(tr[i])
  {
    hide Inv, Next;
    if i == 0 {
      InitInv(tr[0]);
    } else {
      RunInv(tr, i - 1);
      NextKeeps(tr[i - 1], tr[i - 1 + 1]);
    }
  }

  lemma InitInv(s: State)
    requires Init(s)
    ensures Inv(s)
  {
    assert Inside(s.loops) == {};
  }

  // ---- nothing goes back ----

  function Rank(p: Phase): nat {
    match p case Running => 0 case ShuttingDown => 1 case Stopped => 2
  }

  /** From s to s' the phase moves forward only; once committed, a shutdown stays so and claimed, and nothing joins. */
  ghost predicate Forward(s: State, s': State) {
    && Rank(s.gate.phase) <= Rank(s'.gate.phase)
    && (s.gate.committed ==>
          && s'.gate.committed && s'.gate.claimed && s'.gate.shuttingDown
          && s'.loops.Keys == s.loops.Keys && s'.turns <= s.turns && s'.wg <= s.wg
          && forall c :: c in s'.loops && s'.loops[c].Dispatching? ==> s.loops[c].Dispatching?)
  }

  /** While a loop is counted the server has not been stopped. */
  lemma NotYetStopped(s: State, c: nat)
    requires Inv(s) && c in s.loops && Counted(s.loops[c])
    ensures s.gate.phase != Stopped
  {
    assert c in Inside(s.loops);
  }

  lemma EndForward(s: State, c: nat, act: Act)
    requires Inv(s) && LoopEnabled(s, c, act) && Ends(act)
    ensures Forward(s, LoopApply(s, c, act))
  {
    NotYetStopped(s, c);
    hide Inside, ClaimsOk, ToldOk, OwnerOk;
  }

  lemma MoveForward(s: State, c: nat, act: Act)
    requires GateOk(s.gate) && LoopEnabled(s, c, act) && !Ends(act)
    ensures Forward(s, LoopApply(s, c, act))
  {
  }

  lemma OwnerForward(s: State, act: OwnerAct)
    requires Inv(s) && OwnerEnabled(s, act)
    ensures Forward(s, OwnerApply(s, act))
  {
    hide Inside, ClaimsOk, ToldOk;
  }

  lemma JoinForward(s: State, step: Step)
    requires GateOk(s.gate) && Enabled(s, step) && !step.Loop? && !step.Owner?
    ensures Forward(s, Apply(s, step))
  {
    hide LoopEnabled, LoopApply, OwnerEnabled, OwnerApply;
  }

  lemma StepForward(s: State, step: Step)
    requires Inv(s) && Enabled(s, step)
    ensures Forward(s, Apply(s, step))
  {
    assert GateOk(s.gate);
    hide Inv, Forward, LoopApply, OwnerApply, LoopEnabled, OwnerEnabled;
    if step.Loop? {
      if Ends(step.act) { EndForward(s, step.c, step.act); } else { MoveForward(s, step.c, step.act); }
    } else if step.Owner? {
      OwnerForward(s, step.own);
    } else {
      JoinForward(s, step);
    }
  }

  lemma NextKeeps(s: State, s': State)
    requires Inv(s) && Next(s, s')
    ensures Inv(s') && Forward(s, s')
  {
    hide Inv, Forward, Enabled, Apply;
    var step :| Enabled(s, step) && s' == Apply(s, step);
    StepInv(s, step);
    StepForward(s, step);
  }

  /**
   Over every run the server only moves from running to shutting down to stopped; a committed
   shutdown is never released, whatever response flush fails and whichever of the signal and the
   request came first; and after the commit no serve loop or turn joins the wait group and no
   request begins dispatch.
   */
  lemma {:induction false} NeverBack(tr: seq<State>, i: nat, j: nat)
    requires Run(tr) && i <= j < |tr|
    ensures Forward(tr[i], tr[j])
    decreases j
  {
    hide Inv, Next, Init;
    RunInv(tr, i);
    if i == j {
      Still(tr[i]);
    } else {
      NeverBack(tr, i, j - 1);
      RunInv(tr, j - 1);
      NextKeeps(tr[j - 1], tr[j - 1 + 1]);
      hide Rank;
    }
  }

  lemma Still(s: State)
    requires Inv(s)
    ensures Forward(s, s)
  {
  }

  /** The count is exactly the serve loops and turns inside; so the owner never completes under one of them. */
  lemma DrainedMeansEmpty(tr: seq<State>, i: nat)
    requires Run(tr) && i < |tr|
    ensures tr[i].wg == |Inside(tr[i].loops)| + |tr[i].turns|
    ensures tr[i].gate.phase == Stopped ==> tr[i].turns == {} && forall c :: c in tr[i].loops ==> !Counted(tr[i].loops[c])
  {
    RunInv(tr, i);
    if tr[i].gate.phase == Stopped {
      forall c | c in tr[i].loops ensures !Counted(tr[i].loops[c]) {
        assert c !in Inside(tr[i].loops);
      }
    }
  }

  /**
   server.stopped goes, once, to a connection whose shutdown response reached the transport, and
   only after completion; and at most one connection ever gets that far.
   */
  lemma StoppedOnlyAcked(tr: seq<State>, i: nat, c: nat, c': nat)
    requires Run(tr) && i < |tr|
    ensures tr[i].told[c] > 0 ==> tr[i].told[c] == 1 && c in tr[i].acked && tr[i].complete && tr[i].gate.phase == Stopped
    ensures c in tr[i].acked && c' in tr[i].acked ==> c == c'
  {
    RunInv(tr, i);
  }

  /** A held control connection is waiting for a verdict the owner still owes, or has one to take. */
  lemma HeldHears(tr: seq<State>, i: nat, c: nat)
    requires Run(tr) && i < |tr| && c in tr[i].loops && tr[i].loops[c].Holding? && tr[i].owner.Finished?
    ensures Enabled(tr[i], Loop(c, HearComplete)) || Enabled(tr[i], Loop(c, HearFailed))
  {
    RunInv(tr, i);
  }
}
