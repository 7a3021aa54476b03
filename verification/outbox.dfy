/**
 One connection's outbox: any number of senders enqueue, one pump hands the messages to the
 transport in order, and a sender may wait until the transport has physically taken its message.
 */
module Outbox {
  import opened Basics

  type Msg = string

  /** What a wait ends with: None is success. */
  type Result = Option<string>

  /** A message, and who waits for it. */
  datatype Item = Item(msg: Msg, waiter: Option<nat>)

  /** The sections of the connection's lock, run in place. */
  class Conn {
    var queue: seq<Item>
    var stopped: bool
    var pumpErr: Result

    constructor ()
      ensures queue == [] && !stopped && pumpErr == None
    {
      queue, stopped, pumpErr := [], false, None;
    }

    /** Appends unless the pump has stopped; a waiter is then told the pump's error at once. */
    method Enqueue(item: Item) returns (queued: bool, err: Result)
      modifies this`queue
      ensures queued == !stopped
      ensures queue == if queued then old(queue) + [item] else old(queue)
      ensures !queued ==> err == pumpErr
    {
      if stopped {
        return false, pumpErr;
      }
      queue := queue + [item];
      return true, None;
    }

    method Take() returns (item: Option<Item>)
      modifies this`queue
      ensures old(queue) == (if item.Some? then [item.value] else []) + queue
      ensures item.None? ==> queue == []
    {
      if |queue| == 0 {
        return None;
      }
      item := Some(queue[0]);
      queue := queue[1..];
    }

    /** Marks the outbox stopped and tells err to every waiter still queued, in order. */
    method StopPump(err: Result) returns (told: seq<nat>)
      modifies this
      ensures stopped && pumpErr == err && queue == []
      ensures told == Waiters(old(queue))
    {
      stopped := true;
      pumpErr := err;
      var pending := queue;
      queue := [];
      told := [];
      var i := 0;
      while i < |pending|
        invariant 0 <= i <= |pending|
        invariant told + Waiters(pending[i..]) == Waiters(pending)
        invariant stopped && pumpErr == err && queue == []
      {
        assert pending[i..][1..] == pending[i + 1..];
        if pending[i].waiter.Some? {
          told := told + [pending[i].waiter.value];
        }
        i := i + 1;
      }
    }
  }

  /** Those waiting for something in items, in order. */
  function Waiters(items: seq<Item>): seq<nat> {
    if items == [] then [] else (if items[0].waiter.Some? then [items[0].waiter.value] else []) + Waiters(items[1..])
  }

  // ---- every interleaving ----

  datatype PumpPc =
    | Parked
    | Draining
    | Sending(item: Item)
    | Reporting(item: Item, err: Result)
    | Stopping(why: string)
    | Failing(rest: seq<Item>)
    | Finished

  datatype SendPc = Waking | Sent

  datatype State = State(
    queue: seq<Item>, stopped: bool, pumpErr: Result,
    wake: bool,                  // the one-slot wake channel holds a token
    pump: PumpPc,
    senders: map<nat, SendPc>,
    log: seq<Item>,              // everything ever enqueued
    accepted: seq<Item>,         // everything the transport took
    place: map<nat, nat>,        // auxiliary: where each waiter's message is in the log
    results: map<nat, Result>,   // what each waiter was told
    fault: bool)                 // a waiter was told twice

  datatype Step =
    | Send(c: nat, msg: Msg, waits: bool) | Wake(c: nat)
    | TakeWake | Abort(why: string) | Take | SendReturns(err: Result) | Report | StopAll | FailNext

  ghost predicate Enabled(s: State, step: Step) {
    match step
    case Send(c, _, _) => c !in s.senders
    case Wake(c) => c in s.senders && s.senders[c].Waking?
    case TakeWake => s.pump.Parked? && s.wake
    case Abort(_) => s.pump.Parked?
    case Take => s.pump.Draining?
    case SendReturns(_) => s.pump.Sending?
    case Report => s.pump.Reporting?
    case StopAll => s.pump.Stopping?
    case FailNext => s.pump.Failing?
  }

  /** The send that finds the pump stopped. */
  ghost function LateApply(s: State, c: nat, waits: bool): State {
    s.(senders := s.senders[c := Sent], results := if waits then s.results[c := s.pumpErr] else s.results)
  }

  ghost function SendApply(s: State, c: nat, msg: Msg, waits: bool): State {
    var item := Item(msg, if waits then Some(c) else None);
    s.(queue := s.queue + [item], log := s.log + [item], senders := s.senders[c := Waking],
       place := if waits then s.place[c := |s.log|] else s.place)
  }

  ghost function TakeApply(s: State): State
    requires s.queue != []
  {
    s.(queue := s.queue[1..], pump := Sending(s.queue[0]))
  }

  ghost function ReturnsApply(s: State, err: Result): State
    requires s.pump.Sending?
  {
    s.(accepted := if err == None then s.accepted + [s.pump.item] else s.accepted, pump := Reporting(s.pump.item, err))
  }

  /** Telling the waiter of an item, if it has one. */
  ghost function Told(results: map<nat, Result>, item: Item, err: Result): map<nat, Result> {
    if item.waiter.Some? then results[item.waiter.value := err] else results
  }

  ghost predicate ToldAlready(results: map<nat, Result>, item: Item) {
    item.waiter.Some? && item.waiter.value in results
  }

  ghost function ReportApply(s: State, next: PumpPc): State
    requires s.pump.Reporting?
  {
    s.(results := Told(s.results, s.pump.item, s.pump.err), fault := s.fault || ToldAlready(s.results, s.pump.item), pump := next)
  }

  ghost function StopApply(s: State): State
    requires s.pump.Stopping?
  {
    s.(stopped := true, pumpErr := Some(s.pump.why), queue := [], pump := Failing(s.queue))
  }

  ghost function FailApply(s: State): State
    requires s.pump.Failing? && s.pump.rest != []
  {
    s.(results := Told(s.results, s.pump.rest[0], s.pumpErr), fault := s.fault || ToldAlready(s.results, s.pump.rest[0]),
       pump := Failing(s.pump.rest[1..]))
  }

  ghost function Apply(s: State, step: Step): State
    requires Enabled(s, step)
  {
    match step
    case Send(c, msg, waits) => if s.stopped then LateApply(s, c, waits) else SendApply(s, c, msg, waits)
    case Wake(c) => s.(wake := true, senders := s.senders[c := Sent])
    case TakeWake => s.(wake := false, pump := Draining)
    case Abort(why) => s.(pump := Stopping(why))
    case Take => if s.queue == [] then s.(pump := Parked) else TakeApply(s)
    case SendReturns(err) => ReturnsApply(s, err)
    case Report => ReportApply(s, if s.pump.err == None then Draining else Stopping(s.pump.err.value))
    case StopAll => StopApply(s)
    case FailNext => if s.pump.rest == [] then s.(pump := Finished) else FailApply(s)
  }

  ghost predicate Init(s: State) {
    s.queue == [] && !s.stopped && s.pumpErr == None && !s.wake && s.pump == Parked && s.senders == map[] && s.log == [] &&
    s.accepted == [] && s.place == map[] && s.results == map[] && !s.fault
  }

  ghost predicate Next(s: State, s': State) {
    exists step :: Enabled(s, step) && s' == Apply(s, step)
  }

  ghost predicate Run(tr: seq<State>) {
    |tr| > 0 && Init(tr[0]) && forall i :: 0 <= i < |tr| - 1 ==> Next(tr[i], tr[i + 1])
  }

  // ---- the invariant ----

  /** What the pump has in hand. */
  function Held(pump: PumpPc): seq<Item> {
    match pump
    case Sending(item) => [item]
    case Reporting(item, _) => [item]
    case Failing(rest) => rest
    case _ => []
  }

  /** Everything enqueued has been reported, is in the pump's hands, or is queued, in that order. */
  ghost predicate FlowOk(log: seq<Item>, pump: PumpPc, queue: seq<Item>, reported: int) {
    0 <= reported <= |log| && log[reported..] == Held(pump) + queue
  }

  ghost function Reported(s: State): int { |s.log| - |Held(s.pump)| - |s.queue| }

  /** The transport took a prefix: all that was reported, and the item now being reported if it went well. */
  ghost predicate AcceptedOk(log: seq<Item>, accepted: seq<Item>, pump: PumpPc, reported: int) {
    && accepted <= log
    && (pump.Parked? || pump.Draining? || pump.Sending? ==> |accepted| == reported)
    && (pump.Reporting? ==> |accepted| == if pump.err == None then reported + 1 else reported)
  }

  ghost predicate WaitersOk(log: seq<Item>, place: map<nat, nat>, senders: map<nat, SendPc>) {
    && (forall w :: w in place ==> place[w] < |log| && log[place[w]].waiter == Some(w) && w in senders)
    && (forall i :: 0 <= i < |log| && log[i].waiter.Some? ==> log[i].waiter.value in place && place[log[i].waiter.value] == i)
  }

  /** A waiter was told exactly when its message was reported; success, only if the transport took it. */
  ghost predicate ResultsOk(place: map<nat, nat>, results: map<nat, Result>, senders: map<nat, SendPc>, reported: int, taken: nat) {
    && (forall w :: w in place ==> (w in results <==> place[w] < reported))
    && (forall w :: w in results ==> w in senders)
    && (forall w :: w in results && results[w] == None ==> w in place && place[w] < taken)
  }

  ghost predicate StopOk(stopped: bool, pumpErr: Result, pump: PumpPc, queue: seq<Item>) {
    && (stopped <==> pump.Failing? || pump.Finished?)
    && (stopped ==> pumpErr.Some? && queue == [])
  }

  ghost predicate WakeOk(s: State) {
    s.pump.Parked? && s.queue != [] ==> s.wake || exists c :: c in s.senders && s.senders[c].Waking?
  }

  ghost predicate Inv(s: State) {
    && FlowOk(s.log, s.pump, s.queue, Reported(s)) && AcceptedOk(s.log, s.accepted, s.pump, Reported(s))
    && WaitersOk(s.log, s.place, s.senders) && ResultsOk(s.place, s.results, s.senders, Reported(s), |s.accepted|)
    && StopOk(s.stopped, s.pumpErr, s.pump, s.queue) && WakeOk(s) && !s.fault
  }

  lemma SendWaiters(log: seq<Item>, place: map<nat, nat>, senders: map<nat, SendPc>, c: nat, item: Item)
    requires WaitersOk(log, place, senders) && c !in senders && (item.waiter == None || item.waiter == Some(c))
    ensures WaitersOk(log + [item], if item.waiter.Some? then place[c := |log|] else place, senders[c := Waking])
  {
  }

  lemma SendResults(place: map<nat, nat>, results: map<nat, Result>, senders: map<nat, SendPc>, reported: int, taken: nat, c: nat, n: nat, waits: bool)
    requires ResultsOk(place, results, senders, reported, taken) && c !in senders && reported <= n
    ensures ResultsOk(if waits then place[c := n] else place, results, senders[c := Waking], reported, taken)
  {
  }

  lemma SendKept(s: State, c: nat, msg: Msg, waits: bool)
    requires Inv(s) && c !in s.senders && !s.stopped
    ensures Inv(SendApply(s, c, msg, waits))
  {
    var s' := SendApply(s, c, msg, waits);
    var item := Item(msg, if waits then Some(c) else None);
    SendWaiters(s.log, s.place, s.senders, c, item);
    SendResults(s.place, s.results, s.senders, Reported(s), |s.accepted|, c, |s.log|, waits);
    assert s'.log[Reported(s)..] == s.log[Reported(s)..] + [item];
    assert s'.senders[c].Waking?;
    hide WaitersOk, ResultsOk;
  }

  lemma LateKept(s: State, c: nat, waits: bool)
    requires Inv(s) && c !in s.senders && s.stopped
    ensures Inv(LateApply(s, c, waits))
  {
  }

  lemma WakeKept(s: State, c: nat)
    requires Inv(s) && Enabled(s, Wake(c))
    ensures Inv(Apply(s, Wake(c)))
  {
  }

  lemma TakeKept(s: State)
    requires Inv(s) && s.pump.Draining? && s.queue != []
    ensures Inv(TakeApply(s))
  {
    assert [] + s.queue == [s.queue[0]] + s.queue[1..];
  }

  lemma ReturnsKept(s: State, err: Result)
    requires Inv(s) && s.pump.Sending?
    ensures Inv(ReturnsApply(s, err))
  {
    assert s.log[Reported(s)] == s.pump.item;
  }

  /** The next item reported is the log's next. */
  lemma ToldOk(s: State, item: Item, err: Result)
    requires WaitersOk(s.log, s.place, s.senders) && 0 <= Reported(s) < |s.log| && s.log[Reported(s)] == item
    requires ResultsOk(s.place, s.results, s.senders, Reported(s), |s.accepted|) && (err == None ==> Reported(s) < |s.accepted|)
    ensures ResultsOk(s.place, Told(s.results, item, err), s.senders, Reported(s) + 1, |s.accepted|)
    ensures !ToldAlready(s.results, item)
  {
  }

  lemma ReportKept(s: State, next: PumpPc)
    requires Inv(s) && s.pump.Reporting? && (if s.pump.err == None then next.Draining? else next.Stopping?)
    ensures Inv(ReportApply(s, next))
  {
    assert s.log[Reported(s)..][0] == s.pump.item && s.log[Reported(s) + 1..] == s.log[Reported(s)..][1..];
    ToldOk(s, s.pump.item, s.pump.err);
    hide WaitersOk, ResultsOk, Told, ToldAlready;
  }

  lemma StopKept(s: State)
    requires Inv(s) && s.pump.Stopping?
    ensures Inv(StopApply(s))
  {
    assert s.queue + [] == [] + s.queue;
    hide WaitersOk, ResultsOk;
  }

  lemma FailKept(s: State)
    requires Inv(s) && s.pump.Failing? && s.pump.rest != []
    ensures Inv(FailApply(s))
  {
    assert s.log[Reported(s)..][0] == s.pump.rest[0] && s.log[Reported(s) + 1..] == s.log[Reported(s)..][1..];
    ToldOk(s, s.pump.rest[0], s.pumpErr);
    hide WaitersOk, ResultsOk;
  }

  lemma QuietKept(s: State, step: Step)
    requires Inv(s) && Enabled(s, step)
    requires step.TakeWake? || step.Abort? || (step.Take? && s.queue == []) || (step.FailNext? && s.pump.rest == [])
    ensures Inv(Apply(s, step))
  {
    hide WaitersOk, ResultsOk;
  }

  lemma StepInv(s: State, step: Step)
    requires Inv(s) && Enabled(s, step)
    ensures Inv(Apply(s, step))
  {
    hide Inv, SendApply, LateApply, TakeApply, ReturnsApply, ReportApply, StopApply, FailApply;
    match step
    case Send(c, msg, waits) => if s.stopped { LateKept(s, c, waits); } else { SendKept(s, c, msg, waits); }
    case Wake(c) => WakeKept(s, c);
    case Take => if s.queue == [] { QuietKept(s, step); } else { TakeKept(s); }
    case SendReturns(err) => ReturnsKept(s, err);
    case Report => ReportKept(s, if s.pump.err == None then Draining else Stopping(s.pump.err.value));
    case StopAll => StopKept(s);
    case FailNext => if s.pump.rest == [] { QuietKept(s, step); } else { FailKept(s); }
    case _ => QuietKept(s, step);
  }

  lemma NextInv(s: State, s': State)
    requires Inv(s) && Next(s, s')
    ensures Inv(s')
  {
    hide Inv, Enabled, Apply;
    var step :| Enabled(s, step) && s' == Apply(s, step);
    StepInv(s, step);
  }

  lemma InitInv(s: State)
    requires Init(s)
    ensures Inv(s)
  {
  }

  /** Every state of every run satisfies the invariant. */
  lemma {:induction false} RunInv(tr: seq<State>, i: nat)
    requires Run(tr) && i < |tr|
    ensures Inv(tr[i])
  {
    hide Inv, Next;
    if i == 0 {
      InitInv(tr[0]);
    } else {
      RunInv(tr, i - 1);
      NextInv(tr[i - 1], tr[i - 1 + 1]);
    }
  }

  // ---- the theorems ----

  /** What the transport took is always a prefix of what was enqueued, in that order. */
  lemma AcceptedPrefix(tr: seq<State>, i: nat)
    requires Run(tr) && i < |tr|
    ensures tr[i].accepted <= tr[i].log
  {
    RunInv(tr, i);
  }

  /** Success means the transport took the waiter's own message and everything enqueued before it. */
  lemma SuccessMeans(tr: seq<State>, i: nat, w: nat)
    requires Run(tr) && i < |tr| && w in tr[i].results && tr[i].results[w] == None
    ensures w in tr[i].place && tr[i].place[w] < |tr[i].log| && tr[i].log[tr[i].place[w]].waiter == Some(w)
    ensures tr[i].log[..tr[i].place[w] + 1] <= tr[i].accepted
  {
    RunInv(tr, i);
  }

  /**
   No waiter is told twice, and none is left without an answer: one not told yet is queued or in
   the pump's hands, so once the pump has finished every waiter has its one result.
   */
  lemma ToldExactlyOnce(tr: seq<State>, i: nat, w: nat)
    requires Run(tr) && i < |tr|
    ensures !tr[i].fault
    ensures w in tr[i].place && w !in tr[i].results ==> exists item :: item in Held(tr[i].pump) + tr[i].queue && item.waiter == Some(w)
    ensures tr[i].pump.Finished? && w in tr[i].place ==> w in tr[i].results
  {
    RunInv(tr, i);
    var s := tr[i];
    if w in s.place && w !in s.results {
      assert s.log[Reported(s)..][s.place[w] - Reported(s)].waiter == Some(w);
      assert s.log[s.place[w]] in Held(s.pump) + s.queue;
    }
  }

  /** A stopped outbox always has an error to give. */
  lemma StoppedHasError(tr: seq<State>, i: nat)
    requires Run(tr) && i < |tr| && tr[i].stopped
    ensures tr[i].pumpErr.Some?
  {
    RunInv(tr, i);
  }

  /** The pump never sleeps on a message nobody is about to wake it for. */
  lemma NoLostWake(tr: seq<State>, i: nat)
    requires Run(tr) && i < |tr| && tr[i].pump.Parked? && tr[i].queue != []
    ensures tr[i].wake || exists c :: c in tr[i].senders && tr[i].senders[c].Waking?
  {
    RunInv(tr, i);
  }
}
