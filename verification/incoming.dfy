/**
 The incoming half of a peer: a reader that never blocks fills a queue, one consumer pops it,
 and any number of callers put barriers into it and wait for the consumer to reach them.
 */
module Incoming {
  import opened Basics

  type Msg = string

  const MaxIncoming: nat := 4096

  datatype Queued = Message(msg: Msg) | Barrier(id: nat)

  datatype End = Eof | Overflow | Failed

  /** The messages of a queue, in order. */
  function Messages(q: seq<Queued>): (r: seq<Msg>)
    ensures |r| <= |q|
  {
    if q == [] then [] else (if q[0].Message? then [q[0].msg] else []) + Messages(q[1..])
  }

  lemma {:induction false} MessagesAppend(q: seq<Queued>, x: Queued)
    ensures Messages(q + [x]) == Messages(q) + (if x.Message? then [x.msg] else [])
  {
    if q != [] {
      assert (q + [x])[1..] == q[1..] + [x];
      MessagesAppend(q[1..], x);
    }
  }

  /** The sections of the queue's lock, run in place. */
  class QueueConn {
    var q: seq<Queued>
    var err: Option<End>
    var done: bool

    constructor ()
      ensures q == [] && err == None && !done
    {
      q, err, done := [], None, false;
    }

    /** Queues one message, or refuses it past the cap. */
    method Push(msg: Msg) returns (ok: bool)
      requires |Messages(q)| <= MaxIncoming
      modifies this`q
      ensures ok == (|old(q)| < MaxIncoming)
      ensures q == if ok then old(q) + [Message(msg)] else old(q)
      ensures |Messages(q)| <= MaxIncoming
    {
      if |q| >= MaxIncoming {
        return false;
      }
      MessagesAppend(q, Message(msg));
      q := q + [Message(msg)];
      return true;
    }

    method Stop(e: End)
      modifies this`err, this`done
      ensures err == Some(e) && done
    {
      err := Some(e);
      done := true;
    }

    /** Queues a barrier, unless the reader has stopped. */
    method PutBarrier(b: nat) returns (queued: bool)
      modifies this`q
      ensures queued == !done
      ensures q == if queued then old(q) + [Barrier(b)] else old(q)
    {
      if done {
        return false;
      }
      q := q + [Barrier(b)];
      return true;
    }

    /**
     One pass of Recv under the lock: barriers at the head are closed and the first message is
     taken. What is taken and what is left are together the queue, and no message is passed over.
     */
    method TakeNext() returns (msg: Option<Msg>, closed: seq<nat>)
      modifies this`q
      ensures forall i :: 0 <= i < |closed| ==> i < |old(q)| && old(q)[i] == Barrier(closed[i])
      ensures msg.Some? ==> |closed| < |old(q)| && old(q)[|closed|] == Message(msg.value) && q == old(q)[|closed| + 1..]
      ensures msg.None? ==> |closed| == |old(q)| && q == []
      ensures Messages(old(q)) == (if msg.Some? then [msg.value] else []) + Messages(q)
    {
      closed := [];
      while |q| > 0
        invariant |closed| <= |old(q)| && q == old(q)[|closed|..]
        invariant forall i :: 0 <= i < |closed| ==> old(q)[i] == Barrier(closed[i])
        invariant Messages(old(q)) == Messages(q)
        decreases |q|
      {
        var it := q[0];
        q := q[1..];
        if it.Message? {
          return Some(it.msg), closed;
        }
        closed := closed + [it.id];
      }
      return None, closed;
    }
  }

  // ---- every interleaving ----

  datatype ReaderPc = Reading | Signalling | Ending(e: End) | Closing | Over

  /** Popping holds the queue's lock. */
  datatype ConsumerPc = Idle | Popping | Parked

  datatype Why = Reached | SawFinished | SawClosed | Cancelled | AlreadyDone

  datatype SyncPc = SyncSignalling | Waiting | Returned(why: Why)

  datatype State = State(
    q: seq<Queued>, err: Option<End>, done: bool,
    wake: bool,                     // the one-slot wake channel holds a token
    finished: bool, closed: bool,   // closed channels
    reader: ReaderPc, consumer: ConsumerPc,
    syncs: map<nat, SyncPc>,
    pushed: seq<Msg>, returned: seq<Msg>,
    mark: map<nat, nat>,            // auxiliary: messages that had arrived when each Sync was called
    reached: map<nat, nat>,         // closed barriers, and how many messages had been returned by then
    ended: bool,                    // Recv returned the reader's end error
    fault: bool)                    // a barrier was closed twice

  datatype Step =
    | Push(msg: Msg) | ReadFails(e: End) | Signal | StopQueue | CloseFinished | ShutDown
    | Sync(b: nat) | SyncSignal(b: nat) | SyncReturn(b: nat, why: Why)
    | CallRecv | Pop | TakeWake | TakeFinished | TakeClosed | CancelRecv

  ghost predicate Enabled(s: State, step: Step) {
    match step
    case Push(_) => s.reader.Reading? && !s.consumer.Popping?
    case ReadFails(_) => s.reader.Reading?
    case Signal => s.reader.Signalling?
    case StopQueue => s.reader.Ending? && !s.consumer.Popping?
    case CloseFinished => s.reader.Closing?
    case ShutDown => true
    case Sync(b) => b !in s.syncs && !s.consumer.Popping?
    case SyncSignal(b) => b in s.syncs && s.syncs[b].SyncSignalling?
    case SyncReturn(b, why) =>
      b in s.syncs && s.syncs[b].Waiting? &&
      (match why
       case Reached => b in s.reached
       case SawFinished => s.finished
       case SawClosed => s.closed
       case Cancelled => true
       case AlreadyDone => false)
    case CallRecv => s.consumer.Idle?
    case Pop => s.consumer.Popping?
    case TakeWake => s.consumer.Parked? && s.wake
    case TakeFinished => s.consumer.Parked? && s.finished
    case TakeClosed => s.consumer.Parked? && s.closed
    case CancelRecv => s.consumer.Parked?
  }

  ghost function PushApply(s: State, msg: Msg): State {
    if |s.q| >= MaxIncoming then s.(reader := Ending(Overflow))
    else s.(q := s.q + [Message(msg)], pushed := s.pushed + [msg], reader := Signalling)
  }

  ghost function SyncApply(s: State, b: nat): State {
    if s.done then LateApply(s, b) else PutApply(s, b)
  }

  /** A Sync that finds the reader stopped succeeds at once. */
  ghost function LateApply(s: State, b: nat): State {
    s.(syncs := s.syncs[b := Returned(AlreadyDone)], mark := s.mark[b := |s.pushed|])
  }

  ghost function PutApply(s: State, b: nat): State {
    s.(q := s.q + [Barrier(b)], syncs := s.syncs[b := SyncSignalling], mark := s.mark[b := |s.pushed|])
  }

  ghost function PopApply(s: State): State {
    if s.q == [] then PopEmpty(s) else if s.q[0].Message? then PopMessage(s) else PopBarrier(s)
  }

  ghost function PopEmpty(s: State): State {
    s.(consumer := if s.done then Idle else Parked, ended := s.ended || s.done)
  }

  ghost function PopMessage(s: State): State
    requires s.q != [] && s.q[0].Message?
  {
    s.(q := s.q[1..], returned := s.returned + [s.q[0].msg], consumer := Idle)
  }

  ghost function PopBarrier(s: State): State
    requires s.q != [] && s.q[0].Barrier?
  {
    var b := s.q[0].id;
    s.(q := s.q[1..], reached := s.reached[b := |s.returned|], fault := s.fault || b in s.reached)
  }

  ghost function Apply(s: State, step: Step): State
    requires Enabled(s, step)
  {
    match step
    case Push(msg) => PushApply(s, msg)
    case ReadFails(e) => s.(reader := Ending(e))
    case Signal => s.(wake := true, reader := Reading)
    case StopQueue => s.(err := Some(s.reader.e), done := true, reader := Closing)
    case CloseFinished => s.(finished := true, reader := Over)
    case ShutDown => s.(closed := true)
    case Sync(b) => SyncApply(s, b)
    case SyncSignal(b) => s.(wake := true, syncs := s.syncs[b := Waiting])
    case SyncReturn(b, why) => s.(syncs := s.syncs[b := Returned(why)])
    case CallRecv => s.(consumer := Popping)
    case Pop => PopApply(s)
    case TakeWake => s.(wake := false, consumer := Popping)
    case TakeFinished => s.(consumer := Popping)
    case TakeClosed => s.(consumer := Idle)
    case CancelRecv => s.(consumer := Idle)
  }

  ghost predicate Init(s: State) {
    s.q == [] && s.err == None && !s.done && !s.wake && !s.finished && !s.closed && s.reader == Reading && s.consumer == Idle &&
    s.syncs == map[] && s.pushed == [] && s.returned == [] && s.mark == map[] && s.reached == map[] && !s.ended && !s.fault
  }

  ghost predicate Next(s: State, s': State) {
    exists step :: Enabled(s, step) && s' == Apply(s, step)
  }

  ghost predicate Run(tr: seq<State>) {
    |tr| > 0 && Init(tr[0]) && forall i :: 0 <= i < |tr| - 1 ==> Next(tr[i], tr[i + 1])
  }

  // ---- the invariant ----

  /** Each barrier in q stands behind exactly the messages that were queued before it, n of them already returned. */
  ghost predicate InPlace(q: seq<Queued>, n: nat, mark: map<nat, nat>) {
    q == [] ||
    (if q[0].Message? then InPlace(q[1..], n + 1, mark)
     else q[0].id in mark && mark[q[0].id] == n && InPlace(q[1..], n, mark))
  }

  lemma {:induction false} InPlaceAppend(q: seq<Queued>, n: nat, mark: map<nat, nat>, x: Queued)
    requires InPlace(q, n, mark) && (x.Barrier? ==> x.id in mark && mark[x.id] == n + |Messages(q)|)
    ensures InPlace(q + [x], n, mark)
  {
    if q == [] {
      assert ([] + [x])[1..] == [];
    } else {
      assert (q + [x])[1..] == q[1..] + [x];
      InPlaceAppend(q[1..], if q[0].Message? then n + 1 else n, mark, x);
    }
  }

  lemma {:induction false} InPlaceMore(q: seq<Queued>, n: nat, mark: map<nat, nat>, b: nat, m: nat)
    requires InPlace(q, n, mark) && b !in mark
    ensures InPlace(q, n, mark[b := m])
  {
    if q != [] {
      InPlaceMore(q[1..], if q[0].Message? then n + 1 else n, mark, b, m);
    }
  }

  /** A barrier is in the queue once, or was reached, from the moment it is queued. */
  ghost predicate BarriersOk(q: seq<Queued>, n: nat, mark: map<nat, nat>, reached: map<nat, nat>, syncs: map<nat, SyncPc>) {
    && (forall b :: multiset(q)[Barrier(b)] == if b in syncs && syncs[b] != Returned(AlreadyDone) && b !in reached then 1 else 0)
    && (forall b :: b in reached ==> b in mark && reached[b] == mark[b] && reached[b] <= n)
    && mark.Keys == syncs.Keys
    && (forall b :: b in syncs && syncs[b] == Returned(Reached) ==> b in reached)
  }

  ghost predicate Signaller(s: State) {
    s.reader.Signalling? || exists b :: b in s.syncs && s.syncs[b].SyncSignalling?
  }

  /** The consumer never sleeps on something it has not been, or is not about to be, woken for. */
  ghost predicate WakeOk(consumer: ConsumerPc, reader: ReaderPc, waiting: bool, wake: bool, signaller: bool, done: bool, finished: bool) {
    && (consumer.Parked? && waiting ==> wake || signaller)
    && (consumer.Parked? && done ==> finished || reader.Closing?)
    && (done <==> reader.Closing? || reader.Over?)
    && (finished <==> reader.Over?)
  }

  /** A Sync that returned for a reason had it. */
  ghost predicate WhyOk(syncs: map<nat, SyncPc>, done: bool, finished: bool, closed: bool) {
    && (forall b :: b in syncs && syncs[b] == Returned(SawFinished) ==> finished)
    && (forall b :: b in syncs && syncs[b] == Returned(AlreadyDone) ==> done)
    && (forall b :: b in syncs && syncs[b] == Returned(SawClosed) ==> closed)
  }

  ghost predicate Awake(s: State) {
    WakeOk(s.consumer, s.reader, s.q != [], s.wake, Signaller(s), s.done, s.finished) && WhyOk(s.syncs, s.done, s.finished, s.closed)
  }

  ghost predicate Inv(s: State) {
    && s.returned + Messages(s.q) == s.pushed && |Messages(s.q)| <= MaxIncoming
    && InPlace(s.q, |s.returned|, s.mark) && BarriersOk(s.q, |s.returned|, s.mark, s.reached, s.syncs) && Awake(s)
    && (s.ended ==> s.done && Messages(s.q) == []) && !s.fault
  }

  lemma PushKept(s: State, msg: Msg)
    requires Inv(s) && Enabled(s, Push(msg))
    ensures Inv(PushApply(s, msg))
  {
    PushWake(s, msg);
    if |s.q| < MaxIncoming {
      PushQueue(s.q, s.returned, s.pushed, s.mark, msg);
      MessageBarriers(s.q, Message(msg), |s.returned|, s.mark, s.reached, s.syncs);
    }
    hide InPlace, Messages, BarriersOk, Awake;
  }

  lemma PushQueue(q: seq<Queued>, returned: seq<Msg>, pushed: seq<Msg>, mark: map<nat, nat>, msg: Msg)
    requires returned + Messages(q) == pushed && |q| < MaxIncoming && InPlace(q, |returned|, mark)
    ensures returned + Messages(q + [Message(msg)]) == pushed + [msg] && |Messages(q + [Message(msg)])| <= MaxIncoming
    ensures InPlace(q + [Message(msg)], |returned|, mark)
  {
    MessagesAppend(q, Message(msg));
    InPlaceAppend(q, |returned|, mark, Message(msg));
    assert |Messages(q)| <= |q|;
    hide InPlace, Messages;
  }

  lemma PushWake(s: State, msg: Msg)
    requires Awake(s) && s.reader.Reading?
    ensures Awake(PushApply(s, msg))
  {
    hide WhyOk;
  }

  lemma MessageBarriers(q: seq<Queued>, x: Queued, n: nat, mark: map<nat, nat>, reached: map<nat, nat>, syncs: map<nat, SyncPc>)
    requires BarriersOk(q, n, mark, reached, syncs) && x.Message?
    ensures BarriersOk(q + [x], n, mark, reached, syncs)
  {
  }

  lemma PutBarriers(q: seq<Queued>, n: nat, mark: map<nat, nat>, reached: map<nat, nat>, syncs: map<nat, SyncPc>, b: nat, m: nat)
    requires BarriersOk(q, n, mark, reached, syncs) && b !in syncs
    ensures BarriersOk(q + [Barrier(b)], n, mark[b := m], reached, syncs[b := SyncSignalling])
  {
  }

  lemma PutWake(s: State, b: nat)
    requires Awake(s) && b !in s.syncs
    ensures Awake(PutApply(s, b))
  {
    assert PutApply(s, b).syncs[b].SyncSignalling?;
    assert Signaller(PutApply(s, b));
    hide Signaller;
  }

  lemma PutKept(s: State, b: nat)
    requires Inv(s) && b !in s.syncs && !s.done
    ensures Inv(PutApply(s, b))
  {
    var s' := PutApply(s, b);
    MessagesAppend(s.q, Barrier(b));
    InPlaceMore(s.q, |s.returned|, s.mark, b, |s.pushed|);
    InPlaceAppend(s.q, |s.returned|, s'.mark, Barrier(b));
    PutBarriers(s.q, |s.returned|, s.mark, s.reached, s.syncs, b, |s.pushed|);
    PutWake(s, b);
    hide InPlace, Messages, BarriersOk, Awake;
  }

  lemma LateKept(s: State, b: nat)
    requires Inv(s) && b !in s.syncs && s.done
    ensures Inv(LateApply(s, b))
  {
    InPlaceMore(s.q, |s.returned|, s.mark, b, |s.pushed|);
    LateBarriers(s.q, |s.returned|, s.mark, s.reached, s.syncs, b, |s.pushed|);
    LateWake(s, b);
    hide InPlace, Messages, BarriersOk, Awake;
  }

  lemma LateBarriers(q: seq<Queued>, n: nat, mark: map<nat, nat>, reached: map<nat, nat>, syncs: map<nat, SyncPc>, b: nat, m: nat)
    requires BarriersOk(q, n, mark, reached, syncs) && b !in syncs
    ensures BarriersOk(q, n, mark[b := m], reached, syncs[b := Returned(AlreadyDone)])
  {
  }

  lemma LateWake(s: State, b: nat)
    requires Awake(s) && b !in s.syncs && s.done
    ensures Awake(LateApply(s, b))
  {
    if Signaller(s) && !s.reader.Signalling? {
      var x :| x in s.syncs && s.syncs[x].SyncSignalling?;
      assert LateApply(s, b).syncs[x].SyncSignalling?;
    }
  }

  /** The head leaves the queue: a message is returned, a barrier is reached. */
  lemma HeadBarriers(q: seq<Queued>, n: nat, mark: map<nat, nat>, reached: map<nat, nat>, syncs: map<nat, SyncPc>)
    requires BarriersOk(q, n, mark, reached, syncs) && InPlace(q, n, mark) && q != []
    ensures q[0].Message? ==> BarriersOk(q[1..], n + 1, mark, reached, syncs)
    ensures q[0].Barrier? ==> q[0].id !in reached && BarriersOk(q[1..], n, mark, reached[q[0].id := n], syncs)
  {
    assert q == [q[0]] + q[1..];
    assert multiset(q)[q[0]] > 0;
  }

  lemma PopMessageKept(s: State)
    requires Inv(s) && s.consumer.Popping? && s.q != [] && s.q[0].Message?
    ensures Inv(PopMessage(s))
  {
    HeadBarriers(s.q, |s.returned|, s.mark, s.reached, s.syncs);
    assert s.returned + Messages(s.q) == s.returned + [s.q[0].msg] + Messages(s.q[1..]);
    assert InPlace(s.q[1..], |s.returned + [s.q[0].msg]|, s.mark);
    hide InPlace, Messages, BarriersOk, WhyOk;
  }

  lemma PopBarrierKept(s: State)
    requires Inv(s) && s.consumer.Popping? && s.q != [] && s.q[0].Barrier?
    ensures Inv(PopBarrier(s))
  {
    HeadBarriers(s.q, |s.returned|, s.mark, s.reached, s.syncs);
    assert Messages(s.q[1..]) == Messages(s.q) && InPlace(s.q[1..], |s.returned|, s.mark);
    hide InPlace, Messages, BarriersOk, WhyOk;
  }

  lemma PopEmptyKept(s: State)
    requires Inv(s) && s.consumer.Popping? && s.q == []
    ensures Inv(PopEmpty(s))
  {
    hide InPlace, BarriersOk, WhyOk;
  }

  lemma SyncMoves(s: State, step: Step)
    requires Inv(s) && Enabled(s, step) && (step.SyncSignal? || step.SyncReturn?)
    ensures Inv(Apply(s, step))
  {
    var s' := Apply(s, step);
    MoveBarriers(s, step);
    MoveWake(s, step);
    hide InPlace, Messages, BarriersOk, Awake;
  }

  lemma MoveBarriers(s: State, step: Step)
    requires BarriersOk(s.q, |s.returned|, s.mark, s.reached, s.syncs) && Enabled(s, step) && (step.SyncSignal? || step.SyncReturn?)
    ensures var s' := Apply(s, step); BarriersOk(s'.q, |s'.returned|, s'.mark, s'.reached, s'.syncs)
  {
  }

  lemma MoveWake(s: State, step: Step)
    requires Awake(s) && Enabled(s, step) && (step.SyncSignal? || step.SyncReturn?)
    ensures Awake(Apply(s, step))
  {
    if step.SyncReturn? && Signaller(s) { StillSignals(s, Apply(s, step), step.b); }
    hide Signaller;
  }

  lemma StillSignals(s: State, s': State, b: nat)
    requires Signaller(s) && s'.reader == s.reader && b in s.syncs && !s.syncs[b].SyncSignalling?
    requires b in s'.syncs && s'.syncs == s.syncs[b := s'.syncs[b]]
    ensures Signaller(s')
  {
    if !s.reader.Signalling? {
      var x :| x in s.syncs && s.syncs[x].SyncSignalling?;
      assert s'.syncs[x].SyncSignalling?;
    }
  }

  lemma OthersKept(s: State, step: Step)
    requires Inv(s) && Enabled(s, step) && !step.Push? && !step.Sync? && !step.Pop? && !step.SyncSignal? && !step.SyncReturn?
    ensures Inv(Apply(s, step))
  {
    hide InPlace, Messages, BarriersOk;
    assert forall b :: b in Apply(s, step).syncs ==> Apply(s, step).syncs[b] == s.syncs[b];
  }

  lemma StepInv(s: State, step: Step)
    requires Inv(s) && Enabled(s, step)
    ensures Inv(Apply(s, step))
  {
    hide Inv;
    if step.Push? { PushKept(s, step.msg); }
    else if step.Sync? { if s.done { LateKept(s, step.b); } else { PutKept(s, step.b); } }
    else if step.Pop? { if s.q == [] { PopEmptyKept(s); } else if s.q[0].Message? { PopMessageKept(s); } else { PopBarrierKept(s); } }
    else if step.SyncSignal? || step.SyncReturn? { SyncMoves(s, step); }
    else { OthersKept(s, step); }
  }

  lemma NextInv(s: State, s': State)
    requires Inv(s) && Next(s, s')
    ensures Inv(s')
  {
    hide Inv, Enabled, Apply;
    var step :| Enabled(s, step) && s' == Apply(s, step);
    StepInv(s, step);
  }

  lemma InitInv(s: State)
    requires Init(s)
    ensures Inv(s)
  {
  }

  /** Every state of every run satisfies the invariant. */
  lemma {:induction false} RunInv(tr: seq<State>, i: nat)
    requires Run(tr) && i < |tr|
    ensures Inv(tr[i])
  {
    hide Inv, Next;
    if i == 0 {
      InitInv(tr[0]);
    } else {
      RunInv(tr, i - 1);
      NextInv(tr[i - 1], tr[i - 1 + 1]);
    }
  }

  // ---- the theorems ----

  /** Messages are returned in arrival order, none lost or repeated, and never more than the cap are unread. */
  lemma InOrder(tr: seq<State>, i: nat)
    requires Run(tr) && i < |tr|
    ensures tr[i].returned + Messages(tr[i].q) == tr[i].pushed && |Messages(tr[i].q)| <= MaxIncoming
  {
    RunInv(tr, i);
  }

  /** A barrier is reached when exactly the messages queued before it have been returned, by earlier Recvs, and is closed once. */
  lemma BarrierExact(tr: seq<State>, i: nat, b: nat)
    requires Run(tr) && i < |tr|
    ensures b in tr[i].reached ==> b in tr[i].mark && tr[i].reached[b] == tr[i].mark[b] <= |tr[i].returned|
    ensures !tr[i].fault
  {
    RunInv(tr, i);
  }

  /** The reader's end error is returned only after every message that ever arrived was. */
  lemma EndAfterAll(tr: seq<State>, i: nat)
    requires Run(tr) && i < |tr| && tr[i].ended
    ensures tr[i].returned == tr[i].pushed && tr[i].done
  {
    RunInv(tr, i);
  }

  /** With one consumer no wakeup is lost: whenever it sleeps with something to see, a token is there or on its way. */
  lemma NoLostWakeup(tr: seq<State>, i: nat)
    requires Run(tr) && i < |tr| && tr[i].consumer.Parked? && (tr[i].q != [] || tr[i].done)
    ensures tr[i].wake || tr[i].finished || Signaller(tr[i]) || tr[i].reader.Closing?
  {
    RunInv(tr, i);
  }

  /** An earlier message than Sync b has not been returned yet. */
  ghost predicate Unread(s: State, b: nat) { b in s.mark && s.mark[b] > |s.returned| }

  /**
   What Sync's success means: the consumer took every message that had arrived before the call,
   unless the reader had stopped or the peer had been closed by then.
   */
  lemma SyncMeans(tr: seq<State>, i: nat, b: nat)
    requires Run(tr) && i < |tr| && b in tr[i].syncs && tr[i].syncs[b].Returned? && tr[i].syncs[b].why != Cancelled
    requires !tr[i].done && !tr[i].closed
    ensures b in tr[i].mark && tr[i].mark[b] <= |tr[i].returned|
  {
    RunInv(tr, i);
  }

  /** Exactly when a Sync breaks its word at once: the reader has stopped and a message is still queued. */
  lemma SyncAtOnceFailsIff(tr: seq<State>, i: nat, b: nat)
    requires Run(tr) && i < |tr| && Enabled(tr[i], Sync(b))
    ensures var s := Apply(tr[i], Sync(b));
            b in s.syncs && (s.syncs[b].Returned? && Unread(s, b) <==> tr[i].done && Messages(tr[i].q) != [])
  {
    RunInv(tr, i);
  }

  /**
   Exactly when a waiting Sync may break it: the reader has closed its channel or the peer was
   closed, and a message that had arrived before the call is unread.
   */
  lemma WaitingSyncFailsIff(tr: seq<State>, i: nat, b: nat)
    requires Run(tr) && i < |tr| && b in tr[i].syncs && tr[i].syncs[b].Waiting?
    ensures (exists why :: why != Cancelled && Enabled(tr[i], SyncReturn(b, why)) && Unread(Apply(tr[i], SyncReturn(b, why)), b)) <==>
            (tr[i].finished || tr[i].closed) && Unread(tr[i], b)
  {
    RunInv(tr, i);
    var s := tr[i];
    assert b in s.reached ==> !Unread(s, b);
    if (s.finished || s.closed) && Unread(s, b) {
      var why := if s.finished then SawFinished else SawClosed;
      assert Enabled(s, SyncReturn(b, why)) && Unread(Apply(s, SyncReturn(b, why)), b);
    }
  }

  /** Once the reader has stopped Sync succeeds with a message that arrived before it still unread. */
  lemma SyncAfterEndPromisesNothing() returns (tr: seq<State>)
    ensures Run(tr)
    ensures var s := tr[|tr| - 1];
            0 in s.syncs && s.syncs[0] == Returned(AlreadyDone) && s.pushed == ["m"] && s.returned == []
  {
    var s0 := State([], None, false, false, false, false, Reading, Idle, map[], [], [], map[], map[], false, false);
    var s1 := PushApply(s0, "m");
    var s2 := Apply(s1, Signal);
    var s3 := Apply(s2, ReadFails(Eof));
    var s4 := Apply(s3, StopQueue);
    var s5 := SyncApply(s4, 0);
    assert Enabled(s0, Push("m")) && Enabled(s1, Signal) && Enabled(s2, ReadFails(Eof)) && Enabled(s3, StopQueue) && Enabled(s4, Sync(0));
    assert Next(s0, s1) by { assert s1 == Apply(s0, Push("m")); }
    assert Next(s4, s5) by { assert s5 == Apply(s4, Sync(0)); }
    tr := [s0, s1, s2, s3, s4, s5];
  }
}
