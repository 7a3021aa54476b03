/** What holds in every reachable state of the permission-question protocol. */
module AskTheorems {
  import opened Basics
  import opened Question
  import opened AskProtocol
  import opened AskStructure
  import opened AskAnswers
  import opened AskStanding
  import opened AskTelling
  import opened AskTiming
  import opened AskEntries

  ghost predicate Inv(d: Key -> bool, s: State) {
    Structure(s) && Answers(d, s) && Standings(s) && AskTelling.Telling(s) && Timing(s) && Entries(s) && !s.fault
  }

  lemma InitInv(d: Key -> bool, s: State)
    requires Init(s)
    ensures Inv(d, s)
  {
    assert Ids(s.sh.subs) == [];
    assert forall u: nat, c: nat :: Tellings(s, u, c) == 0;
  }

  lemma LineSafe(s: State, c: nat, act: LineAct)
    requires Structure(s) && !s.fault && LineEnabled(s, c, act)
    ensures !LineApply(s, c, act).fault
  {
    hide Structure;
    if act == HandOff { HandOffStep(s, c); }
    if act == CloseDone { CloseStep(s, c); }
  }

  lemma PutSafe(d: Key -> bool, s: State, c: nat, act: AskAct)
    requires PutEnabled(s, c, act)
    ensures PutApply(d, s, c, act).fault == s.fault
  {
    hide Publish, Stand, Forget, AskerSubs, Ids;
  }

  /** No step closes a closed channel or sends on a full one. */
  lemma StepSafe(d: Key -> bool, s: State, step: Step)
    requires Inv(d, s) && Enabled(s, step)
    ensures !Apply(d, s, step).fault
  {
    hide Structure, Answers, Standings, AskTelling.Telling, Timing, Entries, LineApply, PutApply, LineEnabled, PutEnabled;
    if step.Line? {
      LineSafe(s, step.c, step.line);
    } else if step.Put? {
      PutSafe(d, s, step.c, step.put);
    } else if step.Send? {
      SendStep(d, s, step.i);
    } else if step.DetachClose? {
      AbandonStands(s, step.d, step.c);
    }
  }

  lemma StepInv(d: Key -> bool, s: State, step: Step)
    requires Inv(d, s) && Enabled(s, step)
    ensures Inv(d, Apply(d, s, step)) && Grows(s, Apply(d, s, step))
  {
    hide Structure, Answers, Standings, AskTelling.Telling, Timing, Entries, Apply, Enabled;
    StepSafe(d, s, step);
    StructureStep(d, s, step);
    AnswersStep(d, s, step);
    StandingsStep(d, s, step);
    TellingStep(d, s, step);
    TimingStep(d, s, step);
    EntriesStep(d, s, step);
  }

  lemma NextInv(d: Key -> bool, s: State, s': State)
    requires Inv(d, s) && Next(d, s, s')
    ensures Inv(d, s') && Grows(s, s')
  {
    hide Inv;
    var step :| Enabled(s, step) && s' == Apply(d, s, step);
    StepInv(d, s, step);
  }

  /** Every state of every run satisfies the invariant. */
  lemma {:induction false} RunInv(d: Key -> bool, tr: seq<State>, i: nat)
    requires Run(d, tr) && i < |tr|
    ensures Inv(d, tr[i])
  {
    hide Inv, Init, Next;
    if i == 0 {
      InitInv(d, tr[0]);
    } else {
      RunInv(d, tr, i - 1);
      NextInv(d, tr[i - 1], tr[i - 1 + 1]);
    }
  }

  // ---- one holder, one queue ----

  /** h alone holds question st, and the queue is exactly the calls parked behind it. */
  ghost predicate HeldAlone(s: State, st: nat, h: nat)
    requires st in s.sh.stands
  {
    var a := s.sh.stands[st];
    && h in s.calls && s.calls[h].stand == st && !s.calls[h].pc.Returned? && !s.calls[h].pc.HandingOff?
    && Distinct(a.queue) && h !in a.queue
    && (forall x :: x in s.calls && s.calls[x].stand == st && x != h ==>
          (x in a.queue && Queueing(s.calls[x].pc)) ||
          (x !in a.queue && (s.calls[x].pc.Returned? || s.calls[x].pc.HandingOff?)))
    && (forall x :: x in a.queue ==> x in s.calls && s.calls[x].stand == st)
    && a.waiting == |a.queue| + (if s.calls[h].pc == Closing(Cancelled) then 0 else 1)
  }

  /**
   In every interleaving each unfinished question has exactly one holder; every other call in
   flight on it is queued, once, or has already handed it on; waiting counts the queue and the
   holder until it departs; and only unfinished questions can be joined.
   */
  lemma OneHolder(d: Key -> bool, tr: seq<State>, i: nat)
    requires Run(d, tr) && i < |tr|
    ensures forall st :: st in tr[i].sh.stands && tr[i].sh.stands[st].done.None? ==> exists h :: HeldAlone(tr[i], st, h)
    ensures forall k :: k in tr[i].sh.asking ==>
              tr[i].sh.asking[k] in tr[i].sh.stands && tr[i].sh.stands[tr[i].sh.asking[k]].done.None? &&
              tr[i].sh.stands[tr[i].sh.asking[k]].key == k
  {
    RunInv(d, tr, i);
    var s := tr[i];
    forall st | st in s.sh.stands && s.sh.stands[st].done.None? ensures exists h :: HeldAlone(s, st, h) {
      HolderAlone(s, st);
    }
  }

  lemma HolderAlone(s: State, st: nat)
    requires Structure(s) && st in s.sh.stands && s.sh.stands[st].done.None?
    ensures st in s.holder && HeldAlone(s, st, s.holder[st])
  {
    var a := s.sh.stands[st];
    var h := s.holder[st];
    assert HeldBy(s.calls, s.sh.stands, st, a, h) && QueueOk(s.calls, st, a);
    NotQueued(s.calls, s.sh.stands, s.holder, h);
    forall x | x in s.calls && s.calls[x].stand == st && x != h
      ensures (x in a.queue && Queueing(s.calls[x].pc)) ||
              (x !in a.queue && (s.calls[x].pc.Returned? || s.calls[x].pc.HandingOff?))
    {
      assert !Holds(s.calls, s.sh.stands, x);
    }
  }

  // ---- nobody is stranded ----

  /** c waits on a question that is pending, stands, and has an asker attached. */
  ghost predicate AwaitsOperator(s: State, c: nat) {
    && c in s.calls && s.calls[c].pc == AskProtocol.Telling([])
    && s.calls[c].toolUse in s.sh.pending && s.sh.pending[s.calls[c].toolUse].ch == c
    && s.calls[c].toolUse in s.sh.standing && s.sh.standing[s.calls[c].toolUse] == c
    && HasAsker(s.sh)
  }

  predicate InSelect(pc: Pc) { pc.Parked? || pc == AskProtocol.Telling([]) }

  /**
   The steps that move call c on and that nobody outside the session has to take: its own, except
   its cancellation; the send of its answer; the hand-over to it; the end of the settlement whose
   lock it waits for; and the steps of the detach that denies its question.
   */
  ghost predicate Serves(s: State, c: nat, step: Step) {
    c in s.calls &&
    match step
    case Line(x, act) => (x == c && act != TakeCancel) || (act == HandOff && x in s.calls && s.calls[x].pc == HandingOff(c))
    case Put(x, act) => x == c && act != HearCancel
    case Send(i) => i < |s.accepted| && s.accepted[i].call == c
    case SettleAll(order) => !InSelect(s.calls[c].pc)
    case DetachClose(d, x) => x == c
    case DetachCheck(d) => Unattended(s, c)
    case DetachCollect(d) => Unattended(s, c)
    case _ => false
  }

  /** c's question stands and nobody attached can answer it. */
  ghost predicate Unattended(s: State, c: nat) {
    c in s.calls && s.calls[c].toolUse in s.sh.standing && s.sh.standing[s.calls[c].toolUse] == c && !HasAsker(s.sh)
  }

  /** A step that serves c can be taken now. */
  ghost predicate Moves(s: State, c: nat) {
    exists step :: Serves(s, c, step) && Enabled(s, step)
  }

  lemma {:induction false} Listed(ids: set<ToolUse>) returns (order: seq<ToolUse>)
    ensures Distinct(order) && forall tu :: tu in order <==> tu in ids
    decreases ids
  {
    if ids == {} {
      order := [];
    } else {
      var tu :| tu in ids;
      var rest := Listed(ids - {tu});
      order := rest + [tu];
    }
  }

  /** What a call does next by itself, unless it is in one of the two selects or has returned. */
  function OwnStep(s: State, c: nat): Step
    requires c in s.calls
  {
    match s.calls[c].pc
    case Dropping => Line(c, DropOut)
    case Raising => Put(c, PublishPending)
    case Published => Put(c, StandUp)
    case Unheard => Put(c, GiveUp)
    case Heard(_) => Put(c, ForgetIt)
    case Retiring(_) => Line(c, Retire)
    case Leaving => Line(c, LeaveIt)
    case HandingOff(_) => Line(c, HandOff)
    case Closing(_) => Line(c, CloseDone)
    case _ => Put(c, Tell)
  }

  /** A call in flight outside the selects can move, or the settlement it waits for can end. */
  lemma CallMoves(s: State, c: nat)
    requires At(s, c) && !InSelect(s.calls[c].pc) && !s.calls[c].pc.Returned?
    ensures Moves(s, c)
  {
    if s.settling.Some? {
      var order := Listed(Covered(s.sh.pending, s.settling.value.matcher));
      assert Serves(s, c, SettleAll(order)) && Enabled(s, SettleAll(order));
    } else {
      var step := OwnStep(s, c);
      assert Serves(s, c, step) && Enabled(s, step);
    }
  }

  /** A call waiting for its answer can be moved on, unless only the operator can act. */
  lemma WaiterMoves(d: Key -> bool, s: State, c: nat)
    requires Answers(d, s) && Standings(s) && At(s, c) && s.calls[c].pc == AskProtocol.Telling([])
    ensures AwaitsOperator(s, c) || Moves(s, c)
  {
    if Accepted(s.accepted, c) {
      AnsweredMoves(d, s, c);
    } else if c in s.collector {
      AbandonedMoves(s, c);
    } else {
      assert s.calls[c].toolUse in s.sh.pending && s.sh.pending[s.calls[c].toolUse].ch == c;
      hide Answers, Accepted;
      assert s.calls[c].toolUse in s.sh.standing && s.sh.standing[s.calls[c].toolUse] == c;
      if !HasAsker(s.sh) { UnattendedMoves(s, c); }
    }
  }

  lemma AnsweredMoves(d: Key -> bool, s: State, c: nat)
    requires Answers(d, s) && At(s, c) && s.calls[c].pc == AskProtocol.Telling([]) && Accepted(s.accepted, c)
    ensures Moves(s, c)
  {
    var i :| 0 <= i < |s.accepted| && s.accepted[i].call == c;
    var step := if i in s.unsent then Send(i) else Put(c, HearAnswer);
    assert Serves(s, c, step) && Enabled(s, step);
  }

  lemma AbandonedMoves(s: State, c: nat)
    requires Standings(s) && At(s, c) && s.calls[c].pc == AskProtocol.Telling([]) && c in s.collector
    ensures Moves(s, c)
  {
    var step := if c in s.abandoned then Put(c, HearAbandon) else DetachClose(s.collector[c], c);
    assert Serves(s, c, step) && Enabled(s, step);
  }

  /** A question standing with no asker attached is on its way to being denied. */
  lemma UnattendedMoves(s: State, c: nat)
    requires Standings(s) && Unattended(s, c)
    ensures Moves(s, c)
  {
    assert s.sh.standing != map[];
    var id :| OnItsWay(s.detaches, id);
    var step := if s.detaches[id].Checking? then DetachCheck(id) else DetachCollect(id);
    assert Serves(s, c, step) && Enabled(s, step);
  }

  /** A parked call can be moved on, unless it is on its unfinished question's queue. */
  lemma ParkedMoves(s: State, c: nat)
    requires Structure(s) && At(s, c) && s.calls[c].pc.Parked?
    ensures Moves(s, c) || (s.sh.stands[s.calls[c].stand].done.None? && c in s.sh.stands[s.calls[c].stand].queue)
  {
    if s.sh.stands[s.calls[c].stand].done.Some? {
      assert Serves(s, c, Line(c, TakeDone)) && Enabled(s, Line(c, TakeDone));
    } else if c !in s.sh.stands[s.calls[c].stand].queue {
      assert !Queued(s.calls, s.sh.stands, c) && c in s.popper;
      var step := if c in s.promoted then Line(c, TakePromote) else Line(s.popper[c], HandOff);
      assert At(s, step.c);
      assert Serves(s, c, step) && Enabled(s, step);
    }
  }

  /** c waits on a question an attached asker can still answer, or a step that serves it can be taken. */
  ghost predicate Attended(s: State, c: nat) { AwaitsOperator(s, c) || Moves(s, c) }

  /**
   No call is ever stranded. In every reachable state a call in flight is attended to, or is
   queued behind the one holder of its question and that holder is attended to. Whichever calls
   cancelled, and whenever they did.
   */
  lemma NeverStranded(d: Key -> bool, tr: seq<State>, i: nat, c: nat)
    requires Run(d, tr) && i < |tr| && InFlight(tr[i], c)
    ensures
      || Attended(tr[i], c)
      || (At(tr[i], c) && c in tr[i].sh.stands[tr[i].calls[c].stand].queue &&
          exists h :: HeldAlone(tr[i], tr[i].calls[c].stand, h) && Attended(tr[i], h))
  {
    RunInv(d, tr, i);
    var s := tr[i];
    assert At(s, c) by { assert CallsOk(s.calls, s.sh.stands); }
    if !InSelect(s.calls[c].pc) {
      CallMoves(s, c);
    } else if s.calls[c].pc.Parked? {
      QueuedBehind(d, s, c);
    } else {
      WaiterMoves(d, s, c);
    }
  }

  lemma QueuedBehind(d: Key -> bool, s: State, c: nat)
    requires Inv(d, s) && At(s, c) && s.calls[c].pc.Parked?
    ensures Moves(s, c) ||
            (c in s.sh.stands[s.calls[c].stand].queue && exists h :: HeldAlone(s, s.calls[c].stand, h) && Attended(s, h))
  {
    ParkedMoves(s, c);
    if !Moves(s, c) {
      var st := s.calls[c].stand;
      HolderAlone(s, st);
      var h := s.holder[st];
      assert At(s, h);
      HolderAttended(d, s, h);
    }
  }

  /** A holder that is parked has been handed the question. */
  lemma HolderAttended(d: Key -> bool, s: State, h: nat)
    requires Inv(d, s) && At(s, h) && s.sh.stands[s.calls[h].stand].done.None? && HeldAlone(s, s.calls[h].stand, h)
    ensures Attended(s, h)
  {
    assert Structure(s) && Answers(d, s) && Standings(s);
    hide Inv, Structure, Answers, Standings;
    if !InSelect(s.calls[h].pc) {
      CallMoves(s, h);
    } else if s.calls[h].pc.Parked? {
      ParkedMoves(s, h);
    } else {
      WaiterMoves(d, s, h);
    }
  }

  // ---- where an Allow comes from ----

  /**
   After c had asked, the operator was shown c's own question, raised by c or by a call c shared
   it with, of this very input under this very matcher, and answered it.
   */
  ghost predicate AllowedAsAsked(s: State, c: nat, ans: Answer)
    requires c in s.calls
  {
    exists i :: s.calls[c].asked <= i < |s.accepted| && s.accepted[i].ans == ans && s.accepted[i].granter == s.accepted[i].call &&
      s.accepted[i].call in s.calls && s.calls[s.accepted[i].call].stand == s.calls[c].stand && s.calls[s.accepted[i].call].key == s.calls[c].key
  }

  /** After c had asked, the operator allowed the matcher for the whole session. */
  ghost predicate AllowedForSession(s: State, c: nat, ans: Answer)
    requires c in s.calls
  {
    SessionAllow(ans) &&
    exists i :: s.calls[c].asked <= i < |s.accepted| && s.accepted[i].ans == ans && s.accepted[i].granter == s.accepted[i].call &&
      s.accepted[i].call in s.calls && s.calls[s.accepted[i].call].key.matcher == s.calls[c].key.matcher
  }

  /**
   Every answer a call returns was given after the call had asked: to the call's own question,
   which has the same matcher and the same input, or as a session-scope allow for its matcher
   and the call is not dangerous.
   */
  lemma AnswerProvenance(d: Key -> bool, tr: seq<State>, i: nat, c: nat)
    requires Run(d, tr) && i < |tr| && c in tr[i].calls && tr[i].calls[c].pc.Returned? && tr[i].calls[c].pc.out.Answered?
    ensures var ans := tr[i].calls[c].pc.out.ans;
            AllowedAsAsked(tr[i], c, ans) || (AllowedForSession(tr[i], c, ans) && !d(tr[i].calls[c].key))
  {
    RunInv(d, tr, i);
    var s := tr[i];
    var ans := s.calls[c].pc.out.ans;
    assert Grants(s.accepted, s.calls, s.calls[c].stand, ans);
    var j :| 0 <= j < |s.accepted| && s.accepted[j].ans == ans && s.accepted[j].call in s.calls && s.calls[s.accepted[j].call].stand == s.calls[c].stand;
    assert InTime(s.calls, s.accepted, j);
    var g :| Timely(s.calls, s.accepted, j, g);
    GrantedBy(d, s, c, j, g);
  }

  lemma GrantedBy(d: Key -> bool, s: State, c: nat, j: nat, g: nat)
    requires Inv(d, s) && c in s.calls && Timely(s.calls, s.accepted, j, g) && s.calls[s.accepted[j].call].stand == s.calls[c].stand
    ensures AllowedAsAsked(s, c, s.accepted[j].ans) || (AllowedForSession(s, c, s.accepted[j].ans) && !d(s.calls[c].key))
  {
    assert CallsOk(s.calls, s.sh.stands) && JustifiedOk(d, s.calls, s.accepted);
    hide Inv;
    assert s.calls[s.accepted[j].call].key == s.calls[c].key && s.calls[c].asked <= g;
    if s.accepted[j].granter == s.accepted[j].call {
      assert s.accepted[g].call == s.accepted[j].call;
    } else {
      assert s.calls[s.accepted[g].call].key.matcher == s.calls[c].key.matcher;
    }
  }

  /** So a dangerous call never takes an answer given for different input. */
  lemma DangerousOwnAnswer(d: Key -> bool, tr: seq<State>, i: nat, c: nat)
    requires Run(d, tr) && i < |tr| && c in tr[i].calls && tr[i].calls[c].pc.Returned? && tr[i].calls[c].pc.out.Answered?
    requires d(tr[i].calls[c].key)
    ensures AllowedAsAsked(tr[i], c, tr[i].calls[c].pc.out.ans)
  {
    AnswerProvenance(d, tr, i, c);
  }

  // ---- at most one answer, and nothing left behind ----

  /** Each raised question accepts at most one answer, direct or settled, and no channel is closed or filled twice. */
  lemma AcceptedOnce(d: Key -> bool, tr: seq<State>, i: nat)
    requires Run(d, tr) && i < |tr|
    ensures forall j, k :: 0 <= j < k < |tr[i].accepted| ==> tr[i].accepted[j].call != tr[i].accepted[k].call
    ensures !tr[i].fault
  {
    RunInv(d, tr, i);
  }

  /** When no call is in flight nothing is being asked. */
  lemma NothingLeft(d: Key -> bool, tr: seq<State>, i: nat)
    requires Run(d, tr) && i < |tr| && forall c :: !InFlight(tr[i], c)
    ensures tr[i].sh.asking == map[] && tr[i].sh.pending == map[] && tr[i].sh.standing == map[]
  {
    RunInv(d, tr, i);
    var s := tr[i];
    forall k | k in s.sh.asking ensures false {
      HolderAlone(s, s.sh.asking[k]);
      assert InFlight(s, s.holder[s.sh.asking[k]]);
    }
    forall tu | tu in s.sh.pending ensures false { assert InFlight(s, s.sh.pending[tu].ch); }
    forall tu | tu in s.sh.standing ensures false { assert InFlight(s, s.sh.standing[tu]); }
  }

  // ---- told exactly once ----

  lemma {:induction false} TellingsGrow(d: Key -> bool, tr: seq<State>, i: nat, j: nat, u: nat, c: nat)
    requires Run(d, tr) && i <= j < |tr|
    ensures Tellings(tr[i], u, c) <= Tellings(tr[j], u, c)
    decreases j
  {
    hide Next, Init, Tellings;
    if i < j {
      TellingsGrow(d, tr, i, j - 1, u, c);
      TellingsNext(d, tr, j - 1, u, c);
    }
  }

  lemma TellingsNext(d: Key -> bool, tr: seq<State>, j: nat, u: nat, c: nat)
    requires Run(d, tr) && j + 1 < |tr|
    ensures Tellings(tr[j], u, c) <= Tellings(tr[j + 1], u, c)
    ensures Tellings(tr[j], u, c) < Tellings(tr[j + 1], u, c) ==> Overlap(tr[j + 1], u, c)
  {
    hide Inv, Init, Next;
    RunInv(d, tr, j);
    NextInv(d, tr[j], tr[j + 1]);
  }

  lemma RunTold(d: Key -> bool, tr: seq<State>, i: nat, u: nat, c: nat)
    requires Run(d, tr) && i < |tr|
    ensures Tellings(tr[i], u, c) <= 1 && (Overlap(tr[i], u, c) ==> Tellings(tr[i], u, c) == 1)
  {
    RunInv(d, tr, i);
    assert ToldOk(tr[i]);
  }

  /**
   Once an asker's subscription has overlapped a standing question it is told of it exactly once:
   never twice, and until it was told the notification is owed by an attach or listed by the
   raiser, whose next step can be taken.
   */
  lemma ToldOnce(d: Key -> bool, tr: seq<State>, i: nat, j: nat, u: nat, c: nat)
    requires Run(d, tr) && i <= j < |tr| && Overlap(tr[i], u, c)
    ensures tr[j].told[(u, c)] <= 1
    ensures (u, c) !in tr[j].owed && !InRest(tr[j].calls, u, c) <==> tr[j].told[(u, c)] == 1
    ensures tr[j].told[(u, c)] == 0 ==> Enabled(tr[j], Replay(u, c)) || Enabled(tr[j], Put(c, Tell))
  {
    TellingsGrow(d, tr, i, j, u, c);
    RunTold(d, tr, i, u, c);
    RunTold(d, tr, j, u, c);
    StandsKnown(d, tr, j, c);
    hide Run, Overlap, Tellings;
    OnceTold(tr[j], u, c);
  }

  lemma StandsKnown(d: Key -> bool, tr: seq<State>, i: nat, c: nat)
    requires Run(d, tr) && i < |tr|
    ensures c in tr[i].calls ==> At(tr[i], c)
  {
    RunInv(d, tr, i);
    assert CallsOk(tr[i].calls, tr[i].sh.stands);
  }

  lemma OnceTold(s: State, u: nat, c: nat)
    requires Tellings(s, u, c) == 1 && (c in s.calls ==> At(s, c))
    ensures s.told[(u, c)] <= 1
    ensures (u, c) !in s.owed && !InRest(s.calls, u, c) <==> s.told[(u, c)] == 1
    ensures s.told[(u, c)] == 0 ==> Enabled(s, Replay(u, c)) || Enabled(s, Put(c, Tell))
  {
    if InRest(s.calls, u, c) {
      assert PutEnabled(s, c, Tell);
    }
    hide PutEnabled;
  }

  lemma NothingTold(d: Key -> bool, tr: seq<State>, u: nat, c: nat)
    requires Run(d, tr)
    ensures Tellings(tr[0], u, c) == 0
  {
  }

  /** And it is told of no question it never overlapped. */
  lemma {:induction false} ToldOnlyOverlapping(d: Key -> bool, tr: seq<State>, j: nat, u: nat, c: nat)
    requires Run(d, tr) && j < |tr| && Tellings(tr[j], u, c) > 0
    ensures exists i :: 0 <= i <= j && Overlap(tr[i], u, c)
  {
    hide Next, Init, Tellings, Overlap;
    if j == 0 {
      NothingTold(d, tr, u, c);
    } else {
      TellingsNext(d, tr, j - 1, u, c);
      if Tellings(tr[j - 1], u, c) > 0 {
        ToldOnlyOverlapping(d, tr, j - 1, u, c);
      } else {
        assert Overlap(tr[j - 1 + 1], u, c);
      }
    }
  }
}
