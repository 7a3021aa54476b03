/** Which questions stand before the askers, and who denies them when the last asker leaves. */
module AskStanding {
  import opened Basics
  import opened Question
  import opened AskProtocol
  import opened AskStructure
  import opened AskAnswers

  type Standing = map<ToolUse, nat>
  type Detaches = map<nat, DetachPc>

  /** Has been put to the askers. */
  predicate Stood(pc: Pc) { !Before(pc) && !pc.Published? && !pc.Unheard? }

  ghost predicate StandingOk(calls: Calls, standing: Standing, collector: map<nat, nat>) {
    forall tu :: tu in standing ==>
      && standing[tu] in calls && calls[standing[tu]].toolUse == tu && standing[tu] !in collector
      && (calls[standing[tu]].pc.Telling? || calls[standing[tu]].pc.Heard?)
  }

  /** A question being waited on stands, or was answered, or was taken by a detach. */
  ghost predicate WaitingOk(calls: Calls, standing: Standing, accepted: seq<Acceptance>, collector: map<nat, nat>) {
    forall c :: c in calls && calls[c].pc.Telling? ==>
      (calls[c].toolUse in standing && standing[calls[c].toolUse] == c) || Accepted(accepted, c) || c in collector
  }

  /** A question a detach took is denied once, by that detach. */
  ghost predicate AbandonsOk(calls: Calls, collector: map<nat, nat>, abandoned: set<nat>, detaches: Detaches) {
    && (forall c :: c in abandoned ==> c in collector)
    && (forall c :: c in collector ==> c in calls && Stood(calls[c].pc))
    && (forall c :: c in collector && c !in abandoned ==>
          collector[c] in detaches && detaches[collector[c]].Abandoning? && c in detaches[collector[c]].todo)
    && (forall d, c :: d in detaches && detaches[d].Abandoning? && c in detaches[d].todo ==>
          c in collector && collector[c] == d && c !in abandoned)
  }

  ghost predicate OnItsWay(detaches: Detaches, d: nat) {
    d in detaches && (detaches[d].Checking? || detaches[d].Collecting?)
  }

  /** A question nobody can answer is about to be denied. */
  ghost predicate AttendedOk(sh: Shared, detaches: Detaches) {
    sh.standing != map[] && !HasAsker(sh) ==> exists d :: OnItsWay(detaches, d)
  }

  ghost predicate Standings(s: State) {
    && StandingOk(s.calls, s.sh.standing, s.collector)
    && WaitingOk(s.calls, s.sh.standing, s.accepted, s.collector)
    && AbandonsOk(s.calls, s.collector, s.abandoned, s.detaches)
    && AttendedOk(s.sh, s.detaches)
  }

  /** A call moves without standing up or being forgotten. */
  ghost predicate QuietMove(s: State, s': State, c: nat) {
    && OneCall(s.calls, s'.calls, c)
    && s'.sh.standing == s.sh.standing && s'.sh.subs == s.sh.subs && s'.accepted == s.accepted
    && s'.collector == s.collector && s'.abandoned == s.abandoned && s'.detaches == s.detaches
    && (c in s.calls && (s.calls[c].pc.Telling? || s.calls[c].pc.Heard?) ==> s'.calls[c].pc.Telling? || s'.calls[c].pc.Heard?)
    && (s'.calls[c].pc.Telling? ==> c in s.calls && s.calls[c].pc.Telling?)
    && (c in s.calls && Stood(s.calls[c].pc) ==> Stood(s'.calls[c].pc))
  }

  lemma MoveStandings(s: State, s': State, c: nat)
    requires Standings(s) && QuietMove(s, s', c)
    ensures Standings(s')
  {
    assert StandingOk(s'.calls, s'.sh.standing, s'.collector);
    assert WaitingOk(s'.calls, s'.sh.standing, s'.accepted, s'.collector);
    assert AbandonsOk(s'.calls, s'.collector, s'.abandoned, s'.detaches);
  }

  lemma JoinsQuiet(s: State, c: nat, tu: ToolUse, key: Key)
    requires Enabled(s, Enter(c, tu, key)) && key in s.sh.asking
    ensures QuietMove(s, EnterApply(s, c, tu, key), c)
  {
  }

  lemma CreatesQuiet(s: State, c: nat, tu: ToolUse, key: Key)
    requires Enabled(s, Enter(c, tu, key)) && key !in s.sh.asking
    ensures QuietMove(s, EnterApply(s, c, tu, key), c)
  {
  }

  lemma EntersQuiet(s: State, c: nat, tu: ToolUse, key: Key)
    requires Enabled(s, Enter(c, tu, key))
    ensures QuietMove(s, EnterApply(s, c, tu, key), c)
  {
    hide QuietMove, EnterApply;
    if key in s.sh.asking { JoinsQuiet(s, c, tu, key); } else { CreatesQuiet(s, c, tu, key); }
  }

  lemma LineQuiet(s: State, c: nat, act: LineAct)
    requires LineEnabled(s, c, act)
    ensures QuietMove(s, LineApply(s, c, act), c)
  {
    if act == LeaveIt {
      if s.sh.stands[s.calls[c].stand].queue != [] { PassQuiet(s, c); } else { LastQuiet(s, c); }
    } else if act == DropOut || act == Retire {
      EdgeQuiet(s, c, act);
    } else {
      PlainQuiet(s, c, act);
    }
  }

  lemma PlainQuiet(s: State, c: nat, act: LineAct)
    requires LineEnabled(s, c, act) && act != LeaveIt && act != DropOut && act != Retire
    ensures QuietMove(s, LineApply(s, c, act), c)
  {
    OneMove(s.calls, c, LineApply(s, c, act).calls[c].pc);
    hide OneCall, Drop, RetireIfCurrent, PassOn, LeaveLast;
  }

  lemma EdgeQuiet(s: State, c: nat, act: LineAct)
    requires LineEnabled(s, c, act) && (act == DropOut || act == Retire)
    ensures QuietMove(s, LineApply(s, c, act), c)
  {
    OneMove(s.calls, c, LineApply(s, c, act).calls[c].pc);
    hide OneCall, Without, Retired, PassOn, LeaveLast, Finish;
  }

  lemma PassQuiet(s: State, c: nat)
    requires LineEnabled(s, c, LeaveIt) && s.sh.stands[s.calls[c].stand].queue != []
    ensures QuietMove(s, LineApply(s, c, LeaveIt), c)
  {
    hide Drop, Without, RetireIfCurrent, Finish, LeaveLast, OneCall;
    OneMove(s.calls, c, HandingOff(s.sh.stands[s.calls[c].stand].queue[0]));
  }

  lemma LastQuiet(s: State, c: nat)
    requires LineEnabled(s, c, LeaveIt) && s.sh.stands[s.calls[c].stand].queue == []
    ensures QuietMove(s, LineApply(s, c, LeaveIt), c)
  {
    hide Drop, Without, RetireIfCurrent, Finish, PassOn, Retired, OneCall;
    OneMove(s.calls, c, Closing(Cancelled));
  }

  lemma PutQuiet(d: Key -> bool, s: State, c: nat, act: AskAct)
    requires PutEnabled(s, c, act) && !act.StandUp? && !act.GiveUp? && !act.ForgetIt?
    ensures QuietMove(s, PutApply(d, s, c, act), c)
  {
    OneMove(s.calls, c, PutApply(d, s, c, act).calls[c].pc);
    hide OneCall;
  }

  lemma StandsUp(d: Key -> bool, s: State, c: nat)
    requires Standings(s) && UsesOk(s.calls, s.user) && PutEnabled(s, c, StandUp)
    ensures Standings(PutApply(d, s, c, StandUp))
  {
    var s' := PutApply(d, s, c, StandUp);
    var targets := AskerSubs(s.sh.subs);
    if targets != [] {
      assert targets[0] in targets;
      assert HasAsker(s'.sh);
    }
    assert StandingOk(s'.calls, s'.sh.standing, s'.collector);
    assert WaitingOk(s'.calls, s'.sh.standing, s'.accepted, s'.collector);
    assert AbandonsOk(s'.calls, s'.collector, s'.abandoned, s'.detaches);
  }

  lemma Forgets(s: State, s': State, c: nat)
    requires Standings(s) && UsesOk(s.calls, s.user) && OneCall(s.calls, s'.calls, c)
    requires c in s.calls && (s.calls[c].pc.Unheard? || s.calls[c].pc.Heard?) && Stood(s'.calls[c].pc)
    requires !s'.calls[c].pc.Telling?
    requires s'.sh.standing == s.sh.standing - {s.calls[c].toolUse} && s'.sh.subs == s.sh.subs && s'.accepted == s.accepted
    requires s'.collector == s.collector && s'.abandoned == s.abandoned && s'.detaches == s.detaches
    ensures Standings(s')
  {
    assert WaitingOk(s'.calls, s'.sh.standing, s'.accepted, s'.collector) by { hide StandingOk, AbandonsOk, AttendedOk; }
    assert AbandonsOk(s'.calls, s'.collector, s'.abandoned, s'.detaches) by { hide StandingOk, WaitingOk, AttendedOk, UsesOk; }
    assert StandingOk(s'.calls, s'.sh.standing, s'.collector) by { hide AbandonsOk, WaitingOk, AttendedOk; }
    assert HasAsker(s'.sh) <==> HasAsker(s.sh);
    hide StandingOk, WaitingOk, AbandonsOk, UsesOk, OneCall;
  }

  /** Answered questions no longer stand, and nobody else's is touched. */
  lemma AnswersStand(s: State, s': State, ids: set<ToolUse>)
    requires Standings(s) && UsesOk(s.calls, s.user) && s'.calls == s.calls && s'.sh.subs == s.sh.subs
    requires s'.sh.standing == s.sh.standing - ids && s'.collector == s.collector && s'.abandoned == s.abandoned && s'.detaches == s.detaches
    requires forall c :: Accepted(s.accepted, c) ==> Accepted(s'.accepted, c)
    requires forall tu :: tu in ids ==>
               tu in s.sh.pending && s.sh.pending[tu].ch in s.calls &&
               !s.calls[s.sh.pending[tu].ch].pc.Returned? && s.calls[s.sh.pending[tu].ch].toolUse == tu &&
               Accepted(s'.accepted, s.sh.pending[tu].ch)
    ensures Standings(s')
  {
    assert WaitingOk(s'.calls, s'.sh.standing, s'.accepted, s'.collector);
    assert HasAsker(s'.sh) <==> HasAsker(s.sh);
  }

  lemma ClaimStands(d: Key -> bool, s: State, tu: ToolUse, ans: Answer)
    requires Standings(s) && Answers(d, s) && UsesOk(s.calls, s.user) && MuFree(s)
    ensures Standings(AnswerApply(s, tu, ans))
  {
    var s' := AnswerApply(s, tu, ans);
    if tu in s.sh.pending {
      var p := s.sh.pending[tu];
      AcceptedMore(s.accepted, [Acceptance(p.ch, ans, p.ch)]);
      assert [Acceptance(p.ch, ans, p.ch)][0].call == p.ch;
      assert Accepted(s'.accepted, p.ch);
      assert p.ch in s.calls && !s.calls[p.ch].pc.Returned? && s.calls[p.ch].toolUse == tu;
      hide Standings, Answers, UsesOk, Accepted;
      AnswersStand(s, s', {tu});
    }
  }

  lemma SettleStands(d: Key -> bool, s: State, order: seq<ToolUse>)
    requires Standings(s) && Answers(d, s) && UsesOk(s.calls, s.user) && Enabled(s, SettleAll(order))
    ensures Standings(SettleApply(s, order))
  {
    var s', ids := SettleApply(s, order), Covered(s.sh.pending, s.settling.value.matcher);
    SettledFacts(d, s, order);
    AcceptedMore(s.accepted, Settled(s.sh.pending, order, s.settling.value));
    forall tu | tu in ids
      ensures tu in s.sh.pending && s.sh.pending[tu].ch in s.calls && !s.calls[s.sh.pending[tu].ch].pc.Returned? &&
              s.calls[s.sh.pending[tu].ch].toolUse == tu && Accepted(s'.accepted, s.sh.pending[tu].ch)
    {
    }
    hide Standings, Answers, UsesOk, Accepted;
    AnswersStand(s, s', ids);
  }

  lemma AttachStands(s: State, conn: nat, asker: bool)
    requires Standings(s)
    ensures Standings(AttachApply(s, conn, asker))
  {
    var s' := AttachApply(s, conn, asker);
    if HasAsker(s.sh) {
      var u :| u in s.sh.subs && u.asker;
      assert u in s'.sh.subs;
    }
    hide StandingOk, WaitingOk, AbandonsOk;
  }

  /** The last asker to leave while a question stands takes it upon itself to have it denied. */
  lemma DetachStands(s: State, d: nat, conn: nat)
    requires Standings(s) && d !in s.detaches
    ensures Standings(DetachApply(s, d, conn))
  {
    var s' := DetachApply(s, d, conn);
    assert AbandonsOk(s'.calls, s'.collector, s'.abandoned, s'.detaches);
    assert s'.sh.standing != map[] ==> OnItsWay(s'.detaches, d);
    hide StandingOk, WaitingOk, AbandonsOk;
  }

  lemma CheckStands(s: State, d: nat)
    requires Standings(s) && Enabled(s, DetachCheck(d))
    ensures Standings(CheckApply(s, d))
  {
    var s' := CheckApply(s, d);
    assert AbandonsOk(s'.calls, s'.collector, s'.abandoned, s'.detaches);
    assert HasAsker(s'.sh) <==> HasAsker(s.sh);
    assert !HasAsker(s.sh) ==> OnItsWay(s'.detaches, d);
    hide StandingOk, WaitingOk, AbandonsOk;
  }

  lemma CollectAbandons(calls: Calls, standing: Standing, collector: map<nat, nat>, abandoned: set<nat>, detaches: Detaches, d: nat)
    requires StandingOk(calls, standing, collector) && AbandonsOk(calls, collector, abandoned, detaches)
    requires d in detaches && detaches[d].Collecting?
    ensures AbandonsOk(calls, collector + (map c | c in standing.Values :: d), abandoned, detaches[d := Abandoning(standing.Values)])
  {
    forall c | c in standing.Values ensures c in calls && Stood(calls[c].pc) && c !in collector {
      var tu :| tu in standing && standing[tu] == c;
    }
  }

  lemma CollectWaits(calls: Calls, standing: Standing, accepted: seq<Acceptance>, collector: map<nat, nat>, d: nat)
    requires WaitingOk(calls, standing, accepted, collector)
    ensures WaitingOk(calls, map[], accepted, collector + (map c | c in standing.Values :: d))
  {
    assert forall tu :: tu in standing ==> standing[tu] in standing.Values;
  }

  lemma CollectStands(s: State, d: nat)
    requires Standings(s) && Enabled(s, DetachCollect(d))
    ensures Standings(CollectApply(s, d))
  {
    CollectAbandons(s.calls, s.sh.standing, s.collector, s.abandoned, s.detaches, d);
    CollectWaits(s.calls, s.sh.standing, s.accepted, s.collector, d);
    hide WaitingOk, AbandonsOk;
  }

  lemma AbandonStands(s: State, d: nat, c: nat)
    requires Standings(s) && Enabled(s, DetachClose(d, c))
    ensures Standings(AbandonApply(s, d, c)) && c !in s.abandoned
  {
    var s' := AbandonApply(s, d, c);
    assert AbandonsOk(s'.calls, s'.collector, s'.abandoned, s'.detaches);
    assert forall x :: OnItsWay(s.detaches, x) ==> OnItsWay(s'.detaches, x);
    assert HasAsker(s'.sh) <==> HasAsker(s.sh);
    hide StandingOk, WaitingOk, AbandonsOk;
  }

  lemma PutsStand(d: Key -> bool, s: State, c: nat, act: AskAct)
    requires Standings(s) && UsesOk(s.calls, s.user) && PutEnabled(s, c, act)
    ensures Standings(PutApply(d, s, c, act))
  {
    hide Standings, UsesOk, QuietMove, OneCall;
    if act.StandUp? {
      StandsUp(d, s, c);
    } else if act.GiveUp? || act.ForgetIt? {
      OneMove(s.calls, c, PutApply(d, s, c, act).calls[c].pc);
      Forgets(s, PutApply(d, s, c, act), c);
    } else {
      PutQuiet(d, s, c, act);
      MoveStandings(s, PutApply(d, s, c, act), c);
    }
  }

  lemma CallStandings(d: Key -> bool, s: State, step: Step)
    requires Standings(s) && Answers(d, s) && Structure(s) && Enabled(s, step) && (step.Enter? || step.Line? || step.Put?)
    ensures Standings(Apply(d, s, step))
  {
    assert UsesOk(s.calls, s.user);
    hide Standings, Answers, Structure, UsesOk, QuietMove, EnterApply, LineApply, PutApply, LineEnabled, PutEnabled;
    match step
    case Enter(c, tu, key) => EntersQuiet(s, c, tu, key); MoveStandings(s, EnterApply(s, c, tu, key), c);
    case Line(c, act) => LineQuiet(s, c, act); MoveStandings(s, LineApply(s, c, act), c);
    case Put(c, act) => PutsStand(d, s, c, act);
  }

  lemma StandingsStep(d: Key -> bool, s: State, step: Step)
    requires Standings(s) && Answers(d, s) && Structure(s) && Enabled(s, step)
    ensures Standings(Apply(d, s, step))
  {
    assert UsesOk(s.calls, s.user);
    hide Standings, Answers, Structure, UsesOk, LineEnabled, PutEnabled, EnterApply, LineApply, PutApply, AnswerApply, SettleApply, AttachApply, DetachApply, CheckApply, CollectApply, AbandonApply;
    if step.Enter? || step.Line? || step.Put? { CallStandings(d, s, step); }
    else if step.AnswerIt? { ClaimStands(d, s, step.tu, step.ans); }
    else if step.SettleAll? { SettleStands(d, s, step.order); }
    else if step.Attach? { AttachStands(s, step.conn, step.asker); }
    else if step.Detach? { DetachStands(s, step.d, step.conn); }
    else if step.DetachCheck? { CheckStands(s, step.d); }
    else if step.DetachCollect? { CollectStands(s, step.d); }
    else if step.DetachClose? { AbandonStands(s, step.d, step.c); }
    else { SameStandings(s, Apply(d, s, step)); }
  }

  lemma SameStandings(s: State, s': State)
    requires Standings(s) && s'.calls == s.calls && s'.sh.standing == s.sh.standing && s'.sh.subs == s.sh.subs
    requires s'.accepted == s.accepted && s'.collector == s.collector && s'.abandoned == s.abandoned && s'.detaches == s.detaches
    ensures Standings(s')
  {
    assert HasAsker(s'.sh) <==> HasAsker(s.sh);
    hide StandingOk, WaitingOk, AbandonsOk;
  }
}
