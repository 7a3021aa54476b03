/** When the answers a call takes were given: never before it asked. */
module AskTiming {
  import opened Basics
  import opened Question
  import opened AskProtocol
  import opened AskStructure
  import opened AskAnswers

  /** A question that has been answered cannot be joined any more. */
  ghost predicate RetiredOk(calls: Calls, accepted: seq<Acceptance>, asking: map<Key, nat>) {
    forall i, k :: 0 <= i < |accepted| && k in asking && accepted[i].call in calls ==> asking[k] != calls[accepted[i].call].stand
  }

  /** The operator's own answer behind accepted answer i came after every call on the question had asked. */
  ghost predicate Timely(calls: Calls, accepted: seq<Acceptance>, i: nat, g: nat) {
    && g <= i < |accepted| && accepted[g] == Acceptance(accepted[i].granter, accepted[i].ans, accepted[i].granter)
    && accepted[i].call in calls
    && forall c :: c in calls && calls[c].stand == calls[accepted[i].call].stand ==> calls[c].asked <= g
  }

  ghost predicate InTime(calls: Calls, accepted: seq<Acceptance>, i: nat) { exists g :: Timely(calls, accepted, i, g) }

  ghost predicate TimelyOk(calls: Calls, accepted: seq<Acceptance>) {
    forall i :: 0 <= i < |accepted| ==> InTime(calls, accepted, i)
  }

  /** No call has asked since the last answer while that answer is being applied to the other questions. */
  ghost predicate AskedOk(calls: Calls, accepted: seq<Acceptance>, settling: Option<Settling>) {
    && (forall c :: c in calls ==> calls[c].asked <= |accepted|)
    && (settling.Some? ==>
          && accepted != []
          && accepted[|accepted| - 1] == Acceptance(settling.value.granter, settling.value.ans, settling.value.granter)
          && forall c :: c in calls ==> calls[c].asked < |accepted|)
  }

  ghost predicate Timing(s: State) {
    RetiredOk(s.calls, s.accepted, s.sh.asking) && TimelyOk(s.calls, s.accepted) && AskedOk(s.calls, s.accepted, s.settling)
  }

  // ---- steps that neither ask nor answer ----

  ghost predicate CallsAlike(calls: Calls, calls': Calls) {
    calls'.Keys == calls.Keys && forall c :: c in calls ==> calls'[c].stand == calls[c].stand && calls'[c].asked == calls[c].asked
  }

  ghost predicate FewerAsking(asking: map<Key, nat>, asking': map<Key, nat>) {
    forall k :: k in asking' ==> k in asking && asking'[k] == asking[k]
  }

  lemma AlikeTimely(calls: Calls, calls': Calls, accepted: seq<Acceptance>)
    requires TimelyOk(calls, accepted) && CallsAlike(calls, calls')
    ensures TimelyOk(calls', accepted)
  {
    forall i | 0 <= i < |accepted| ensures InTime(calls', accepted, i) {
      assert InTime(calls, accepted, i);
      var g :| Timely(calls, accepted, i, g);
      assert Timely(calls', accepted, i, g);
    }
  }

  ghost predicate Quiet(s: State, s': State) {
    && CallsAlike(s.calls, s'.calls) && FewerAsking(s.sh.asking, s'.sh.asking)
    && s'.accepted == s.accepted && s'.settling == s.settling
  }

  lemma QuietTiming(s: State, s': State)
    requires Timing(s) && Quiet(s, s')
    ensures Timing(s')
  {
    AlikeTimely(s.calls, s'.calls, s.accepted);
    hide TimelyOk;
  }

  lemma SameTiming(s: State, s': State)
    requires Timing(s) && s'.calls == s.calls && s'.sh.asking == s.sh.asking && s'.accepted == s.accepted && s'.settling == s.settling
    ensures Timing(s')
  {
  }

  lemma MoveAlike(calls: Calls, c: nat, pc: Pc)
    requires c in calls
    ensures CallsAlike(calls, At1(calls, c, pc))
  {
  }

  lemma PassQuiet(s: State, c: nat)
    requires LineEnabled(s, c, LeaveIt) && s.sh.stands[s.calls[c].stand].queue != []
    ensures Quiet(s, LineApply(s, c, LeaveIt))
  {
    MoveAlike(s.calls, c, HandingOff(s.sh.stands[s.calls[c].stand].queue[0]));
    hide CallsAlike;
  }

  lemma LastQuiet(s: State, c: nat)
    requires LineEnabled(s, c, LeaveIt) && s.sh.stands[s.calls[c].stand].queue == []
    ensures Quiet(s, LineApply(s, c, LeaveIt))
  {
    MoveAlike(s.calls, c, Closing(Cancelled));
    hide CallsAlike;
  }

  lemma DropQuiet(s: State, c: nat)
    requires LineEnabled(s, c, DropOut)
    ensures Quiet(s, LineApply(s, c, DropOut))
  {
    MoveAlike(s.calls, c, LineApply(s, c, DropOut).calls[c].pc);
    hide CallsAlike;
  }

  lemma LineQuiet(s: State, c: nat, act: LineAct)
    requires LineEnabled(s, c, act) && act != LeaveIt && act != DropOut
    ensures Quiet(s, LineApply(s, c, act))
  {
    MoveAlike(s.calls, c, LineApply(s, c, act).calls[c].pc);
    hide CallsAlike;
  }

  lemma LineTiming(s: State, c: nat, act: LineAct)
    requires Timing(s) && LineEnabled(s, c, act)
    ensures Timing(LineApply(s, c, act))
  {
    assert c in s.calls && s.calls[c].stand in s.sh.stands;
    hide Timing, Quiet, LineApply, LineEnabled;
    if act == LeaveIt && s.sh.stands[s.calls[c].stand].queue != [] { PassQuiet(s, c); } else if act == LeaveIt { LastQuiet(s, c); } else if act == DropOut { DropQuiet(s, c); } else { LineQuiet(s, c, act); }
    QuietTiming(s, LineApply(s, c, act));
  }

  lemma PutTiming(d: Key -> bool, s: State, c: nat, act: AskAct)
    requires Timing(s) && PutEnabled(s, c, act)
    ensures Timing(PutApply(d, s, c, act))
  {
    hide AskerSubs, Ids;
    var s' := PutApply(d, s, c, act);
    MoveAlike(s.calls, c, s'.calls[c].pc);
    hide Timing, CallsAlike;
    QuietTiming(s, s');
  }

  // ---- a call asks ----

  lemma EnterTimely(calls: Calls, accepted: seq<Acceptance>, c: nat, k: Call)
    requires TimelyOk(calls, accepted) && c !in calls
    requires forall i :: 0 <= i < |accepted| && accepted[i].call in calls ==> calls[accepted[i].call].stand != k.stand
    ensures TimelyOk(calls[c := k], accepted)
  {
    var calls' := calls[c := k];
    forall i | 0 <= i < |accepted| ensures InTime(calls', accepted, i) {
      assert InTime(calls, accepted, i);
      var g :| Timely(calls, accepted, i, g);
      assert Timely(calls', accepted, i, g);
    }
  }

  lemma EnterRetired(calls: Calls, accepted: seq<Acceptance>, asking: map<Key, nat>, c: nat, k: Call)
    requires RetiredOk(calls, accepted, asking) && c !in calls
    requires forall i :: 0 <= i < |accepted| ==> accepted[i].call in calls && calls[accepted[i].call].stand != c
    ensures RetiredOk(calls[c := k], accepted, asking) && RetiredOk(calls[c := k], accepted, asking[k.key := c])
  {
  }

  /** No answered question is the one a call joins or makes. */
  lemma EnterFresh(d: Key -> bool, s: State, c: nat, tu: ToolUse, key: Key)
    requires Timing(s) && Tables(d, s) && Enabled(s, Enter(c, tu, key))
    ensures forall i :: 0 <= i < |s.accepted| ==>
              s.accepted[i].call in s.calls && s.calls[s.accepted[i].call].stand != c &&
              (key in s.sh.asking ==> s.calls[s.accepted[i].call].stand != s.sh.asking[key])
  {
    hide TimelyOk, AskedOk, InFlight, AskingOk, PendingOk;
  }

  lemma EnterAsked(calls: Calls, accepted: seq<Acceptance>, c: nat, k: Call)
    requires AskedOk(calls, accepted, None) && k.asked == |accepted|
    ensures AskedOk(calls[c := k], accepted, None)
  {
  }

  lemma EnterTiming(d: Key -> bool, s: State, c: nat, tu: ToolUse, key: Key)
    requires Timing(s) && Tables(d, s) && Enabled(s, Enter(c, tu, key))
    ensures Timing(EnterApply(s, c, tu, key))
  {
    EnterFresh(d, s, c, tu, key);
    hide TimelyOk, RetiredOk, AskedOk, Tables, InFlight;
    var st := if key in s.sh.asking then s.sh.asking[key] else c;
    var k := Call(tu, key, st, if key in s.sh.asking then Parked else Raising, |s.accepted|);
    EnterRetired(s.calls, s.accepted, s.sh.asking, c, k);
    EnterTimely(s.calls, s.accepted, c, k);
    EnterAsked(s.calls, s.accepted, c, k);
  }

  // ---- answers are accepted ----

  lemma MoreTimely(calls: Calls, accepted: seq<Acceptance>, more: seq<Acceptance>)
    requires TimelyOk(calls, accepted)
    ensures forall i :: 0 <= i < |accepted| ==> InTime(calls, accepted + more, i)
  {
    forall i | 0 <= i < |accepted| ensures InTime(calls, accepted + more, i) {
      assert InTime(calls, accepted, i);
      var g :| Timely(calls, accepted, i, g);
      assert Timely(calls, accepted + more, i, g);
    }
  }

  lemma AnswerTiming(d: Key -> bool, s: State, tu: ToolUse, ans: Answer)
    requires Timing(s) && Tables(d, s) && MuFree(s)
    ensures Timing(AnswerApply(s, tu, ans))
  {
    if tu in s.sh.pending {
      var s', p := AnswerApply(s, tu, ans), s.sh.pending[tu];
      var more := [Acceptance(p.ch, ans, p.ch)];
      MoreTimely(s.calls, s.accepted, more);
      assert Timely(s.calls, s'.accepted, |s.accepted|, |s.accepted|) && InTime(s.calls, s'.accepted, |s.accepted|);
      assert RetiredOk(s.calls, s'.accepted, s'.sh.asking);
      hide InTime, Timely, RetiredOk;
    }
  }

  lemma SettledTimely(d: Key -> bool, s: State, order: seq<ToolUse>)
    requires Timing(s) && Tables(d, s) && Enabled(s, SettleAll(order))
    ensures TimelyOk(s.calls, s.accepted + Settled(s.sh.pending, order, s.settling.value))
  {
    var more := Settled(s.sh.pending, order, s.settling.value);
    var n := |s.accepted|;
    MoreTimely(s.calls, s.accepted, more);
    forall i | n <= i < n + |more| ensures InTime(s.calls, s.accepted + more, i) {
      assert (s.accepted + more)[i] == more[i - n] && order[i - n] in s.sh.pending;
      assert Timely(s.calls, s.accepted + more, i, n - 1);
    }
    hide InTime;
  }

  lemma SettledRetired(d: Key -> bool, s: State, order: seq<ToolUse>)
    requires Timing(s) && Tables(d, s) && Enabled(s, SettleAll(order))
    ensures RetiredOk(s.calls, s.accepted + Settled(s.sh.pending, order, s.settling.value), Settle(s.sh, s.settling.value.matcher).asking)
  {
    var more, asking' := Settled(s.sh.pending, order, s.settling.value), Settle(s.sh, s.settling.value.matcher).asking;
    forall i, k | 0 <= i < |more| && k in asking' ensures more[i].call in s.calls && asking'[k] != s.calls[more[i].call].stand {
      assert order[i] in Covered(s.sh.pending, s.settling.value.matcher);
      assert s.sh.pending[order[i]].key !in asking';
    }
    hide Settled, Settle, Enabled, Tables;
    assert FewerAsking(s.sh.asking, asking');
  }

  lemma SettleTiming(d: Key -> bool, s: State, order: seq<ToolUse>)
    requires Timing(s) && Tables(d, s) && Enabled(s, SettleAll(order))
    ensures Timing(SettleApply(s, order))
  {
    SettledTimely(d, s, order);
    SettledRetired(d, s, order);
    hide TimelyOk, RetiredOk, Tables, Settle;
  }

  /** What the rest of the invariant says of the tables. */
  ghost predicate Tables(d: Key -> bool, s: State) {
    && CallsOk(s.calls, s.sh.stands) && AskingOk(s.calls, s.sh.stands, s.holder, s.sh.asking)
    && PendingOk(d, s.calls, s.sh.pending, s.accepted) && AcceptedOk(s.calls, s.accepted)
  }

  lemma KnownTables(d: Key -> bool, s: State)
    requires Structure(s) && Answers(d, s)
    ensures Tables(d, s)
  {
  }

  /** Every step keeps the answers no older than the calls that take them. */
  lemma TimingStep(d: Key -> bool, s: State, step: Step)
    requires Timing(s) && Structure(s) && Answers(d, s) && Enabled(s, step)
    ensures Timing(Apply(d, s, step))
  {
    hide Timing, Structure, Answers, Tables;
    KnownTables(d, s);
    match step
    case Enter(c, tu, key) => EnterTiming(d, s, c, tu, key);
    case Line(c, act) => LineTiming(s, c, act);
    case Put(c, act) => PutTiming(d, s, c, act);
    case AnswerIt(tu, ans) => AnswerTiming(d, s, tu, ans);
    case SettleAll(order) => SettleTiming(d, s, order);
    case _ => SameTiming(s, Apply(d, s, step));
  }
}
