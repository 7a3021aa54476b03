/** Which questions can be joined: a question's entry stays on the table until the first answer given under its key. */
module AskEntries {
  import opened Basics
  import opened Question
  import opened AskProtocol
  import opened AskStructure
  import opened AskAnswers
  import opened AskTiming

  /** The entry at c's key is c's own question's. */
  ghost predicate OnTable(calls: Calls, asking: map<Key, nat>, c: nat)
    requires c in calls
  {
    calls[c].key in asking && asking[calls[c].key] == calls[c].stand
  }

  /** An answer under c's key has been accepted since c asked. */
  ghost predicate AnsweredSince(calls: Calls, accepted: seq<Acceptance>, c: nat)
    requires c in calls
  {
    exists i :: calls[c].asked <= i < |accepted| && Under(calls, accepted[i], calls[c].key)
  }

  ghost predicate Under(calls: Calls, a: Acceptance, key: Key) { a.call in calls && calls[a.call].key == key }

  /** The question's holder has not begun to close it. */
  ghost predicate Held(calls: Calls, stands: Stands, holder: map<nat, nat>, st: nat) {
    st in stands && stands[st].done.None? && st in holder && holder[st] in calls && !calls[holder[st]].pc.Closing?
  }

  ghost predicate GoneOk(calls: Calls, accepted: seq<Acceptance>, asking: map<Key, nat>) {
    forall c :: c in calls && AnsweredSince(calls, accepted, c) ==> !OnTable(calls, asking, c)
  }

  ghost predicate KeptOk(calls: Calls, stands: Stands, holder: map<nat, nat>, accepted: seq<Acceptance>, asking: map<Key, nat>) {
    forall c :: c in calls && Held(calls, stands, holder, calls[c].stand) && !AnsweredSince(calls, accepted, c) ==> OnTable(calls, asking, c)
  }

  ghost predicate Entries(s: State) {
    GoneOk(s.calls, s.accepted, s.sh.asking) && KeptOk(s.calls, s.sh.stands, s.holder, s.accepted, s.sh.asking)
  }

  // ---- a call moves ----

  ghost predicate SameCalls(calls: Calls, calls': Calls) {
    calls'.Keys == calls.Keys &&
    forall c :: c in calls ==> calls'[c].stand == calls[c].stand && calls'[c].asked == calls[c].asked && calls'[c].key == calls[c].key
  }

  lemma SameSince(calls: Calls, calls': Calls, accepted: seq<Acceptance>)
    requires SameCalls(calls, calls')
    ensures forall c :: c in calls ==> (AnsweredSince(calls', accepted, c) <==> AnsweredSince(calls, accepted, c))
  {
    forall c | c in calls ensures AnsweredSince(calls', accepted, c) <==> AnsweredSince(calls, accepted, c) {
      assert forall a :: Under(calls', a, calls[c].key) <==> Under(calls, a, calls[c].key);
    }
  }

  /** Held questions were held before, and keep their entries; nobody else gains one. */
  ghost predicate Steady(s: State, s': State) {
    && SameCalls(s.calls, s'.calls) && s'.accepted == s.accepted
    && (forall st :: Held(s'.calls, s'.sh.stands, s'.holder, st) ==> Held(s.calls, s.sh.stands, s.holder, st))
    && (forall k :: k in s'.sh.asking ==> k in s.sh.asking && s'.sh.asking[k] == s.sh.asking[k])
    && (forall k :: k in s.sh.asking && k !in s'.sh.asking ==> !Held(s'.calls, s'.sh.stands, s'.holder, s.sh.asking[k]))
  }

  lemma SteadyEntries(s: State, s': State)
    requires Entries(s) && Steady(s, s')
    ensures Entries(s')
  {
    SameSince(s.calls, s'.calls, s.accepted);
    hide Held, AnsweredSince;
  }

  lemma MoveSame(calls: Calls, c: nat, pc: Pc)
    requires c in calls
    ensures SameCalls(calls, At1(calls, c, pc))
  {
  }

  /** A call moves and no question is closed or handed on. */
  lemma MoveKeepsHeld(calls: Calls, stands: Stands, holder: map<nat, nat>, c: nat, pc: Pc)
    requires c in calls && (calls[c].pc.Closing? ==> pc.Closing?)
    ensures forall st :: Held(At1(calls, c, pc), stands, holder, st) ==> Held(calls, stands, holder, st)
  {
  }

  lemma PutTables(d: Key -> bool, s: State, c: nat, act: AskAct)
    requires PutEnabled(s, c, act)
    ensures var s' := PutApply(d, s, c, act);
            && c in s'.calls && s'.calls == At1(s.calls, c, s'.calls[c].pc) && s'.accepted == s.accepted && s'.holder == s.holder
            && s'.sh.stands == s.sh.stands && s'.sh.asking == s.sh.asking && !s.calls[c].pc.Closing?
  {
    hide AskerSubs, Ids;
  }

  lemma PutEntries(d: Key -> bool, s: State, c: nat, act: AskAct)
    requires Entries(s) && PutEnabled(s, c, act)
    ensures Entries(PutApply(d, s, c, act))
  {
    var s' := PutApply(d, s, c, act);
    PutTables(d, s, c, act);
    hide PutApply, PutEnabled;
    MoveSame(s.calls, c, s'.calls[c].pc);
    MoveKeepsHeld(s.calls, s.sh.stands, s.holder, c, s'.calls[c].pc);
    hide Entries, SameCalls, Held;
    SteadyEntries(s, s');
  }

  lemma TakeSteady(s: State, c: nat, act: LineAct)
    requires LineEnabled(s, c, act) && (act.TakeDone? || act.TakePromote? || act.TakeCancel? || act.HandOff?)
    ensures Steady(s, LineApply(s, c, act))
  {
    var s' := LineApply(s, c, act);
    MoveSame(s.calls, c, s'.calls[c].pc);
    MoveKeepsHeld(s.calls, s.sh.stands, s.holder, c, s'.calls[c].pc);
    hide SameCalls, Held;
  }

  /** One question's line changes; whether it is finished does not. */
  lemma LineHeld(calls: Calls, stands: Stands, holder: map<nat, nat>, st: nat, a: StandingAsk, x: nat)
    requires st in stands && a.done == stands[st].done
    ensures Held(calls, stands[st := a], holder, x) <==> Held(calls, stands, holder, x)
  {
  }

  lemma DropSteady(s: State, c: nat)
    requires LineEnabled(s, c, DropOut)
    ensures Steady(s, LineApply(s, c, DropOut))
  {
    var s', st := LineApply(s, c, DropOut), s.calls[c].stand;
    MoveSame(s.calls, c, s'.calls[c].pc);
    MoveKeepsHeld(s.calls, s.sh.stands, s.holder, c, s'.calls[c].pc);
    var a := s'.sh.stands[st];
    assert s'.calls == At1(s.calls, c, s'.calls[c].pc) && s'.holder == s.holder && s'.accepted == s.accepted;
    assert s'.sh.stands == s.sh.stands[st := a] && a.done == s.sh.stands[st].done && s'.sh.asking == s.sh.asking;
    hide SameCalls, Held, LineApply, LineEnabled;
    forall x ensures Held(s'.calls, s'.sh.stands, s.holder, x) <==> Held(s'.calls, s.sh.stands, s.holder, x) {
      LineHeld(s'.calls, s.sh.stands, s.holder, st, a, x);
    }
  }

  /** The holder moves on to closing its question, or hands it on. */
  lemma HolderHeld(calls: Calls, stands: Stands, stands': Stands, holder: map<nat, nat>, holder': map<nat, nat>, c: nat, pc: Pc, x: nat)
    requires c in calls && calls[c].stand in stands && stands[calls[c].stand].done.None? && calls[c].stand in holder && holder[calls[c].stand] == c
    requires !calls[c].pc.Closing?
    requires calls[c].stand in stands' && stands' == stands[calls[c].stand := stands'[calls[c].stand]]
    requires forall y :: y != calls[c].stand ==> (y in holder' <==> y in holder) && (y in holder ==> holder'[y] == holder[y])
    ensures Held(At1(calls, c, pc), stands', holder', x) ==> Held(calls, stands, holder, x)
  {
  }

  lemma PassSteady(s: State, c: nat)
    requires LineEnabled(s, c, LeaveIt) && SoleOk(s.calls, s.sh.stands, s.holder) && s.sh.stands[s.calls[c].stand].queue != []
    ensures Steady(s, LineApply(s, c, LeaveIt))
  {
    var s', st, n := LineApply(s, c, LeaveIt), s.calls[c].stand, s.sh.stands[s.calls[c].stand].queue[0];
    assert Holds(s.calls, s.sh.stands, c);
    MoveSame(s.calls, c, HandingOff(n));
    assert s'.calls == At1(s.calls, c, HandingOff(n)) && s'.holder == s.holder[st := n] && s'.accepted == s.accepted;
    assert s'.sh.stands == s.sh.stands[st := s'.sh.stands[st]] && s'.sh.asking == s.sh.asking;
    assert st in s.holder && s.holder[st] == c && s.sh.stands[st].done.None? && !s.calls[c].pc.Closing?;
    hide SameCalls, Held, LineApply, LineEnabled, SoleOk, Holds;
    forall x | Held(s'.calls, s'.sh.stands, s'.holder, x) ensures Held(s.calls, s.sh.stands, s.holder, x) {
      HolderHeld(s.calls, s.sh.stands, s'.sh.stands, s.holder, s'.holder, c, HandingOff(n), x);
    }
  }

  lemma RetireSteady(s: State, c: nat, act: LineAct)
    requires LineEnabled(s, c, act) && SoleOk(s.calls, s.sh.stands, s.holder)
    requires act == Retire || (act == LeaveIt && s.sh.stands[s.calls[c].stand].queue == [])
    ensures Steady(s, LineApply(s, c, act))
  {
    var s', st := LineApply(s, c, act), s.calls[c].stand;
    var pc := s'.calls[c].pc;
    assert Holds(s.calls, s.sh.stands, c);
    MoveSame(s.calls, c, pc);
    assert pc.Closing? && s'.calls == At1(s.calls, c, pc) && s'.holder == s.holder && s'.accepted == s.accepted;
    assert s'.sh.stands == s.sh.stands[st := s'.sh.stands[st]] && s'.sh.asking == Retired(s.sh.asking, s.calls[c].key, st);
    assert st in s.holder && s.holder[st] == c && s.sh.stands[st].done.None? && !s.calls[c].pc.Closing?;
    assert !Held(s'.calls, s'.sh.stands, s'.holder, st);
    hide SameCalls, Held, LineApply, LineEnabled, SoleOk, Holds;
    forall x | Held(s'.calls, s'.sh.stands, s'.holder, x) ensures Held(s.calls, s.sh.stands, s.holder, x) {
      HolderHeld(s.calls, s.sh.stands, s'.sh.stands, s.holder, s'.holder, c, pc, x);
    }
  }

  lemma CloseSteady(s: State, c: nat)
    requires LineEnabled(s, c, CloseDone) && HeldOk(s.calls, s.sh.stands, s.holder)
    ensures Steady(s, LineApply(s, c, CloseDone))
  {
    var s', st, pc := LineApply(s, c, CloseDone), s.calls[c].stand, Returned(s.calls[c].pc.out);
    MoveSame(s.calls, c, pc);
    assert s'.calls == At1(s.calls, c, pc) && s'.holder == s.holder && s'.accepted == s.accepted && s'.sh.asking == s.sh.asking;
    assert s'.sh.stands == s.sh.stands[st := s'.sh.stands[st]] && s'.sh.stands[st].done.Some?;
    hide SameCalls, LineApply, LineEnabled;
    forall x | Held(s'.calls, s'.sh.stands, s'.holder, x) ensures Held(s.calls, s.sh.stands, s.holder, x) {
      assert HeldBy(s.calls, s.sh.stands, x, s.sh.stands[x], s.holder[x]);
    }
    hide Held;
  }

  lemma LineEntries(d: Key -> bool, s: State, c: nat, act: LineAct)
    requires Entries(s) && Grounds(d, s) && LineEnabled(s, c, act)
    ensures Entries(LineApply(s, c, act))
  {
    assert c in s.calls && s.calls[c].stand in s.sh.stands;
    hide Entries, Steady, LineApply, LineEnabled, HeldOk, SoleOk, CallsOk, QueuesOk;
    match act {
    case LeaveIt => if s.sh.stands[s.calls[c].stand].queue != [] { PassSteady(s, c); } else { RetireSteady(s, c, act); }
    case DropOut => DropSteady(s, c);
    case CloseDone => CloseSteady(s, c);
    case Retire => RetireSteady(s, c, act);
    case _ => TakeSteady(s, c, act);
    }
    SteadyEntries(s, LineApply(s, c, act));
  }

  // ---- a call asks ----

  lemma EnterSince(calls: Calls, accepted: seq<Acceptance>, c: nat, k: Call)
    requires c !in calls && k.asked == |accepted| && AcceptedOk(calls, accepted)
    ensures forall x :: x in calls ==> (AnsweredSince(calls[c := k], accepted, x) <==> AnsweredSince(calls, accepted, x))
    ensures !AnsweredSince(calls[c := k], accepted, c)
  {
    forall x | x in calls ensures AnsweredSince(calls[c := k], accepted, x) <==> AnsweredSince(calls, accepted, x) {
      assert forall i :: 0 <= i < |accepted| ==> (Under(calls[c := k], accepted[i], calls[x].key) <==> Under(calls, accepted[i], calls[x].key));
    }
  }

  /** A new call with its question's entry at its key; the other questions keep theirs. */
  lemma EnterListed(calls: Calls, stands: Stands, stands': Stands, holder: map<nat, nat>, holder': map<nat, nat>, accepted: seq<Acceptance>,
                    asking: map<Key, nat>, asking': map<Key, nat>, c: nat, k: Call)
    requires GoneOk(calls, accepted, asking) && KeptOk(calls, stands, holder, accepted, asking) && CallsOk(calls, stands) && AcceptedOk(calls, accepted)
    requires c !in calls && c !in stands && k.asked == |accepted|
    requires asking' == asking[k.key := k.stand] && (k.key in asking ==> asking[k.key] == k.stand) && (k.key !in asking ==> k.stand == c)
    requires forall st :: st in stands ==> (Held(calls[c := k], stands', holder', st) ==> Held(calls, stands, holder, st))
    ensures GoneOk(calls[c := k], accepted, asking') && KeptOk(calls[c := k], stands', holder', accepted, asking')
  {
    EnterSince(calls, accepted, c, k);
    hide AnsweredSince, Held, AcceptedOk;
  }

  lemma JoinEntries(s: State, c: nat, tu: ToolUse, key: Key)
    requires Entries(s) && Enabled(s, Enter(c, tu, key)) && CallsOk(s.calls, s.sh.stands) && AcceptedOk(s.calls, s.accepted)
    requires HeldOk(s.calls, s.sh.stands, s.holder) && key in s.sh.asking
    ensures Entries(EnterApply(s, c, tu, key))
  {
    var s', st := EnterApply(s, c, tu, key), s.sh.asking[key];
    var k := Call(tu, key, st, Parked, |s.accepted|);
    assert s'.calls == s.calls[c := k] && s'.accepted == s.accepted && s'.holder == s.holder && s'.sh.asking == s.sh.asking[key := st];
    assert forall x :: x in s.sh.stands ==> x in s'.sh.stands && s'.sh.stands[x].done == s.sh.stands[x].done;
    forall x | x in s.sh.stands && Held(s'.calls, s'.sh.stands, s'.holder, x) ensures Held(s.calls, s.sh.stands, s.holder, x) {
      assert HeldBy(s.calls, s.sh.stands, x, s.sh.stands[x], s.holder[x]);
    }
    hide Held, HeldOk, CallsOk, AcceptedOk, GoneOk, KeptOk, EnterApply;
    EnterListed(s.calls, s.sh.stands, s'.sh.stands, s.holder, s'.holder, s.accepted, s.sh.asking, s'.sh.asking, c, k);
  }

  lemma CreateEntries(s: State, c: nat, tu: ToolUse, key: Key)
    requires Entries(s) && Enabled(s, Enter(c, tu, key)) && CallsOk(s.calls, s.sh.stands) && AcceptedOk(s.calls, s.accepted)
    requires HeldOk(s.calls, s.sh.stands, s.holder) && key !in s.sh.asking
    ensures Entries(EnterApply(s, c, tu, key))
  {
    var s' := EnterApply(s, c, tu, key);
    var k := Call(tu, key, c, Raising, |s.accepted|);
    assert s'.calls == s.calls[c := k] && s'.accepted == s.accepted && s'.holder == s.holder[c := c] && s'.sh.asking == s.sh.asking[key := c];
    assert forall x :: x in s.sh.stands ==> x in s'.sh.stands && s'.sh.stands[x] == s.sh.stands[x];
    forall x | x in s.sh.stands && Held(s'.calls, s'.sh.stands, s'.holder, x) ensures Held(s.calls, s.sh.stands, s.holder, x) {
      assert HeldBy(s.calls, s.sh.stands, x, s.sh.stands[x], s.holder[x]);
    }
    hide Held, HeldOk, CallsOk, AcceptedOk, GoneOk, KeptOk, EnterApply;
    EnterListed(s.calls, s.sh.stands, s'.sh.stands, s.holder, s'.holder, s.accepted, s.sh.asking, s'.sh.asking, c, k);
  }

  // ---- answers are accepted ----

  /** The answers are to questions of exactly these keys. */
  ghost predicate Keyed(calls: Calls, more: seq<Acceptance>, keys: set<Key>) {
    && (forall i :: 0 <= i < |more| ==> more[i].call in calls && calls[more[i].call].key in keys)
    && (forall k :: k in keys ==> exists i :: 0 <= i < |more| && Under(calls, more[i], k))
  }

  lemma MoreSince(calls: Calls, accepted: seq<Acceptance>, more: seq<Acceptance>, keys: set<Key>, c: nat)
    requires c in calls && calls[c].asked <= |accepted| && Keyed(calls, more, keys)
    ensures AnsweredSince(calls, accepted + more, c) <==> AnsweredSince(calls, accepted, c) || calls[c].key in keys
  {
    var all, n := accepted + more, |accepted|;
    if AnsweredSince(calls, accepted, c) {
      var i :| calls[c].asked <= i < n && Under(calls, accepted[i], calls[c].key);
      assert Under(calls, all[i], calls[c].key);
    }
    if calls[c].key in keys {
      var i :| 0 <= i < |more| && Under(calls, more[i], calls[c].key);
      assert Under(calls, all[n + i], calls[c].key);
    }
    if AnsweredSince(calls, all, c) {
      var i :| calls[c].asked <= i < |all| && Under(calls, all[i], calls[c].key);
      if i < n { assert Under(calls, accepted[i], calls[c].key); } else { assert all[i] == more[i - n]; }
    }
  }

  lemma AcceptEntries(s: State, s': State, more: seq<Acceptance>, keys: set<Key>)
    requires Entries(s) && AskedOk(s.calls, s.accepted, s.settling)
    requires s'.calls == s.calls && s'.holder == s.holder && s'.sh.stands == s.sh.stands
    requires s'.accepted == s.accepted + more && s'.sh.asking == s.sh.asking - keys
    requires Keyed(s.calls, more, keys)
    ensures Entries(s')
  {
    forall c | c in s.calls ensures AnsweredSince(s.calls, s'.accepted, c) <==> AnsweredSince(s.calls, s.accepted, c) || s.calls[c].key in keys {
      MoreSince(s.calls, s.accepted, more, keys, c);
    }
    hide AnsweredSince, Held, Keyed, AskedOk;
  }

  lemma OneKeyed(calls: Calls, c: nat, ans: Answer)
    requires c in calls
    ensures Keyed(calls, [Acceptance(c, ans, c)], {calls[c].key})
  {
    assert Under(calls, [Acceptance(c, ans, c)][0], calls[c].key);
  }

  lemma AnswerEntries(d: Key -> bool, s: State, tu: ToolUse, ans: Answer)
    requires Entries(s) && Grounds(d, s) && MuFree(s)
    ensures Entries(AnswerApply(s, tu, ans))
  {
    hide Entries, Shape, AcceptedOk, AskedOk, Keyed;
    if tu in s.sh.pending {
      var p := s.sh.pending[tu];
      assert p.ch in s.calls && s.calls[p.ch].key == p.key && AskedOk(s.calls, s.accepted, s.settling);
      hide PendingOk;
      OneKeyed(s.calls, p.ch, ans);
      AcceptEntries(s, AnswerApply(s, tu, ans), [Acceptance(p.ch, ans, p.ch)], {p.key});
    }
  }

  /** The keys of the questions a settlement covers. */
  ghost function KeysOf(pending: Pending, ids: set<ToolUse>): set<Key>
    requires ids <= pending.Keys
  {
    set tu | tu in ids :: pending[tu].key
  }

  lemma SettledKeys(d: Key -> bool, calls: Calls, pending: Pending, accepted: seq<Acceptance>, order: seq<ToolUse>, g: Settling)
    requires PendingOk(d, calls, pending, accepted) && forall tu :: tu in order <==> tu in Covered(pending, g.matcher)
    ensures Keyed(calls, Settled(pending, order, g), KeysOf(pending, Covered(pending, g.matcher)))
  {
    var more, ids := Settled(pending, order, g), Covered(pending, g.matcher);
    forall i | 0 <= i < |more| ensures more[i].call in calls && calls[more[i].call].key in KeysOf(pending, ids) {
      assert order[i] in ids;
    }
    forall k | k in KeysOf(pending, ids) ensures exists i :: 0 <= i < |more| && Under(calls, more[i], k) {
      var tu :| tu in ids && pending[tu].key == k;
      var i :| 0 <= i < |order| && order[i] == tu;
      assert Under(calls, more[i], k);
    }
  }

  lemma SettleEntries(d: Key -> bool, s: State, order: seq<ToolUse>)
    requires Entries(s) && Grounds(d, s) && Enabled(s, SettleAll(order))
    ensures Entries(SettleApply(s, order))
  {
    var g := s.settling.value;
    var keys := KeysOf(s.sh.pending, Covered(s.sh.pending, g.matcher));
    SettledKeys(d, s.calls, s.sh.pending, s.accepted, order, g);
    hide Entries, PendingOk, AskedOk, Keyed, Settled, Covered;
    AcceptEntries(s, SettleApply(s, order), Settled(s.sh.pending, order, g), keys);
  }

  lemma SameEntries(s: State, s': State)
    requires Entries(s) && s'.calls == s.calls && s'.holder == s.holder && s'.sh.stands == s.sh.stands && s'.sh.asking == s.sh.asking && s'.accepted == s.accepted
    ensures Entries(s')
  {
    hide GoneOk, KeptOk;
  }

  lemma EnterEntries(d: Key -> bool, s: State, c: nat, tu: ToolUse, key: Key)
    requires Entries(s) && Enabled(s, Enter(c, tu, key)) && Grounds(d, s)
    ensures Entries(EnterApply(s, c, tu, key))
  {
    hide Entries, EnterApply, Enabled, AcceptedOk, HeldOk, CallsOk, SoleOk, QueuesOk;
    if key in s.sh.asking { JoinEntries(s, c, tu, key); } else { CreateEntries(s, c, tu, key); }
  }

  /** What the rest of the invariant says that the entries need. */
  ghost predicate Grounds(d: Key -> bool, s: State) {
    && Shape(s.calls, s.sh.stands, s.holder) && AcceptedOk(s.calls, s.accepted) && PendingOk(d, s.calls, s.sh.pending, s.accepted)
    && AskedOk(s.calls, s.accepted, s.settling)
  }

  lemma KnownGrounds(d: Key -> bool, s: State)
    requires Structure(s) && Answers(d, s) && Timing(s)
    ensures Grounds(d, s)
  {
  }

  /** Every step keeps the entries right. */
  lemma EntriesStep(d: Key -> bool, s: State, step: Step)
    requires Entries(s) && Structure(s) && Answers(d, s) && Timing(s) && Enabled(s, step)
    ensures Entries(Apply(d, s, step))
  {
    hide Entries, Structure, Answers, Timing, Grounds;
    KnownGrounds(d, s);
    match step
    case Enter(c, tu, key) => EnterEntries(d, s, c, tu, key);
    case Line(c, act) => LineEntries(d, s, c, act);
    case Put(c, act) => PutEntries(d, s, c, act);
    case AnswerIt(tu, ans) => AnswerEntries(d, s, tu, ans);
    case SettleAll(order) => SettleEntries(d, s, order);
    case _ => SameEntries(s, Apply(d, s, step));
  }
}
