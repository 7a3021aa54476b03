/** Each asker subscription hears of each question that stands while it is subscribed exactly once. */
module AskTelling {
  import opened Basics
  import opened Question
  import opened AskProtocol
  import opened AskStructure
  import opened AskAnswers
  import opened AskStanding

  predicate InRest(calls: Calls, u: nat, c: nat) {
    c in calls && calls[c].pc.Telling? && u in calls[c].pc.rest
  }

  /** How often subscription u has been told of call c's question or is still owed the notification. */
  function Count(told: multiset<(nat, nat)>, owed: set<(nat, nat)>, calls: Calls, u: nat, c: nat): nat {
    told[(u, c)] + (if (u, c) in owed then 1 else 0) + (if InRest(calls, u, c) then 1 else 0)
  }

  function Tellings(s: State, u: nat, c: nat): nat { Count(s.told, s.owed, s.calls, u, c) }

  /** Call c's question stands while subscription u, an asker's, is attached. */
  ghost predicate Overlap(s: State, u: nat, c: nat) {
    (exists tu :: tu in s.sh.standing && s.sh.standing[tu] == c) && (exists x :: x in s.sh.subs && x.id == u && x.asker)
  }

  ghost predicate SubsOk(s: State) {
    && (forall x :: x in s.sh.subs ==> x.id < s.nextSub)
    && Distinct(Ids(s.sh.subs))
    && (forall c :: c in s.calls && s.calls[c].pc.Telling? ==> Distinct(s.calls[c].pc.rest))
  }

  ghost predicate NotBefore(s: State) {
    forall u: nat, c: nat :: Tellings(s, u, c) > 0 ==> u < s.nextSub && c in s.calls && Stood(s.calls[c].pc)
  }

  ghost predicate ToldOk(s: State) {
    && (forall u: nat, c: nat :: Tellings(s, u, c) <= 1)
    && (forall u: nat, c: nat :: Overlap(s, u, c) ==> Tellings(s, u, c) == 1)
  }

  ghost predicate Telling(s: State) {
    SubsOk(s) && NotBefore(s) && ToldOk(s)
  }

  lemma {:induction false} FilterIds(subs: seq<Sub>, keep: Sub -> bool)
    requires Distinct(Ids(subs))
    ensures Distinct(Ids(Filter(subs, keep)))
  {
    if subs != [] {
      var rest := Filter(subs[1..], keep);
      assert Ids(subs[1..]) == Ids(subs)[1..];
      FilterIds(subs[1..], keep);
      forall i | 0 <= i < |rest| ensures rest[i].id != subs[0].id {
        assert rest[i] in rest;
        var j :| 0 <= j < |subs[1..]| && subs[1..][j] == rest[i];
        assert Ids(subs)[j + 1] == rest[i].id && Ids(subs)[0] == subs[0].id;
      }
      assert Ids([subs[0]] + rest) == [subs[0].id] + Ids(rest);
    }
  }

  /** Nobody is told twice, nothing told is untold, and a new telling is to somebody the question stands before. */
  ghost predicate Grows(s: State, s': State) {
    forall u: nat, c: nat ::
      Tellings(s, u, c) <= Tellings(s', u, c) && (Tellings(s, u, c) < Tellings(s', u, c) ==> Overlap(s', u, c))
  }

  /** A step that tells nobody anything new, and after which no more questions stand before anybody. */
  ghost predicate NothingNew(s: State, s': State) {
    && s'.nextSub == s.nextSub
    && (forall c :: c in s.calls ==> c in s'.calls && (Stood(s.calls[c].pc) ==> Stood(s'.calls[c].pc)))
    && (forall u: nat, c: nat :: Tellings(s', u, c) == Tellings(s, u, c))
    && (forall u: nat, c: nat :: Overlap(s', u, c) ==> Overlap(s, u, c))
  }

  lemma TellingFrame(s: State, s': State)
    requires Telling(s) && SubsOk(s') && NothingNew(s, s')
    ensures Telling(s') && Grows(s, s')
  {
  }

  lemma Shrinking(s: State, s': State)
    requires forall tu :: tu in s'.sh.standing ==> tu in s.sh.standing && s'.sh.standing[tu] == s.sh.standing[tu]
    requires forall x :: x in s'.sh.subs ==> x in s.sh.subs
    ensures forall u: nat, c: nat :: Overlap(s', u, c) ==> Overlap(s, u, c)
  {
  }

  /** The calls move in ways that tell nobody anything. */
  lemma QuietTells(s: State, s': State)
    requires s'.told == s.told && s'.owed == s.owed
    requires forall u: nat, c: nat :: InRest(s'.calls, u, c) == InRest(s.calls, u, c)
    ensures forall u: nat, c: nat :: Tellings(s', u, c) == Tellings(s, u, c)
  {
  }

  lemma CallsTell(s: State, s': State, c: nat)
    requires Telling(s) && OneCall(s.calls, s'.calls, c)
    requires s'.told == s.told && s'.owed == s.owed && s'.nextSub == s.nextSub && s'.sh.subs == s.sh.subs
    requires forall tu :: tu in s'.sh.standing ==> tu in s.sh.standing && s'.sh.standing[tu] == s.sh.standing[tu]
    requires c in s.calls ==> (s.calls[c].pc.Telling? ==> s.calls[c].pc.rest == []) && (Stood(s.calls[c].pc) ==> Stood(s'.calls[c].pc))
    requires !s'.calls[c].pc.Telling?
    ensures Telling(s') && Grows(s, s')
  {
    assert forall u: nat, x: nat :: InRest(s'.calls, u, x) == InRest(s.calls, u, x);
    QuietTells(s, s');
    Shrinking(s, s');
    assert SubsOk(s');
    assert NothingNew(s, s');
    TellingFrame(s, s');
  }

  /** Lining up tells nobody anything. */
  ghost predicate TellsNobody(s: State, s': State, c: nat) {
    && s'.told == s.told && s'.owed == s.owed && s'.nextSub == s.nextSub
    && c in s.calls && c in s'.calls && !s'.calls[c].pc.Telling? && !s.calls[c].pc.Telling?
  }

  lemma LeaveFacts(s: State, c: nat)
    requires LineEnabled(s, c, LeaveIt)
    ensures TellsNobody(s, LineApply(s, c, LeaveIt), c)
  {
    hide Drop, RetireIfCurrent, Finish, PassOn, LeaveLast;
    if s.sh.stands[s.calls[c].stand].queue != [] {
      assert LineApply(s, c, LeaveIt).told == s.told;
    } else {
      assert LineApply(s, c, LeaveIt).told == s.told;
    }
  }

  lemma LineFacts(s: State, c: nat, act: LineAct)
    requires LineEnabled(s, c, act)
    ensures TellsNobody(s, LineApply(s, c, act), c)
  {
    if act == LeaveIt {
      LeaveFacts(s, c);
    } else {
      hide Drop, RetireIfCurrent, Finish, PassOn, LeaveLast;
    }
  }

  lemma LinesTell(s: State, c: nat, act: LineAct)
    requires Telling(s) && LineEnabled(s, c, act)
    ensures Telling(LineApply(s, c, act)) && Grows(s, LineApply(s, c, act))
  {
    LineFacts(s, c, act);
    LineQuiet(s, c, act);
    hide Telling, Grows, LineApply;
    CallsTell(s, LineApply(s, c, act), c);
  }

  /** Telling one asker moves it from the list to the told. */
  lemma TellsOne(s: State, s': State, c: nat, rest: seq<nat>)
    requires Telling(s) && c in s.calls && s.calls[c].pc == AskProtocol.Telling(rest) && rest != []
    requires s'.calls == At1(s.calls, c, AskProtocol.Telling(rest[1..])) && s'.told == s.told + multiset{(rest[0], c)}
    requires s'.owed == s.owed && s'.nextSub == s.nextSub && s'.sh == s.sh
    ensures Telling(s') && Grows(s, s')
  {
    assert Distinct(rest) && Distinct(rest[1..]) && rest[0] !in rest[1..];
    forall u: nat, x: nat ensures Tellings(s', u, x) == Tellings(s, u, x) {
      assert u in rest <==> u == rest[0] || u in rest[1..];
    }
    Shrinking(s, s');
    assert SubsOk(s');
    assert NothingNew(s, s');
    TellingFrame(s, s');
  }

  lemma ReplaysOne(s: State, s': State, u: nat, c: nat)
    requires Telling(s) && (u, c) in s.owed
    requires s' == s.(owed := s.owed - {(u, c)}, told := s.told + multiset{(u, c)})
    ensures Telling(s') && Grows(s, s')
  {
    forall v: nat, x: nat ensures Tellings(s', v, x) == Tellings(s, v, x) {
      assert InRest(s'.calls, v, x) == InRest(s.calls, v, x);
    }
    Shrinking(s, s');
    assert NothingNew(s, s');
    TellingFrame(s, s');
  }

  lemma TargetIds(subs: seq<Sub>, u: nat)
    ensures u in Ids(AskerSubs(subs)) <==> exists x :: x in subs && x.id == u && x.asker
  {
    var ts := AskerSubs(subs);
    if u in Ids(ts) {
      var i :| 0 <= i < |ts| && Ids(ts)[i] == u;
      assert ts[i] in ts;
    }
    if x :| x in subs && x.id == u && x.asker {
      assert x in ts;
      var i :| 0 <= i < |ts| && ts[i] == x;
      assert Ids(ts)[i] == u;
    }
  }

  /** What standing up changes: everybody subscribed is to be told of c, and nobody of anything else. */
  lemma StandCounts(d: Key -> bool, s: State, c: nat, u: nat, x: nat)
    requires Telling(s) && PutEnabled(s, c, StandUp) && AskerSubs(s.sh.subs) != []
    requires forall tu :: tu in s.sh.standing ==> s.sh.standing[tu] != c
    ensures var s', ids := PutApply(d, s, c, StandUp), Ids(AskerSubs(s.sh.subs));
            && Tellings(s', u, x) == (if x == c then (if u in ids then 1 else 0) else Tellings(s, u, x))
            && (Overlap(s', u, x) ==> if x == c then u in ids else Overlap(s, u, x))
            && (x == c && u in ids ==> Overlap(s', u, x) && u < s.nextSub)
  {
    var s', tu := PutApply(d, s, c, StandUp), s.calls[c].toolUse;
    assert s'.sh.standing == s.sh.standing[tu := c] && s'.sh.subs == s.sh.subs && s'.told == s.told && s'.owed == s.owed;
    assert s'.calls == At1(s.calls, c, AskProtocol.Telling(Ids(AskerSubs(s.sh.subs))));
    FilterIds(s.sh.subs, (u: Sub) => u.asker);
    TargetIds(s.sh.subs, u);
    if x == c { assert Tellings(s, u, c) == 0; assert tu in s'.sh.standing; }
  }

  lemma StandSubs(d: Key -> bool, s: State, c: nat)
    requires SubsOk(s) && PutEnabled(s, c, StandUp)
    ensures SubsOk(PutApply(d, s, c, StandUp))
  {
    FilterIds(s.sh.subs, (u: Sub) => u.asker);
  }

  /** A question that stands up is owed to exactly the askers subscribed at that moment. */
  lemma StandsTell(d: Key -> bool, s: State, c: nat)
    requires Telling(s) && PutEnabled(s, c, StandUp) && AskerSubs(s.sh.subs) != []
    requires forall tu :: tu in s.sh.standing ==> s.sh.standing[tu] != c
    ensures Telling(PutApply(d, s, c, StandUp)) && Grows(s, PutApply(d, s, c, StandUp))
  {
    var s', ids := PutApply(d, s, c, StandUp), Ids(AskerSubs(s.sh.subs));
    StandSubs(d, s, c);
    assert s'.calls == At1(s.calls, c, AskProtocol.Telling(ids)) && s'.nextSub == s.nextSub;
    assert forall u: nat :: Tellings(s, u, c) == 0;
    forall u: nat, x: nat
      ensures Tellings(s', u, x) == if x == c then (if u in ids then 1 else 0) else Tellings(s, u, x)
      ensures Overlap(s', u, x) ==> if x == c then u in ids else Overlap(s, u, x)
      ensures x == c && u in ids ==> Overlap(s', u, x) && u < s.nextSub
    {
      StandCounts(d, s, c, u, x);
    }
    hide PutApply, Tellings, Overlap, AskerSubs, Ids, SubsOk;
  }

  ghost predicate StandsNow(s: State, c: nat) { exists tu :: tu in s.sh.standing && s.sh.standing[tu] == c }

  /** What subscribing changes: a new asker is owed what stands, and nobody else anything. */
  lemma AttachCounts(s: State, conn: nat, asker: bool, u: nat, x: nat)
    requires Telling(s)
    ensures var s' := AttachApply(s, conn, asker);
            && Tellings(s', u, x) == (if u == s.nextSub then (if asker && StandsNow(s, x) then 1 else 0) else Tellings(s, u, x))
            && (Overlap(s', u, x) ==> if u == s.nextSub then asker && StandsNow(s, x) else Overlap(s, u, x))
            && (u == s.nextSub && asker && StandsNow(s, x) ==> Overlap(s', u, x))
  {
    var s' := AttachApply(s, conn, asker);
    assert InRest(s'.calls, u, x) == InRest(s.calls, u, x);
    assert Sub(s.nextSub, conn, asker) in s'.sh.subs;
    if u == s.nextSub { assert Tellings(s, s.nextSub, x) == 0; }
  }

  lemma AttachSubs(s: State, conn: nat, asker: bool)
    requires SubsOk(s)
    ensures SubsOk(AttachApply(s, conn, asker))
  {
    var s' := AttachApply(s, conn, asker);
    assert Ids(s'.sh.subs) == Ids(s.sh.subs) + [s.nextSub];
    assert forall i :: 0 <= i < |s.sh.subs| ==> s.sh.subs[i] in s.sh.subs;
  }

  /** A newcomer is owed every question standing at the moment it subscribes, and it is new. */
  lemma AttachTells(s: State, conn: nat, asker: bool)
    requires Telling(s) && Standings(s)
    ensures Telling(AttachApply(s, conn, asker)) && Grows(s, AttachApply(s, conn, asker))
  {
    var s' := AttachApply(s, conn, asker);
    AttachSubs(s, conn, asker);
    assert forall x :: StandsNow(s, x) ==> x in s.calls && Stood(s.calls[x].pc);
    assert s'.calls == s.calls && s'.nextSub == s.nextSub + 1;
    forall u: nat, x: nat
      ensures Tellings(s', u, x) == (if u == s.nextSub then (if asker && StandsNow(s, x) then 1 else 0) else Tellings(s, u, x))
      ensures Overlap(s', u, x) ==> if u == s.nextSub then asker && StandsNow(s, x) else Overlap(s, u, x)
      ensures u == s.nextSub && asker && StandsNow(s, x) ==> Overlap(s', u, x)
    {
      AttachCounts(s, conn, asker, u, x);
    }
    hide AttachApply, Tellings, Overlap, StandsNow, SubsOk, Standings, Stood;
  }

  /** Every other act of asking tells nobody anything. */
  lemma QuietPuts(d: Key -> bool, s: State, c: nat, act: AskAct)
    requires Telling(s) && PutEnabled(s, c, act) && !act.Tell? && !(act.StandUp? && AskerSubs(s.sh.subs) != [])
    ensures Telling(PutApply(d, s, c, act)) && Grows(s, PutApply(d, s, c, act))
  {
    var s' := PutApply(d, s, c, act);
    OneMove(s.calls, c, s'.calls[c].pc);
    hide Telling, Grows, OneCall, Ids;
    CallsTell(s, s', c);
  }

  lemma PutsTell(d: Key -> bool, s: State, c: nat, act: AskAct)
    requires Telling(s) && Standings(s) && PutEnabled(s, c, act)
    ensures Telling(PutApply(d, s, c, act)) && Grows(s, PutApply(d, s, c, act))
  {
    if act.StandUp? && AskerSubs(s.sh.subs) != [] {
      StandsTell(d, s, c);
    } else if act.Tell? {
      TellsOne(s, PutApply(d, s, c, act), c, s.calls[c].pc.rest);
    } else {
      hide Telling, Grows, Standings, PutApply;
      QuietPuts(d, s, c, act);
    }
  }

  /** Fewer questions stand, or fewer connections listen. */
  lemma FewerTell(s: State, s': State)
    requires Telling(s) && s'.calls == s.calls && s'.told == s.told && s'.owed == s.owed && s'.nextSub == s.nextSub
    requires forall tu :: tu in s'.sh.standing ==> tu in s.sh.standing && s'.sh.standing[tu] == s.sh.standing[tu]
    requires forall x :: x in s'.sh.subs ==> x in s.sh.subs
    requires Distinct(Ids(s'.sh.subs))
    ensures Telling(s') && Grows(s, s')
  {
    QuietTells(s, s');
    Shrinking(s, s');
    TellingFrame(s, s');
  }

  lemma DetachTells(s: State, d: nat, conn: nat)
    requires Telling(s)
    ensures Telling(DetachApply(s, d, conn)) && Grows(s, DetachApply(s, d, conn))
  {
    FilterIds(s.sh.subs, (u: Sub) => u.conn != conn);
    FewerTell(s, DetachApply(s, d, conn));
  }

  lemma ClaimTells(s: State, tu: ToolUse, ans: Answer)
    requires Telling(s) && MuFree(s)
    ensures Telling(AnswerApply(s, tu, ans)) && Grows(s, AnswerApply(s, tu, ans))
  {
    assert Distinct(Ids(s.sh.subs));
    hide Telling, Grows;
    FewerTell(s, AnswerApply(s, tu, ans));
  }

  lemma SettleTells(s: State, order: seq<ToolUse>)
    requires Telling(s) && Enabled(s, SettleAll(order))
    ensures Telling(SettleApply(s, order)) && Grows(s, SettleApply(s, order))
  {
    assert Distinct(Ids(s.sh.subs));
    hide Telling, Grows;
    FewerTell(s, SettleApply(s, order));
  }

  /** Every step keeps the tellings in order. */
  lemma TellingStep(d: Key -> bool, s: State, step: Step)
    requires Telling(s) && Standings(s) && Enabled(s, step)
    ensures Telling(Apply(d, s, step)) && Grows(s, Apply(d, s, step))
  {
    assert Distinct(Ids(s.sh.subs));
    hide Telling, Standings, Grows, QuietMove;
    match step
    case Enter(c, tu, key) => EnterTells(s, c, tu, key);
    case Line(c, act) => LinesTell(s, c, act);
    case Put(c, act) => PutsTell(d, s, c, act);
    case AnswerIt(tu, ans) => ClaimTells(s, tu, ans);
    case SettleAll(order) => SettleTells(s, order);
    case Attach(conn, asker) => AttachTells(s, conn, asker);
    case Detach(id, conn) => DetachTells(s, id, conn);
    case Replay(u, c) => ReplaysOne(s, Apply(d, s, step), u, c);
    case _ => FewerTell(s, Apply(d, s, step));
  }

  lemma EnterFacts(s: State, c: nat, tu: ToolUse, key: Key)
    requires Enabled(s, Enter(c, tu, key))
    ensures var s' := EnterApply(s, c, tu, key);
            s'.told == s.told && s'.owed == s.owed && s'.nextSub == s.nextSub && c in s'.calls && !s'.calls[c].pc.Telling?
  {
    hide Join;
    if key in s.sh.asking {
      assert EnterApply(s, c, tu, key).told == s.told;
    } else {
      assert EnterApply(s, c, tu, key).told == s.told;
    }
  }

  lemma EnterTells(s: State, c: nat, tu: ToolUse, key: Key)
    requires Telling(s) && Enabled(s, Enter(c, tu, key))
    ensures Telling(EnterApply(s, c, tu, key)) && Grows(s, EnterApply(s, c, tu, key))
  {
    EntersQuiet(s, c, tu, key);
    EnterFacts(s, c, tu, key);
    hide Telling, Grows, EnterApply;
    CallsTell(s, EnterApply(s, c, tu, key), c);
  }
}
