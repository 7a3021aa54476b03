/**
 Every interleaving of the calls that ask, the operators that answer, the connections that come
 and go, and the contexts that end. One step is one critical section, one channel send or close,
 or one select branch. `settling` stands for the session's outer lock being held by an answer
 between its own bookkeeping and the settlement it triggers; every other section of that lock
 waits for it, while the sections that take only the inner lock do not.
 */
module AskProtocol {
  import opened Basics
  import opened Question

  /** Where a call is in Ask, raise, leave and ask. */
  datatype Pc =
    | Parked                    // in Ask's select, behind the holder
    | Dropping                  // took Ask's context branch, before its critical section
    | Raising                   // holds the question, has not published it
    | Published                 // pending published, not yet standing
    | Unheard                   // nobody to ask, before forgetting
    | Telling(rest: seq<nat>)   // notifying the snapshot; [] is the select itself
    | Heard(out: Outcome)       // took a branch of ask's select, before forgetting
    | Retiring(out: Outcome)    // has a real result, before retiring the entry
    | Leaving                   // its context ended, before leave's critical section
    | HandingOff(next: nat)     // popped the next call, before closing its promote channel
    | Closing(out: Outcome)     // retired, before publishing the result
    | Returned(out: Outcome)

  datatype Call = Call(toolUse: ToolUse, key: Key, stand: nat, pc: Pc, asked: nat)  // asked is auxiliary: how many answers had been accepted when it asked

  /** One accepted answer: to the question call raised, granted by an answer to granter's. */
  datatype Acceptance = Acceptance(call: nat, ans: Answer, granter: nat)

  datatype Settling = Settling(granter: nat, matcher: Matcher, ans: Answer)

  datatype DetachPc = Checking | Collecting | Abandoning(todo: set<nat>)

  datatype State = State(
    sh: Shared,
    calls: map<nat, Call>,
    holder: map<nat, nat>,             // auxiliary: who currently holds each question
    popper: map<nat, nat>,             // auxiliary: who popped each promoted call off its queue
    user: map<ToolUse, nat>,           // auxiliary: the last call to arrive under each tool_use id
    collector: map<nat, nat>,          // auxiliary: the detach that took each abandoned question
    promoted: set<nat>,                // closed promote channels
    abandoned: set<nat>,               // closed abandon channels
    inbox: map<nat, Answer>,           // answer channels holding a value
    sentTo: set<nat>,                  // answer channels that were ever sent on
    accepted: seq<Acceptance>,         // history of accepted answers
    unsent: set<nat>,                  // accepted answers their handler has yet to send
    settling: Option<Settling>,
    detaches: map<nat, DetachPc>,
    owed: set<(nat, nat)>,             // (subscription, call) replays an attach has yet to send
    told: multiset<(nat, nat)>,        // permission.requested notifications sent
    nextSub: nat,
    fault: bool)                       // a closed channel was closed, or a full one sent on

  /** How calls line up behind a question and leave it. */
  datatype LineAct = TakeDone | TakePromote | TakeCancel | DropOut | Retire | LeaveIt | HandOff | CloseDone

  /** One call's ask, from publishing the question to forgetting it. */
  datatype AskAct = PublishPending | StandUp | GiveUp | Tell | HearAnswer | HearAbandon | HearCancel | ForgetIt

  datatype Step =
    | Enter(c: nat, toolUse: ToolUse, key: Key)
    | Line(c: nat, line: LineAct)
    | Put(c: nat, put: AskAct)
    | AnswerIt(tu: ToolUse, ans: Answer) | SettleAll(order: seq<ToolUse>) | Send(i: nat)
    | Attach(conn: nat, asker: bool) | Replay(u: nat, c: nat)
    | Detach(d: nat, conn: nat) | DetachCheck(d: nat) | DetachCollect(d: nat) | DetachClose(d: nat, c: nat)
    | Rest

  ghost predicate InFlight(s: State, c: nat) {
    c in s.calls && !s.calls[c].pc.Returned?
  }

  ghost predicate At(s: State, c: nat) {
    c in s.calls && s.calls[c].stand in s.sh.stands
  }

  ghost predicate MuFree(s: State) { s.settling.None? }

  ghost predicate LineEnabled(s: State, c: nat, act: LineAct) {
    At(s, c) &&
    match act
    case TakeDone => s.calls[c].pc == Parked && s.sh.stands[s.calls[c].stand].done.Some?
    case TakePromote => s.calls[c].pc == Parked && c in s.promoted
    case TakeCancel => s.calls[c].pc == Parked
    case DropOut => MuFree(s) && s.calls[c].pc == Dropping
    case Retire => MuFree(s) && s.calls[c].pc.Retiring?
    case LeaveIt => MuFree(s) && s.calls[c].pc == Leaving
    case HandOff => s.calls[c].pc.HandingOff?
    case CloseDone => s.calls[c].pc.Closing?
  }

  ghost predicate PutEnabled(s: State, c: nat, act: AskAct) {
    At(s, c) &&
    match act
    case PublishPending => MuFree(s) && s.calls[c].pc == Raising
    case StandUp => s.calls[c].pc == Published
    case GiveUp => MuFree(s) && s.calls[c].pc == Unheard
    case Tell => s.calls[c].pc.Telling? && s.calls[c].pc.rest != []
    case HearAnswer => s.calls[c].pc == Telling([]) && c in s.inbox
    case HearAbandon => s.calls[c].pc == Telling([]) && c in s.abandoned
    case HearCancel => s.calls[c].pc == Telling([])
    case ForgetIt => MuFree(s) && s.calls[c].pc.Heard?
  }

  ghost predicate Enabled(s: State, step: Step) {
    match step
    case Enter(c, tu, key) =>
      MuFree(s) && c !in s.calls && c !in s.sh.stands && (forall x :: InFlight(s, x) ==> s.calls[x].toolUse != tu) &&
      (key in s.sh.asking ==> s.sh.asking[key] in s.sh.stands)
    case Line(c, act) => LineEnabled(s, c, act)
    case Put(c, act) => PutEnabled(s, c, act)
    case AnswerIt(tu, ans) => MuFree(s)
    case SettleAll(order) =>
      s.settling.Some? && Distinct(order) &&
      (forall tu :: tu in order <==> tu in Covered(s.sh.pending, s.settling.value.matcher))
    case Send(i) => i in s.unsent && i < |s.accepted|
    case Attach(conn, asker) => true
    case Replay(u, c) => (u, c) in s.owed
    case Detach(d, conn) => d !in s.detaches
    case DetachCheck(d) => d in s.detaches && s.detaches[d] == Checking
    case DetachCollect(d) => d in s.detaches && s.detaches[d] == Collecting
    case DetachClose(d, c) => d in s.detaches && s.detaches[d].Abandoning? && c in s.detaches[d].todo
    case Rest => true
  }

  function Move(s: State, c: nat, pc: Pc): State
    requires c in s.calls
  {
    s.(calls := s.calls[c := s.calls[c].(pc := pc)])
  }

  function Ids(us: seq<Sub>): (r: seq<nat>)
    ensures |r| == |us| && forall i :: 0 <= i < |us| ==> r[i] == us[i].id
  {
    seq(|us|, i requires 0 <= i < |us| => us[i].id)
  }

  ghost function LineApply(s: State, c: nat, act: LineAct): State
    requires LineEnabled(s, c, act)
  {
    match act
    case TakeDone => Move(s, c, Returned(s.sh.stands[s.calls[c].stand].done.value))
    case TakePromote => Move(s, c, Raising)
    case TakeCancel => Move(s, c, Dropping)
    case DropOut =>
      var removed := c in s.sh.stands[s.calls[c].stand].queue;
      Move(s.(sh := Drop(s.sh, c, s.calls[c].stand)), c, if removed then Returned(Cancelled) else Leaving)
    case Retire =>
      Move(s.(sh := RetireIfCurrent(s.sh, s.calls[c].key, s.calls[c].stand)), c, Closing(s.calls[c].pc.out))
    case LeaveIt =>
      var st := s.calls[c].stand;
      var q := s.sh.stands[st].queue;
      if q != [] then
        Move(s.(sh := PassOn(s.sh, st), holder := s.holder[st := q[0]], popper := s.popper[q[0] := c]), c, HandingOff(q[0]))
      else
        Move(s.(sh := LeaveLast(s.sh, s.calls[c].key, st)), c, Closing(Cancelled))
    case HandOff =>
      var n := s.calls[c].pc.next;
      Move(s.(promoted := s.promoted + {n}, fault := s.fault || n in s.promoted), c, Returned(Cancelled))
    case CloseDone =>
      var st := s.calls[c].stand;
      var out := s.calls[c].pc.out;
      Move(s.(sh := Finish(s.sh, st, out), fault := s.fault || s.sh.stands[st].done.Some?), c, Returned(out))
  }

  ghost function PutApply(dangerous: Key -> bool, s: State, c: nat, act: AskAct): State
    requires PutEnabled(s, c, act)
  {
    match act
    case PublishPending =>
      var k := s.calls[c];
      Move(s.(sh := Publish(s.sh, k.toolUse, PendingAsk(c, k.key, dangerous(k.key)))), c, Published)
    case StandUp =>
      var targets := AskerSubs(s.sh.subs);
      Move(s.(sh := Stand(s.sh, s.calls[c].toolUse, c)), c, if targets == [] then Unheard else Telling(Ids(targets)))
    case GiveUp => Move(s.(sh := Forget(s.sh, s.calls[c].toolUse)), c, Retiring(NoAsker))
    case Tell =>
      var rest := s.calls[c].pc.rest;
      Move(s.(told := s.told + multiset{(rest[0], c)}), c, Telling(rest[1..]))
    case HearAnswer => Move(s.(inbox := s.inbox - {c}), c, Heard(Answered(s.inbox[c])))
    case HearAbandon => Move(s, c, Heard(NoAsker))
    case HearCancel => Move(s, c, Heard(Cancelled))
    case ForgetIt =>
      var out := s.calls[c].pc.out;
      Move(s.(sh := Forget(s.sh, s.calls[c].toolUse)), c, if out == Cancelled then Leaving else Retiring(out))
  }

  ghost function EnterApply(s: State, c: nat, tu: ToolUse, key: Key): State
    requires Enabled(s, Enter(c, tu, key))
  {
    var s1 := s.(sh := Join(s.sh, c, key), user := s.user[tu := c]);
    if key in s.sh.asking then s1.(calls := s.calls[c := Call(tu, key, s.sh.asking[key], Parked, |s.accepted|)])
    else s1.(calls := s.calls[c := Call(tu, key, c, Raising, |s.accepted|)], holder := s.holder[c := c])
  }

  ghost function AnswerApply(s: State, tu: ToolUse, ans: Answer): State
    requires MuFree(s)
  {
    if tu in s.sh.pending then
      var p := s.sh.pending[tu];
      s.(sh := Claim(s.sh, tu),
         accepted := s.accepted + [Acceptance(p.ch, ans, p.ch)],
         unsent := s.unsent + {|s.accepted|},
         settling := if SessionAllow(ans) then Some(Settling(p.ch, p.key.matcher, ans)) else None)
    else s
  }

  ghost function SettleApply(s: State, order: seq<ToolUse>): State
    requires Enabled(s, SettleAll(order))
  {
    var g := s.settling.value;
    s.(sh := Settle(s.sh, g.matcher),
       accepted := s.accepted + Settled(s.sh.pending, order, g),
       unsent := s.unsent + Range(|s.accepted|, |order|),
       settling := None)
  }

  ghost function SendApply(s: State, i: nat): State
    requires i < |s.accepted|
  {
    var a := s.accepted[i];
    s.(inbox := s.inbox[a.call := a.ans], sentTo := s.sentTo + {a.call}, unsent := s.unsent - {i},
       fault := s.fault || a.call in s.sentTo)
  }

  ghost function AttachApply(s: State, conn: nat, asker: bool): State
  {
    s.(sh := Subscribe(s.sh, Sub(s.nextSub, conn, asker)), nextSub := s.nextSub + 1,
       owed := if asker then s.owed + (set tu | tu in s.sh.standing :: (s.nextSub, s.sh.standing[tu])) else s.owed)
  }

  ghost function DetachApply(s: State, d: nat, conn: nat): State
  {
    s.(sh := Unsubscribe(s.sh, conn), detaches := if s.sh.standing != map[] then s.detaches[d := Checking] else s.detaches)
  }

  ghost function CheckApply(s: State, d: nat): State
  {
    s.(detaches := if HasAsker(s.sh) then s.detaches - {d} else s.detaches[d := Collecting])
  }

  ghost function CollectApply(s: State, d: nat): State
  {
    s.(sh := Abandon(s.sh), detaches := s.detaches[d := Abandoning(s.sh.standing.Values)],
       collector := s.collector + (map c | c in s.sh.standing.Values :: d))
  }

  ghost function AbandonApply(s: State, d: nat, c: nat): State
    requires Enabled(s, DetachClose(d, c))
  {
    s.(abandoned := s.abandoned + {c}, fault := s.fault || c in s.abandoned,
       detaches := s.detaches[d := Abandoning(s.detaches[d].todo - {c})])
  }

  ghost function Apply(dangerous: Key -> bool, s: State, step: Step): State
    requires Enabled(s, step)
  {
    match step
    case Enter(c, tu, key) => EnterApply(s, c, tu, key)
    case Line(c, act) => LineApply(s, c, act)
    case Put(c, act) => PutApply(dangerous, s, c, act)
    case AnswerIt(tu, ans) => AnswerApply(s, tu, ans)
    case SettleAll(order) => SettleApply(s, order)
    case Send(i) => SendApply(s, i)
    case Attach(conn, asker) => AttachApply(s, conn, asker)
    case Replay(u, c) => s.(owed := s.owed - {(u, c)}, told := s.told + multiset{(u, c)})
    case Detach(d, conn) => DetachApply(s, d, conn)
    case DetachCheck(d) => CheckApply(s, d)
    case DetachCollect(d) => CollectApply(s, d)
    case DetachClose(d, c) => AbandonApply(s, d, c)
    case Rest => s.(sh := s.sh.(answered := {}))
  }

  /** What settling the questions in order accepts. */
  ghost function Settled(pending: map<ToolUse, PendingAsk>, order: seq<ToolUse>, g: Settling): (r: seq<Acceptance>)
    requires forall tu :: tu in order ==> tu in pending
    ensures |r| == |order|
    ensures forall i :: 0 <= i < |order| ==> r[i] == Acceptance(pending[order[i]].ch, g.ans, g.granter)
  {
    seq(|order|, i requires 0 <= i < |order| => Acceptance(pending[order[i]].ch, g.ans, g.granter))
  }

  ghost predicate Init(s: State) {
    s.sh == Shared(map[], map[], map[], map[], {}, []) && s.calls == map[] && s.holder == map[] && s.popper == map[] && s.user == map[] && s.collector == map[] &&
    s.promoted == {} && s.abandoned == {} && s.inbox == map[] && s.sentTo == {} && s.accepted == [] &&
    s.unsent == {} && s.settling == None && s.detaches == map[] && s.owed == {} && s.told == multiset{} &&
    s.nextSub == 0 && !s.fault
  }

  ghost predicate Next(dangerous: Key -> bool, s: State, s': State) {
    exists step :: Enabled(s, step) && s' == Apply(dangerous, s, step)
  }

  ghost predicate Run(dangerous: Key -> bool, tr: seq<State>) {
    |tr| > 0 && Init(tr[0]) && forall i :: 0 <= i < |tr| - 1 ==> Next(dangerous, tr[i], tr[i + 1])
  }
}
