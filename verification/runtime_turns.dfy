/**
 The turn a runtime is running for a session. Calls into the runtime (start, steer, interrupt,
 fork, refresh) are slow and one at a time; the runtime's events arrive beside them and may
 overtake the response that started a turn.
 */
module RuntimeTurns {
  import opened Basics

  datatype Kind =
    | TurnStarted | ItemStarted | ItemDelta | ItemCompleted | DiffUpdated | PlanUpdated | UsageUpdated
    | RuntimeFailed | TurnCompleted | RequestResolved | Warning | Error

  datatype Event = Event(kind: Kind, sequence: nat, turn: string, item: string, itemType: string)

  /** What the runtime session's lock guards. */
  datatype Session = Session(
    thread: Option<string>,
    active: Option<string>,
    terminal: string,
    steering: bool, mutating: bool, ambiguous: bool,
    sequence: nat, revision: nat,
    items: set<string>)

  function ActiveId(s: Session): string { if s.active.Some? then s.active.value else "" }

  /** The event is new: unnumbered, or numbered past everything taken so far. */
  predicate Current(s: Session, e: Event) { e.sequence == 0 || e.sequence > s.sequence }

  function Seen(s: Session, e: Event): Session {
    s.(sequence := if e.sequence != 0 then e.sequence else s.sequence, revision := s.revision + 1)
  }

  /** The event belongs to the turn that is running, and names it. */
  predicate OfActive(s: Session, e: Event) { e.turn != "" && ActiveId(s) == e.turn }

  predicate IsTerminal(e: Event) { e.kind.RuntimeFailed? || e.kind.TurnCompleted? }

  /** The event ends the running turn. */
  predicate Ends(s: Session, e: Event) { Current(s, e) && IsTerminal(e) && OfActive(s, e) }

  function Ended(s: Session, e: Event): Session {
    Seen(s, e).(active := None, terminal := e.turn, steering := false, items := {}, ambiguous := s.ambiguous || e.kind.RuntimeFailed?)
  }

  /** The effect of one event on the session's state. */
  function OnEvent(s: Session, e: Event): Session {
    if !Current(s, e) then s
    else if IsTerminal(e) then (if OfActive(s, e) then Ended(s, e) else Seen(s, e))
    else if e.kind.TurnStarted? then
      (if e.turn == "" || (ActiveId(s) != "" && ActiveId(s) != e.turn) then Seen(s, e) else Seen(s, e).(active := Some(e.turn), steering := false))
    else if e.kind.ItemStarted? && OfActive(s, e) && e.item != "" && e.itemType != "" then Seen(s, e).(items := s.items + {e.item})
    else if e.kind.ItemCompleted? && OfActive(s, e) && e.item != "" && e.itemType != "" then Seen(s, e).(items := s.items - {e.item})
    else Seen(s, e)
  }

  /** The same state, changed in place. */
  class RuntimeSession {
    var thread: Option<string>
    var active: Option<string>
    var terminal: string
    var steering: bool
    var mutating: bool
    var ambiguous: bool
    var sequence: nat
    var revision: nat
    var items: set<string>

    function View(): Session
      reads this
    {
      Session(thread, active, terminal, steering, mutating, ambiguous, sequence, revision, items)
    }

    /** runtimeEvent's section, branch by branch. */
    method RuntimeEvent(e: Event)
      modifies this
      ensures View() == OnEvent(old(View()), e)
    {
      if e.sequence != 0 && e.sequence <= sequence {
        return;
      }
      if e.sequence != 0 {
        sequence := e.sequence;
      }
      revision := revision + 1;
      var activeId := if active.Some? then active.value else "";
      if e.kind != TurnStarted && e.turn != "" && activeId != "" && e.turn != activeId {
        return;
      }
      match e.kind {
        case TurnStarted =>
          if e.turn == "" || (activeId != "" && activeId != e.turn) {
            return;
          }
          active := Some(e.turn);
          steering := false;
        case ItemStarted =>
          if e.turn == "" || e.item == "" || e.itemType == "" || activeId != e.turn {
            return;
          }
          items := items + {e.item};
        case ItemCompleted =>
          if e.turn == "" || e.item == "" || e.itemType == "" || activeId != e.turn {
            return;
          }
          items := items - {e.item};
        case RuntimeFailed =>
          if e.turn == "" || activeId != e.turn {
            return;
          }
          ambiguous := true;
          active := None;
          terminal := e.turn;
          steering := false;
          items := {};
        case TurnCompleted =>
          if e.turn == "" || activeId != e.turn {
            return;
          }
          active := None;
          terminal := e.turn;
          steering := false;
          items := {};
        case _ =>
      }
    }

    /** The last section of startRuntimeTurn: the response names the turn that was started. */
    method StartResponse(turn: string)
      modifies this
      ensures View() == Response(old(View()), turn)
      ensures active == Some(turn) <==> old(terminal) != turn
    {
      mutating := false;
      steering := false;
      if terminal == turn {
        active := None;
      } else {
        active := Some(turn);
      }
    }
  }

  // ---- calls into the runtime ----

  /** What a call in flight is for; a start may have to link a thread first. */
  datatype Call = Refresh(revision: nat) | Interrupt | Fork | Steer | Linking | Starting

  function Response(s: Session, turn: string): Session {
    s.(mutating := false, steering := false, active := if s.terminal == turn then None else Some(turn))
  }

  /** A call ended without more to do than noting whether its outcome is known. */
  function Finished(s: Session, unknown: bool): Session {
    s.(mutating := false, ambiguous := s.ambiguous || unknown)
  }

  function Refreshed(s: Session, since: nat, active: Option<string>): Session {
    if s.revision != since then s.(mutating := false, ambiguous := false)
    else s.(mutating := false, ambiguous := false, active := active, terminal := "", items := {})
  }

  datatype State = State(
    rs: Session,
    calls: map<nat, Call>,      // calls in flight
    used: set<nat>,             // every call ever begun
    cleared: multiset<nat>,     // calls that cleared `mutating`
    taken: seq<nat>,            // the sequence numbers of the numbered events that took effect
    ended: seq<string>,         // turns ended by events since the last start began
    arrived: set<string>,       // turns whose end an event has reported since then, whether or not it took effect
    begun: nat,                 // turns, steers and forks begun
    refreshes: nat)             // refreshes completed

  datatype Step =
    | Happens(e: Event)
    | BeginRefresh(c: nat) | EndRefresh(c: nat, active: Option<string>)
    | SteerMode | BeginInterrupt(c: nat) | BeginFork(c: nat) | BeginSteer(c: nat) | EndSteer(c: nat, unknown: bool)
    | BeginStart(c: nat) | Link(c: nat, thread: string) | Respond(c: nat, turn: string)
    | EndCall(c: nat, unknown: bool)

  ghost predicate Free(s: State, c: nat) { !s.rs.mutating && c !in s.used }

  ghost predicate Enabled(s: State, step: Step) {
    match step
    case Happens(e) => true
    case BeginRefresh(c) => Free(s, c) && s.rs.thread.Some?
    case EndRefresh(c, active) => c in s.calls && s.calls[c].Refresh?
    case SteerMode => !s.rs.mutating && s.rs.active.Some?
    case BeginInterrupt(c) => Free(s, c) && s.rs.active.Some?
    case BeginFork(c) => Free(s, c) && !s.rs.ambiguous && s.rs.thread.Some? && s.rs.active.None?
    case BeginSteer(c) => Free(s, c) && !s.rs.ambiguous && s.rs.steering && s.rs.active.Some?
    case EndSteer(c, unknown) => c in s.calls && s.calls[c].Steer?
    case BeginStart(c) => Free(s, c) && !s.rs.ambiguous && s.rs.active.None?
    case Link(c, thread) => c in s.calls && s.calls[c].Linking?
    case Respond(c, turn) => c in s.calls && s.calls[c].Starting? && turn != ""
    case EndCall(c, unknown) => c in s.calls && !s.calls[c].Steer?
  }

  ghost function Begun(s: State, c: nat, call: Call): State {
    s.(rs := s.rs.(mutating := true), calls := s.calls[c := call], used := s.used + {c})
  }

  ghost function Over(s: State, c: nat, rs: Session): State {
    s.(rs := rs, calls := s.calls - {c}, cleared := s.cleared + multiset{c})
  }

  ghost function HappensApply(s: State, e: Event): State {
    s.(rs := OnEvent(s.rs, e),
       taken := if Current(s.rs, e) && e.sequence != 0 then s.taken + [e.sequence] else s.taken,
       ended := if Ends(s.rs, e) then s.ended + [e.turn] else s.ended,
       arrived := if IsTerminal(e) then s.arrived + {e.turn} else s.arrived)
  }

  ghost function StartApply(s: State, c: nat): State {
    var s1 := Begun(s, c, if s.rs.thread.None? then Linking else Starting);
    s1.(rs := s1.rs.(terminal := ""), ended := [], arrived := {}, begun := s.begun + 1)
  }

  ghost function Apply(s: State, step: Step): State
    requires Enabled(s, step)
  {
    match step
    case Happens(e) => HappensApply(s, e)
    case BeginRefresh(c) => Begun(s, c, Refresh(s.rs.revision))
    case EndRefresh(c, active) =>
      Over(s, c, Refreshed(s.rs, s.calls[c].revision, active)).(refreshes := s.refreshes + 1)
    case SteerMode => s.(rs := s.rs.(steering := true))
    case BeginInterrupt(c) => Begun(s, c, Interrupt)
    case BeginFork(c) => Begun(s, c, Fork).(begun := s.begun + 1)
    case BeginSteer(c) => Begun(s, c, Steer).(begun := s.begun + 1)
    case EndSteer(c, unknown) => Over(s, c, Finished(s.rs, unknown).(steering := false))
    case BeginStart(c) => StartApply(s, c)
    case Link(c, thread) => s.(rs := s.rs.(thread := Some(thread)), calls := s.calls[c := Starting])
    case Respond(c, turn) => Over(s, c, Response(s.rs, turn))
    case EndCall(c, unknown) => Over(s, c, Finished(s.rs, unknown))
  }

  ghost predicate Init(s: State) {
    s.calls == map[] && s.used == {} && s.cleared == multiset{} && s.taken == [] && s.ended == [] && s.arrived == {} && s.begun == 0 && s.refreshes == 0 &&
    !s.rs.mutating && !s.rs.ambiguous && s.rs.sequence == 0 && s.rs.terminal == ""
  }

  ghost predicate Next(s: State, s': State) {
    exists step :: Enabled(s, step) && s' == Apply(s, step)
  }

  ghost predicate Run(tr: seq<State>) {
    |tr| > 0 && Init(tr[0]) && forall i :: 0 <= i < |tr| - 1 ==> Next(tr[i], tr[i + 1])
  }

  // ---- the invariant ----

  /** The mark is set exactly while one call is in flight, and each call cleared it once when it ended. */
  ghost predicate CallsOk(mutating: bool, calls: map<nat, Call>, used: set<nat>, cleared: multiset<nat>) {
    && (mutating <==> calls != map[])
    && (forall c, d :: c in calls && d in calls ==> c == d)
    && calls.Keys <= used
    && (forall c :: cleared[c] == if c in used && c !in calls then 1 else 0)
  }

  /** Strictly increasing. */
  ghost predicate Rising(ns: seq<nat>) { forall i, j :: 0 <= i < j < |ns| ==> ns[i] < ns[j] }

  ghost predicate TakenOk(taken: seq<nat>, sequence: nat) {
    Rising(taken) && (if taken == [] then sequence == 0 else taken[|taken| - 1] == sequence)
  }

  /** While a turn is being started, terminal is the last turn an event ended since. */
  ghost predicate EndedOk(calls: map<nat, Call>, terminal: string, ended: seq<string>) {
    (exists c :: c in calls && (calls[c].Linking? || calls[c].Starting?)) ==>
      terminal == if ended == [] then "" else ended[|ended| - 1]
  }

  ghost predicate ArrivedOk(ended: seq<string>, arrived: set<string>) { forall t :: t in ended ==> t in arrived }

  ghost predicate Inv(s: State) {
    && CallsOk(s.rs.mutating, s.calls, s.used, s.cleared) && TakenOk(s.taken, s.rs.sequence)
    && EndedOk(s.calls, s.rs.terminal, s.ended) && ArrivedOk(s.ended, s.arrived)
  }

  lemma HappensFacts(s: Session, e: Event)
    ensures OnEvent(s, e).mutating == s.mutating
    ensures OnEvent(s, e).sequence == if Current(s, e) && e.sequence != 0 then e.sequence else s.sequence
    ensures OnEvent(s, e).terminal == if Ends(s, e) then e.turn else s.terminal
  {
  }

  lemma TakenMore(taken: seq<nat>, sequence: nat, n: nat)
    requires TakenOk(taken, sequence) && n > sequence
    ensures TakenOk(taken + [n], n)
  {
  }

  lemma HappensKept(s: State, e: Event)
    requires Inv(s)
    ensures Inv(HappensApply(s, e))
  {
    HappensFacts(s.rs, e);
    if Current(s.rs, e) && e.sequence != 0 { TakenMore(s.taken, s.rs.sequence, e.sequence); }
    hide OnEvent, TakenOk, CallsOk, Ends;
  }

  lemma BegunKept(s: State, c: nat, call: Call)
    requires Inv(s) && Free(s, c)
    ensures CallsOk(true, Begun(s, c, call).calls, Begun(s, c, call).used, s.cleared)
    ensures forall d :: d in Begun(s, c, call).calls ==> d == c
  {
    assert s.calls == map[];
  }

  lemma OverKept(s: State, c: nat, rs: Session)
    requires Inv(s) && c in s.calls && !rs.mutating
    ensures CallsOk(false, Over(s, c, rs).calls, s.used, Over(s, c, rs).cleared) && Over(s, c, rs).calls == map[]
  {
    assert forall d :: d in s.calls ==> d == c;
    assert s.calls - {c} == map[];
  }

  lemma StepInv(s: State, step: Step)
    requires Inv(s) && Enabled(s, step)
    ensures Inv(Apply(s, step))
  {
    if step.Happens? {
      HappensKept(s, step.e);
    } else if step.SteerMode? || step.Link? {
      assert step.Link? ==> step.c in s.calls && s.calls[step.c].Linking?;
    } else if step.EndRefresh? || step.EndSteer? || step.Respond? || step.EndCall? {
      OverKept(s, step.c, Apply(s, step).rs);
      hide TakenOk, CallsOk;
    } else {
      BegunKept(s, step.c, Apply(s, step).calls[step.c]);
      hide TakenOk, CallsOk;
    }
  }

  /** One step's effect on what the theorems count. */
  ghost predicate Keeps(s: State, s': State) {
    && s.begun <= s'.begun && s.refreshes <= s'.refreshes
    && (s.rs.ambiguous && s'.refreshes == s.refreshes ==> s'.rs.ambiguous && s'.begun == s.begun)
  }

  lemma StepKeeps(s: State, step: Step)
    requires Enabled(s, step)
    ensures Keeps(s, Apply(s, step))
  {
  }

  lemma NextInv(s: State, s': State)
    requires Inv(s) && Next(s, s')
    ensures Inv(s') && Keeps(s, s')
  {
    hide Inv, Keeps, Enabled, Apply;
    var step :| Enabled(s, step) && s' == Apply(s, step);
    StepInv(s, step);
    StepKeeps(s, step);
  }

  /** Every state of every run satisfies the invariant. */
  lemma {:induction false} RunInv(tr: seq<State>, i: nat)
    requires Run(tr) && i < |tr|
    ensures Inv(tr[i])
  {
    if i > 0 {
      hide Inv, Next;
      RunInv(tr, i - 1);
      NextInv(tr[i - 1], tr[i - 1 + 1]);
    }
  }

  // ---- the theorems ----

  /** At most one call is in flight; a call that ended cleared the mark exactly once, one in flight has not. */
  lemma OneMutation(tr: seq<State>, i: nat, c: nat, d: nat)
    requires Run(tr) && i < |tr|
    ensures c in tr[i].calls && d in tr[i].calls ==> c == d
    ensures tr[i].rs.mutating <==> tr[i].calls != map[]
    ensures c in tr[i].used ==> tr[i].cleared[c] == if c in tr[i].calls then 0 else 1
  {
    RunInv(tr, i);
  }

  /** Numbered events take effect in strictly increasing order. */
  lemma EventsRise(tr: seq<State>, i: nat)
    requires Run(tr) && i < |tr|
    ensures Rising(tr[i].taken)
  {
    RunInv(tr, i);
  }

  /** An unknown outcome stays so, and no turn, steer or fork begins, until a refresh completes. */
  lemma {:induction false} AmbiguousBlocks(tr: seq<State>, i: nat, j: nat)
    requires Run(tr) && i <= j < |tr|
    ensures Keeps(tr[i], tr[j])
    decreases j
  {
    hide Inv, Next, Init;
    if i < j {
      AmbiguousBlocks(tr, i, j - 1);
      RunInv(tr, j - 1);
      NextInv(tr[j - 1], tr[j - 1 + 1]);
    }
  }

  /**
   The response makes the turn active exactly when the last turn ended by an event since the
   start began is not this one. So if that last event was the turn's own end, it stays ended.
   */
  lemma ResponseActivatesIff(tr: seq<State>, i: nat, c: nat, turn: string)
    requires Run(tr) && i < |tr| && Enabled(tr[i], Respond(c, turn))
    ensures Apply(tr[i], Respond(c, turn)).rs.active == Some(turn) <==>
            (tr[i].ended == [] || tr[i].ended[|tr[i].ended| - 1] != turn)
  {
    RunInv(tr, i);
    assert tr[i].calls[c].Starting?;
  }

  /** The response makes the turn active although an event has already reported its end. */
  ghost predicate Revives(s: State, c: nat, turn: string)
    requires Enabled(s, Respond(c, turn))
  {
    turn in s.arrived && Apply(s, Respond(c, turn)).rs.active == Some(turn)
  }

  /**
   A turn reported ended is revived exactly when its end is not the last one that took effect
   since the start began: it was dropped, or another turn's end came after it.
   */
  lemma RevivedIff(tr: seq<State>, i: nat, c: nat, turn: string)
    requires Run(tr) && i < |tr| && Enabled(tr[i], Respond(c, turn))
    ensures var s := tr[i];
            Revives(s, c, turn) <==> turn in s.arrived && (s.ended == [] || s.ended[|s.ended| - 1] != turn)
    ensures var s := tr[i];
            turn in s.arrived && !Revives(s, c, turn) <==> s.ended != [] && s.ended[|s.ended| - 1] == turn
  {
    RunInv(tr, i);
    ResponseActivatesIff(tr, i, c, turn);
  }

  function Started(turn: string): Event { Event(TurnStarted, 0, turn, "", "") }

  function Completed(turn: string): Event { Event(TurnCompleted, 0, turn, "", "") }

  /** A turn is being started and none is active. */
  lemma BegunStart() returns (tr: seq<State>)
    ensures Run(tr) && |tr| > 0
    ensures var s := tr[|tr| - 1]; s.rs.active == None && s.rs.terminal == "" && s.ended == [] && s.calls == map[0 := Starting]
  {
    var s0 := State(Session(Some("thread"), None, "", false, false, false, 0, 0, {}), map[], {}, multiset{}, [], [], {}, 0, 0);
    Steps(s0, BeginStart(0));
    tr := [s0, StartApply(s0, 0)];
  }

  /** One more event of a run. */
  lemma Go(tr: seq<State>, e: Event) returns (r: seq<State>)
    requires Run(tr)
    ensures Run(r) && |r| == |tr| + 1 && r[|tr|] == HappensApply(tr[|tr| - 1], e)
  {
    var s := HappensApply(tr[|tr| - 1], e);
    Steps(tr[|tr| - 1], Happens(e));
    hide Next, Init;
    r := tr + [s];
  }

  /** Whatever call is in flight, a turn may start and complete while none is active. */
  lemma PlaysTurn(tr: seq<State>, turn: string) returns (r: seq<State>)
    requires Run(tr) && |tr| > 0 && tr[|tr| - 1].rs.active == None && turn != ""
    ensures Run(r) && |r| > 0
    ensures var s, q := tr[|tr| - 1], r[|r| - 1];
            q.rs.active == None && q.rs.terminal == turn && q.ended == s.ended + [turn] && q.arrived == s.arrived + {turn} && q.calls == s.calls
  {
    hide Run;
    r := Go(tr, Started(turn));
    r := Go(r, Completed(turn));
  }

  /** A turn that ended before its response is revived by it when another turn has started and ended in between. */
  lemma RevivedTurn() returns (tr: seq<State>, c: nat)
    ensures Run(tr) && |tr| > 0 && Enabled(tr[|tr| - 1], Respond(c, "T")) && Revives(tr[|tr| - 1], c, "T")
    ensures "T" in tr[|tr| - 1].ended
  {
    tr := BegunStart();
    hide Run;
    tr := PlaysTurn(tr, "T");
    tr := PlaysTurn(tr, "U");
    c := 0;
    assert tr[|tr| - 1].ended == ["T", "U"];
  }

  /**
   While another turn is active the new turn's start and end are both dropped, so the response
   makes a turn that has ended active in place of one that is running.
   */
  lemma RevivedOverRunning() returns (tr: seq<State>, c: nat)
    ensures Run(tr) && |tr| > 0 && Enabled(tr[|tr| - 1], Respond(c, "T")) && Revives(tr[|tr| - 1], c, "T")
    ensures tr[|tr| - 1].rs.active == Some("U") && tr[|tr| - 1].ended == []
  {
    tr := BegunStart();
    hide Run;
    tr := Go(tr, Started("U"));
    tr := Go(tr, Started("T"));
    tr := Go(tr, Completed("T"));
    c := 0;
  }

  lemma Steps(s: State, step: Step)
    requires Enabled(s, step)
    ensures Next(s, Apply(s, step))
  {
  }
}

/** The entries a runtime's thread shows: a refreshed snapshot is merged with what events published meanwhile. */
module RuntimeEntries {
  import opened Basics

  datatype Entry = Entry(id: nat, body: string)

  function Ids(es: seq<Entry>): (r: seq<nat>)
    ensures |r| == |es| && forall i :: 0 <= i < |es| ==> r[i] == es[i].id
  {
    seq(|es|, i requires 0 <= i < |es| => es[i].id)
  }

  ghost predicate Unique(es: seq<Entry>) { forall i, j :: 0 <= i < j < |es| ==> es[i].id != es[j].id }

  ghost predicate Has(es: seq<Entry>, id: nat) { exists i :: 0 <= i < |es| && es[i].id == id }

  /** The last of the entries with this id. */
  function Latest(es: seq<Entry>, id: nat): Option<Entry> {
    if es == [] then None
    else if es[|es| - 1].id == id then Some(es[|es| - 1])
    else Latest(es[..|es| - 1], id)
  }

  lemma {:induction false} LatestMeans(es: seq<Entry>, id: nat)
    ensures Latest(es, id).Some? <==> Has(es, id)
    ensures Latest(es, id).Some? ==> Latest(es, id).value in es && Latest(es, id).value.id == id
  {
    if es != [] {
      var front, last := es[..|es| - 1], es[|es| - 1];
      LatestMeans(front, id);
      assert es == front + [last];
      if Has(es, id) && last.id != id {
        var i :| 0 <= i < |es| && es[i].id == id;
        assert front[i].id == id;
      }
      if Has(front, id) {
        var i :| 0 <= i < |front| && front[i].id == id;
        assert es[i].id == id;
      }
    }
  }

  /** e, or the newest live entry of its id. */
  function Newest(live: seq<Entry>, e: Entry): Entry {
    if Latest(live, e.id).Some? then Latest(live, e.id).value else e
  }

  /** The live entries missing from the snapshot, in order. */
  function Extra(snapshot: seq<Entry>, live: seq<Entry>): seq<Entry> {
    Filter(live, (e: Entry) => e.id !in Ids(snapshot))
  }

  /**
   The snapshot in its order, each entry replaced by the newest live one of its id where there
   is one, then the live entries it lacks, in theirs.
   */
  method Merge(snapshot: seq<Entry>, live: seq<Entry>) returns (merged: seq<Entry>)
    ensures |merged| >= |snapshot| && merged[|snapshot|..] == Extra(snapshot, live)
    ensures forall i :: 0 <= i < |snapshot| ==> merged[i] == Newest(live, snapshot[i])
  {
    merged := Overlay(snapshot, live);
    ghost var head := merged;
    for i := 0 to |live|
      invariant merged == head + Extra(snapshot, live[..i])
    {
      FilterAppend(live[..i], live[i], (e: Entry) => e.id !in Ids(snapshot));
      assert live[..i + 1] == live[..i] + [live[i]];
      if live[i].id !in Ids(snapshot) {
        merged := merged + [live[i]];
      }
    }
    assert live[..|live|] == live;
  }

  /** The snapshot with every entry brought up to date. */
  method Overlay(snapshot: seq<Entry>, live: seq<Entry>) returns (merged: seq<Entry>)
    ensures |merged| == |snapshot| && forall i :: 0 <= i < |snapshot| ==> merged[i] == Newest(live, snapshot[i])
  {
    var byId := ById(live);
    merged := [];
    for i := 0 to |snapshot|
      invariant |merged| == i && forall k :: 0 <= k < i ==> merged[k] == Newest(live, snapshot[k])
    {
      var e := snapshot[i];
      if e.id in byId {
        e := byId[e.id];
      }
      merged := merged + [e];
    }
  }

  method ById(live: seq<Entry>) returns (byId: map<nat, Entry>)
    ensures forall id :: id in byId <==> Latest(live, id).Some?
    ensures forall id :: id in byId ==> Latest(live, id) == Some(byId[id])
  {
    byId := map[];
    for i := 0 to |live|
      invariant forall id :: id in byId <==> Latest(live[..i], id).Some?
      invariant forall id :: id in byId ==> Latest(live[..i], id) == Some(byId[id])
    {
      assert live[..i + 1][..i] == live[..i];
      byId := byId[live[i].id := live[i]];
    }
    assert live[..|live|] == live;
  }

  lemma {:induction false} UniqueExtra(snapshot: seq<Entry>, live: seq<Entry>)
    requires Unique(live)
    ensures Unique(Extra(snapshot, live))
  {
    if live != [] {
      UniqueExtra(snapshot, live[1..]);
      forall x | x in Extra(snapshot, live[1..]) ensures x.id != live[0].id {
        assert x in live[1..];
      }
    }
  }

  /** The merge's result. */
  ghost predicate Merged(snapshot: seq<Entry>, live: seq<Entry>, merged: seq<Entry>) {
    && |merged| >= |snapshot| && merged[|snapshot|..] == Extra(snapshot, live)
    && forall i :: 0 <= i < |snapshot| ==> merged[i] == Newest(live, snapshot[i])
  }

  /** Merging loses no id of either side, adds none, and shows the newest live entry of every live id. */
  lemma MergeMeans(snapshot: seq<Entry>, live: seq<Entry>, merged: seq<Entry>)
    requires Merged(snapshot, live, merged)
    ensures forall id :: Has(merged, id) <==> Has(snapshot, id) || Has(live, id)
    ensures forall id :: Has(live, id) ==> Latest(live, id).Some? && Latest(live, id).value in merged
    ensures forall e :: e in snapshot && !Has(live, e.id) ==> e in merged
    ensures Unique(snapshot) && Unique(live) ==> Unique(merged)
  {
    forall id | Has(live, id) ensures Latest(live, id).Some? && Latest(live, id).value in merged { NewestShown(snapshot, live, merged, id); }
    forall e | e in snapshot && !Has(live, e.id) ensures e in merged {
      var i :| 0 <= i < |snapshot| && snapshot[i] == e;
      LatestMeans(live, e.id);
      assert merged[i] == e;
    }
    forall id ensures Has(merged, id) <==> Has(snapshot, id) || Has(live, id) { SameIds(snapshot, live, merged, id); }
    if Unique(snapshot) && Unique(live) { MergedUnique(snapshot, live, merged); }
  }

  lemma MergedUnique(snapshot: seq<Entry>, live: seq<Entry>, merged: seq<Entry>)
    requires Merged(snapshot, live, merged) && Unique(snapshot) && Unique(live)
    ensures Unique(merged)
  {
    var n, extra := |snapshot|, Extra(snapshot, live);
    UniqueExtra(snapshot, live);
    assert forall i :: n <= i < |merged| ==> merged[i] == extra[i - n] && merged[i] in extra;
    forall i | 0 <= i < n ensures merged[i].id == snapshot[i].id == Ids(snapshot)[i] { LatestMeans(live, snapshot[i].id); }
    hide Newest, Extra;
  }

  lemma NewestShown(snapshot: seq<Entry>, live: seq<Entry>, merged: seq<Entry>, id: nat)
    requires Merged(snapshot, live, merged) && Has(live, id)
    ensures Latest(live, id).Some? && Latest(live, id).value in merged
  {
    LatestMeans(live, id);
    if id in Ids(snapshot) {
      var i :| 0 <= i < |snapshot| && Ids(snapshot)[i] == id;
      assert merged[i] == Latest(live, id).value;
    } else {
      assert Latest(live, id).value in merged[|snapshot|..];
    }
  }

  lemma SameIds(snapshot: seq<Entry>, live: seq<Entry>, merged: seq<Entry>, id: nat)
    requires Merged(snapshot, live, merged)
    ensures Has(merged, id) <==> Has(snapshot, id) || Has(live, id)
  {
    LatestMeans(live, id);
    if Has(live, id) {
      NewestShown(snapshot, live, merged, id);
      var i :| 0 <= i < |merged| && merged[i] == Latest(live, id).value;
      assert merged[i].id == id;
    }
    if Has(snapshot, id) {
      var i :| 0 <= i < |snapshot| && snapshot[i].id == id;
      assert merged[i].id == id;
    }
    if Has(merged, id) {
      var i :| 0 <= i < |merged| && merged[i].id == id;
      if i < |snapshot| { LatestMeans(live, snapshot[i].id); } else { ExtraLive(snapshot, live, merged, i); }
    }
  }

  lemma ExtraLive(snapshot: seq<Entry>, live: seq<Entry>, merged: seq<Entry>, i: nat)
    requires Merged(snapshot, live, merged) && |snapshot| <= i < |merged|
    ensures Has(live, merged[i].id)
  {
    assert merged[|snapshot|..][i - |snapshot|] in live;
  }

  /** A published entry replaces the first one of its id in place, or is added at the end; unique ids stay unique. */
  method Publish(es: seq<Entry>, e: Entry) returns (r: seq<Entry>)
    ensures Unique(es) ==> Unique(r)
    ensures if Has(es, e.id)
            then exists i :: 0 <= i < |es| && es[i].id == e.id && (forall j :: 0 <= j < i ==> es[j].id != e.id) && r == es[i := e]
            else r == es + [e]
  {
    for i := 0 to |es|
      invariant forall j :: 0 <= j < i ==> es[j].id != e.id
    {
      if es[i].id == e.id {
        return es[i := e];
      }
    }
    return es + [e];
  }
}
