/**
 The life of a session inside one server: loaded or created, live, closing, closed, while other
 requests look the same id up. A step is one section of the server's lock, one channel close, or
 one call that takes or releases the store's exclusive lock on the session.
 */
module Lifecycle {
  import opened Basics

  type Id = nat

  /** Who holds a session's exclusive lock: another process, or one of this server's session objects. */
  datatype Holder = Foreign | Ours(obj: nat)

  /** Where a cold load is. */
  datatype LoadPc =
    | Looking                     // at the top of the retry loop
    | AwaitLoad(other: nat)       // waits for another load's channel
    | AwaitClose(other: nat)      // waits for a close's channel
    | Loading                     // registered, before the disk load
    | Loaded(obj: nat)            // holds the lock, not installed
    | Finishing(r: Option<nat>)   // done, still registered
    | Signalling(r: Option<nat>)  // unregistered, channel not yet closed
    | Done(r: Option<nat>)

  datatype Loader = Loader(id: Id, pc: LoadPc)

  /** Where the winner of a close is; `registered` unless it is Shutdown's. */
  datatype ClosePc = Claimed | Hooked | Unlocked | Over

  datatype Closer = Closer(obj: nat, registered: bool, pc: ClosePc)

  datatype State = State(
    live: map<Id, nat>,
    loading: map<Id, nat>,
    closing: map<Id, nat>,
    ids: map<nat, Id>,           // the session objects ever made, and the session each is of
    shared: set<nat>,            // objects installed where another request can find them
    closed: map<nat, nat>,       // objects marked closed, and by whose claim
    subs: set<(nat, nat)>,       // (connection, object) subscriptions
    active: set<nat>,            // objects whose mirrored state says a turn owns them
    loaders: map<nat, Loader>,
    closers: map<nat, Closer>,
    creating: set<nat>,          // made by open or fork and not installed yet
    locked: map<Id, Holder>,
    loadSignals: set<nat>,       // closed load channels
    closeSignals: set<nat>,      // closed close channels
    doomed: set<nat>,            // Shutdown's snapshot, not yet claimed
    down: bool,                  // Shutdown has emptied the table
    hooked: multiset<nat>,       // session_closed hooks that ran
    ended: multiset<nat>,        // session objects that were closed
    fault: bool,                 // a closed channel was closed again
    deciding: Option<(nat, nat)>, // the close that read a session idle and has yet to claim it: both locks are held
    turned: seq<bool>,           // auxiliary: what the mirror of that session was told since
    runtime: set<nat>,           // the sessions of external runtimes; the others run their turns here
    early: set<Id>,              // auxiliary: unsettled ids some load registered for while they were being created
    stray: set<Id>)              // auxiliary: other ids whose load found the lock in this process's own hands

  datatype LoadAct = LookUp | Wake | Load(made: nat, readable: bool) | Refuse | Install | Unregister | Signal

  datatype CloseAct = Hook | Close | Deregister

  datatype Step =
    | ForeignLock(id: Id) | ForeignUnlock(id: Id)
    | Create(obj: nat, id: Id) | CreateFail(obj: nat) | InstallCreated(obj: nat, conn: nat)
    | Begin(t: nat, id: Id) | LoadStep(t: nat, load: LoadAct)
    | Attach(conn: nat, id: Id) | Detach(conn: nat, obj: nat) | SetActive(obj: nat, active: bool) | StartTurn(obj: nat)
    | FindIdle(t: nat, obj: nat, busy: bool) | Claim | CloseStep(t: nat, act: CloseAct)
    | Shutdown | ShutdownClaim(t: nat, obj: nat)

  /** Nobody holds the server's lock between two of its own sections. */
  ghost predicate MuFree(s: State) { s.deciding.None? }

  ghost predicate LoadEnabled(s: State, t: nat, act: LoadAct) {
    t in s.loaders &&
    match act
    case LookUp => MuFree(s) && s.loaders[t].pc.Looking?
    case Wake =>
      (s.loaders[t].pc.AwaitLoad? && s.loaders[t].pc.other in s.loadSignals) ||
      (s.loaders[t].pc.AwaitClose? && s.loaders[t].pc.other in s.closeSignals)
    case Load(made, _) => s.loaders[t].pc.Loading? && made !in s.ids
    case Refuse => s.loaders[t].pc.Loaded?
    case Install => MuFree(s) && s.loaders[t].pc.Loaded?
    case Unregister => MuFree(s) && s.loaders[t].pc.Finishing?
    case Signal => s.loaders[t].pc.Signalling?
  }

  ghost predicate CloseEnabled(s: State, t: nat, act: CloseAct) {
    t in s.closers && s.closers[t].obj in s.ids &&
    match act
    case Hook => s.closers[t].pc.Claimed?
    case Close => s.closers[t].pc.Hooked?
    case Deregister => MuFree(s) && s.closers[t].pc.Unlocked? && s.closers[t].registered
  }

  ghost predicate Enabled(s: State, step: Step) {
    match step
    case ForeignLock(id) => id !in s.locked
    case ForeignUnlock(id) => id in s.locked && s.locked[id] == Foreign
    case Create(obj, id) =>  // the id was drawn just now: nothing in this process names it yet
      obj !in s.ids && id !in s.locked && id !in s.live && id !in s.loading && id !in s.closing
    case CreateFail(obj) => obj in s.creating && obj in s.ids
    case InstallCreated(obj, conn) => MuFree(s) && obj in s.creating && obj in s.ids
    case Begin(t, id) => t !in s.loaders
    case LoadStep(t, act) => LoadEnabled(s, t, act)
    case Attach(conn, id) => MuFree(s)
    case Detach(conn, obj) => MuFree(s)
    case SetActive(obj, active) =>  // a turn run here goes from one active state to another, or ends
      active ==> obj in s.runtime || obj in s.active
    case StartTurn(obj) => NotDeciding(s, obj)  // takes the session's own lock
    case FindIdle(t, obj, busy) => MuFree(s) && obj in s.shared && obj in s.ids && t !in s.closers
    case Claim => s.deciding.Some? && s.deciding.value.1 in s.ids
    case CloseStep(t, act) => CloseEnabled(s, t, act)
    case Shutdown => MuFree(s)
    case ShutdownClaim(t, obj) =>
      obj in s.doomed && t !in s.closers && NotDeciding(s, obj) && (s.deciding.Some? ==> t != s.deciding.value.0)
  }

  ghost predicate NotDeciding(s: State, obj: nat) { s.deciding.Some? ==> s.deciding.value.1 != obj }

  /** Closing a session object releases the lock it holds, and no other. */
  function Released(locked: map<Id, Holder>, id: Id, obj: nat): map<Id, Holder> {
    if id in locked && locked[id] == Ours(obj) then locked - {id} else locked
  }

  ghost predicate BeingCreated(s: State, id: Id) {
    exists o :: o in s.creating && o in s.ids && s.ids[o] == id
  }

  ghost function At(s: State, t: nat, pc: LoadPc): (r: State)
    requires t in s.loaders
    ensures r.down == s.down && SameDecision(s, r)
  {
    s.(loaders := s.loaders[t := s.loaders[t].(pc := pc)])
  }

  /** Nothing that bears on a close being decided has changed. */
  ghost predicate SameDecision(s: State, r: State) {
    && r.deciding == s.deciding && r.turned == s.turned && r.active == s.active && r.runtime == s.runtime
    && r.closed == s.closed && r.subs == s.subs && r.closers.Keys == s.closers.Keys && s.shared <= r.shared && s.ids.Keys <= r.ids.Keys
  }

  // ---- making a session: open, fork ----

  ghost function CreateApply(s: State, obj: nat, id: Id): (r: State)
    ensures r.down == s.down && SameDecision(s, r)
  {
    s.(ids := s.ids[obj := id], creating := s.creating + {obj}, locked := s.locked[id := Ours(obj)])
  }

  ghost function CreateFailApply(s: State, obj: nat): (r: State)
    requires obj in s.ids
    ensures r.down == s.down && SameDecision(s, r)
  {
    s.(creating := s.creating - {obj}, locked := Released(s.locked, s.ids[obj], obj), ended := s.ended + multiset{obj})
  }

  ghost function InstallCreatedApply(s: State, obj: nat, conn: nat): State
    requires obj in s.ids
  {
    s.(creating := s.creating - {obj}, live := s.live[s.ids[obj] := obj], shared := s.shared + {obj}, subs := s.subs + {(conn, obj)})
  }

  // ---- a cold load ----

  ghost predicate Busy(s: State, id: Id) { id in s.live || id in s.loading || id in s.closing }

  ghost function WaitApply(s: State, t: nat): (r: State)
    requires t in s.loaders && Busy(s, s.loaders[t].id)
    ensures r.down == s.down && SameDecision(s, r)
  {
    var id := s.loaders[t].id;
    At(s, t, if id in s.live then Done(Some(s.live[id])) else if id in s.loading then AwaitLoad(s.loading[id]) else AwaitClose(s.closing[id]))
  }

  ghost function RegisterApply(s: State, t: nat): (r: State)
    requires t in s.loaders
    ensures r.down == s.down && SameDecision(s, r)
  {
    var id := s.loaders[t].id;
    At(s.(loading := s.loading[id := t], early := if BeingCreated(s, id) then s.early + {id} else s.early), t, Loading)
  }

  /** The id, if its lock is in this process's own hands. */
  function Met(locked: map<Id, Holder>, id: Id): set<Id> {
    if id in locked && locked[id].Ours? then {id} else {}
  }

  /** The lock is held, here or elsewhere, or the log cannot be read. */
  ghost function MissApply(s: State, t: nat): (r: State)
    requires t in s.loaders
    ensures r.down == s.down && SameDecision(s, r)
  {
    var id := s.loaders[t].id;
    At(s.(stray := s.stray + (Met(s.locked, id) - s.early)), t, Finishing(None))
  }

  ghost function LoadedApply(s: State, t: nat, made: nat): (r: State)
    requires t in s.loaders
    ensures r.down == s.down && SameDecision(s, r)
  {
    var id := s.loaders[t].id;
    At(s.(locked := s.locked[id := Ours(made)], ids := s.ids[made := id]), t, Loaded(made))
  }

  ghost function RefuseApply(s: State, t: nat): (r: State)
    requires t in s.loaders && s.loaders[t].pc.Loaded?
    ensures r.down == s.down && SameDecision(s, r)
  {
    var o := s.loaders[t].pc.obj;
    At(s.(locked := Released(s.locked, s.loaders[t].id, o), ended := s.ended + multiset{o}), t, Finishing(None))
  }

  ghost function InstallApply(s: State, t: nat): (r: State)
    requires t in s.loaders && s.loaders[t].pc.Loaded?
    ensures r.down == s.down && SameDecision(s, r)
  {
    var o := s.loaders[t].pc.obj;
    At(s.(live := s.live[s.loaders[t].id := o], shared := s.shared + {o}), t, Finishing(Some(o)))
  }

  ghost function UnregisterApply(s: State, t: nat): (r: State)
    requires t in s.loaders && s.loaders[t].pc.Finishing?
    ensures r.down == s.down && SameDecision(s, r)
  {
    At(s.(loading := s.loading - {s.loaders[t].id}), t, Signalling(s.loaders[t].pc.r))
  }

  ghost function SignalApply(s: State, t: nat): (r: State)
    requires t in s.loaders && s.loaders[t].pc.Signalling?
    ensures r.down == s.down && SameDecision(s, r)
  {
    At(s.(loadSignals := s.loadSignals + {t}, fault := s.fault || t in s.loadSignals), t, Done(s.loaders[t].pc.r))
  }

  ghost function LoadStepApply(s: State, t: nat, act: LoadAct): (r: State)
    requires LoadEnabled(s, t, act)
    ensures r.down == s.down && SameDecision(s, r)
  {
    match act
    case LookUp => if Busy(s, s.loaders[t].id) then WaitApply(s, t) else RegisterApply(s, t)
    case Wake => At(s, t, Looking)
    case Load(made, readable) => if s.loaders[t].id in s.locked || !readable then MissApply(s, t) else LoadedApply(s, t, made)
    case Refuse => RefuseApply(s, t)
    case Install => InstallApply(s, t)
    case Unregister => UnregisterApply(s, t)
    case Signal => SignalApply(s, t)
  }

  // ---- closing ----

  ghost predicate Unused(s: State, obj: nat) { forall u :: u in s.subs ==> u.1 != obj }

  /** No connection holds the session, nobody has its lock busy or its close claimed, and no turn owns it. */
  ghost predicate MayClose(s: State, obj: nat, busy: bool) {
    Unused(s, obj) && !busy && obj !in s.closed && obj !in s.active
  }

  /** The idle read: the lock of the mirror is let go, the session's own and the server's are not. */
  ghost function FindIdleApply(s: State, t: nat, obj: nat): State {
    s.(deciding := Some((t, obj)), turned := [])
  }

  ghost function ClaimApply(s: State, t: nat, obj: nat): State
    requires obj in s.ids
  {
    s.(closed := s.closed[obj := t], closing := s.closing[s.ids[obj] := t], live := s.live - {s.ids[obj]},
       closers := s.closers[t := Closer(obj, true, Claimed)], deciding := None)
  }

  /** Shutdown's own claim of an object it found in the table. */
  ghost function DoomApply(s: State, t: nat, obj: nat): State {
    s.(doomed := s.doomed - {obj}, closed := s.closed[obj := t], closers := s.closers[t := Closer(obj, false, Claimed)])
  }

  ghost function HookApply(s: State, t: nat): (r: State)
    requires t in s.closers
    ensures r.down == s.down && SameDecision(s, r)
  {
    var c := s.closers[t];
    s.(hooked := s.hooked + multiset{c.obj}, closers := s.closers[t := c.(pc := Hooked)])
  }

  ghost function CloseApply(s: State, t: nat): (r: State)
    requires t in s.closers && s.closers[t].obj in s.ids
    ensures r.down == s.down && SameDecision(s, r)
  {
    var c := s.closers[t];
    s.(locked := Released(s.locked, s.ids[c.obj], c.obj), ended := s.ended + multiset{c.obj}, closers := s.closers[t := c.(pc := Unlocked)])
  }

  ghost function DeregisterApply(s: State, t: nat): (r: State)
    requires t in s.closers && s.closers[t].obj in s.ids
    ensures r.down == s.down && SameDecision(s, r)
  {
    var c := s.closers[t];
    s.(closing := s.closing - {s.ids[c.obj]}, closeSignals := s.closeSignals + {t}, fault := s.fault || t in s.closeSignals,
       closers := s.closers[t := c.(pc := Over)])
  }

  ghost function CloseStepApply(s: State, t: nat, act: CloseAct): (r: State)
    requires CloseEnabled(s, t, act)
    ensures r.down == s.down && SameDecision(s, r)
  {
    match act
    case Hook => HookApply(s, t)
    case Close => CloseApply(s, t)
    case Deregister => DeregisterApply(s, t)
  }

  /** Steps that hand no session object from one owner to another. */
  predicate Quiet(step: Step) {
    step.ForeignLock? || step.ForeignUnlock? || step.Begin? || step.Attach? || step.Detach? || step.SetActive? || step.StartTurn?
  }

  ghost function QuietApply(s: State, step: Step): State
    requires Quiet(step)
  {
    match step
    case ForeignLock(id) => s.(locked := s.locked[id := Foreign])
    case ForeignUnlock(id) => s.(locked := s.locked - {id})
    case Begin(t, id) => s.(loaders := s.loaders[t := Loader(id, Looking)])
    case Attach(conn, id) => s.(subs := if id in s.live then s.subs + {(conn, s.live[id])} else s.subs)
    case Detach(conn, obj) => s.(subs := s.subs - {(conn, obj)})
    case SetActive(obj, active) =>
      s.(active := if active then s.active + {obj} else s.active - {obj},
         turned := if NotDeciding(s, obj) then s.turned else s.turned + [active])
    case StartTurn(obj) => s.(active := if obj in s.closed then s.active else s.active + {obj})
  }

  ghost function ShutdownApply(s: State): State
  {
    s.(down := true, doomed := s.doomed + s.live.Values, live := map[])
  }

  ghost function Raw(s: State, step: Step): State
    requires Enabled(s, step)
  {
    match step
    case Create(obj, id) => CreateApply(s, obj, id)
    case CreateFail(obj) => CreateFailApply(s, obj)
    case InstallCreated(obj, conn) => InstallCreatedApply(s, obj, conn)
    case LoadStep(t, act) => LoadStepApply(s, t, act)
    case FindIdle(t, obj, busy) => if MayClose(s, obj, busy) then FindIdleApply(s, t, obj) else s
    case Claim => ClaimApply(s, s.deciding.value.0, s.deciding.value.1)
    case CloseStep(t, act) => CloseStepApply(s, t, act)
    case Shutdown => ShutdownApply(s)
    case ShutdownClaim(t, obj) => if obj in s.closed then s.(doomed := s.doomed - {obj}) else DoomApply(s, t, obj)
    case _ => QuietApply(s, step)
  }

  /** A load, a creation or a close of the id is under way. */
  ghost predicate Unsettled(s: State, id: Id) {
    id in s.loading || BeingCreated(s, id) || exists t :: Finishes(s, t, id)
  }

  ghost predicate Finishes(s: State, t: nat, id: Id) {
    t in s.closers && !s.closers[t].pc.Over? && s.closers[t].obj in s.ids && s.ids[s.closers[t].obj] == id
  }

  /** An id stops being an early one as soon as nothing is under way for it. */
  ghost function Pruned(s: State): State {
    s.(early := set id | id in s.early && Unsettled(s, id))
  }

  ghost function Apply(s: State, step: Step): State
    requires Enabled(s, step)
  {
    Pruned(Raw(s, step))
  }

  ghost predicate Init(s: State) {
    s.live == map[] && s.loading == map[] && s.closing == map[] && s.ids == map[] && s.shared == {} && s.closed == map[] && s.subs == {} && s.active == {} && s.loaders == map[] && s.closers == map[] &&
    s.creating == {} && s.locked == map[] && s.loadSignals == {} && s.closeSignals == {} && s.doomed == {} && !s.down &&
    s.hooked == multiset{} && s.ended == multiset{} && !s.fault && s.deciding == None && s.turned == [] && s.early == {} && s.stray == {}
  }

  ghost predicate Next(s: State, s': State) {
    exists step :: Enabled(s, step) && s' == Apply(s, step)
  }

  ghost predicate Run(tr: seq<State>) {
    |tr| > 0 && Init(tr[0]) && forall i :: 0 <= i < |tr| - 1 ==> Next(tr[i], tr[i + 1])
  }
}
