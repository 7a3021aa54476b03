/** What every step of a session's life keeps, and what that gives in every reachable state. */
module LifecycleTheorems {
  import opened Basics
  import opened Lifecycle

  // ---- the invariant, one predicate per subject ----

  predicate Registered(pc: LoadPc) { pc.Loading? || pc.Loaded? || pc.Finishing? }

  /** The loading table names exactly the loads between registering and unregistering. */
  ghost predicate LoadsOk(loaders: map<nat, Loader>, loading: map<Id, nat>) {
    && (forall t :: t in loaders && Registered(loaders[t].pc) ==> loaders[t].id in loading && loading[loaders[t].id] == t)
    && (forall id :: id in loading ==> loading[id] in loaders && loaders[loading[id]].id == id && Registered(loaders[loading[id]].pc))
  }

  /** An object not yet installed belongs to the load or the creation that made it, and to nobody else. */
  ghost predicate PrivateOk(ids: map<nat, Id>, shared: set<nat>, loaders: map<nat, Loader>, creating: set<nat>, ended: multiset<nat>) {
    && shared <= ids.Keys
    && (forall o :: o !in shared ==> ended[o] <= (if o in ids then 1 else 0))
    && (forall o :: o in creating ==> o in ids && o !in shared && ended[o] == 0)
    && (forall t :: t in loaders && loaders[t].pc.Loaded? ==> MadeBy(ids, shared, creating, ended, loaders[t].id, loaders[t].pc.obj))
  }

  ghost predicate MadeBy(ids: map<nat, Id>, shared: set<nat>, creating: set<nat>, ended: multiset<nat>, id: Id, o: nat) {
    o in ids && ids[o] == id && o !in shared && o !in creating && ended[o] == 0
  }

  /** Every close has one owner. */
  ghost predicate ClosesOk(shared: set<nat>, closers: map<nat, Closer>, closed: map<nat, nat>) {
    && (forall o :: o in closed ==> o in shared && closed[o] in closers && closers[closed[o]].obj == o)
    && (forall t :: t in closers ==> closers[t].obj in closed && closed[closers[t].obj] == t)
  }

  /** The hook and the close of an object ran as often as the owner of its close got to them. */
  ghost predicate CountsOk(shared: set<nat>, closers: map<nat, Closer>, closed: map<nat, nat>, hooked: multiset<nat>, ended: multiset<nat>) {
    && (forall o :: hooked[o] == if o in closed && closed[o] in closers && !closers[closed[o]].pc.Claimed? then 1 else 0)
    && (forall o :: o in shared ==> ended[o] == if o in closed && closed[o] in closers && !Holding(closers[closed[o]].pc) then 1 else 0)
  }

  predicate Holding(pc: ClosePc) { pc.Claimed? || pc.Hooked? }

  ghost predicate SignalsOk(loaders: map<nat, Loader>, closers: map<nat, Closer>, loadSignals: set<nat>, closeSignals: set<nat>) {
    && (forall t :: t in loadSignals ==> t in loaders && loaders[t].pc.Done?)
    && (forall t :: t in closeSignals ==> t in closers && closers[t].pc.Over?)
  }

  /** The table and Shutdown's snapshot hold installed objects, each under its own id. */
  ghost predicate TableOk(ids: map<nat, Id>, shared: set<nat>, live: map<Id, nat>, doomed: set<nat>) {
    && (forall id :: id in live ==> live[id] in shared && live[id] in ids && ids[live[id]] == id)
    && doomed <= shared
  }

  /** Before Shutdown an installed object is in the table exactly until its close is claimed, and a closed one has no connection. */
  ghost predicate LiveOk(ids: map<nat, Id>, shared: set<nat>, closed: map<nat, nat>, live: map<Id, nat>, subs: set<(nat, nat)>) {
    && (forall id :: id in live ==> live[id] !in closed)
    && (forall o :: o in shared && o !in closed && o in ids ==> ids[o] in live && live[ids[o]] == o)
    && (forall u :: u in subs ==> u.1 !in closed)
  }

  /** The three ways one of the server's own objects can hold its session's lock. */
  ghost predicate Holds(s: State, o: nat)
    requires o in s.ids
  {
    || o in s.creating
    || (o in s.shared && (o in s.closed && s.closed[o] in s.closers ==> Holding(s.closers[s.closed[o]].pc)))
    || (s.ids[o] in s.loading && s.loading[s.ids[o]] in s.loaders && s.loaders[s.loading[s.ids[o]]].pc == Loaded(o))
  }

  ghost predicate LocksOk(s: State) {
    && (forall id :: id in s.locked && s.locked[id].Ours? ==> s.locked[id].obj in s.ids && s.ids[s.locked[id].obj] == id)
    && (forall o :: o in s.ids ==> (Holds(s, o) <==> s.ids[o] in s.locked && s.locked[s.ids[o]] == Ours(o)))
  }

  /** Before Shutdown the closing table names exactly the closes in progress. */
  ghost predicate ClosingOk(ids: map<nat, Id>, closers: map<nat, Closer>, closing: map<Id, nat>, early: set<Id>) {
    && (forall t :: t in closers ==> closers[t].registered)
    && (forall id :: id in closing ==> closing[id] in closers && !closers[closing[id]].pc.Over? &&
                                       closers[closing[id]].obj in ids && ids[closers[closing[id]].obj] == id)
    && (forall t :: t in closers && !closers[t].pc.Over? && closers[t].obj in ids && ids[closers[t].obj] !in early ==>
          ids[closers[t].obj] in closing && closing[ids[closers[t].obj]] == t)
  }

  /** Before Shutdown nothing else is going on under an id whose load has not been installed, or that is being created or closed. */
  ghost predicate AloneOk(ids: map<nat, Id>, loaders: map<nat, Loader>, loading: map<Id, nat>, live: map<Id, nat>,
                          closing: map<Id, nat>, creating: set<nat>, early: set<Id>) {
    && (forall t :: t in loaders && (loaders[t].pc.Loading? || loaders[t].pc.Loaded?) && loaders[t].id !in early ==>
          loaders[t].id !in live && loaders[t].id !in closing)
    && (forall o :: o in creating && o in ids && ids[o] !in early ==> ids[o] !in live && ids[o] !in closing && ids[o] !in loading)
    && (forall id :: id in closing && id !in early ==> id !in live)
  }

  ghost predicate Owned(s: State) {
    && LoadsOk(s.loaders, s.loading) && PrivateOk(s.ids, s.shared, s.loaders, s.creating, s.ended)
    && ClosesOk(s.shared, s.closers, s.closed) && TableOk(s.ids, s.shared, s.live, s.doomed)
  }

  ghost predicate Tallied(s: State) {
    && CountsOk(s.shared, s.closers, s.closed, s.hooked, s.ended)
    && SignalsOk(s.loaders, s.closers, s.loadSignals, s.closeSignals) && !s.fault
  }

  ghost predicate BeforeOk(s: State) {
    s.down || BeforeShutdown(s)
  }

  ghost predicate BeforeShutdown(s: State) {
    && LiveOk(s.ids, s.shared, s.closed, s.live, s.subs) && ClosingOk(s.ids, s.closers, s.closing, s.early)
    && AloneOk(s.ids, s.loaders, s.loading, s.live, s.closing, s.creating, s.early) && s.stray == {} && s.doomed == {}
  }

  /** A close being decided is of an installed, unclaimed session nobody is subscribed to. */
  ghost predicate DecidingOk(s: State) {
    s.deciding.Some? ==>
      var (t, obj) := s.deciding.value;
      t !in s.closers && obj in s.shared && obj in s.ids && obj !in s.closed && Unused(s, obj)
  }

  /** Its mirror says what it was last told since it was read idle; one whose turns run here was told of no start. */
  ghost predicate TurnedOk(deciding: Option<(nat, nat)>, active: set<nat>, turned: seq<bool>, runtime: set<nat>) {
    deciding.Some? ==>
      && (deciding.value.1 in active <==> turned != [] && turned[|turned| - 1])
      && (deciding.value.1 !in runtime ==> deciding.value.1 !in active)
  }

  /** A closed session whose turns run here is never active. */
  ghost predicate IdleOk(closed: map<nat, nat>, active: set<nat>, runtime: set<nat>) {
    forall o :: o in closed && o !in runtime ==> o !in active
  }

  ghost predicate Decides(s: State) {
    DecidingOk(s) && TurnedOk(s.deciding, s.active, s.turned, s.runtime) && (s.down || IdleOk(s.closed, s.active, s.runtime))
  }

  ghost predicate Inv(s: State) {
    Owned(s) && Tallied(s) && LocksOk(s) && BeforeOk(s) && Decides(s)
  }

  // ---- each step keeps it ----

  lemma BeginOwns(s: State, t: nat, id: Id)
    requires Owned(s) && Tallied(s) && t !in s.loaders
    ensures var r := QuietApply(s, Begin(t, id)); Owned(r) && Tallied(r)
  {
    hide ClosesOk, TableOk, CountsOk;
  }

  lemma QuietOwns(s: State, step: Step)
    requires Owned(s) && Tallied(s) && Quiet(step) && Enabled(s, step)
    ensures Owned(QuietApply(s, step)) && Tallied(QuietApply(s, step))
  {
    if step.Begin? {
      hide Owned, Tallied;
      BeginOwns(s, step.t, step.id);
    } else {
      hide LoadsOk, PrivateOk, ClosesOk, TableOk, CountsOk, SignalsOk;
    }
  }

  lemma ForeignLocks(s: State, locked: map<Id, Holder>)
    requires LocksOk(s)
    requires forall id :: id in locked && locked[id].Ours? <==> id in s.locked && s.locked[id].Ours?
    requires forall id :: id in locked && locked[id].Ours? ==> locked[id] == s.locked[id]
    ensures LocksOk(s.(locked := locked))
  {
    assert forall o :: o in s.ids ==> (Holds(s.(locked := locked), o) <==> Holds(s, o));
  }

  lemma BeginHolds(s: State, t: nat, id: Id, o: nat)
    requires o in s.ids && t !in s.loaders && (s.ids[o] in s.loading ==> s.loading[s.ids[o]] in s.loaders)
    ensures Holds(s.(loaders := s.loaders[t := Loader(id, Looking)]), o) <==> Holds(s, o)
  {
  }

  lemma HoldsAlike(s: State, r: State)
    requires LocksOk(s) && r.ids == s.ids && r.locked == s.locked && forall o :: o in s.ids ==> (Holds(r, o) <==> Holds(s, o))
    ensures LocksOk(r)
  {
    hide Holds;
  }

  lemma BeginLocks(s: State, t: nat, id: Id)
    requires Owned(s) && LocksOk(s) && t !in s.loaders
    ensures LocksOk(QuietApply(s, Begin(t, id)))
  {
    var r := QuietApply(s, Begin(t, id));
    assert forall id :: id in s.loading ==> s.loading[id] in s.loaders;
    hide Owned, LocksOk, Holds;
    forall o | o in s.ids ensures Holds(r, o) <==> Holds(s, o) {
      BeginHolds(s, t, id, o);
    }
    HoldsAlike(s, r);
  }

  lemma QuietLocks(s: State, step: Step)
    requires Owned(s) && LocksOk(s) && Quiet(step) && Enabled(s, step)
    ensures LocksOk(QuietApply(s, step))
  {
    hide LocksOk, Owned;
    if step.Begin? { BeginLocks(s, step.t, step.id); }
    else if step.ForeignLock? || step.ForeignUnlock? { ForeignLocks(s, QuietApply(s, step).locked); }
    else { SameLocks(s, QuietApply(s, step)); }
  }

  lemma AttachLive(s: State, conn: nat, id: Id)
    requires LiveOk(s.ids, s.shared, s.closed, s.live, s.subs)
    ensures var r := QuietApply(s, Attach(conn, id)); LiveOk(r.ids, r.shared, r.closed, r.live, r.subs)
  {
  }

  lemma BeginBefore(s: State, t: nat, id: Id)
    requires BeforeShutdown(s) && t !in s.loaders
    ensures BeforeShutdown(QuietApply(s, Begin(t, id)))
  {
    hide LiveOk, ClosingOk;
  }

  lemma QuietBefore(s: State, step: Step)
    requires Owned(s) && LocksOk(s) && BeforeShutdown(s) && Quiet(step) && Enabled(s, step)
    ensures BeforeShutdown(QuietApply(s, step))
  {
    hide Owned, LocksOk;
    if step.Begin? {
      hide BeforeShutdown;
      BeginBefore(s, step.t, step.id);
    } else if step.Attach? {
      AttachLive(s, step.conn, step.id);
      hide LiveOk, ClosingOk, AloneOk;
    } else {
      hide ClosingOk, AloneOk;
    }
  }

  lemma ShutdownOwns(s: State)
    requires Owned(s) && Tallied(s)
    ensures Owned(ShutdownApply(s)) && Tallied(ShutdownApply(s))
  {
  }

  lemma ShutdownLocks(s: State)
    requires Owned(s) && LocksOk(s)
    ensures LocksOk(ShutdownApply(s))
  {
  }

  lemma CreateOwns(s: State, obj: nat, id: Id)
    requires Owned(s) && Tallied(s) && Enabled(s, Create(obj, id))
    ensures Owned(CreateApply(s, obj, id)) && Tallied(CreateApply(s, obj, id))
  {
  }

  lemma CreateLocks(s: State, obj: nat, id: Id)
    requires Owned(s) && LocksOk(s) && Enabled(s, Create(obj, id))
    ensures LocksOk(CreateApply(s, obj, id))
  {
  }

  lemma MoreIdsLive(ids: map<nat, Id>, obj: nat, id: Id, shared: set<nat>, closed: map<nat, nat>, live: map<Id, nat>, subs: set<(nat, nat)>)
    requires LiveOk(ids, shared, closed, live, subs) && shared <= ids.Keys && obj !in ids
    ensures LiveOk(ids[obj := id], shared, closed, live, subs)
  {
  }

  lemma MoreIdsClosing(ids: map<nat, Id>, obj: nat, id: Id, closers: map<nat, Closer>, closing: map<Id, nat>, early: set<Id>)
    requires ClosingOk(ids, closers, closing, early) && obj !in ids && forall t :: t in closers ==> closers[t].obj in ids
    ensures ClosingOk(ids[obj := id], closers, closing, early)
  {
  }

  lemma CreateAlone(ids: map<nat, Id>, loaders: map<nat, Loader>, loading: map<Id, nat>, live: map<Id, nat>,
                    closing: map<Id, nat>, creating: set<nat>, early: set<Id>, obj: nat, id: Id)
    requires AloneOk(ids, loaders, loading, live, closing, creating, early) && obj !in ids && creating <= ids.Keys
    requires id !in live && id !in loading && id !in closing
    ensures AloneOk(ids[obj := id], loaders, loading, live, closing, creating + {obj}, early)
  {
  }

  lemma CreateBefore(s: State, obj: nat, id: Id)
    requires Owned(s) && BeforeShutdown(s) && Enabled(s, Create(obj, id))
    ensures BeforeShutdown(CreateApply(s, obj, id))
  {
    MoreIdsLive(s.ids, obj, id, s.shared, s.closed, s.live, s.subs);
    MoreIdsClosing(s.ids, obj, id, s.closers, s.closing, s.early);
    assert s.creating <= s.ids.Keys;
    CreateAlone(s.ids, s.loaders, s.loading, s.live, s.closing, s.creating, s.early, obj, id);
    hide Owned, LiveOk, ClosingOk, AloneOk;
  }

  lemma CreateFailOwns(s: State, obj: nat)
    requires Owned(s) && Tallied(s) && obj in s.creating && obj in s.ids
    ensures Owned(CreateFailApply(s, obj)) && Tallied(CreateFailApply(s, obj))
  {
  }

  lemma CreateFailLocks(s: State, obj: nat)
    requires Owned(s) && LocksOk(s) && obj in s.creating && obj in s.ids
    ensures LocksOk(CreateFailApply(s, obj))
  {
  }

  lemma CreateFailBefore(s: State, obj: nat)
    requires Owned(s) && LocksOk(s) && BeforeShutdown(s) && obj in s.creating && obj in s.ids
    ensures BeforeShutdown(CreateFailApply(s, obj))
  {
  }

  lemma InstallCreatedOwns(s: State, obj: nat, conn: nat)
    requires Owned(s) && Tallied(s) && obj in s.creating && obj in s.ids
    ensures Owned(InstallCreatedApply(s, obj, conn)) && Tallied(InstallCreatedApply(s, obj, conn))
  {
  }

  lemma InstallCreatedLocks(s: State, obj: nat, conn: nat)
    requires Owned(s) && LocksOk(s) && obj in s.creating && obj in s.ids
    ensures LocksOk(InstallCreatedApply(s, obj, conn))
  {
  }

  lemma InstallCreatedAlone(ids: map<nat, Id>, loaders: map<nat, Loader>, loading: map<Id, nat>, live: map<Id, nat>,
                            closing: map<Id, nat>, creating: set<nat>, early: set<Id>, obj: nat)
    requires LoadsOk(loaders, loading) && AloneOk(ids, loaders, loading, live, closing, creating, early) && obj in creating && obj in ids
    requires forall o :: o in creating && o in ids && ids[o] == ids[obj] ==> o == obj
    ensures AloneOk(ids, loaders, loading, live[ids[obj] := obj], closing, creating - {obj}, early)
  {
  }

  lemma InstallCreatedLive(ids: map<nat, Id>, shared: set<nat>, closed: map<nat, nat>, live: map<Id, nat>, subs: set<(nat, nat)>, obj: nat, conn: nat)
    requires LiveOk(ids, shared, closed, live, subs) && obj in ids && obj !in closed
    requires forall o :: o in shared && o in ids && o !in closed ==> ids[o] != ids[obj]
    ensures LiveOk(ids, shared + {obj}, closed, live[ids[obj] := obj], subs + {(conn, obj)})
  {
  }

  lemma InstallCreatedBefore(s: State, obj: nat, conn: nat)
    requires Owned(s) && LocksOk(s) && BeforeShutdown(s) && obj in s.creating && obj in s.ids
    ensures BeforeShutdown(InstallCreatedApply(s, obj, conn))
  {
    assert Holds(s, obj);
    assert forall o :: o in s.ids && s.ids[o] == s.ids[obj] && Holds(s, o) ==> o == obj;
    assert forall o :: o in s.shared && o !in s.closed ==> o in s.ids && Holds(s, o);
    assert obj !in s.shared && obj !in s.closed;
    hide LocksOk, Holds;
    InstallCreatedAlone(s.ids, s.loaders, s.loading, s.live, s.closing, s.creating, s.early, obj);
    InstallCreatedLive(s.ids, s.shared, s.closed, s.live, s.subs, obj, conn);
    hide Owned, LiveOk, ClosingOk, AloneOk;
  }

  lemma WaitOwns(s: State, t: nat)
    requires Owned(s) && Tallied(s) && t in s.loaders && s.loaders[t].pc.Looking? && Busy(s, s.loaders[t].id)
    ensures Owned(WaitApply(s, t)) && Tallied(WaitApply(s, t))
  {
  }

  lemma WaitLocks(s: State, t: nat)
    requires Owned(s) && LocksOk(s) && t in s.loaders && s.loaders[t].pc.Looking? && Busy(s, s.loaders[t].id)
    ensures LocksOk(WaitApply(s, t))
  {
  }

  lemma WaitBefore(s: State, t: nat)
    requires Owned(s) && LocksOk(s) && BeforeShutdown(s) && t in s.loaders && s.loaders[t].pc.Looking? && Busy(s, s.loaders[t].id)
    ensures BeforeShutdown(WaitApply(s, t))
  {
  }

  lemma RegisterOwns(s: State, t: nat)
    requires Owned(s) && Tallied(s) && t in s.loaders && s.loaders[t].pc.Looking? && !Busy(s, s.loaders[t].id)
    ensures Owned(RegisterApply(s, t)) && Tallied(RegisterApply(s, t))
  {
    hide ClosesOk, TableOk, CountsOk, MadeBy, BeingCreated;
  }

  lemma RegisterLocks(s: State, t: nat)
    requires Owned(s) && LocksOk(s) && t in s.loaders && s.loaders[t].pc.Looking? && !Busy(s, s.loaders[t].id)
    ensures LocksOk(RegisterApply(s, t))
  {
  }

  lemma RegisterBefore(s: State, t: nat)
    requires Owned(s) && LocksOk(s) && BeforeShutdown(s) && t in s.loaders && s.loaders[t].pc.Looking? && !Busy(s, s.loaders[t].id)
    ensures BeforeShutdown(RegisterApply(s, t))
  {
  }

  lemma WakeOwns(s: State, t: nat)
    requires Owned(s) && Tallied(s) && LoadEnabled(s, t, Wake)
    ensures Owned(At(s, t, Looking)) && Tallied(At(s, t, Looking))
  {
  }

  lemma WakeLocks(s: State, t: nat)
    requires Owned(s) && LocksOk(s) && LoadEnabled(s, t, Wake)
    ensures LocksOk(At(s, t, Looking))
  {
  }

  lemma WakeBefore(s: State, t: nat)
    requires Owned(s) && LocksOk(s) && BeforeShutdown(s) && LoadEnabled(s, t, Wake)
    ensures BeforeShutdown(At(s, t, Looking))
  {
  }

  lemma MissOwns(s: State, t: nat)
    requires Owned(s) && Tallied(s) && t in s.loaders && s.loaders[t].pc.Loading?
    ensures Owned(MissApply(s, t)) && Tallied(MissApply(s, t))
  {
  }

  lemma MissLocks(s: State, t: nat)
    requires Owned(s) && LocksOk(s) && t in s.loaders && s.loaders[t].pc.Loading?
    ensures LocksOk(MissApply(s, t))
  {
  }

  lemma MissBefore(s: State, t: nat)
    requires Owned(s) && LocksOk(s) && BeforeShutdown(s) && t in s.loaders && s.loaders[t].pc.Loading?
    ensures BeforeShutdown(MissApply(s, t))
  {
  }

  lemma LoadedOwns(s: State, t: nat, made: nat)
    requires Owned(s) && Tallied(s) && t in s.loaders && s.loaders[t].pc.Loading? && s.loaders[t].id !in s.locked && made !in s.ids
    ensures Owned(LoadedApply(s, t, made)) && Tallied(LoadedApply(s, t, made))
  {
    hide ClosesOk, CountsOk;
  }

  lemma LoadedHolds(s: State, t: nat, made: nat, o: nat)
    requires LoadsOk(s.loaders, s.loading) && t in s.loaders && s.loaders[t].pc.Loading? && made !in s.ids && o in s.ids
    ensures Holds(LoadedApply(s, t, made), o) <==> Holds(s, o)
  {
  }

  lemma MadeHolds(s: State, t: nat, made: nat)
    requires LoadsOk(s.loaders, s.loading) && t in s.loaders && s.loaders[t].pc.Loading?
    ensures made in LoadedApply(s, t, made).ids && Holds(LoadedApply(s, t, made), made)
  {
  }

  lemma OneMoreHolds(s: State, r: State, made: nat, id: Id)
    requires LocksOk(s) && made !in s.ids && id !in s.locked && r.ids == s.ids[made := id] && r.locked == s.locked[id := Ours(made)]
    requires Holds(r, made) && forall o :: o in s.ids ==> (Holds(r, o) <==> Holds(s, o))
    ensures LocksOk(r)
  {
    hide Holds;
  }

  lemma LoadedLocks(s: State, t: nat, made: nat)
    requires Owned(s) && LocksOk(s) && t in s.loaders && s.loaders[t].pc.Loading? && s.loaders[t].id !in s.locked && made !in s.ids
    ensures LocksOk(LoadedApply(s, t, made))
  {
    var r := LoadedApply(s, t, made);
    assert LoadsOk(s.loaders, s.loading);
    hide Owned, Holds, LoadsOk, LocksOk;
    MadeHolds(s, t, made);
    forall o | o in s.ids ensures Holds(r, o) <==> Holds(s, o) {
      LoadedHolds(s, t, made, o);
    }
    OneMoreHolds(s, r, made, s.loaders[t].id);
  }

  lemma LoadedAlone(ids: map<nat, Id>, loaders: map<nat, Loader>, loading: map<Id, nat>, live: map<Id, nat>,
                    closing: map<Id, nat>, creating: set<nat>, early: set<Id>, t: nat, made: nat)
    requires AloneOk(ids, loaders, loading, live, closing, creating, early) && made !in ids && creating <= ids.Keys
    requires t in loaders && loaders[t].pc.Loading?
    ensures AloneOk(ids[made := loaders[t].id], loaders[t := loaders[t].(pc := Loaded(made))], loading, live, closing, creating, early)
  {
  }

  lemma LoadedBefore(s: State, t: nat, made: nat)
    requires Owned(s) && BeforeShutdown(s) && t in s.loaders && s.loaders[t].pc.Loading? && made !in s.ids
    ensures BeforeShutdown(LoadedApply(s, t, made))
  {
    MoreIdsLive(s.ids, made, s.loaders[t].id, s.shared, s.closed, s.live, s.subs);
    MoreIdsClosing(s.ids, made, s.loaders[t].id, s.closers, s.closing, s.early);
    assert s.creating <= s.ids.Keys;
    LoadedAlone(s.ids, s.loaders, s.loading, s.live, s.closing, s.creating, s.early, t, made);
    hide Owned, LiveOk, ClosingOk, AloneOk;
  }

  lemma RefuseOwns(s: State, t: nat)
    requires Owned(s) && t in s.loaders && s.loaders[t].pc.Loaded?
    ensures Owned(RefuseApply(s, t))
  {
    hide ClosesOk, TableOk;
  }

  lemma RefuseTallies(s: State, t: nat)
    requires Owned(s) && Tallied(s) && t in s.loaders && s.loaders[t].pc.Loaded?
    ensures Tallied(RefuseApply(s, t))
  {
    hide LoadsOk, ClosesOk, TableOk;
  }

  lemma RefuseLocks(s: State, t: nat)
    requires Owned(s) && LocksOk(s) && t in s.loaders && s.loaders[t].pc.Loaded?
    ensures LocksOk(RefuseApply(s, t))
  {
  }

  lemma RefuseBefore(s: State, t: nat)
    requires Owned(s) && LocksOk(s) && BeforeShutdown(s) && t in s.loaders && s.loaders[t].pc.Loaded?
    ensures BeforeShutdown(RefuseApply(s, t))
  {
  }

  lemma InstallOwns(s: State, t: nat)
    requires Owned(s) && t in s.loaders && s.loaders[t].pc.Loaded?
    ensures Owned(InstallApply(s, t))
  {
  }

  lemma InstallTallies(s: State, t: nat)
    requires Owned(s) && Tallied(s) && t in s.loaders && s.loaders[t].pc.Loaded?
    ensures Tallied(InstallApply(s, t))
  {
    assert MadeBy(s.ids, s.shared, s.creating, s.ended, s.loaders[t].id, s.loaders[t].pc.obj);
    hide LoadsOk, PrivateOk, TableOk;
  }

  lemma InstallLocks(s: State, t: nat)
    requires Owned(s) && LocksOk(s) && t in s.loaders && s.loaders[t].pc.Loaded?
    ensures LocksOk(InstallApply(s, t))
  {
  }

  lemma InstallBefore(s: State, t: nat)
    requires Owned(s) && LocksOk(s) && BeforeShutdown(s) && t in s.loaders && s.loaders[t].pc.Loaded?
    ensures BeforeShutdown(InstallApply(s, t))
  {
  }

  lemma UnregisterOwns(s: State, t: nat)
    requires Owned(s) && Tallied(s) && t in s.loaders && s.loaders[t].pc.Finishing?
    ensures Owned(UnregisterApply(s, t)) && Tallied(UnregisterApply(s, t))
  {
  }

  lemma UnregisterLocks(s: State, t: nat)
    requires Owned(s) && LocksOk(s) && t in s.loaders && s.loaders[t].pc.Finishing?
    ensures LocksOk(UnregisterApply(s, t))
  {
  }

  lemma UnregisterBefore(s: State, t: nat)
    requires Owned(s) && LocksOk(s) && BeforeShutdown(s) && t in s.loaders && s.loaders[t].pc.Finishing?
    ensures BeforeShutdown(UnregisterApply(s, t))
  {
  }

  lemma SignalOwns(s: State, t: nat)
    requires Owned(s) && Tallied(s) && t in s.loaders && s.loaders[t].pc.Signalling?
    ensures Owned(SignalApply(s, t)) && Tallied(SignalApply(s, t))
  {
  }

  lemma SignalLocks(s: State, t: nat)
    requires Owned(s) && LocksOk(s) && t in s.loaders && s.loaders[t].pc.Signalling?
    ensures LocksOk(SignalApply(s, t))
  {
  }

  lemma SignalBefore(s: State, t: nat)
    requires Owned(s) && LocksOk(s) && BeforeShutdown(s) && t in s.loaders && s.loaders[t].pc.Signalling?
    ensures BeforeShutdown(SignalApply(s, t))
  {
  }

  lemma NewCloser(shared: set<nat>, closers: map<nat, Closer>, closed: map<nat, nat>, hooked: multiset<nat>, ended: multiset<nat>,
                  t: nat, c: Closer)
    requires ClosesOk(shared, closers, closed) && CountsOk(shared, closers, closed, hooked, ended)
    requires t !in closers && c.obj in shared && c.obj !in closed && c.pc.Claimed?
    ensures CountsOk(shared, closers[t := c], closed[c.obj := t], hooked, ended)
  {
  }

  lemma ClaimOwns(s: State, t: nat, obj: nat)
    requires Owned(s) && obj in s.shared && obj in s.ids && t !in s.closers && obj !in s.closed
    ensures Owned(ClaimApply(s, t, obj))
  {
    hide LoadsOk, PrivateOk;
  }

  lemma ClaimTallies(s: State, t: nat, obj: nat)
    requires Owned(s) && Tallied(s) && obj in s.shared && obj in s.ids && t !in s.closers && obj !in s.closed
    ensures Tallied(ClaimApply(s, t, obj))
  {
    NewCloser(s.shared, s.closers, s.closed, s.hooked, s.ended, t, ClaimApply(s, t, obj).closers[t]);
    hide CountsOk, Owned;
  }

  lemma ClaimLocks(s: State, t: nat, obj: nat)
    requires Owned(s) && LocksOk(s) && obj in s.shared && obj in s.ids && t !in s.closers && obj !in s.closed
    ensures LocksOk(ClaimApply(s, t, obj))
  {
  }

  lemma ClaimAlone(s: State, t: nat, obj: nat)
    requires BeforeShutdown(s) && obj in s.ids && s.ids[obj] in s.live
    ensures var s' := ClaimApply(s, t, obj); AloneOk(s'.ids, s'.loaders, s'.loading, s'.live, s'.closing, s'.creating, s'.early)
  {
    hide LiveOk, ClosingOk;
  }

  lemma ClaimClosing(s: State, t: nat, obj: nat)
    requires BeforeShutdown(s) && obj in s.ids && s.ids[obj] in s.live && t !in s.closers
    ensures var s' := ClaimApply(s, t, obj); ClosingOk(s'.ids, s'.closers, s'.closing, s'.early)
  {
    hide LiveOk;
  }

  lemma ClaimBefore(s: State, t: nat, obj: nat)
    requires Owned(s) && BeforeShutdown(s) && obj in s.shared && obj in s.ids && t !in s.closers && obj !in s.closed && Unused(s, obj)
    ensures BeforeShutdown(ClaimApply(s, t, obj))
  {
    ClaimAlone(s, t, obj);
    ClaimClosing(s, t, obj);
    hide ClosingOk, AloneOk, LoadsOk, PrivateOk;
  }

  lemma HookOwns(s: State, t: nat)
    requires Owned(s) && Tallied(s) && t in s.closers && s.closers[t].obj in s.ids && s.closers[t].pc.Claimed?
    ensures Owned(HookApply(s, t)) && Tallied(HookApply(s, t))
  {
  }

  lemma HookLocks(s: State, t: nat)
    requires Owned(s) && LocksOk(s) && t in s.closers && s.closers[t].obj in s.ids && s.closers[t].pc.Claimed?
    ensures LocksOk(HookApply(s, t))
  {
  }

  lemma HookBefore(s: State, t: nat)
    requires Owned(s) && LocksOk(s) && BeforeShutdown(s) && t in s.closers && s.closers[t].obj in s.ids && s.closers[t].pc.Claimed?
    ensures BeforeShutdown(HookApply(s, t))
  {
  }

  lemma CloseOwns(s: State, t: nat)
    requires Owned(s) && t in s.closers && s.closers[t].obj in s.ids && s.closers[t].pc.Hooked?
    ensures Owned(CloseApply(s, t))
  {
    hide LoadsOk, TableOk;
  }

  lemma CloseTallies(s: State, t: nat)
    requires Owned(s) && Tallied(s) && t in s.closers && s.closers[t].obj in s.ids && s.closers[t].pc.Hooked?
    ensures Tallied(CloseApply(s, t))
  {
    hide LoadsOk, PrivateOk, TableOk;
  }

  lemma CloseLocks(s: State, t: nat)
    requires Owned(s) && LocksOk(s) && t in s.closers && s.closers[t].obj in s.ids && s.closers[t].pc.Hooked?
    ensures LocksOk(CloseApply(s, t))
  {
  }

  lemma CloseBefore(s: State, t: nat)
    requires Owned(s) && LocksOk(s) && BeforeShutdown(s) && t in s.closers && s.closers[t].obj in s.ids && s.closers[t].pc.Hooked?
    ensures BeforeShutdown(CloseApply(s, t))
  {
  }

  lemma DeregisterOwns(s: State, t: nat)
    requires Owned(s) && Tallied(s) && t in s.closers && s.closers[t].obj in s.ids && s.closers[t].pc.Unlocked? && s.closers[t].registered
    ensures Owned(DeregisterApply(s, t)) && Tallied(DeregisterApply(s, t))
  {
  }

  lemma DeregisterLocks(s: State, t: nat)
    requires Owned(s) && LocksOk(s) && t in s.closers && s.closers[t].obj in s.ids && s.closers[t].pc.Unlocked? && s.closers[t].registered
    ensures LocksOk(DeregisterApply(s, t))
  {
  }

  lemma DeregisterClosing(ids: map<nat, Id>, closers: map<nat, Closer>, closing: map<Id, nat>, early: set<Id>, t: nat)
    requires ClosingOk(ids, closers, closing, early) && t in closers && closers[t].obj in ids && !closers[t].pc.Over?
    requires forall x :: x in closers && x != t ==> closers[x].obj != closers[t].obj
    ensures ClosingOk(ids, closers[t := closers[t].(pc := Over)], closing - {ids[closers[t].obj]}, early)
  {
  }

  lemma DeregisterBefore(s: State, t: nat)
    requires Owned(s) && LocksOk(s) && BeforeShutdown(s) && t in s.closers && s.closers[t].obj in s.ids && s.closers[t].pc.Unlocked? && s.closers[t].registered
    ensures BeforeShutdown(DeregisterApply(s, t))
  {
    DeregisterClosing(s.ids, s.closers, s.closing, s.early, t);
    hide Owned, LocksOk, LiveOk, ClosingOk;
  }

  lemma DoomOwns(s: State, t: nat, obj: nat)
    requires Owned(s) && obj in s.doomed && t !in s.closers && obj !in s.closed
    ensures Owned(DoomApply(s, t, obj))
  {
    hide LoadsOk, PrivateOk;
  }

  lemma DoomTallies(s: State, t: nat, obj: nat)
    requires Owned(s) && Tallied(s) && obj in s.doomed && t !in s.closers && obj !in s.closed
    ensures Tallied(DoomApply(s, t, obj))
  {
    NewCloser(s.shared, s.closers, s.closed, s.hooked, s.ended, t, DoomApply(s, t, obj).closers[t]);
    hide CountsOk, Owned;
  }

  lemma DoomLocks(s: State, t: nat, obj: nat)
    requires Owned(s) && LocksOk(s) && obj in s.doomed && t !in s.closers && obj !in s.closed
    ensures LocksOk(DoomApply(s, t, obj))
  {
  }

  // ---- the close being decided ----

  lemma SameDecides(s: State, r: State)
    requires Decides(s) && SameDecision(s, r) && (s.down ==> r.down)
    ensures Decides(r)
  {
  }

  lemma QuietDecides(s: State, step: Step)
    requires Decides(s) && Quiet(step) && Enabled(s, step)
    ensures Decides(QuietApply(s, step))
  {
  }

  lemma FindIdleKept(s: State, t: nat, obj: nat, busy: bool)
    requires Inv(s) && Enabled(s, FindIdle(t, obj, busy)) && MayClose(s, obj, busy)
    ensures Inv(FindIdleApply(s, t, obj))
  {
    SameLocks(s, FindIdleApply(s, t, obj));
    hide Owned, Tallied, LocksOk, BeforeShutdown;
    assert Owned(FindIdleApply(s, t, obj)) && Tallied(FindIdleApply(s, t, obj)) && BeforeOk(FindIdleApply(s, t, obj)) by {
      SameParts(s, FindIdleApply(s, t, obj));
    }
  }

  /** Everything but the close being decided is as it was. */
  lemma SameParts(s: State, r: State)
    requires r == s.(deciding := r.deciding, turned := r.turned) && Owned(s) && Tallied(s) && BeforeOk(s)
    ensures Owned(r) && Tallied(r) && BeforeOk(r)
  {
    hide LoadsOk, PrivateOk, ClosesOk, TableOk, CountsOk, SignalsOk, LiveOk, ClosingOk, AloneOk;
  }

  lemma ClaimDecides(s: State)
    requires Decides(s) && Enabled(s, Claim)
    ensures Decides(ClaimApply(s, s.deciding.value.0, s.deciding.value.1))
  {
  }

  lemma DoomDecides(s: State, t: nat, obj: nat)
    requires Decides(s) && s.down && Enabled(s, ShutdownClaim(t, obj))
    ensures Decides(DoomApply(s, t, obj))
  {
  }

  // ---- every step ----

  lemma LoadKept(s: State, t: nat, act: LoadAct)
    requires Inv(s) && LoadEnabled(s, t, act)
    ensures Inv(LoadStepApply(s, t, act))
  {
    SameDecides(s, LoadStepApply(s, t, act));
    LoadParts(s, t, act);
    hide Owned, Tallied, LocksOk, BeforeOk, Decides, LoadStepApply;
  }

  lemma LoadParts(s: State, t: nat, act: LoadAct)
    requires Owned(s) && Tallied(s) && LocksOk(s) && BeforeOk(s) && LoadEnabled(s, t, act)
    ensures var r := LoadStepApply(s, t, act); Owned(r) && Tallied(r) && LocksOk(r) && BeforeOk(r)
  {
    assert LoadStepApply(s, t, act).down == s.down;
    hide Owned, Tallied, LocksOk, BeforeShutdown, WaitApply, RegisterApply, MissApply, LoadedApply, RefuseApply, InstallApply, UnregisterApply, SignalApply, At;
    match act
    case LookUp =>
      if Busy(s, s.loaders[t].id) {
        WaitOwns(s, t); WaitLocks(s, t); if !s.down { WaitBefore(s, t); }
      } else {
        RegisterOwns(s, t); RegisterLocks(s, t); if !s.down { RegisterBefore(s, t); }
      }
    case Wake => WakeOwns(s, t); WakeLocks(s, t); if !s.down { WakeBefore(s, t); }
    case Load(made, readable) =>
      if s.loaders[t].id in s.locked || !readable {
        MissOwns(s, t); MissLocks(s, t); if !s.down { MissBefore(s, t); }
      } else {
        LoadedOwns(s, t, made); LoadedLocks(s, t, made); if !s.down { LoadedBefore(s, t, made); }
      }
    case Refuse => RefuseOwns(s, t); RefuseTallies(s, t); RefuseLocks(s, t); if !s.down { RefuseBefore(s, t); }
    case Install => InstallOwns(s, t); InstallTallies(s, t); InstallLocks(s, t); if !s.down { InstallBefore(s, t); }
    case Unregister => UnregisterOwns(s, t); UnregisterLocks(s, t); if !s.down { UnregisterBefore(s, t); }
    case Signal => SignalOwns(s, t); SignalLocks(s, t); if !s.down { SignalBefore(s, t); }
  }

  lemma CloseKept(s: State, t: nat, act: CloseAct)
    requires Inv(s) && CloseEnabled(s, t, act)
    ensures Inv(CloseStepApply(s, t, act))
  {
    SameDecides(s, CloseStepApply(s, t, act));
    assert CloseStepApply(s, t, act).down == s.down;
    hide Owned, Tallied, LocksOk, BeforeShutdown, HookApply, CloseApply, DeregisterApply, Decides;
    match act
    case Hook => HookOwns(s, t); HookLocks(s, t); if !s.down { HookBefore(s, t); }
    case Close => CloseOwns(s, t); CloseTallies(s, t); CloseLocks(s, t); if !s.down { CloseBefore(s, t); }
    case Deregister => DeregisterOwns(s, t); DeregisterLocks(s, t); if !s.down { DeregisterBefore(s, t); }
  }

  lemma ClaimKept(s: State)
    requires Inv(s) && Enabled(s, Claim)
    ensures Inv(ClaimApply(s, s.deciding.value.0, s.deciding.value.1))
  {
    var (t, obj) := s.deciding.value;
    assert t !in s.closers && obj in s.shared && obj in s.ids && obj !in s.closed && Unused(s, obj);
    ClaimDecides(s);
    hide Owned, Tallied, LocksOk, BeforeShutdown, Decides;
    ClaimOwns(s, t, obj);
    ClaimTallies(s, t, obj);
    ClaimLocks(s, t, obj);
    if !s.down { ClaimBefore(s, t, obj); }
  }

  lemma DoomKept(s: State, t: nat, obj: nat)
    requires Inv(s) && Enabled(s, ShutdownClaim(t, obj))
    ensures Inv(if obj in s.closed then s.(doomed := s.doomed - {obj}) else DoomApply(s, t, obj))
  {
    assert s.down;
    if obj in s.closed {
      SameLocks(s, s.(doomed := s.doomed - {obj}));
      SameDecides(s, s.(doomed := s.doomed - {obj}));
      hide CountsOk, SignalsOk, LoadsOk, PrivateOk, ClosesOk, LocksOk, Decides;
    } else {
      DoomDecides(s, t, obj);
      hide Owned, Tallied, LocksOk, Decides;
      DoomOwns(s, t, obj);
      DoomTallies(s, t, obj);
      DoomLocks(s, t, obj);
    }
  }

  /** The lock is held by the same as before. */
  lemma SameLocks(s: State, r: State)
    requires LocksOk(s) && r == s.(doomed := r.doomed, deciding := r.deciding, turned := r.turned, early := r.early, subs := r.subs, active := r.active)
    ensures LocksOk(r)
  {
    assert forall o :: o in s.ids ==> (Holds(r, o) <==> Holds(s, o));
  }

  lemma MakingKept(s: State, step: Step)
    requires Inv(s) && Enabled(s, step) && (step.Create? || step.CreateFail? || step.InstallCreated?)
    ensures Inv(Raw(s, step))
  {
    if step.Create? {
      SameDecides(s, CreateApply(s, step.obj, step.id));
    } else if step.CreateFail? {
      SameDecides(s, CreateFailApply(s, step.obj));
    } else {
      assert Decides(InstallCreatedApply(s, step.obj, step.conn));
    }
    hide Owned, Tallied, LocksOk, BeforeShutdown, Decides;
    if step.Create? {
      CreateOwns(s, step.obj, step.id); CreateLocks(s, step.obj, step.id); if !s.down { CreateBefore(s, step.obj, step.id); }
    } else if step.CreateFail? {
      CreateFailOwns(s, step.obj); CreateFailLocks(s, step.obj); if !s.down { CreateFailBefore(s, step.obj); }
    } else {
      InstallCreatedOwns(s, step.obj, step.conn); InstallCreatedLocks(s, step.obj, step.conn);
      if !s.down { InstallCreatedBefore(s, step.obj, step.conn); }
    }
  }

  lemma ShutdownKept(s: State)
    requires Inv(s) && Enabled(s, Shutdown)
    ensures Inv(ShutdownApply(s))
  {
    ShutdownOwns(s);
    ShutdownLocks(s);
    SameDecides(s, ShutdownApply(s));
    hide Owned, Tallied, LocksOk, BeforeShutdown, Decides;
  }

  lemma QuietKept(s: State, step: Step)
    requires Inv(s) && Quiet(step) && Enabled(s, step)
    ensures Inv(QuietApply(s, step))
  {
    QuietDecides(s, step);
    assert QuietApply(s, step).down == s.down;
    hide Owned, Tallied, LocksOk, BeforeShutdown, Decides, QuietApply;
    QuietOwns(s, step);
    QuietLocks(s, step);
    if !s.down { QuietBefore(s, step); }
  }

  lemma RawKept(s: State, step: Step)
    requires Inv(s) && Enabled(s, step)
    ensures Inv(Raw(s, step))
  {
    hide Inv, LoadEnabled, CloseEnabled, LoadStepApply, CloseStepApply, DoomApply, ClaimApply, FindIdleApply, ShutdownApply, QuietApply, MayClose;
    if step.LoadStep? {
      LoadKept(s, step.t, step.load);
    } else if step.CloseStep? {
      CloseKept(s, step.t, step.act);
    } else if step.FindIdle? {
      if MayClose(s, step.obj, step.busy) { FindIdleKept(s, step.t, step.obj, step.busy); }
    } else if step.Claim? {
      ClaimKept(s);
    } else if step.ShutdownClaim? {
      DoomKept(s, step.t, step.obj);
    } else if step.Shutdown? {
      ShutdownKept(s);
    } else if Quiet(step) {
      QuietKept(s, step);
    } else {
      MakingKept(s, step);
    }
  }

  // ---- ids that settle ----

  lemma PruneClosing(s: State)
    requires ClosingOk(s.ids, s.closers, s.closing, s.early)
    ensures ClosingOk(s.ids, s.closers, s.closing, Pruned(s).early)
  {
    forall t | t in s.closers && !s.closers[t].pc.Over? && s.closers[t].obj in s.ids && s.ids[s.closers[t].obj] !in Pruned(s).early
      ensures s.ids[s.closers[t].obj] !in s.early
    {
      assert Finishes(s, t, s.ids[s.closers[t].obj]);
    }
  }

  lemma PruneAlone(s: State)
    requires LoadsOk(s.loaders, s.loading) && ClosingOk(s.ids, s.closers, s.closing, s.early)
    requires AloneOk(s.ids, s.loaders, s.loading, s.live, s.closing, s.creating, s.early)
    ensures AloneOk(s.ids, s.loaders, s.loading, s.live, s.closing, s.creating, Pruned(s).early)
  {
    forall id | id in s.closing ensures Unsettled(s, id) { assert Finishes(s, s.closing[id], id); }
    forall o | o in s.creating && o in s.ids ensures Unsettled(s, s.ids[o]) { assert BeingCreated(s, s.ids[o]); }
    hide ClosingOk, Finishes, BeingCreated;
  }

  lemma PruneKept(s: State)
    requires Inv(s)
    ensures Inv(Pruned(s))
  {
    var r := Pruned(s);
    SameLocks(s, r);
    SameDecides(s, r);
    if !s.down {
      PruneClosing(s);
      PruneAlone(s);
    }
    hide LoadsOk, PrivateOk, ClosesOk, TableOk, CountsOk, SignalsOk, LiveOk, ClosingOk, AloneOk, LocksOk, Decides;
  }

  lemma NextInv(s: State, s': State)
    requires Inv(s) && Next(s, s')
    ensures Inv(s')
  {
    hide Inv, Enabled, Raw, Pruned;
    var step :| Enabled(s, step) && s' == Apply(s, step);
    RawKept(s, step);
    PruneKept(Raw(s, step));
  }

  /** Every state of every run satisfies the invariant. */
  lemma {:induction false} RunInv(tr: seq<State>, i: nat)
    requires Run(tr) && i < |tr|
    ensures Inv(tr[i])
  {
    hide Inv, Next;
    if i == 0 {
      InitInv(tr[0]);
    } else {
      RunInv(tr, i - 1);
      NextInv(tr[i - 1], tr[i - 1 + 1]);
    }
  }

  lemma InitInv(s: State)
    requires Init(s)
    ensures Inv(s)
  {
    hide Holds;
  }

  // ---- the theorems ----

  /**
   Before Shutdown, a cold load never finds the session's lock in this process's own hands,
   whatever loads, attaches, detaches and closes run beside it, unless a load registered for the
   id while it was being created and the id has not settled since.
   */
  lemma LoadNeverMeetsItself(tr: seq<State>, i: nat, t: nat)
    requires Run(tr) && i < |tr| && !tr[i].down && t in tr[i].loaders && tr[i].loaders[t].pc.Loading?
    requires tr[i].loaders[t].id !in tr[i].early
    ensures tr[i].loaders[t].id in tr[i].locked ==> tr[i].locked[tr[i].loaders[t].id] == Foreign
  {
    RunInv(tr, i);
    var s, id := tr[i], tr[i].loaders[t].id;
    if id in s.locked && s.locked[id].Ours? {
      OwnLockElsewhere(s, t, s.locked[id].obj);
    }
  }

  lemma OwnLockElsewhere(s: State, t: nat, o: nat)
    requires Inv(s) && !s.down && t in s.loaders && s.loaders[t].pc.Loading? && o in s.ids && s.ids[o] == s.loaders[t].id
    requires s.loaders[t].id !in s.early
    ensures !Holds(s, o)
  {
    if o in s.shared && o in s.closed {
      assert s.closed[o] in s.closers && s.closers[s.closed[o]].obj == o;
    }
  }

  /** So an own lock was only ever met under such an id; and such an id has a load, a creation or a close under way. */
  lemma OwnLockOnlyEarly(tr: seq<State>, i: nat)
    requires Run(tr) && i < |tr| && !tr[i].down
    ensures tr[i].stray == {}
    ensures forall id :: id in tr[i].early ==> Unsettled(tr[i], id)
  {
    RunInv(tr, i);
    if i > 0 {
      hide Inv, Raw, Enabled, Unsettled;
      assert Next(tr[i - 1], tr[i - 1 + 1]);
      var step :| Enabled(tr[i - 1], step) && tr[i] == Apply(tr[i - 1], step);
      PrunedUnsettled(Raw(tr[i - 1], step));
    }
  }

  lemma PrunedUnsettled(s: State)
    ensures forall id :: id in Pruned(s).early ==> Unsettled(Pruned(s), id)
  {
    forall id | id in Pruned(s).early ensures Unsettled(Pruned(s), id) {
      if id !in s.loading && !BeingCreated(s, id) {
        var t :| Finishes(s, t, id);
        assert Finishes(Pruned(s), t, id);
      }
    }
  }

  /** A close of the id has been claimed and has not released the lock. */
  ghost predicate CloseHolds(s: State, id: Id) { exists u :: HoldsFor(s, u, id) }

  ghost predicate HoldsFor(s: State, u: nat, id: Id) {
    u in s.closers && Holding(s.closers[u].pc) && s.closers[u].obj in s.ids && s.ids[s.closers[u].obj] == id
  }

  /**
   Exactly then: of a load about to register for an id that is in none of the three tables, an
   immediate disk load meets this process's own lock if and only if the id is being created, or a
   close of it still holds the lock although another close took its entry off the table.
   */
  lemma MeetsItselfIff(tr: seq<State>, i: nat, t: nat)
    requires Run(tr) && i < |tr| && !tr[i].down && t in tr[i].loaders && tr[i].loaders[t].pc.Looking?
    requires !Busy(tr[i], tr[i].loaders[t].id)
    ensures var s, id := RegisterApply(tr[i], t), tr[i].loaders[t].id;
            t in s.loaders && s.loaders[t] == Loader(id, Loading) &&
            (id in s.locked && s.locked[id].Ours? <==> BeingCreated(tr[i], id) || CloseHolds(tr[i], id))
  {
    RunInv(tr, i);
    var s, id := tr[i], tr[i].loaders[t].id;
    assert RegisterApply(s, t).locked == s.locked && RegisterApply(s, t).loaders[t] == Loader(id, Loading);
    if id in s.locked && s.locked[id].Ours? {
      OwnLockBy(s, id, s.locked[id].obj);
    }
    if BeingCreated(s, id) {
      var o :| o in s.creating && o in s.ids && s.ids[o] == id;
      assert Holds(s, o);
    } else if CloseHolds(s, id) {
      var u :| HoldsFor(s, u, id);
      assert Holds(s, s.closers[u].obj);
    }
  }

  lemma OwnLockBy(s: State, id: Id, o: nat)
    requires Inv(s) && !s.down && o in s.ids && s.ids[o] == id && !Busy(s, id) && Holds(s, o)
    ensures BeingCreated(s, id) || CloseHolds(s, id)
  {
    if o in s.closed && s.closed[o] in s.closers && Holding(s.closers[s.closed[o]].pc) {
      assert HoldsFor(s, s.closed[o], id);
    }
  }

  /** At most one load runs per id, and it is the one the table names. */
  lemma OneLoader(tr: seq<State>, i: nat, t: nat, t': nat)
    requires Run(tr) && i < |tr| && t in tr[i].loaders && t' in tr[i].loaders && tr[i].loaders[t].id == tr[i].loaders[t'].id
    requires Registered(tr[i].loaders[t].pc) && Registered(tr[i].loaders[t'].pc)
    ensures t == t'
  {
    RunInv(tr, i);
  }

  /**
   The lock is this process's own exactly while the session is being created, was loaded by the
   one load that runs for it, is installed and unclosed, or is being closed.
   */
  lemma LockHeldWhile(tr: seq<State>, i: nat, o: nat)
    requires Run(tr) && i < |tr| && o in tr[i].ids
    ensures tr[i].ids[o] in tr[i].locked && tr[i].locked[tr[i].ids[o]] == Ours(o) <==>
            || o in tr[i].creating
            || (tr[i].ids[o] in tr[i].loading && tr[i].loading[tr[i].ids[o]] in tr[i].loaders &&
                tr[i].loaders[tr[i].loading[tr[i].ids[o]]].pc == Loaded(o))
            || (o in tr[i].shared && o !in tr[i].closed)
            || (o in tr[i].closed && tr[i].closed[o] in tr[i].closers && Holding(tr[i].closers[tr[i].closed[o]].pc))
    ensures !tr[i].down && o in tr[i].shared && o !in tr[i].closed ==>
              tr[i].ids[o] in tr[i].live && tr[i].live[tr[i].ids[o]] == o
  {
    RunInv(tr, i);
    assert Holds(tr[i], o) <==> tr[i].ids[o] in tr[i].locked && tr[i].locked[tr[i].ids[o]] == Ours(o);
  }

  /** Before Shutdown a session marked closed has no subscriber and cannot be found, so an attach never lands on one. */
  lemma ClosedUnreachable(tr: seq<State>, i: nat, o: nat)
    requires Run(tr) && i < |tr| && !tr[i].down && o in tr[i].closed
    ensures Unused(tr[i], o) && o !in tr[i].live.Values
  {
    RunInv(tr, i);
  }

  /** Even when Shutdown races a detach, session_closed fires and Close runs at most once, and no channel is closed twice. */
  lemma ClosedOnce(tr: seq<State>, i: nat, o: nat)
    requires Run(tr) && i < |tr|
    ensures tr[i].hooked[o] <= 1 && tr[i].ended[o] <= 1 && !tr[i].fault
    ensures o in tr[i].shared && o !in tr[i].closed ==> tr[i].hooked[o] == 0 && tr[i].ended[o] == 0
  {
    RunInv(tr, i);
  }

  // ---- a close and the turn it must not interrupt ----

  /**
   At the claim of a close the session is active if and only if, after it was read idle, its
   mirror was told of a turn that has not ended again.
   */
  lemma ClaimActiveIff(tr: seq<State>, i: nat)
    requires Run(tr) && i < |tr| && Enabled(tr[i], Claim)
    ensures var s := tr[i];
            s.deciding.value.1 in s.active <==> s.turned != [] && s.turned[|s.turned| - 1]
    ensures var s := tr[i]; Unused(s, s.deciding.value.1) && s.deciding.value.1 in s.shared && s.deciding.value.1 !in s.closed
  {
    RunInv(tr, i);
  }

  /**
   A session whose turns run in this server is therefore never active when its close is claimed,
   and before Shutdown never afterwards: it went active only under the lock the claim holds.
   */
  lemma RunnerClosedIdle(tr: seq<State>, i: nat)
    requires Run(tr) && i < |tr|
    ensures Enabled(tr[i], Claim) && tr[i].deciding.value.1 !in tr[i].runtime ==> tr[i].deciding.value.1 !in tr[i].active
    ensures forall o :: !tr[i].down && o in tr[i].closed && o !in tr[i].runtime ==> o !in tr[i].active
  {
    RunInv(tr, i);
  }

  // ---- runs that fall short ----

  /** One more step of a run. */
  lemma Go(tr: seq<State>, step: Step) returns (r: seq<State>)
    requires Run(tr) && Enabled(tr[|tr| - 1], step)
    ensures Run(r) && |r| == |tr| + 1 && r[|tr|] == Pruned(Raw(tr[|tr| - 1], step))
  {
    var s := Apply(tr[|tr| - 1], step);
    assert Next(tr[|tr| - 1], s);
    hide Next, Init;
    r := tr + [s];
  }

  ghost function Fresh(runtime: set<nat>): State {
    State(map[], map[], map[], map[], {}, map[], {}, {}, map[], map[], {}, map[], {}, {}, {}, false, multiset{}, multiset{}, false, None, [], runtime, {}, {})
  }

  /** What the two runs below need to know of a state. */
  ghost predicate Scene(s: State, shared: set<nat>, subs: set<(nat, nat)>, creating: set<nat>, loaders: map<nat, Loader>, runtime: set<nat>) {
    && s.ids == map[1 := 7] && s.locked == map[7 := Ours(1)] && s.closed == map[] && s.closers == map[] && s.closing == map[] && s.active == {}
    && s.deciding == None && !s.down && s.shared == shared && s.subs == subs && s.creating == creating && s.loaders == loaders && s.runtime == runtime
  }

  lemma Created(runtime: set<nat>) returns (tr: seq<State>)
    ensures Run(tr) && |tr| > 0 && Scene(tr[|tr| - 1], {}, {}, {1}, map[], runtime) && tr[|tr| - 1].live == map[] && tr[|tr| - 1].loading == map[]
  {
    var s0 := Fresh(runtime);
    assert Run([s0]);
    tr := Go([s0], Create(1, 7));
  }

  lemma RegisteredEarly() returns (tr: seq<State>)
    ensures Run(tr) && |tr| > 0 && Scene(tr[|tr| - 1], {}, {}, {1}, map[0 := Loader(7, Loading)], {})
    ensures tr[|tr| - 1].live == map[] && tr[|tr| - 1].loading == map[7 := 0]
  {
    tr := Created({});
    hide Run, BeingCreated, Unsettled;
    tr := Go(tr, Begin(0, 7));
    assert Scene(tr[|tr| - 1], {}, {}, {1}, map[0 := Loader(7, Looking)], {});
    assert !Busy(tr[|tr| - 1], 7);
    tr := Go(tr, LoadStep(0, LookUp));
  }

  /**
   A client that asks for a session it can see on disk but whose creation has not been installed
   yet registers a load; the creation is installed; the load then meets the live session's own
   lock, with nothing being created any more.
   */
  lemma EarlyLoadFindsOwnLock() returns (tr: seq<State>)
    ensures Run(tr) && |tr| > 0
    ensures var s := tr[|tr| - 1];
            !s.down && s.creating == {} && Enabled(s, LoadStep(0, Load(2, true))) && s.loaders[0].id in s.locked && s.locked[s.loaders[0].id].Ours?
  {
    tr := RegisteredEarly();
    hide Run, BeingCreated, Unsettled;
    assert Scene(tr[|tr| - 1], {}, {}, {1}, map[0 := Loader(7, Loading)], {});
    tr := Go(tr, InstallCreated(1, 5));
    assert Scene(tr[|tr| - 1], {1}, {(5, 1)}, {}, map[0 := Loader(7, Loading)], {});
  }

  /** The tables, the closes and the locks of a state in which load 0 of session 7 ran beside its creation. */
  ghost predicate Tables(s: State, live: map<Id, nat>, loading: map<Id, nat>, closing: map<Id, nat>, locked: map<Id, Holder>, closers: map<nat, Closer>) {
    && s.live == live && s.loading == loading && s.closing == closing && s.locked == locked && s.closers == closers
    && s.creating == {} && s.active == {} && !s.down
  }

  /** The objects of such a state, their subscriptions, and the loads. */
  ghost predicate Objects(s: State, ids: map<nat, Id>, closed: map<nat, nat>, loaders: map<nat, Loader>) {
    s.ids == ids && s.shared == ids.Keys && s.closed == closed && s.loaders == loaders && s.subs == {} && s.deciding == None
  }

  lemma Abandoned() returns (tr: seq<State>)
    ensures Run(tr) && |tr| > 0
    ensures Tables(tr[|tr| - 1], map[7 := 1], map[7 := 0], map[], map[7 := Ours(1)], map[])
    ensures Objects(tr[|tr| - 1], map[1 := 7], map[], map[0 := Loader(7, Loading)])
  {
    tr := RegisteredEarly();
    hide Run, BeingCreated, Unsettled;
    var s := tr[|tr| - 1];
    assert Scene(s, {}, {}, {1}, map[0 := Loader(7, Loading)], {}) && s.live == map[] && s.loading == map[7 := 0];
    tr := Go(tr, InstallCreated(1, 5));
    tr := Go(tr, Detach(5, 1));
    s := tr[|tr| - 1];
    assert s.live == map[7 := 1] && s.subs == {} && s.shared == {1};
  }

  /** The close of an unused session is decided and claimed. */
  lemma CloseClaimed(tr: seq<State>, t: nat, o: nat) returns (r: seq<State>)
    requires Run(tr) && |tr| > 0
    requires var s := tr[|tr| - 1]; s.subs == {} && s.active == {} && s.creating == {} && s.deciding == None && !s.down
    requires var s := tr[|tr| - 1]; o in s.shared && o in s.ids && o !in s.closed && t !in s.closers
    ensures Run(r) && |r| > 0
    ensures var s, q := tr[|tr| - 1], r[|r| - 1];
            Tables(q, s.live - {s.ids[o]}, s.loading, s.closing[s.ids[o] := t], s.locked, s.closers[t := Closer(o, true, Claimed)])
    ensures var s, q := tr[|tr| - 1], r[|r| - 1];
            q.ids == s.ids && q.shared == s.shared && q.closed == s.closed[o := t] && q.loaders == s.loaders && q.subs == {} && q.deciding == None
  {
    hide Run, BeingCreated, Unsettled;
    assert MayClose(tr[|tr| - 1], o, false);
    r := Go(tr, FindIdle(t, o, false));
    r := Go(r, Claim);
  }

  /** The first close lets go of the lock and has yet to take its entry off the table. */
  lemma FirstCloseUnlocks() returns (tr: seq<State>)
    ensures Run(tr) && |tr| > 0
    ensures Tables(tr[|tr| - 1], map[], map[7 := 0], map[7 := 9], map[], map[9 := Closer(1, true, Unlocked)])
    ensures Objects(tr[|tr| - 1], map[1 := 7], map[1 := 9], map[0 := Loader(7, Loading)])
  {
    tr := Abandoned();
    hide Run, BeingCreated, Unsettled;
    tr := CloseClaimed(tr, 9, 1);
    tr := Go(tr, CloseStep(9, Hook));
    tr := Go(tr, CloseStep(9, Close));
  }

  lemma EarlyLoadLocks() returns (tr: seq<State>)
    ensures Run(tr) && |tr| > 0
    ensures Tables(tr[|tr| - 1], map[], map[7 := 0], map[7 := 9], map[7 := Ours(2)], map[9 := Closer(1, true, Unlocked)])
    ensures var s := tr[|tr| - 1];
            s.ids == map[1 := 7, 2 := 7] && s.shared == {1} && s.closed == map[1 := 9] && s.loaders == map[0 := Loader(7, Loaded(2))] && s.subs == {} && s.deciding == None
  {
    tr := FirstCloseUnlocks();
    hide Run, BeingCreated, Unsettled;
    tr := Go(tr, LoadStep(0, Load(2, true)));
  }

  lemma EarlyLoadInstalls() returns (tr: seq<State>)
    ensures Run(tr) && |tr| > 0
    ensures Tables(tr[|tr| - 1], map[7 := 2], map[], map[7 := 9], map[7 := Ours(2)], map[9 := Closer(1, true, Unlocked)])
    ensures Objects(tr[|tr| - 1], map[1 := 7, 2 := 7], map[1 := 9], map[0 := Loader(7, Signalling(Some(2)))])
  {
    tr := EarlyLoadLocks();
    hide Run, BeingCreated, Unsettled;
    tr := Go(tr, LoadStep(0, Install));
    tr := Go(tr, LoadStep(0, Unregister));
  }

  /** The early load makes and installs a second object, which is closed in turn: its entry replaces the first close's. */
  lemma SecondCloseReplaces() returns (tr: seq<State>)
    ensures Run(tr) && |tr| > 0
    ensures Tables(tr[|tr| - 1], map[], map[], map[7 := 10], map[7 := Ours(2)], map[9 := Closer(1, true, Unlocked), 10 := Closer(2, true, Claimed)])
    ensures Objects(tr[|tr| - 1], map[1 := 7, 2 := 7], map[1 := 9, 2 := 10], map[0 := Loader(7, Signalling(Some(2)))])
  {
    tr := EarlyLoadInstalls();
    hide Run, BeingCreated, Unsettled;
    tr := CloseClaimed(tr, 10, 2);
  }

  /**
   The first close then takes the second one's entry off the table, so a later load finds the id
   in no table and meets the lock the second close still holds, with nothing being created.
   */
  lemma LostCloseFindsOwnLock() returns (tr: seq<State>)
    ensures Run(tr) && |tr| > 0
    ensures var s := tr[|tr| - 1];
            !s.down && s.creating == {} && Enabled(s, LoadStep(3, LookUp)) && !Busy(s, s.loaders[3].id) &&
            s.loaders[3].id in s.locked && s.locked[s.loaders[3].id].Ours?
  {
    tr := SecondCloseReplaces();
    hide Run, BeingCreated, Unsettled;
    tr := Go(tr, CloseStep(9, Deregister));
    tr := Go(tr, Begin(3, 7));
  }

  /** A runtime session nobody is subscribed to. */
  lemma Deserted() returns (tr: seq<State>)
    ensures Run(tr) && |tr| > 0 && Scene(tr[|tr| - 1], {1}, {}, {}, map[], {1})
  {
    tr := Created({1});
    hide Run, BeingCreated, Unsettled;
    tr := Go(tr, InstallCreated(1, 5));
    assert Scene(tr[|tr| - 1], {1}, {(5, 1)}, {}, map[], {1});
    tr := Go(tr, Detach(5, 1));
  }

  /** An external runtime's turn starts between the idle read and the claim: the close is claimed while the session is active. */
  lemma ActiveClaim() returns (tr: seq<State>)
    ensures Run(tr) && |tr| > 0
    ensures var s := tr[|tr| - 1]; !s.down && Enabled(s, Claim) && s.deciding.value.1 in s.active
  {
    tr := Deserted();
    hide Run, BeingCreated, Unsettled;
    assert MayClose(tr[|tr| - 1], 1, false);
    tr := Go(tr, FindIdle(9, 1, false));
    var s := tr[|tr| - 1];
    assert s.ids == map[1 := 7] && s.deciding == Some((9, 1)) && s.runtime == {1} && !s.down;
    hide Scene, MayClose;
    tr := Go(tr, SetActive(1, true));
  }
}
