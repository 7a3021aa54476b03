/**
 The sections of the server's lock that look sessions up, install, attach, detach and close them,
 run in place on the server's tables. Each is proved to do to the tables what the step of
 `Lifecycle` that stands for it does.
 */
module ServerTable {
  import opened Basics
  import opened Lifecycle

  lemma WaitTables(s: State, t: nat)
    requires t in s.loaders && Busy(s, s.loaders[t].id)
    ensures var r, id := WaitApply(s, t), s.loaders[t].id;
            && r.live == s.live && r.loading == s.loading && r.closing == s.closing && r.ids == s.ids
            && r.closed == s.closed && r.subs == s.subs && r.active == s.active
            && t in r.loaders && r.loaders[t].id == id
            && r.loaders[t].pc == if id in s.live then Done(Some(s.live[id])) else if id in s.loading then AwaitLoad(s.loading[id]) else AwaitClose(s.closing[id])
  {
  }

  lemma RegisterTables(s: State, t: nat)
    requires t in s.loaders
    ensures var r, id := RegisterApply(s, t), s.loaders[t].id;
            && r.live == s.live && r.loading == s.loading[id := t] && r.closing == s.closing && r.ids == s.ids
            && r.closed == s.closed && r.subs == s.subs && r.active == s.active
            && t in r.loaders && r.loaders[t] == Loader(id, Loading)
  {
    hide BeingCreated;
  }

  class Server {
    var live: map<Id, nat>
    var loading: map<Id, nat>
    var closing: map<Id, nat>
    var ids: map<nat, Id>
    var closed: map<nat, nat>
    var subs: set<(nat, nat)>
    var active: set<nat>

    /** The tables are those of s. */
    ghost predicate Shows(s: State)
      reads this
    {
      && live == s.live && loading == s.loading && closing == s.closing && ids == s.ids
      && closed == s.closed && subs == s.subs && active == s.active
    }

    /** The top of loadCold's loop: the live session, a channel to wait for, or the right to load. */
    method LookUp(ghost s: State, t: nat, id: Id) returns (r: LoadPc)
      requires Shows(s) && t in s.loaders && s.loaders[t] == Loader(id, Looking)
      modifies this`loading
      ensures var s' := if Busy(s, id) then WaitApply(s, t) else RegisterApply(s, t);
              Shows(s') && t in s'.loaders && s'.loaders[t] == Loader(id, r)
    {
      if Busy(s, id) { WaitTables(s, t); } else { RegisterTables(s, t); }
      hide WaitApply, RegisterApply;
      if id in live {
        return Done(Some(live[id]));
      }
      if id in loading {
        return AwaitLoad(loading[id]);
      }
      if id in closing {
        return AwaitClose(closing[id]);
      }
      loading := loading[id := t];
      return Loading;
    }

    method Unregister(ghost s: State, t: nat, id: Id)
      requires Shows(s) && t in s.loaders && s.loaders[t].id == id && s.loaders[t].pc.Finishing?
      modifies this`loading
      ensures Shows(UnregisterApply(s, t))
    {
      loading := loading - {id};
    }

    method Install(ghost s: State, t: nat, id: Id, obj: nat)
      requires Shows(s) && t in s.loaders && s.loaders[t] == Loader(id, Loaded(obj))
      modifies this`live
      ensures Shows(InstallApply(s, t))
    {
      live := live[id := obj];
    }

    method InstallAndAttach(ghost s: State, obj: nat, conn: nat)
      requires Shows(s) && obj in ids
      modifies this`live, this`subs
      ensures Shows(InstallCreatedApply(s, obj, conn))
    {
      live := live[ids[obj] := obj];
      subs := subs + {(conn, obj)};
    }

    /** Lookup and subscription in one section. */
    method AttachIfLive(ghost s: State, conn: nat, id: Id) returns (ok: bool)
      requires Shows(s)
      modifies this`subs
      ensures ok == (id in s.live) && Shows(QuietApply(s, Attach(conn, id)))
    {
      if id !in live {
        return false;
      }
      subs := subs + {(conn, live[id])};
      return true;
    }

    method DropSubscription(ghost s: State, conn: nat, obj: nat)
      requires Shows(s)
      modifies this`subs
      ensures Shows(QuietApply(s, Detach(conn, obj)))
    {
      subs := subs - {(conn, obj)};
    }

    /** Reads whether the session may be closed; both locks stay held, the mirror's does not. */
    method FindIdle(ghost s: State, obj: nat, busy: bool) returns (idle: bool)
      requires Shows(s)
      ensures idle == MayClose(s, obj, busy)
    {
      var empty := forall u :: u in subs ==> u.1 != obj;
      return empty && !busy && obj !in closed && obj !in active;
    }

    /** Claims, registers the close and takes the session out of the table before the lock is let go. */
    method ClaimClose(ghost s: State, t: nat, obj: nat)
      requires Shows(s) && obj in ids
      modifies this`closed, this`closing, this`live
      ensures Shows(ClaimApply(s, t, obj))
    {
      closed := closed[obj := t];
      closing := closing[ids[obj] := t];
      live := live - {ids[obj]};
    }

    method Deregister(ghost s: State, t: nat, obj: nat)
      requires Shows(s) && t in s.closers && s.closers[t].obj == obj && obj in ids
      modifies this`closing
      ensures Shows(DeregisterApply(s, t))
    {
      closing := closing - {ids[obj]};
    }

    /** Shutdown's snapshot empties the table. */
    method TakeAll(ghost s: State) returns (lives: set<nat>)
      requires Shows(s)
      modifies this`live
      ensures Shows(ShutdownApply(s)) && ShutdownApply(s).doomed == s.doomed + lives
    {
      lives := live.Values;
      live := map[];
    }
  }
}
