/** Who holds each shared question, and who is queued behind the holder. */
module AskStructure {
  import opened Basics
  import opened Question
  import opened AskProtocol

  type Calls = map<nat, Call>
  type Stands = map<nat, StandingAsk>

  predicate HolderPc(pc: Pc) {
    pc.Raising? || pc.Published? || pc.Unheard? || pc.Telling? || pc.Heard? || pc.Retiring? || pc.Leaving? || pc.Closing?
  }

  predicate Queueing(pc: Pc) { pc.Parked? || pc.Dropping? }

  ghost predicate Queued(calls: Calls, stands: Stands, c: nat) {
    c in calls && calls[c].stand in stands && c in stands[calls[c].stand].queue
  }

  /** c holds its question: it is raising it, or it was popped off the queue to raise it next. */
  ghost predicate Holds(calls: Calls, stands: Stands, c: nat) {
    c in calls && (HolderPc(calls[c].pc) || (Queueing(calls[c].pc) && !Queued(calls, stands, c)))
  }

  ghost predicate CallsOk(calls: Calls, stands: Stands) {
    && (forall c :: c in calls ==> calls[c].stand in stands && stands[calls[c].stand].key == calls[c].key)
    && (forall c :: c in calls && calls[c].pc.Retiring? ==> calls[c].pc.out != Cancelled)
  }

  /** In-flight calls have distinct tool_use ids. */
  ghost predicate UsesOk(calls: Calls, user: map<ToolUse, nat>) {
    forall c :: c in calls && !calls[c].pc.Returned? ==> calls[c].toolUse in user && user[calls[c].toolUse] == c
  }

  ghost predicate QueueOk(calls: Calls, st: nat, a: StandingAsk) {
    && Distinct(a.queue)
    && (forall x :: x in a.queue ==> x in calls && calls[x].stand == st)
    && (a.done.None? ==> forall x :: x in a.queue ==> Queueing(calls[x].pc))
  }

  ghost predicate QueuesOk(calls: Calls, stands: Stands) {
    forall st :: st in stands ==> QueueOk(calls, st, stands[st])
  }

  /** The holder h of an unfinished question, counted by waiting until it has departed. */
  ghost predicate HeldBy(calls: Calls, stands: Stands, st: nat, a: StandingAsk, h: nat) {
    && Holds(calls, stands, h) && calls[h].stand == st
    && a.waiting == |a.queue| + (if calls[h].pc == Closing(Cancelled) then 0 else 1)
    && (calls[h].pc == Closing(Cancelled) ==> a.queue == [])
  }

  ghost predicate HeldOk(calls: Calls, stands: Stands, holder: map<nat, nat>) {
    forall st :: st in stands && stands[st].done.None? ==> st in holder && HeldBy(calls, stands, st, stands[st], holder[st])
  }

  /** Only the holder holds, and only an unfinished question. */
  ghost predicate SoleOk(calls: Calls, stands: Stands, holder: map<nat, nat>) {
    forall c :: Holds(calls, stands, c) ==>
      calls[c].stand in stands && stands[calls[c].stand].done.None? &&
      calls[c].stand in holder && holder[calls[c].stand] == c
  }

  ghost predicate AskingOk(calls: Calls, stands: Stands, holder: map<nat, nat>, asking: map<Key, nat>) {
    forall k :: k in asking ==>
      && asking[k] in stands && stands[asking[k]].done.None? && stands[asking[k]].key == k
      && asking[k] in holder && holder[asking[k]] in calls && !calls[holder[asking[k]]].pc.Closing?
  }

  /** A promote channel is closed once, by the call that popped its owner, and never left unclosed. */
  ghost predicate PromotesOk(calls: Calls, stands: Stands, promoted: set<nat>, popper: map<nat, nat>) {
    && (forall n :: n in promoted ==> n in popper)
    && (forall n :: n in popper ==> n in calls && !Queued(calls, stands, n))
    && (forall n :: n in popper && n !in promoted ==> popper[n] in calls && calls[popper[n]].pc == HandingOff(n))
    && (forall x :: x in calls && calls[x].pc.HandingOff? ==>
          calls[x].pc.next in popper && popper[calls[x].pc.next] == x && calls[x].pc.next !in promoted)
    && (forall c :: c in calls && calls[c].pc.Parked? && !Queued(calls, stands, c) ==> c in popper)
  }

  ghost predicate Shape(calls: Calls, stands: Stands, holder: map<nat, nat>) {
    CallsOk(calls, stands) && QueuesOk(calls, stands) && HeldOk(calls, stands, holder) && SoleOk(calls, stands, holder)
  }

  ghost predicate Structure(s: State) {
    && Shape(s.calls, s.sh.stands, s.holder)
    && UsesOk(s.calls, s.user)
    && PromotesOk(s.calls, s.sh.stands, s.promoted, s.popper)
    && AskingOk(s.calls, s.sh.stands, s.holder, s.sh.asking)
  }

  function At1(calls: Calls, c: nat, pc: Pc): Calls
    requires c in calls
  {
    calls[c := calls[c].(pc := pc)]
  }

  // ---- one call moves, the questions stay as they are ----

  lemma MoveQueues(calls: Calls, stands: Stands, c: nat, pc: Pc)
    requires QueuesOk(calls, stands) && c in calls
    requires Queued(calls, stands, c) && stands[calls[c].stand].done.None? ==> Queueing(pc)
    ensures QueuesOk(At1(calls, c, pc), stands)
  {
    forall st | st in stands ensures QueueOk(At1(calls, c, pc), st, stands[st]) {
      assert QueueOk(calls, st, stands[st]);
    }
  }

  lemma MoveHeld(calls: Calls, stands: Stands, holder: map<nat, nat>, c: nat, pc: Pc)
    requires HeldOk(calls, stands, holder) && c in calls
    requires Holds(calls, stands, c) ==>
               calls[c].pc != Closing(Cancelled) && pc != Closing(Cancelled) && Holds(At1(calls, c, pc), stands, c)
    ensures HeldOk(At1(calls, c, pc), stands, holder)
  {
    var calls' := At1(calls, c, pc);
    forall st | st in stands && stands[st].done.None?
      ensures st in holder && HeldBy(calls', stands, st, stands[st], holder[st])
    {
      assert HeldBy(calls, stands, st, stands[st], holder[st]);
    }
  }

  lemma MoveSole(calls: Calls, stands: Stands, holder: map<nat, nat>, c: nat, pc: Pc)
    requires SoleOk(calls, stands, holder) && c in calls
    requires Holds(At1(calls, c, pc), stands, c) ==> Holds(calls, stands, c)
    ensures SoleOk(At1(calls, c, pc), stands, holder)
  {
    forall x | Holds(At1(calls, c, pc), stands, x) ensures Holds(calls, stands, x) {
    }
  }

  lemma MovePromotes(calls: Calls, stands: Stands, promoted: set<nat>, popper: map<nat, nat>, c: nat, pc: Pc)
    requires PromotesOk(calls, stands, promoted, popper) && c in calls
    requires !calls[c].pc.HandingOff? && !pc.HandingOff? && !pc.Parked?
    ensures PromotesOk(At1(calls, c, pc), stands, promoted, popper)
  {
    assert forall x :: Queued(At1(calls, c, pc), stands, x) <==> Queued(calls, stands, x);
  }

  lemma NotQueued(calls: Calls, stands: Stands, holder: map<nat, nat>, c: nat)
    requires Shape(calls, stands, holder) && Holds(calls, stands, c)
    ensures !Queued(calls, stands, c)
  {
    assert QueueOk(calls, calls[c].stand, stands[calls[c].stand]);
  }

  /** A holder goes on to another stage of raising, or starts closing the question with a real result. */
  lemma HolderMoves(calls: Calls, stands: Stands, holder: map<nat, nat>, c: nat, pc: Pc)
    requires Shape(calls, stands, holder)
    requires Holds(calls, stands, c) && !calls[c].pc.Closing?
    requires HolderPc(pc) && pc != Closing(Cancelled) && (pc.Retiring? ==> pc.out != Cancelled)
    ensures Shape(At1(calls, c, pc), stands, holder)
  {
    NotQueued(calls, stands, holder, c);
    MoveQueues(calls, stands, c, pc);
    MoveHeld(calls, stands, holder, c, pc);
    MoveSole(calls, stands, holder, c, pc);
  }

  /** A parked call takes the result of its finished question, or decides to leave the line. */
  lemma ParkedMoves(calls: Calls, stands: Stands, holder: map<nat, nat>, c: nat, pc: Pc)
    requires Shape(calls, stands, holder) && c in calls && calls[c].pc == Parked
    requires pc == Dropping || (pc.Returned? && stands[calls[c].stand].done.Some?)
    ensures Shape(At1(calls, c, pc), stands, holder)
  {
    MoveQueues(calls, stands, c, pc);
    MoveHeld(calls, stands, holder, c, pc);
    MoveSole(calls, stands, holder, c, pc);
  }

  // ---- one call moves (or arrives) and its own question changes (or is created) ----

  ghost predicate Change(calls: Calls, calls': Calls, stands: Stands, stands': Stands,
                         holder: map<nat, nat>, holder': map<nat, nat>, c: nat, st: nat)
  {
    && c in calls' && calls'[c].stand == st && (c in calls ==> calls[c].stand == st)
    && (forall x :: x != c ==> (x in calls <==> x in calls'))
    && (forall x :: x != c && x in calls ==> calls'[x] == calls[x])
    && st in stands' && (st in stands ==> stands'[st].key == stands[st].key)
    && (forall t :: t != st ==> (t in stands <==> t in stands'))
    && (forall t :: t != st && t in stands ==> stands'[t] == stands[t])
    && (forall t :: t != st && t in holder ==> t in holder' && holder'[t] == holder[t])
  }

  lemma ChangeQueues(calls: Calls, calls': Calls, stands: Stands, stands': Stands,
                     holder: map<nat, nat>, holder': map<nat, nat>, c: nat, st: nat)
    requires Change(calls, calls', stands, stands', holder, holder', c, st)
    requires QueuesOk(calls, stands) && QueueOk(calls', st, stands'[st])
    ensures QueuesOk(calls', stands')
  {
    forall t | t in stands' ensures QueueOk(calls', t, stands'[t]) {
      if t != st { assert QueueOk(calls, t, stands[t]); }
    }
  }

  lemma ChangeHeld(calls: Calls, calls': Calls, stands: Stands, stands': Stands,
                   holder: map<nat, nat>, holder': map<nat, nat>, c: nat, st: nat)
    requires Change(calls, calls', stands, stands', holder, holder', c, st)
    requires HeldOk(calls, stands, holder)
    requires stands'[st].done.None? ==> st in holder' && HeldBy(calls', stands', st, stands'[st], holder'[st])
    ensures HeldOk(calls', stands', holder')
  {
    forall t | t in stands' && stands'[t].done.None?
      ensures t in holder' && HeldBy(calls', stands', t, stands'[t], holder'[t])
    {
      if t != st { assert HeldBy(calls, stands, t, stands[t], holder[t]); }
    }
  }

  lemma ChangeSole(calls: Calls, calls': Calls, stands: Stands, stands': Stands,
                   holder: map<nat, nat>, holder': map<nat, nat>, c: nat, st: nat)
    requires Change(calls, calls', stands, stands', holder, holder', c, st)
    requires SoleOk(calls, stands, holder)
    requires forall x :: x in calls' && calls'[x].stand == st && Holds(calls', stands', x) ==>
               stands'[st].done.None? && st in holder' && holder'[st] == x
    ensures SoleOk(calls', stands', holder')
  {
    forall x | Holds(calls', stands', x)
      ensures calls'[x].stand in stands' && stands'[calls'[x].stand].done.None? &&
              calls'[x].stand in holder' && holder'[calls'[x].stand] == x
    {
      if calls'[x].stand != st {
        assert Holds(calls, stands, x);
      }
    }
  }

  lemma ChangeCalls(calls: Calls, calls': Calls, stands: Stands, stands': Stands,
                    holder: map<nat, nat>, holder': map<nat, nat>, c: nat, st: nat)
    requires Change(calls, calls', stands, stands', holder, holder', c, st)
    requires CallsOk(calls, stands)
    requires calls'[c].key == stands'[st].key && !calls'[c].pc.Retiring?
    ensures CallsOk(calls', stands')
  {
  }

  /** Who queues behind whom, after a change that only touches question st. */
  lemma ChangePromotes(calls: Calls, calls': Calls, stands: Stands, stands': Stands,
                       promoted: set<nat>, popper: map<nat, nat>)
    requires PromotesOk(calls, stands, promoted, popper)
    requires forall x :: x in calls ==> x in calls'
    requires forall x :: x in calls && Queued(calls', stands', x) ==> Queued(calls, stands, x)
    requires forall x :: x in calls' && calls'[x].pc.HandingOff? ==> x in calls && calls'[x].pc == calls[x].pc
    requires forall x :: x in calls && calls[x].pc.HandingOff? ==> calls'[x].pc == calls[x].pc
    requires forall x :: x in calls' && calls'[x].pc.Parked? && !Queued(calls', stands', x) ==>
               x in calls && calls[x].pc.Parked? && !Queued(calls, stands, x)
    ensures PromotesOk(calls', stands', promoted, popper)
  {
  }

  /** Finishing a question changes no queue, and its holder is the one that stops holding. */
  lemma ClosesHolds(calls: Calls, stands: Stands, holder: map<nat, nat>, c: nat, out: Outcome)
    requires CallsOk(calls, stands) && SoleOk(calls, stands, holder) && c in calls && calls[c].pc == Closing(out) && Holds(calls, stands, c)
    ensures var calls', stands' := At1(calls, c, Returned(out)), stands[calls[c].stand := stands[calls[c].stand].(done := Some(out))];
            forall x :: Holds(calls', stands', x) ==> x in calls' && calls'[x].stand != calls[c].stand
  {
    var calls', stands' := At1(calls, c, Returned(out)), stands[calls[c].stand := stands[calls[c].stand].(done := Some(out))];
    assert forall x :: Queued(calls', stands', x) <==> Queued(calls, stands, x);
    assert forall x :: Holds(calls', stands', x) ==> x != c && Holds(calls, stands, x);
  }

  /** The holder publishes the result and closes done. */
  lemma Closes(calls: Calls, stands: Stands, holder: map<nat, nat>, c: nat, out: Outcome)
    requires Shape(calls, stands, holder) && c in calls && calls[c].pc == Closing(out)
    ensures stands[calls[c].stand].done.None?
    ensures Shape(At1(calls, c, Returned(out)), stands[calls[c].stand := stands[calls[c].stand].(done := Some(out))], holder)
  {
    var st := calls[c].stand;
    var calls', stands' := At1(calls, c, Returned(out)), stands[st := stands[st].(done := Some(out))];
    assert Holds(calls, stands, c) && QueueOk(calls, st, stands[st]);
    ClosesHolds(calls, stands, holder, c, out);
    hide Holds;
    ChangeCalls(calls, calls', stands, stands', holder, holder, c, st);
    ChangeQueues(calls, calls', stands, stands', holder, holder, c, st);
    ChangeHeld(calls, calls', stands, stands', holder, holder, c, st);
    ChangeSole(calls, calls', stands, stands', holder, holder, c, st);
  }

  lemma {:induction false} WithoutDistinct(q: seq<nat>, c: nat)
    requires Distinct(q)
    ensures Distinct(Without(q, c)) && c !in Without(q, c)
  {
    if q != [] && q[0] != c {
      assert Distinct(q[1..]);
      WithoutDistinct(q[1..], c);
      assert q[0] !in q[1..];
    }
  }

  /** Taking a call off the queue changes who holds nothing. */
  lemma DropsHolds(calls: Calls, stands: Stands, c: nat, a: StandingAsk)
    requires CallsOk(calls, stands) && c in calls && calls[c].pc == Dropping && a == stands[calls[c].stand] && c in a.queue
    requires Distinct(a.queue)
    ensures var calls', stands' := At1(calls, c, Returned(Cancelled)),
              stands[calls[c].stand := a.(waiting := a.waiting - 1, queue := Without(a.queue, c))];
            (forall x :: x != c ==> (Queued(calls', stands', x) <==> Queued(calls, stands, x))) &&
            (forall x :: Holds(calls', stands', x) <==> Holds(calls, stands, x))
  {
    WithoutDistinct(a.queue, c);
    hide Without, Distinct;
  }

  /** A parked call takes itself off the queue. */
  lemma DropsOut(calls: Calls, stands: Stands, holder: map<nat, nat>, c: nat, a: StandingAsk)
    requires Shape(calls, stands, holder) && c in calls && calls[c].pc == Dropping
    requires a == stands[calls[c].stand] && c in a.queue
    ensures Shape(At1(calls, c, Returned(Cancelled)),
                  stands[calls[c].stand := a.(waiting := a.waiting - 1, queue := Without(a.queue, c))], holder)
  {
    var st := calls[c].stand;
    var b := a.(waiting := a.waiting - 1, queue := Without(a.queue, c));
    var calls', stands' := At1(calls, c, Returned(Cancelled)), stands[st := b];
    assert QueueOk(calls, st, a);
    WithoutDistinct(a.queue, c);
    DropsHolds(calls, stands, c, a);
    if a.done.None? { assert HeldBy(calls, stands, st, a, holder[st]); }
    hide Without, Distinct;
    ChangeCalls(calls, calls', stands, stands', holder, holder, c, st);
    ChangeQueues(calls, calls', stands, stands', holder, holder, c, st);
    ChangeHeld(calls, calls', stands, stands', holder, holder, c, st);
    ChangeSole(calls, calls', stands, stands', holder, holder, c, st);
  }

  /** Popping the head of the queue leaves nobody but the head holding the question. */
  lemma PassesSole(calls: Calls, stands: Stands, holder: map<nat, nat>, c: nat, a: StandingAsk)
    requires CallsOk(calls, stands) && SoleOk(calls, stands, holder) && c in calls && calls[c].pc == Leaving
    requires a == stands[calls[c].stand] && a.queue != [] && a.queue[0] in calls && calls[a.queue[0]].stand == calls[c].stand
    ensures SoleOk(At1(calls, c, HandingOff(a.queue[0])),
                   stands[calls[c].stand := a.(waiting := a.waiting - 1, queue := a.queue[1..])],
                   holder[calls[c].stand := a.queue[0]])
  {
    var st, n := calls[c].stand, a.queue[0];
    var calls', stands' := At1(calls, c, HandingOff(n)), stands[st := a.(waiting := a.waiting - 1, queue := a.queue[1..])];
    assert Holds(calls, stands, c);
    assert forall x :: x != n && x in a.queue ==> x in a.queue[1..];
    forall x | x != n && Holds(calls', stands', x) ensures calls'[x].stand != st {
      assert x != c && Holds(calls, stands, x);
    }
    ChangeSole(calls, calls', stands, stands', holder, holder[st := n], c, st);
  }

  /** A departing holder hands the question to the head of the queue. */
  lemma Passes(calls: Calls, stands: Stands, holder: map<nat, nat>, c: nat, a: StandingAsk)
    requires Shape(calls, stands, holder) && c in calls && calls[c].pc == Leaving
    requires a == stands[calls[c].stand] && a.queue != []
    ensures Shape(At1(calls, c, HandingOff(a.queue[0])),
                  stands[calls[c].stand := a.(waiting := a.waiting - 1, queue := a.queue[1..])],
                  holder[calls[c].stand := a.queue[0]])
    ensures Queued(calls, stands, a.queue[0])
  {
    var st := calls[c].stand;
    var b, n := a.(waiting := a.waiting - 1, queue := a.queue[1..]), a.queue[0];
    var calls', stands', holder' := At1(calls, c, HandingOff(n)), stands[st := b], holder[st := n];
    assert Holds(calls, stands, c);
    assert QueueOk(calls, st, a) && HeldBy(calls, stands, st, a, holder[st]);
    assert n in a.queue && n !in b.queue;
    ChangeCalls(calls, calls', stands, stands', holder, holder', c, st);
    ChangeQueues(calls, calls', stands, stands', holder, holder', c, st);
    assert Holds(calls', stands', n);
    ChangeHeld(calls, calls', stands, stands', holder, holder', c, st);
    PassesSole(calls, stands, holder, c, a);
  }

  /** A departing holder with nobody behind it keeps the question until it has closed it. */
  lemma LeavesLast(calls: Calls, stands: Stands, holder: map<nat, nat>, c: nat, a: StandingAsk)
    requires Shape(calls, stands, holder) && c in calls && calls[c].pc == Leaving
    requires a == stands[calls[c].stand] && a.queue == []
    ensures Shape(At1(calls, c, Closing(Cancelled)), stands[calls[c].stand := a.(waiting := a.waiting - 1)], holder)
  {
    var st := calls[c].stand;
    var calls', stands' := At1(calls, c, Closing(Cancelled)), stands[st := a.(waiting := a.waiting - 1)];
    assert Holds(calls, stands, c);
    assert QueueOk(calls, st, a) && HeldBy(calls, stands, st, a, holder[st]);
    ChangeCalls(calls, calls', stands, stands', holder, holder, c, st);
    ChangeQueues(calls, calls', stands, stands', holder, holder, c, st);
    ChangeHeld(calls, calls', stands, stands', holder, holder, c, st);
    assert forall x :: Queued(calls', stands', x) <==> Queued(calls, stands, x);
    assert forall x :: Holds(calls', stands', x) <==> Holds(calls, stands, x);
    ChangeSole(calls, calls', stands, stands', holder, holder, c, st);
  }

  /** A new call joins a question that is still being asked. */
  lemma Joins(calls: Calls, stands: Stands, holder: map<nat, nat>, c: nat, k: Call, a: StandingAsk)
    requires Shape(calls, stands, holder) && c !in calls && k.pc == Parked && k.stand in stands
    requires a == stands[k.stand] && a.done.None? && a.key == k.key
    requires k.stand in holder && holder[k.stand] in calls && !calls[holder[k.stand]].pc.Closing?
    ensures Shape(calls[c := k], stands[k.stand := a.(waiting := a.waiting + 1, queue := a.queue + [c])], holder)
  {
    var st := k.stand;
    var b := a.(waiting := a.waiting + 1, queue := a.queue + [c]);
    var calls', stands' := calls[c := k], stands[st := b];
    assert QueueOk(calls, st, a) && HeldBy(calls, stands, st, a, holder[st]);
    JoinsHolds(calls, stands, c, k, a);
    assert HeldBy(calls', stands', st, b, holder[st]);
    assert QueueOk(calls', st, b);
    hide Holds, QueueOk, HeldBy;
    ChangeCalls(calls, calls', stands, stands', holder, holder, c, st);
    ChangeQueues(calls, calls', stands, stands', holder, holder, c, st);
    ChangeHeld(calls, calls', stands, stands', holder, holder, c, st);
    ChangeSole(calls, calls', stands, stands', holder, holder, c, st);
  }

  /** A newcomer at the end of the queue changes who holds nothing. */
  lemma JoinsHolds(calls: Calls, stands: Stands, c: nat, k: Call, a: StandingAsk)
    requires CallsOk(calls, stands) && QueueOk(calls, k.stand, a) && c !in calls && k.pc == Parked && k.stand in stands && a == stands[k.stand]
    ensures var calls', stands' := calls[c := k], stands[k.stand := a.(waiting := a.waiting + 1, queue := a.queue + [c])];
            forall x :: Holds(calls', stands', x) <==> Holds(calls, stands, x)
  {
    var calls', stands' := calls[c := k], stands[k.stand := a.(waiting := a.waiting + 1, queue := a.queue + [c])];
    assert forall x :: x != c ==> (Queued(calls', stands', x) <==> Queued(calls, stands, x));
    assert Queued(calls', stands', c);
  }

  /** A new call finds nothing to join and raises a question of its own. */
  lemma Creates(calls: Calls, stands: Stands, holder: map<nat, nat>, c: nat, k: Call)
    requires Shape(calls, stands, holder) && c !in calls && c !in stands && k.pc == Raising && k.stand == c
    ensures Shape(calls[c := k], stands[c := StandingAsk(k.key, None, 1, [])], holder[c := c])
  {
    var calls', stands', holder' := calls[c := k], stands[c := StandingAsk(k.key, None, 1, [])], holder[c := c];
    ChangeCalls(calls, calls', stands, stands', holder, holder', c, c);
    ChangeQueues(calls, calls', stands, stands', holder, holder', c, c);
    ChangeHeld(calls, calls', stands, stands', holder, holder', c, c);
    assert forall x :: x in calls ==> calls[x].stand != c;
    ChangeSole(calls, calls', stands, stands', holder, holder', c, c);
  }

  // ---- every step keeps the structure ----

  lemma MoveAsking(calls: Calls, stands: Stands, holder: map<nat, nat>, asking: map<Key, nat>, c: nat, pc: Pc)
    requires AskingOk(calls, stands, holder, asking) && c in calls
    requires pc.Closing? ==> forall k :: k in asking ==> holder[asking[k]] != c
    ensures AskingOk(At1(calls, c, pc), stands, holder, asking)
  {
  }

  lemma MoveUses(calls: Calls, user: map<ToolUse, nat>, c: nat, pc: Pc)
    requires UsesOk(calls, user) && c in calls && (calls[c].pc.Returned? ==> pc.Returned?)
    ensures UsesOk(At1(calls, c, pc), user)
  {
  }

  /** The holder moves on: every step of raise and ask before it retires or leaves. */
  lemma HolderStep(s: State, s': State, c: nat, pc: Pc)
    requires Structure(s) && Holds(s.calls, s.sh.stands, c) && !s.calls[c].pc.Closing?
    requires HolderPc(pc) && !pc.Closing? && (pc.Retiring? ==> pc.out != Cancelled)
    requires s'.calls == At1(s.calls, c, pc) && s'.sh.stands == s.sh.stands && s'.holder == s.holder
    requires s'.sh.asking == s.sh.asking && s'.user == s.user && s'.promoted == s.promoted && s'.popper == s.popper
    ensures Structure(s')
  {
    hide CallsOk, QueuesOk, HeldOk, SoleOk, PromotesOk, AskingOk, UsesOk;
    assert UsesOk(s'.calls, s'.user) by { MoveUses(s.calls, s.user, c, pc); }
    assert Shape(s'.calls, s'.sh.stands, s'.holder) by { HolderMoves(s.calls, s.sh.stands, s.holder, c, pc); }
    assert PromotesOk(s'.calls, s'.sh.stands, s'.promoted, s'.popper) by {
      MovePromotes(s.calls, s.sh.stands, s.promoted, s.popper, c, pc);
    }
    assert AskingOk(s'.calls, s'.sh.stands, s'.holder, s'.sh.asking) by {
      MoveAsking(s.calls, s.sh.stands, s.holder, s.sh.asking, c, pc);
    }
  }

  /** A call arriving under a fresh name disturbs nobody's promotion. */
  lemma ArrivePromotes(calls: Calls, stands: Stands, promoted: set<nat>, popper: map<nat, nat>,
                       c: nat, k: Call, b: StandingAsk)
    requires PromotesOk(calls, stands, promoted, popper) && CallsOk(calls, stands) && c !in calls && !k.pc.HandingOff?
    requires k.stand in stands ==> b.queue == stands[k.stand].queue + [c]
    requires k.stand !in stands ==> b.queue == [] && !k.pc.Parked?
    ensures PromotesOk(calls[c := k], stands[k.stand := b], promoted, popper)
  {
    var calls', stands' := calls[c := k], stands[k.stand := b];
    forall x | x in calls ensures Queued(calls', stands', x) <==> Queued(calls, stands, x) {}
    ChangePromotes(calls, calls', stands, stands', promoted, popper);
  }

  lemma ArriveAsking(calls: Calls, stands: Stands, holder: map<nat, nat>, asking: map<Key, nat>, c: nat, k: Call, b: StandingAsk)
    requires AskingOk(calls, stands, holder, asking) && c !in calls
    requires k.stand in stands ==> b.key == stands[k.stand].key && b.done == stands[k.stand].done
    ensures AskingOk(calls[c := k], stands[k.stand := b], holder, asking)
  {
  }

  lemma ArriveUses(calls: Calls, user: map<ToolUse, nat>, c: nat, k: Call)
    requires UsesOk(calls, user) && c !in calls
    requires forall x :: x in calls && !calls[x].pc.Returned? ==> calls[x].toolUse != k.toolUse
    ensures UsesOk(calls[c := k], user[k.toolUse := c])
  {
  }

  lemma CreateAsking(calls: Calls, stands: Stands, holder: map<nat, nat>, asking: map<Key, nat>, c: nat, k: Call, b: StandingAsk)
    requires AskingOk(calls, stands, holder, asking) && c !in calls && c !in stands
    requires b == StandingAsk(k.key, None, 1, []) && !k.pc.Closing?
    ensures AskingOk(calls[c := k], stands[c := b], holder[c := c], asking[k.key := c])
  {
  }

  lemma EnterJoins(s: State, c: nat, tu: ToolUse, key: Key)
    requires Structure(s) && Enabled(s, Enter(c, tu, key)) && key in s.sh.asking
    ensures Structure(EnterApply(s, c, tu, key))
  {
    var s' := EnterApply(s, c, tu, key);
    var st := s.sh.asking[key];
    var a, k := s.sh.stands[st], Call(tu, key, st, Parked, |s.accepted|);
    var b := a.(waiting := a.waiting + 1, queue := a.queue + [c]);
    assert s'.calls == s.calls[c := k] && s'.sh.stands == s.sh.stands[st := b];
    assert forall x :: x in s.calls && !s.calls[x].pc.Returned? ==> InFlight(s, x);
    ArriveUses(s.calls, s.user, c, k);
    hide QueuesOk, HeldOk, SoleOk, PromotesOk, UsesOk;
    Joins(s.calls, s.sh.stands, s.holder, c, k, a);
    ArrivePromotes(s.calls, s.sh.stands, s.promoted, s.popper, c, k, b);
    ArriveAsking(s.calls, s.sh.stands, s.holder, s.sh.asking, c, k, b);
  }

  lemma EnterCreates(s: State, c: nat, tu: ToolUse, key: Key)
    requires Structure(s) && Enabled(s, Enter(c, tu, key)) && key !in s.sh.asking
    ensures Structure(EnterApply(s, c, tu, key))
  {
    var s' := EnterApply(s, c, tu, key);
    var k, b := Call(tu, key, c, Raising, |s.accepted|), StandingAsk(key, None, 1, []);
    assert s'.calls == s.calls[c := k] && s'.sh.stands == s.sh.stands[c := b];
    assert forall x :: x in s.calls && !s.calls[x].pc.Returned? ==> InFlight(s, x);
    ArriveUses(s.calls, s.user, c, k);
    hide CallsOk, QueuesOk, HeldOk, SoleOk, PromotesOk, UsesOk, AskingOk;
    Creates(s.calls, s.sh.stands, s.holder, c, k);
    ArrivePromotes(s.calls, s.sh.stands, s.promoted, s.popper, c, k, b);
    CreateAsking(s.calls, s.sh.stands, s.holder, s.sh.asking, c, k, b);
  }

  lemma ParkedStep(s: State, s': State, c: nat, pc: Pc)
    requires Structure(s) && c in s.calls && s.calls[c].pc == Parked
    requires pc == Dropping || (pc.Returned? && s.sh.stands[s.calls[c].stand].done.Some?)
    requires s' == s.(calls := At1(s.calls, c, pc))
    ensures Structure(s')
  {
    hide CallsOk, QueuesOk, HeldOk, SoleOk, PromotesOk, AskingOk, UsesOk;
    MoveUses(s.calls, s.user, c, pc);
    ParkedMoves(s.calls, s.sh.stands, s.holder, c, pc);
    MovePromotes(s.calls, s.sh.stands, s.promoted, s.popper, c, pc);
    MoveAsking(s.calls, s.sh.stands, s.holder, s.sh.asking, c, pc);
  }

  /** Question st changes its queue or its count, and stays as unfinished as it was. */
  lemma ChangeAsking(calls: Calls, stands: Stands, holder: map<nat, nat>, asking: map<Key, nat>, c: nat, pc: Pc, b: StandingAsk, h: nat)
    requires AskingOk(calls, stands, holder, asking) && c in calls && calls[c].stand in stands && !pc.Closing?
    requires b.key == stands[calls[c].stand].key && b.done == stands[calls[c].stand].done
    requires h in calls && !calls[h].pc.Closing?
    ensures AskingOk(At1(calls, c, pc), stands[calls[c].stand := b], holder, asking)
    ensures AskingOk(At1(calls, c, pc), stands[calls[c].stand := b], holder[calls[c].stand := h], asking)
  {
  }

  /** The holder of st stops joining calls before it closes the question. */
  lemma RetireAsking(calls: Calls, stands: Stands, holder: map<nat, nat>, asking: map<Key, nat>, c: nat, pc: Pc, b: StandingAsk)
    requires AskingOk(calls, stands, holder, asking) && CallsOk(calls, stands) && HeldOk(calls, stands, holder) && c in calls
    requires b.key == stands[calls[c].stand].key && b.done == stands[calls[c].stand].done
    ensures AskingOk(At1(calls, c, pc), stands[calls[c].stand := b], holder,
                     Retired(asking, calls[c].key, calls[c].stand))
  {
    var st := calls[c].stand;
    var asking' := Retired(asking, calls[c].key, st);
    forall k | k in asking' ensures asking'[k] != st && calls[holder[asking'[k]]].stand == asking'[k] {
      assert HeldBy(calls, stands, asking[k], stands[asking[k]], holder[asking[k]]);
    }
  }

  /** The promotions after c moves and its question's queue changes for nobody else. */
  lemma QueueLeaves(calls: Calls, stands: Stands, promoted: set<nat>, popper: map<nat, nat>, c: nat, pc: Pc, b: StandingAsk)
    requires PromotesOk(calls, stands, promoted, popper)
    requires c in calls && calls[c].stand in stands && !calls[c].pc.HandingOff? && !pc.HandingOff? && !pc.Parked?
    requires forall x :: x != c ==> (x in b.queue <==> x in stands[calls[c].stand].queue)
    requires c in b.queue ==> c in stands[calls[c].stand].queue
    ensures PromotesOk(At1(calls, c, pc), stands[calls[c].stand := b], promoted, popper)
  {
    var calls', stands' := At1(calls, c, pc), stands[calls[c].stand := b];
    forall x | x in calls ensures Queued(calls', stands', x) ==> Queued(calls, stands, x) {}
    forall x | x in calls && x != c ensures Queued(calls', stands', x) <==> Queued(calls, stands, x) {}
    ChangePromotes(calls, calls', stands, stands', promoted, popper);
  }

  lemma DropStep(s: State, c: nat)
    requires Structure(s) && LineEnabled(s, c, DropOut) && c in s.sh.stands[s.calls[c].stand].queue
    ensures Structure(LineApply(s, c, DropOut))
  {
    var st, pc := s.calls[c].stand, Returned(Cancelled);
    var a := s.sh.stands[st];
    var b := a.(waiting := a.waiting - 1, queue := Without(a.queue, c));
    var s' := LineApply(s, c, DropOut);
    assert s'.calls == At1(s.calls, c, pc) && s'.sh.stands == s.sh.stands[st := b];
    hide CallsOk, QueuesOk, HeldOk, SoleOk, PromotesOk, UsesOk, AskingOk;
    DropsOut(s.calls, s.sh.stands, s.holder, c, a);
    MoveUses(s.calls, s.user, c, pc);
    QueueLeaves(s.calls, s.sh.stands, s.promoted, s.popper, c, pc, b);
    ChangeAsking(s.calls, s.sh.stands, s.holder, s.sh.asking, c, pc, b, c);
  }

  /** The promotions after c pops the head of the queue, whose promote channel it now owes a close. */
  lemma PassPromotes(calls: Calls, stands: Stands, promoted: set<nat>, popper: map<nat, nat>, c: nat, a: StandingAsk)
    requires PromotesOk(calls, stands, promoted, popper) && CallsOk(calls, stands) && QueuesOk(calls, stands)
    requires c in calls && calls[c].pc == Leaving && a == stands[calls[c].stand] && a.queue != []
    ensures PromotesOk(At1(calls, c, HandingOff(a.queue[0])),
                       stands[calls[c].stand := a.(waiting := a.waiting - 1, queue := a.queue[1..])],
                       promoted, popper[a.queue[0] := c])
  {
    var st, n := calls[c].stand, a.queue[0];
    var calls', stands' := At1(calls, c, HandingOff(n)), stands[st := a.(waiting := a.waiting - 1, queue := a.queue[1..])];
    assert QueueOk(calls, st, a);
    assert n in a.queue && n !in a.queue[1..];
    assert forall x :: x != n && x in a.queue ==> x in a.queue[1..];
    assert Queued(calls, stands, n);
    forall x | x in calls && x != n ensures Queued(calls', stands', x) <==> Queued(calls, stands, x) {}
    hide QueuesOk, CallsOk, PromotesOk;
    PopPromotes(calls, stands, stands', promoted, popper, c, n);
  }

  lemma PopPromotes(calls: Calls, stands: Stands, stands': Stands, promoted: set<nat>, popper: map<nat, nat>, c: nat, n: nat)
    requires PromotesOk(calls, stands, promoted, popper) && c in calls && calls[c].pc == Leaving && Queued(calls, stands, n)
    requires !Queued(At1(calls, c, HandingOff(n)), stands', n)
    requires forall x :: x in calls && x != n ==> (Queued(At1(calls, c, HandingOff(n)), stands', x) <==> Queued(calls, stands, x))
    ensures PromotesOk(At1(calls, c, HandingOff(n)), stands', promoted, popper[n := c])
  {
  }

  lemma LeaveStep(s: State, c: nat)
    requires Structure(s) && LineEnabled(s, c, LeaveIt)
    ensures Structure(LineApply(s, c, LeaveIt))
  {
    if s.sh.stands[s.calls[c].stand].queue != [] {
      PassStep(s, c);
    } else {
      LastStep(s, c);
    }
  }

  lemma PassStep(s: State, c: nat)
    requires Structure(s) && LineEnabled(s, c, LeaveIt) && s.sh.stands[s.calls[c].stand].queue != []
    ensures Structure(LineApply(s, c, LeaveIt))
  {
    hide CallsOk, QueuesOk, HeldOk, SoleOk, PromotesOk, UsesOk, AskingOk, QueueOk;
    var st := s.calls[c].stand;
    var a := s.sh.stands[st];
    var pc, b := HandingOff(a.queue[0]), a.(waiting := a.waiting - 1, queue := a.queue[1..]);
    Passes(s.calls, s.sh.stands, s.holder, c, a);
    MoveUses(s.calls, s.user, c, pc);
    PassPromotes(s.calls, s.sh.stands, s.promoted, s.popper, c, a);
    QueuedPc(s.calls, s.sh.stands, s.holder, a.queue[0]);
    ChangeAsking(s.calls, s.sh.stands, s.holder, s.sh.asking, c, pc, b, a.queue[0]);
  }

  lemma LastStep(s: State, c: nat)
    requires Structure(s) && LineEnabled(s, c, LeaveIt) && s.sh.stands[s.calls[c].stand].queue == []
    ensures Structure(LineApply(s, c, LeaveIt))
  {
    hide CallsOk, QueuesOk, HeldOk, SoleOk, PromotesOk, UsesOk, AskingOk, QueueOk;
    var a := s.sh.stands[s.calls[c].stand];
    var pc, b := Closing(Cancelled), a.(waiting := a.waiting - 1);
    LeavesLast(s.calls, s.sh.stands, s.holder, c, a);
    MoveUses(s.calls, s.user, c, pc);
    QueueLeaves(s.calls, s.sh.stands, s.promoted, s.popper, c, pc, b);
    RetireAsking(s.calls, s.sh.stands, s.holder, s.sh.asking, c, pc, b);
  }

  lemma QueuedPc(calls: Calls, stands: Stands, holder: map<nat, nat>, c: nat)
    requires Shape(calls, stands, holder) && Queued(calls, stands, c)
    ensures !calls[c].pc.Closing?
  {
    assert QueueOk(calls, calls[c].stand, stands[calls[c].stand]);
    if calls[c].pc.Closing? { assert Holds(calls, stands, c); }
  }

  lemma RetireStep(s: State, c: nat)
    requires Structure(s) && LineEnabled(s, c, Retire)
    ensures Structure(LineApply(s, c, Retire))
  {
    hide CallsOk, QueuesOk, HeldOk, SoleOk, PromotesOk, UsesOk, AskingOk;
    var st, pc := s.calls[c].stand, Closing(s.calls[c].pc.out);
    RetiringOut(s.calls, s.sh.stands, c);
    HolderMoves(s.calls, s.sh.stands, s.holder, c, pc);
    MoveUses(s.calls, s.user, c, pc);
    MovePromotes(s.calls, s.sh.stands, s.promoted, s.popper, c, pc);
    RetireAsking(s.calls, s.sh.stands, s.holder, s.sh.asking, c, pc, s.sh.stands[st]);
    assert s.sh.stands[st := s.sh.stands[st]] == s.sh.stands;
  }

  lemma RetiringOut(calls: Calls, stands: Stands, c: nat)
    requires CallsOk(calls, stands) && c in calls && calls[c].pc.Retiring?
    ensures calls[c].pc.out != Cancelled
  {
  }

  /** The questions still being asked are none of those a closing holder is about to finish. */
  lemma CloseAsking(calls: Calls, stands: Stands, holder: map<nat, nat>, asking: map<Key, nat>, c: nat, out: Outcome)
    requires AskingOk(calls, stands, holder, asking) && CallsOk(calls, stands) && SoleOk(calls, stands, holder)
    requires c in calls && calls[c].pc == Closing(out)
    ensures AskingOk(At1(calls, c, Returned(out)), stands[calls[c].stand := stands[calls[c].stand].(done := Some(out))], holder, asking)
  {
    assert Holds(calls, stands, c);
  }

  lemma CloseStep(s: State, c: nat)
    requires Structure(s) && LineEnabled(s, c, CloseDone)
    ensures Structure(LineApply(s, c, CloseDone)) && s.sh.stands[s.calls[c].stand].done.None?
  {
    var st, out := s.calls[c].stand, s.calls[c].pc.out;
    var s' := LineApply(s, c, CloseDone);
    var b := s.sh.stands[st].(done := Some(out));
    assert s'.calls == At1(s.calls, c, Returned(out)) && s'.sh.stands == s.sh.stands[st := b];
    hide CallsOk, QueuesOk, HeldOk, SoleOk, PromotesOk, UsesOk, AskingOk;
    Closes(s.calls, s.sh.stands, s.holder, c, out);
    MoveUses(s.calls, s.user, c, Returned(out));
    QueueLeaves(s.calls, s.sh.stands, s.promoted, s.popper, c, Returned(out), b);
    CloseAsking(s.calls, s.sh.stands, s.holder, s.sh.asking, c, out);
  }

  lemma HandOffStep(s: State, c: nat)
    requires Structure(s) && LineEnabled(s, c, HandOff)
    ensures Structure(LineApply(s, c, HandOff)) && s.calls[c].pc.next !in s.promoted
  {
    hide CallsOk, QueuesOk, HeldOk, SoleOk, PromotesOk, UsesOk, AskingOk;
    HandOffPromotes(s.calls, s.sh.stands, s.promoted, s.popper, c);
    MoveUses(s.calls, s.user, c, Returned(Cancelled));
    HandOffShape(s.calls, s.sh.stands, s.holder, c);
    MoveAsking(s.calls, s.sh.stands, s.holder, s.sh.asking, c, Returned(Cancelled));
  }

  lemma HandOffPromotes(calls: Calls, stands: Stands, promoted: set<nat>, popper: map<nat, nat>, c: nat)
    requires PromotesOk(calls, stands, promoted, popper) && c in calls && calls[c].pc.HandingOff?
    ensures calls[c].pc.next !in promoted
    ensures PromotesOk(At1(calls, c, Returned(Cancelled)), stands, promoted + {calls[c].pc.next}, popper)
  {
    assert forall x :: Queued(At1(calls, c, Returned(Cancelled)), stands, x) <==> Queued(calls, stands, x);
  }

  lemma HandOffShape(calls: Calls, stands: Stands, holder: map<nat, nat>, c: nat)
    requires Shape(calls, stands, holder) && c in calls && calls[c].pc.HandingOff?
    ensures Shape(At1(calls, c, Returned(Cancelled)), stands, holder)
  {
    assert QueueOk(calls, calls[c].stand, stands[calls[c].stand]);
    MoveQueues(calls, stands, c, Returned(Cancelled));
    MoveHeld(calls, stands, holder, c, Returned(Cancelled));
    MoveSole(calls, stands, holder, c, Returned(Cancelled));
  }

  ghost predicate Shrinks(s: State, s': State) {
    && s'.calls == s.calls && s'.sh.stands == s.sh.stands && s'.holder == s.holder
    && s'.user == s.user && s'.promoted == s.promoted && s'.popper == s.popper
    && (forall k :: k in s'.sh.asking ==> k in s.sh.asking && s.sh.asking[k] == s'.sh.asking[k])
  }

  /** Answers only ever stop later calls from joining a question. */
  lemma ShrinkStep(s: State, s': State)
    requires Structure(s) && Shrinks(s, s')
    ensures Structure(s')
  {
    hide CallsOk, QueuesOk, HeldOk, SoleOk, PromotesOk, UsesOk;
  }

  lemma PromotedHolds(s: State, c: nat)
    requires Structure(s) && c in s.calls && s.calls[c].pc.Parked? && c in s.promoted
    ensures Holds(s.calls, s.sh.stands, c)
  {
  }

  lemma PutsStep(d: Key -> bool, s: State, c: nat, act: AskAct)
    requires Structure(s) && PutEnabled(s, c, act)
    ensures Structure(PutApply(d, s, c, act))
  {
    hide Structure;
    HolderStep(s, PutApply(d, s, c, act), c, PutApply(d, s, c, act).calls[c].pc);
  }

  lemma LinesStep(s: State, c: nat, act: LineAct)
    requires Structure(s) && LineEnabled(s, c, act)
    ensures Structure(LineApply(s, c, act))
  {
    hide Structure;
    var s' := LineApply(s, c, act);
    match act
    case TakeDone => ParkedStep(s, s', c, s'.calls[c].pc);
    case TakePromote => PromotedHolds(s, c); HolderStep(s, s', c, Raising);
    case TakeCancel => ParkedStep(s, s', c, Dropping);
    case DropOut => if c in s.sh.stands[s.calls[c].stand].queue { DropStep(s, c); } else { HolderStep(s, s', c, Leaving); }
    case Retire => RetireStep(s, c);
    case LeaveIt => LeaveStep(s, c);
    case HandOff => HandOffStep(s, c);
    case CloseDone => CloseStep(s, c);
  }

  /** Every step keeps the structure. */
  lemma StructureStep(d: Key -> bool, s: State, step: Step)
    requires Structure(s) && Enabled(s, step)
    ensures Structure(Apply(d, s, step))
  {
    hide Structure, Shrinks;
    match step
    case Enter(c, tu, key) => if key in s.sh.asking { EnterJoins(s, c, tu, key); } else { EnterCreates(s, c, tu, key); }
    case Line(c, act) => LinesStep(s, c, act);
    case Put(c, act) => PutsStep(d, s, c, act);
    case _ => OthersShrink(d, s, step); ShrinkStep(s, Apply(d, s, step));
  }

  lemma OthersShrink(d: Key -> bool, s: State, step: Step)
    requires Enabled(s, step) && !step.Enter? && !step.Line? && !step.Put?
    ensures Shrinks(s, Apply(d, s, step))
  {
    if step.AnswerIt? {
      ClaimShrinks(s, step.tu, step.ans);
    } else if step.SettleAll? {
      SettleShrinks(s, step.order);
    }
  }

  lemma ClaimShrinks(s: State, tu: ToolUse, ans: Answer)
    requires MuFree(s)
    ensures Shrinks(s, AnswerApply(s, tu, ans))
  {
    if tu in s.sh.pending {
      assert AnswerApply(s, tu, ans).sh.asking == s.sh.asking - {s.sh.pending[tu].key};
    }
  }

  lemma SettleShrinks(s: State, order: seq<ToolUse>)
    requires Enabled(s, SettleAll(order))
    ensures Shrinks(s, SettleApply(s, order))
  {
  }
}
