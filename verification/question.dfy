/**
 The permission questions of one live session: the data the session's two locks guard and the
 effect of each critical section on it, as functions. `LiveSession` runs these sections in
 place; `AskProtocol` interleaves them.
 */
module Question {
  import opened Basics

  type ToolUse = string
  datatype Matcher = Matcher(tool: string, prefix: string)
  /** What a call would ask: its matcher together with its exact input bytes. */
  datatype Key = Key(matcher: Matcher, input: string)

  datatype Decision = Allow | Deny
  datatype Scope = Once | Session
  datatype Answer = Answer(decision: Decision, scope: Scope, reason: string)

  /** What Ask hands its caller: an operator's answer, "no asker", or the caller's own context error. */
  datatype Outcome = Answered(ans: Answer) | NoAsker | Cancelled

  /** A raised question's answer channel (named by the call that made it), its key, and the Gate's verdict. */
  datatype PendingAsk = PendingAsk(ch: nat, key: Key, dangerous: bool)

  /** One question several calls may share; `done` is its closed channel together with the result it publishes. */
  datatype StandingAsk = StandingAsk(key: Key, done: Option<Outcome>, waiting: int, queue: seq<nat>)

  /** One subscription of one connection. */
  datatype Sub = Sub(id: nat, conn: nat, asker: bool)

  datatype Shared = Shared(
    pending: map<ToolUse, PendingAsk>,
    asking: map<Key, nat>,
    stands: map<nat, StandingAsk>,
    standing: map<ToolUse, nat>,
    answered: set<ToolUse>,
    subs: seq<Sub>)

  predicate SessionAllow(ans: Answer) {
    ans.decision == Allow && ans.scope == Session
  }

  /** The queue without the first occurrence of c. */
  function Without(q: seq<nat>, c: nat): (r: seq<nat>)
    ensures c !in q ==> r == q
    ensures c in q ==> |r| == |q| - 1
    ensures forall x :: x in r ==> x in q
    ensures forall x :: x in q && x != c ==> x in r
  {
    if q == [] then [] else if q[0] == c then q[1..] else [q[0]] + Without(q[1..], c)
  }

  /** The askers among the subscribers, in subscription order. */
  function AskerSubs(subs: seq<Sub>): seq<Sub> {
    Filter(subs, (u: Sub) => u.asker)
  }

  ghost predicate HasAsker(sh: Shared) {
    exists u :: u in sh.subs && u.asker
  }

  /** Entry to Ask: join the question standing at key, or create it. */
  function Join(sh: Shared, c: nat, key: Key): Shared
    requires key in sh.asking ==> sh.asking[key] in sh.stands
  {
    if key in sh.asking then
      var st := sh.asking[key];
      var a := sh.stands[st];
      sh.(stands := sh.stands[st := a.(waiting := a.waiting + 1, queue := a.queue + [c])])
    else
      sh.(asking := sh.asking[key := c], stands := sh.stands[c := StandingAsk(key, None, 1, [])])
  }

  /** A parked call whose context ended takes itself off the queue, if it is still on it. */
  function Drop(sh: Shared, c: nat, st: nat): Shared
    requires st in sh.stands
  {
    var a := sh.stands[st];
    if c in a.queue then
      sh.(stands := sh.stands[st := a.(waiting := a.waiting - 1, queue := Without(a.queue, c))])
    else sh
  }

  /** The entry at key is dropped only while it is still st's own. */
  function Retired(asking: map<Key, nat>, key: Key, st: nat): map<Key, nat> {
    if key in asking && asking[key] == st then asking - {key} else asking
  }

  function RetireIfCurrent(sh: Shared, key: Key, st: nat): Shared {
    sh.(asking := Retired(sh.asking, key, st))
  }

  /** A departing holder hands the question to the head of the queue. */
  function PassOn(sh: Shared, st: nat): Shared
    requires st in sh.stands && sh.stands[st].queue != []
  {
    var a := sh.stands[st];
    sh.(stands := sh.stands[st := a.(waiting := a.waiting - 1, queue := a.queue[1..])])
  }

  /** A departing holder with nobody behind it retires the question. */
  function LeaveLast(sh: Shared, key: Key, st: nat): Shared
    requires st in sh.stands
  {
    var a := sh.stands[st];
    sh.(stands := sh.stands[st := a.(waiting := a.waiting - 1)], asking := Retired(sh.asking, key, st))
  }

  function Publish(sh: Shared, tu: ToolUse, p: PendingAsk): Shared {
    sh.(pending := sh.pending[tu := p])
  }

  /** Record the question among the standing ones, unless nobody can answer it. */
  function Stand(sh: Shared, tu: ToolUse, c: nat): Shared {
    if AskerSubs(sh.subs) != [] then sh.(standing := sh.standing[tu := c]) else sh
  }

  function Forget(sh: Shared, tu: ToolUse): Shared {
    sh.(pending := sh.pending - {tu}, standing := sh.standing - {tu})
  }

  /** The section of resolveAnswer that claims one pending question. */
  function Claim(sh: Shared, tu: ToolUse): Shared
    requires tu in sh.pending
  {
    sh.(pending := sh.pending - {tu},
        answered := sh.answered + {tu},
        standing := sh.standing - {tu},
        asking := sh.asking - {sh.pending[tu].key})
  }

  /** The tool uses a session-scope allow for m settles: same matcher, and never a dangerous one. */
  function Covered(pending: map<ToolUse, PendingAsk>, m: Matcher): set<ToolUse> {
    set tu | tu in pending && pending[tu].key.matcher == m && !pending[tu].dangerous
  }

  function Settle(sh: Shared, m: Matcher): Shared {
    var ids := Covered(sh.pending, m);
    sh.(pending := sh.pending - ids,
        answered := sh.answered + ids,
        standing := sh.standing - ids,
        asking := sh.asking - (set tu | tu in ids :: sh.pending[tu].key))
  }

  /** The section of abandonStanding that takes every standing question away. */
  function Abandon(sh: Shared): Shared {
    sh.(standing := map[])
  }

  function Subscribe(sh: Shared, u: Sub): Shared {
    sh.(subs := sh.subs + [u])
  }

  function Unsubscribe(sh: Shared, conn: nat): Shared {
    sh.(subs := Filter(sh.subs, (u: Sub) => u.conn != conn))
  }

  /** Publishing a question's result and closing its done channel. */
  function Finish(sh: Shared, st: nat, out: Outcome): Shared
    requires st in sh.stands
  {
    sh.(stands := sh.stands[st := sh.stands[st].(done := Some(out))])
  }
}
