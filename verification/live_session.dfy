/**
 The critical sections of one live session, run in place on its fields. Each method is the body
 of one locked section (or of the two nested ones the outer lock joins) and is proved to change
 the guarded data exactly as the corresponding function of `Question` does; `AskProtocol`
 interleaves those functions.
 */
module LiveSessions {
  import opened Basics
  import opened Question

  /** Deletes the first occurrence of ch from the queue and reports whether it found one. */
  method RemoveChan(queue: seq<nat>, ch: nat) returns (removed: bool, rest: seq<nat>)
    ensures removed == (ch in queue)
    ensures rest == Without(queue, ch)
  {
    var i := 0;
    while i < |queue|
      invariant 0 <= i <= |queue|
      invariant ch !in queue[..i]
    {
      if queue[i] == ch {
        WithoutAt(queue, ch, i);
        return true, queue[..i] + queue[i + 1..];
      }
      i := i + 1;
    }
    return false, queue;
  }

  lemma {:induction false} WithoutAt(queue: seq<nat>, ch: nat, i: nat)
    requires i < |queue| && queue[i] == ch && ch !in queue[..i]
    ensures Without(queue, ch) == queue[..i] + queue[i + 1..]
  {
    if i > 0 {
      assert queue[0] in queue[..i];
      assert queue[1..][..i - 1] == queue[..i][1..];
      WithoutAt(queue[1..], ch, i - 1);
    }
  }

  class LiveSession {
    var pending: map<ToolUse, PendingAsk>
    var asking: map<Key, nat>
    var stands: map<nat, StandingAsk>
    var standing: map<ToolUse, nat>
    var answered: set<ToolUse>
    var subs: seq<Sub>

    function View(): Shared
      reads this
    {
      Shared(pending, asking, stands, standing, answered, subs)
    }

    constructor ()
      ensures View() == Shared(map[], map[], map[], map[], {}, [])
    {
      pending, asking, stands, standing, answered, subs := map[], map[], map[], map[], {}, [];
    }

    /** Ask's first section: joins the question standing at key, or files a new one named by the call. */
    method Ask(c: nat, key: Key) returns (st: nat, raises: bool)
      requires key in asking ==> asking[key] in stands
      modifies this
      ensures View() == Join(old(View()), c, key)
      ensures raises == (key !in old(asking)) && st == (if raises then c else old(asking)[key])
    {
      if key !in asking {
        asking := asking[key := c];
        stands := stands[c := StandingAsk(key, None, 1, [])];
        return c, true;
      }
      st := asking[key];
      var a := stands[st];
      stands := stands[st := a.(waiting := a.waiting + 1, queue := a.queue + [c])];
      return st, false;
    }

    /** The section a parked call runs once its context ended. */
    method DropOut(c: nat, st: nat) returns (removed: bool)
      requires st in stands
      modifies this
      ensures View() == Drop(old(View()), c, st)
      ensures removed == (c in old(stands)[st].queue)
    {
      var a := stands[st];
      var rest;
      removed, rest := RemoveChan(a.queue, c);
      if removed {
        stands := stands[st := a.(waiting := a.waiting - 1, queue := rest)];
      }
    }

    method RetireIfCurrent(key: Key, st: nat)
      modifies this
      ensures View() == Question.RetireIfCurrent(old(View()), key, st)
    {
      if key in asking && asking[key] == st {
        asking := asking - {key};
      }
    }

    /** leave's section: passes the question to the next parked call, or retires it. */
    method Leave(key: Key, st: nat) returns (next: Option<nat>)
      requires st in stands
      modifies this
      ensures var q := old(stands)[st].queue;
              if q != [] then next == Some(q[0]) && View() == PassOn(old(View()), st)
              else next == None && View() == LeaveLast(old(View()), key, st)
    {
      var a := stands[st];
      a := a.(waiting := a.waiting - 1);
      stands := stands[st := a];
      if |a.queue| > 0 {
        stands := stands[st := a.(queue := a.queue[1..])];
        return Some(a.queue[0]);
      }
      RetireIfCurrent(key, st);
      return None;
    }

    method PublishPending(tu: ToolUse, p: PendingAsk)
      modifies this
      ensures View() == Publish(old(View()), tu, p)
    {
      pending := pending[tu := p];
    }

    /** The subscribers that may answer, in subscription order. */
    method Askers() returns (out: seq<Sub>)
      ensures out == AskerSubs(subs)
    {
      out := [];
      var i := 0;
      while i < |subs|
        invariant 0 <= i <= |subs|
        invariant out == AskerSubs(subs[..i])
      {
        FilterAppend(subs[..i], subs[i], (u: Sub) => u.asker);
        assert subs[..i + 1] == subs[..i] + [subs[i]];
        if subs[i].asker {
          out := out + [subs[i]];
        }
        i := i + 1;
      }
      assert subs[..i] == subs;
    }

    /** Records the question and snapshots the askers it is put to, in one section. */
    method StandUp(tu: ToolUse, c: nat) returns (targets: seq<Sub>)
      modifies this
      ensures View() == Stand(old(View()), tu, c)
      ensures targets == AskerSubs(old(subs))
    {
      targets := Askers();
      if |targets| > 0 {
        standing := standing[tu := c];
      }
    }

    method Forget(tu: ToolUse)
      modifies this
      ensures View() == Question.Forget(old(View()), tu)
    {
      pending := pending - {tu};
      standing := standing - {tu};
    }

    /** Takes every standing question away and returns the abandon channels to close, each once. */
    method CollectStanding() returns (abandoned: seq<nat>)
      modifies this`standing
      ensures View() == Abandon(old(View()))
      ensures multiset(abandoned) == Channels(old(standing))
    {
      abandoned := [];
      while standing != map[]
        invariant multiset(abandoned) + Channels(standing) == Channels(old(standing))
        decreases |standing|
      {
        var id :| id in standing;
        ChannelsMinus(standing, id);
        abandoned := abandoned + [standing[id]];
        standing := standing - {id};
      }
    }

    /** Registers a connection and returns the questions it is owed, in the same section. */
    method Attach(u: Sub) returns (owed: set<nat>)
      modifies this
      ensures View() == Subscribe(old(View()), u)
      ensures owed == if u.asker then old(standing).Values else {}
    {
      subs := subs + [u];
      owed := if u.asker then standing.Values else {};
    }

    method Detach(conn: nat)
      modifies this
      ensures View() == Unsubscribe(old(View()), conn)
    {
      var kept := [];
      var i := 0;
      while i < |subs|
        invariant 0 <= i <= |subs|
        invariant kept == Filter(subs[..i], (u: Sub) => u.conn != conn)
        invariant View() == old(View())
      {
        FilterAppend(subs[..i], subs[i], (u: Sub) => u.conn != conn);
        assert subs[..i + 1] == subs[..i] + [subs[i]];
        if subs[i].conn != conn {
          kept := kept + [subs[i]];
        }
        i := i + 1;
      }
      assert subs[..i] == subs;
      subs := kept;
    }

    /**
     Retires every other question a session-scope allow for m covers: the pending and asking
     entries one by one, in whatever order the table yields them, then the standing and answered
     bookkeeping of all of them. Returns the channels to answer, one per question settled.
     */
    method SettleLocked(m: Matcher) returns (chans: seq<nat>, ids: seq<ToolUse>)
      modifies this`pending, this`asking, this`standing, this`answered
      ensures View() == Settle(old(View()), m)
      ensures Distinct(ids) && forall tu :: tu in ids <==> tu in Covered(old(pending), m)
      ensures |chans| == |ids| && forall i :: 0 <= i < |ids| ==> ids[i] in old(pending) && chans[i] == old(pending)[ids[i]].ch
    {
      chans, ids := RetireCovered(m);
      ghost var mid := View();
      var i := 0;
      while i < |ids|
        invariant 0 <= i <= |ids|
        invariant pending == mid.pending && asking == mid.asking
        invariant answered == mid.answered + Elements(ids[..i]) && standing == mid.standing - Elements(ids[..i])
      {
        assert ids[..i + 1] == ids[..i] + [ids[i]];
        assert Elements(ids[..i + 1]) == Elements(ids[..i]) + {ids[i]};
        answered := answered + {ids[i]};
        standing := standing - {ids[i]};
        i := i + 1;
      }
      assert ids[..i] == ids;
      assert Elements(ids) == Covered(old(pending), m);
    }

    method RetireCovered(m: Matcher) returns (chans: seq<nat>, ids: seq<ToolUse>)
      modifies this`pending, this`asking
      ensures pending == old(pending) - Covered(old(pending), m)
      ensures asking == old(asking) - KeysOf(old(pending), Covered(old(pending), m))
      ensures ListsAll(old(pending), Covered(old(pending), m), ids, chans)
    {
      hide Halfway, ListsAll, Covered, KeysOf;
      chans, ids := [], [];
      var todo := pending.Keys;
      ghost var gone: set<ToolUse> := {};
      HalfwayEnds(pending, asking, m);
      while todo != {}
        invariant todo <= pending.Keys
        invariant Halfway(old(pending), old(asking), m, todo, gone, pending, asking)
        invariant ListsAll(old(pending), gone, ids, chans)
        decreases |todo|
      {
        var id :| id in todo;
        var pend := pending[id];
        assert todo == todo - {id} + {id};
        todo := todo - {id};
        HalfwayStep(old(pending), old(asking), m, todo, gone, pending, asking, id);
        if pend.key.matcher == m && !pend.dangerous {
          ListsOneMore(old(pending), gone, ids, chans, id);
          gone := gone + {id};
          chans := chans + [pend.ch];
          ids := ids + [id];
          pending := pending - {id};
          asking := asking - {pend.key};
        }
      }
      HalfwayDone(old(pending), old(asking), m, gone, pending, asking);
    }

    /**
     Claims the pending question of a tool use for an answer and, for a session-scope allow,
     settles everything else it covers before the outer lock is let go. Without a pending
     question nothing changes, and `already` tells a decided question from one never asked.
     */
    method ResolveAnswer(tu: ToolUse, ans: Answer)
      returns (ch: nat, settle: seq<nat>, ok: bool, already: bool, ids: seq<ToolUse>)
      modifies this
      ensures ok == (tu in old(pending)) && already == (tu in old(answered))
      ensures !ok ==> View() == old(View()) && settle == []
      ensures ok ==> ch == old(pending)[tu].ch
      ensures ok && !SessionAllow(ans) ==> View() == Claim(old(View()), tu) && settle == []
      ensures ok && SessionAllow(ans) ==>
                var claimed := Claim(old(View()), tu);
                && View() == Settle(claimed, old(pending)[tu].key.matcher)
                && Distinct(ids) && |settle| == |ids|
                && (forall x :: x in ids <==> x in Covered(claimed.pending, old(pending)[tu].key.matcher))
                && forall i :: 0 <= i < |ids| ==> ids[i] in claimed.pending && settle[i] == claimed.pending[ids[i]].ch
    {
      ch, settle, ids := 0, [], [];
      ok := tu in pending;
      already := tu in answered;
      if ok {
        var pend := pending[tu];
        pending := pending - {tu};
        answered := answered + {tu};
        standing := standing - {tu};
        asking := asking - {pend.key};
        ch := pend.ch;
        if ans.decision == Allow && ans.scope == Session {
          settle, ids := SettleLocked(pend.key.matcher);
        }
      }
    }
  }

  ghost function Elements(ids: seq<ToolUse>): set<ToolUse> {
    set tu | tu in ids
  }

  ghost function KeysOf(pending: map<ToolUse, PendingAsk>, ids: set<ToolUse>): set<Key> {
    set tu | tu in ids && tu in pending :: pending[tu].key
  }

  lemma KeysOfOneMore(pending: map<ToolUse, PendingAsk>, ids: set<ToolUse>, id: ToolUse)
    requires id in pending
    ensures KeysOf(pending, ids + {id}) == KeysOf(pending, ids) + {pending[id].key}
  {
  }

  /** Every question but those in todo has been looked at; the covered ones are gone. */
  ghost predicate Halfway(pending0: map<ToolUse, PendingAsk>, asking0: map<Key, nat>, m: Matcher, todo: set<ToolUse>,
                          gone: set<ToolUse>, pending: map<ToolUse, PendingAsk>, asking: map<Key, nat>) {
    && Covered(pending0, m) == gone + Covered(pending0, m) * todo && gone !! todo
    && pending == pending0 - gone && asking == asking0 - KeysOf(pending0, gone)
  }

  lemma HalfwayStep(pending0: map<ToolUse, PendingAsk>, asking0: map<Key, nat>, m: Matcher, todo: set<ToolUse>,
                    gone: set<ToolUse>, pending: map<ToolUse, PendingAsk>, asking: map<Key, nat>, id: ToolUse)
    requires Halfway(pending0, asking0, m, todo + {id}, gone, pending, asking) && id !in todo && id in pending && todo <= pending.Keys
    ensures id in pending0 && pending[id] == pending0[id] && id !in gone && todo <= pending.Keys - {id}
    ensures if pending[id].key.matcher == m && !pending[id].dangerous
            then Halfway(pending0, asking0, m, todo, gone + {id}, pending - {id}, asking - {pending[id].key})
            else Halfway(pending0, asking0, m, todo, gone, pending, asking)
  {
    KeysOfOneMore(pending0, gone, id);
    assert pending0 - (gone + {id}) == pending0 - gone - {id};
    assert id in Covered(pending0, m) <==> pending[id].key.matcher == m && !pending[id].dangerous;
  }

  lemma HalfwayEnds(pending: map<ToolUse, PendingAsk>, asking: map<Key, nat>, m: Matcher)
    ensures Halfway(pending, asking, m, pending.Keys, {}, pending, asking)
    ensures ListsAll(pending, {}, [], [])
  {
  }

  lemma HalfwayDone(pending0: map<ToolUse, PendingAsk>, asking0: map<Key, nat>, m: Matcher,
                    gone: set<ToolUse>, pending: map<ToolUse, PendingAsk>, asking: map<Key, nat>)
    requires Halfway(pending0, asking0, m, {}, gone, pending, asking)
    ensures gone == Covered(pending0, m)
    ensures pending == pending0 - gone && asking == asking0 - KeysOf(pending0, gone)
  {
  }

  /** ids lists gone, each once, and chans the answer channels of those questions. */
  ghost predicate ListsAll(pending0: map<ToolUse, PendingAsk>, gone: set<ToolUse>, ids: seq<ToolUse>, chans: seq<nat>) {
    && Distinct(ids) && (forall tu :: tu in ids <==> tu in gone)
    && |chans| == |ids| && forall i :: 0 <= i < |ids| ==> ids[i] in pending0 && chans[i] == pending0[ids[i]].ch
  }

  lemma ListsOneMore(pending0: map<ToolUse, PendingAsk>, gone: set<ToolUse>, ids: seq<ToolUse>, chans: seq<nat>, id: ToolUse)
    requires ListsAll(pending0, gone, ids, chans) && id !in gone && id in pending0
    ensures ListsAll(pending0, gone + {id}, ids + [id], chans + [pending0[id].ch])
  {
  }

  /** The abandon channels of the standing questions, one for each. */
  ghost function Channels(standing: map<ToolUse, nat>): multiset<nat>
    decreases |standing|
  {
    if standing == map[] then multiset{}
    else var id :| id in standing; Channels(standing - {id}) + multiset{standing[id]}
  }

  /** Whichever question is taken first, the channels of the rest are what remains. */
  lemma {:induction false} ChannelsMinus(standing: map<ToolUse, nat>, id: ToolUse)
    requires id in standing
    ensures Channels(standing) == Channels(standing - {id}) + multiset{standing[id]}
    decreases |standing|
  {
    var first :| first in standing && Channels(standing) == Channels(standing - {first}) + multiset{standing[first]};
    if first != id {
      var rest := standing - {first} - {id};
      assert rest == standing - {id} - {first};
      ChannelsMinus(standing - {first}, id);
      ChannelsMinus(standing - {id}, first);
    }
  }

  /** Settling after claiming never settles the question just claimed, and no dangerous one. */
  lemma SettleSpares(sh: Shared, tu: ToolUse, ans: Answer)
    requires tu in sh.pending && SessionAllow(ans)
    ensures var claimed := Claim(sh, tu);
            var after := Settle(claimed, sh.pending[tu].key.matcher);
            forall x :: x in sh.pending ==>
              (x in after.pending <==> x != tu && (sh.pending[x].dangerous || sh.pending[x].key.matcher != sh.pending[tu].key.matcher)) &&
              (x !in after.pending ==> x in after.answered && x !in after.standing && sh.pending[x].key !in after.asking)
  {
    var claimed := Claim(sh, tu);
    var m := sh.pending[tu].key.matcher;
    forall x | x in sh.pending && x !in Settle(claimed, m).pending
      ensures sh.pending[x].key !in Settle(claimed, m).asking
    {
      if x != tu {
        assert x in Covered(claimed.pending, m);
      }
    }
  }
}
