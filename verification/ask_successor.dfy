/**
 Which entry an answer takes off the table. An answer deletes the entry at the key of the question
 it answers. That is the question's own unless the question outlived an earlier answer: its
 raiser left without taking that answer, the call behind it raised the question again, and a
 later call has meanwhile found no entry and made its own.
 */
module AskSuccessor {
  import opened Basics
  import opened Question
  import opened AskProtocol
  import opened AskStructure
  import opened AskAnswers
  import opened AskEntries
  import opened AskTheorems

  /** The question a pending entry was published for. */
  ghost function Asked(s: State, tu: ToolUse): nat
    requires tu in s.sh.pending && s.sh.pending[tu].ch in s.calls
  {
    s.calls[s.sh.pending[tu].ch].stand
  }

  /** Answering tu takes the entry of a question other than the one it answers off the table. */
  ghost predicate DropsOther(s: State, tu: ToolUse, ans: Answer)
    requires MuFree(s) && tu in s.sh.pending && s.sh.pending[tu].ch in s.calls
  {
    exists k :: k in s.sh.asking && k !in AnswerApply(s, tu, ans).sh.asking && s.sh.asking[k] != Asked(s, tu)
  }

  /** A pending question's entry is on the table exactly until the first answer accepted under its key since its raiser asked. */
  lemma EntryKeptIff(d: Key -> bool, tr: seq<State>, i: nat, tu: ToolUse)
    requires Run(d, tr) && i < |tr| && tu in tr[i].sh.pending
    ensures var s, c := tr[i], tr[i].sh.pending[tu].ch;
            c in s.calls && s.calls[c].key == s.sh.pending[tu].key && (OnTable(s.calls, s.sh.asking, c) <==> !AnsweredSince(s.calls, s.accepted, c))
  {
    RunInv(d, tr, i);
    PendingEntry(d, tr[i], tu);
  }

  lemma PendingEntry(d: Key -> bool, s: State, tu: ToolUse)
    requires Inv(d, s) && tu in s.sh.pending
    ensures var c := s.sh.pending[tu].ch;
            c in s.calls && s.calls[c].key == s.sh.pending[tu].key && (OnTable(s.calls, s.sh.asking, c) <==> !AnsweredSince(s.calls, s.accepted, c))
  {
    var c := s.sh.pending[tu].ch;
    assert PendingOk(d, s.calls, s.sh.pending, s.accepted) && SoleOk(s.calls, s.sh.stands, s.holder) && Entries(s);
    hide Inv;
    assert Holds(s.calls, s.sh.stands, c);
    assert Held(s.calls, s.sh.stands, s.holder, s.calls[c].stand);
    hide Held, AnsweredSince, OnTable;
  }

  /**
   So an answer drops another question's entry exactly when one stands at the key although an
   answer under that key was accepted after the question being answered was asked.
   */
  lemma DropsOtherIff(d: Key -> bool, tr: seq<State>, i: nat, tu: ToolUse, ans: Answer)
    requires Run(d, tr) && i < |tr| && MuFree(tr[i]) && tu in tr[i].sh.pending
    ensures var s, p := tr[i], tr[i].sh.pending[tu];
            p.ch in s.calls && (DropsOther(s, tu, ans) <==> p.key in s.sh.asking && AnsweredSince(s.calls, s.accepted, p.ch))
  {
    EntryKeptIff(d, tr, i, tu);
    var s, p := tr[i], tr[i].sh.pending[tu];
    hide AnsweredSince, Run;
    assert p.key !in AnswerApply(s, tu, ans).sh.asking;
  }

  // ---- a run that falls short ----

  lemma Go(d: Key -> bool, tr: seq<State>, step: Step) returns (r: seq<State>)
    requires Run(d, tr) && Enabled(tr[|tr| - 1], step)
    ensures Run(d, r) && |r| == |tr| + 1 && r[|tr|] == Apply(d, tr[|tr| - 1], step)
  {
    var s := Apply(d, tr[|tr| - 1], step);
    assert Next(d, tr[|tr| - 1], s);
    hide Next, Init;
    r := tr + [s];
  }

  /** What the run below needs to know of a state. */
  ghost predicate Scene(s: State, pending: map<ToolUse, PendingAsk>, asking: map<Key, nat>, stands: Stands, calls: Calls) {
    && s.sh.pending == pending && s.sh.asking == asking && s.sh.stands == stands && s.calls == calls
    && s.sh.subs == [Sub(0, 0, true)] && s.settling == None
  }

  /** A question nobody has answered, with this line behind its holder. */
  ghost function Asks(k: Key, queue: seq<nat>): StandingAsk { StandingAsk(k, None, 1 + |queue|, queue) }

  ghost function First(k: Key, pc: Pc): Call { Call("a", k, 0, pc, 0) }

  ghost function Second(k: Key, pc: Pc): Call { Call("b", k, 0, pc, 0) }

  ghost function Third(k: Key, pc: Pc): Call { Call("c", k, 2, pc, 1) }

  lemma Attached(d: Key -> bool) returns (tr: seq<State>)
    ensures Run(d, tr) && |tr| > 0 && Scene(tr[|tr| - 1], map[], map[], map[], map[]) && tr[|tr| - 1].accepted == []
  {
    var s := State(Shared(map[], map[], map[], map[], {}, []), map[], map[], map[], map[], map[], {}, {}, map[], {}, [], {}, None, map[], {}, multiset{}, 0, false);
    assert Run(d, [s]);
    tr := Go(d, [s], Attach(0, true));
  }

  /** A call raises the question and another queues behind it. */
  lemma TwoAsk(d: Key -> bool, k: Key) returns (tr: seq<State>)
    ensures Run(d, tr) && |tr| > 0 && tr[|tr| - 1].accepted == []
    ensures Scene(tr[|tr| - 1], map[], map[k := 0], map[0 := Asks(k, [1])], map[0 := First(k, Raising), 1 := Second(k, Parked)])
  {
    tr := Attached(d);
    hide Run;
    tr := Go(d, tr, Enter(0, "a", k));
    assert Scene(tr[|tr| - 1], map[], map[k := 0], map[0 := Asks(k, [])], map[0 := First(k, Raising)]);
    tr := Go(d, tr, Enter(1, "b", k));
    assert [] + [1] == [1] && tr[|tr| - 1].sh.stands[0] == Asks(k, [1]);
  }

  lemma FirstPublishes(d: Key -> bool, k: Key) returns (tr: seq<State>)
    ensures Run(d, tr) && |tr| > 0 && tr[|tr| - 1].accepted == []
    ensures Scene(tr[|tr| - 1], map["a" := PendingAsk(0, k, d(k))], map[k := 0], map[0 := Asks(k, [1])],
                  map[0 := First(k, Published), 1 := Second(k, Parked)])
  {
    tr := TwoAsk(d, k);
    hide Run;
    tr := Go(d, tr, Put(0, PublishPending));
  }

  lemma OneAsker()
    ensures AskerSubs([Sub(0, 0, true)]) == [Sub(0, 0, true)] && Ids([Sub(0, 0, true)]) == [0]
  {
  }

  lemma FirstStands(d: Key -> bool, k: Key) returns (tr: seq<State>)
    ensures Run(d, tr) && |tr| > 0 && tr[|tr| - 1].accepted == []
    ensures Scene(tr[|tr| - 1], map["a" := PendingAsk(0, k, d(k))], map[k := 0], map[0 := Asks(k, [1])],
                  map[0 := First(k, AskProtocol.Telling([0])), 1 := Second(k, Parked)])
  {
    tr := FirstPublishes(d, k);
    hide Run;
    hide AskerSubs, Ids;
    OneAsker();
    tr := Go(d, tr, Put(0, StandUp));
  }

  lemma FirstTells(d: Key -> bool, k: Key) returns (tr: seq<State>)
    ensures Run(d, tr) && |tr| > 0 && tr[|tr| - 1].accepted == []
    ensures Scene(tr[|tr| - 1], map["a" := PendingAsk(0, k, d(k))], map[k := 0], map[0 := Asks(k, [1])],
                  map[0 := First(k, AskProtocol.Telling([])), 1 := Second(k, Parked)])
  {
    tr := FirstStands(d, k);
    hide Run;
    tr := Go(d, tr, Put(0, Tell));
    assert [0][1..] == [];
  }

  const No: Answer := Answer(Deny, Once, "")

  /** The operator answers just as the raiser's own context ends, and the raiser takes that branch. */
  lemma FirstCancelled(d: Key -> bool, k: Key) returns (tr: seq<State>)
    ensures Run(d, tr) && |tr| > 0 && tr[|tr| - 1].accepted == [Acceptance(0, No, 0)]
    ensures Scene(tr[|tr| - 1], map[], map[], map[0 := Asks(k, [1])], map[0 := First(k, Heard(Cancelled)), 1 := Second(k, Parked)])
  {
    tr := FirstTells(d, k);
    hide Run;
    tr := Go(d, tr, AnswerIt("a", No));
    assert Scene(tr[|tr| - 1], map[], map[], map[0 := Asks(k, [1])], map[0 := First(k, AskProtocol.Telling([])), 1 := Second(k, Parked)]);
    tr := Go(d, tr, Put(0, HearCancel));
  }

  lemma FirstForgets(d: Key -> bool, k: Key) returns (tr: seq<State>)
    ensures Run(d, tr) && |tr| > 0 && tr[|tr| - 1].accepted == [Acceptance(0, No, 0)]
    ensures Scene(tr[|tr| - 1], map[], map[], map[0 := Asks(k, [1])], map[0 := First(k, Leaving), 1 := Second(k, Parked)])
  {
    tr := FirstCancelled(d, k);
    hide Run;
    tr := Go(d, tr, Put(0, ForgetIt));
  }

  lemma FirstLeaves(d: Key -> bool, k: Key) returns (tr: seq<State>)
    ensures Run(d, tr) && |tr| > 0 && tr[|tr| - 1].accepted == [Acceptance(0, No, 0)]
    ensures Scene(tr[|tr| - 1], map[], map[], map[0 := Asks(k, [])], map[0 := First(k, HandingOff(1)), 1 := Second(k, Parked)])
  {
    tr := FirstForgets(d, k);
    hide Run;
    assert [1][1..] == [];
    tr := Go(d, tr, Line(0, LeaveIt));
  }

  lemma FirstHandsOn(d: Key -> bool, k: Key) returns (tr: seq<State>)
    ensures Run(d, tr) && |tr| > 0 && tr[|tr| - 1].accepted == [Acceptance(0, No, 0)] && 1 in tr[|tr| - 1].promoted
    ensures Scene(tr[|tr| - 1], map[], map[], map[0 := Asks(k, [])], map[0 := First(k, Returned(Cancelled)), 1 := Second(k, Parked)])
  {
    tr := FirstLeaves(d, k);
    hide Run;
    tr := Go(d, tr, Line(0, HandOff));
  }

  lemma SecondPublishes(d: Key -> bool, k: Key) returns (tr: seq<State>)
    ensures Run(d, tr) && |tr| > 0 && tr[|tr| - 1].accepted == [Acceptance(0, No, 0)]
    ensures Scene(tr[|tr| - 1], map["b" := PendingAsk(1, k, d(k))], map[], map[0 := Asks(k, [])],
                  map[0 := First(k, Returned(Cancelled)), 1 := Second(k, Published)])
  {
    tr := FirstHandsOn(d, k);
    hide Run;
    tr := Go(d, tr, Line(1, TakePromote));
    assert Scene(tr[|tr| - 1], map[], map[], map[0 := Asks(k, [])], map[0 := First(k, Returned(Cancelled)), 1 := Second(k, Raising)]);
    tr := Go(d, tr, Put(1, PublishPending));
  }

  lemma ThirdAsks(d: Key -> bool, k: Key) returns (tr: seq<State>)
    ensures Run(d, tr) && |tr| > 0
    ensures Scene(tr[|tr| - 1], map["b" := PendingAsk(1, k, d(k))], map[k := 2], map[0 := Asks(k, []), 2 := Asks(k, [])],
                  map[0 := First(k, Returned(Cancelled)), 1 := Second(k, Published), 2 := Third(k, Raising)])
  {
    tr := SecondPublishes(d, k);
    hide Run;
    tr := Go(d, tr, Enter(2, "c", k));
  }

  /**
   For any input at all: a key holds two pending entries, and answering the older question takes
   the newer one's entry off the table while that one is still being asked.
   */
  lemma SuccessorDropped(d: Key -> bool, k: Key) returns (tr: seq<State>)
    ensures Run(d, tr) && |tr| > 0
    ensures var s := tr[|tr| - 1];
            && MuFree(s) && "b" in s.sh.pending && "c" in s.sh.pending && s.sh.pending["b"].key == k && s.sh.pending["c"].key == k
            && s.sh.pending["b"].ch in s.calls && s.sh.pending["c"].ch in s.calls && Asked(s, "b") != Asked(s, "c")
            && s.sh.asking == map[k := Asked(s, "c")]
            && forall ans :: DropsOther(s, "b", ans) && "c" in AnswerApply(s, "b", ans).sh.pending
  {
    tr := ThirdAsks(d, k);
    hide Run;
    tr := Go(d, tr, Put(2, PublishPending));
    var s := tr[|tr| - 1];
    forall ans ensures DropsOther(s, "b", ans) && "c" in AnswerApply(s, "b", ans).sh.pending {
      assert k !in AnswerApply(s, "b", ans).sh.asking;
    }
  }
}
