/** Which answers are accepted, where they go, and what every result a call takes comes from. */
module AskAnswers {
  import opened Basics
  import opened Question
  import opened AskProtocol
  import opened AskStructure

  type Pending = map<ToolUse, PendingAsk>

  /** Not yet put to anybody. */
  predicate Before(pc: Pc) { pc.Parked? || pc.Dropping? || pc.Raising? }

  /** Published and not yet forgotten. */
  predicate Open(pc: Pc) { pc.Published? || pc.Unheard? || pc.Telling? || pc.Heard? }

  /** Has not yet taken a branch of the select that waits for the answer. */
  predicate Listening(pc: Pc) { pc.Published? || pc.Telling? }

  predicate HasOut(pc: Pc) { pc.Heard? || pc.Retiring? || pc.Closing? || pc.Returned? }

  ghost predicate Accepted(accepted: seq<Acceptance>, c: nat) {
    exists i :: 0 <= i < |accepted| && accepted[i].call == c
  }

  /** Somebody raising the question st was answered a. */
  ghost predicate Grants(accepted: seq<Acceptance>, calls: Calls, st: nat, a: Answer) {
    exists i :: 0 <= i < |accepted| && accepted[i].ans == a && accepted[i].call in calls && calls[accepted[i].call].stand == st
  }

  ghost predicate OutOk(accepted: seq<Acceptance>, calls: Calls, st: nat, out: Outcome) {
    out.Answered? ==> Grants(accepted, calls, st, out.ans)
  }

  /** A pending entry belongs to the one in-flight call of its tool_use id, and is unanswered. */
  ghost predicate PendingOk(d: Key -> bool, calls: Calls, pending: Pending, accepted: seq<Acceptance>) {
    forall tu :: tu in pending ==>
      && pending[tu].ch in calls && calls[pending[tu].ch].toolUse == tu && Open(calls[pending[tu].ch].pc)
      && pending[tu].key == calls[pending[tu].ch].key && pending[tu].dangerous == d(pending[tu].key)
      && !Accepted(accepted, pending[tu].ch)
  }

  /** A published question can be answered until it has been. */
  ghost predicate AnswerableOk(calls: Calls, pending: Pending, accepted: seq<Acceptance>) {
    forall c :: c in calls && Open(calls[c].pc) ==>
      (calls[c].toolUse in pending && pending[calls[c].toolUse].ch == c) || Accepted(accepted, c)
  }

  ghost predicate AcceptedOk(calls: Calls, accepted: seq<Acceptance>) {
    && (forall i :: 0 <= i < |accepted| ==> accepted[i].call in calls && !Before(calls[accepted[i].call].pc))
    && (forall i, j :: 0 <= i < j < |accepted| ==> accepted[i].call != accepted[j].call)
  }

  /** Each accepted answer is sent once, and is there to be received until it has been. */
  ghost predicate SendsOk(calls: Calls, accepted: seq<Acceptance>, unsent: set<nat>, inbox: map<nat, Answer>, sentTo: set<nat>) {
    && (forall i :: i in unsent ==> i < |accepted| && accepted[i].call !in sentTo)
    && (forall c :: c in sentTo ==> Accepted(accepted, c))
    && (forall i :: 0 <= i < |accepted| && i !in unsent && accepted[i].call in calls && Listening(calls[accepted[i].call].pc) ==>
          accepted[i].call in inbox)
    && (forall c :: c in inbox ==> c in sentTo && exists i :: 0 <= i < |accepted| && accepted[i].call == c && accepted[i].ans == inbox[c])
  }

  ghost predicate ResultsOk(calls: Calls, stands: Stands, accepted: seq<Acceptance>) {
    && (forall c :: c in calls && HasOut(calls[c].pc) ==> OutOk(accepted, calls, calls[c].stand, calls[c].pc.out))
    && (forall st :: st in stands && stands[st].done.Some? ==> OutOk(accepted, calls, st, stands[st].done.value))
  }

  /** The operator answered granter's own question with ans. */
  ghost predicate Direct(accepted: seq<Acceptance>, granter: nat, ans: Answer) {
    exists j :: 0 <= j < |accepted| && accepted[j] == Acceptance(granter, ans, granter)
  }

  ghost predicate JustifiedOk(d: Key -> bool, calls: Calls, accepted: seq<Acceptance>) {
    forall i :: 0 <= i < |accepted| ==>
      var a := accepted[i];
      && a.call in calls && a.granter in calls && Direct(accepted, a.granter, a.ans)
      && (a.granter != a.call ==>
            SessionAllow(a.ans) && calls[a.granter].key.matcher == calls[a.call].key.matcher && !d(calls[a.call].key))
  }

  ghost predicate SettlingOk(calls: Calls, accepted: seq<Acceptance>, settling: Option<Settling>) {
    settling.Some? ==>
      && SessionAllow(settling.value.ans) && Direct(accepted, settling.value.granter, settling.value.ans)
      && settling.value.granter in calls && calls[settling.value.granter].key.matcher == settling.value.matcher
  }

  ghost predicate Answers(d: Key -> bool, s: State) {
    && PendingOk(d, s.calls, s.sh.pending, s.accepted)
    && AnswerableOk(s.calls, s.sh.pending, s.accepted)
    && AcceptedOk(s.calls, s.accepted)
    && SendsOk(s.calls, s.accepted, s.unsent, s.inbox, s.sentTo)
    && ResultsOk(s.calls, s.sh.stands, s.accepted)
    && JustifiedOk(d, s.calls, s.accepted)
    && SettlingOk(s.calls, s.accepted, s.settling)
  }

  /** calls' only moves c, or adds it. */
  ghost predicate OneCall(calls: Calls, calls': Calls, c: nat) {
    && c in calls'
    && (forall x :: x != c ==> (x in calls <==> x in calls'))
    && (forall x :: x != c && x in calls ==> calls'[x] == calls[x])
    && (c in calls ==> calls'[c].toolUse == calls[c].toolUse && calls'[c].key == calls[c].key && calls'[c].stand == calls[c].stand && calls'[c].asked == calls[c].asked)
  }

  lemma StillGrants(accepted: seq<Acceptance>, calls: Calls, calls': Calls, c: nat)
    requires OneCall(calls, calls', c)
    ensures forall k, a :: Grants(accepted, calls, k, a) ==> Grants(accepted, calls', k, a)
  {
    forall k, a | Grants(accepted, calls, k, a) ensures Grants(accepted, calls', k, a) {
      var i :| 0 <= i < |accepted| && accepted[i].ans == a && accepted[i].call in calls && calls[accepted[i].call].stand == k;
      assert accepted[i].call in calls' && calls'[accepted[i].call].stand == k;
    }
  }

  lemma MovePending(d: Key -> bool, calls: Calls, calls': Calls, pending: Pending, accepted: seq<Acceptance>, c: nat)
    requires PendingOk(d, calls, pending, accepted) && AnswerableOk(calls, pending, accepted) && OneCall(calls, calls', c)
    requires Open(calls'[c].pc) <==> c in calls && Open(calls[c].pc)
    ensures PendingOk(d, calls', pending, accepted) && AnswerableOk(calls', pending, accepted)
  {
  }

  lemma MoveAccepted(d: Key -> bool, calls: Calls, calls': Calls, accepted: seq<Acceptance>, c: nat)
    requires AcceptedOk(calls, accepted) && JustifiedOk(d, calls, accepted) && OneCall(calls, calls', c)
    requires c in calls && Before(calls'[c].pc) ==> Before(calls[c].pc)
    ensures AcceptedOk(calls', accepted) && JustifiedOk(d, calls', accepted)
  {
  }

  lemma MoveSends(calls: Calls, calls': Calls, accepted: seq<Acceptance>, unsent: set<nat>,
                  inbox: map<nat, Answer>, inbox': map<nat, Answer>, sentTo: set<nat>, c: nat)
    requires SendsOk(calls, accepted, unsent, inbox, sentTo) && AcceptedOk(calls, accepted) && OneCall(calls, calls', c)
    requires inbox' == inbox || (inbox' == inbox - {c} && !Listening(calls'[c].pc))
    requires Listening(calls'[c].pc) ==> c in calls && (Listening(calls[c].pc) || !Accepted(accepted, c))
    ensures SendsOk(calls', accepted, unsent, inbox', sentTo)
  {
  }

  lemma MoveResults(calls: Calls, calls': Calls, stands: Stands, stands': Stands, accepted: seq<Acceptance>, c: nat)
    requires ResultsOk(calls, stands, accepted) && OneCall(calls, calls', c)
    requires HasOut(calls'[c].pc) ==> OutOk(accepted, calls, calls'[c].stand, calls'[c].pc.out)
    requires forall st :: st in stands' && stands'[st].done.Some? ==>
               (st in stands && stands'[st].done == stands[st].done && stands'[st].key == stands[st].key) ||
               OutOk(accepted, calls, st, stands'[st].done.value)
    ensures ResultsOk(calls', stands', accepted)
  {
    StillGrants(accepted, calls, calls', c);
  }

  /** The finished questions stay finished, and a newly finished one has a granted result. */
  ghost predicate StandsMove(s: State, s': State) {
    forall st :: st in s'.sh.stands && s'.sh.stands[st].done.Some? ==>
      (st in s.sh.stands && s'.sh.stands[st].done == s.sh.stands[st].done && s'.sh.stands[st].key == s.sh.stands[st].key) ||
      OutOk(s.accepted, s.calls, st, s'.sh.stands[st].done.value)
  }

  /** A call moves without publishing or forgetting its question. */
  ghost predicate PlainMove(s: State, s': State, c: nat) {
    && OneCall(s.calls, s'.calls, c)
    && s'.sh.pending == s.sh.pending && s'.accepted == s.accepted && s'.unsent == s.unsent
    && s'.sentTo == s.sentTo && s'.settling == s.settling
    && (Open(s'.calls[c].pc) <==> c in s.calls && Open(s.calls[c].pc))
    && (c in s.calls && Before(s'.calls[c].pc) ==> Before(s.calls[c].pc))
    && (HasOut(s'.calls[c].pc) ==> OutOk(s.accepted, s.calls, s'.calls[c].stand, s'.calls[c].pc.out))
    && (s'.inbox == s.inbox || (s'.inbox == s.inbox - {c} && !Listening(s'.calls[c].pc)))
    && (Listening(s'.calls[c].pc) ==> c in s.calls && Listening(s.calls[c].pc))
  }

  lemma MoveAnswers(d: Key -> bool, s: State, s': State, c: nat)
    requires Answers(d, s) && PlainMove(s, s', c) && StandsMove(s, s')
    ensures Answers(d, s')
  {
    hide PendingOk, AnswerableOk, AcceptedOk, SendsOk, ResultsOk, JustifiedOk;
    MovePending(d, s.calls, s'.calls, s.sh.pending, s.accepted, c);
    MoveAccepted(d, s.calls, s'.calls, s.accepted, c);
    MoveSends(s.calls, s'.calls, s.accepted, s.unsent, s.inbox, s'.inbox, s.sentTo, c);
    MoveResults(s.calls, s'.calls, s.sh.stands, s'.sh.stands, s.accepted, c);
  }

  /** Publishing the question under a tool_use id nobody else in flight uses. */
  lemma PublishPends(d: Key -> bool, calls: Calls, calls': Calls, pending: Pending, accepted: seq<Acceptance>,
                     user: map<ToolUse, nat>, c: nat)
    requires PendingOk(d, calls, pending, accepted) && AnswerableOk(calls, pending, accepted) && AcceptedOk(calls, accepted)
    requires UsesOk(calls, user) && OneCall(calls, calls', c) && c in calls && calls[c].pc.Raising? && calls'[c].pc.Published?
    ensures !Accepted(accepted, c)
    ensures PendingOk(d, calls', pending[calls[c].toolUse := PendingAsk(c, calls[c].key, d(calls[c].key))], accepted)
    ensures AnswerableOk(calls', pending[calls[c].toolUse := PendingAsk(c, calls[c].key, d(calls[c].key))], accepted)
  {
  }

  /** Forgetting a question takes nobody else's pending entry away. */
  lemma ForgetPends(d: Key -> bool, calls: Calls, calls': Calls, pending: Pending, accepted: seq<Acceptance>,
                    user: map<ToolUse, nat>, c: nat)
    requires PendingOk(d, calls, pending, accepted) && AnswerableOk(calls, pending, accepted)
    requires UsesOk(calls, user) && OneCall(calls, calls', c) && c in calls && Open(calls[c].pc) && !Open(calls'[c].pc)
    ensures PendingOk(d, calls', pending - {calls[c].toolUse}, accepted)
    ensures AnswerableOk(calls', pending - {calls[c].toolUse}, accepted)
  {
  }

  lemma PublishStep(d: Key -> bool, s: State, c: nat)
    requires Answers(d, s) && UsesOk(s.calls, s.user) && PutEnabled(s, c, PublishPending)
    ensures Answers(d, PutApply(d, s, c, PublishPending))
  {
    hide PendingOk, AnswerableOk, AcceptedOk, SendsOk, ResultsOk, JustifiedOk, UsesOk;
    var s' := PutApply(d, s, c, PublishPending);
    PublishPends(d, s.calls, s'.calls, s.sh.pending, s.accepted, s.user, c);
    MoveAccepted(d, s.calls, s'.calls, s.accepted, c);
    MoveSends(s.calls, s'.calls, s.accepted, s.unsent, s.inbox, s'.inbox, s.sentTo, c);
    MoveResults(s.calls, s'.calls, s.sh.stands, s'.sh.stands, s.accepted, c);
  }

  lemma OutOf(calls: Calls, stands: Stands, accepted: seq<Acceptance>, c: nat)
    requires ResultsOk(calls, stands, accepted) && c in calls
    ensures HasOut(calls[c].pc) ==> OutOk(accepted, calls, calls[c].stand, calls[c].pc.out)
    ensures calls[c].stand in stands && stands[calls[c].stand].done.Some? ==>
              OutOk(accepted, calls, calls[c].stand, stands[calls[c].stand].done.value)
  {
  }

  lemma ForgetStep(d: Key -> bool, s: State, c: nat, act: AskAct)
    requires Answers(d, s) && UsesOk(s.calls, s.user) && PutEnabled(s, c, act) && (act.GiveUp? || act.ForgetIt?)
    ensures Answers(d, PutApply(d, s, c, act))
  {
    hide PendingOk, AnswerableOk, AcceptedOk, SendsOk, ResultsOk, JustifiedOk, UsesOk;
    var s' := PutApply(d, s, c, act);
    OutOf(s.calls, s.sh.stands, s.accepted, c);
    ForgetPends(d, s.calls, s'.calls, s.sh.pending, s.accepted, s.user, c);
    MoveAccepted(d, s.calls, s'.calls, s.accepted, c);
    MoveSends(s.calls, s'.calls, s.accepted, s.unsent, s.inbox, s'.inbox, s.sentTo, c);
    MoveResults(s.calls, s'.calls, s.sh.stands, s'.sh.stands, s.accepted, c);
  }

  // ---- more answers are accepted ----

  /** more are answers to distinct open questions, none of them answered before. */
  ghost predicate NewAnswers(calls: Calls, accepted: seq<Acceptance>, more: seq<Acceptance>) {
    && (forall i :: 0 <= i < |more| ==>
          more[i].call in calls && !Before(calls[more[i].call].pc) && !Accepted(accepted, more[i].call))
    && (forall i, j :: 0 <= i < j < |more| ==> more[i].call != more[j].call)
  }

  lemma AcceptedMore(accepted: seq<Acceptance>, more: seq<Acceptance>)
    ensures forall c :: Accepted(accepted + more, c) <==> Accepted(accepted, c) || Accepted(more, c)
  {
    forall c ensures Accepted(accepted + more, c) <==> Accepted(accepted, c) || Accepted(more, c) {
      if Accepted(accepted, c) {
        var i :| 0 <= i < |accepted| && accepted[i].call == c;
        assert (accepted + more)[i].call == c;
      }
      if Accepted(more, c) {
        var i :| 0 <= i < |more| && more[i].call == c;
        assert (accepted + more)[|accepted| + i].call == c;
      }
    }
  }

  lemma GrowResults(calls: Calls, stands: Stands, accepted: seq<Acceptance>, more: seq<Acceptance>)
    requires ResultsOk(calls, stands, accepted)
    ensures ResultsOk(calls, stands, accepted + more)
  {
    forall k, a | Grants(accepted, calls, k, a) ensures Grants(accepted + more, calls, k, a) {
      var i :| 0 <= i < |accepted| && accepted[i].ans == a && accepted[i].call in calls && calls[accepted[i].call].stand == k;
      assert (accepted + more)[i].ans == a;
    }
  }

  lemma GrowAccepted(calls: Calls, accepted: seq<Acceptance>, more: seq<Acceptance>)
    requires AcceptedOk(calls, accepted) && NewAnswers(calls, accepted, more)
    ensures AcceptedOk(calls, accepted + more)
  {
  }

  lemma GrowSends(calls: Calls, accepted: seq<Acceptance>, more: seq<Acceptance>, unsent: set<nat>,
                  inbox: map<nat, Answer>, sentTo: set<nat>)
    requires SendsOk(calls, accepted, unsent, inbox, sentTo) && NewAnswers(calls, accepted, more)
    ensures SendsOk(calls, accepted + more, unsent + Range(|accepted|, |more|), inbox, sentTo)
  {
    var acc := accepted + more;
    AcceptedMore(accepted, more);
    forall c | c in inbox ensures exists i :: 0 <= i < |acc| && acc[i].call == c && acc[i].ans == inbox[c] {
      var i :| 0 <= i < |accepted| && accepted[i].call == c && accepted[i].ans == inbox[c];
      assert acc[i].call == c && acc[i].ans == inbox[c];
    }
  }

  lemma DirectMore(accepted: seq<Acceptance>, more: seq<Acceptance>, g: nat, ans: Answer)
    requires Direct(accepted, g, ans) || Acceptance(g, ans, g) in more
    ensures Direct(accepted + more, g, ans)
  {
    assert Acceptance(g, ans, g) in accepted + more;
  }

  lemma GrowJustified(d: Key -> bool, calls: Calls, accepted: seq<Acceptance>, more: seq<Acceptance>, g: nat, ans: Answer)
    requires JustifiedOk(d, calls, accepted) && (Direct(accepted, g, ans) || Acceptance(g, ans, g) in more)
    requires forall i :: 0 <= i < |more| ==>
               more[i].call in calls && more[i].granter == g && more[i].ans == ans && g in calls &&
               (g != more[i].call ==>
                  SessionAllow(ans) && calls[g].key.matcher == calls[more[i].call].key.matcher && !d(calls[more[i].call].key))
    ensures JustifiedOk(d, calls, accepted + more)
  {
    DirectMore(accepted, more, g, ans);
    forall i | 0 <= i < |accepted| ensures Direct(accepted + more, accepted[i].granter, accepted[i].ans) {
      DirectMore(accepted, more, accepted[i].granter, accepted[i].ans);
    }
  }

  /** The pending entries that are left after some were answered. */
  lemma GrowPending(d: Key -> bool, calls: Calls, pending: Pending, pending': Pending, accepted: seq<Acceptance>, more: seq<Acceptance>)
    requires PendingOk(d, calls, pending, accepted) && AnswerableOk(calls, pending, accepted)
    requires forall tu :: tu in pending' ==> tu in pending && pending'[tu] == pending[tu] && !Accepted(more, pending[tu].ch)
    requires forall tu :: tu in pending && tu !in pending' ==> Accepted(more, pending[tu].ch)
    ensures PendingOk(d, calls, pending', accepted + more) && AnswerableOk(calls, pending', accepted + more)
  {
    AcceptedMore(accepted, more);
  }

  /** Everything follows when some open questions are answered at once. */
  lemma AcceptStep(d: Key -> bool, s: State, s': State, more: seq<Acceptance>, g: nat, ans: Answer)
    requires Answers(d, s) && s'.calls == s.calls && s'.sh.stands == s.sh.stands
    requires s'.accepted == s.accepted + more && s'.unsent == s.unsent + Range(|s.accepted|, |more|)
    requires s'.inbox == s.inbox && s'.sentTo == s.sentTo
    requires NewAnswers(s.calls, s.accepted, more) && (Direct(s.accepted, g, ans) || Acceptance(g, ans, g) in more)
    requires forall i :: 0 <= i < |more| ==>
               more[i].call in s.calls && more[i].granter == g && more[i].ans == ans && g in s.calls &&
               (g != more[i].call ==>
                  SessionAllow(ans) && s.calls[g].key.matcher == s.calls[more[i].call].key.matcher && !d(s.calls[more[i].call].key))
    requires forall tu :: tu in s'.sh.pending ==> tu in s.sh.pending && s'.sh.pending[tu] == s.sh.pending[tu] && !Accepted(more, s.sh.pending[tu].ch)
    requires forall tu :: tu in s.sh.pending && tu !in s'.sh.pending ==> Accepted(more, s.sh.pending[tu].ch)
    requires s'.settling.Some? ==>
               SessionAllow(ans) && s'.settling.value.ans == ans && s'.settling.value.granter == g && g in s.calls &&
               s.calls[g].key.matcher == s'.settling.value.matcher
    ensures Answers(d, s')
  {
    hide PendingOk, AnswerableOk, AcceptedOk, SendsOk, ResultsOk, JustifiedOk, NewAnswers;
    GrowPending(d, s.calls, s.sh.pending, s'.sh.pending, s.accepted, more);
    GrowAccepted(s.calls, s.accepted, more);
    GrowSends(s.calls, s.accepted, more, s.unsent, s.inbox, s.sentTo);
    GrowResults(s.calls, s.sh.stands, s.accepted, more);
    GrowJustified(d, s.calls, s.accepted, more, g, ans);
    DirectMore(s.accepted, more, g, ans);
  }

  lemma AnswerStep(d: Key -> bool, s: State, tu: ToolUse, ans: Answer)
    requires Answers(d, s) && MuFree(s)
    ensures Answers(d, AnswerApply(s, tu, ans))
  {
    var s' := AnswerApply(s, tu, ans);
    if tu in s.sh.pending {
      var p := s.sh.pending[tu];
      var more := [Acceptance(p.ch, ans, p.ch)];
      assert forall c :: Accepted(more, c) <==> c == p.ch by {
        assert more[0].call == p.ch;
      }
      assert forall u :: u in s.sh.pending && s.sh.pending[u].ch == p.ch ==> u == tu;
      assert NewAnswers(s.calls, s.accepted, more);
      assert Acceptance(p.ch, ans, p.ch) in more;
      hide PendingOk, AnswerableOk, AcceptedOk, SendsOk, ResultsOk, JustifiedOk, NewAnswers, Accepted;
      AcceptStep(d, s, s', more, p.ch, ans);
    }
  }

  lemma SettleStep(d: Key -> bool, s: State, order: seq<ToolUse>)
    requires Answers(d, s) && Enabled(s, SettleAll(order))
    ensures Answers(d, SettleApply(s, order))
  {
    var s' := SettleApply(s, order);
    var g := s.settling.value;
    var more := Settled(s.sh.pending, order, g);
    SettledFacts(d, s, order);
    hide PendingOk, AnswerableOk, AcceptedOk, SendsOk, ResultsOk, JustifiedOk, NewAnswers, Accepted, Direct;
    AcceptStep(d, s, s', more, g.granter, g.ans);
  }

  /** What a session-scope allow settles: the other open, ordinary questions of its matcher, each once. */
  lemma SettledFacts(d: Key -> bool, s: State, order: seq<ToolUse>)
    requires Answers(d, s) && Enabled(s, SettleAll(order))
    ensures var more := Settled(s.sh.pending, order, s.settling.value);
            var g := s.settling.value.granter;
            && NewAnswers(s.calls, s.accepted, more)
            && (forall i :: 0 <= i < |more| ==>
                  more[i].call in s.calls && g in s.calls &&
                  (g != more[i].call ==> s.calls[g].key.matcher == s.calls[more[i].call].key.matcher && !d(s.calls[more[i].call].key)))
            && (forall tu :: tu in s.sh.pending ==> (Accepted(more, s.sh.pending[tu].ch) <==> tu in order))
  {
    var more := Settled(s.sh.pending, order, s.settling.value);
    forall tu | tu in s.sh.pending ensures Accepted(more, s.sh.pending[tu].ch) <==> tu in order {
      if tu in order {
        var i :| 0 <= i < |order| && order[i] == tu;
        assert more[i].call == s.sh.pending[tu].ch;
      }
    }
  }

  lemma SendSends(calls: Calls, accepted: seq<Acceptance>, unsent: set<nat>, inbox: map<nat, Answer>, sentTo: set<nat>, i: nat)
    requires SendsOk(calls, accepted, unsent, inbox, sentTo) && AcceptedOk(calls, accepted) && i in unsent
    ensures i < |accepted| && accepted[i].call !in sentTo
    ensures SendsOk(calls, accepted, unsent - {i}, inbox[accepted[i].call := accepted[i].ans], sentTo + {accepted[i].call})
  {
    assert Accepted(accepted, accepted[i].call);
    var inbox' := inbox[accepted[i].call := accepted[i].ans];
    forall c | c in inbox' ensures exists j :: 0 <= j < |accepted| && accepted[j].call == c && accepted[j].ans == inbox'[c] {
      if c == accepted[i].call { assert accepted[i].ans == inbox'[c]; }
    }
  }

  lemma SendStep(d: Key -> bool, s: State, i: nat)
    requires Answers(d, s) && Enabled(s, Send(i))
    ensures Answers(d, SendApply(s, i)) && s.accepted[i].call !in s.sentTo
  {
    hide PendingOk, AnswerableOk, AcceptedOk, SendsOk, ResultsOk, JustifiedOk;
    SendSends(s.calls, s.accepted, s.unsent, s.inbox, s.sentTo, i);
  }

  // ---- every step keeps the answers straight ----

  /** Every result call c can see, of its own or of its question's, was granted to that question. */
  ghost predicate Sees(s: State, c: nat) {
    && c in s.calls && s.calls[c].stand in s.sh.stands && s.sh.stands[s.calls[c].stand].key == s.calls[c].key
    && (HasOut(s.calls[c].pc) ==> OutOk(s.accepted, s.calls, s.calls[c].stand, s.calls[c].pc.out))
    && (s.sh.stands[s.calls[c].stand].done.Some? ==>
          OutOk(s.accepted, s.calls, s.calls[c].stand, s.sh.stands[s.calls[c].stand].done.value))
    && (c in s.inbox ==> OutOk(s.accepted, s.calls, s.calls[c].stand, Answered(s.inbox[c])))
  }

  lemma SeesGrants(d: Key -> bool, s: State, c: nat)
    requires Answers(d, s) && Structure(s) && c in s.calls
    ensures Sees(s, c)
  {
    if c in s.inbox {
      assert exists i :: 0 <= i < |s.accepted| && s.accepted[i].call == c && s.accepted[i].ans == s.inbox[c];
    }
  }

  lemma OneMove(calls: Calls, c: nat, pc: Pc)
    requires c in calls
    ensures OneCall(calls, At1(calls, c, pc), c)
  {
  }

  lemma TakeMoves(s: State, c: nat, act: LineAct)
    requires Sees(s, c) && LineEnabled(s, c, act) && (act.TakeDone? || act.TakePromote? || act.TakeCancel?)
    ensures PlainMove(s, LineApply(s, c, act), c) && LineApply(s, c, act).sh.stands == s.sh.stands
  {
    OneMove(s.calls, c, LineApply(s, c, act).calls[c].pc);
    hide OutOk, OneCall;
  }

  lemma RetireMoves(s: State, c: nat, act: LineAct)
    requires Sees(s, c) && LineEnabled(s, c, act) && (act.Retire? || act.HandOff?)
    ensures PlainMove(s, LineApply(s, c, act), c) && LineApply(s, c, act).sh.stands == s.sh.stands
  {
    assert OutOk(s.accepted, s.calls, s.calls[c].stand, Cancelled);
    OneMove(s.calls, c, LineApply(s, c, act).calls[c].pc);
    hide OutOk, OneCall;
  }

  lemma DropMoves(s: State, c: nat)
    requires Sees(s, c) && LineEnabled(s, c, DropOut)
    ensures PlainMove(s, LineApply(s, c, DropOut), c) && StandsMove(s, LineApply(s, c, DropOut))
  {
    OneMove(s.calls, c, LineApply(s, c, DropOut).calls[c].pc);
    hide OneCall;
    QueueOnly(s, LineApply(s, c, DropOut), s.calls[c].stand);
  }

  lemma CloseMoves(s: State, c: nat)
    requires Sees(s, c) && LineEnabled(s, c, CloseDone)
    ensures PlainMove(s, LineApply(s, c, CloseDone), c) && StandsMove(s, LineApply(s, c, CloseDone))
  {
    OneMove(s.calls, c, LineApply(s, c, CloseDone).calls[c].pc);
    hide OutOk, OneCall;
  }

  lemma QueueOnly(s: State, s': State, st: nat)
    requires st in s.sh.stands && st in s'.sh.stands && s'.sh.stands == s.sh.stands[st := s'.sh.stands[st]]
    requires s'.sh.stands[st].done == s.sh.stands[st].done && s'.sh.stands[st].key == s.sh.stands[st].key
    ensures StandsMove(s, s')
  {
  }

  lemma PassMoves(s: State, c: nat)
    requires Sees(s, c) && LineEnabled(s, c, LeaveIt) && s.sh.stands[s.calls[c].stand].queue != []
    ensures PlainMove(s, LineApply(s, c, LeaveIt), c) && StandsMove(s, LineApply(s, c, LeaveIt))
  {
    var st := s.calls[c].stand;
    var a := s.sh.stands[st];
    OneMove(s.calls, c, HandingOff(a.queue[0]));
    hide OutOk, OneCall;
    assert LineApply(s, c, LeaveIt).sh.stands == s.sh.stands[st := a.(waiting := a.waiting - 1, queue := a.queue[1..])];
    QueueOnly(s, LineApply(s, c, LeaveIt), st);
  }

  lemma LastMoves(s: State, c: nat)
    requires Sees(s, c) && LineEnabled(s, c, LeaveIt) && s.sh.stands[s.calls[c].stand].queue == []
    ensures PlainMove(s, LineApply(s, c, LeaveIt), c) && StandsMove(s, LineApply(s, c, LeaveIt))
  {
    var st := s.calls[c].stand;
    var a := s.sh.stands[st];
    assert OutOk(s.accepted, s.calls, s.calls[c].stand, Cancelled);
    OneMove(s.calls, c, Closing(Cancelled));
    hide OutOk, OneCall;
    assert LineApply(s, c, LeaveIt).sh.stands == s.sh.stands[st := a.(waiting := a.waiting - 1)];
    QueueOnly(s, LineApply(s, c, LeaveIt), st);
  }

  lemma SameStands(s: State, s': State)
    requires s'.sh.stands == s.sh.stands
    ensures StandsMove(s, s')
  {
  }

  lemma HearMoves(d: Key -> bool, s: State, c: nat, act: AskAct)
    requires Sees(s, c) && PutEnabled(s, c, act) && (act.HearAnswer? || act.HearAbandon? || act.HearCancel?)
    ensures PlainMove(s, PutApply(d, s, c, act), c) && PutApply(d, s, c, act).sh.stands == s.sh.stands
  {
    OneMove(s.calls, c, PutApply(d, s, c, act).calls[c].pc);
    hide OneCall, Stand, Publish, Forget, AskerSubs, Ids;
  }

  lemma TellMoves(d: Key -> bool, s: State, c: nat)
    requires Sees(s, c) && PutEnabled(s, c, Tell)
    ensures PlainMove(s, PutApply(d, s, c, Tell), c) && PutApply(d, s, c, Tell).sh.stands == s.sh.stands
  {
    OneMove(s.calls, c, PutApply(d, s, c, Tell).calls[c].pc);
    hide OneCall, OutOk, Stand, Publish, Forget, AskerSubs, Ids;
  }

  lemma StandMoves(d: Key -> bool, s: State, c: nat)
    requires Sees(s, c) && PutEnabled(s, c, StandUp)
    ensures PlainMove(s, PutApply(d, s, c, StandUp), c) && PutApply(d, s, c, StandUp).sh.stands == s.sh.stands
  {
    OneMove(s.calls, c, PutApply(d, s, c, StandUp).calls[c].pc);
    hide OneCall, OutOk, Publish, Forget, AskerSubs, Ids;
  }

  lemma PutMoves(d: Key -> bool, s: State, c: nat, act: AskAct)
    requires Sees(s, c) && PutEnabled(s, c, act) && !act.PublishPending? && !act.GiveUp? && !act.ForgetIt?
    ensures PlainMove(s, PutApply(d, s, c, act), c) && PutApply(d, s, c, act).sh.stands == s.sh.stands
  {
    hide PlainMove, PutApply, Sees;
    if act.StandUp? { StandMoves(d, s, c); } else if act.Tell? { TellMoves(d, s, c); } else { HearMoves(d, s, c, act); }
  }

  /** The steps that move one call and leave its pending entry alone. */
  lemma LinesAnswers(d: Key -> bool, s: State, c: nat, act: LineAct)
    requires Answers(d, s) && Structure(s) && LineEnabled(s, c, act)
    ensures Answers(d, LineApply(s, c, act))
  {
    assert c in s.calls && s.calls[c].stand in s.sh.stands;
    hide Answers, Structure, PlainMove, StandsMove, LineApply, Sees, LineEnabled;
    SeesGrants(d, s, c);
    match act {
    case LeaveIt => if s.sh.stands[s.calls[c].stand].queue != [] { PassMoves(s, c); } else { LastMoves(s, c); }
    case DropOut => DropMoves(s, c);
    case CloseDone => CloseMoves(s, c);
    case Retire => RetireMoves(s, c, act); SameStands(s, LineApply(s, c, act));
    case HandOff => RetireMoves(s, c, act); SameStands(s, LineApply(s, c, act));
    case _ => TakeMoves(s, c, act); SameStands(s, LineApply(s, c, act));
    }
    MoveAnswers(d, s, LineApply(s, c, act), c);
  }

  lemma PutsAnswers(d: Key -> bool, s: State, c: nat, act: AskAct)
    requires Answers(d, s) && Structure(s) && PutEnabled(s, c, act)
    ensures Answers(d, PutApply(d, s, c, act))
  {
    assert UsesOk(s.calls, s.user);
    hide Answers, Structure, PlainMove, PutApply, Sees, UsesOk;
    if act.PublishPending? {
      PublishStep(d, s, c);
    } else if act.GiveUp? || act.ForgetIt? {
      ForgetStep(d, s, c, act);
    } else {
      SeesGrants(d, s, c);
      PutMoves(d, s, c, act);
      MoveAnswers(d, s, PutApply(d, s, c, act), c);
    }
  }

  lemma EntersStep(d: Key -> bool, s: State, c: nat, tu: ToolUse, key: Key)
    requires Answers(d, s) && Enabled(s, Enter(c, tu, key))
    ensures Answers(d, EnterApply(s, c, tu, key))
  {
    EntersMove(s, c, tu, key);
    hide Answers, PlainMove, StandsMove, EnterApply;
    MoveAnswers(d, s, EnterApply(s, c, tu, key), c);
  }

  lemma JoinMoves(s: State, c: nat, tu: ToolUse, key: Key)
    requires Enabled(s, Enter(c, tu, key)) && key in s.sh.asking
    ensures PlainMove(s, EnterApply(s, c, tu, key), c) && StandsMove(s, EnterApply(s, c, tu, key))
  {
    hide OutOk;
  }

  lemma CreateMoves(s: State, c: nat, tu: ToolUse, key: Key)
    requires Enabled(s, Enter(c, tu, key)) && key !in s.sh.asking
    ensures PlainMove(s, EnterApply(s, c, tu, key), c) && StandsMove(s, EnterApply(s, c, tu, key))
  {
    hide OutOk;
  }

  lemma EntersMove(s: State, c: nat, tu: ToolUse, key: Key)
    requires Enabled(s, Enter(c, tu, key))
    ensures PlainMove(s, EnterApply(s, c, tu, key), c) && StandsMove(s, EnterApply(s, c, tu, key))
  {
    hide PlainMove, StandsMove, EnterApply;
    if key in s.sh.asking { JoinMoves(s, c, tu, key); } else { CreateMoves(s, c, tu, key); }
  }

  /** Every step keeps the answers straight. */
  lemma AnswersStep(d: Key -> bool, s: State, step: Step)
    requires Answers(d, s) && Structure(s) && Enabled(s, step)
    ensures Answers(d, Apply(d, s, step))
  {
    hide Answers, Structure;
    match step
    case Enter(c, tu, key) => EntersStep(d, s, c, tu, key);
    case Line(c, act) => LinesAnswers(d, s, c, act);
    case Put(c, act) => PutsAnswers(d, s, c, act);
    case AnswerIt(tu, ans) => AnswerStep(d, s, tu, ans);
    case SettleAll(order) => SettleStep(d, s, order);
    case Send(i) => SendStep(d, s, i);
    case _ => SameAnswers(d, s, Apply(d, s, step));
  }

  lemma SameAnswers(d: Key -> bool, s: State, s': State)
    requires Answers(d, s) && s'.calls == s.calls && s'.sh.stands == s.sh.stands && s'.sh.pending == s.sh.pending
    requires s'.accepted == s.accepted && s'.unsent == s.unsent && s'.inbox == s.inbox && s'.sentTo == s.sentTo
    requires s'.settling == s.settling
    ensures Answers(d, s')
  {
    hide PendingOk, AnswerableOk, AcceptedOk, SendsOk, ResultsOk, JustifiedOk;
  }
}
