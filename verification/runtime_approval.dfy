/**
 A runtime asks for approval; the asker's answer, the asker's disconnection, a timeout, the end
 of the server, the runtime's own resolution and the end of the item race to decide it. A step
 is one section of the session's lock, one write of the log, one channel send or close.
 */
module RuntimeApproval {
  import opened Basics

  datatype Decision = Allow | Deny | OtherDecision(d: string)
  datatype Scope = Once | Session | OtherScope(s: string)
  datatype Kind = Command | FileChange | Permissions

  datatype Answer = Answer(decision: Decision, scope: Scope, reason: string, granted: seq<string>)

  datatype Question = Question(id: string, turn: string, item: string, kind: Kind, scopes: seq<Scope>, permissions: seq<string>)

  /** An answer an asker may give: a deny that grants nothing, or an allow of an offered scope and of requested permissions. */
  ghost predicate Acceptable(q: Question, a: Answer) {
    && a.reason != ""
    && (a.decision == Deny || a.decision == Allow)
    && (a.decision == Deny ==> a.scope == Once && a.granted == [])
    && (a.decision == Allow ==> a.scope in q.scopes && (a.granted != [] ==> q.kind == Permissions) && forall g :: g in a.granted ==> g in q.permissions)
  }

  method ValidateAnswer(q: Question, a: Answer) returns (ok: bool)
    ensures ok <==> Acceptable(q, a)
  {
    if a.reason == "" {
      return false;
    }
    if a.decision != Allow && a.decision != Deny {
      return false;
    }
    if a.decision == Deny {
      return a.scope == Once && |a.granted| == 0;
    }
    if a.scope !in q.scopes {
      return false;
    }
    if q.kind != Permissions && |a.granted| > 0 {
      return false;
    }
    var i := 0;
    while i < |a.granted|
      invariant 0 <= i <= |a.granted|
      invariant forall j :: 0 <= j < i ==> a.granted[j] in q.permissions
    {
      if a.granted[i] !in q.permissions {
        return false;
      }
      i := i + 1;
    }
    return true;
  }

  function DenyFor(reason: string): Answer {
    Answer(Deny, Once, if reason == "" then "runtime approval denied" else reason, [])
  }

  // ---- every interleaving ----

  /** Who decided. */
  datatype By = ByAsker | ByStale | ByNoAsker | ByDisconnect | ByTimeout | ByShutdown

  datatype Entry = Entry(ans: Answer, who: By)

  /** Where the party that claimed an approval for somebody else is. */
  datatype Stage = ToRecord(ans: Answer) | ToSend(ans: Answer) | Sent(ans: Answer)

  datatype Job = Job(who: By, stage: Stage)

  /** Where the requester is. */
  datatype ReqPc =
    | Waiting                   // in the select
    | Finishing(who: By)         // took another branch than the answer's, before trying to claim
    | Recording(who: By)         // claimed it itself
    | Awaiting                  // lost the claim, receives the winner's answer
    | Returned(ans: Answer)

  datatype State = State(
    questions: map<nat, Question>,
    table: map<string, nat>,       // pending approvals, by request id
    known: map<string, bool>,      // request ids used in this turn, and whether decided
    claims: map<nat, By>,          // approvals marked answered, and by whom
    jobs: map<nat, Job>,
    reqs: map<nat, ReqPc>,
    log: map<nat, Entry>,          // decisions the log accepted
    inbox: map<nat, Answer>,       // answer channels holding a value
    abandoned: set<nat>, toClose: set<nat>, abandonClosed: set<nat>,
    registered: set<nat>,          // approvals that were put to askers
    fault: bool)                   // claimed, logged, sent to or closed a second time

  datatype Step =
    | Register(p: nat, q: Question, heard: bool, logged: bool)
    | AskerAnswers(id: string, ans: Answer, current: bool)
    | Record(p: nat, ok: bool) | Send(p: nat)
    | Resolve(ids: set<string>) | FailItem(ids: set<string>)
    | Abandon | CloseAbandon(p: nat)
    | Hear(p: nat) | Leave(p: nat, who: By) | Finish(p: nat) | RecordSelf(p: nat, ok: bool) | TakeAwaited(p: nat)
    | EndTurn

  ghost predicate Enabled(s: State, step: Step) {
    match step
    case Register(p, q, heard, logged) => p !in s.reqs
    case AskerAnswers(id, ans, current) => id in s.table ==> s.table[id] in s.questions
    case Record(p, ok) => p in s.jobs && s.jobs[p].stage.ToRecord?
    case Send(p) => p in s.jobs && s.jobs[p].stage.ToSend?
    case Resolve(ids) => true
    case FailItem(ids) => true
    case Abandon => true
    case CloseAbandon(p) => p in s.toClose
    case Hear(p) => p in s.reqs && s.reqs[p].Waiting? && p in s.inbox
    case Leave(p, who) => p in s.reqs && s.reqs[p].Waiting? && who in {ByDisconnect, ByTimeout, ByShutdown} && (who == ByDisconnect ==> p in s.abandonClosed)
    case Finish(p) => p in s.reqs && s.reqs[p].Finishing? && p in s.questions
    case RecordSelf(p, ok) => p in s.reqs && s.reqs[p].Recording?
    case TakeAwaited(p) => p in s.reqs && s.reqs[p].Awaiting? && p in s.inbox
    case EndTurn => true
  }

  /** RequestApproval up to its select, for a question bound to the current turn. */
  ghost function RegisterApply(s: State, p: nat, q: Question): (r: State)
    ensures r.claims == s.claims
  {
    s.(questions := s.questions[p := q], table := s.table[q.id := p], known := s.known[q.id := false], reqs := s.reqs[p := Waiting],
       registered := s.registered + {p})
  }

  ghost function ReusedApply(s: State, p: nat, q: Question): (r: State)
    ensures r.claims == s.claims
  {
    s.(questions := s.questions[p := q], reqs := s.reqs[p := Returned(DenyFor("runtime approval refused"))])
  }

  ghost function UnheardApply(s: State, p: nat, q: Question, logged: bool): (r: State)
    ensures r.claims == s.claims
  {
    var deny := DenyFor("no asker is attached");
    s.(questions := s.questions[p := q], known := s.known[q.id := true], reqs := s.reqs[p := Returned(deny)],
       log := if logged then s.log[p := Entry(deny, ByNoAsker)] else s.log)
  }

  /** An answer is taken for a pending approval nobody has decided, whose asker is still there and whose turn and item are current. */
  ghost predicate Takes(s: State, id: string, ans: Answer, current: bool) {
    && id in s.table && s.table[id] in s.questions && s.table[id] !in s.claims && s.table[id] !in s.abandoned
    && !(id in s.known && s.known[id]) && current && Acceptable(s.questions[s.table[id]], ans)
  }

  ghost function AnswerApply(s: State, id: string, ans: Answer): State
    requires id in s.table
  {
    var p := s.table[id];
    s.(claims := s.claims[p := ByAsker], known := s.known[id := true], jobs := s.jobs[p := Job(ByAsker, ToRecord(ans))],
       fault := s.fault || p in s.claims)
  }

  /** What is sent once the decision was put to the log: an asker's answer only if the log took it. */
  ghost function ToTell(job: Job, ok: bool): Answer {
    if job.who == ByAsker && !ok then DenyFor("could not persist runtime approval") else job.stage.ans
  }

  ghost function RecordApply(s: State, p: nat, ok: bool): (r: State)
    requires p in s.jobs
    ensures r.claims == s.claims
  {
    var job := s.jobs[p];
    s.(log := if ok then s.log[p := Entry(job.stage.ans, job.who)] else s.log, fault := s.fault || p in s.log,
       jobs := s.jobs[p := job.(stage := ToSend(ToTell(job, ok)))])
  }

  ghost function SendApply(s: State, p: nat): (r: State)
    requires p in s.jobs
    ensures r.claims == s.claims
  {
    var ans := s.jobs[p].stage.ans;
    s.(inbox := s.inbox[p := ans], fault := s.fault || p in s.inbox, jobs := s.jobs[p := s.jobs[p].(stage := Sent(ans))])
  }

  /** The undecided approvals filed under ids. */
  ghost function Undecided(s: State, ids: set<string>): set<nat> {
    set id | id in ids && id in s.table && s.table[id] !in s.claims :: s.table[id]
  }

  ghost function Denials(ps: set<nat>, why: string): map<nat, Job> {
    map p | p in ps :: Job(ByStale, ToRecord(DenyFor(why)))
  }

  ghost function Stales(ps: set<nat>): map<nat, By> {
    map p | p in ps :: ByStale
  }

  /** Claims every undecided approval under ids for a denial, and takes gone off the table. */
  ghost function StaleApply(s: State, ids: set<string>, gone: set<string>, why: string): State {
    var ps := Undecided(s, ids);
    s.(table := s.table - gone,
       claims := s.claims + Stales(ps),
       known := s.known + map id | id in ids && id in s.table && s.table[id] !in s.claims :: true,
       jobs := s.jobs + Denials(ps, why))
  }

  ghost function AbandonApply(s: State): (r: State)
    ensures r.claims == s.claims
  {
    var ps := set id | id in s.table && s.table[id] !in s.claims && s.table[id] !in s.abandoned :: s.table[id];
    s.(abandoned := s.abandoned + ps, toClose := s.toClose + ps)
  }

  ghost function At(s: State, p: nat, pc: ReqPc): (r: State)
    ensures r.claims == s.claims
  {
    s.(reqs := s.reqs[p := pc])
  }

  ghost function ClaimSelfApply(s: State, p: nat): State
    requires p in s.questions && p in s.reqs && s.reqs[p].Finishing?
  {
    var who, id := s.reqs[p].who, s.questions[p].id;
    s.(claims := s.claims[p := who], known := s.known[id := true], table := if who == ByDisconnect then s.table else s.table - {id},
       reqs := s.reqs[p := Recording(who)])
  }

  ghost function RecordSelfApply(s: State, p: nat, ok: bool): (r: State)
    requires p in s.reqs && s.reqs[p].Recording?
    ensures r.claims == s.claims
  {
    var deny := DenyFor("asker disconnected, timed out or server shutting down");
    s.(log := if ok then s.log[p := Entry(deny, s.reqs[p].who)] else s.log, fault := s.fault || p in s.log, reqs := s.reqs[p := Returned(deny)])
  }

  ghost function TakeApply(s: State, p: nat): (r: State)
    requires p in s.inbox
    ensures r.claims == s.claims
  {
    s.(inbox := s.inbox - {p}, reqs := s.reqs[p := Returned(s.inbox[p])])
  }

  ghost function Apply(s: State, step: Step): State
    requires Enabled(s, step)
  {
    match step
    case Register(p, q, heard, logged) =>
      if q.id in s.known then ReusedApply(s, p, q) else if heard then RegisterApply(s, p, q) else UnheardApply(s, p, q, logged)
    case AskerAnswers(id, ans, current) => if Takes(s, id, ans, current) then AnswerApply(s, id, ans) else s
    case Record(p, ok) => RecordApply(s, p, ok)
    case Send(p) => SendApply(s, p)
    case Resolve(ids) => StaleApply(s, ids, ids, "runtime approval became stale")
    case FailItem(ids) =>
      StaleApply(s, ids, set id | id in ids && id in s.table && s.table[id] !in s.claims, "runtime approval item completed")
    case Abandon => AbandonApply(s)
    case CloseAbandon(p) => s.(toClose := s.toClose - {p}, abandonClosed := s.abandonClosed + {p}, fault := s.fault || p in s.abandonClosed)
    case Hear(p) => TakeApply(s, p)
    case Leave(p, who) => At(s, p, Finishing(who))
    case Finish(p) => if p in s.claims then At(s, p, Awaiting) else ClaimSelfApply(s, p)
    case RecordSelf(p, ok) => RecordSelfApply(s, p, ok)
    case TakeAwaited(p) => TakeApply(s, p)
    case EndTurn => s.(known := map[])
  }

  ghost predicate Init(s: State) {
    s.questions == map[] && s.table == map[] && s.known == map[] && s.claims == map[] && s.jobs == map[] && s.reqs == map[] &&
    s.log == map[] && s.inbox == map[] && s.abandoned == {} && s.toClose == {} && s.abandonClosed == {} && s.registered == {} && !s.fault
  }

  ghost predicate Next(s: State, s': State) {
    exists step :: Enabled(s, step) && s' == Apply(s, step)
  }

  ghost predicate Run(tr: seq<State>) {
    |tr| > 0 && Init(tr[0]) && forall i :: 0 <= i < |tr| - 1 ==> Next(tr[i], tr[i + 1])
  }

  // ---- the invariant ----

  /** The table holds requests that got as far as their select. */
  ghost predicate TableOk(table: map<string, nat>, questions: map<nat, Question>, reqs: map<nat, ReqPc>, claims: map<nat, By>) {
    && questions.Keys == reqs.Keys
    && (forall id :: id in table ==> table[id] in reqs && (table[id] in claims || reqs[table[id]].Waiting? || reqs[table[id]].Finishing?))
  }

  /** A claim is the requester's own or another party's job, never both, and every party is where its claim puts it. */
  ghost predicate ClaimsOk(claims: map<nat, By>, jobs: map<nat, Job>, reqs: map<nat, ReqPc>) {
    && (forall p :: p in jobs ==> p in claims && jobs[p].who == claims[p] && p in reqs && !reqs[p].Recording?)
    && (forall p :: p in claims ==> p in reqs && (p in jobs || reqs[p].Recording? || reqs[p].Returned?))
    && (forall p :: p in reqs && reqs[p].Awaiting? ==> p in jobs)
    && (forall p :: p in reqs && reqs[p].Recording? ==> p in claims && claims[p] == reqs[p].who)
  }

  /** An allow may be told only if it is an asker's, acceptable, and in the log. */
  ghost predicate Backed(questions: map<nat, Question>, log: map<nat, Entry>, p: nat, ans: Answer) {
    ans.decision == Allow ==> p in questions && Acceptable(questions[p], ans) && p in log && log[p] == Entry(ans, ByAsker)
  }

  ghost predicate JobOk(questions: map<nat, Question>, log: map<nat, Entry>, p: nat, job: Job) {
    match job.stage
    case ToRecord(ans) =>
      p !in log && (job.who == ByAsker || ans.decision != Allow) && (job.who == ByAsker ==> p in questions && Acceptable(questions[p], ans))
    case ToSend(ans) => Backed(questions, log, p, ans)
    case Sent(ans) => Backed(questions, log, p, ans)
  }

  /** Decisions come from claims, one each; the requester's own is not yet in the log while it records. */
  ghost predicate LogOk(questions: map<nat, Question>, log: map<nat, Entry>, jobs: map<nat, Job>, reqs: map<nat, ReqPc>, claims: map<nat, By>) {
    && (forall p :: p in jobs ==> JobOk(questions, log, p, jobs[p]))
    && (forall p :: p in log ==> p in reqs && (p in claims || reqs[p].Returned?))
    && (forall p :: p in log && p in claims ==> log[p].who == claims[p])
    && (forall p :: p in reqs && reqs[p].Recording? ==> p !in log)
  }

  /** A job's answer is on its way to the requester, in its channel, or returned; nothing else returns an allow. */
  ghost predicate InboxOk(jobs: map<nat, Job>, inbox: map<nat, Answer>, reqs: map<nat, ReqPc>) {
    && (forall p :: p in inbox ==> p in jobs && jobs[p].stage == Sent(inbox[p]))
    && (forall p :: p in jobs && !jobs[p].stage.Sent? ==> p in reqs && !reqs[p].Returned?)
    && (forall p :: p in jobs && jobs[p].stage.Sent? ==> p in reqs && (p in inbox <==> !reqs[p].Returned?))
    && (forall p :: p in jobs && p in reqs && reqs[p].Returned? ==> jobs[p].stage == Sent(reqs[p].ans))
    && (forall p :: p in reqs && reqs[p].Returned? && reqs[p].ans.decision == Allow ==> p in jobs)
  }

  ghost predicate AbandonsOk(abandoned: set<nat>, toClose: set<nat>, abandonClosed: set<nat>) {
    toClose !! abandonClosed && toClose + abandonClosed <= abandoned
  }

  /** Exactly the registered approvals are decided, and each is by the time its request returns. */
  ghost predicate RegisteredOk(registered: set<nat>, table: map<string, nat>, reqs: map<nat, ReqPc>, claims: map<nat, By>) {
    && (forall p :: p in registered ==> p in reqs && (reqs[p].Returned? ==> p in claims))
    && (forall id :: id in table ==> table[id] in registered)
    && (forall p :: p in reqs && !reqs[p].Returned? ==> p in registered)
    && claims.Keys <= registered
  }

  ghost predicate Inv(s: State) {
    && RegisteredOk(s.registered, s.table, s.reqs, s.claims)
    && TableOk(s.table, s.questions, s.reqs, s.claims) && ClaimsOk(s.claims, s.jobs, s.reqs)
    && LogOk(s.questions, s.log, s.jobs, s.reqs, s.claims) && InboxOk(s.jobs, s.inbox, s.reqs)
    && AbandonsOk(s.abandoned, s.toClose, s.abandonClosed) && !s.fault
  }

  lemma RegisterClaims(s: State, p: nat, q: Question)
    requires Inv(s) && p !in s.reqs
    ensures var s' := RegisterApply(s, p, q); TableOk(s'.table, s'.questions, s'.reqs, s'.claims) && ClaimsOk(s'.claims, s'.jobs, s'.reqs)
  {
    hide LogOk, AbandonsOk;
  }

  lemma RegisterLog(s: State, p: nat, q: Question)
    requires Inv(s) && p !in s.reqs
    ensures var s' := RegisterApply(s, p, q); LogOk(s'.questions, s'.log, s'.jobs, s'.reqs, s'.claims) && !s'.fault
  {
    hide AbandonsOk;
  }

  lemma RegisterInbox(s: State, p: nat, q: Question)
    requires Inv(s) && p !in s.reqs
    ensures var s' := RegisterApply(s, p, q); InboxOk(s'.jobs, s'.inbox, s'.reqs)
  {
    hide LogOk, AbandonsOk;
  }

  lemma ReusedClaims(s: State, p: nat, q: Question)
    requires Inv(s) && p !in s.reqs
    ensures var s' := ReusedApply(s, p, q); TableOk(s'.table, s'.questions, s'.reqs, s'.claims) && ClaimsOk(s'.claims, s'.jobs, s'.reqs)
  {
    hide LogOk, AbandonsOk;
  }

  lemma ReusedLog(s: State, p: nat, q: Question)
    requires Inv(s) && p !in s.reqs
    ensures var s' := ReusedApply(s, p, q); LogOk(s'.questions, s'.log, s'.jobs, s'.reqs, s'.claims) && !s'.fault
  {
    hide AbandonsOk;
  }

  lemma ReusedInbox(s: State, p: nat, q: Question)
    requires Inv(s) && p !in s.reqs
    ensures var s' := ReusedApply(s, p, q); InboxOk(s'.jobs, s'.inbox, s'.reqs)
  {
    hide LogOk, AbandonsOk;
  }

  lemma UnheardClaims(s: State, p: nat, q: Question, logged: bool)
    requires Inv(s) && p !in s.reqs
    ensures var s' := UnheardApply(s, p, q, logged); TableOk(s'.table, s'.questions, s'.reqs, s'.claims) && ClaimsOk(s'.claims, s'.jobs, s'.reqs)
  {
    hide LogOk, AbandonsOk;
  }

  lemma LogMore(questions: map<nat, Question>, log: map<nat, Entry>, jobs: map<nat, Job>, reqs: map<nat, ReqPc>, claims: map<nat, By>,
                p: nat, q: Question, ans: Answer, e: Entry)
    requires LogOk(questions, log, jobs, reqs, claims) && p !in reqs && p !in jobs && p !in claims && p !in questions
    ensures LogOk(questions[p := q], log, jobs, reqs[p := Returned(ans)], claims)
    ensures LogOk(questions[p := q], log[p := e], jobs, reqs[p := Returned(ans)], claims)
  {
    hide Acceptable;
  }

  lemma UnheardLog(s: State, p: nat, q: Question, logged: bool)
    requires Inv(s) && p !in s.reqs
    ensures var s' := UnheardApply(s, p, q, logged); LogOk(s'.questions, s'.log, s'.jobs, s'.reqs, s'.claims) && !s'.fault
  {
    assert p !in s.jobs && p !in s.claims && p !in s.questions;
    var deny := DenyFor("no asker is attached");
    LogMore(s.questions, s.log, s.jobs, s.reqs, s.claims, p, q, deny, Entry(deny, ByNoAsker));
    hide LogOk, AbandonsOk, InboxOk, RegisteredOk, TableOk, ClaimsOk;
  }

  lemma UnheardInbox(s: State, p: nat, q: Question, logged: bool)
    requires Inv(s) && p !in s.reqs
    ensures var s' := UnheardApply(s, p, q, logged); InboxOk(s'.jobs, s'.inbox, s'.reqs)
  {
    hide LogOk, AbandonsOk;
  }

  lemma AnswerClaims(s: State, id: string, ans: Answer)
    requires Inv(s) && Takes(s, id, ans, true)
    ensures var s' := AnswerApply(s, id, ans); TableOk(s'.table, s'.questions, s'.reqs, s'.claims) && ClaimsOk(s'.claims, s'.jobs, s'.reqs)
  {
    hide LogOk, AbandonsOk;
  }

  lemma AnswerLog(s: State, id: string, ans: Answer)
    requires Inv(s) && Takes(s, id, ans, true)
    ensures var s' := AnswerApply(s, id, ans); LogOk(s'.questions, s'.log, s'.jobs, s'.reqs, s'.claims) && !s'.fault
  {
    hide AbandonsOk;
  }

  lemma AnswerInbox(s: State, id: string, ans: Answer)
    requires Inv(s) && Takes(s, id, ans, true)
    ensures var s' := AnswerApply(s, id, ans); InboxOk(s'.jobs, s'.inbox, s'.reqs)
  {
    hide LogOk, AbandonsOk;
  }

  lemma RecordClaims(s: State, p: nat, ok: bool)
    requires Inv(s) && p in s.jobs && s.jobs[p].stage.ToRecord?
    ensures var s' := RecordApply(s, p, ok); TableOk(s'.table, s'.questions, s'.reqs, s'.claims) && ClaimsOk(s'.claims, s'.jobs, s'.reqs)
  {
    hide LogOk, AbandonsOk;
  }

  lemma RecordLog(s: State, p: nat, ok: bool)
    requires Inv(s) && p in s.jobs && s.jobs[p].stage.ToRecord?
    ensures var s' := RecordApply(s, p, ok); LogOk(s'.questions, s'.log, s'.jobs, s'.reqs, s'.claims) && !s'.fault
  {
    hide AbandonsOk, InboxOk, RegisteredOk, TableOk, Acceptable;
  }

  lemma RecordInbox(s: State, p: nat, ok: bool)
    requires Inv(s) && p in s.jobs && s.jobs[p].stage.ToRecord?
    ensures var s' := RecordApply(s, p, ok); InboxOk(s'.jobs, s'.inbox, s'.reqs)
  {
    hide LogOk, AbandonsOk;
  }

  lemma SendClaims(s: State, p: nat)
    requires Inv(s) && p in s.jobs && s.jobs[p].stage.ToSend?
    ensures var s' := SendApply(s, p); TableOk(s'.table, s'.questions, s'.reqs, s'.claims) && ClaimsOk(s'.claims, s'.jobs, s'.reqs)
  {
    hide LogOk, AbandonsOk;
  }

  lemma SendLog(s: State, p: nat)
    requires Inv(s) && p in s.jobs && s.jobs[p].stage.ToSend?
    ensures var s' := SendApply(s, p); LogOk(s'.questions, s'.log, s'.jobs, s'.reqs, s'.claims) && !s'.fault
  {
    hide AbandonsOk;
  }

  lemma SendInbox(s: State, p: nat)
    requires Inv(s) && p in s.jobs && s.jobs[p].stage.ToSend?
    ensures var s' := SendApply(s, p); InboxOk(s'.jobs, s'.inbox, s'.reqs)
  {
    hide LogOk, AbandonsOk;
  }

  /** Nobody has decided these, and their requesters are still waiting. */
  ghost predicate Fresh(ps: set<nat>, claims: map<nat, By>, jobs: map<nat, Job>, reqs: map<nat, ReqPc>, log: map<nat, Entry>) {
    forall p :: p in ps ==> p !in claims && p !in jobs && p !in log && p in reqs && (reqs[p].Waiting? || reqs[p].Finishing?)
  }

  lemma UndecidedFresh(s: State, ids: set<string>)
    requires Inv(s)
    ensures Fresh(Undecided(s, ids), s.claims, s.jobs, s.reqs, s.log)
  {
    hide InboxOk, AbandonsOk;
  }

  lemma StaleClaims(ps: set<nat>, why: string, claims: map<nat, By>, jobs: map<nat, Job>, reqs: map<nat, ReqPc>, log: map<nat, Entry>)
    requires ClaimsOk(claims, jobs, reqs) && Fresh(ps, claims, jobs, reqs, log)
    ensures ClaimsOk(claims + Stales(ps), jobs + Denials(ps, why), reqs)
  {
  }

  lemma StaleLog(ps: set<nat>, why: string, questions: map<nat, Question>, claims: map<nat, By>, jobs: map<nat, Job>, reqs: map<nat, ReqPc>, log: map<nat, Entry>)
    requires LogOk(questions, log, jobs, reqs, claims) && Fresh(ps, claims, jobs, reqs, log)
    ensures LogOk(questions, log, jobs + Denials(ps, why), reqs, claims + Stales(ps))
  {
  }

  lemma StaleInbox(ps: set<nat>, why: string, claims: map<nat, By>, jobs: map<nat, Job>, inbox: map<nat, Answer>, reqs: map<nat, ReqPc>, log: map<nat, Entry>)
    requires InboxOk(jobs, inbox, reqs) && Fresh(ps, claims, jobs, reqs, log)
    ensures InboxOk(jobs + Denials(ps, why), inbox, reqs)
  {
  }

  lemma StaleRegistered(s: State, ids: set<string>, gone: set<string>)
    requires RegisteredOk(s.registered, s.table, s.reqs, s.claims)
    ensures RegisteredOk(s.registered, s.table - gone, s.reqs, s.claims + Stales(Undecided(s, ids)))
  {
    assert forall p :: p in Undecided(s, ids) ==> p in s.registered;
    hide Undecided;
  }

  lemma StaleKept(s: State, ids: set<string>, gone: set<string>, why: string)
    requires Inv(s)
    ensures Inv(StaleApply(s, ids, gone, why))
  {
    var ps := Undecided(s, ids);
    UndecidedFresh(s, ids);
    StaleClaims(ps, why, s.claims, s.jobs, s.reqs, s.log);
    StaleLog(ps, why, s.questions, s.claims, s.jobs, s.reqs, s.log);
    StaleInbox(ps, why, s.claims, s.jobs, s.inbox, s.reqs, s.log);
    StaleRegistered(s, ids, gone);
    hide RegisteredOk, ClaimsOk, LogOk, InboxOk, AbandonsOk, Undecided, Stales, Denials, Fresh;
  }

  lemma AbandonKept(s: State)
    requires Inv(s)
    ensures Inv(AbandonApply(s))
  {
  }

  lemma ClaimSelfTable(s: State, p: nat)
    requires Inv(s) && p in s.reqs && s.reqs[p].Finishing? && p in s.questions && p !in s.claims
    ensures var s' := ClaimSelfApply(s, p); TableOk(s'.table, s'.questions, s'.reqs, s'.claims)
  {
    hide LogOk, AbandonsOk, InboxOk, RegisteredOk;
  }

  lemma ClaimSelfClaims(s: State, p: nat)
    requires Inv(s) && p in s.reqs && s.reqs[p].Finishing? && p in s.questions && p !in s.claims
    ensures var s' := ClaimSelfApply(s, p); TableOk(s'.table, s'.questions, s'.reqs, s'.claims) && ClaimsOk(s'.claims, s'.jobs, s'.reqs)
  {
    ClaimSelfTable(s, p);
    hide LogOk, AbandonsOk, InboxOk, RegisteredOk, TableOk;
  }

  lemma ClaimSelfLog(s: State, p: nat)
    requires Inv(s) && p in s.reqs && s.reqs[p].Finishing? && p in s.questions && p !in s.claims
    ensures var s' := ClaimSelfApply(s, p); LogOk(s'.questions, s'.log, s'.jobs, s'.reqs, s'.claims) && !s'.fault
  {
    hide AbandonsOk;
  }

  lemma ClaimSelfInbox(s: State, p: nat)
    requires Inv(s) && p in s.reqs && s.reqs[p].Finishing? && p in s.questions && p !in s.claims
    ensures var s' := ClaimSelfApply(s, p); InboxOk(s'.jobs, s'.inbox, s'.reqs)
  {
    hide LogOk, AbandonsOk;
  }

  lemma RecordSelfClaims(s: State, p: nat, ok: bool)
    requires Inv(s) && p in s.reqs && s.reqs[p].Recording?
    ensures var s' := RecordSelfApply(s, p, ok); TableOk(s'.table, s'.questions, s'.reqs, s'.claims) && ClaimsOk(s'.claims, s'.jobs, s'.reqs)
  {
    hide LogOk, AbandonsOk;
  }

  lemma RecordSelfLog(s: State, p: nat, ok: bool)
    requires Inv(s) && p in s.reqs && s.reqs[p].Recording?
    ensures var s' := RecordSelfApply(s, p, ok); LogOk(s'.questions, s'.log, s'.jobs, s'.reqs, s'.claims) && !s'.fault
  {
    assert p !in s.jobs && p in s.claims && s.claims[p] == s.reqs[p].who;
    hide AbandonsOk, InboxOk, RegisteredOk, TableOk, ClaimsOk, Acceptable;
  }

  lemma RecordSelfInbox(s: State, p: nat, ok: bool)
    requires Inv(s) && p in s.reqs && s.reqs[p].Recording?
    ensures var s' := RecordSelfApply(s, p, ok); InboxOk(s'.jobs, s'.inbox, s'.reqs)
  {
    hide LogOk, AbandonsOk;
  }

  lemma TakeClaims(s: State, p: nat)
    requires Inv(s) && p in s.inbox && p in s.reqs && (s.reqs[p].Waiting? || s.reqs[p].Awaiting?)
    ensures var s' := TakeApply(s, p); TableOk(s'.table, s'.questions, s'.reqs, s'.claims) && ClaimsOk(s'.claims, s'.jobs, s'.reqs)
  {
    hide LogOk, AbandonsOk;
  }

  lemma TakeLog(s: State, p: nat)
    requires Inv(s) && p in s.inbox && p in s.reqs && (s.reqs[p].Waiting? || s.reqs[p].Awaiting?)
    ensures var s' := TakeApply(s, p); LogOk(s'.questions, s'.log, s'.jobs, s'.reqs, s'.claims) && !s'.fault
  {
    hide AbandonsOk;
  }

  lemma TakeInbox(s: State, p: nat)
    requires Inv(s) && p in s.inbox && p in s.reqs && (s.reqs[p].Waiting? || s.reqs[p].Awaiting?)
    ensures var s' := TakeApply(s, p); InboxOk(s'.jobs, s'.inbox, s'.reqs)
  {
    hide LogOk, AbandonsOk;
  }

  lemma MoveClaims(s: State, p: nat, pc: ReqPc)
    requires Inv(s) && p in s.reqs
    requires (s.reqs[p].Waiting? && pc.Finishing?) || (s.reqs[p].Finishing? && pc.Awaiting? && p in s.claims)
    ensures var s' := At(s, p, pc); TableOk(s'.table, s'.questions, s'.reqs, s'.claims) && ClaimsOk(s'.claims, s'.jobs, s'.reqs)
  {
    hide LogOk, AbandonsOk;
  }

  lemma MoveLog(s: State, p: nat, pc: ReqPc)
    requires Inv(s) && p in s.reqs
    requires (s.reqs[p].Waiting? && pc.Finishing?) || (s.reqs[p].Finishing? && pc.Awaiting? && p in s.claims)
    ensures var s' := At(s, p, pc); LogOk(s'.questions, s'.log, s'.jobs, s'.reqs, s'.claims) && !s'.fault
  {
    hide AbandonsOk;
  }

  lemma MoveInbox(s: State, p: nat, pc: ReqPc)
    requires Inv(s) && p in s.reqs
    requires (s.reqs[p].Waiting? && pc.Finishing?) || (s.reqs[p].Finishing? && pc.Awaiting? && p in s.claims)
    ensures var s' := At(s, p, pc); InboxOk(s'.jobs, s'.inbox, s'.reqs)
  {
    hide LogOk, AbandonsOk;
  }

  lemma RegisterRegistered(s: State, p: nat, q: Question)
    requires Inv(s) && p !in s.reqs
    ensures var s' := RegisterApply(s, p, q); RegisteredOk(s'.registered, s'.table, s'.reqs, s'.claims)
  {
    hide LogOk, AbandonsOk;
  }

  lemma RegisterKept(s: State, p: nat, q: Question)
    requires Inv(s) && p !in s.reqs
    ensures Inv(RegisterApply(s, p, q))
  {
    RegisterRegistered(s, p, q);
    RegisterClaims(s, p, q);
    RegisterLog(s, p, q);
    RegisterInbox(s, p, q);
    hide TableOk, ClaimsOk, LogOk, InboxOk, RegisteredOk;
  }

  lemma ReusedRegistered(s: State, p: nat, q: Question)
    requires Inv(s) && p !in s.reqs
    ensures var s' := ReusedApply(s, p, q); RegisteredOk(s'.registered, s'.table, s'.reqs, s'.claims)
  {
    hide LogOk, AbandonsOk;
  }

  lemma ReusedKept(s: State, p: nat, q: Question)
    requires Inv(s) && p !in s.reqs
    ensures Inv(ReusedApply(s, p, q))
  {
    ReusedRegistered(s, p, q);
    ReusedClaims(s, p, q);
    ReusedLog(s, p, q);
    ReusedInbox(s, p, q);
    hide TableOk, ClaimsOk, LogOk, InboxOk, RegisteredOk;
  }

  lemma UnheardRegistered(s: State, p: nat, q: Question, logged: bool)
    requires Inv(s) && p !in s.reqs
    ensures var s' := UnheardApply(s, p, q, logged); RegisteredOk(s'.registered, s'.table, s'.reqs, s'.claims)
  {
    hide LogOk, AbandonsOk;
  }

  lemma UnheardKept(s: State, p: nat, q: Question, logged: bool)
    requires Inv(s) && p !in s.reqs
    ensures Inv(UnheardApply(s, p, q, logged))
  {
    UnheardRegistered(s, p, q, logged);
    UnheardClaims(s, p, q, logged);
    UnheardLog(s, p, q, logged);
    UnheardInbox(s, p, q, logged);
    hide TableOk, ClaimsOk, LogOk, InboxOk, RegisteredOk;
  }

  lemma AnswerRegistered(s: State, id: string, ans: Answer)
    requires Inv(s) && Takes(s, id, ans, true)
    ensures var s' := AnswerApply(s, id, ans); RegisteredOk(s'.registered, s'.table, s'.reqs, s'.claims)
  {
    hide LogOk, AbandonsOk;
  }

  lemma AnswerKept(s: State, id: string, ans: Answer)
    requires Inv(s) && Takes(s, id, ans, true)
    ensures Inv(AnswerApply(s, id, ans))
  {
    AnswerRegistered(s, id, ans);
    AnswerClaims(s, id, ans);
    AnswerLog(s, id, ans);
    AnswerInbox(s, id, ans);
    hide TableOk, ClaimsOk, LogOk, InboxOk, RegisteredOk;
  }

  lemma RecordRegistered(s: State, p: nat, ok: bool)
    requires Inv(s) && p in s.jobs && s.jobs[p].stage.ToRecord?
    ensures var s' := RecordApply(s, p, ok); RegisteredOk(s'.registered, s'.table, s'.reqs, s'.claims)
  {
    hide LogOk, AbandonsOk;
  }

  lemma RecordKept(s: State, p: nat, ok: bool)
    requires Inv(s) && p in s.jobs && s.jobs[p].stage.ToRecord?
    ensures Inv(RecordApply(s, p, ok))
  {
    RecordRegistered(s, p, ok);
    RecordClaims(s, p, ok);
    RecordLog(s, p, ok);
    RecordInbox(s, p, ok);
    hide TableOk, ClaimsOk, LogOk, InboxOk, RegisteredOk;
  }

  lemma SendRegistered(s: State, p: nat)
    requires Inv(s) && p in s.jobs && s.jobs[p].stage.ToSend?
    ensures var s' := SendApply(s, p); RegisteredOk(s'.registered, s'.table, s'.reqs, s'.claims)
  {
    hide LogOk, AbandonsOk;
  }

  lemma SendKept(s: State, p: nat)
    requires Inv(s) && p in s.jobs && s.jobs[p].stage.ToSend?
    ensures Inv(SendApply(s, p))
  {
    SendRegistered(s, p);
    SendClaims(s, p);
    SendLog(s, p);
    SendInbox(s, p);
    hide TableOk, ClaimsOk, LogOk, InboxOk, RegisteredOk;
  }

  lemma ClaimSelfRegistered(s: State, p: nat)
    requires Inv(s) && p in s.reqs && s.reqs[p].Finishing? && p in s.questions && p !in s.claims
    ensures var s' := ClaimSelfApply(s, p); RegisteredOk(s'.registered, s'.table, s'.reqs, s'.claims)
  {
    hide LogOk, AbandonsOk;
  }

  lemma ClaimSelfKept(s: State, p: nat)
    requires Inv(s) && p in s.reqs && s.reqs[p].Finishing? && p in s.questions && p !in s.claims
    ensures Inv(ClaimSelfApply(s, p))
  {
    ClaimSelfRegistered(s, p);
    ClaimSelfClaims(s, p);
    ClaimSelfLog(s, p);
    ClaimSelfInbox(s, p);
    hide TableOk, ClaimsOk, LogOk, InboxOk, RegisteredOk;
  }

  lemma RecordSelfRegistered(s: State, p: nat, ok: bool)
    requires Inv(s) && p in s.reqs && s.reqs[p].Recording?
    ensures var s' := RecordSelfApply(s, p, ok); RegisteredOk(s'.registered, s'.table, s'.reqs, s'.claims)
  {
    hide LogOk, AbandonsOk;
  }

  lemma RecordSelfKept(s: State, p: nat, ok: bool)
    requires Inv(s) && p in s.reqs && s.reqs[p].Recording?
    ensures Inv(RecordSelfApply(s, p, ok))
  {
    RecordSelfRegistered(s, p, ok);
    RecordSelfClaims(s, p, ok);
    RecordSelfLog(s, p, ok);
    RecordSelfInbox(s, p, ok);
    hide TableOk, ClaimsOk, LogOk, InboxOk, RegisteredOk;
  }

  lemma TakeRegistered(s: State, p: nat)
    requires Inv(s) && p in s.inbox && p in s.reqs && (s.reqs[p].Waiting? || s.reqs[p].Awaiting?)
    ensures var s' := TakeApply(s, p); RegisteredOk(s'.registered, s'.table, s'.reqs, s'.claims)
  {
    hide LogOk, AbandonsOk;
  }

  lemma TakeKept(s: State, p: nat)
    requires Inv(s) && p in s.inbox && p in s.reqs && (s.reqs[p].Waiting? || s.reqs[p].Awaiting?)
    ensures Inv(TakeApply(s, p))
  {
    TakeRegistered(s, p);
    TakeClaims(s, p);
    TakeLog(s, p);
    TakeInbox(s, p);
    hide TableOk, ClaimsOk, LogOk, InboxOk, RegisteredOk;
  }

  lemma MoveRegistered(s: State, p: nat, pc: ReqPc)
    requires Inv(s) && p in s.reqs
    requires (s.reqs[p].Waiting? && pc.Finishing?) || (s.reqs[p].Finishing? && pc.Awaiting? && p in s.claims)
    ensures var s' := At(s, p, pc); RegisteredOk(s'.registered, s'.table, s'.reqs, s'.claims)
  {
    hide LogOk, AbandonsOk;
  }

  lemma MoveKept(s: State, p: nat, pc: ReqPc)
    requires Inv(s) && p in s.reqs
    requires (s.reqs[p].Waiting? && pc.Finishing?) || (s.reqs[p].Finishing? && pc.Awaiting? && p in s.claims)
    ensures Inv(At(s, p, pc))
  {
    MoveRegistered(s, p, pc);
    MoveClaims(s, p, pc);
    MoveLog(s, p, pc);
    MoveInbox(s, p, pc);
    hide TableOk, ClaimsOk, LogOk, InboxOk, RegisteredOk;
  }

  lemma StepInv(s: State, step: Step)
    requires Inv(s) && Enabled(s, step)
    ensures Inv(Apply(s, step))
  {
    assert s.questions.Keys == s.reqs.Keys;
    hide TableOk, ClaimsOk, LogOk, InboxOk, RegisteredOk, Takes;
    if step.Register? {
      if step.q.id in s.known { ReusedKept(s, step.p, step.q); }
      else if step.heard { RegisterKept(s, step.p, step.q); }
      else { UnheardKept(s, step.p, step.q, step.logged); }
    } else if step.AskerAnswers? {
      if Takes(s, step.id, step.ans, step.current) { TakenKept(s, step.id, step.ans, step.current); }
    } else {
      hide Inv;
      OthersKept(s, step);
    }
  }

  lemma TakenKept(s: State, id: string, ans: Answer, current: bool)
    requires Inv(s) && Takes(s, id, ans, current)
    ensures Inv(AnswerApply(s, id, ans))
  {
    assert Takes(s, id, ans, true);
    hide Inv, Takes;
    AnswerKept(s, id, ans);
  }

  lemma OthersKept(s: State, step: Step)
    requires Inv(s) && Enabled(s, step) && !step.Register? && !step.AskerAnswers?
    ensures Inv(Apply(s, step))
  {
    hide TableOk, ClaimsOk, LogOk, InboxOk, RegisteredOk, RecordApply, SendApply, StaleApply, AbandonApply, TakeApply, ClaimSelfApply, RecordSelfApply, At;
    match step
    case Record(p, ok) => RecordKept(s, p, ok);
    case Send(p) => SendKept(s, p);
    case Resolve(ids) => StaleKept(s, ids, ids, "runtime approval became stale");
    case FailItem(ids) =>
      StaleKept(s, ids, set id | id in ids && id in s.table && s.table[id] !in s.claims, "runtime approval item completed");
    case Abandon => AbandonKept(s);
    case CloseAbandon(p) =>
    case Hear(p) => TakeKept(s, p);
    case Leave(p, who) => MoveKept(s, p, Finishing(who));
    case Finish(p) => if p in s.claims { MoveKept(s, p, Awaiting); } else { ClaimSelfKept(s, p); }
    case RecordSelf(p, ok) => RecordSelfKept(s, p, ok);
    case TakeAwaited(p) => TakeKept(s, p);
    case EndTurn =>
  }

  lemma InitInv(s: State)
    requires Init(s)
    ensures Inv(s)
  {
  }

  /** Claims are for good: whoever decided first stays the one who decided. */
  lemma StepClaims(s: State, step: Step)
    requires Inv(s) && Enabled(s, step)
    ensures forall p :: p in s.claims ==> p in Apply(s, step).claims && Apply(s, step).claims[p] == s.claims[p]
  {
    hide Inv, Undecided, RegisterApply, ReusedApply, UnheardApply, RecordApply, SendApply, AbandonApply, RecordSelfApply, TakeApply, At;
    if step.Resolve? { UndecidedUnclaimed(s, step.ids); }
    if step.FailItem? { UndecidedUnclaimed(s, step.ids); }
  }

  lemma UndecidedUnclaimed(s: State, ids: set<string>)
    ensures forall p :: p in Undecided(s, ids) ==> p !in s.claims
  {
  }

  lemma NextInv(s: State, s': State)
    requires Inv(s) && Next(s, s')
    ensures Inv(s') && forall p :: p in s.claims ==> p in s'.claims && s'.claims[p] == s.claims[p]
  {
    hide Inv, Enabled, Apply;
    var step :| Enabled(s, step) && s' == Apply(s, step);
    StepInv(s, step);
    StepClaims(s, step);
  }

  /** Every state of every run satisfies the invariant. */
  lemma {:induction false} RunInv(tr: seq<State>, i: nat)
    requires Run(tr) && i < |tr|
    ensures Inv(tr[i])
  {
    hide Inv, Next;
    if i == 0 {
      InitInv(tr[0]);
    } else {
      RunInv(tr, i - 1);
      NextInv(tr[i - 1], tr[i - 1 + 1]);
    }
  }

  // ---- the theorems ----

  lemma NoFault(tr: seq<State>, i: nat)
    requires Run(tr) && i < |tr|
    ensures !tr[i].fault
  {
    RunInv(tr, i);
  }

  /** Each approval is claimed by one party only, for good; no channel is sent on or closed twice, and no second decision is logged. */
  lemma {:induction false} ClaimedOnce(tr: seq<State>, i: nat, j: nat, p: nat)
    requires Run(tr) && i <= j < |tr|
    ensures p in tr[i].claims ==> p in tr[j].claims && tr[j].claims[p] == tr[i].claims[p]
    ensures !tr[j].fault
    decreases j
  {
    hide Inv, Next, Init;
    NoFault(tr, j);
    if i < j {
      ClaimedOnce(tr, i, j - 1, p);
      RunInv(tr, j - 1);
      NextInv(tr[j - 1], tr[j - 1 + 1]);
    }
  }

  /** And exactly one: exactly the registered approvals are ever claimed, and each has been by the time its request returns. */
  lemma ReturnedClaimed(tr: seq<State>, i: nat, p: nat)
    requires Run(tr) && i < |tr|
    ensures p in tr[i].claims ==> p in tr[i].registered
    ensures p in tr[i].registered ==> p in tr[i].reqs && (tr[i].reqs[p].Returned? ==> p in tr[i].claims)
  {
    RunInv(tr, i);
  }

  /** A decision in the log is the claimant's, or the immediate denial of a question nobody could hear. */
  lemma LoggedByClaimant(tr: seq<State>, i: nat, p: nat)
    requires Run(tr) && i < |tr| && p in tr[i].log
    ensures if p in tr[i].claims then tr[i].log[p].who == tr[i].claims[p] else p in tr[i].reqs && tr[i].reqs[p].Returned?
  {
    RunInv(tr, i);
  }

  /** A requester that lost the claim has the winner's answer in its channel, or the winner has yet to take the steps that put it there. */
  lemma LoserHears(tr: seq<State>, i: nat, p: nat)
    requires Run(tr) && i < |tr| && p in tr[i].reqs && tr[i].reqs[p].Awaiting?
    ensures || Enabled(tr[i], TakeAwaited(p))
            || Enabled(tr[i], Send(p))
            || (Enabled(tr[i], Record(p, true)) && Enabled(tr[i], Record(p, false)))
  {
    RunInv(tr, i);
  }

  /**
   An allow reaches the runtime only after the log took an asker's allow for this very approval,
   whose scope was offered and whose grants were requested.
   */
  lemma AllowOnlyLogged(tr: seq<State>, i: nat, p: nat)
    requires Run(tr) && i < |tr| && p in tr[i].reqs && tr[i].reqs[p].Returned? && tr[i].reqs[p].ans.decision == Allow
    ensures p in tr[i].questions && Acceptable(tr[i].questions[p], tr[i].reqs[p].ans)
    ensures p in tr[i].log && tr[i].log[p] == Entry(tr[i].reqs[p].ans, ByAsker)
    ensures p in tr[i].claims && tr[i].claims[p] == ByAsker
  {
    RunInv(tr, i);
    assert JobOk(tr[i].questions, tr[i].log, p, tr[i].jobs[p]);
  }
}
