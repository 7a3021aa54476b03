/**
 Plugins loading one after another, registering from their own goroutines, and dying later: what
 the registry shows at every moment. A step is one section of a host's or the registry's lock,
 or one of Load's own actions; a spawned plugin's failure waits for the gate Load opens last.
 */
module RegistryLoads {
  import opened Basics
  import opened Registry

  /** The registry's fields, changed in place. */
  class PluginRegistry {
    var tables: map<Kind, Table<string>>
    var hooks: seq<string>
    var status: Table<Key>
    var widgets: Table<Key>
    var failed: set<string>

    function View(): Committed
      reads this
    {
      Committed(tables, hooks, status, widgets, failed)
    }

    /** Moves a stage into the tables. */
    method CommitStage(st: Stage, owner: string)
      requires AllKinds(tables) && AllKinds(st.names)
      modifies this
      ensures View() == Registry.Commit(old(View()), st, owner)
    {
      hide Installed, PutAll;
      tables := InstallTables(tables, st.names, owner);
      hooks := hooks + seq(st.hooks, i => owner);
      status := PutItems(status, owner, st.status);
      widgets := PutItems(widgets, owner, st.widgets);
    }

    /** Withdraws everything of a plugin that died. */
    method FailPlugin(owner: string)
      requires CommittedOk(View())
      modifies this
      ensures View() == Registry.Fail(old(View()), owner)
    {
      hide Withdrawn;
      failed := failed + {owner};
      tables := WithdrawTables(tables, owner);
      status := Withdraw(status, owner);
      widgets := Withdraw(widgets, owner);
      hooks := Filter(hooks, h => h != owner);
    }

    /** The write-through path: a withdrawn plugin writes nothing. */
    method SetItem(k: Key, clear: bool, widget: bool)
      modifies this`status, this`widgets
      ensures View() == Through(old(View()), k, clear, widget)
    {
      if k.0 in failed {
        return;
      }
      if widget {
        widgets := Put(widgets, k, false);
      } else {
        status := Put(status, k, clear);
      }
    }
  }

  method InstallTables(tables: map<Kind, Table<string>>, names: map<Kind, seq<string>>, owner: string) returns (r: map<Kind, Table<string>>)
    requires AllKinds(tables) && AllKinds(names)
    ensures r == map k | k in tables :: Registry.Installed(tables[k], names[k], owner)
  {
    var tools := InstallAll(tables[Tool], names[Tool], owner);
    var commands := InstallAll(tables[Command], names[Command], owner);
    var providers := InstallAll(tables[Provider], names[Provider], owner);
    var runtimes := InstallAll(tables[Runtime], names[Runtime], owner);
    var agents := InstallAll(tables[Agent], names[Agent], owner);
    hide Registry.Installed;
    r := map[Tool := tools, Command := commands, Provider := providers, Runtime := runtimes, Agent := agents];
    FiveKinds(map k | k in tables :: Registry.Installed(tables[k], names[k], owner));
  }

  method WithdrawTables(tables: map<Kind, Table<string>>, owner: string) returns (r: map<Kind, Table<string>>)
    requires AllKinds(tables) && forall k: Kind :: TableOk(tables[k])
    ensures r == map k | k in tables :: Withdrawn(tables[k], owner)
  {
    hide TableOk, Withdrawn;
    var tools := Withdraw(tables[Tool], owner);
    var commands := Withdraw(tables[Command], owner);
    var providers := Withdraw(tables[Provider], owner);
    var runtimes := Withdraw(tables[Runtime], owner);
    var agents := Withdraw(tables[Agent], owner);
    r := map[Tool := tools, Command := commands, Provider := providers, Runtime := runtimes, Agent := agents];
    FiveKinds(map k | k in tables :: Withdrawn(tables[k], owner));
  }

  lemma FiveKinds<T>(m: map<Kind, T>)
    requires AllKinds(m)
    ensures m == map[Tool := m[Tool], Command := m[Command], Provider := m[Provider], Runtime := m[Runtime], Agent := m[Agent]]
  {
    var five := map[Tool := m[Tool], Command := m[Command], Provider := m[Provider], Runtime := m[Runtime], Agent := m[Agent]];
    forall k: Kind ensures k in five && five[k] == m[k] {
      match k case Tool => case Command => case Provider => case Runtime => case Agent =>
    }
  }

  method PutItems(t: Table<Key>, owner: string, items: seq<(string, bool)>) returns (r: Table<Key>)
    ensures r == PutAll(t, owner, items)
  {
    hide Put;
    r := t;
    for i := 0 to |items|
      invariant PutAll(r, owner, items[i..]) == PutAll(t, owner, items)
    {
      assert items[i..][0] == items[i] && items[i..][1..] == items[i + 1..];
      r := Put(r, (owner, items[i].0), items[i].1);
    }
  }

  function Through(c: Committed, k: Key, clear: bool, widget: bool): Committed {
    if k.0 in c.failed then c
    else if widget then c.(widgets := Put(c.widgets, k, false))
    else c.(status := Put(c.status, k, clear))
  }

  // ---- every interleaving ----

  datatype Phase =
    | Initializing
    | InPlace       // committed, not yet marked ready
    | Ready         // marked ready, the gate not yet open
    | Open          // the gate is open: its failure may be told
    | Dead
    | Discarded     // its Init failed

  datatype Row = LoadingRow | ReadyRow | FailedRow

  /** A provider or runtime registration that passed its namespace check and is not staged yet. */
  datatype Claim = Claim(plugin: string, kind: Kind, name: string)

  datatype Write = Write(key: Key, clear: bool, widget: bool)

  datatype State = State(
    c: Committed,
    stages: map<string, Stage>,
    phase: map<string, Phase>,
    rows: map<string, Row>,
    loading: Option<string>,       // the plugin Load is at
    claims: map<nat, Claim>,
    writes: map<nat, Write>,       // items on their way past a stage that was committed
    overlapped: set<string>)       // auxiliary: names a plugin in its Init was registering as both at the same time

  const Empty := Stage(map[Tool := [], Command := [], Provider := [], Runtime := [], Agent := []], 0, [], [])

  datatype Step =
    | BeginLoad(p: string) | InitFails(p: string) | CommitIt(p: string) | MarkReady(p: string) | OpenGate(p: string) | Die(p: string)
    | Register(p: string, kind: Kind, name: string)
    | Check(id: nat, p: string, kind: Kind, name: string) | StageClaim(id: nat)
    | AddHook(p: string) | SetItem(id: nat, p: string, key: string, clear: bool, widget: bool) | WriteThrough(id: nat)

  predicate Namespaced(kind: Kind) { kind == Provider || kind == Runtime }

  function Other(kind: Kind): Kind { if kind == Provider then Runtime else Provider }

  predicate Live(ph: Phase) { ph.InPlace? || ph.Ready? || ph.Open? || ph.Dead? }

  ghost predicate Staging(s: State, p: string) { p in s.phase && p in s.stages && AllKinds(s.stages[p].names) && AllKinds(s.c.tables) }

  ghost predicate Enabled(s: State, step: Step) {
    match step
    case BeginLoad(p) => p !in s.phase && s.loading == None
    case InitFails(p) => p in s.phase && s.phase[p].Initializing?
    case CommitIt(p) => Staging(s, p) && s.phase[p].Initializing?
    case MarkReady(p) => p in s.phase && s.phase[p].InPlace?
    case OpenGate(p) => p in s.phase && s.phase[p].Ready?
    case Die(p) => p in s.phase && s.phase[p].Open?
    case Register(p, kind, name) => Staging(s, p) && !Namespaced(kind)
    case Check(id, p, kind, name) => Staging(s, p) && Namespaced(kind) && id !in s.claims
    case StageClaim(id) => id in s.claims && Staging(s, s.claims[id].plugin)
    case AddHook(p) => Staging(s, p)
    case SetItem(id, p, key, clear, widget) => Staging(s, p) && id !in s.writes
    case WriteThrough(id) => id in s.writes
  }

  /** stageRegister: refused when empty, staged already, or committed by somebody. */
  function Staged(c: Committed, st: Stage, kind: Kind, name: string): Stage
    requires AllKinds(c.tables) && AllKinds(st.names)
  {
    if name == "" || name in st.names[kind] || name in c.tables[kind].owners then st
    else st.(names := st.names[kind := st.names[kind] + [name]])
  }

  /** The name is taken on the other side of the shared namespace. */
  predicate Clash(c: Committed, st: Stage, kind: Kind, name: string)
    requires AllKinds(c.tables) && AllKinds(st.names)
  {
    name in st.names[Other(kind)] || name in c.tables[Other(kind)].owners
  }

  ghost predicate Rival(s: State, p: string, kind: Kind, name: string) {
    exists id :: id in s.claims && s.claims[id] == Claim(p, Other(kind), name)
  }

  /** The name, if a plugin that may still commit is registering it on the other side as well. */
  ghost function Overlaps(s: State, p: string, kind: Kind, name: string): set<string> {
    if p in s.phase && s.phase[p].Initializing? && Rival(s, p, kind, name) then {name} else {}
  }

  ghost function Restage(s: State, p: string, st: Stage): State { s.(stages := s.stages[p := st]) }

  ghost function BeginApply(s: State, p: string): State {
    s.(stages := s.stages[p := Empty], phase := s.phase[p := Initializing], rows := s.rows[p := LoadingRow], loading := Some(p))
  }

  ghost function CommitApply(s: State, p: string): State
    requires Staging(s, p)
  {
    s.(c := Registry.Commit(s.c, s.stages[p], p), phase := s.phase[p := InPlace])
  }

  ghost function DieApply(s: State, p: string): State {
    s.(c := Registry.Fail(s.c, p), phase := s.phase[p := Dead], rows := s.rows[p := FailedRow])
  }

  ghost function CheckApply(s: State, id: nat, p: string, kind: Kind, name: string): State {
    s.(claims := s.claims[id := Claim(p, kind, name)], overlapped := s.overlapped + Overlaps(s, p, kind, name))
  }

  /** A staged item keeps its first place in the order and takes the newest content. */
  function Stash(items: seq<(string, bool)>, key: string, clear: bool): seq<(string, bool)> {
    if items == [] then [(key, clear)]
    else if items[0].0 == key then [(key, clear)] + items[1..]
    else [items[0]] + Stash(items[1..], key, clear)
  }

  ghost function StageItem(st: Stage, key: string, clear: bool, widget: bool): Stage {
    if widget then st.(widgets := Stash(st.widgets, key, false)) else st.(status := Stash(st.status, key, clear))
  }

  ghost function Apply(s: State, step: Step): State
    requires Enabled(s, step)
  {
    match step
    case BeginLoad(p) => BeginApply(s, p)
    case InitFails(p) => s.(phase := s.phase[p := Discarded], rows := s.rows[p := FailedRow], loading := None)
    case CommitIt(p) => CommitApply(s, p)
    case MarkReady(p) => s.(phase := s.phase[p := Ready], rows := s.rows[p := ReadyRow])
    case OpenGate(p) => s.(phase := s.phase[p := Open], loading := None)
    case Die(p) => DieApply(s, p)
    case Register(p, kind, name) => Restage(s, p, Staged(s.c, s.stages[p], kind, name))
    case Check(id, p, kind, name) => if Clash(s.c, s.stages[p], kind, name) then s else CheckApply(s, id, p, kind, name)
    case StageClaim(id) =>
      var cl := s.claims[id];
      Restage(s, cl.plugin, Staged(s.c, s.stages[cl.plugin], cl.kind, cl.name)).(claims := s.claims - {id})
    case AddHook(p) => Restage(s, p, s.stages[p].(hooks := s.stages[p].hooks + 1))
    case SetItem(id, p, key, clear, widget) =>
      if Live(s.phase[p]) then s.(writes := s.writes[id := Write((p, key), clear, widget)])
      else Restage(s, p, StageItem(s.stages[p], key, clear, widget))
    case WriteThrough(id) =>
      s.(c := Through(s.c, s.writes[id].key, s.writes[id].clear, s.writes[id].widget), writes := s.writes - {id})
  }

  ghost predicate Init(s: State) {
    && CommittedOk(s.c) && (forall k: Kind :: s.c.tables[k].owners == map[]) && s.c.hooks == []
    && s.c.status.owners == map[] && s.c.widgets.owners == map[] && s.c.failed == {}
    && s.stages == map[] && s.phase == map[] && s.rows == map[] && s.loading == None && s.claims == map[] && s.writes == map[] && s.overlapped == {}
  }

  ghost predicate Next(s: State, s': State) {
    exists step :: Enabled(s, step) && s' == Apply(s, step)
  }

  ghost predicate Run(tr: seq<State>) {
    |tr| > 0 && Init(tr[0]) && forall i :: 0 <= i < |tr| - 1 ==> Next(tr[i], tr[i + 1])
  }

  // ---- the invariant ----

  predicate BeingLoaded(ph: Phase) { ph.Initializing? || ph.InPlace? || ph.Ready? }

  ghost predicate LoadsOk(phase: map<string, Phase>, rows: map<string, Row>, stages: map<string, Stage>, loading: Option<string>) {
    && phase.Keys == rows.Keys && phase.Keys == stages.Keys
    && (forall p :: p in phase && BeingLoaded(phase[p]) ==> loading == Some(p))
    && (forall p :: p in phase && phase[p].Dead? ==> rows[p] == FailedRow)
  }

  /** Stages are consistent, and what the loading plugin staged is not committed yet. */
  ghost predicate StagesOk(c: Committed, stages: map<string, Stage>, phase: map<string, Phase>) {
    && AllKinds(c.tables)
    && (forall p :: p in stages ==> StageOk(stages[p]))
    && (forall p :: p in stages && p in phase && phase[p].Initializing? ==> Apart(c, stages[p]))
  }

  /** The failed plugins are the dead ones, and they own nothing. */
  ghost predicate DeadOk(c: Committed, phase: map<string, Phase>) {
    forall p :: p in c.failed ==> p in phase && phase[p].Dead? && OwnsNothing(c, p)
  }

  /** No name is a provider's and a runtime's, except those in over. */
  ghost predicate SplitOk(c: Committed, over: set<string>)
    requires AllKinds(c.tables)
  {
    forall n :: n in c.tables[Provider].owners && n !in over ==> n !in c.tables[Runtime].owners
  }

  ghost predicate StageSplit(c: Committed, st: Stage, over: set<string>)
    requires AllKinds(c.tables) && AllKinds(st.names)
  {
    forall kind, n :: Namespaced(kind) && n in st.names[kind] && n !in over ==> !Clash(c, st, kind, n)
  }

  predicate Twins(a: Claim, b: Claim, p: string) { a.plugin == p && b.plugin == p && a.name == b.name }

  /** What the plugin in its Init has claimed can be staged without a clash. */
  ghost predicate ClaimSplit(c: Committed, st: Stage, p: string, claims: map<nat, Claim>, over: set<string>)
    requires AllKinds(c.tables) && AllKinds(st.names)
  {
    && (forall id :: id in claims && claims[id].plugin == p && claims[id].name !in over ==> !Clash(c, st, claims[id].kind, claims[id].name))
    && (forall i, j :: i in claims && j in claims && Twins(claims[i], claims[j], p) && claims[i].name !in over ==>
          claims[i].kind == claims[j].kind)
  }

  ghost predicate DisjointOk(s: State)
    requires AllKinds(s.c.tables) && forall p :: p in s.stages ==> AllKinds(s.stages[p].names)
  {
    && SplitOk(s.c, s.overlapped)
    && (forall p :: p in s.stages && p in s.phase && s.phase[p].Initializing? ==> StageSplit(s.c, s.stages[p], s.overlapped))
    && (forall p :: p in s.stages && p in s.phase && s.phase[p].Initializing? ==> ClaimSplit(s.c, s.stages[p], p, s.claims, s.overlapped))
  }

  ghost predicate Core(s: State) {
    && CommittedOk(s.c) && LoadsOk(s.phase, s.rows, s.stages, s.loading) && StagesOk(s.c, s.stages, s.phase) && DeadOk(s.c, s.phase)
    && (forall id :: id in s.claims ==> s.claims[id].plugin in s.phase && Namespaced(s.claims[id].kind))
  }

  ghost predicate Inv(s: State) {
    Core(s) && DisjointOk(s)
  }

  // ---- each step keeps it ----

  lemma EmptyOk(c: Committed, p: string, claims: map<nat, Claim>, over: set<string>)
    requires AllKinds(c.tables) && forall id :: id in claims ==> claims[id].plugin != p
    ensures StageOk(Empty) && Apart(c, Empty) && StageSplit(c, Empty, over) && ClaimSplit(c, Empty, p, claims, over)
  {
    forall k: Kind ensures k in Empty.names && Empty.names[k] == [] {
      match k case Tool => case Command => case Provider => case Runtime => case Agent =>
    }
  }

  lemma NewStage(c: Committed, stages: map<string, Stage>, phase: map<string, Phase>, p: string, st: Stage, ph: Phase)
    requires StagesOk(c, stages, phase) && StageOk(st) && Apart(c, st)
    ensures StagesOk(c, stages[p := st], phase[p := ph])
  {
    hide StageOk, Apart;
  }

  lemma BeginLoads(phase: map<string, Phase>, rows: map<string, Row>, stages: map<string, Stage>, p: string)
    requires LoadsOk(phase, rows, stages, None) && p !in phase
    ensures LoadsOk(phase[p := Initializing], rows[p := LoadingRow], stages[p := Empty], Some(p))
  {
  }

  lemma BeginCore(s: State, p: string)
    requires Core(s) && p !in s.phase && s.loading == None
    ensures Core(BeginApply(s, p))
  {
    EmptyOk(s.c, p, s.claims, s.overlapped);
    NewStage(s.c, s.stages, s.phase, p, Empty, Initializing);
    BeginLoads(s.phase, s.rows, s.stages, p);
    assert DeadOk(s.c, s.phase[p := Initializing]);
    hide StagesOk, DeadOk, LoadsOk, CommittedOk;
  }

  lemma BeginKept(s: State, p: string)
    requires Inv(s) && p !in s.phase && s.loading == None
    ensures Inv(BeginApply(s, p))
  {
    BeginCore(s, p);
    EmptyOk(s.c, p, s.claims, s.overlapped);
    hide Core, StageSplit, ClaimSplit, SplitOk;
    assert DisjointOk(BeginApply(s, p));
  }

  /** A commit keeps providers and runtimes apart. */
  lemma CommitSplit(c: Committed, st: Stage, owner: string, over: set<string>)
    requires CommittedOk(c) && StageOk(st) && Apart(c, st) && SplitOk(c, over) && StageSplit(c, st, over)
    ensures CommittedOk(Registry.Commit(c, st, owner)) && SplitOk(Registry.Commit(c, st, owner), over)
  {
    CommitMeans(c, st, owner);
    hide CommittedOk, OwnsNothing, Registry.Commit;
    var c' := Registry.Commit(c, st, owner);
    forall n | n in c'.tables[Provider].owners && n !in over ensures n !in c'.tables[Runtime].owners {
      assert n in st.names[Provider] ==> !Clash(c, st, Provider, n);
      assert n in st.names[Runtime] ==> !Clash(c, st, Runtime, n);
    }
  }

  lemma CommitStages(c: Committed, c': Committed, stages: map<string, Stage>, phase: map<string, Phase>, p: string)
    requires StagesOk(c, stages, phase) && AllKinds(c'.tables) && forall q :: q in phase && q != p ==> !phase[q].Initializing?
    ensures StagesOk(c', stages, phase[p := InPlace])
  {
    hide StageOk;
  }

  lemma CommitDead(c: Committed, st: Stage, phase: map<string, Phase>, p: string)
    requires CommittedOk(c) && StageOk(st) && Apart(c, st) && DeadOk(c, phase) && p in phase && !phase[p].Dead?
    ensures CommittedOk(Registry.Commit(c, st, p)) && DeadOk(Registry.Commit(c, st, p), phase[p := InPlace])
  {
    CommitMeans(c, st, p);
    assert Registry.Commit(c, st, p).failed == c.failed;
    hide CommittedOk, StageOk, Apart, OwnsNothing, Registry.Commit;
  }

  lemma CommitCore(s: State, p: string)
    requires Core(s) && Staging(s, p) && s.phase[p].Initializing?
    ensures Core(CommitApply(s, p)) && forall q :: q in CommitApply(s, p).phase ==> !CommitApply(s, p).phase[q].Initializing?
  {
    assert forall q :: q in s.phase && q != p ==> !s.phase[q].Initializing?;
    CommitDead(s.c, s.stages[p], s.phase, p);
    CommitStages(s.c, Registry.Commit(s.c, s.stages[p], p), s.stages, s.phase, p);
    hide CommittedOk, StagesOk, DeadOk, StageOk, Apart, Registry.Commit;
  }

  lemma CommitKept(s: State, p: string)
    requires Inv(s) && Staging(s, p) && s.phase[p].Initializing?
    ensures Inv(CommitApply(s, p))
  {
    CommitCore(s, p);
    CommitSplit(s.c, s.stages[p], p, s.overlapped);
    hide Core, StageOk, Apart, StageSplit, ClaimSplit, SplitOk, Registry.Commit, CommittedOk;
    assert DisjointOk(CommitApply(s, p));
  }

  lemma DieStages(c: Committed, stages: map<string, Stage>, phase: map<string, Phase>, p: string)
    requires StagesOk(c, stages, phase)
    ensures StagesOk(Fail(c, p), stages, phase[p := Dead])
  {
    FailSpares(c, p);
    hide StageOk, Fail;
  }

  lemma DieDead(c: Committed, phase: map<string, Phase>, p: string)
    requires CommittedOk(c) && DeadOk(c, phase)
    ensures DeadOk(Fail(c, p), phase[p := Dead])
  {
    FailMeans(c, p);
    assert Fail(c, p).failed == c.failed + {p};
    hide CommittedOk, OwnsNothing, Fail;
  }

  lemma DieCore(s: State, p: string)
    requires Core(s) && p in s.phase && s.phase[p].Open?
    ensures Core(DieApply(s, p))
  {
    FailOk(s.c, p);
    DieDead(s.c, s.phase, p);
    DieStages(s.c, s.stages, s.phase, p);
    hide CommittedOk, StagesOk, DeadOk, Fail;
  }

  /** With fewer names committed nothing new clashes. */
  ghost predicate Fewer(c: Committed, c': Committed) {
    AllKinds(c.tables) && AllKinds(c'.tables) && forall k: Kind, n :: n in c'.tables[k].owners ==> n in c.tables[k].owners
  }

  lemma FewerSplit(c: Committed, c': Committed, st: Stage, p: string, claims: map<nat, Claim>, over: set<string>)
    requires Fewer(c, c') && AllKinds(st.names)
    ensures StageSplit(c, st, over) ==> StageSplit(c', st, over)
    ensures ClaimSplit(c, st, p, claims, over) ==> ClaimSplit(c', st, p, claims, over)
    ensures SplitOk(c, over) ==> SplitOk(c', over)
  {
    assert forall kind, n :: Clash(c', st, kind, n) ==> Clash(c, st, kind, n);
    hide Clash;
  }

  lemma FewerDisjoint(s: State, s': State)
    requires AllKinds(s.c.tables) && (forall p :: p in s.stages ==> AllKinds(s.stages[p].names)) && DisjointOk(s)
    requires Fewer(s.c, s'.c) && s'.stages == s.stages && s'.claims == s.claims && s'.overlapped == s.overlapped
    requires forall p :: p in s'.phase && s'.phase[p].Initializing? ==> p in s.phase && s.phase[p].Initializing?
    ensures DisjointOk(s')
  {
    FewerSplit(s.c, s'.c, Empty, "", s.claims, s.overlapped) by { EmptyKinds(); }
    forall p | p in s'.stages && p in s'.phase && s'.phase[p].Initializing?
      ensures StageSplit(s'.c, s'.stages[p], s'.overlapped) && ClaimSplit(s'.c, s'.stages[p], p, s'.claims, s'.overlapped)
    {
      FewerSplit(s.c, s'.c, s.stages[p], p, s.claims, s.overlapped);
    }
    hide StageSplit, ClaimSplit, SplitOk, Fewer;
  }

  lemma EmptyKinds()
    ensures AllKinds(Empty.names)
  {
    forall k: Kind ensures k in Empty.names {
      match k case Tool => case Command => case Provider => case Runtime => case Agent =>
    }
  }

  lemma DieKept(s: State, p: string)
    requires Inv(s) && p in s.phase && s.phase[p].Open?
    ensures Inv(DieApply(s, p))
  {
    DieCore(s, p);
    FailSpares(s.c, p);
    assert Fewer(s.c, DieApply(s, p).c);
    FewerDisjoint(s, DieApply(s, p));
    hide Core, Fail, DisjointOk;
  }

  /** How Load and a failing Init move a plugin on. */
  predicate Moves(from: Phase, to: Phase) {
    (from.Initializing? && to.Discarded?) || (from.InPlace? && to.Ready?) || (from.Ready? && to.Open?)
  }

  lemma PhaseCore(s: State, p: string, ph: Phase, row: Row, loading: Option<string>)
    requires Core(s) && p in s.phase && Moves(s.phase[p], ph) && loading == (if ph.Ready? then s.loading else None)
    ensures Core(s.(phase := s.phase[p := ph], rows := s.rows[p := row], loading := loading))
  {
    assert DeadOk(s.c, s.phase[p := ph]) by { hide OwnsNothing; }
    assert StagesOk(s.c, s.stages, s.phase[p := ph]) by { hide StageOk, Apart; }
    hide StagesOk, DeadOk, CommittedOk;
  }

  lemma PhaseKept(s: State, p: string, ph: Phase, row: Row, loading: Option<string>)
    requires Inv(s) && p in s.phase && Moves(s.phase[p], ph) && loading == (if ph.Ready? then s.loading else None)
    ensures Inv(s.(phase := s.phase[p := ph], rows := s.rows[p := row], loading := loading))
  {
    PhaseCore(s, p, ph, row, loading);
    var s' := s.(phase := s.phase[p := ph], rows := s.rows[p := row], loading := loading);
    FewerDisjoint(s, s');
    hide Core, DisjointOk;
  }

  /** Staging keeps a stage consistent and apart from what is committed. */
  lemma StagedMeans(c: Committed, st: Stage, kind: Kind, name: string)
    requires AllKinds(c.tables) && StageOk(st)
    ensures StageOk(Staged(c, st, kind, name))
    ensures Apart(c, st) ==> Apart(c, Staged(c, st, kind, name))
  {
  }

  /** A name that does not clash can be staged. */
  lemma StagedSplit(c: Committed, st: Stage, kind: Kind, name: string, over: set<string>)
    requires AllKinds(c.tables) && AllKinds(st.names) && StageSplit(c, st, over)
    requires Namespaced(kind) && name !in over ==> !Clash(c, st, kind, name)
    ensures AllKinds(Staged(c, st, kind, name).names) && StageSplit(c, Staged(c, st, kind, name), over)
  {
  }

  /** And makes no other claim clash, unless that one is for the same name on the other side. */
  lemma StagedClaims(c: Committed, st: Stage, kind: Kind, name: string, p: string, claims: map<nat, Claim>, over: set<string>)
    requires AllKinds(c.tables) && AllKinds(st.names) && ClaimSplit(c, st, p, claims, over)
    requires !Namespaced(kind) || exists id :: id in claims && claims[id] == Claim(p, kind, name)
    requires forall id :: id in claims ==> Namespaced(claims[id].kind)
    ensures AllKinds(Staged(c, st, kind, name).names) && ClaimSplit(c, Staged(c, st, kind, name), p, claims, over)
  {
  }

  lemma RegisterCore(s: State, p: string, kind: Kind, name: string)
    requires Core(s) && Staging(s, p)
    ensures Core(Restage(s, p, Staged(s.c, s.stages[p], kind, name)))
  {
    StagedMeans(s.c, s.stages[p], kind, name);
    hide StageOk, Apart, OwnsNothing, CommittedOk, Staged;
  }

  lemma RegisterDisjoint(s: State, p: string, kind: Kind, name: string)
    requires Inv(s) && Staging(s, p) && (!Namespaced(kind) || exists id :: id in s.claims && s.claims[id] == Claim(p, kind, name))
    ensures AllKinds(Staged(s.c, s.stages[p], kind, name).names) && DisjointOk(Restage(s, p, Staged(s.c, s.stages[p], kind, name)))
  {
    if s.phase[p].Initializing? {
      StagedClaims(s.c, s.stages[p], kind, name, p, s.claims, s.overlapped);
      StagedSplit(s.c, s.stages[p], kind, name, s.overlapped);
    } else {
      StagedMeans(s.c, s.stages[p], kind, name);
    }
    hide CommittedOk, LoadsOk, DeadOk, StageSplit, ClaimSplit, SplitOk, Staged;
  }

  lemma RegisterKept(s: State, p: string, kind: Kind, name: string)
    requires Inv(s) && Staging(s, p) && (!Namespaced(kind) || exists id :: id in s.claims && s.claims[id] == Claim(p, kind, name))
    ensures Inv(Restage(s, p, Staged(s.c, s.stages[p], kind, name)))
  {
    RegisterCore(s, p, kind, name);
    RegisterDisjoint(s, p, kind, name);
    hide Core, DisjointOk, Staged;
  }

  lemma CheckSplit(c: Committed, st: Stage, p: string, claims: map<nat, Claim>, over: set<string>, id: nat, kind: Kind, name: string, over': set<string>)
    requires AllKinds(c.tables) && AllKinds(st.names) && ClaimSplit(c, st, p, claims, over) && over <= over'
    requires Namespaced(kind) && id !in claims && (forall i :: i in claims ==> Namespaced(claims[i].kind))
    requires !Clash(c, st, kind, name) && (name !in over' ==> forall i :: i in claims ==> claims[i] != Claim(p, Other(kind), name))
    ensures ClaimSplit(c, st, p, claims[id := Claim(p, kind, name)], over')
  {
  }

  lemma CheckOthers(c: Committed, st: Stage, q: string, claims: map<nat, Claim>, over: set<string>, id: nat, cl: Claim, over': set<string>)
    requires AllKinds(c.tables) && AllKinds(st.names) && ClaimSplit(c, st, q, claims, over) && over <= over' && cl.plugin != q && id !in claims
    ensures ClaimSplit(c, st, q, claims[id := cl], over')
  {
  }

  lemma CheckDisjoint(s: State, id: nat, p: string, kind: Kind, name: string)
    requires Inv(s) && Staging(s, p) && Namespaced(kind) && id !in s.claims && !Clash(s.c, s.stages[p], kind, name)
    ensures DisjointOk(CheckApply(s, id, p, kind, name))
  {
    var s' := CheckApply(s, id, p, kind, name);
    forall q | q in s.stages && q in s.phase && s.phase[q].Initializing?
      ensures ClaimSplit(s.c, s.stages[q], q, s'.claims, s'.overlapped)
    {
      if q == p {
        CheckSplit(s.c, s.stages[p], p, s.claims, s.overlapped, id, kind, name, s'.overlapped);
      } else {
        CheckOthers(s.c, s.stages[q], q, s.claims, s.overlapped, id, Claim(p, kind, name), s'.overlapped);
      }
    }
    hide Core, ClaimSplit, Clash, Rival;
  }

  lemma CheckKept(s: State, id: nat, p: string, kind: Kind, name: string)
    requires Inv(s) && Staging(s, p) && Namespaced(kind) && id !in s.claims && !Clash(s.c, s.stages[p], kind, name)
    ensures Inv(CheckApply(s, id, p, kind, name))
  {
    CheckDisjoint(s, id, p, kind, name);
    assert Core(CheckApply(s, id, p, kind, name)) by { hide CommittedOk, LoadsOk, StagesOk, DeadOk, DisjointOk, Overlaps; }
    hide Core, DisjointOk;
  }

  lemma DropKept(s: State, id: nat)
    requires Inv(s)
    ensures Inv(s.(claims := s.claims - {id}))
  {
    hide StageOk, Apart, StageSplit, OwnsNothing, CommittedOk;
  }

  lemma ClaimKept(s: State, id: nat)
    requires Inv(s) && id in s.claims && Staging(s, s.claims[id].plugin)
    ensures Inv(Apply(s, StageClaim(id)))
  {
    var cl := s.claims[id];
    hide Inv, Staged;
    RegisterKept(s, cl.plugin, cl.kind, cl.name);
    DropKept(Restage(s, cl.plugin, Staged(s.c, s.stages[cl.plugin], cl.kind, cl.name)), id);
  }

  lemma ItemStages(c: Committed, stages: map<string, Stage>, phase: map<string, Phase>, p: string, st: Stage)
    requires StagesOk(c, stages, phase) && p in stages && st.names == stages[p].names
    ensures StagesOk(c, stages[p := st], phase)
  {
  }

  lemma ItemSplit(s: State, p: string, st: Stage)
    requires AllKinds(s.c.tables) && (forall q :: q in s.stages ==> AllKinds(s.stages[q].names)) && DisjointOk(s)
    requires p in s.stages && st.names == s.stages[p].names
    ensures DisjointOk(Restage(s, p, st))
  {
    hide SplitOk;
  }

  lemma ItemKept(s: State, p: string, st: Stage)
    requires Inv(s) && Staging(s, p) && st.names == s.stages[p].names
    ensures Inv(Restage(s, p, st))
  {
    ItemStages(s.c, s.stages, s.phase, p, st);
    ItemSplit(s, p, st);
    hide StagesOk, DeadOk, CommittedOk, DisjointOk;
  }

  lemma ThroughCore(s: State, k: Key, clear: bool, widget: bool)
    requires Core(s)
    ensures Core(s.(c := Through(s.c, k, clear, widget)))
  {
    PutMeans(s.c.status, k, clear);
    PutMeans(s.c.widgets, k, false);
    hide StageOk, ItemsOk, TableOk, Put;
  }

  lemma ThroughKept(s: State, k: Key, clear: bool, widget: bool)
    requires Inv(s)
    ensures Inv(s.(c := Through(s.c, k, clear, widget)))
  {
    ThroughCore(s, k, clear, widget);
    assert Through(s.c, k, clear, widget).tables == s.c.tables;
    FewerDisjoint(s, s.(c := Through(s.c, k, clear, widget)));
    hide Core, Through, DisjointOk;
  }

  lemma StepInv(s: State, step: Step)
    requires Inv(s) && Enabled(s, step)
    ensures Inv(Apply(s, step))
  {
    hide Inv, BeginApply, CommitApply, DieApply, CheckApply, Staged, Through, StageItem, Clash;
    match step
    case BeginLoad(p) => BeginKept(s, p);
    case InitFails(p) => PhaseKept(s, p, Discarded, FailedRow, None);
    case CommitIt(p) => CommitKept(s, p);
    case MarkReady(p) => ReadyKept(s, p);
    case OpenGate(p) => OpenKept(s, p);
    case Die(p) => DieKept(s, p);
    case Register(p, kind, name) => RegisterKept(s, p, kind, name);
    case Check(id, p, kind, name) => if !Clash(s.c, s.stages[p], kind, name) { CheckKept(s, id, p, kind, name); }
    case StageClaim(id) => ClaimKept(s, id);
    case AddHook(p) => ItemKept(s, p, s.stages[p].(hooks := s.stages[p].hooks + 1));
    case SetItem(id, p, key, clear, widget) => SetItemKept(s, id, p, key, clear, widget);
    case WriteThrough(id) =>
      ThroughKept(s, s.writes[id].key, s.writes[id].clear, s.writes[id].widget);
      WritesKept(s.(c := Through(s.c, s.writes[id].key, s.writes[id].clear, s.writes[id].widget)), s.writes - {id});
  }

  lemma ReadyKept(s: State, p: string)
    requires Inv(s) && p in s.phase && s.phase[p].InPlace?
    ensures Inv(s.(phase := s.phase[p := Ready], rows := s.rows[p := ReadyRow]))
  {
    hide Inv;
    PhaseKept(s, p, Ready, ReadyRow, s.loading);
  }

  lemma OpenKept(s: State, p: string)
    requires Inv(s) && p in s.phase && s.phase[p].Ready?
    ensures Inv(s.(phase := s.phase[p := Open], loading := None))
  {
    assert p in s.rows;
    hide Inv;
    PhaseKept(s, p, Open, s.rows[p], None);
    assert s.rows[p := s.rows[p]] == s.rows;
  }

  lemma WritesKept(s: State, writes: map<nat, Write>)
    requires Inv(s)
    ensures Inv(s.(writes := writes))
  {
    assert Core(s.(writes := writes)) by { hide CommittedOk, LoadsOk, StagesOk, DeadOk; }
    hide Core, StageSplit, ClaimSplit, SplitOk;
  }

  lemma SetItemKept(s: State, id: nat, p: string, key: string, clear: bool, widget: bool)
    requires Inv(s) && Staging(s, p) && id !in s.writes
    ensures Inv(if Live(s.phase[p]) then s.(writes := s.writes[id := Write((p, key), clear, widget)])
                else Restage(s, p, StageItem(s.stages[p], key, clear, widget)))
  {
    assert StageItem(s.stages[p], key, clear, widget).names == s.stages[p].names;
    hide Inv, StageItem;
    if Live(s.phase[p]) {
      WritesKept(s, s.writes[id := Write((p, key), clear, widget)]);
    } else {
      ItemKept(s, p, StageItem(s.stages[p], key, clear, widget));
    }
  }

  lemma StepFailed(s: State, step: Step)
    requires Enabled(s, step)
    ensures s.c.failed <= Apply(s, step).c.failed
  {
    hide Staged, StageItem, Put, PutAll, Installed, Withdrawn, Clash, Rival;
  }

  lemma NextInv(s: State, s': State)
    requires Inv(s) && Next(s, s')
    ensures Inv(s') && s.c.failed <= s'.c.failed
  {
    hide Inv, Enabled, Apply;
    var step :| Enabled(s, step) && s' == Apply(s, step);
    StepInv(s, step);
    StepFailed(s, step);
  }

  lemma InitInv(s: State)
    requires Init(s)
    ensures Inv(s)
  {
  }

  /** Every state of every run satisfies the invariant. */
  lemma {:induction false} RunInv(tr: seq<State>, i: nat)
    requires Run(tr) && i < |tr|
    ensures Inv(tr[i])
  {
    hide Inv, Next;
    if i == 0 {
      InitInv(tr[0]);
    } else {
      RunInv(tr, i - 1);
      NextInv(tr[i - 1], tr[i - 1 + 1]);
    }
  }

  // ---- the theorems ----

  /** In every reachable state each order list names its table's keys, each once. */
  lemma OrdersListKeys(tr: seq<State>, i: nat)
    requires Run(tr) && i < |tr|
    ensures forall k: Kind :: k in tr[i].c.tables && TableOk(tr[i].c.tables[k])
    ensures TableOk(tr[i].c.status) && TableOk(tr[i].c.widgets)
  {
    RunInv(tr, i);
  }

  /** Only a name that a plugin was registering as both at the same time is ever a provider's and a runtime's. */
  lemma ProvidersApart(tr: seq<State>, i: nat, n: string)
    requires Run(tr) && i < |tr|
    ensures AllKinds(tr[i].c.tables)
    ensures n in tr[i].c.tables[Provider].owners && n in tr[i].c.tables[Runtime].owners ==> n in tr[i].overlapped
  {
    RunInv(tr, i);
  }

  lemma {:induction false} FailedForGood(tr: seq<State>, i: nat, j: nat)
    requires Run(tr) && i <= j < |tr|
    ensures tr[i].c.failed <= tr[j].c.failed
    decreases j
  {
    hide Inv, Next, Init;
    if i < j {
      FailedForGood(tr, i, j - 1);
      RunInv(tr, j - 1);
      NextInv(tr[j - 1], tr[j - 1 + 1]);
    }
  }

  /** Once a committed plugin has failed, it owns nothing ever again and its status row stays failed. */
  lemma DeadForGood(tr: seq<State>, i: nat, j: nat, p: string)
    requires Run(tr) && i <= j < |tr| && p in tr[i].c.failed
    ensures p in tr[j].c.failed && OwnsNothing(tr[j].c, p)
    ensures p in tr[j].rows && tr[j].rows[p] == FailedRow
  {
    FailedForGood(tr, i, j);
    RunInv(tr, j);
    hide CommittedOk, StagesOk, OwnsNothing, Run;
  }

  // ---- one name as both ----

  ghost predicate Takes(s: State, step: Step, s': State) { Enabled(s, step) && s' == Apply(s, step) }

  /** After the check, another pending claim and this one are staged, then Load commits. */
  ghost predicate Ends(s: State, id: nat, p: string, kind: Kind, name: string, other: nat, mid: seq<State>) {
    && |mid| == 4 && Takes(s, Check(id, p, kind, name), mid[0]) && Takes(mid[0], StageClaim(other), mid[1])
    && Takes(mid[1], StageClaim(id), mid[2]) && Takes(mid[2], CommitIt(p), mid[3])
  }

  /** The check of a plugin in its Init passed, and another claim of it is pending. */
  ghost predicate Passes(s: State, id: nat, p: string, kind: Kind, name: string, other: nat) {
    && Enabled(s, Check(id, p, kind, name)) && !Clash(s.c, s.stages[p], kind, name) && s.phase[p].Initializing? && name != ""
    && other in s.claims && s.claims[other].plugin == p
  }

  /** What that continuation commits. */
  lemma Continues(s: State, id: nat, p: string, kind: Kind, name: string, other: nat) returns (mid: seq<State>)
    requires Passes(s, id, p, kind, name, other) && StageOk(s.stages[p])
    ensures Ends(s, id, p, kind, name, other, mid)
    ensures var st1 := Staged(s.c, s.stages[p], s.claims[other].kind, s.claims[other].name);
            AllKinds(st1.names) && AllKinds(Staged(s.c, st1, kind, name).names) &&
            mid[3].c == Registry.Commit(s.c, Staged(s.c, st1, kind, name), p)
  {
    var cl := s.claims[other];
    StagedMeans(s.c, s.stages[p], cl.kind, cl.name);
    var st1 := Staged(s.c, s.stages[p], cl.kind, cl.name);
    StagedMeans(s.c, st1, kind, name);
    var st2 := Staged(s.c, st1, kind, name);
    assert AllKinds(s.c.tables) && AllKinds(st1.names) && AllKinds(st2.names);
    hide Staged, Registry.Commit, StageOk, Apart, Overlaps, Apply;
    var s1, s2 := ChecksAndStages(s, id, p, kind, name, other, st1);
    hide Takes;
    var s3, s4 := StagesAndCommits(s2, id, p, kind, name, st2);
    mid := [s1, s2, s3, s4];
  }

  lemma StagesAndCommits(s: State, id: nat, p: string, kind: Kind, name: string, st: Stage) returns (s1: State, s2: State)
    requires Staging(s, p) && s.phase[p].Initializing? && id in s.claims && s.claims[id] == Claim(p, kind, name)
    requires st == Staged(s.c, s.stages[p], kind, name) && AllKinds(st.names)
    ensures Takes(s, StageClaim(id), s1) && Takes(s1, CommitIt(p), s2) && s2.c == Registry.Commit(s.c, st, p)
  {
    hide Staged, Registry.Commit;
    s1 := Restage(s, p, st).(claims := s.claims - {id});
    s2 := CommitApply(s1, p);
  }

  lemma ChecksAndStages(s: State, id: nat, p: string, kind: Kind, name: string, other: nat, st1: Stage) returns (s1: State, s2: State)
    requires Passes(s, id, p, kind, name, other) && st1 == Staged(s.c, s.stages[p], s.claims[other].kind, s.claims[other].name)
    ensures Takes(s, Check(id, p, kind, name), s1) && Takes(s1, StageClaim(other), s2)
    ensures s2.c == s.c && s2.phase == s.phase && s2.stages == s.stages[p := st1] && s2.claims == s.claims[id := Claim(p, kind, name)] - {other}
  {
    hide Staged, Overlaps;
    s1 := CheckApply(s, id, p, kind, name);
    s2 := Restage(s1, p, st1).(claims := s1.claims - {other});
  }

  lemma StagedIn(c: Committed, st: Stage, kind: Kind, name: string, k: Kind, n: string)
    requires AllKinds(c.tables) && AllKinds(st.names)
    ensures var st' := Staged(c, st, kind, name);
            AllKinds(st'.names) &&
            (n in st'.names[k] <==> n in st.names[k] || (k == kind && n == name && n != "" && n !in c.tables[k].owners))
  {
  }

  /** Staging two names after a check that passed leaves the checked one on both sides only if the other is its rival. */
  lemma BothNames(c: Committed, st: Stage, k: Kind, n: string, kind: Kind, name: string, p: string)
    requires CommittedOk(c) && StageOk(st) && Apart(c, st) && Namespaced(kind) && Namespaced(k) && name != "" && !Clash(c, st, kind, name)
    ensures var st1 := Staged(c, st, k, n);
            AllKinds(st1.names) && var st2 := Staged(c, st1, kind, name);
            AllKinds(st2.names) && var c' := Registry.Commit(c, st2, p);
            AllKinds(c'.tables) && (name in c'.tables[Provider].owners && name in c'.tables[Runtime].owners <==> k == Other(kind) && n == name)
  {
    var st1 := Staged(c, st, k, n);
    StagedMeans(c, st, k, n);
    var st2 := Staged(c, st1, kind, name);
    StagedMeans(c, st1, kind, name);
    StagedIn(c, st, k, n, Other(kind), name);
    StagedIn(c, st1, kind, name, Other(kind), name);
    StagedIn(c, st1, kind, name, kind, name);
    CommitMeans(c, st2, p);
    hide CommittedOk, StageOk, Apart, OwnsNothing, Staged, Registry.Commit;
  }

  /**
   In every reachable state, when a check for a nonempty name passes while another claim of the
   same plugin, still in its Init, is pending, staging both and committing makes the name a
   provider and a runtime if and only if that claim is for the same name on the other side.
   */
  lemma BothCommittedIff(tr: seq<State>, i: nat, id: nat, p: string, kind: Kind, name: string, other: nat) returns (mid: seq<State>)
    requires Run(tr) && i < |tr| && Passes(tr[i], id, p, kind, name, other)
    ensures Ends(tr[i], id, p, kind, name, other, mid) && AllKinds(mid[3].c.tables)
    ensures name in mid[3].c.tables[Provider].owners && name in mid[3].c.tables[Runtime].owners <==>
            tr[i].claims[other] == Claim(p, Other(kind), name)
  {
    RunInv(tr, i);
    var s, cl := tr[i], tr[i].claims[other];
    BothNames(s.c, s.stages[p], cl.kind, cl.name, kind, name, p);
    hide Inv, Staged, Registry.Commit, Clash, Ends;
    mid := Continues(s, id, p, kind, name, other);
  }

  lemma StepNext(s: State, step: Step, s': State)
    requires Takes(s, step, s')
    ensures Next(s, s')
  {
  }

  /** A plugin registers a name as a provider, and has yet to stage it. */
  lemma OneChecked(s0: State) returns (tr: seq<State>)
    requires Init(s0)
    ensures Run(tr) && |tr| == 3 && tr[0] == s0 && Passes(tr[2], 1, "p", Runtime, "x", 0) && tr[2].claims[0] == Claim("p", Provider, "x")
  {
    EmptyOk(s0.c, "p", map[], {});
    hide StageOk, CommittedOk;
    var s1 := BeginApply(s0, "p");
    var s2 := CheckApply(s1, 0, "p", Provider, "x");
    StepNext(s0, BeginLoad("p"), s1);
    StepNext(s1, Check(0, "p", Provider, "x"), s2);
    hide Next, Init, Rival;
    tr := [s0, s1, s2];
  }

  /** So from the very start: a plugin that registers one name as a provider and as a runtime at once gets it committed as both. */
  lemma OverlapCollides(s0: State) returns (tr: seq<State>)
    requires Init(s0)
    ensures Run(tr) && tr[0] == s0
    ensures var c := tr[|tr| - 1].c; AllKinds(c.tables) && "x" in c.tables[Provider].owners && "x" in c.tables[Runtime].owners
  {
    tr := OneChecked(s0);
    hide Init, Run, Passes;
    var mid := BothCommittedIff(tr, 2, 1, "p", Runtime, "x", 0);
    StepNext(tr[2], Check(1, "p", Runtime, "x"), mid[0]);
    StepNext(mid[0], StageClaim(0), mid[1]);
    StepNext(mid[1], StageClaim(1), mid[2]);
    StepNext(mid[2], CommitIt("p"), mid[3]);
    Extend(tr, mid);
    tr := tr + mid;
  }

  lemma Extend(tr: seq<State>, more: seq<State>)
    requires Run(tr) && |more| == 4 && Next(tr[|tr| - 1], more[0]) && forall i :: 0 <= i < 3 ==> Next(more[i], more[i + 1])
    ensures Run(tr + more)
  {
    hide Next, Init;
  }
}
