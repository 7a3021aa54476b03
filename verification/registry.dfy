/**
 The plugin registry: each plugin stages its registrations while it initializes, they are
 committed together, and a spawned plugin that dies afterwards has everything it owns withdrawn.
 */
module Registry {
  import opened Basics

  /** A table and the order its keys were first set in; only the owner of an entry matters here. */
  datatype Table<K> = Table(owners: map<K, string>, order: seq<K>)

  ghost predicate TableOk<K(!new)>(t: Table<K>) {
    Distinct(t.order) && forall k :: k in t.order <==> k in t.owners
  }

  /** A committed table with a plugin's names added. */
  function Installed(t: Table<string>, names: seq<string>, owner: string): Table<string>
    decreases names
  {
    if names == [] then t
    else Installed(Table(t.owners[names[0] := owner], t.order + [names[0]]), names[1..], owner)
  }

  /** commit's loop over one table. */
  method InstallAll(t: Table<string>, names: seq<string>, owner: string) returns (r: Table<string>)
    ensures r == Installed(t, names, owner)
  {
    r := t;
    for i := 0 to |names|
      invariant Installed(r, names[i..], owner) == Installed(t, names, owner)
    {
      assert names[i..][0] == names[i] && names[i..][1..] == names[i + 1..];
      r := Table(r.owners[names[i] := owner], r.order + [names[i]]);
    }
  }

  /** Fresh, distinct names keep the table consistent and become the owner's. */
  lemma {:induction false} InstalledMeans(t: Table<string>, names: seq<string>, owner: string)
    requires TableOk(t) && Distinct(names) && forall n :: n in names ==> n !in t.owners
    ensures TableOk(Installed(t, names, owner))
    ensures var r := Installed(t, names, owner); forall k :: k in r.owners <==> k in t.owners || k in names
    ensures var r := Installed(t, names, owner); forall k :: k in r.owners ==> r.owners[k] == if k in names then owner else t.owners[k]
    decreases names
  {
    if names != [] {
      var n, rest := names[0], names[1..];
      var t' := Table(t.owners[n := owner], t.order + [n]);
      assert n in names && forall m :: m in rest ==> m in names && m != n;
      assert Distinct(rest) && TableOk(t');
      InstalledMeans(t', rest, owner);
      assert forall k :: k in names <==> k == n || k in rest;
    }
  }

  /** Not an entry of this owner's. */
  function Others<K(!new)>(t: Table<K>, owner: string): K -> bool {
    k => !(k in t.owners && t.owners[k] == owner)
  }

  /** A table without one owner's entries. */
  function Withdrawn<K(!new)>(t: Table<K>, owner: string): Table<K> {
    Table(map k | k in t.owners && t.owners[k] != owner :: t.owners[k], Filter(t.order, Others(t, owner)))
  }

  lemma WithdrawnMeans<K(!new)>(t: Table<K>, owner: string)
    requires TableOk(t)
    ensures TableOk(Withdrawn(t, owner))
    ensures forall k :: k in Withdrawn(t, owner).owners ==> Withdrawn(t, owner).owners[k] != owner
  {
    FilterDistinct(t.order, Others(t, owner));
  }

  /** withdraw: one pass over the order list, deleting as it goes. */
  method Withdraw<K(!new)>(t: Table<K>, owner: string) returns (r: Table<K>)
    requires TableOk(t)
    ensures r == Withdrawn(t, owner)
  {
    var owners, kept := t.owners, [];
    for i := 0 to |t.order|
      invariant kept == Filter(t.order[..i], Others(t, owner))
      invariant owners == Half(t, owner, i)
    {
      var n := t.order[i];
      FilterAppend(t.order[..i], n, Others(t, owner));
      HalfStep(t, owner, i);
      hide Half, TableOk;
      if n in owners && owners[n] == owner {
        owners := owners - {n};
      } else {
        kept := kept + [n];
      }
    }
    assert t.order[..|t.order|] == t.order;
    return Table(owners, kept);
  }

  /** The entries left once the first i keys were looked at. */
  ghost function Half<K(!new)>(t: Table<K>, owner: string, i: nat): map<K, string>
    requires i <= |t.order|
  {
    map k | k in t.owners && !(k in t.order[..i] && t.owners[k] == owner) :: t.owners[k]
  }

  lemma HalfStep<K(!new)>(t: Table<K>, owner: string, i: nat)
    requires TableOk(t) && i < |t.order|
    ensures t.order[..i + 1] == t.order[..i] + [t.order[i]]
    ensures var n := t.order[i];
            n in t.owners && n in Half(t, owner, i) && Half(t, owner, i)[n] == t.owners[n] &&
            Half(t, owner, i + 1) == if t.owners[n] == owner then Half(t, owner, i) - {n} else Half(t, owner, i)
  {
    assert t.order[..i + 1] == t.order[..i] + [t.order[i]];
    assert t.order[i] in t.order && t.order[i] !in t.order[..i];
  }

  /** An item of one owner under one key. */
  type Key = (string, string)

  /** Storing or clearing a status item; a widget is only ever stored. */
  function Put(t: Table<Key>, k: Key, clear: bool): Table<Key> {
    if clear then (if k in t.owners then Table(t.owners - {k}, Filter(t.order, o => o != k)) else t)
    else Table(t.owners[k := k.0], if k in t.owners then t.order else t.order + [k])
  }

  ghost predicate ItemsOk(t: Table<Key>) { TableOk(t) && forall k :: k in t.owners ==> t.owners[k] == k.0 }

  lemma PutMeans(t: Table<Key>, k: Key, clear: bool)
    requires ItemsOk(t)
    ensures ItemsOk(Put(t, k, clear))
    ensures forall o :: o in Put(t, k, clear).owners <==> (o in t.owners && !(o == k && clear)) || (o == k && !clear)
  {
    FilterDistinct(t.order, (o: Key) => o != k);
  }

  /** Everything a plugin staged under these keys, in order. */
  function PutAll(t: Table<Key>, owner: string, items: seq<(string, bool)>): Table<Key>
    decreases items
  {
    if items == [] then t else PutAll(Put(t, (owner, items[0].0), items[0].1), owner, items[1..])
  }

  lemma {:induction false} PutAllMeans(t: Table<Key>, owner: string, items: seq<(string, bool)>)
    requires ItemsOk(t)
    ensures ItemsOk(PutAll(t, owner, items))
    ensures forall o :: o in PutAll(t, owner, items).owners && o.0 != owner ==> o in t.owners
    decreases items
  {
    if items != [] {
      var t' := Put(t, (owner, items[0].0), items[0].1);
      PutMeans(t, (owner, items[0].0), items[0].1);
      PutAllMeans(t', owner, items[1..]);
    }
  }

  // ---- the committed registry ----

  datatype Kind = Tool | Command | Provider | Runtime | Agent

  datatype Committed = Committed(tables: map<Kind, Table<string>>, hooks: seq<string>, status: Table<Key>, widgets: Table<Key>, failed: set<string>)

  /** What a plugin has staged. */
  datatype Stage = Stage(names: map<Kind, seq<string>>, hooks: nat, status: seq<(string, bool)>, widgets: seq<(string, bool)>)

  predicate AllKinds<T>(m: map<Kind, T>) { forall k: Kind :: k in m }

  ghost predicate CommittedOk(c: Committed) {
    AllKinds(c.tables) && (forall k: Kind :: TableOk(c.tables[k])) && ItemsOk(c.status) && ItemsOk(c.widgets)
  }

  ghost predicate StageOk(st: Stage) { AllKinds(st.names) && forall k: Kind :: Distinct(st.names[k]) }

  /** Nothing staged is committed already. */
  ghost predicate Apart(c: Committed, st: Stage)
    requires AllKinds(c.tables) && AllKinds(st.names)
  {
    forall k: Kind, n :: n in st.names[k] ==> n !in c.tables[k].owners
  }

  function Commit(c: Committed, st: Stage, owner: string): Committed
    requires AllKinds(c.tables) && AllKinds(st.names)
  {
    c.(tables := map k | k in c.tables :: Installed(c.tables[k], st.names[k], owner),
       hooks := c.hooks + seq(st.hooks, i => owner),
       status := PutAll(c.status, owner, st.status),
       widgets := PutAll(c.widgets, owner, st.widgets))
  }

  function Fail(c: Committed, owner: string): Committed {
    Committed(map k | k in c.tables :: Withdrawn(c.tables[k], owner), Filter(c.hooks, h => h != owner),
              Withdrawn(c.status, owner), Withdrawn(c.widgets, owner), c.failed + {owner})
  }

  /** The owner has nothing in the registry. */
  ghost predicate OwnsNothing(c: Committed, owner: string) {
    && (forall k: Kind, n :: k in c.tables && n in c.tables[k].owners ==> c.tables[k].owners[n] != owner)
    && owner !in c.hooks
    && (forall k :: k in c.status.owners ==> k.0 != owner)
    && (forall k :: k in c.widgets.owners ==> k.0 != owner)
  }

  lemma CommitMeans(c: Committed, st: Stage, owner: string)
    requires CommittedOk(c) && StageOk(st) && Apart(c, st)
    ensures CommittedOk(Commit(c, st, owner))
    ensures forall k: Kind, n :: n in Commit(c, st, owner).tables[k].owners <==> n in c.tables[k].owners || n in st.names[k]
    ensures forall other :: other != owner && OwnsNothing(c, other) ==> OwnsNothing(Commit(c, st, owner), other)
  {
    var c' := Commit(c, st, owner);
    forall k: Kind
      ensures TableOk(c'.tables[k])
      ensures forall n :: n in c'.tables[k].owners <==> n in c.tables[k].owners || n in st.names[k]
      ensures forall n :: n in c'.tables[k].owners ==> c'.tables[k].owners[n] == owner || (n in c.tables[k].owners && c'.tables[k].owners[n] == c.tables[k].owners[n])
    {
      InstalledMeans(c.tables[k], st.names[k], owner);
    }
    PutAllMeans(c.status, owner, st.status);
    PutAllMeans(c.widgets, owner, st.widgets);
    hide Installed, TableOk;
  }

  lemma FailOk(c: Committed, owner: string)
    requires CommittedOk(c)
    ensures CommittedOk(Fail(c, owner))
  {
    forall k: Kind ensures TableOk(Fail(c, owner).tables[k]) { WithdrawnMeans(c.tables[k], owner); }
    WithdrawnMeans(c.status, owner);
    WithdrawnMeans(c.widgets, owner);
    hide TableOk;
  }

  /** Failing withdraws everything the plugin owns. */
  lemma FailMeans(c: Committed, owner: string)
    requires CommittedOk(c)
    ensures OwnsNothing(Fail(c, owner), owner)
    ensures forall other :: OwnsNothing(c, other) ==> OwnsNothing(Fail(c, owner), other)
  {
    hide TableOk;
  }

  /** And nothing of anybody else's. */
  lemma FailSpares(c: Committed, owner: string)
    requires AllKinds(c.tables)
    ensures AllKinds(Fail(c, owner).tables)
    ensures forall k: Kind, n :: n in Fail(c, owner).tables[k].owners ==> n in c.tables[k].owners
    ensures forall k: Kind, n :: n in c.tables[k].owners && c.tables[k].owners[n] != owner ==>
              n in Fail(c, owner).tables[k].owners && Fail(c, owner).tables[k].owners[n] == c.tables[k].owners[n]
  {
  }
}
