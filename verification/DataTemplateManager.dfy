/** The Metal3DataTemplate manager: hands every Metal3DataClaim of a template the
    smallest free index, creates and deletes the Metal3Data that carries it, and
    keeps the index list of the template's status in step with the local list it
    works on. */
module DataTemplateManager {
  import opened Wrappers
  import opened ApiServer
  import opened Names
  import opened IndexLists

  const MAX_INT32: nat := 0x7fff_ffff
  const DATA_CLAIM_FINALIZER := "metal3dataclaim.infrastructure.cluster.x-k8s.io"

  /** The part of a Metal3Data that is fixed at creation. */
  datatype Metal3Data = Metal3Data(template: Option<string>, claim: Option<string>, index: int)

  datatype Owner = Machine(name: string) | Missing | Unparsable

  /** A Metal3DataClaim as listed. `paused` is the state of its owning Cluster. */
  datatype DataClaim = DataClaim(name: string, template: string, deleting: bool,
                                 rendered: Option<string>, paused: bool, owner: Owner)

  datatype Error = NoOwner | BadVersion | TooMany | AlreadyExists | ApiFailure | ClusterPaused

  type Store = map<string, Object<Metal3Data>>

  // ----- the smallest free index -----

  ghost predicate LeastFree(taken: iset<int>, i: int) {
    && 0 <= i && i !in taken
    && forall j :: 0 <= j < i ==> j in taken
  }

  ghost function Indexes(es: seq<IndexEntry>): iset<int> {
    iset i | Taken(es, i)
  }

  /** Covering 0..n-1 takes at least n entries, duplicates or not. */
  lemma {:induction false} Pigeonhole(es: seq<IndexEntry>, n: nat)
    requires forall j :: 0 <= j < n ==> Taken(es, j)
    ensures n <= |es|
    decreases n
  {
    if n > 0 {
      assert Taken(es, n - 1);
      var k :| 0 <= k < |es| && es[k].index == n - 1;
      var rest := es[..k] + es[k + 1..];
      forall j | 0 <= j < n - 1
        ensures Taken(rest, j)
      {
        assert Taken(es, j);
        var i :| 0 <= i < |es| && es[i].index == j;
        assert rest[if i < k then i else i - 1] == es[i];
      }
      Pigeonhole(rest, n - 1);
    }
  }

  /** The search loop of createData, for any list at all. */
  method ChooseIndex(indexes: seq<IndexEntry>) returns (r: Option<int>)
    ensures r.None? <==> |indexes| > MAX_INT32
    ensures r.Some? ==> LeastFree(Indexes(indexes), r.value) && r.value <= |indexes| <= MAX_INT32
  {
    if |indexes| > MAX_INT32 {
      return None;
    }
    var claimIndex := |indexes|;
    var index := 0;
    while index < |indexes|
      invariant 0 <= index <= |indexes| == claimIndex
      invariant forall j :: 0 <= j < index ==> Taken(indexes, j)
    {
      var found := false;
      var k := 0;
      while k < |indexes| && !found
        invariant 0 <= k <= |indexes|
        invariant found ==> Taken(indexes, index)
        invariant !found ==> forall i :: 0 <= i < k ==> indexes[i].index != index
      {
        if indexes[k].index == index {
          found := true;
        }
        k := k + 1;
      }
      if !found {
        return Some(index);
      }
      index := index + 1;
    }
    if Taken(indexes, claimIndex) {
      Pigeonhole(indexes, claimIndex + 1);
    }
    r := Some(claimIndex);
  }

  // ----- what a claim does to the entries -----

  /** The entries of a list. */
  function Members(es: seq<IndexEntry>): set<IndexEntry> {
    set e | e in es
  }

  predicate Named(es: set<IndexEntry>, name: string) {
    exists e :: e in es && e.name == name
  }

  ghost function IndexesOf(es: set<IndexEntry>): iset<int> {
    iset e | e in es :: e.index
  }

  function Without(es: set<IndexEntry>, name: string): set<IndexEntry> {
    set e | e in es && e.name != name
  }

  predicate Skipped(template: string, c: DataClaim) {
    c.template != template || (!c.deleting && (c.rendered.Some? || c.paused))
  }

  ghost predicate Inserted(es: set<IndexEntry>, name: string, i: int, es': set<IndexEntry>) {
    LeastFree(IndexesOf(es), i) && es' == es + {IndexEntry(name, i)}
  }

  /** The abstract allocator: a deleted claim loses its entries, a live one keeps its
      entry or gets one with the smallest free index, and no other entry moves. */
  ghost predicate ClaimEffect(template: string, es: set<IndexEntry>, c: DataClaim, es': set<IndexEntry>) {
    if Skipped(template, c) then es' == es
    else if c.deleting then es' == Without(es, c.name)
    else if Named(es, c.name) then es' == es
    else exists i :: Inserted(es, c.name, i, es')
  }

  /** The first `n` claims, one after the other, take the entries from `es` to `es'`. */
  ghost predicate EntryRun(template: string, claims: seq<DataClaim>, n: nat, es: set<IndexEntry>, es': set<IndexEntry>)
    requires n <= |claims|
  {
    if n == 0 then es' == es
    else exists before {:trigger ClaimEffect(template, before, claims[n - 1], es')} ::
           EntryRun(template, claims, n - 1, es, before) && ClaimEffect(template, before, claims[n - 1], es')
  }

  // ----- the claim-to-index map -----

  ghost predicate OneEntryEach(es: set<IndexEntry>) {
    forall e, f :: e in es && f in es && e.name == f.name ==> e == f
  }

  ghost function MapOf(es: set<IndexEntry>): map<string, int>
    requires OneEntryEach(es)
  {
    map e | e in es :: e.name := e.index
  }

  ghost function MapIndexes(m: map<string, int>): iset<int> {
    iset i | i in m.Values
  }

  /** While claims have one entry each: a deleted claim loses its key, a live one keeps
      its index or gets the smallest free one, and no other key moves. */
  ghost predicate MapEffect(template: string, m: map<string, int>, c: DataClaim, m': map<string, int>) {
    if Skipped(template, c) then m' == m
    else if c.deleting then m' == m - {c.name}
    else if c.name in m then m' == m
    else c.name in m' && LeastFree(MapIndexes(m), m'[c.name]) && m' == m[c.name := m'[c.name]]
  }

  ghost predicate MapRun(template: string, claims: seq<DataClaim>, n: nat, m: map<string, int>, m': map<string, int>)
    requires n <= |claims|
  {
    if n == 0 then m' == m
    else exists before {:trigger MapEffect(template, before, claims[n - 1], m')} ::
           MapRun(template, claims, n - 1, m, before) && MapEffect(template, before, claims[n - 1], m')
  }

  lemma SameIndexes(es: set<IndexEntry>)
    requires OneEntryEach(es)
    ensures MapIndexes(MapOf(es)) == IndexesOf(es)
  {
    forall i
      ensures i in MapIndexes(MapOf(es)) <==> i in IndexesOf(es)
    {
      if i in IndexesOf(es) {
        var e :| e in es && e.index == i;
        assert e.name in MapOf(es) && MapOf(es)[e.name] == i;
      }
      if i in MapIndexes(MapOf(es)) {
        var name :| name in MapOf(es) && MapOf(es)[name] == i;
        assert IndexEntry(name, i) in es;
      }
    }
  }

  lemma InsertedOnMap(es: set<IndexEntry>, name: string, i: int, es': set<IndexEntry>)
    requires OneEntryEach(es) && !Named(es, name) && Inserted(es, name, i, es')
    ensures OneEntryEach(es') && MapOf(es') == MapOf(es)[name := i] && LeastFree(MapIndexes(MapOf(es)), i)
  {
    SameIndexes(es);
    assert IndexEntry(name, i) in es';
  }

  lemma WithoutOnMap(es: set<IndexEntry>, name: string)
    requires OneEntryEach(es)
    ensures OneEntryEach(Without(es, name)) && MapOf(Without(es, name)) == MapOf(es) - {name}
  {
  }

  lemma ClaimEffectOnMap(template: string, es: set<IndexEntry>, c: DataClaim, es': set<IndexEntry>)
    requires OneEntryEach(es) && ClaimEffect(template, es, c, es')
    ensures OneEntryEach(es') && MapEffect(template, MapOf(es), c, MapOf(es'))
  {
    WithoutOnMap(es, c.name);
    assert c.name in MapOf(es) <==> Named(es, c.name);
    if !Skipped(template, c) && !c.deleting && !Named(es, c.name) {
      var i :| Inserted(es, c.name, i, es');
      InsertedOnMap(es, c.name, i, es');
    }
  }

  lemma {:induction false} EntryRunOnMap(template: string, claims: seq<DataClaim>, n: nat, es: set<IndexEntry>, es': set<IndexEntry>)
    requires n <= |claims| && OneEntryEach(es) && EntryRun(template, claims, n, es, es')
    ensures OneEntryEach(es') && MapRun(template, claims, n, MapOf(es), MapOf(es'))
  {
    if n > 0 {
      var before :| EntryRun(template, claims, n - 1, es, before) && ClaimEffect(template, before, claims[n - 1], es');
      EntryRunOnMap(template, claims, n - 1, es, before);
      ClaimEffectOnMap(template, before, claims[n - 1], es');
    }
  }

  lemma ListIndexes(es: seq<IndexEntry>)
    ensures Indexes(es) == IndexesOf(Members(es))
  {
    forall i
      ensures Taken(es, i) <==> i in IndexesOf(Members(es))
    {
      if Taken(es, i) {
        var k :| 0 <= k < |es| && es[k].index == i;
        assert es[k] in Members(es);
      }
    }
  }

  lemma ListNames(es: seq<IndexEntry>, name: string)
    ensures HasName(es, name) <==> Named(Members(es), name)
  {
    if HasName(es, name) {
      var k :| 0 <= k < |es| && es[k].name == name;
      assert es[k] in Members(es);
    }
  }

  /** A list with distinct names stands for the same map as its entries. */
  lemma ListMap(es: seq<IndexEntry>)
    requires UniqueNames(es)
    ensures OneEntryEach(Members(es)) && MapOf(Members(es)) == AsMap(es)
  {
    forall e
      ensures e in Members(es) <==> e.name in AsMap(es) && AsMap(es)[e.name] == e.index
    {
      AsMapMembers(es, e);
    }
    forall name
      ensures name in AsMap(es) <==> name in MapOf(Members(es))
    {
      AsMapHas(es, name);
    }
  }

  /** One entry per name, said of the list. */
  lemma NamesOfMembers(es: seq<IndexEntry>)
    requires StrictlySorted(es) && OneEntryEach(Members(es))
    ensures UniqueNames(es)
  {
    forall i, j | 0 <= i < j < |es|
      ensures es[i].name != es[j].name
    {
      assert es[i] in Members(es) && es[j] in Members(es);
    }
  }

  // ----- the list operations -----

  lemma FreshIndex(es: seq<IndexEntry>, e: IndexEntry)
    requires StrictlySorted(es) && !Taken(es, e.index)
    ensures UniqueIndexes(es + [e])
  {
  }

  /** Appending a fresh entry and sorting inserts exactly one entry, with the smallest
      index no entry had. */
  lemma AppendSorted(es: seq<IndexEntry>, e: IndexEntry)
    requires StrictlySorted(es) && LeastFree(Indexes(es), e.index) && !HasName(es, e.name)
    ensures StrictlySorted(Sort(es + [e])) && !Named(Members(es), e.name)
    ensures Inserted(Members(es), e.name, e.index, Members(Sort(es + [e])))
  {
    ListIndexes(es);
    ListNames(es, e.name);
    FreshIndex(es, e);
    SortStrict(es + [e]);
    forall x
      ensures x in Sort(es + [e]) <==> x in es || x == e
    {
      SortMembers(es + [e], x);
    }
  }

  /** Sorting distinct indexes is strict. */
  lemma SortStrict(es: seq<IndexEntry>)
    requires UniqueIndexes(es)
    ensures StrictlySorted(Sort(es)) && Members(Sort(es)) == Members(es)
  {
    SortIndexes(es);
    forall x
      ensures x in Sort(es) <==> x in es
    {
      SortMembers(es, x);
    }
  }

  /** The delete filter drops every entry that shares the claim's name OR its
      index; when indexes are distinct these are the entries of the claim. */
  function Filtered(es: seq<IndexEntry>, name: string, index: int): seq<IndexEntry> {
    if es == [] then []
    else
      var init, last := Filtered(es[..|es| - 1], name, index), es[|es| - 1];
      if last.name != name && last.index != index then init + [last] else init
  }

  lemma {:induction false} FilteredMembers(es: seq<IndexEntry>, name: string, index: int, e: IndexEntry)
    ensures e in Filtered(es, name, index) <==> e in es && e.name != name && e.index != index
  {
    if es != [] {
      FilteredMembers(es[..|es| - 1], name, index, e);
      assert es == es[..|es| - 1] + [es[|es| - 1]];
    }
  }

  lemma {:induction false} FilteredSorted(es: seq<IndexEntry>, name: string, index: int)
    requires StrictlySorted(es)
    ensures StrictlySorted(Filtered(es, name, index))
  {
    if es != [] {
      var init, last := es[..|es| - 1], es[|es| - 1];
      FilteredSorted(init, name, index);
      forall e | e in Filtered(init, name, index)
        ensures e.index < last.index
      {
        FilteredMembers(init, name, index, e);
        var i :| 0 <= i < |init| && init[i] == e;
        assert es[i] == e;
      }
    }
  }

  lemma FilteredRemovesClaim(es: seq<IndexEntry>, k: nat)
    requires StrictlySorted(es) && k < |es|
    ensures var r := Filtered(es, es[k].name, es[k].index);
            StrictlySorted(r) && Members(r) == Without(Members(es), es[k].name)
  {
    var gone := es[k];
    FilteredSorted(es, gone.name, gone.index);
    forall e
      ensures e in Filtered(es, gone.name, gone.index) <==> e in es && e.name != gone.name
    {
      FilteredMembers(es, gone.name, gone.index, e);
      if e in es && e.index == gone.index {
        var i :| 0 <= i < |es| && es[i] == e;
        assert i == k || i < k || k < i;
      }
    }
  }

  lemma SortedMap(r: seq<IndexEntry>)
    requires StrictlySorted(r) && OneEntryEach(Members(r))
    ensures WellFormed(r) && AsMap(r) == MapOf(Members(r))
  {
    NamesOfMembers(r);
    ListMap(r);
  }

  /** On a well-formed list that removes exactly one key. */
  lemma FilteredRemovesOne(es: seq<IndexEntry>, k: nat)
    requires WellFormed(es) && k < |es|
    ensures var r := Filtered(es, es[k].name, es[k].index);
            WellFormed(r) && AsMap(r) == AsMap(es) - {es[k].name}
  {
    var r := Filtered(es, es[k].name, es[k].index);
    FilteredRemovesClaim(es, k);
    ListMap(es);
    WithoutOnMap(Members(es), es[k].name);
    SortedMap(r);
  }

  /** The index of the first entry of the claim. */
  function FirstIndex(es: seq<IndexEntry>, name: string): Option<int>
    decreases |es|
  {
    if es == [] then None
    else if es[0].name == name then Some(es[0].index)
    else FirstIndex(es[1..], name)
  }

  // ----- what the store holds -----

  /** Every Metal3Data of a template carries the name made of both. */
  ghost predicate NamesOk(store: Store) {
    forall n :: n in store && store[n].body.template.Some? ==>
      store[n].body.index >= 0 && n == DataName(store[n].body.template.value, store[n].body.index)
  }

  predicate Claimed(store: Store, template: string, n: string) {
    n in store && store[n].body.template == Some(template) && store[n].body.claim.Some?
  }

  ghost predicate ClaimsUnique(store: Store, template: string) {
    forall n1, n2 :: Claimed(store, template, n1) && Claimed(store, template, n2) ==>
      (store[n1].body.claim == store[n2].body.claim ==> n1 == n2)
  }

  /** Every claimed Metal3Data has its entry, or had its claim deleted during this
      pass. */
  ghost predicate Covered(store: Store, template: string, es: set<IndexEntry>, deleted: set<string>) {
    forall n :: Claimed(store, template, n) ==>
      store[n].body.claim.value in deleted || IndexEntry(store[n].body.claim.value, store[n].body.index) in es
  }

  function NewData(template: string, claim: string, index: int): Object<Metal3Data> {
    Object(Metal3Data(Some(template), Some(claim), index), {DATA_CLAIM_FINALIZER}, false)
  }

  /** One Metal3Data appears, under a name nothing had. */
  ghost predicate Added(template: string, claim: string, i: int, store: Store, store': Store) {
    DataName(template, i) !in store && store' == store[DataName(template, i) := NewData(template, claim, i)]
  }

  /** A live claim keeps its entry, or gets the smallest free index together with a
      Metal3Data. */
  ghost predicate CreateEffect(template: string, claim: string, es: set<IndexEntry>, store: Store,
                               es': set<IndexEntry>, store': Store) {
    if Named(es, claim) then es' == es && store' == store
    else exists i :: Inserted(es, claim, i, es') && i <= MAX_INT32 && Added(template, claim, i, store, store')
  }

  lemma CreateKeepsStore(template: string, claim: string, es: set<IndexEntry>, store: Store,
                         es': set<IndexEntry>, store': Store, deleted: set<string>)
    requires CreateEffect(template, claim, es, store, es', store')
    requires NamesOk(store) && Covered(store, template, es, deleted) && claim !in deleted
    ensures NamesOk(store') && Covered(store', template, es', deleted)
    ensures ClaimsUnique(store, template) ==> ClaimsUnique(store', template)
  {
    if !Named(es, claim) {
      var i :| Inserted(es, claim, i, es') && Added(template, claim, i, store, store');
      assert IndexEntry(claim, i) in es';
    }
  }

  /** A release leaves the bodies alone, so nothing else has to be accounted for. */
  lemma DeleteKeepsStore(template: string, claim: string, es: set<IndexEntry>, store: Store, store': Store, deleted: set<string>)
    requires forall n :: n in store' ==> n in store && store'[n].body == store[n].body
    requires NamesOk(store) && Covered(store, template, es, deleted)
    ensures NamesOk(store') && Covered(store', template, Without(es, claim), deleted + {claim})
    ensures Covered(store', template, es, deleted + {claim})
    ensures ClaimsUnique(store, template) ==> ClaimsUnique(store', template)
  {
  }

  /** What createData does to lists and store is an allocation. */
  lemma CreatedAt(template: string, es: seq<IndexEntry>, e: IndexEntry, store: Store, store': Store)
    requires StrictlySorted(es) && LeastFree(Indexes(es), e.index) && e.index <= MAX_INT32 && !HasName(es, e.name)
    requires Added(template, e.name, e.index, store, store')
    ensures CreateEffect(template, e.name, Members(es), store, Members(Sort(es + [e])), store')
    ensures StrictlySorted(Sort(es + [e])) && FirstIndexOr(Sort(es + [e]), e.name) == e.index
  {
    AppendSorted(es, e);
    SoleEntry(es, e, Sort(es + [e]));
  }

  /** `listed` is what a List against `store` returns, in some order. */
  ghost predicate Lists(listed: seq<Metal3Data>, names: seq<string>, store: Store) {
    && |listed| == |names|
    && (forall i, j :: 0 <= i < j < |names| ==> names[i] != names[j])
    && (forall i :: 0 <= i < |names| ==> names[i] in store && store[names[i]].body == listed[i])
    && (forall n :: n in store ==> n in names)
  }

  function EntriesOf(template: string, listed: seq<Metal3Data>): seq<IndexEntry> {
    if listed == [] then []
    else
      var init, d := EntriesOf(template, listed[..|listed| - 1]), listed[|listed| - 1];
      if d.template == Some(template) && d.claim.Some? then init + [IndexEntry(d.claim.value, d.index)] else init
  }

  lemma {:induction false} EntriesMembers(template: string, listed: seq<Metal3Data>, e: IndexEntry)
    ensures e in EntriesOf(template, listed) <==> Metal3Data(Some(template), Some(e.name), e.index) in listed
  {
    if listed != [] {
      var init, d := listed[..|listed| - 1], listed[|listed| - 1];
      EntriesMembers(template, init, e);
      assert listed == init + [d];
    }
  }

  lemma {:induction false} EntriesDistinct(template: string, listed: seq<Metal3Data>, names: seq<string>, store: Store)
    requires NamesOk(store) && |listed| == |names|
    requires forall i, j :: 0 <= i < j < |names| ==> names[i] != names[j]
    requires forall i :: 0 <= i < |names| ==> names[i] in store && store[names[i]].body == listed[i]
    ensures UniqueIndexes(EntriesOf(template, listed))
  {
    if listed != [] {
      var n := |listed| - 1;
      var init, d := listed[..n], listed[n];
      EntriesDistinct(template, init, names[..n], store);
      if d.template == Some(template) && d.claim.Some? {
        forall e | e in EntriesOf(template, init)
          ensures e.index != d.index
        {
          EntriesMembers(template, init, e);
          var i :| 0 <= i < n && init[i] == Metal3Data(Some(template), Some(e.name), e.index);
          assert names[i] == DataName(template, e.index) && names[n] == DataName(template, d.index);
        }
      }
    }
  }

  lemma ListingCovers(template: string, listed: seq<Metal3Data>, names: seq<string>, store: Store)
    requires Lists(listed, names, store)
    ensures Covered(store, template, Members(EntriesOf(template, listed)), {})
  {
    forall n | Claimed(store, template, n)
      ensures IndexEntry(store[n].body.claim.value, store[n].body.index) in Members(EntriesOf(template, listed))
    {
      var e := IndexEntry(store[n].body.claim.value, store[n].body.index);
      var i :| 0 <= i < |names| && names[i] == n;
      assert listed[i] == store[n].body;
      EntriesMembers(template, listed, e);
      assert e in Members(EntriesOf(template, listed));
    }
  }

  lemma ListingPlaced(template: string, listed: seq<Metal3Data>, names: seq<string>, store: Store)
    requires NamesOk(store) && Lists(listed, names, store)
    ensures Placed(store, template, Members(EntriesOf(template, listed)))
    ensures Present(store, template, Members(EntriesOf(template, listed)))
  {
    forall e | e in Members(EntriesOf(template, listed))
      ensures e.index >= 0 && DataName(template, e.index) in store
      ensures store[DataName(template, e.index)].body == Metal3Data(Some(template), Some(e.name), e.index)
    {
      EntriesMembers(template, listed, e);
      var i :| 0 <= i < |listed| && listed[i] == Metal3Data(Some(template), Some(e.name), e.index);
      assert names[i] == DataName(template, e.index);
    }
  }

  /** When claims have one Metal3Data each, they have one entry each. */
  lemma UniqueClaimsOneEntry(template: string, listed: seq<Metal3Data>, names: seq<string>, store: Store)
    requires NamesOk(store) && ClaimsUnique(store, template) && Lists(listed, names, store)
    ensures OneEntryEach(Members(EntriesOf(template, listed)))
  {
    var es := Members(EntriesOf(template, listed));
    forall e, f | e in es && f in es && e.name == f.name
      ensures e == f
    {
      EntriesMembers(template, listed, e);
      EntriesMembers(template, listed, f);
      var i :| 0 <= i < |listed| && listed[i] == Metal3Data(Some(template), Some(e.name), e.index);
      var j :| 0 <= j < |listed| && listed[j] == Metal3Data(Some(template), Some(f.name), f.index);
      assert Claimed(store, template, names[i]) && Claimed(store, template, names[j]);
    }
  }

  /** Failures the API server may answer with while a claim is being served. */
  datatype Faults = Faults(getByIndex: bool, getByRef: bool, update: bool, delete: bool, create: bool)

  /** The Metal3Data a deletion works on: the one its first entry names, or else the one
      the claim refers to. */
  function DeleteTarget(template: string, byIndex: Option<int>, c: DataClaim, store: Store, f: Faults): Option<string> {
    if byIndex.Some? && !f.getByIndex && DataName(template, byIndex.value) in store then Some(DataName(template, byIndex.value))
    else if c.rendered.Some? && !f.getByRef && c.rendered.value in store then c.rendered
    else None
  }

  // ----- which Metal3Data a deletion touches -----

  predicate FaultFree(f: Faults) {
    !f.getByIndex && !f.getByRef && !f.update && !f.delete && !f.create
  }

  /** Under the name of an entry there is nothing but the entry's Metal3Data. */
  ghost predicate Placed(store: Store, template: string, es: set<IndexEntry>) {
    forall e :: e in es ==>
      e.index >= 0 && (DataName(template, e.index) in store ==>
                         store[DataName(template, e.index)].body == Metal3Data(Some(template), Some(e.name), e.index))
  }

  /** And it is there. */
  ghost predicate Present(store: Store, template: string, es: set<IndexEntry>) {
    forall e :: e in es ==> DataName(template, e.index) in store
  }

  /** The smallest index the claim has an entry with. */
  ghost predicate LeastIndex(es: set<IndexEntry>, name: string, i: int) {
    IndexEntry(name, i) in es && forall e :: e in es && e.name == name ==> i <= e.index
  }

  /** The Metal3Data carrying the claim's name and its smallest index are released. */
  ghost predicate OwnReleased(template: string, name: string, es: set<IndexEntry>, store: Store, store': Store) {
    forall i, n :: LeastIndex(es, name, i) && n in store && store[n].body == Metal3Data(Some(template), Some(name), i) ==>
      Released(store', n, DATA_CLAIM_FINALIZER)
  }

  /** Metal3Data of other claims are as they were. */
  ghost predicate OthersKept(store: Store, store': Store, name: string) {
    forall n :: n in store && store[n].body.claim != Some(name) ==> n in store' && store'[n] == store[n]
  }

  /** What a release changes nothing about. */
  predicate Settled(o: Object<Metal3Data>) {
    o.deleting && o.finalizers != {} && DATA_CLAIM_FINALIZER !in o.finalizers
  }

  /** The claim has an entry, or its reference leads to no other claim's Metal3Data. */
  ghost predicate SafeToDelete(es: set<IndexEntry>, c: DataClaim, store: Store) {
    || Named(es, c.name) || c.rendered.None? || c.rendered.value !in store
    || store[c.rendered.value].body.claim == Some(c.name) || Settled(store[c.rendered.value])
  }

  lemma {:induction false} FirstIsLeast(es: seq<IndexEntry>, name: string)
    requires StrictlySorted(es) && HasName(es, name)
    ensures FirstIndex(es, name).Some? && LeastIndex(Members(es), name, FirstIndex(es, name).value)
    decreases |es|
  {
    if es[0].name == name {
      assert forall k :: 0 <= k < |es| ==> es[0].index <= es[k].index;
    } else {
      assert forall k :: 1 <= k < |es| ==> es[k] == es[1..][k - 1];
      FirstIsLeast(es[1..], name);
    }
  }

  lemma LeastIsOne(es: set<IndexEntry>, name: string, i: int, j: int)
    requires LeastIndex(es, name, i) && LeastIndex(es, name, j)
    ensures i == j
  {
  }

  /** With an entry whose Metal3Data is there, that is the one found. */
  lemma TargetByEntry(template: string, es: seq<IndexEntry>, c: DataClaim, store: Store, f: Faults)
    requires StrictlySorted(es) && Placed(store, template, Members(es)) && FaultFree(f) && HasName(es, c.name)
    requires DataName(template, FirstIndexOr(es, c.name)) in store
    ensures var i := FirstIndexOr(es, c.name);
            && FirstIndex(es, c.name) == Some(i) && LeastIndex(Members(es), c.name, i)
            && DeleteTarget(template, FirstIndex(es, c.name), c, store, f) == Some(DataName(template, i))
            && store[DataName(template, i)].body == Metal3Data(Some(template), Some(c.name), i)
  {
    FirstIsLeast(es, c.name);
  }

  /** The release of one object, seen from all of them. */
  lemma ReleaseOfOne(store: Store, n: string)
    requires n in store
    ensures var after := Release(store, n, DATA_CLAIM_FINALIZER);
            && (forall m :: m in store && m != n ==> m in after && after[m] == store[m])
            && Released(after, n, DATA_CLAIM_FINALIZER)
            && (n in after && after[n] == store[n] <==> Settled(store[n]))
  {
    if Settled(store[n]) {
      assert store[n].finalizers - {DATA_CLAIM_FINALIZER} == store[n].finalizers;
    }
  }

  /** A deletion without faults releases the claim's own Metal3Data, and leaves those of
      other claims alone if and only if the claim has an entry or its reference leads
      to no such one. */
  lemma DeletionExactly(template: string, es: seq<IndexEntry>, c: DataClaim, store: Store, f: Faults, store': Store)
    requires StrictlySorted(es) && NamesOk(store) && FaultFree(f)
    requires Placed(store, template, Members(es)) && Present(store, template, Members(es))
    requires Removed(store, DeleteTarget(template, FirstIndex(es, c.name), c, store, f), None, store')
    ensures OwnReleased(template, c.name, Members(es), store, store')
    ensures OthersKept(store, store', c.name) <==> SafeToDelete(Members(es), c, store)
  {
    ListNames(es, c.name);
    FirstIndexIn(es, c.name);
    if HasName(es, c.name) {
      TargetByEntry(template, es, c, store, f);
      var i := FirstIndexOr(es, c.name);
      ReleaseOfOne(store, DataName(template, i));
      forall j, n | LeastIndex(Members(es), c.name, j) && n in store && store[n].body == Metal3Data(Some(template), Some(c.name), j)
        ensures n == DataName(template, i)
      {
        LeastIsOne(Members(es), c.name, i, j);
      }
    } else if c.rendered.Some? && c.rendered.value in store {
      ReleaseOfOne(store, c.rendered.value);
      assert !Named(Members(es), c.name);
    }
  }

  // ----- which Metal3Data a whole pass touches -----

  /** The claims of this template among the first `n` that are being deleted. */
  function DeletedNames(template: string, claims: seq<DataClaim>, n: nat): set<string>
    requires n <= |claims|
  {
    if n == 0 then {}
    else
      var c := claims[n - 1];
      DeletedNames(template, claims, n - 1) + (if c.template == template && c.deleting then {c.name} else {})
  }

  lemma {:induction false} DeletedName(template: string, claims: seq<DataClaim>, n: nat, name: string)
    requires n <= |claims|
    ensures name in DeletedNames(template, claims, n) <==>
            exists k :: 0 <= k < n && claims[k].template == template && claims[k].deleting && claims[k].name == name
  {
    if n > 0 {
      DeletedName(template, claims, n - 1, name);
    }
  }

  /** Every Metal3Data of one of these claims is released. */
  ghost predicate AllReleased(store: Store, template: string, names: set<string>) {
    forall n :: Claimed(store, template, n) && store[n].body.claim.value in names ==> Released(store, n, DATA_CLAIM_FINALIZER)
  }

  /** Every Metal3Data of none of these claims is as it was. */
  ghost predicate AllKept(first: Store, store: Store, names: set<string>) {
    forall n :: n in first && (first[n].body.claim.None? || first[n].body.claim.value !in names) ==> n in store && store[n] == first[n]
  }

  /** No claim being deleted has a reference without an entry. */
  ghost predicate ReferencesListed(template: string, claims: seq<DataClaim>, listing: set<IndexEntry>) {
    forall k :: 0 <= k < |claims| && claims[k].template == template && claims[k].deleting ==>
      claims[k].rendered.None? || Named(listing, claims[k].name)
  }

  lemma CreateTouchesNoOther(template: string, c: DataClaim, es: set<IndexEntry>, store: Store, es': set<IndexEntry>, store': Store,
                             deleted: set<string>)
    requires CreateEffect(template, c.name, es, store, es', store') && Placed(store, template, es) && c.name !in deleted
    ensures Placed(store', template, es')
    ensures Present(store, template, es) ==> Present(store', template, es')
    ensures AllReleased(store, template, deleted) ==> AllReleased(store', template, deleted)
    ensures forall n :: n in store ==> n in store' && store'[n] == store[n]
  {
    if !Named(es, c.name) {
      var i :| Inserted(es, c.name, i, es') && Added(template, c.name, i, store, store');
      forall e | e in es
        ensures DataName(template, e.index) != DataName(template, i)
      {
        assert e.index in IndexesOf(es);
        DataNameInjective(template, e.index, template, i);
      }
    }
  }

  lemma DeleteTouchesNoOther(template: string, es: seq<IndexEntry>, c: DataClaim, store: Store, f: Faults, store': Store)
    requires StrictlySorted(es) && FaultFree(f) && Placed(store, template, Members(es))
    requires Removed(store, DeleteTarget(template, FirstIndex(es, c.name), c, store, f), None, store')
    requires Present(store, template, Members(es)) && (c.rendered.None? || Named(Members(es), c.name))
    ensures OthersKept(store, store', c.name) && Present(store', template, Without(Members(es), c.name))
  {
    ListNames(es, c.name);
    FirstIndexIn(es, c.name);
    if HasName(es, c.name) {
      TargetByEntry(template, es, c, store, f);
      ReleaseOfOne(store, DataName(template, FirstIndexOr(es, c.name)));
    }
    forall e | e in Without(Members(es), c.name)
      ensures DataName(template, e.index) in store'
    {
      assert e in Members(es) && store[DataName(template, e.index)].body.claim == Some(e.name);
    }
  }

  lemma DeletePlaced(template: string, es: set<IndexEntry>, name: string, store: Store, store': Store)
    requires Placed(store, template, es) && forall n :: n in store' ==> n in store && store'[n].body == store[n].body
    ensures Placed(store', template, Without(es, name))
  {
  }

  /** When claims have one Metal3Data each, the one of this claim is found. */
  lemma DeleteReleasesOwn(template: string, es: seq<IndexEntry>, c: DataClaim, store: Store, f: Faults, store': Store, n: string, deleted: set<string>)
    requires StrictlySorted(es) && FaultFree(f) && NamesOk(store) && Placed(store, template, Members(es))
    requires Removed(store, DeleteTarget(template, FirstIndex(es, c.name), c, store, f), None, store')
    requires OneEntryEach(Members(es)) && Covered(store, template, Members(es), deleted) && c.name !in deleted
    requires Claimed(store, template, n) && store[n].body.claim == Some(c.name)
    ensures Released(store', n, DATA_CLAIM_FINALIZER)
  {
    var e := IndexEntry(c.name, store[n].body.index);
    assert e in Members(es) && n == DataName(template, e.index);
    ListNames(es, c.name);
    FirstIsLeast(es, c.name);
    assert FirstIndexOr(es, c.name) == e.index;
    TargetByEntry(template, es, c, store, f);
    ReleaseOfOne(store, n);
  }

  lemma DeleteReleases(template: string, es: seq<IndexEntry>, c: DataClaim, store: Store, f: Faults, store': Store, deleted: set<string>)
    requires StrictlySorted(es) && FaultFree(f) && NamesOk(store) && Placed(store, template, Members(es))
    requires Removed(store, DeleteTarget(template, FirstIndex(es, c.name), c, store, f), None, store')
    requires OneEntryEach(Members(es)) && Covered(store, template, Members(es), deleted) && c.name !in deleted
    requires AllReleased(store, template, deleted)
    ensures AllReleased(store', template, deleted + {c.name})
  {
    var target := DeleteTarget(template, FirstIndex(es, c.name), c, store, f);
    if target.Some? {
      ReleaseReleases(store, target.value, DATA_CLAIM_FINALIZER);
    }
    forall n | Claimed(store', template, n) && store'[n].body.claim.value in deleted + {c.name}
      ensures Released(store', n, DATA_CLAIM_FINALIZER)
    {
      assert Claimed(store, template, n) && store[n].body == store'[n].body;
      if store[n].body.claim == Some(c.name) {
        DeleteReleasesOwn(template, es, c, store, f, store', n, deleted);
      }
    }
  }

  /** What one claim does to the store, given the list and what the calls answered. */
  ghost predicate Served(template: string, es: seq<IndexEntry>, c: DataClaim, store: Store, f: Faults, err: Option<Error>,
                         es': seq<IndexEntry>, store': Store) {
    if c.deleting then
      && Removed(store, DeleteTarget(template, FirstIndex(es, c.name), c, store, f), err, store')
      && (forall n :: n in store' ==> n in store && store'[n].body == store[n].body)
      && (err.None? ==> Members(es') == Without(Members(es), c.name))
    else err.None? ==> CreateEffect(template, c.name, Members(es), store, Members(es'), store')
  }

  /** Where a pass started: the store, the entries listed, whether claims had one
      Metal3Data each, whether every reference was listed, and whether no call fails. */
  datatype Origin = Origin(store: Store, listing: set<IndexEntry>, unique: bool, listed: bool, faultFree: bool)

  ghost predicate OriginOk(template: string, claims: seq<DataClaim>, o: Origin) {
    && (o.unique ==> OneEntryEach(o.listing)) && (o.listed ==> ReferencesListed(template, claims, o.listing))
  }

  /** What a fault-free pass has done to the store after `done` claims. */
  ghost predicate Tracked(template: string, claims: seq<DataClaim>, done: nat, o: Origin, es: set<IndexEntry>, store: Store)
    requires done <= |claims|
  {
    && Placed(store, template, es)
    && (o.unique ==> AllReleased(store, template, DeletedNames(template, claims, done)))
    && (o.listed ==> Present(store, template, es) && AllKept(o.store, store, DeletedNames(template, claims, done)))
    && (forall k :: done <= k < |claims| ==> (Named(es, claims[k].name) <==> Named(o.listing, claims[k].name)))
  }

  predicate DistinctNames(claims: seq<DataClaim>) {
    forall i, j :: 0 <= i < j < |claims| ==> claims[i].name != claims[j].name
  }

  /** Entries of other claims come and go with no one claim. */
  lemma OtherNames(template: string, es: set<IndexEntry>, c: DataClaim, es': set<IndexEntry>, name: string)
    requires ClaimEffect(template, es, c, es') && name != c.name
    ensures Named(es', name) <==> Named(es, name)
  {
    if Named(es, name) {
      var e :| e in es && e.name == name;
      assert e in es';
    }
    if Named(es', name) {
      var e :| e in es' && e.name == name;
      assert e in es;
    }
  }

  lemma SkipClaim(template: string, claims: seq<DataClaim>, done: nat, o: Origin, es: set<IndexEntry>, store: Store)
    requires done < |claims| && Skipped(template, claims[done]) && EntryRun(template, claims, done, o.listing, es)
    ensures DeletedNames(template, claims, done + 1) == DeletedNames(template, claims, done)
    ensures EntryRun(template, claims, done + 1, o.listing, es)
    ensures Tracked(template, claims, done, o, es, store) ==> Tracked(template, claims, done + 1, o, es, store)
  {
    assert ClaimEffect(template, es, claims[done], es);
  }

  lemma TrackDelete(template: string, claims: seq<DataClaim>, done: nat, o: Origin, es: seq<IndexEntry>, store: Store, f: Faults,
                    es': set<IndexEntry>, store': Store)
    requires done < |claims| && DistinctNames(claims) && OriginOk(template, claims, o) && FaultFree(f)
    requires claims[done].template == template && claims[done].deleting
    requires StrictlySorted(es) && NamesOk(store) && Covered(store, template, Members(es), DeletedNames(template, claims, done))
    requires EntryRun(template, claims, done, o.listing, Members(es))
    requires Tracked(template, claims, done, o, Members(es), store)
    requires Removed(store, DeleteTarget(template, FirstIndex(es, claims[done].name), claims[done], store, f), None, store')
    requires forall n :: n in store' ==> n in store && store'[n].body == store[n].body
    requires es' == Without(Members(es), claims[done].name)
    ensures Tracked(template, claims, done + 1, o, es', store')
  {
    var c := claims[done];
    var deleted := DeletedNames(template, claims, done);
    DeletedName(template, claims, done, c.name);
    DeletePlaced(template, Members(es), c.name, store, store');
    if o.unique {
      EntryRunOnMap(template, claims, done, o.listing, Members(es));
      DeleteReleases(template, es, c, store, f, store', deleted);
    }
    if o.listed {
      DeleteTouchesNoOther(template, es, c, store, f, store');
    }
    forall k | done + 1 <= k < |claims|
      ensures Named(es', claims[k].name) <==> Named(o.listing, claims[k].name)
    {
      OtherNames(template, Members(es), c, es', claims[k].name);
    }
  }

  lemma TrackCreate(template: string, claims: seq<DataClaim>, done: nat, o: Origin, es: set<IndexEntry>, store: Store,
                    es': set<IndexEntry>, store': Store)
    requires done < |claims| && DistinctNames(claims)
    requires claims[done].template == template && !claims[done].deleting
    requires Tracked(template, claims, done, o, es, store) && CreateEffect(template, claims[done].name, es, store, es', store')
    ensures Tracked(template, claims, done + 1, o, es', store')
  {
    var c := claims[done];
    DeletedName(template, claims, done, c.name);
    CreateTouchesNoOther(template, c, es, store, es', store', DeletedNames(template, claims, done));
    forall k | done + 1 <= k < |claims|
      ensures Named(es', claims[k].name) <==> Named(o.listing, claims[k].name)
    {
      CreateOtherNames(template, c.name, es, store, es', store', claims[k].name);
    }
  }

  lemma CreateOtherNames(template: string, claim: string, es: set<IndexEntry>, store: Store, es': set<IndexEntry>, store': Store, name: string)
    requires CreateEffect(template, claim, es, store, es', store') && name != claim
    ensures Named(es', name) <==> Named(es, name)
  {
    if !Named(es, claim) {
      var i :| Inserted(es, claim, i, es') && Added(template, claim, i, store, store');
      if Named(es, name) {
        var e :| e in es && e.name == name;
        assert e in es';
      }
    }
  }

  /** A claim that is alive, and one passed over because its Cluster is paused. */
  predicate Live(template: string, c: DataClaim) {
    c.template == template && !c.deleting
  }

  predicate Waits(template: string, c: DataClaim) {
    Live(template, c) && c.rendered.None? && c.paused
  }

  predicate AnyLive(template: string, claims: seq<DataClaim>, n: nat)
    requires n <= |claims|
  {
    n > 0 && (Live(template, claims[n - 1]) || AnyLive(template, claims, n - 1))
  }

  predicate AnyWaits(template: string, claims: seq<DataClaim>, n: nat)
    requires n <= |claims|
  {
    n > 0 && (Waits(template, claims[n - 1]) || AnyWaits(template, claims, n - 1))
  }

  class Manager {
    const template: string
    var statusIndexes: seq<IndexEntry>
    var datas: Store
    var rendered: map<string, string>

    constructor (template: string, datas: Store)
      ensures this.template == template && this.datas == datas
      ensures statusIndexes == [] && rendered == map[]
    {
      this.template, this.datas := template, datas;
      statusIndexes, rendered := [], map[];
    }

    /** Rebuilds both lists from the Metal3Data objects that were listed. */
    method GetIndexes(listed: seq<Metal3Data>) returns (indexes: seq<IndexEntry>)
      modifies this`statusIndexes
      ensures statusIndexes == indexes == Sort(EntriesOf(template, listed))
    {
      statusIndexes, indexes := [], [];
      for k := 0 to |listed|
        invariant statusIndexes == indexes == EntriesOf(template, listed[..k])
      {
        var d := listed[k];
        assert listed[..k + 1][..k] == listed[..k];
        if d.template == Some(template) && d.claim.Some? {
          statusIndexes := statusIndexes + [IndexEntry(d.claim.value, d.index)];
          indexes := indexes + [IndexEntry(d.claim.value, d.index)];
        }
      }
      assert listed[..|listed|] == listed;
      statusIndexes := Sort(statusIndexes);
      indexes := Sort(indexes);
    }

    /** Position of the claim's first entry in the status list. */
    method FindEntry(name: string) returns (k: Option<nat>)
      ensures k.None? ==> !HasName(statusIndexes, name) && FirstIndex(statusIndexes, name) == None
      ensures k.Some? ==>
                && k.value < |statusIndexes| && statusIndexes[k.value].name == name
                && FirstIndex(statusIndexes, name) == Some(statusIndexes[k.value].index)
    {
      assert statusIndexes[0..] == statusIndexes;
      for i := 0 to |statusIndexes|
        invariant forall j :: 0 <= j < i ==> statusIndexes[j].name != name
        invariant FirstIndex(statusIndexes, name) == FirstIndex(statusIndexes[i..], name)
      {
        if statusIndexes[i].name == name {
          return Some(i);
        }
        assert statusIndexes[i..][1..] == statusIndexes[i + 1..];
      }
      k := None;
    }

    method CreateData(claim: DataClaim, indexes: seq<IndexEntry>, faults: Faults)
      returns (indexes': seq<IndexEntry>, err: Option<Error>)
      requires StrictlySorted(indexes) && statusIndexes == indexes
      modifies this
      ensures statusIndexes == indexes' && StrictlySorted(indexes')
      ensures err.Some? ==>
                err.value != ClusterPaused && indexes' == indexes && datas == old(datas) && rendered == old(rendered)
      ensures err.None? ==> CreateEffect(template, claim.name, Members(indexes), old(datas), Members(indexes'), datas)
      ensures err.None? ==> rendered == old(rendered)[claim.name := DataName(template, FirstIndexOr(indexes', claim.name))]
    {
      ListNames(indexes, claim.name);
      indexes', err := indexes, None;
      var entry := FindEntry(claim.name);
      if entry.Some? {
        rendered := rendered[claim.name := DataName(template, statusIndexes[entry.value].index)];
        assert statusIndexes[entry.value] == IndexEntry(claim.name, FirstIndexOr(indexes, claim.name));
        assert Named(Members(indexes), claim.name);
      } else if claim.owner.Unparsable? {
        err := Some(BadVersion);
      } else if claim.owner.Missing? {
        err := Some(NoOwner);
      } else {
        var chosen := ChooseIndex(indexes);
        if chosen.None? {
          err := Some(TooMany);
        } else {
          indexes', err := CreateAt(claim, indexes, chosen.value, faults);
          if err.None? {
            CreatedAt(template, indexes, IndexEntry(claim.name, chosen.value), old(datas), datas);
          }
        }
      }
    }

    /** The rest of createData, once the index is known. */
    method CreateAt(claim: DataClaim, indexes: seq<IndexEntry>, claimIndex: int, faults: Faults)
      returns (indexes': seq<IndexEntry>, err: Option<Error>)
      requires statusIndexes == indexes
      modifies this
      ensures statusIndexes == indexes'
      ensures err.None? <==> !faults.create && DataName(template, claimIndex) !in old(datas)
      ensures err.Some? ==>
                err.value != ClusterPaused && indexes' == indexes && datas == old(datas) && rendered == old(rendered)
      ensures err.None? ==>
                && indexes' == Sort(indexes + [IndexEntry(claim.name, claimIndex)])
                && datas == old(datas)[template + "-" + Itoa(claimIndex) :=
                     Object(Metal3Data(Some(template), Some(claim.name), claimIndex),
                            {"metal3dataclaim.infrastructure.cluster.x-k8s.io"}, false)]
                && Added(template, claim.name, claimIndex, old(datas), datas)
                && rendered == old(rendered)[claim.name := DataName(template, claimIndex)]
    {
      var e := IndexEntry(claim.name, claimIndex);
      indexes', err := indexes, None;
      var dataName := DataName(template, claimIndex);
      if faults.create {
        err := Some(ApiFailure);
      } else if dataName in datas {
        err := Some(AlreadyExists);
      } else {
        datas := Create(datas, dataName, NewData(template, claim.name, claimIndex));
        statusIndexes := Sort(statusIndexes + [e]);
        indexes' := Sort(indexes + [e]);
        rendered := rendered[claim.name := dataName];
      }
    }

    method DeleteMetal3DataAndClaim(claim: DataClaim, indexes: seq<IndexEntry>, faults: Faults)
      returns (indexes': seq<IndexEntry>, err: Option<Error>)
      requires StrictlySorted(indexes) && statusIndexes == indexes
      modifies this
      ensures statusIndexes == indexes' && StrictlySorted(indexes')
      ensures err.Some? ==> err.value != ClusterPaused && indexes' == indexes && rendered == old(rendered)
      ensures err.None? ==> Members(indexes') == Without(Members(indexes), claim.name) && rendered == old(rendered) - {claim.name}
      ensures Removed(old(datas), DeleteTarget(template, FirstIndex(indexes, claim.name), claim, old(datas), faults), err, datas)
      ensures forall n :: n in datas ==> n in old(datas) && datas[n].body == old(datas)[n].body
      ensures FaultFree(faults) ==> err.None?
      ensures FaultFree(faults) && NamesOk(old(datas)) && Placed(old(datas), template, Members(indexes))
              && Present(old(datas), template, Members(indexes)) ==>
                && OwnReleased(template, claim.name, Members(indexes), old(datas), datas)
                && (OthersKept(old(datas), datas, claim.name) <==> SafeToDelete(Members(indexes), claim, old(datas)))
    {
      indexes', err := DeleteFound(claim, indexes, faults);
      if FaultFree(faults) && NamesOk(old(datas)) && Placed(old(datas), template, Members(indexes))
         && Present(old(datas), template, Members(indexes)) {
        DeletionExactly(template, indexes, claim, old(datas), faults, datas);
      }
    }

    method DeleteFound(claim: DataClaim, indexes: seq<IndexEntry>, faults: Faults)
      returns (indexes': seq<IndexEntry>, err: Option<Error>)
      requires StrictlySorted(indexes) && statusIndexes == indexes
      modifies this
      ensures statusIndexes == indexes' && StrictlySorted(indexes')
      ensures err.Some? ==> err.value != ClusterPaused && indexes' == indexes && rendered == old(rendered)
      ensures err.None? ==> Members(indexes') == Without(Members(indexes), claim.name) && rendered == old(rendered) - {claim.name}
      ensures Removed(old(datas), DeleteTarget(template, FirstIndex(indexes, claim.name), claim, old(datas), faults), err, datas)
      ensures forall n :: n in datas ==> n in old(datas) && datas[n].body == old(datas)[n].body
      ensures FaultFree(faults) ==> err.None?
    {
      ListNames(indexes, claim.name);
      indexes', err := indexes, None;
      var entry := FindEntry(claim.name);
      var data := FindData(claim, entry, faults);
      if data.Some? {
        err := RemoveData(data.value, faults);
        if err.Some? {
          return;
        }
      }
      rendered := rendered - {claim.name};
      if entry.Some? {
        var claimIndex := statusIndexes[entry.value].index;
        FilteredRemovesClaim(indexes, entry.value);
        statusIndexes := KeepOthers(statusIndexes, claim.name, claimIndex);
        indexes' := KeepOthers(indexes, claim.name, claimIndex);
      }
    }

    /** Looks the Metal3Data up by the claim's index, then by its reference. */
    method FindData(claim: DataClaim, entry: Option<nat>, faults: Faults) returns (data: Option<string>)
      requires entry.None? ==> FirstIndex(statusIndexes, claim.name) == None
      requires entry.Some? ==>
                 entry.value < |statusIndexes| && FirstIndex(statusIndexes, claim.name) == Some(statusIndexes[entry.value].index)
      ensures data == DeleteTarget(template, FirstIndex(statusIndexes, claim.name), claim, datas, faults)
      ensures data.Some? ==> data.value in datas
    {
      if entry.Some? {
        var dataName := DataName(template, statusIndexes[entry.value].index);
        if !faults.getByIndex && dataName in datas {
          return Some(dataName);
        }
      }
      if claim.rendered.Some? && !faults.getByRef && claim.rendered.value in datas {
        return claim.rendered;
      }
      data := None;
    }

    method RemoveData(dataName: string, faults: Faults) returns (err: Option<Error>)
      modifies this`datas
      ensures err.None? || err == Some(ApiFailure)
      ensures FaultFree(faults) ==> err.None?
      ensures Removed(old(datas), Some(dataName), err, datas)
      ensures forall n :: n in datas ==> n in old(datas) && datas[n].body == old(datas)[n].body
    {
      if faults.update {
        return Some(ApiFailure);
      }
      datas := DropFinalizer(datas, dataName, DATA_CLAIM_FINALIZER);
      if faults.delete {
        return Some(ApiFailure);
      }
      datas := Delete(datas, dataName);
      err := None;
    }

    /** One claim of a pass. Nothing is asked of the store but that names and indexes
        agree; that claims have one Metal3Data each is kept when it held. */
    method UpdateData(c: DataClaim, indexes: seq<IndexEntry>, faults: Faults, ghost deleted: set<string>)
      returns (indexes': seq<IndexEntry>, err: Option<Error>)
      requires StrictlySorted(indexes) && statusIndexes == indexes && !Skipped(template, c)
      requires NamesOk(datas) && Covered(datas, template, Members(indexes), deleted) && c.name !in deleted
      modifies this
      ensures statusIndexes == indexes' && StrictlySorted(indexes')
      ensures err.Some? ==> err.value != ClusterPaused && indexes' == indexes
      ensures err.None? ==> ClaimEffect(template, Members(indexes), c, Members(indexes'))
      ensures NamesOk(datas)
      ensures Covered(datas, template, Members(indexes'), if c.deleting then deleted + {c.name} else deleted)
      ensures ClaimsUnique(old(datas), template) ==> ClaimsUnique(datas, template)
      ensures Served(template, indexes, c, old(datas), faults, err, indexes', datas)
    {
      if !c.deleting {
        indexes', err := CreateData(c, indexes, faults);
        if err.None? {
          CreateKeepsStore(template, c.name, Members(indexes), old(datas), Members(indexes'), datas, deleted);
        }
      } else {
        indexes', err := DeleteMetal3DataAndClaim(c, indexes, faults);
        DeleteKeepsStore(template, c.name, Members(indexes), old(datas), datas, deleted);
      }
    }

    /** The state of a pass after `done` claims: what the lists, the flags and the store
        have to do with where it started from. */
    ghost predicate Pass(claims: seq<DataClaim>, done: nat, indexes: seq<IndexEntry>, o: Origin, hasClaims: bool, skipped: bool)
      requires done <= |claims|
      reads this
    {
      && statusIndexes == indexes && StrictlySorted(indexes)
      && EntryRun(template, claims, done, o.listing, Members(indexes))
      && NamesOk(datas) && Covered(datas, template, Members(indexes), DeletedNames(template, claims, done))
      && (o.unique ==> ClaimsUnique(datas, template))
      && (o.faultFree ==> Tracked(template, claims, done, o, Members(indexes), datas))
      && (hasClaims <==> AnyLive(template, claims, done))
      && (skipped <==> AnyWaits(template, claims, done))
    }

    /** One turn of the loop over the claims. */
    method Turn(claims: seq<DataClaim>, done: nat, indexes: seq<IndexEntry>, hasClaims: bool, skipped: bool, faults: Faults,
                ghost o: Origin)
      returns (indexes': seq<IndexEntry>, hasClaims': bool, skipped': bool, err: Option<Error>)
      requires done < |claims| && DistinctNames(claims) && OriginOk(template, claims, o) && (o.faultFree ==> FaultFree(faults))
      requires Pass(claims, done, indexes, o, hasClaims, skipped)
      modifies this
      ensures err.None? ==> Pass(claims, done + 1, indexes', o, hasClaims', skipped')
      ensures err.Some? ==>
                && err.value != ClusterPaused && StrictlySorted(statusIndexes)
                && EntryRun(template, claims, done, o.listing, Members(statusIndexes))
                && NamesOk(datas) && (o.unique ==> ClaimsUnique(datas, template))
    {
      var c := claims[done];
      indexes', hasClaims', skipped', err := indexes, hasClaims, skipped, None;
      if Skipped(template, c) {
        SkipClaim(template, claims, done, o, Members(indexes), datas);
      }
      if c.template != template {
        return;
      }
      if !c.deleting {
        hasClaims' := true;
        if c.rendered.Some? {
          return;
        }
        if c.paused {
          skipped' := true;
          return;
        }
      }
      indexes', err := Serve(claims, done, indexes, faults, o);
    }

    method Serve(claims: seq<DataClaim>, done: nat, indexes: seq<IndexEntry>, faults: Faults, ghost o: Origin)
      returns (indexes': seq<IndexEntry>, err: Option<Error>)
      requires done < |claims| && DistinctNames(claims) && OriginOk(template, claims, o) && (o.faultFree ==> FaultFree(faults))
      requires statusIndexes == indexes && StrictlySorted(indexes) && !Skipped(template, claims[done])
      requires EntryRun(template, claims, done, o.listing, Members(indexes))
      requires NamesOk(datas) && Covered(datas, template, Members(indexes), DeletedNames(template, claims, done))
      requires o.faultFree ==> Tracked(template, claims, done, o, Members(indexes), datas)
      modifies this
      ensures statusIndexes == indexes' && StrictlySorted(indexes') && NamesOk(datas)
      ensures err.Some? ==> err.value != ClusterPaused && indexes' == indexes
      ensures err.None? ==>
                && ClaimEffect(template, Members(indexes), claims[done], Members(indexes'))
                && Covered(datas, template, Members(indexes'), DeletedNames(template, claims, done + 1))
                && (o.faultFree ==> Tracked(template, claims, done + 1, o, Members(indexes'), datas))
      ensures ClaimsUnique(old(datas), template) ==> ClaimsUnique(datas, template)
    {
      ghost var store := datas;
      var c := claims[done];
      DeletedName(template, claims, done, c.name);
      indexes', err := UpdateData(c, indexes, faults, DeletedNames(template, claims, done));
      if err.None? && o.faultFree {
        if c.deleting {
          TrackDelete(template, claims, done, o, indexes, store, faults, Members(indexes'), datas);
        } else {
          TrackCreate(template, claims, done, o, Members(indexes), store, Members(indexes'), datas);
        }
      }
    }

    method Walk(claims: seq<DataClaim>, indexes: seq<IndexEntry>, faults: seq<Faults>, ghost o: Origin)
      returns (hasClaims: bool, skipped: bool, err: Option<Error>, done: nat)
      requires |faults| == |claims| && DistinctNames(claims) && OriginOk(template, claims, o)
      requires o.faultFree ==> forall k :: 0 <= k < |faults| ==> FaultFree(faults[k])
      requires Pass(claims, 0, indexes, o, false, false)
      modifies this
      ensures done <= |claims| && (done == |claims| <==> err.None?) && (err.Some? ==> err.value != ClusterPaused)
      ensures StrictlySorted(statusIndexes) && EntryRun(template, claims, done, o.listing, Members(statusIndexes))
      ensures NamesOk(datas) && (o.unique ==> ClaimsUnique(datas, template))
      ensures err.None? ==> Pass(claims, |claims|, statusIndexes, o, hasClaims, skipped)
    {
      var list := indexes;
      hasClaims, skipped, err, done := false, false, None, 0;
      while done < |claims|
        invariant done <= |claims| && err.None?
        invariant Pass(claims, done, list, o, hasClaims, skipped)
      {
        list, hasClaims, skipped, err := Turn(claims, done, list, hasClaims, skipped, faults[done], o);
        if err.Some? {
          return;
        }
        done := done + 1;
      }
    }

    /** Serves the claims of a listing. When the Metal3Data listing was current, the two
        lists stay equal and strictly sorted, and the entries follow the abstract
        allocator claim by claim. If claims had one Metal3Data each to begin with, they
        keep that, and the lists stand for a claim-to-index map. When no call fails,
        every Metal3Data of a deleted claim is released, if claims had one each, and
        those of all other claims are untouched, if no deleted claim refers to a
        Metal3Data without being listed with one. */
    method UpdateDatas(listed: seq<Metal3Data>, claims: seq<DataClaim>, faults: seq<Faults>, ghost names: seq<string>)
      returns (hasData: bool, hasClaims: bool, err: Option<Error>, done: nat)
      requires |faults| == |claims| && DistinctNames(claims)
      requires NamesOk(datas) && Lists(listed, names, datas)
      modifies this
      ensures StrictlySorted(statusIndexes) && NamesOk(datas)
      ensures done <= |claims| && (done == |claims| <==> err.None? || err == Some(ClusterPaused))
      ensures EntryRun(template, claims, done, Members(EntriesOf(template, listed)), Members(statusIndexes))
      ensures ClaimsUnique(old(datas), template) ==>
                ClaimsUnique(datas, template) && RefinesMap(claims, done, Sort(EntriesOf(template, listed)))
      ensures done == |claims| ==>
                && (hasData <==> EntriesOf(template, listed) != [])
                && (hasClaims <==> AnyLive(template, claims, |claims|))
                && err == if AnyWaits(template, claims, |claims|) then Some(ClusterPaused) else None
      ensures done == |claims| && (forall k :: 0 <= k < |faults| ==> FaultFree(faults[k])) ==>
                && (ClaimsUnique(old(datas), template) ==> AllReleased(datas, template, DeletedNames(template, claims, |claims|)))
                && (ReferencesListed(template, claims, Members(EntriesOf(template, listed))) ==>
                      AllKept(old(datas), datas, DeletedNames(template, claims, |claims|)))
    {
      ghost var entries := Members(EntriesOf(template, listed));
      ghost var o := Origin(datas, entries, ClaimsUnique(datas, template), ReferencesListed(template, claims, entries),
                            forall k :: 0 <= k < |faults| ==> FaultFree(faults[k]));
      var indexes := Start(listed, claims, names, o);
      var skipped;
      hasClaims, skipped, err, done := Walk(claims, indexes, faults, o);
      hasData := |indexes| > 0;
      if o.unique {
        RunOfMaps(claims, done, listed, names, o.store);
      }
      if err.Some? {
        return false, false, err, done;
      }
      if skipped {
        err := Some(ClusterPaused);
      }
    }

    method Start(listed: seq<Metal3Data>, claims: seq<DataClaim>, ghost names: seq<string>, ghost o: Origin)
      returns (indexes: seq<IndexEntry>)
      requires NamesOk(datas) && Lists(listed, names, datas)
      requires o.store == datas && o.listing == Members(EntriesOf(template, listed)) && (o.unique ==> ClaimsUnique(datas, template))
      requires o.listed ==> ReferencesListed(template, claims, o.listing)
      modifies this`statusIndexes
      ensures Pass(claims, 0, indexes, o, false, false) && OriginOk(template, claims, o)
      ensures Members(indexes) == Members(EntriesOf(template, listed)) && |indexes| == |EntriesOf(template, listed)|
    {
      indexes := GetIndexes(listed);
      EntriesDistinct(template, listed, names, datas);
      ListingCovers(template, listed, names, datas);
      ListingPlaced(template, listed, names, datas);
      SortStrict(EntriesOf(template, listed));
      if o.unique {
        UniqueClaimsOneEntry(template, listed, names, datas);
      }
      assert |indexes| == |multiset(indexes)| == |multiset(EntriesOf(template, listed))|;
    }

    /** The lists stand for a claim-to-index map, and the maps follow the claims. */
    ghost predicate RefinesMap(claims: seq<DataClaim>, done: nat, first: seq<IndexEntry>)
      requires done <= |claims|
      reads this
    {
      && WellFormed(first) && WellFormed(statusIndexes)
      && MapRun(template, claims, done, AsMap(first), AsMap(statusIndexes))
    }

    lemma RunOfMaps(claims: seq<DataClaim>, done: nat, listed: seq<Metal3Data>, names: seq<string>, store: Store)
      requires NamesOk(store) && ClaimsUnique(store, template) && Lists(listed, names, store)
      requires done <= |claims| && StrictlySorted(statusIndexes)
      requires EntryRun(template, claims, done, Members(EntriesOf(template, listed)), Members(statusIndexes))
      ensures RefinesMap(claims, done, Sort(EntriesOf(template, listed)))
    {
      var first := Sort(EntriesOf(template, listed));
      UniqueClaimsOneEntry(template, listed, names, store);
      EntriesDistinct(template, listed, names, store);
      SortStrict(EntriesOf(template, listed));
      EntryRunOnMap(template, claims, done, Members(first), Members(statusIndexes));
      SortedMap(first);
      SortedMap(statusIndexes);
    }
  }

  function FirstIndexOr(es: seq<IndexEntry>, name: string): int {
    if FirstIndex(es, name).None? then -1 else FirstIndex(es, name).value
  }

  /** What became of the Metal3Data a deletion works on, the failing calls included. */
  predicate Removed(store: Store, target: Option<string>, err: Option<Error>, store': Store) {
    if target.None? then err.None? && store' == store
    else if err.None? then store' == Release(store, target.value, DATA_CLAIM_FINALIZER)
    else store' == store || store' == DropFinalizer(store, target.value, DATA_CLAIM_FINALIZER)
  }

  lemma {:induction false} FirstIndexIn(es: seq<IndexEntry>, name: string)
    ensures FirstIndex(es, name).Some? <==> HasName(es, name)
    ensures FirstIndex(es, name).Some? ==> IndexEntry(name, FirstIndex(es, name).value) in es
    decreases |es|
  {
    if es != [] && es[0].name != name {
      FirstIndexIn(es[1..], name);
      assert forall k :: 1 <= k < |es| ==> es[k] == es[1..][k - 1];
    }
  }

  /** The entry just inserted is the first of its claim. */
  lemma SoleEntry(es: seq<IndexEntry>, e: IndexEntry, es': seq<IndexEntry>)
    requires !Named(Members(es), e.name) && Inserted(Members(es), e.name, e.index, Members(es'))
    ensures FirstIndexOr(es', e.name) == e.index && e in es'
  {
    FirstIndexIn(es', e.name);
    assert e in Members(es');
    ListNames(es', e.name);
    var f := IndexEntry(e.name, FirstIndexOr(es', e.name));
    assert f in Members(es');
  }

  /** A deletion that is not safe: the claim has no entry, and its reference still names
      the index that another claim has by now. The other claim's Metal3Data goes. */
  lemma StaleReferenceTakesOther(template: string, claim: string, other: string, f: Faults, store': Store)
    requires claim != other && FaultFree(f)
    requires var data := DataName(template, 0);
             var c := DataClaim(claim, template, true, Some(data), false, Missing);
             var store := map[data := NewData(template, other, 0)];
             Removed(store, DeleteTarget(template, FirstIndex([IndexEntry(other, 0)], claim), c, store, f), None, store')
    ensures var data := DataName(template, 0);
            var c := DataClaim(claim, template, true, Some(data), false, Missing);
            var store := map[data := NewData(template, other, 0)];
            var es := Members([IndexEntry(other, 0)]);
            && NamesOk(store) && Placed(store, template, es) && Present(store, template, es)
            && !SafeToDelete(es, c, store) && !OthersKept(store, store', claim) && data !in store'
  {
    var data := DataName(template, 0);
    var c := DataClaim(claim, template, true, Some(data), false, Missing);
    var store := map[data := NewData(template, other, 0)];
    var es := [IndexEntry(other, 0)];
    assert es[0] in Members(es) && forall e :: e in Members(es) ==> e == IndexEntry(other, 0);
    DeletionExactly(template, es, c, store, f, store');
  }

  method KeepOthers(es: seq<IndexEntry>, name: string, index: int) returns (r: seq<IndexEntry>)
    ensures r == Filtered(es, name, index)
  {
    r := [];
    for k := 0 to |es|
      invariant r == Filtered(es[..k], name, index)
    {
      assert es[..k + 1][..k] == es[..k];
      if es[k].name != name && es[k].index != index {
        r := r + [es[k]];
      }
    }
    assert es[..|es|] == es;
  }

  // ----- histories in which the lists may be stale -----

  /** One API call by any template's manager. `CreateFrom` works from whatever list
      that manager happened to hold. */
  datatype StoreEvent =
    | CreateFrom(template: string, claim: string, list: seq<IndexEntry>, index: int)
    | DropFinalizerOf(name: string, finalizer: string)
    | DeleteOf(name: string)

  ghost function StoreStep(store: Store, e: StoreEvent): Store {
    match e
    case CreateFrom(t, c, list, i) =>
      if !HasName(list, c) && LeastFree(Indexes(list), i) then Create(store, DataName(t, i), NewData(t, c, i)) else store
    case DropFinalizerOf(n, f) => DropFinalizer(store, n, f)
    case DeleteOf(n) => Delete(store, n)
  }

  ghost function StoreRun(store: Store, es: seq<StoreEvent>): Store {
    if es == [] then store else StoreStep(StoreRun(store, es[..|es| - 1]), es[|es| - 1])
  }

  lemma StepKeepsNames(store: Store, e: StoreEvent)
    requires NamesOk(store)
    ensures NamesOk(StoreStep(store, e))
  {
  }

  lemma {:induction false} RunKeepsNames(store: Store, es: seq<StoreEvent>)
    requires NamesOk(store)
    ensures NamesOk(StoreRun(store, es))
  {
    if es != [] {
      RunKeepsNames(store, es[..|es| - 1]);
      StepKeepsNames(StoreRun(store, es[..|es| - 1]), es[|es| - 1]);
    }
  }

  /** However stale the lists, no template ever has two Metal3Data with one index,
      and templates never take each other's names. */
  lemma OneDataPerIndex(store: Store, es: seq<StoreEvent>, n1: string, n2: string)
    requires NamesOk(store)
    requires n1 in StoreRun(store, es) && StoreRun(store, es)[n1].body.template.Some?
    requires n2 in StoreRun(store, es) && StoreRun(store, es)[n2].body.template.Some?
    ensures var d1, d2 := StoreRun(store, es)[n1].body, StoreRun(store, es)[n2].body;
            n1 == n2 <==> d1.template == d2.template && d1.index == d2.index
  {
    RunKeepsNames(store, es);
    var d1, d2 := StoreRun(store, es)[n1].body, StoreRun(store, es)[n2].body;
    DataNameInjective(d1.template.value, d1.index, d2.template.value, d2.index);
  }

  // ----- one Metal3Data per claim -----

  ghost predicate Held(store: Store, template: string, claim: string) {
    exists n :: Claimed(store, template, n) && store[n].body.claim.value == claim
  }

  /** A Create that goes through for a claim that has a Metal3Data already. */
  ghost predicate Doubles(store: Store, e: StoreEvent, template: string) {
    && e.CreateFrom? && e.template == template && !HasName(e.list, e.claim) && LeastFree(Indexes(e.list), e.index)
    && DataName(template, e.index) !in store
    && Held(store, template, e.claim)
  }

  lemma StepClaimsUnique(store: Store, e: StoreEvent, template: string)
    requires ClaimsUnique(store, template)
    ensures ClaimsUnique(StoreStep(store, e), template) <==> !Doubles(store, e, template)
  {
    if e.CreateFrom? && e.template == template {
      CreateClaimsUnique(store, e, template);
    }
  }

  lemma CreateClaimsUnique(store: Store, e: StoreEvent, template: string)
    requires ClaimsUnique(store, template) && e.CreateFrom? && e.template == template
    ensures ClaimsUnique(StoreStep(store, e), template) <==> !Doubles(store, e, template)
  {
    var name := DataName(template, e.index);
    if Doubles(store, e, template) {
      var n :| Claimed(store, template, n) && store[n].body.claim.value == e.claim;
      assert Claimed(StoreStep(store, e), template, n) && Claimed(StoreStep(store, e), template, name);
    }
  }

  /** Claims have one Metal3Data each after every event of the history. */
  ghost predicate AlwaysUnique(store: Store, es: seq<StoreEvent>, template: string) {
    && ClaimsUnique(StoreRun(store, es), template)
    && (es != [] ==> AlwaysUnique(store, es[..|es| - 1], template))
  }

  ghost predicate NeverDoubles(store: Store, es: seq<StoreEvent>, template: string) {
    es != [] ==>
      && NeverDoubles(store, es[..|es| - 1], template)
      && !Doubles(StoreRun(store, es[..|es| - 1]), es[|es| - 1], template)
  }

  /** Claims keep one Metal3Data each through a whole history exactly when no Create in
      it goes through for a claim that has one. */
  lemma {:induction false} ClaimsUniqueExactly(store: Store, es: seq<StoreEvent>, template: string)
    requires ClaimsUnique(store, template)
    ensures AlwaysUnique(store, es, template) <==> NeverDoubles(store, es, template)
  {
    if es != [] {
      var less := es[..|es| - 1];
      ClaimsUniqueExactly(store, less, template);
      if AlwaysUnique(store, less, template) {
        StepClaimsUnique(StoreRun(store, less), es[|es| - 1], template);
      }
    }
  }

  /** Each list names the claim it is used for, if that claim has a Metal3Data. */
  ghost predicate AlwaysCurrent(store: Store, es: seq<StoreEvent>) {
    es != [] ==>
      && AlwaysCurrent(store, es[..|es| - 1])
      && var e := es[|es| - 1];
         e.CreateFrom? && Held(StoreRun(store, es[..|es| - 1]), e.template, e.claim) ==> HasName(e.list, e.claim)
  }

  /** It is enough that each list is current for the claim it serves. */
  lemma {:induction false} CurrentListsNeverDouble(store: Store, es: seq<StoreEvent>, template: string)
    requires AlwaysCurrent(store, es)
    ensures NeverDoubles(store, es, template)
    ensures ClaimsUnique(store, template) ==> ClaimsUnique(StoreRun(store, es), template)
  {
    if es != [] {
      CurrentListsNeverDouble(store, es[..|es| - 1], template);
    }
    if ClaimsUnique(store, template) {
      ClaimsUniqueExactly(store, es, template);
    }
  }

  /** Otherwise it can fail: two passes whose lists miss the claim give it indexes 1
      and 0. */
  lemma StaleListsDoubleClaim(template: string, claim: string, other: string)
    requires other != claim
    ensures var es := StalePasses(template, claim, other);
            && DataName(template, 0) in StoreRun(map[], es) && DataName(template, 1) in StoreRun(map[], es)
            && !ClaimsUnique(StoreRun(map[], es), template)
  {
    var es := StalePasses(template, claim, other);
    var list := [IndexEntry(other, 0)];
    assert list[0].index == 0 && LeastFree(Indexes(list), 1);
    DataNameInjective(template, 0, template, 1);
    var s1 := StoreRun(map[], es[..1]);
    assert es[..1] == [es[0]] && [es[0]][..0] == [];
    assert s1 == StoreStep(StoreRun(map[], []), es[0]) && !HasName(list, claim);
    assert s1 == map[DataName(template, 1) := NewData(template, claim, 1)];
    var s2 := StoreRun(map[], es);
    assert s2 == StoreStep(s1, es[1]);
    assert !HasName([], claim) && LeastFree(Indexes([]), 0);
    assert s2 == s1[DataName(template, 0) := NewData(template, claim, 0)];
    assert Claimed(s2, template, DataName(template, 0)) && Claimed(s2, template, DataName(template, 1));
  }

  function StalePasses(template: string, claim: string, other: string): seq<StoreEvent> {
    [CreateFrom(template, claim, [IndexEntry(other, 0)], 1), CreateFrom(template, claim, [], 0)]
  }
}
