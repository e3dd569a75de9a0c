/** Conversions between the v1beta1 and v1beta2 API versions: the index list of a
    Metal3DataTemplate status against its map form, and the failure domains of a
    Metal3Cluster against theirs. Go walks a map in any order, so the conversions
    to lists are specified by what every order must produce. */
module Conversion {
  import opened Wrappers
  import opened IndexLists

  const MAX_INT32 := 0x7fff_ffff
  const MIN_INT32 := -0x8000_0000

  // ----- Metal3DataTemplateStatus.Indexes -----

  /** An entry of the v1beta2 list; its index is a pointer. */
  datatype EntryV2 = EntryV2(name: string, index: Option<int>)

  datatype Panic = NilIndex

  /** Go's int32(x). */
  function ToInt32(x: int): (r: int)
    ensures MIN_INT32 <= r <= MAX_INT32 && (r - x) % 0x1_0000_0000 == 0
    ensures MIN_INT32 <= x <= MAX_INT32 ==> r == x
  {
    (x - MIN_INT32) % 0x1_0000_0000 + MIN_INT32
  }

  predicate Complete(list: seq<EntryV2>) {
    forall k :: 0 <= k < |list| ==> list[k].index.Some?
  }

  function Plain(list: seq<EntryV2>): seq<IndexEntry>
    requires Complete(list)
  {
    seq(|list|, k requires 0 <= k < |list| => IndexEntry(list[k].name, list[k].index.value))
  }

  function Pointers(list: seq<IndexEntry>): (r: seq<EntryV2>)
    ensures Complete(r) && Plain(r) == list
  {
    seq(|list|, k requires 0 <= k < |list| => EntryV2(list[k].name, Some(list[k].index)))
  }

  /** v1beta2 to v1beta1. A nil index is dereferenced, not filtered out. */
  method IndexesToV1Beta1(list: seq<EntryV2>) returns (r: Result<Option<map<string, int>>, Panic>)
    ensures r.Err? <==> !Complete(list)
    ensures r.Ok? ==> r.value == if list == [] then None else Some(AsMap(Plain(list)))
  {
    if list == [] {
      return Ok(None);
    }
    var out: map<string, int> := map[];
    for k := 0 to |list|
      invariant Complete(list[..k]) && out == AsMap(Plain(list[..k]))
    {
      assert list[..k + 1][..k] == list[..k];
      if list[k].index.None? {
        return Err(NilIndex);
      }
      assert Plain(list[..k + 1])[..k] == Plain(list[..k]);
      out := out[list[k].name := list[k].index.value];
    }
    assert list[..|list|] == list;
    r := Ok(Some(out));
  }

  /** What the v1beta2 list made from a map must be, whatever order the map was
      walked in. */
  ghost predicate ListOf(m: map<string, int>, list: seq<IndexEntry>) {
    && Sorted(list) && UniqueNames(list)
    && forall e :: e in list <==> e.name in m && e.index == ToInt32(m[e.name])
  }

  /** v1beta1 to v1beta2. */
  method IndexesToV1Beta2(m: Option<map<string, int>>) returns (list: seq<IndexEntry>)
    ensures ListOf(if m.None? then map[] else m.value, list)
  {
    if m.None? {
      return [];
    }
    var unsorted: seq<IndexEntry> := [];
    var keys := m.value.Keys;
    while keys != {}
      invariant keys <= m.value.Keys && UniqueNames(unsorted)
      invariant forall e :: e in unsorted <==> e.name in m.value.Keys - keys && e.index == ToInt32(m.value[e.name])
      decreases |keys|
    {
      var name :| name in keys;
      unsorted := unsorted + [IndexEntry(name, ToInt32(m.value[name]))];
      keys := keys - {name};
    }
    list := Sort(unsorted);
    SortKeepsNames(unsorted);
    forall e ensures e in list <==> e in unsorted { SortMembers(unsorted, e); }
  }

  predicate InInt32(list: seq<IndexEntry>) {
    forall k :: 0 <= k < |list| ==> MIN_INT32 <= list[k].index <= MAX_INT32
  }

  lemma {:induction false} SomeList(m: map<string, int>) returns (list: seq<IndexEntry>)
    ensures ListOf(m, list)
  {
    if m == map[] {
      list := [];
    } else {
      var name :| name in m;
      var rest := SomeList(m - {name});
      list := Insert(rest, IndexEntry(name, ToInt32(m[name])));
      InsertKeepsNames(rest, IndexEntry(name, ToInt32(m[name])));
      forall e
        ensures e in list <==> e.name in m && e.index == ToInt32(m[e.name])
      {
        assert e in list <==> e in multiset(list);
        assert e in rest <==> e in multiset(rest);
      }
    }
  }

  lemma WellFormedReturns(list: seq<IndexEntry>, other: seq<IndexEntry>)
    requires WellFormed(list) && InInt32(list) && ListOf(AsMap(list), other)
    ensures other == list
  {
    forall e
      ensures e in other <==> e in list
    {
      AsMapMembers(list, e);
      if e.name in AsMap(list) {
        AsMapHas(list, e.name);
        var k :| 0 <= k < |list| && list[k] == IndexEntry(e.name, AsMap(list)[e.name]);
      }
    }
    forall i, j | 0 <= i < j < |other|
      ensures other[i].index < other[j].index
    {
      assert other[i] in list && other[j] in list;
      var a :| 0 <= a < |list| && list[a] == other[i];
      var b :| 0 <= b < |list| && list[b] == other[j];
    }
    SortedListsEqual(other, list);
  }

  lemma {:induction false} AdjacentEqual(list: seq<IndexEntry>, i: nat, j: nat) returns (k: nat)
    requires Sorted(list) && i < j < |list| && list[i].index == list[j].index
    ensures k + 1 < |list| && list[k].index == list[k + 1].index
  {
    k := i;
    assert list[i].index <= list[i + 1].index <= list[j].index;
  }

  lemma SwapEqual(list: seq<IndexEntry>, k: nat, m: map<string, int>)
    requires ListOf(m, list) && k + 1 < |list| && list[k].index == list[k + 1].index
    ensures ListOf(m, list[k := list[k + 1]][k + 1 := list[k]])
    ensures list[k := list[k + 1]][k + 1 := list[k]] != list
  {
    var l := list[k := list[k + 1]][k + 1 := list[k]];
    assert l[k].name != list[k].name;
    SwapMembers(list, k, l);
    forall i, j | 0 <= i < j < |l|
      ensures l[i].index <= l[j].index && l[i].name != l[j].name
    {
      var i' := if i == k then k + 1 else if i == k + 1 then k else i;
      var j' := if j == k then k + 1 else if j == k + 1 then k else j;
      assert l[i] == list[i'] && l[j] == list[j'];
      assert l[i].index == list[i].index && l[j].index == list[j].index;
      assert i' < j' || j' < i';
    }
  }

  lemma SwapMembers(list: seq<IndexEntry>, k: nat, l: seq<IndexEntry>)
    requires k + 1 < |list| && l == list[k := list[k + 1]][k + 1 := list[k]]
    ensures forall e :: e in l <==> e in list
  {
    assert multiset(l) == multiset(list);
    forall e
      ensures e in l <==> e in list
    {
      assert e in l <==> e in multiset(l);
      assert e in list <==> e in multiset(list);
    }
  }

  lemma OtherList(list: seq<IndexEntry>) returns (l: seq<IndexEntry>)
    requires !WellFormed(list)
    ensures ListOf(AsMap(list), l) && l != list
  {
    l := SomeList(AsMap(list));
    if l == list {
      var i, j :| 0 <= i < j < |list| && list[i].index >= list[j].index;
      var k := AdjacentEqual(list, i, j);
      SwapEqual(list, k, AsMap(list));
      l := list[k := list[k + 1]][k + 1 := list[k]];
    }
  }

  ghost predicate Returns(list: seq<IndexEntry>) {
    forall l :: ListOf(AsMap(list), l) ==> l == list
  }

  /** Converting a list to v1beta1 and back returns it under every map order if
      and only if it is sorted by distinct indexes with distinct names, which is
      what the allocator maintains. */
  lemma IndexesReturnExactly(list: seq<IndexEntry>)
    requires InInt32(list)
    ensures WellFormed(list) <==> Returns(list)
  {
    if WellFormed(list) {
      forall l | ListOf(AsMap(list), l) ensures l == list { WellFormedReturns(list, l); }
    } else {
      var l := OtherList(list);
    }
  }

  method IndexesRoundTrip(list: seq<IndexEntry>) returns (r: seq<IndexEntry>)
    requires WellFormed(list) && InInt32(list)
    ensures r == list
  {
    var m := IndexesToV1Beta1(Pointers(list));
    r := IndexesToV1Beta2(m.value);
    WellFormedReturns(list, r);
  }

  // ----- Metal3ClusterSpec.FailureDomains -----

  datatype DomainV1 = DomainV1(controlPlane: bool, attributes: map<string, string>)

  datatype DomainV2 = DomainV2(name: string, controlPlane: Option<bool>, attributes: map<string, string>)

  /** Go's string order. */
  predicate Less(a: string, b: string) {
    b != "" && (a == "" || if a[0] == b[0] then Less(a[1..], b[1..]) else a[0] < b[0])
  }

  lemma {:induction false} LessTotal(a: string, b: string)
    ensures Less(a, b) <==> !Less(b, a) && a != b
  {
    if a != "" && b != "" && a[0] == b[0] {
      LessTotal(a[1..], b[1..]);
      assert a == [a[0]] + a[1..] && b == [b[0]] + b[1..];
    }
  }

  lemma {:induction false} LessTransitive(a: string, b: string, c: string)
    requires Less(a, b) && Less(b, c)
    ensures Less(a, c)
  {
    if a != "" && a[0] == b[0] == c[0] {
      LessTransitive(a[1..], b[1..], c[1..]);
    }
  }

  predicate InOrder(names: seq<string>) {
    forall i, j :: 0 <= i < j < |names| ==> Less(names[i], names[j])
  }

  /** sort.Strings on the keys of a map: distinct names, collected in any order. */
  method SortedKeys<V>(m: map<string, V>) returns (names: seq<string>)
    ensures InOrder(names)
    ensures forall n :: n in names <==> n in m
  {
    names := [];
    var keys := m.Keys;
    while keys != {}
      invariant keys <= m.Keys && InOrder(names)
      invariant forall n :: n in names <==> n in m.Keys - keys
      decreases |keys|
    {
      var name :| name in keys;
      names := InsertName(names, name);
      keys := keys - {name};
    }
  }

  method InsertName(names: seq<string>, name: string) returns (r: seq<string>)
    requires InOrder(names) && name !in names
    ensures InOrder(r)
    ensures forall n :: n in r <==> n in names || n == name
  {
    var p := 0;
    while p < |names| && Less(names[p], name)
      invariant p <= |names|
      invariant forall i :: 0 <= i < p ==> Less(names[i], name)
    {
      p := p + 1;
    }
    r := names[..p] + [name] + names[p..];
    InsertInOrder(names, name, p);
  }

  lemma RestFollows(names: seq<string>, name: string, p: nat, i: nat)
    requires InOrder(names) && name !in names && p <= i < |names|
    requires !Less(names[p], name)
    ensures Less(name, names[i])
  {
    LessTotal(names[p], name);
    if i > p {
      LessTransitive(name, names[p], names[i]);
    }
  }

  lemma InsertInOrder(names: seq<string>, name: string, p: nat)
    requires InOrder(names) && name !in names && p <= |names|
    requires forall i :: 0 <= i < p ==> Less(names[i], name)
    requires p < |names| ==> !Less(names[p], name)
    ensures InOrder(names[..p] + [name] + names[p..])
    ensures forall n :: n in names[..p] + [name] + names[p..] <==> n in names || n == name
  {
    var r := names[..p] + [name] + names[p..];
    forall i, j | 0 <= i < j < |r|
      ensures Less(r[i], r[j])
    {
      if j == p {
        assert r[i] == names[i] && r[j] == name;
      } else if i == p {
        assert r[i] == name && r[j] == names[j - 1];
        RestFollows(names, name, p, j - 1);
      } else {
        assert r[i] == names[if i < p then i else i - 1] && r[j] == names[if j < p then j else j - 1];
      }
    }
    assert names == names[..p] + names[p..];
  }

  function Up(name: string, fd: DomainV1): DomainV2 {
    DomainV2(name, if fd.controlPlane then Some(true) else None, fd.attributes)
  }

  function Down(fd: DomainV2): DomainV1 {
    DomainV1(fd.controlPlane == Some(true), fd.attributes)
  }

  /** The map a v1beta2 list stands for; a later entry wins over an earlier one. */
  function DomainMap(list: seq<DomainV2>): map<string, DomainV1> {
    if list == [] then map[]
    else DomainMap(list[..|list| - 1])[list[|list| - 1].name := Down(list[|list| - 1])]
  }

  function DomainNames(list: seq<DomainV2>): seq<string> {
    seq(|list|, k requires 0 <= k < |list| => list[k].name)
  }

  ghost predicate DomainListOf(m: map<string, DomainV1>, list: seq<DomainV2>) {
    && InOrder(DomainNames(list))
    && (forall n :: n in DomainNames(list) <==> n in m)
    && forall k :: 0 <= k < |list| ==> list[k].name in m && list[k] == Up(list[k].name, m[list[k].name])
  }

  /** v1beta1 to v1beta2; a nil map stays nil. */
  method DomainsToV1Beta2(m: Option<map<string, DomainV1>>) returns (list: Option<seq<DomainV2>>)
    ensures m.None? <==> list.None?
    ensures m.Some? ==> DomainListOf(m.value, list.value)
  {
    if m.None? {
      return None;
    }
    var names := SortedKeys(m.value);
    var out: seq<DomainV2> := [];
    for k := 0 to |names|
      invariant |out| == k
      invariant forall i :: 0 <= i < k ==> out[i].name == names[i] && out[i] == Up(names[i], m.value[names[i]])
    {
      out := out + [Up(names[k], m.value[names[k]])];
    }
    assert DomainNames(out) == names;
    list := Some(out);
  }

  /** v1beta2 to v1beta1; a nil list stays nil. */
  method DomainsToV1Beta1(list: Option<seq<DomainV2>>) returns (m: Option<map<string, DomainV1>>)
    ensures m == if list.None? then None else Some(DomainMap(list.value))
  {
    if list.None? {
      return None;
    }
    var out: map<string, DomainV1> := map[];
    for k := 0 to |list.value|
      invariant out == DomainMap(list.value[..k])
    {
      assert list.value[..k + 1][..k] == list.value[..k];
      out := out[list.value[k].name := Down(list.value[k])];
    }
    assert list.value[..|list.value|] == list.value;
    m := Some(out);
  }

  lemma {:induction false} DomainMapAt(list: seq<DomainV2>, k: nat)
    requires InOrder(DomainNames(list)) && k < |list|
    ensures list[k].name in DomainMap(list) && DomainMap(list)[list[k].name] == Down(list[k])
  {
    var n := |list| - 1;
    if k < n {
      assert DomainNames(list)[..n] == DomainNames(list[..n]);
      DomainMapAt(list[..n], k);
      LessTotal(DomainNames(list)[k], DomainNames(list)[n]);
    }
  }

  lemma {:induction false} DomainMapKeys(list: seq<DomainV2>, name: string)
    ensures name in DomainMap(list) <==> name in DomainNames(list)
  {
    if list != [] {
      var n := |list| - 1;
      DomainMapKeys(list[..n], name);
      assert DomainNames(list) == DomainNames(list[..n]) + [list[n].name];
    }
  }

  /** Every map of failure domains comes back unchanged. */
  lemma DomainMapReturns(m: map<string, DomainV1>, list: seq<DomainV2>)
    requires DomainListOf(m, list)
    ensures DomainMap(list) == m
  {
    forall name
      ensures name in DomainMap(list) <==> name in m
      ensures name in m ==> DomainMap(list)[name] == m[name]
    {
      DomainMapKeys(list, name);
      if name in m {
        var k :| 0 <= k < |list| && DomainNames(list)[k] == name;
        DomainMapAt(list, k);
      }
    }
  }

  method DomainsRoundTrip(m: Option<map<string, DomainV1>>) returns (r: Option<map<string, DomainV1>>)
    ensures r == m
  {
    var list := DomainsToV1Beta2(m);
    if list.Some? {
      DomainMapReturns(m.value, list.value);
    }
    r := DomainsToV1Beta1(list);
  }

  lemma {:induction false} OrderedNamesEqual(a: seq<string>, b: seq<string>)
    requires InOrder(a) && InOrder(b)
    requires forall n :: n in a <==> n in b
    ensures a == b
  {
    assert |a| > 0 ==> a[0] in a;
    assert |b| > 0 ==> b[0] in b;
    if a != [] && b != [] {
      assert a[0] in b && b[0] in a;
      var i :| 0 <= i < |b| && b[i] == a[0];
      var j :| 0 <= j < |a| && a[j] == b[0];
      LessTotal(a[0], b[0]);
      forall n
        ensures n in a[1..] <==> n in b[1..]
      {
        TailNames(a, n);
        TailNames(b, n);
      }
      OrderedNamesEqual(a[1..], b[1..]);
    }
  }

  lemma TailNames(a: seq<string>, n: string)
    requires a != [] && InOrder(a)
    ensures n in a[1..] <==> n in a && n != a[0]
  {
    if n in a[1..] {
      var k :| 0 <= k < |a[1..]| && a[1..][k] == n;
      LessTotal(a[0], a[k + 1]);
    }
    if n in a && n != a[0] {
      var k :| 0 <= k < |a| && a[k] == n;
      assert a[1..][k - 1] == n;
    }
  }

  lemma UpDown(fd: DomainV2)
    ensures Up(fd.name, Down(fd)) == fd <==> fd.controlPlane != Some(false)
  {
    match fd.controlPlane
    case None =>
    case Some(b) => assert b || !b;
  }

  predicate NoFalse(list: seq<DomainV2>) {
    forall k :: 0 <= k < |list| ==> list[k].controlPlane != Some(false)
  }

  /** A v1beta2 list survives the trip through v1beta1 if and only if its names are
      in strict order and no entry spells out `controlPlane: false`. */
  lemma DomainListReturnsExactly(list: seq<DomainV2>, back: seq<DomainV2>)
    requires DomainListOf(DomainMap(list), back)
    ensures back == list <==> InOrder(DomainNames(list)) && NoFalse(list)
  {
    if InOrder(DomainNames(list)) {
      forall n ensures n in DomainNames(back) <==> n in DomainNames(list) { DomainMapKeys(list, n); }
      OrderedNamesEqual(DomainNames(back), DomainNames(list));
      assert |back| == |DomainNames(back)| == |list|;
      forall k | 0 <= k < |list|
        ensures back[k] == list[k] <==> list[k].controlPlane != Some(false)
      {
        assert DomainNames(back)[k] == DomainNames(list)[k];
        DomainMapAt(list, k);
        UpDown(list[k]);
      }
    }
  }
}
