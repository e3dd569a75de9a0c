/** Index lists of a Metal3DataTemplate status: entries (claim name, index), the
    map a list stands for, and the sort that keeps it in order. */
module IndexLists {
  datatype IndexEntry = IndexEntry(name: string, index: int)

  predicate Taken(es: seq<IndexEntry>, i: int) {
    exists k :: 0 <= k < |es| && es[k].index == i
  }

  predicate HasName(es: seq<IndexEntry>, name: string) {
    exists k :: 0 <= k < |es| && es[k].name == name
  }

  predicate StrictlySorted(es: seq<IndexEntry>) {
    forall i, j :: 0 <= i < j < |es| ==> es[i].index < es[j].index
  }

  predicate Sorted(es: seq<IndexEntry>) {
    forall i, j :: 0 <= i < j < |es| ==> es[i].index <= es[j].index
  }

  predicate UniqueNames(es: seq<IndexEntry>) {
    forall i, j :: 0 <= i < j < |es| ==> es[i].name != es[j].name
  }

  predicate WellFormed(es: seq<IndexEntry>) {
    StrictlySorted(es) && UniqueNames(es)
  }

  /** The claim-to-index map a list stands for. */
  function AsMap(es: seq<IndexEntry>): map<string, int> {
    if es == [] then map[]
    else AsMap(es[..|es| - 1])[es[|es| - 1].name := es[|es| - 1].index]
  }

  lemma {:induction false} AsMapHas(es: seq<IndexEntry>, name: string)
    ensures name in AsMap(es) <==> HasName(es, name)
    ensures name in AsMap(es) ==> IndexEntry(name, AsMap(es)[name]) in es
  {
    if es != [] {
      var init := es[..|es| - 1];
      AsMapHas(init, name);
      if name in AsMap(init) {
        var k :| 0 <= k < |init| && init[k].name == name;
        assert es[k].name == name;
      }
      assert es[|es| - 1].name in AsMap(es);
      if HasName(es, name) && name != es[|es| - 1].name {
        var k :| 0 <= k < |es| && es[k].name == name;
        assert init[k].name == name;
      }
    }
  }

  lemma {:induction false} AsMapAt(es: seq<IndexEntry>, k: nat)
    requires UniqueNames(es) && k < |es|
    ensures es[k].name in AsMap(es) && AsMap(es)[es[k].name] == es[k].index
  {
    if k < |es| - 1 {
      AsMapAt(es[..|es| - 1], k);
    }
  }

  /** A well-formed list is determined by its map, whatever order produced it. */
  lemma AsMapMembers(es: seq<IndexEntry>, e: IndexEntry)
    requires UniqueNames(es)
    ensures e in es <==> e.name in AsMap(es) && AsMap(es)[e.name] == e.index
  {
    if e in es {
      var k :| 0 <= k < |es| && es[k] == e;
      AsMapAt(es, k);
    }
    AsMapHas(es, e.name);
  }

  lemma {:induction false} SortedListsEqual(a: seq<IndexEntry>, b: seq<IndexEntry>)
    requires StrictlySorted(a) && StrictlySorted(b)
    requires forall e :: e in a <==> e in b
    ensures a == b
  {
    assert |a| > 0 ==> a[0] in a;
    assert |b| > 0 ==> b[0] in b;
    if a != [] && b != [] {
      assert a[0] in b && b[0] in a;
      var i :| 0 <= i < |b| && b[i] == a[0];
      var j :| 0 <= j < |a| && a[j] == b[0];
      assert a[0] == b[0];
      forall e
        ensures e in a[1..] <==> e in b[1..]
      {
        SplitHead(a, e);
        SplitHead(b, e);
      }
      SortedListsEqual(a[1..], b[1..]);
    }
  }

  lemma SplitHead(a: seq<IndexEntry>, e: IndexEntry)
    requires a != [] && StrictlySorted(a)
    ensures e in a[1..] <==> e in a && e != a[0]
  {
    if e in a && e != a[0] {
      var k :| 0 <= k < |a| && a[k] == e;
      assert a[1..][k - 1] == e;
    }
  }

  // ----- sorting (sort.Slice by Index) -----

  /** Where an entry with index `x` goes in a sorted list: after its equals. */
  function Position(es: seq<IndexEntry>, x: int): (p: nat)
    requires Sorted(es)
    ensures p <= |es|
    ensures forall i :: 0 <= i < p ==> es[i].index <= x
    ensures forall i :: p <= i < |es| ==> es[i].index > x
  {
    if es == [] || es[|es| - 1].index <= x then |es|
    else
      var p := Position(es[..|es| - 1], x);
      assert forall i :: p <= i < |es| - 1 ==> es[..|es| - 1][i] == es[i];
      p
  }

  lemma InsertSorted(es: seq<IndexEntry>, e: IndexEntry, p: nat)
    requires Sorted(es) && p <= |es|
    requires forall i :: 0 <= i < p ==> es[i].index <= e.index
    requires forall i :: p <= i < |es| ==> e.index < es[i].index
    ensures Sorted(es[..p] + [e] + es[p..])
  {
  }

  function Insert(es: seq<IndexEntry>, e: IndexEntry): (r: seq<IndexEntry>)
    requires Sorted(es)
    ensures Sorted(r) && multiset(r) == multiset(es) + multiset{e}
  {
    var p := Position(es, e.index);
    InsertSorted(es, e, p);
    assert es == es[..p] + es[p..];
    es[..p] + [e] + es[p..]
  }

  function Sort(es: seq<IndexEntry>): (r: seq<IndexEntry>)
    ensures Sorted(r) && multiset(r) == multiset(es)
  {
    if es == [] then []
    else
      assert es == es[..|es| - 1] + [es[|es| - 1]];
      Insert(Sort(es[..|es| - 1]), es[|es| - 1])
  }

  lemma SortMembers(es: seq<IndexEntry>, e: IndexEntry)
    ensures e in Sort(es) <==> e in es
  {
    assert e in Sort(es) <==> e in multiset(Sort(es));
    assert e in es <==> e in multiset(es);
  }

  predicate UniqueIndexes(es: seq<IndexEntry>) {
    forall i, j :: 0 <= i < j < |es| ==> es[i].index != es[j].index
  }

  lemma InsertKeepsIndexes(es: seq<IndexEntry>, e: IndexEntry)
    requires Sorted(es) && UniqueIndexes(es)
    requires forall x :: x in es ==> x.index != e.index
    ensures UniqueIndexes(Insert(es, e))
  {
    var p, r := Position(es, e.index), Insert(es, e);
    forall i, j | 0 <= i < j < |r|
      ensures r[i].index != r[j].index
    {
      var i', j' := if i < p then i else i - 1, if j < p then j else j - 1;
      if i != p && j != p {
        assert r[i] == es[i'] && r[j] == es[j'];
      } else if i == p {
        assert r[i] == e && r[j] == es[j'] && es[j'] in es;
      } else {
        assert r[j] == e && r[i] == es[i'] && es[i'] in es;
      }
    }
  }

  lemma {:induction false} SortIndexes(es: seq<IndexEntry>)
    requires UniqueIndexes(es)
    ensures StrictlySorted(Sort(es)) && UniqueIndexes(Sort(es))
  {
    if es != [] {
      var init, last := es[..|es| - 1], es[|es| - 1];
      SortIndexes(init);
      forall x ensures x in Sort(init) <==> x in init { SortMembers(init, x); }
      InsertKeepsIndexes(Sort(init), last);
    }
  }

  /** Sorting a list whose indexes and names are distinct gives the well-formed
      list with the same entries, so the unstable library sort is deterministic. */
  lemma SortDistinct(es: seq<IndexEntry>)
    requires UniqueIndexes(es) && UniqueNames(es)
    ensures WellFormed(Sort(es)) && AsMap(Sort(es)) == AsMap(es)
  {
    SortIndexes(es);
    SortKeepsNames(es);
    forall e ensures e in Sort(es) <==> e in es { SortMembers(es, e); }
    SameMap(Sort(es), es);
  }

  lemma SameMap(r: seq<IndexEntry>, es: seq<IndexEntry>)
    requires UniqueNames(r) && UniqueNames(es)
    requires forall e :: e in r <==> e in es
    ensures AsMap(r) == AsMap(es)
  {
    forall name
      ensures name in AsMap(r) <==> name in AsMap(es)
      ensures name in AsMap(r) ==> AsMap(r)[name] == AsMap(es)[name]
    {
      SameMapEntry(r, es, name);
    }
  }

  lemma SameMapEntry(r: seq<IndexEntry>, es: seq<IndexEntry>, name: string)
    requires UniqueNames(r) && UniqueNames(es)
    requires forall e :: e in r <==> e in es
    ensures name in AsMap(r) <==> name in AsMap(es)
    ensures name in AsMap(r) ==> AsMap(r)[name] == AsMap(es)[name]
  {
    AsMapHas(r, name);
    AsMapHas(es, name);
    if name in AsMap(r) {
      AsMapMembers(es, IndexEntry(name, AsMap(r)[name]));
    }
    if name in AsMap(es) {
      AsMapMembers(r, IndexEntry(name, AsMap(es)[name]));
    }
  }

  lemma InsertKeepsNames(es: seq<IndexEntry>, e: IndexEntry)
    requires Sorted(es) && UniqueNames(es)
    requires forall x :: x in es ==> x.name != e.name
    ensures UniqueNames(Insert(es, e))
  {
    var p, r := Position(es, e.index), Insert(es, e);
    forall i, j | 0 <= i < j < |r|
      ensures r[i].name != r[j].name
    {
      var i', j' := if i < p then i else i - 1, if j < p then j else j - 1;
      if i != p && j != p {
        assert r[i] == es[i'] && r[j] == es[j'];
      } else if i == p {
        assert r[i] == e && r[j] == es[j'] && es[j'] in es;
      } else {
        assert r[j] == e && r[i] == es[i'] && es[i'] in es;
      }
    }
  }

  lemma {:induction false} SortKeepsNames(es: seq<IndexEntry>)
    requires UniqueNames(es)
    ensures UniqueNames(Sort(es))
  {
    if es != [] {
      var init, last := es[..|es| - 1], es[|es| - 1];
      SortKeepsNames(init);
      forall x ensures x in Sort(init) <==> x in init { SortMembers(init, x); }
      InsertKeepsNames(Sort(init), last);
    }
  }
}
