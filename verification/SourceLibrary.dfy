// The server library: what each source contributes, the rebuild a restart performs, and the
// index kept in memory (src-tauri/src/application.rs:577-655, 938-991, 1188-1385, 3806-3870;
// src-tauri/src/subscription_store.rs:77-127). Identifiers of 32 hexadecimal digits are
// numbers; parsing, name and address checks are services.
module SourceLibrary {
  import opened Text

  type Token = nat
  const LEGACY: Token := 0
  const MAX_SOURCES := 64
  const MAX_NODES := 2000
  const MAX_INPUT_BYTES: nat := 10 * 1024 * 1024
  const MAX_REVISION: nat := 0xffff_ffff_ffff_ffff
  const MAX_TIME: nat := 8_640_000_000_000_000

  // `<digits>` or `<source>-<digits>`; only the legacy source owns plain identifiers.
  datatype NodeId = Plain(stable: Token) | Owned(source: Token, suffix: Token)
  datatype Kind = Subscription | Manual

  // A parsed node: its content hash, its identity across refreshes, and the rest.
  datatype Parsed = Parsed(stable: Token, updateKey: string, body: string)
  datatype Report = Report(nodes: seq<Parsed>, complete: bool)

  datatype Source = Source(
    id: Token, name: string, kind: Kind, content: string, url: Option<string>, updatedAt: Option<nat>,
    revision: nat, nodeIds: seq<NodeId>)

  datatype Stored = Stored(node: Parsed, sourceId: Token, sourceName: string, kind: Kind)

  type Entry = (NodeId, Stored)

  // Services the library calls: the subscription parser and two text checks.
  datatype Services = Services(
    parse: string -> Option<Report>, validName: string -> bool, validUrl: string -> bool)

  // The parser rejects content without a usable node and gives every node of one report its own
  // content hash (src-tauri/src/subscription.rs:1585-1606; the hash covers the position).
  ghost predicate ParserContract(services: Services) {
    forall content: string :: services.parse(content).Some? ==>
      services.parse(content).value.nodes != [] && DistinctBy(services.parse(content).value.nodes, StableOf)
  }

  function StableOf(node: Parsed): Token { node.stable }
  function SourceId(source: Source): Token { source.id }
  function IdOfEntry(entry: Entry): NodeId { entry.0 }
  function Itself(id: NodeId): NodeId { id }

  // ---- What one source contributes --------------------------------------

  function NodesOf(services: Services, source: Source): seq<Parsed> {
    match services.parse(source.content) case Some(report) => report.nodes case None => []
  }

  predicate Loadable(services: Services, source: Source) {
    services.parse(source.content).Some?
    && (source.nodeIds == [] || |source.nodeIds| == |NodesOf(services, source)|)
  }

  function NodeIdAt(source: Source, nodes: seq<Parsed>, i: nat): NodeId
    requires i < |nodes|
  {
    if i < |source.nodeIds| then source.nodeIds[i]
    else if source.id == LEGACY then Plain(nodes[i].stable) else Owned(source.id, nodes[i].stable)
  }

  function EntryAt(source: Source, nodes: seq<Parsed>, i: nat): Entry
    requires i < |nodes|
  {
    (NodeIdAt(source, nodes, i), Stored(nodes[i], source.id, source.name, source.kind))
  }

  function PrepareNodes(source: Source, nodes: seq<Parsed>): seq<Entry> {
    seq(|nodes|, i requires 0 <= i < |nodes| => EntryAt(source, nodes, i))
  }

  // The entries of one source, in the order of its content.
  function Block(services: Services, source: Source): seq<Entry> {
    PrepareNodes(source, NodesOf(services, source))
  }

  // ---- The simple rebuild -----------------------------------------------

  function Entries(services: Services, sources: seq<Source>): seq<Entry> {
    if sources == [] then []
    else Entries(services, sources[..|sources| - 1]) + Block(services, sources[|sources| - 1])
  }

  function Keys(entries: seq<Entry>): seq<NodeId> {
    seq(|entries|, i requires 0 <= i < |entries| => entries[i].0)
  }

  function Index(entries: seq<Entry>): map<NodeId, Stored> {
    if entries == [] then map[]
    else Index(entries[..|entries| - 1])[entries[|entries| - 1].0 := entries[|entries| - 1].1]
  }

  predicate AllLoadable(services: Services, sources: seq<Source>) {
    forall i :: 0 <= i < |sources| ==> Loadable(services, sources[i])
  }

  predicate Rebuildable(services: Services, sources: seq<Source>) {
    AllLoadable(services, sources) && |Entries(services, sources)| <= MAX_NODES
  }

  // ---- Stored sources ---------------------------------------------------

  predicate InNamespace(source: Token, id: NodeId) {
    match id case Plain(_) => source == LEGACY case Owned(owner, _) => owner == source
  }

  predicate NamespaceHolds(source: Source) {
    forall i :: 0 <= i < |source.nodeIds| ==> InNamespace(source.id, source.nodeIds[i])
  }

  ghost predicate ValidSource(services: Services, source: Source) {
    && services.validName(source.name)
    && 0 < Utf8Len(source.content) <= MAX_INPUT_BYTES
    && (source.kind == Subscription || source.url.None?)
    && (source.url.Some? ==> services.validUrl(source.url.value))
    && (source.updatedAt.Some? ==> source.updatedAt.value <= MAX_TIME)
    && |source.nodeIds| <= MAX_NODES && NamespaceHolds(source) && DistinctBy(source.nodeIds, Itself)
  }

  function TotalBytes(sources: seq<Source>): nat {
    if sources == [] then 0 else TotalBytes(sources[..|sources| - 1]) + Utf8Len(sources[|sources| - 1].content)
  }

  ghost predicate ValidSources(services: Services, sources: seq<Source>) {
    && |sources| <= MAX_SOURCES
    && (forall i :: 0 <= i < |sources| ==> ValidSource(services, sources[i]))
    && DistinctBy(sources, SourceId)
    && TotalBytes(sources) <= MAX_INPUT_BYTES
  }

  // ---- Facts about entries ----------------------------------------------

  lemma {:induction false} EntriesConcat(services: Services, a: seq<Source>, b: seq<Source>)
    ensures Entries(services, a + b) == Entries(services, a) + Entries(services, b)
  {
    if b == [] {
      assert a + b == a;
    } else {
      var n := |b| - 1;
      assert (a + b)[..|a + b| - 1] == a + b[..n] && (a + b)[|a + b| - 1] == b[n];
      EntriesConcat(services, a, b[..n]);
    }
  }

  lemma EntriesOne(services: Services, source: Source)
    ensures Entries(services, [source]) == Block(services, source)
  {
    assert [source][..0] == [];
  }

  // The library around source `i`.
  lemma EntriesAround(services: Services, sources: seq<Source>, i: nat, replacement: Source)
    requires i < |sources|
    ensures Entries(services, sources[i := replacement])
            == Entries(services, sources[..i]) + Block(services, replacement) + Entries(services, sources[i + 1..])
  {
    assert sources[i := replacement] == sources[..i] + [replacement] + sources[i + 1..];
    EntriesConcat(services, sources[..i], [replacement]);
    EntriesOne(services, replacement);
    EntriesConcat(services, sources[..i] + [replacement], sources[i + 1..]);
  }

  ghost predicate FromSources(entries: seq<Entry>, sources: seq<Source>) {
    forall e :: e in entries ==> exists i :: 0 <= i < |sources| && sources[i].id == e.1.sourceId && InNamespace(sources[i].id, e.0)
  }

  lemma {:induction false} EntriesFromSources(services: Services, sources: seq<Source>)
    requires forall i :: 0 <= i < |sources| ==> NamespaceHolds(sources[i])
    ensures FromSources(Entries(services, sources), sources)
  {
    if sources != [] {
      var n := |sources| - 1;
      EntriesFromSources(services, sources[..n]);
      forall e | e in Entries(services, sources)
        ensures exists i :: 0 <= i < |sources| && sources[i].id == e.1.sourceId && InNamespace(sources[i].id, e.0)
      {
        if e in Entries(services, sources[..n]) {
          var i :| 0 <= i < n && sources[..n][i].id == e.1.sourceId && InNamespace(sources[..n][i].id, e.0);
          assert sources[i].id == e.1.sourceId;
        } else {
          BlockFromSource(services, sources[n], e);
        }
      }
    }
  }

  lemma BlockFromSource(services: Services, source: Source, e: Entry)
    requires NamespaceHolds(source) && e in Block(services, source)
    ensures e.1.sourceId == source.id && InNamespace(source.id, e.0)
  {}

  lemma BlockDistinct(services: Services, source: Source)
    requires ParserContract(services) && Loadable(services, source) && DistinctBy(source.nodeIds, Itself)
    ensures DistinctBy(Block(services, source), IdOfEntry)
  {
    var nodes := NodesOf(services, source);
    assert DistinctBy(nodes, StableOf);
    forall i, j | 0 <= i < j < |nodes| ensures NodeIdAt(source, nodes, i) != NodeIdAt(source, nodes, j) {
      assert StableOf(nodes[i]) != StableOf(nodes[j]);
      if source.nodeIds != [] { assert Itself(source.nodeIds[i]) != Itself(source.nodeIds[j]); }
    }
  }

  lemma DistinctConcat(a: seq<Entry>, b: seq<Entry>)
    requires DistinctBy(a, IdOfEntry) && DistinctBy(b, IdOfEntry)
    requires forall i, j :: 0 <= i < |a| && 0 <= j < |b| ==> a[i].0 != b[j].0
    ensures DistinctBy(a + b, IdOfEntry)
  {}

  // Node identifiers are distinct across the whole library.
  lemma {:induction false} EntriesDistinct(services: Services, sources: seq<Source>)
    requires ParserContract(services) && AllLoadable(services, sources) && DistinctBy(sources, SourceId)
    requires forall i :: 0 <= i < |sources| ==> NamespaceHolds(sources[i]) && DistinctBy(sources[i].nodeIds, Itself)
    ensures DistinctBy(Entries(services, sources), IdOfEntry)
  {
    if sources != [] {
      var n := |sources| - 1;
      EntriesDistinct(services, sources[..n]);
      EntriesFromSources(services, sources[..n]);
      BlockDistinct(services, sources[n]);
      var a, b := Entries(services, sources[..n]), Block(services, sources[n]);
      forall i, j | 0 <= i < |a| && 0 <= j < |b| ensures a[i].0 != b[j].0 {
        assert a[i] in a && b[j] in b;
        var m :| 0 <= m < n && sources[..n][m].id == a[i].1.sourceId && InNamespace(sources[..n][m].id, a[i].0);
        BlockFromSource(services, sources[n], b[j]);
        assert SourceId(sources[m]) != SourceId(sources[n]);
      }
      DistinctConcat(a, b);
    }
  }

  // ---- Facts about the index --------------------------------------------

  lemma {:induction false} IndexOnly(entries: seq<Entry>, id: NodeId)
    requires id in Index(entries)
    ensures exists i :: 0 <= i < |entries| && entries[i].0 == id
  {
    var n := |entries| - 1;
    if id != entries[n].0 {
      IndexOnly(entries[..n], id);
      var i :| 0 <= i < n && entries[..n][i].0 == id;
      assert entries[i].0 == id;
    }
  }

  lemma {:induction false} IndexFacts(entries: seq<Entry>)
    requires DistinctBy(entries, IdOfEntry)
    ensures forall i :: 0 <= i < |entries| ==> entries[i].0 in Index(entries) && Index(entries)[entries[i].0] == entries[i].1
    ensures |Index(entries)| == |entries|
  {
    if entries != [] {
      var n := |entries| - 1;
      IndexFacts(entries[..n]);
      assert forall i :: 0 <= i < n ==> IdOfEntry(entries[i]) != IdOfEntry(entries[n]);
      assert forall i :: 0 <= i < n ==> entries[..n][i] == entries[i];
      if entries[n].0 in Index(entries[..n]) { IndexOnly(entries[..n], entries[n].0); }
    }
  }

  lemma IndexKeys(entries: seq<Entry>, id: NodeId)
    requires id in Index(entries)
    ensures id in Keys(entries)
  {
    IndexOnly(entries, id);
    var i :| 0 <= i < |entries| && entries[i].0 == id;
    assert Keys(entries)[i] == id;
  }

  lemma IndexAgrees(entries: seq<Entry>, nodes: map<NodeId, Stored>, id: NodeId)
    requires DistinctBy(entries, IdOfEntry)
    requires forall i :: 0 <= i < |entries| ==> entries[i].0 in nodes && nodes[entries[i].0] == entries[i].1
    requires id in nodes ==> exists i :: 0 <= i < |entries| && entries[i].0 == id
    ensures id in nodes <==> id in Index(entries)
    ensures id in nodes ==> nodes[id] == Index(entries)[id]
  {
    IndexFacts(entries);
    if id in Index(entries) { IndexOnly(entries, id); }
  }

  // An index is determined by its entries.
  lemma IndexUnique(entries: seq<Entry>, nodes: map<NodeId, Stored>)
    requires DistinctBy(entries, IdOfEntry)
    requires forall i :: 0 <= i < |entries| ==> entries[i].0 in nodes && nodes[entries[i].0] == entries[i].1
    requires forall id :: id in nodes ==> exists i :: 0 <= i < |entries| && entries[i].0 == id
    ensures nodes == Index(entries)
  {
    forall id
      ensures id in nodes <==> id in Index(entries)
      ensures id in nodes ==> nodes[id] == Index(entries)[id]
    {
      IndexAgrees(entries, nodes, id);
    }
  }

  lemma {:induction false} IndexConcat(a: seq<Entry>, b: seq<Entry>)
    ensures Index(a + b) == Index(a) + Index(b)
  {
    if b == [] {
      assert a + b == a;
    } else {
      var n := |b| - 1;
      assert (a + b)[..|a + b| - 1] == a + b[..n] && (a + b)[|a + b| - 1] == b[n];
      IndexConcat(a, b[..n]);
    }
  }

  lemma KeysConcat(a: seq<Entry>, b: seq<Entry>)
    ensures Keys(a + b) == Keys(a) + Keys(b)
  {}

  // ---- Dropping a source ------------------------------------------------

  function Without(entries: seq<Entry>, source: Token): seq<Entry> {
    if entries == [] then []
    else Without(entries[..|entries| - 1], source)
         + if entries[|entries| - 1].1.sourceId == source then [] else [entries[|entries| - 1]]
  }

  // `nodes.retain(|_, stored| stored.source_id != source_id)`
  function Retained(nodes: map<NodeId, Stored>, source: Token): map<NodeId, Stored> {
    map id | id in nodes && nodes[id].sourceId != source :: nodes[id]
  }

  // The order with only the identifiers still in `nodes`.
  function Kept(order: seq<NodeId>, nodes: map<NodeId, Stored>): seq<NodeId> {
    if order == [] then []
    else Kept(order[..|order| - 1], nodes) + if order[|order| - 1] in nodes then [order[|order| - 1]] else []
  }

  lemma {:induction false} WithoutMembers(entries: seq<Entry>, source: Token)
    ensures forall e :: e in Without(entries, source) <==> e in entries && e.1.sourceId != source
  {
    if entries != [] {
      var n := |entries| - 1;
      assert entries == entries[..n] + [entries[n]];
      WithoutMembers(entries[..n], source);
    }
  }

  lemma {:induction false} WithoutDistinct(entries: seq<Entry>, source: Token)
    requires DistinctBy(entries, IdOfEntry)
    ensures DistinctBy(Without(entries, source), IdOfEntry)
  {
    if entries != [] {
      var n := |entries| - 1;
      WithoutDistinct(entries[..n], source);
      WithoutMembers(entries[..n], source);
      var init := Without(entries[..n], source);
      forall i | 0 <= i < |init| ensures IdOfEntry(init[i]) != IdOfEntry(entries[n]) {
        assert init[i] in entries[..n];
        var m :| 0 <= m < n && entries[m] == init[i];
        assert IdOfEntry(entries[m]) != IdOfEntry(entries[n]);
      }
      DistinctPush(init, entries[n], IdOfEntry);
    }
  }

  lemma RetainedIsIndex(entries: seq<Entry>, source: Token)
    requires DistinctBy(entries, IdOfEntry)
    ensures Retained(Index(entries), source) == Index(Without(entries, source))
  {
    IndexFacts(entries);
    WithoutMembers(entries, source);
    WithoutDistinct(entries, source);
    var nodes, kept := Retained(Index(entries), source), Without(entries, source);
    forall i | 0 <= i < |kept| ensures kept[i].0 in nodes && nodes[kept[i].0] == kept[i].1 {
      assert kept[i] in entries;
      var m :| 0 <= m < |entries| && entries[m] == kept[i];
    }
    forall id | id in nodes ensures exists i :: 0 <= i < |kept| && kept[i].0 == id {
      IndexOnly(entries, id);
      var m :| 0 <= m < |entries| && entries[m].0 == id;
      assert entries[m] in kept;
    }
    IndexUnique(kept, nodes);
  }

  lemma {:induction false} KeptIsKeys(entries: seq<Entry>, source: Token, nodes: map<NodeId, Stored>)
    requires forall i :: 0 <= i < |entries| ==> (entries[i].0 in nodes <==> entries[i].1.sourceId != source)
    ensures Kept(Keys(entries), nodes) == Keys(Without(entries, source))
  {
    if entries != [] {
      var n := |entries| - 1;
      assert Keys(entries)[..n] == Keys(entries[..n]);
      KeptIsKeys(entries[..n], source, nodes);
      KeysConcat(Without(entries[..n], source), if entries[n].1.sourceId == source then [] else [entries[n]]);
    }
  }

  // Dropping a source from the index in place leaves the index of what remains.
  lemma DroppedIndex(entries: seq<Entry>, source: Token)
    requires DistinctBy(entries, IdOfEntry)
    ensures Retained(Index(entries), source) == Index(Without(entries, source))
    ensures Kept(Keys(entries), Retained(Index(entries), source)) == Keys(Without(entries, source))
  {
    RetainedIsIndex(entries, source);
    IndexFacts(entries);
    KeptIsKeys(entries, source, Retained(Index(entries), source));
  }

  lemma {:induction false} WithoutConcat(a: seq<Entry>, b: seq<Entry>, source: Token)
    ensures Without(a + b, source) == Without(a, source) + Without(b, source)
  {
    if b == [] {
      assert a + b == a;
    } else {
      var n := |b| - 1;
      assert (a + b)[..|a + b| - 1] == a + b[..n] && (a + b)[|a + b| - 1] == b[n];
      WithoutConcat(a, b[..n], source);
    }
  }

  ghost predicate NoneOf(entries: seq<Entry>, source: Token) {
    forall i :: 0 <= i < |entries| ==> entries[i].1.sourceId != source
  }

  ghost predicate AllOf(entries: seq<Entry>, source: Token) {
    forall i :: 0 <= i < |entries| ==> entries[i].1.sourceId == source
  }

  lemma {:induction false} WithoutNone(entries: seq<Entry>, source: Token)
    requires NoneOf(entries, source)
    ensures Without(entries, source) == entries
  {
    if entries != [] { WithoutNone(entries[..|entries| - 1], source); }
  }

  lemma {:induction false} WithoutAll(entries: seq<Entry>, source: Token)
    requires AllOf(entries, source)
    ensures Without(entries, source) == []
  {
    if entries != [] { WithoutAll(entries[..|entries| - 1], source); }
  }

  lemma NoneOfOthers(services: Services, sources: seq<Source>, source: Token)
    requires forall i :: 0 <= i < |sources| ==> NamespaceHolds(sources[i]) && sources[i].id != source
    ensures NoneOf(Entries(services, sources), source)
  {
    EntriesFromSources(services, sources);
    var entries := Entries(services, sources);
    forall k | 0 <= k < |entries| ensures entries[k].1.sourceId != source {
      assert entries[k] in entries;
    }
  }

  // ---- Replacing a source -----------------------------------------------

  // The position of the first node of the source, or the end.
  function FirstOf(order: seq<NodeId>, nodes: map<NodeId, Stored>, source: Token, i: nat): (k: nat)
    requires i <= |order|
    ensures i <= k <= |order|
    ensures forall j :: i <= j < k ==> !(order[j] in nodes && nodes[order[j]].sourceId == source)
    ensures k < |order| ==> order[k] in nodes && nodes[order[k]].sourceId == source
    decreases |order| - i
  {
    if i == |order| || (order[i] in nodes && nodes[order[i]].sourceId == source) then i
    else FirstOf(order, nodes, source, i + 1)
  }

  function Spliced(order: seq<NodeId>, at: nat, ids: seq<NodeId>): seq<NodeId> {
    if at <= |order| then order[..at] + ids + order[at..] else order + ids
  }

  function RefreshedOrder(order: seq<NodeId>, nodes: map<NodeId, Stored>, source: Token, ids: seq<NodeId>): seq<NodeId> {
    Spliced(Kept(order, Retained(nodes, source)), FirstOf(order, nodes, source, 0), ids)
  }

  // The block of a source, spliced where its first node was, lands in source order; of a source
  // without nodes (which no parsed content gives) it would land at the end.
  lemma SpliceLands(a: seq<Entry>, block: seq<Entry>, c: seq<Entry>, source: Token, ids: seq<NodeId>)
    requires DistinctBy(a + block + c, IdOfEntry) && NoneOf(a, source) && AllOf(block, source) && NoneOf(c, source)
    ensures var all := a + block + c;
            RefreshedOrder(Keys(all), Index(all), source, ids)
            == if block != [] then Keys(a) + ids + Keys(c) else Keys(a) + Keys(c) + ids
  {
    var all := a + block + c;
    DroppedIndex(all, source);
    WithoutMiddle(a, block, c, source);
    KeysConcat(a, c);
    FirstLands(a, block, c, source);
    SpliceBetween(Keys(a), Keys(c), ids);
  }

  lemma WithoutMiddle(a: seq<Entry>, block: seq<Entry>, c: seq<Entry>, source: Token)
    requires NoneOf(a, source) && AllOf(block, source) && NoneOf(c, source)
    ensures Without(a + block + c, source) == a + c
  {
    WithoutConcat(a + block, c, source);
    WithoutConcat(a, block, source);
    WithoutNone(a, source);
    WithoutAll(block, source);
    WithoutNone(c, source);
    assert a + [] == a;
  }

  lemma SpliceBetween(a: seq<NodeId>, c: seq<NodeId>, ids: seq<NodeId>)
    ensures Spliced(a + c, |a|, ids) == a + ids + c
    ensures Spliced(a + c, |a| + |c|, ids) == a + c + ids
  {
    assert (a + c)[..|a|] == a && (a + c)[|a|..] == c;
  }

  lemma FirstLands(a: seq<Entry>, block: seq<Entry>, c: seq<Entry>, source: Token)
    requires DistinctBy(a + block + c, IdOfEntry) && NoneOf(a, source) && AllOf(block, source) && NoneOf(c, source)
    ensures var all := a + block + c;
            FirstOf(Keys(all), Index(all), source, 0) == if block != [] then |a| else |a| + |c|
  {
    var all := a + block + c;
    IndexFacts(all);
    var k := FirstOf(Keys(all), Index(all), source, 0);
    if block != [] { assert Keys(all)[|a|] == all[|a|].0; }
    assert forall j :: 0 <= j < |all| ==> Keys(all)[j] == all[j].0;
  }
}
