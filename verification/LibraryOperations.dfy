// Changing the library: import, refresh, removal, reset and restart, on a value; the class of
// `ServerLibrary` does the same in place (src-tauri/src/application.rs:584-655, 938-991, 1102-1412,
// 3806-3827; src-tauri/src/subscription_store.rs:77-127, 201-230). A save either replaces the
// stored sources or fails and leaves them alone.
module LibraryOperations {
  import opened Text
  import opened SourceLibrary
  import opened RefreshIds

  const MAX_PREVIEWS := 4

  datatype Pending = Pending(report: Report, content: string, kind: Kind, url: Option<string>)

  datatype Library = Library(
    sources: seq<Source>, order: seq<NodeId>, nodes: map<NodeId, Stored>, disk: Option<seq<Source>>,
    pending: map<Token, Pending>, previewInflight: nat, active: Option<NodeId>, recovery: bool, shuttingDown: bool)

  datatype LibraryError =
    | RecoveryRequired | ActiveConflict | PreviewMissing | TokenInvalid | EmptyImport | NameInvalid | NoEntropy
    | LimitExceeded | SaveFailed | SourceMissing | NotRefreshable | UrlRequired | UrlInvalid | FetchFailed
    | ContentRejected | Incomplete | SourceChanged

  datatype Outcome<+T> = Done(value: T) | Failed(error: LibraryError)

  // What the environment answers during one operation.
  datatype Answers = Answers(entropy: bool, draw: nat -> Token, now: nat, saved: bool)

  function Timestamp(now: nat): nat { Min(now, MAX_TIME) }

  // ---- Import -----------------------------------------------------------

  function OfSameKind(sources: seq<Source>, kind: Kind): nat {
    if sources == [] then 0
    else OfSameKind(sources[..|sources| - 1], kind) + if sources[|sources| - 1].kind == kind then 1 else 0
  }

  // A given name is used when it is acceptable next to the nodes; a missing or blank one is replaced.
  function ImportName(lib: Library, pending: Pending, name: Option<string>, naming: Naming): Option<string> {
    if name.Some? && Trim(name.value) != "" then
      if naming.accepts(Trim(name.value), pending.report.nodes) then Some(Trim(name.value)) else None
    else Some(naming.default(pending.kind, OfSameKind(lib.sources, pending.kind) + 1))
  }

  datatype Naming = Naming(accepts: (string, seq<Parsed>) -> bool, default: (Kind, nat) -> string)

  // The source an import adds; `token` is its drawn identifier.
  function ImportedSource(lib: Library, naming: Naming, preview: Token, name: Option<string>, token: Token, now: nat): Source
    requires preview in lib.pending && ImportName(lib, lib.pending[preview], name, naming).Some?
  {
    var pending := lib.pending[preview];
    Source(token, ImportName(lib, pending, name, naming).value, pending.kind, pending.content, pending.url,
           Some(Timestamp(now)), 0, [])
  }

  ghost function ConfirmFault(services: Services, naming: Naming, lib: Library, preview: Token, name: Option<string>, a: Answers)
    : Option<LibraryError>
  {
    if lib.recovery then Some(RecoveryRequired)
    else if lib.active.Some? then Some(ActiveConflict)
    else if lib.pending == map[] then Some(PreviewMissing)
    else if preview !in lib.pending then Some(TokenInvalid)
    else if lib.pending[preview].report.nodes == [] then Some(EmptyImport)
    else if ImportName(lib, lib.pending[preview], name, naming).None? then Some(NameInvalid)
    else if !a.entropy then Some(NoEntropy)
    else if !ValidSources(services, lib.sources + [ImportedSource(lib, naming, preview, name, a.draw(0), a.now)])
            || |lib.nodes| + |lib.pending[preview].report.nodes| > MAX_NODES then Some(LimitExceeded)
    else if !a.saved then Some(SaveFailed)
    else None
  }

  // The library with a source and its nodes appended, saved.
  function Appended(lib: Library, source: Source, nodes: seq<Parsed>, preview: Token): Library {
    var block := PrepareNodes(source, nodes);
    lib.(sources := lib.sources + [source], order := lib.order + Keys(block), nodes := lib.nodes + Index(block),
         disk := Some(lib.sources + [source]), pending := lib.pending - {preview})
  }

  ghost function Confirm(services: Services, naming: Naming, lib: Library, preview: Token, name: Option<string>, a: Answers): Library {
    if ConfirmFault(services, naming, lib, preview, name, a).Some? then lib
    else Appended(lib, ImportedSource(lib, naming, preview, name, a.draw(0), a.now), lib.pending[preview].report.nodes, preview)
  }

  // ---- Refresh and removal ----------------------------------------------

  // Recovery, shutdown and the source of the active node forbid changes.
  function Forbidden(lib: Library, source: Token): Option<LibraryError> {
    if lib.recovery || lib.shuttingDown then Some(RecoveryRequired)
    else if lib.active.Some? && lib.active.value in lib.nodes && lib.nodes[lib.active.value].sourceId == source
      then Some(ActiveConflict)
    else None
  }

  function Position(sources: seq<Source>, id: Token): (k: nat)
    ensures k <= |sources|
    ensures k < |sources| ==> sources[k].id == id
    ensures forall j :: 0 <= j < k ==> sources[j].id != id
  {
    if sources == [] then 0
    else
      var n := |sources| - 1;
      var k := Position(sources[..n], id);
      if k < n then k else if sources[n].id == id then n else n + 1
  }

  // The snapshot a refresh works from, and the address it will fetch.
  function BeginRefresh(services: Services, lib: Library, id: Token, url: Option<string>): Outcome<(Source, string)> {
    var k := Position(lib.sources, id);
    if Forbidden(lib, id).Some? then Failed(Forbidden(lib, id).value)
    else if k == |lib.sources| then Failed(SourceMissing)
    else if lib.sources[k].kind != Subscription then Failed(NotRefreshable)
    else if url.None? && lib.sources[k].url.None? then Failed(UrlRequired)
    else
      var address := if url.Some? then url.value else lib.sources[k].url.value;
      if !services.validUrl(address) then Failed(UrlInvalid) else Done((lib.sources[k], address))
  }

  function PriorIds(lib: Library, id: Token): string -> seq<NodeId> {
    key => OldIds(lib.order, lib.nodes, id, key)
  }

  function Replacement(original: Source, content: string, url: string, now: nat, ids: seq<NodeId>): Source {
    original.(content := content, url := Some(url), updatedAt := Some(Timestamp(now)), revision := original.revision + 1,
              nodeIds := ids)
  }

  function RefreshedSource(services: Services, lib: Library, original: Source, url: string, content: string, a: Answers): Source
    requires services.parse(content).Some?
  {
    Replacement(original, content, url, a.now,
                AssignedIds(PriorIds(lib, original.id), services.parse(content).value.nodes, original.id, a.draw))
  }

  // Why a refresh is not committed. `content` was fetched with the lock released; everything
  // after the parsing is checked under the lock.
  ghost function RefreshFault(services: Services, lib: Library, original: Source, url: string, content: Option<string>, a: Answers)
    : Option<LibraryError>
  {
    if content.None? then Some(FetchFailed)
    else if services.parse(content.value).None? then Some(ContentRejected)
    else
      var report := services.parse(content.value).value;
      var k := Position(lib.sources, original.id);
      if report.nodes == [] || !report.complete then Some(Incomplete)
      else if Forbidden(lib, original.id).Some? then Forbidden(lib, original.id)
      else if k == |lib.sources| || lib.sources[k] != original then Some(SourceChanged)
      else if !a.entropy && Draws(PriorIds(lib, original.id), report.nodes) > 0 then Some(NoEntropy)
      else if original.revision >= MAX_REVISION then Some(SourceChanged)
      else if !ValidSources(services, lib.sources[k := RefreshedSource(services, lib, original, url, content.value, a)])
              || |lib.nodes| - CountOf(lib.order, lib.nodes, original.id) + |report.nodes| > MAX_NODES then Some(LimitExceeded)
      else if !a.entropy then Some(NoEntropy)
      else if !a.saved then Some(SaveFailed)
      else None
  }

  // The library with the nodes of source `k` replaced in place, saved.
  function Replaced(lib: Library, k: nat, replacement: Source, nodes: seq<Parsed>): Library
    requires k < |lib.sources|
  {
    lib.(sources := lib.sources[k := replacement],
         order := RefreshedOrder(lib.order, lib.nodes, replacement.id, replacement.nodeIds),
         nodes := Retained(lib.nodes, replacement.id) + Index(PrepareNodes(replacement, nodes)),
         disk := Some(lib.sources[k := replacement]))
  }

  ghost function Refresh(services: Services, lib: Library, original: Source, url: string, content: Option<string>, a: Answers): Library {
    if RefreshFault(services, lib, original, url, content, a).Some? then lib
    else Replaced(lib, Position(lib.sources, original.id), RefreshedSource(services, lib, original, url, content.value, a),
                  services.parse(content.value).value.nodes)
  }

  function SourcesWithout(sources: seq<Source>, id: Token): seq<Source> {
    if sources == [] then []
    else SourcesWithout(sources[..|sources| - 1], id)
         + if sources[|sources| - 1].id == id then [] else [sources[|sources| - 1]]
  }

  function RemoveFault(lib: Library, id: Token, saved: bool): Option<LibraryError> {
    if Forbidden(lib, id).Some? then Forbidden(lib, id)
    else if Position(lib.sources, id) < |lib.sources| && !saved then Some(SaveFailed)
    else None
  }

  // A source that is not there is removed already.
  function Remove(lib: Library, id: Token, saved: bool): Library {
    if RemoveFault(lib, id, saved).Some? || Position(lib.sources, id) == |lib.sources| then lib
    else
      var nodes := Retained(lib.nodes, id);
      lib.(sources := SourcesWithout(lib.sources, id), order := Kept(lib.order, nodes), nodes := nodes,
           disk := Some(SourcesWithout(lib.sources, id)))
  }

  function ResetFault(lib: Library, cleared: bool): Option<LibraryError> {
    if lib.active.Some? then Some(ActiveConflict) else if !cleared then Some(SaveFailed) else None
  }

  function Reset(lib: Library, cleared: bool): Library {
    if ResetFault(lib, cleared).Some? then lib
    else lib.(sources := [], order := [], nodes := map[], disk := None, pending := map[])
  }

  // ---- Restart ----------------------------------------------------------

  // The sources a restart accepts from the disk; an unusable store is ignored.
  ghost function RestoredSources(services: Services, disk: Option<seq<Source>>): seq<Source> {
    if disk.Some? && ValidSources(services, disk.value) && Rebuildable(services, disk.value) then disk.value else []
  }

  ghost function Restored(services: Services, disk: Option<seq<Source>>): Library {
    var entries := Entries(services, RestoredSources(services, disk));
    Library(RestoredSources(services, disk), Keys(entries), Index(entries), disk, map[], 0, None, false, false)
  }

  // The memory index is what a restart would rebuild from the disk.
  ghost predicate Consistent(services: Services, lib: Library) {
    && RestoredSources(services, lib.disk) == lib.sources
    && lib.order == Keys(Entries(services, lib.sources)) && lib.nodes == Index(Entries(services, lib.sources))
  }

  ghost predicate PendingParsed(services: Services, lib: Library) {
    forall token :: token in lib.pending ==> services.parse(lib.pending[token].content) == Some(lib.pending[token].report)
  }

  // ---- Which changes are admitted ---------------------------------------

  // The running session uses a node of the source.
  predicate InUse(lib: Library, source: Token) {
    lib.active.Some? && lib.active.value in lib.nodes && lib.nodes[lib.active.value].sourceId == source
  }

  // An import is committed exactly when nothing runs or awaits recovery, the preview is pending and
  // has nodes, its name is acceptable, the grown library is within its limits, and it can be saved.
  lemma ImportCommitsIff(services: Services, naming: Naming, lib: Library, preview: Token, name: Option<string>, a: Answers)
    ensures ConfirmFault(services, naming, lib, preview, name, a) == None <==>
            && !lib.recovery && lib.active.None? && preview in lib.pending && lib.pending[preview].report.nodes != []
            && (name.Some? && Trim(name.value) != "" ==> naming.accepts(Trim(name.value), lib.pending[preview].report.nodes))
            && ValidSources(services, lib.sources + [ImportedSource(lib, naming, preview, name, a.draw(0), a.now)])
            && |lib.nodes| + |lib.pending[preview].report.nodes| <= 2000 && a.entropy && a.saved
  {}

  // What an import records: the drawn identifier, the preview's content, kind and address, the
  // given name or a numbered default, and the time of the import.
  lemma ImportedRecord(lib: Library, naming: Naming, preview: Token, name: Option<string>, token: Token, now: nat)
    requires preview in lib.pending && ImportName(lib, lib.pending[preview], name, naming).Some?
    ensures var source, pending := ImportedSource(lib, naming, preview, name, token, now), lib.pending[preview];
            && source.id == token && source.kind == pending.kind && source.content == pending.content && source.url == pending.url
            && source.revision == 0 && source.nodeIds == []
            && source.updatedAt == Some(if now <= 8_640_000_000_000_000 then now else 8_640_000_000_000_000)
            && source.name == if name.Some? && Trim(name.value) != "" then Trim(name.value)
                              else naming.default(pending.kind, |OfKindOnly(lib.sources, pending.kind)| + 1)
  {
    CountsKind(lib.sources, lib.pending[preview].kind);
  }

  ghost function OfKindOnly(sources: seq<Source>, kind: Kind): set<nat> {
    set i | 0 <= i < |sources| && sources[i].kind == kind
  }

  lemma {:induction false} CountsKind(sources: seq<Source>, kind: Kind)
    ensures OfSameKind(sources, kind) == |OfKindOnly(sources, kind)|
  {
    if sources != [] {
      var n := |sources| - 1;
      CountsKind(sources[..n], kind);
      assert OfKindOnly(sources, kind) == OfKindOnly(sources[..n], kind) + if sources[n].kind == kind then {n} else {};
    }
  }

  // A refresh is committed exactly when the content was fetched and is complete, the source is
  // still the one the refresh began with and is not in use, the changed library is within its
  // limits, and it can be saved.
  lemma RefreshCommitsIff(services: Services, lib: Library, original: Source, url: string, content: Option<string>, a: Answers)
    ensures RefreshFault(services, lib, original, url, content, a) == None <==>
            && content.Some? && services.parse(content.value).Some?
            && services.parse(content.value).value.complete && services.parse(content.value).value.nodes != []
            && !lib.recovery && !lib.shuttingDown && !InUse(lib, original.id)
            && Position(lib.sources, original.id) < |lib.sources| && lib.sources[Position(lib.sources, original.id)] == original
            && original.revision < 0xffff_ffff_ffff_ffff
            && ValidSources(services, lib.sources[Position(lib.sources, original.id) :=
                                        RefreshedSource(services, lib, original, url, content.value, a)])
            && |lib.nodes| - CountOf(lib.order, lib.nodes, original.id) + |services.parse(content.value).value.nodes| <= 2000
            && a.entropy && a.saved
  {}

  // What a refresh records: the same source one revision up, with the fetched content, the address
  // it was fetched from, the time, and one identifier for each node.
  lemma RefreshedRecord(services: Services, lib: Library, original: Source, url: string, content: string, a: Answers)
    requires services.parse(content).Some?
    ensures var source := RefreshedSource(services, lib, original, url, content, a);
            && source.id == original.id && source.name == original.name && source.kind == original.kind
            && source.content == content && source.url == Some(url) && source.revision == original.revision + 1
            && source.updatedAt == Some(if a.now <= 8_640_000_000_000_000 then a.now else 8_640_000_000_000_000)
            && |source.nodeIds| == |services.parse(content).value.nodes|
  {}

  // ---- What the index of a consistent library looks like ----------------

  lemma ConsistentFacts(services: Services, lib: Library)
    requires ParserContract(services) && Consistent(services, lib)
    ensures ValidSources(services, lib.sources) && Rebuildable(services, lib.sources)
    ensures lib.order == Keys(Entries(services, lib.sources)) && lib.nodes == Index(Entries(services, lib.sources))
    ensures DistinctBy(Entries(services, lib.sources), IdOfEntry)
    ensures |lib.nodes| == |lib.order| == |Entries(services, lib.sources)| <= MAX_NODES
  {
    EmptyIsValid(services);
    var entries := Entries(services, lib.sources);
    EntriesDistinct(services, lib.sources);
    IndexFacts(entries);
  }

  lemma EmptyIsValid(services: Services)
    ensures ValidSources(services, []) && Rebuildable(services, []) && Entries(services, []) == []
  {}

  // Identifiers are distinct and the order lists exactly the indexed nodes.
  lemma IndexShape(services: Services, lib: Library)
    requires ParserContract(services) && Consistent(services, lib)
    ensures DistinctBy(lib.order, Itself) && (forall id :: id in lib.order <==> id in lib.nodes) && |lib.order| <= MAX_NODES
  {
    ConsistentFacts(services, lib);
    var entries := Entries(services, lib.sources);
    OrderDistinct(entries);
    IndexFacts(entries);
    forall id ensures id in lib.order <==> id in lib.nodes {
      if id in lib.nodes { IndexKeys(entries, id); }
      if id in lib.order {
        var k :| 0 <= k < |entries| && Keys(entries)[k] == id;
        assert entries[k].0 in Index(entries);
      }
    }
  }

  lemma OrderAround(services: Services, lib: Library, i: nat)
    requires ParserContract(services) && Consistent(services, lib) && i < |lib.sources|
    ensures lib.order == Keys(Entries(services, lib.sources[..i]) + Block(services, lib.sources[i])
                              + Entries(services, lib.sources[i + 1..]))
  {
    ConsistentFacts(services, lib);
    AroundSource(services, lib.sources, i);
  }

  // The nodes of a source stand together, in source order.
  lemma BlockStands(services: Services, lib: Library, i: nat)
    requires ParserContract(services) && Consistent(services, lib) && i < |lib.sources|
    ensures var before, block := |Entries(services, lib.sources[..i])|, Block(services, lib.sources[i]);
            before + |block| <= |lib.order| && lib.order[before..before + |block|] == Keys(block)
  {
    OrderAround(services, lib, i);
    KeysSlice(Entries(services, lib.sources[..i]), Block(services, lib.sources[i]), Entries(services, lib.sources[i + 1..]), lib.order);
  }

  // Each node of the block has the stored identifier, or else one made from its content, and its
  // record names its source.
  lemma BlockHolds(services: Services, lib: Library, i: nat, k: nat)
    requires ParserContract(services) && Consistent(services, lib)
    requires i < |lib.sources| && k < |NodesOf(services, lib.sources[i])|
    ensures var source, node := lib.sources[i], NodesOf(services, lib.sources[i])[k];
            var at := |Entries(services, lib.sources[..i])| + k;
            && at < |lib.order|
            && lib.order[at] == (if k < |source.nodeIds| then source.nodeIds[k]
                                 else if source.id == LEGACY then Plain(node.stable) else Owned(source.id, node.stable))
            && lib.order[at] in lib.nodes && lib.nodes[lib.order[at]] == Stored(node, source.id, source.name, source.kind)
  {
    AllDistinct(services, lib, i);
    BlockEntry(services, lib.sources[i], k);
    EntryHeld(Entries(services, lib.sources[..i]), Block(services, lib.sources[i]), Entries(services, lib.sources[i + 1..]), k);
  }

  // The library around a source, with distinct identifiers.
  lemma AllDistinct(services: Services, lib: Library, i: nat)
    requires ParserContract(services) && Consistent(services, lib) && i < |lib.sources|
    ensures var all := Entries(services, lib.sources[..i]) + Block(services, lib.sources[i]) + Entries(services, lib.sources[i + 1..]);
            DistinctBy(all, IdOfEntry) && lib.order == Keys(all) && lib.nodes == Index(all)
  {
    ConsistentFacts(services, lib);
    AroundSource(services, lib.sources, i);
  }

  lemma BlockEntry(services: Services, source: Source, k: nat)
    requires k < |NodesOf(services, source)|
    ensures k < |Block(services, source)|
    ensures var node, entry := NodesOf(services, source)[k], Block(services, source)[k];
            && entry.0 == (if k < |source.nodeIds| then source.nodeIds[k]
                           else if source.id == LEGACY then Plain(node.stable) else Owned(source.id, node.stable))
            && entry.1 == Stored(node, source.id, source.name, source.kind)
  {}

  lemma EntryHeld(a: seq<Entry>, block: seq<Entry>, c: seq<Entry>, k: nat)
    requires DistinctBy(a + block + c, IdOfEntry) && k < |block|
    ensures |a| + k < |Keys(a + block + c)| && Keys(a + block + c)[|a| + k] == block[k].0
    ensures block[k].0 in Index(a + block + c) && Index(a + block + c)[block[k].0] == block[k].1
  {
    assert (a + block + c)[|a| + k] == block[k];
    IndexedAt(a + block + c, |a| + k);
  }

  lemma KeysSlice(a: seq<Entry>, block: seq<Entry>, c: seq<Entry>, order: seq<NodeId>)
    requires order == Keys(a + block + c)
    ensures |a| + |block| <= |order| && order[|a|..|a| + |block|] == Keys(block)
  {}

  // Nowhere else is a node of that source.
  lemma BlockOwns(services: Services, lib: Library, i: nat, k: nat)
    requires ParserContract(services) && Consistent(services, lib) && i < |lib.sources| && k < |lib.order|
    ensures lib.order[k] in lib.nodes
    ensures var before := |Entries(services, lib.sources[..i])|;
            lib.nodes[lib.order[k]].sourceId == lib.sources[i].id <==> before <= k < before + |Block(services, lib.sources[i])|
  {
    ConsistentFacts(services, lib);
    AroundSource(services, lib.sources, i);
    var a, block, c := Entries(services, lib.sources[..i]), Block(services, lib.sources[i]), Entries(services, lib.sources[i + 1..]);
    BlockPlace(a, block, c, lib.sources[i].id);
    IndexedAt(a + block + c, k);
  }

  lemma IndexedAt(entries: seq<Entry>, k: nat)
    requires DistinctBy(entries, IdOfEntry) && k < |entries|
    ensures Keys(entries)[k] in Index(entries) && Index(entries)[Keys(entries)[k]] == entries[k].1
  {
    IndexFacts(entries);
  }

  lemma OrderDistinct(entries: seq<Entry>)
    requires DistinctBy(entries, IdOfEntry)
    ensures DistinctBy(Keys(entries), Itself)
  {
    forall i, j | 0 <= i < j < |entries| ensures Itself(Keys(entries)[i]) != Itself(Keys(entries)[j]) {
      assert IdOfEntry(entries[i]) != IdOfEntry(entries[j]);
    }
  }

  lemma BlockPlace(a: seq<Entry>, block: seq<Entry>, c: seq<Entry>, source: Token)
    requires NoneOf(a, source) && AllOf(block, source) && NoneOf(c, source)
    ensures forall k :: 0 <= k < |a + block + c| ==>
              ((a + block + c)[k].1.sourceId == source <==> |a| <= k < |a| + |block|)
  {}

  // The entries before, of and after source `i`.
  lemma AroundSource(services: Services, sources: seq<Source>, i: nat)
    requires i < |sources| && DistinctBy(sources, SourceId) && forall j :: 0 <= j < |sources| ==> NamespaceHolds(sources[j])
    ensures var a, block, c := Entries(services, sources[..i]), Block(services, sources[i]), Entries(services, sources[i + 1..]);
            && Entries(services, sources) == a + block + c
            && NoneOf(a, sources[i].id) && AllOf(block, sources[i].id) && NoneOf(c, sources[i].id)
  {
    EntriesAround(services, sources, i, sources[i]);
    assert sources[i := sources[i]] == sources;
    forall j | 0 <= j < |sources| && j != i ensures sources[j].id != sources[i].id {
      assert SourceId(sources[j]) != SourceId(sources[i]);
    }
    NoneOfOthers(services, sources[..i], sources[i].id);
    NoneOfOthers(services, sources[i + 1..], sources[i].id);
    forall k | 0 <= k < |Block(services, sources[i])| ensures Block(services, sources[i])[k].1.sourceId == sources[i].id {
      BlockFromSource(services, sources[i], Block(services, sources[i])[k]);
    }
  }

  // ---- Every operation keeps the index ----------------------------------

  lemma RestartKeeps(services: Services, lib: Library)
    requires Consistent(services, lib)
    ensures Consistent(services, Restored(services, lib.disk)) && PendingParsed(services, Restored(services, lib.disk))
    ensures var after := Restored(services, lib.disk);
            after.sources == lib.sources && after.order == lib.order && after.nodes == lib.nodes && after.disk == lib.disk
  {}

  lemma SavedIsConsistent(services: Services, lib: Library)
    requires lib.disk == Some(lib.sources) && ValidSources(services, lib.sources) && Rebuildable(services, lib.sources)
    requires lib.order == Keys(Entries(services, lib.sources)) && lib.nodes == Index(Entries(services, lib.sources))
    ensures Consistent(services, lib)
  {}

  lemma AppendedSource(services: Services, sources: seq<Source>, source: Source, nodes: seq<Parsed>)
    requires Rebuildable(services, sources) && source.nodeIds == []
    requires services.parse(source.content).Some? && services.parse(source.content).value.nodes == nodes
    requires |Entries(services, sources)| + |nodes| <= MAX_NODES
    ensures Rebuildable(services, sources + [source])
    ensures Entries(services, sources + [source]) == Entries(services, sources) + PrepareNodes(source, nodes)
  {
    EntriesConcat(services, sources, [source]);
    EntriesOne(services, source);
  }

  // A source appended in memory and on disk keeps the index.
  lemma AppendKeeps(services: Services, lib: Library, source: Source, nodes: seq<Parsed>, preview: Token)
    requires ParserContract(services) && Consistent(services, lib) && source.nodeIds == []
    requires services.parse(source.content).Some? && services.parse(source.content).value.nodes == nodes
    requires ValidSources(services, lib.sources + [source]) && |lib.nodes| + |nodes| <= MAX_NODES
    ensures Consistent(services, Appended(lib, source, nodes, preview))
  {
    ConsistentFacts(services, lib);
    AppendedSource(services, lib.sources, source, nodes);
    KeysConcat(Entries(services, lib.sources), PrepareNodes(source, nodes));
    IndexConcat(Entries(services, lib.sources), PrepareNodes(source, nodes));
    SavedIsConsistent(services, Appended(lib, source, nodes, preview));
  }

  lemma ConfirmKeeps(services: Services, naming: Naming, lib: Library, preview: Token, name: Option<string>, a: Answers)
    requires ParserContract(services) && Consistent(services, lib) && PendingParsed(services, lib)
    ensures Consistent(services, Confirm(services, naming, lib, preview, name, a))
  {
    if ConfirmFault(services, naming, lib, preview, name, a) == None {
      AppendKeeps(services, lib, ImportedSource(lib, naming, preview, name, a.draw(0), a.now),
                  lib.pending[preview].report.nodes, preview);
    }
  }

  // The previews left after an import are still parsed content.
  lemma ConfirmKeepsPending(services: Services, naming: Naming, lib: Library, preview: Token, name: Option<string>, a: Answers)
    requires PendingParsed(services, lib)
    ensures PendingParsed(services, Confirm(services, naming, lib, preview, name, a))
  {}

  lemma {:induction false} WithoutAbsent(sources: seq<Source>, id: Token)
    requires forall i :: 0 <= i < |sources| ==> sources[i].id != id
    ensures SourcesWithout(sources, id) == sources
  {
    if sources != [] { WithoutAbsent(sources[..|sources| - 1], id); }
  }

  lemma {:induction false} WithoutSplit(a: seq<Source>, b: seq<Source>, id: Token)
    ensures SourcesWithout(a + b, id) == SourcesWithout(a, id) + SourcesWithout(b, id)
  {
    if b == [] {
      assert a + b == a;
    } else {
      var n := |b| - 1;
      assert (a + b)[..|a + b| - 1] == a + b[..n] && (a + b)[|a + b| - 1] == b[n];
      WithoutSplit(a, b[..n], id);
    }
  }

  lemma Around<T>(s: seq<T>, k: nat)
    requires k < |s|
    ensures s[..k] + ([s[k]] + s[k + 1..]) == s
  {}

  lemma OthersDiffer(sources: seq<Source>, k: nat)
    requires k < |sources| && DistinctBy(sources, SourceId)
    ensures forall j :: 0 <= j < |sources| && j != k ==> sources[j].id != sources[k].id
  {
    forall j | 0 <= j < |sources| && j != k ensures sources[j].id != sources[k].id {
      assert SourceId(sources[j]) != SourceId(sources[k]);
    }
  }

  // Removing the source at position `k` leaves the others in order.
  lemma WithoutOne(sources: seq<Source>, k: nat)
    requires k < |sources| && DistinctBy(sources, SourceId)
    ensures SourcesWithout(sources, sources[k].id) == sources[..k] + sources[k + 1..]
  {
    OthersDiffer(sources, k);
    WithoutAbsent(sources[..k], sources[k].id);
    WithoutAbsent(sources[k + 1..], sources[k].id);
    WithoutMid(sources[..k], sources[k], sources[k + 1..]);
    Around(sources, k);
  }

  lemma WithoutMid(a: seq<Source>, source: Source, c: seq<Source>)
    ensures SourcesWithout(a + ([source] + c), source.id) == SourcesWithout(a, source.id) + SourcesWithout(c, source.id)
  {
    WithoutSplit(a, [source] + c, source.id);
    WithoutSplit([source], c, source.id);
    assert [source][..0] == [] && SourcesWithout([source], source.id) == [];
    assert [] + SourcesWithout(c, source.id) == SourcesWithout(c, source.id);
  }

  lemma {:induction false} TotalBytesConcat(a: seq<Source>, b: seq<Source>)
    ensures TotalBytes(a + b) == TotalBytes(a) + TotalBytes(b)
  {
    if b == [] {
      assert a + b == a;
    } else {
      var n := |b| - 1;
      assert (a + b)[..|a + b| - 1] == a + b[..n] && (a + b)[|a + b| - 1] == b[n];
      TotalBytesConcat(a, b[..n]);
    }
  }

  lemma FewerIsValid(services: Services, sources: seq<Source>, k: nat)
    requires ValidSources(services, sources) && k < |sources|
    ensures ValidSources(services, sources[..k] + sources[k + 1..])
  {
    var rest := sources[..k] + sources[k + 1..];
    FewerBytes(sources, k);
    FewerDistinct(sources, k);
    forall i | 0 <= i < |rest| ensures ValidSource(services, rest[i]) {
      assert rest[i] == sources[if i < k then i else i + 1];
    }
  }

  lemma BytesAround(a: seq<Source>, b: seq<Source>, c: seq<Source>)
    ensures TotalBytes(a + c) <= TotalBytes(a + (b + c))
  {
    TotalBytesConcat(a, b + c);
    TotalBytesConcat(b, c);
    TotalBytesConcat(a, c);
  }

  lemma FewerBytes(sources: seq<Source>, k: nat)
    requires k < |sources|
    ensures TotalBytes(sources[..k] + sources[k + 1..]) <= TotalBytes(sources)
  {
    Around(sources, k);
    BytesAround(sources[..k], [sources[k]], sources[k + 1..]);
  }

  lemma FewerDistinct(sources: seq<Source>, k: nat)
    requires DistinctBy(sources, SourceId) && k < |sources|
    ensures DistinctBy(sources[..k] + sources[k + 1..], SourceId)
  {
    var rest := sources[..k] + sources[k + 1..];
    forall i, j | 0 <= i < j < |rest| ensures SourceId(rest[i]) != SourceId(rest[j]) {
      var p, q := if i < k then i else i + 1, if j < k then j else j + 1;
      assert rest[i] == sources[p] && rest[j] == sources[q];
    }
  }

  lemma FewerRebuildable(services: Services, sources: seq<Source>, k: nat)
    requires Rebuildable(services, sources) && k < |sources|
    ensures Rebuildable(services, sources[..k] + sources[k + 1..])
    ensures Entries(services, sources[..k] + sources[k + 1..]) == Entries(services, sources[..k]) + Entries(services, sources[k + 1..])
  {
    var rest := sources[..k] + sources[k + 1..];
    EntriesConcat(services, sources[..k], sources[k + 1..]);
    EntriesAround(services, sources, k, sources[k]);
    assert sources[k := sources[k]] == sources;
    forall i | 0 <= i < |rest| ensures Loadable(services, rest[i]) {
      assert rest[i] == sources[if i < k then i else i + 1];
    }
  }

  lemma RemovedIsConsistent(services: Services, lib: Library, after: Library, k: nat)
    requires ParserContract(services) && Consistent(services, lib) && k < |lib.sources|
    requires after.sources == SourcesWithout(lib.sources, lib.sources[k].id) && after.disk == Some(after.sources)
    requires after.nodes == Retained(lib.nodes, lib.sources[k].id) && after.order == Kept(lib.order, after.nodes)
    ensures Consistent(services, after)
    ensures after.sources == lib.sources[..k] + lib.sources[k + 1..]
  {
    ConsistentFacts(services, lib);
    RemovedIndex(services, lib.sources, k);
    WithoutOne(lib.sources, k);
    FewerIsValid(services, lib.sources, k);
    FewerRebuildable(services, lib.sources, k);
    SavedIsConsistent(services, after);
  }

  lemma RemoveKeeps(services: Services, lib: Library, id: Token, saved: bool)
    requires ParserContract(services) && Consistent(services, lib)
    ensures Consistent(services, Remove(lib, id, saved))
  {
    var k := Position(lib.sources, id);
    if RemoveFault(lib, id, saved) == None && k < |lib.sources| {
      RemovedIsConsistent(services, lib, Remove(lib, id, saved), k);
    }
  }

  lemma RemoveDrops(lib: Library, id: Token, saved: bool)
    requires RemoveFault(lib, id, saved) == None
    ensures forall source :: source in Remove(lib, id, saved).sources <==> source in lib.sources && source.id != id
  {
    WithoutMembersOf(lib.sources, id);
  }

  lemma {:induction false} WithoutMembersOf(sources: seq<Source>, id: Token)
    ensures forall source :: source in SourcesWithout(sources, id) <==> source in sources && source.id != id
  {
    if sources != [] {
      var n := |sources| - 1;
      assert sources == sources[..n] + [sources[n]];
      WithoutMembersOf(sources[..n], id);
    }
  }

  lemma DistinctSources(services: Services, lib: Library)
    requires ParserContract(services) && Consistent(services, lib)
    ensures DistinctBy(lib.sources, SourceId)
  {
    ConsistentFacts(services, lib);
  }

  // After a removal no node of the source is left.
  lemma RemovedNodesAreGone(services: Services, lib: Library, id: Token, saved: bool)
    requires ParserContract(services) && Consistent(services, lib) && RemoveFault(lib, id, saved) == None
    ensures forall n :: n in Remove(lib, id, saved).nodes ==> Remove(lib, id, saved).nodes[n].sourceId != id
  {
    RemoveKeeps(services, lib, id, saved);
    RemoveDrops(lib, id, saved);
    assert forall i :: 0 <= i < |Remove(lib, id, saved).sources| ==> Remove(lib, id, saved).sources[i] in Remove(lib, id, saved).sources;
    AbsentFromIndex(services, Remove(lib, id, saved), id);
  }

  lemma AbsentFromIndex(services: Services, lib: Library, id: Token)
    requires ParserContract(services) && Consistent(services, lib)
    requires forall i :: 0 <= i < |lib.sources| ==> lib.sources[i].id != id
    ensures forall n :: n in lib.nodes ==> lib.nodes[n].sourceId != id
  {
    ConsistentFacts(services, lib);
    var entries := Entries(services, lib.sources);
    NoneOfOthers(services, lib.sources, id);
    IndexFacts(entries);
    forall n | n in lib.nodes ensures lib.nodes[n].sourceId != id { IndexOnly(entries, n); }
  }

  lemma RemovedIndex(services: Services, sources: seq<Source>, k: nat)
    requires ParserContract(services) && ValidSources(services, sources) && Rebuildable(services, sources) && k < |sources|
    ensures var entries, rest := Entries(services, sources), Entries(services, sources[..k]) + Entries(services, sources[k + 1..]);
            && Retained(Index(entries), sources[k].id) == Index(rest)
            && Kept(Keys(entries), Retained(Index(entries), sources[k].id)) == Keys(rest)
  {
    EntriesDistinct(services, sources);
    AroundSource(services, sources, k);
    DroppedIndex(Entries(services, sources), sources[k].id);
    WithoutMiddle(Entries(services, sources[..k]), Block(services, sources[k]), Entries(services, sources[k + 1..]), sources[k].id);
  }

  lemma ResetKeeps(services: Services, lib: Library, cleared: bool)
    requires Consistent(services, lib) && PendingParsed(services, lib)
    ensures Consistent(services, Reset(lib, cleared)) && PendingParsed(services, Reset(lib, cleared))
  {
    EmptyIsValid(services);
  }

  // ---- Refresh ----------------------------------------------------------

  lemma {:induction false} CountOfConcat(a: seq<NodeId>, b: seq<NodeId>, nodes: map<NodeId, Stored>, source: Token)
    ensures CountOf(a + b, nodes, source) == CountOf(a, nodes, source) + CountOf(b, nodes, source)
  {
    if b == [] {
      assert a + b == a;
    } else {
      var n := |b| - 1;
      assert (a + b)[..|a + b| - 1] == a + b[..n] && (a + b)[|a + b| - 1] == b[n];
      CountOfConcat(a, b[..n], nodes, source);
    }
  }

  lemma {:induction false} CountOfEntries(entries: seq<Entry>, nodes: map<NodeId, Stored>, source: Token, all: bool)
    requires Indexed(entries, nodes)
    requires if all then AllOf(entries, source) else NoneOf(entries, source)
    ensures CountOf(Keys(entries), nodes, source) == if all then |entries| else 0
  {
    if entries != [] {
      var n := |entries| - 1;
      assert Keys(entries)[..n] == Keys(entries[..n]);
      CountOfEntries(entries[..n], nodes, source, all);
    }
  }

  ghost predicate Indexed(entries: seq<Entry>, nodes: map<NodeId, Stored>) {
    forall i :: 0 <= i < |entries| ==> entries[i].0 in nodes && nodes[entries[i].0] == entries[i].1
  }

  lemma PartIndexed(a: seq<Entry>, b: seq<Entry>, nodes: map<NodeId, Stored>)
    requires Indexed(a + b, nodes)
    ensures Indexed(a, nodes) && Indexed(b, nodes)
  {
    assert forall i :: 0 <= i < |a| ==> a[i] == (a + b)[i];
    assert forall i :: 0 <= i < |b| ==> b[i] == (a + b)[|a| + i];
  }

  lemma CountOfBlock(a: seq<Entry>, block: seq<Entry>, c: seq<Entry>, source: Token)
    requires NoneOf(a, source) && AllOf(block, source) && NoneOf(c, source) && DistinctBy(a + block + c, IdOfEntry)
    ensures CountOf(Keys(a + block + c), Index(a + block + c), source) == |block|
  {
    var nodes := Index(a + block + c);
    IndexFacts(a + block + c);
    PartIndexed(a + block, c, nodes);
    PartIndexed(a, block, nodes);
    CountOfParts(a, block, c, nodes, source);
  }

  lemma CountOfParts(a: seq<Entry>, block: seq<Entry>, c: seq<Entry>, nodes: map<NodeId, Stored>, source: Token)
    requires NoneOf(a, source) && AllOf(block, source) && NoneOf(c, source)
    requires Indexed(a, nodes) && Indexed(block, nodes) && Indexed(c, nodes)
    ensures CountOf(Keys(a + block + c), nodes, source) == |block|
  {
    CountOfEntries(a, nodes, source, false);
    CountOfEntries(block, nodes, source, true);
    CountOfEntries(c, nodes, source, false);
    KeysConcat(a + block, c);
    KeysConcat(a, block);
    CountOfConcat(Keys(a) + Keys(block), Keys(c), nodes, source);
    CountOfConcat(Keys(a), Keys(block), nodes, source);
  }

  // A source and what replaces it: same identifier, one identifier for each parsed node.
  ghost predicate Replaces(services: Services, lib: Library, k: nat, replacement: Source, nodes: seq<Parsed>) {
    && k < |lib.sources| && replacement.id == lib.sources[k].id
    && services.parse(replacement.content).Some? && services.parse(replacement.content).value.nodes == nodes && nodes != []
    && |replacement.nodeIds| == |nodes| && ValidSources(services, lib.sources[k := replacement])
    && |lib.nodes| - CountOf(lib.order, lib.nodes, lib.sources[k].id) + |nodes| <= MAX_NODES
  }

  lemma RefreshReplaces(services: Services, lib: Library, original: Source, url: string, content: Option<string>, a: Answers)
    requires RefreshFault(services, lib, original, url, content, a) == None
    ensures content.Some? && services.parse(content.value).Some? && Position(lib.sources, original.id) < |lib.sources|
    ensures lib.sources[Position(lib.sources, original.id)] == original
    ensures Replaces(services, lib, Position(lib.sources, original.id),
                     RefreshedSource(services, lib, original, url, content.value, a), services.parse(content.value).value.nodes)
  {}

  // The nodes map after a refresh, whatever the order became.
  lemma RefreshedNodes(services: Services, sources: seq<Source>, k: nat, replacement: Source)
    requires ParserContract(services) && ValidSources(services, sources) && Rebuildable(services, sources) && k < |sources|
    requires replacement.id == sources[k].id
    requires ValidSources(services, sources[k := replacement]) && AllLoadable(services, sources[k := replacement])
    ensures Retained(Index(Entries(services, sources)), replacement.id) + Index(Block(services, replacement))
            == Index(Entries(services, sources[k := replacement]))
  {
    var a, block, c := Entries(services, sources[..k]), Block(services, replacement), Entries(services, sources[k + 1..]);
    RemovedIndex(services, sources, k);
    EntriesAround(services, sources, k, replacement);
    EntriesDistinct(services, sources[k := replacement]);
    IndexConcat(a + c, block);
    IndexReordered(a, block, c);
  }

  lemma IndexReordered(a: seq<Entry>, block: seq<Entry>, c: seq<Entry>)
    requires DistinctBy(a + block + c, IdOfEntry)
    ensures Index(a + c + block) == Index(a + block + c)
  {
    var one, two := a + block + c, a + c + block;
    ReorderedDistinct(a, block, c);
    IndexFacts(two);
    forall i | 0 <= i < |one| ensures one[i].0 in Index(two) && Index(two)[one[i].0] == one[i].1 {
      assert one[i] == two[Moved(|a|, |block|, |c|, i)];
    }
    forall id | id in Index(two) ensures exists i :: 0 <= i < |one| && one[i].0 == id {
      IndexOnly(two, id);
      var m :| 0 <= m < |two| && two[m].0 == id;
      assert two[m] == one[Moved(|a|, |c|, |block|, m)];
    }
    IndexUnique(one, Index(two));
  }

  // Where position `i` of a + b + c goes in a + c + b.
  function Moved(a: nat, b: nat, c: nat, i: nat): (k: nat)
    requires i < a + b + c
    ensures k < a + b + c
  {
    if i < a then i else if i < a + b then i + c else i - b
  }

  lemma ReorderedDistinct(a: seq<Entry>, block: seq<Entry>, c: seq<Entry>)
    requires DistinctBy(a + block + c, IdOfEntry)
    ensures DistinctBy(a + c + block, IdOfEntry)
  {
    var one, two := a + block + c, a + c + block;
    forall i, j | 0 <= i < j < |two| ensures IdOfEntry(two[i]) != IdOfEntry(two[j]) {
      var p, q := Moved(|a|, |c|, |block|, i), Moved(|a|, |c|, |block|, j);
      assert two[i] == one[p] && two[j] == one[q] && p != q;
      assert IdOfEntry(one[if p < q then p else q]) != IdOfEntry(one[if p < q then q else p]);
    }
  }

  lemma KeysOfReplacement(services: Services, replacement: Source, nodes: seq<Parsed>)
    requires |replacement.nodeIds| == |nodes|
    ensures Keys(PrepareNodes(replacement, nodes)) == replacement.nodeIds
  {}

  lemma ReplacedLoadable(services: Services, sources: seq<Source>, k: nat, replacement: Source)
    requires AllLoadable(services, sources) && k < |sources| && Loadable(services, replacement)
    ensures AllLoadable(services, sources[k := replacement])
  {}

  lemma ReplacedSize(services: Services, sources: seq<Source>, k: nat, replacement: Source)
    requires k < |sources|
    ensures |Entries(services, sources[k := replacement])|
            == |Entries(services, sources)| - |Block(services, sources[k])| + |Block(services, replacement)|
  {
    EntriesAround(services, sources, k, replacement);
    EntriesAround(services, sources, k, sources[k]);
    assert sources[k := sources[k]] == sources;
  }

  lemma ReplacedRebuildable(services: Services, lib: Library, k: nat, replacement: Source, nodes: seq<Parsed>)
    requires ParserContract(services) && Consistent(services, lib) && Replaces(services, lib, k, replacement, nodes)
    ensures Rebuildable(services, lib.sources[k := replacement])
  {
    ConsistentFacts(services, lib);
    AroundSource(services, lib.sources, k);
    CountOfBlock(Entries(services, lib.sources[..k]), Block(services, lib.sources[k]), Entries(services, lib.sources[k + 1..]),
                 lib.sources[k].id);
    ReplacedLoadable(services, lib.sources, k, replacement);
    ReplacedSize(services, lib.sources, k, replacement);
  }

  // A source of a consistent library was parsed, so it has nodes.
  lemma SourcesHaveNodes(services: Services, lib: Library, k: nat)
    requires ParserContract(services) && Consistent(services, lib) && k < |lib.sources|
    ensures Block(services, lib.sources[k]) != []
  {
    ConsistentFacts(services, lib);
    assert Loadable(services, lib.sources[k]);
  }

  // The order a refresh leaves is the rebuilt one.
  lemma RefreshedOrderIsRebuilt(services: Services, lib: Library, k: nat, replacement: Source, nodes: seq<Parsed>)
    requires ParserContract(services) && Consistent(services, lib) && Replaces(services, lib, k, replacement, nodes)
    ensures RefreshedOrder(lib.order, lib.nodes, replacement.id, replacement.nodeIds)
            == Keys(Entries(services, lib.sources[k := replacement]))
  {
    ConsistentFacts(services, lib);
    SourcesHaveNodes(services, lib, k);
    AroundSource(services, lib.sources, k);
    EntriesAround(services, lib.sources, k, replacement);
    KeysOfReplacement(services, replacement, nodes);
    PlacedInOrder(Entries(services, lib.sources[..k]), Block(services, lib.sources[k]), Block(services, replacement),
                  Entries(services, lib.sources[k + 1..]), replacement.id, replacement.nodeIds);
  }

  lemma PlacedInOrder(a: seq<Entry>, block: seq<Entry>, added: seq<Entry>, c: seq<Entry>, source: Token, ids: seq<NodeId>)
    requires NoneOf(a, source) && AllOf(block, source) && NoneOf(c, source) && DistinctBy(a + block + c, IdOfEntry)
    requires block != [] && ids == Keys(added)
    ensures RefreshedOrder(Keys(a + block + c), Index(a + block + c), source, ids) == Keys(a + added + c)
  {
    KeysConcat(a + added, c);
    KeysConcat(a, added);
    SpliceLands(a, block, c, source, ids);
  }

  // Replacing a source keeps the index.
  lemma ReplacedKeeps(services: Services, lib: Library, k: nat, replacement: Source, nodes: seq<Parsed>)
    requires ParserContract(services) && Consistent(services, lib) && Replaces(services, lib, k, replacement, nodes)
    ensures Consistent(services, Replaced(lib, k, replacement, nodes))
  {
    ReplacedRebuildable(services, lib, k, replacement, nodes);
    RefreshedOrderIsRebuilt(services, lib, k, replacement, nodes);
    ConsistentFacts(services, lib);
    RefreshedNodes(services, lib.sources, k, replacement);
    SavedIsConsistent(services, Replaced(lib, k, replacement, nodes));
  }

  lemma RefreshIsReplacement(services: Services, lib: Library, original: Source, url: string, content: Option<string>, a: Answers)
    requires content.Some? && services.parse(content.value).Some? && Position(lib.sources, original.id) < |lib.sources|
    ensures Refresh(services, lib, original, url, content, a)
            == if RefreshFault(services, lib, original, url, content, a).Some? then lib
               else Replaced(lib, Position(lib.sources, original.id), RefreshedSource(services, lib, original, url, content.value, a),
                             services.parse(content.value).value.nodes)
  {}

  lemma RefreshKeeps(services: Services, lib: Library, original: Source, url: string, content: Option<string>, a: Answers)
    requires ParserContract(services) && Consistent(services, lib)
    ensures Consistent(services, Refresh(services, lib, original, url, content, a))
  {
    if RefreshFault(services, lib, original, url, content, a) == None {
      RefreshReplaces(services, lib, original, url, content, a);
      RefreshIsReplacement(services, lib, original, url, content, a);
      ReplacedKeeps(services, lib, Position(lib.sources, original.id),
                    RefreshedSource(services, lib, original, url, content.value, a), services.parse(content.value).value.nodes);
    }
  }

  lemma {:induction false} KeptConcat(a: seq<NodeId>, b: seq<NodeId>, nodes: map<NodeId, Stored>)
    ensures Kept(a + b, nodes) == Kept(a, nodes) + Kept(b, nodes)
  {
    if b == [] {
      assert a + b == a;
    } else {
      var n := |b| - 1;
      assert (a + b)[..|a + b| - 1] == a + b[..n] && (a + b)[|a + b| - 1] == b[n];
      KeptConcat(a, b[..n], nodes);
    }
  }

  lemma {:induction false} KeptAll(ids: seq<NodeId>, nodes: map<NodeId, Stored>)
    requires forall i :: 0 <= i < |ids| ==> ids[i] in nodes
    ensures Kept(ids, nodes) == ids
  {
    if ids != [] { KeptAll(ids[..|ids| - 1], nodes); }
  }

  lemma {:induction false} KeptNone(ids: seq<NodeId>, nodes: map<NodeId, Stored>)
    requires forall i :: 0 <= i < |ids| ==> ids[i] !in nodes
    ensures Kept(ids, nodes) == []
  {
    if ids != [] { KeptNone(ids[..|ids| - 1], nodes); }
  }

  lemma {:induction false} KeptPresent(order: seq<NodeId>, nodes: map<NodeId, Stored>)
    ensures forall i :: 0 <= i < |Kept(order, nodes)| ==> Kept(order, nodes)[i] in nodes
  {
    if order != [] { KeptPresent(order[..|order| - 1], nodes); }
  }

  lemma KeptSpliced(order: seq<NodeId>, nodes: map<NodeId, Stored>, at: nat, ids: seq<NodeId>)
    requires forall i :: 0 <= i < |ids| ==> ids[i] !in nodes
    ensures Kept(Spliced(Kept(order, nodes), at, ids), nodes) == Kept(order, nodes)
  {
    var kept := Kept(order, nodes);
    KeptPresent(order, nodes);
    if at <= |kept| {
      KeptPieces(kept[..at], ids, kept[at..], nodes);
      assert kept[..at] + kept[at..] == kept;
    } else {
      KeptPieces(kept, ids, [], nodes);
      assert kept + ids + [] == kept + ids && kept + [] == kept;
    }
  }

  lemma KeptPieces(a: seq<NodeId>, ids: seq<NodeId>, b: seq<NodeId>, nodes: map<NodeId, Stored>)
    requires forall i :: 0 <= i < |ids| ==> ids[i] !in nodes
    requires (forall i :: 0 <= i < |a| ==> a[i] in nodes) && forall i :: 0 <= i < |b| ==> b[i] in nodes
    ensures Kept(a + ids + b, nodes) == a + b
  {
    KeptAll(a, nodes);
    KeptAll(b, nodes);
    KeptNone(ids, nodes);
    KeptConcat(a + ids, b, nodes);
    KeptConcat(a, ids, nodes);
    assert a + [] == a;
  }

  // The other sources' nodes stay as they were and in the same relative order.
  lemma RefreshLeavesOthers(services: Services, lib: Library, original: Source, url: string, content: Option<string>, a: Answers)
    requires ParserContract(services) && Consistent(services, lib)
    requires RefreshFault(services, lib, original, url, content, a) == None
    ensures var after := Refresh(services, lib, original, url, content, a);
            && Retained(after.nodes, original.id) == Retained(lib.nodes, original.id)
            && Kept(after.order, Retained(after.nodes, original.id)) == Kept(lib.order, Retained(lib.nodes, original.id))
  {
    RefreshReplaces(services, lib, original, url, content, a);
    ReplacedOthers(services, lib, Position(lib.sources, original.id),
                   RefreshedSource(services, lib, original, url, content.value, a), services.parse(content.value).value.nodes);
  }

  lemma ReplacedOthers(services: Services, lib: Library, k: nat, replacement: Source, nodes: seq<Parsed>)
    requires ParserContract(services) && Consistent(services, lib) && Replaces(services, lib, k, replacement, nodes)
    ensures var after := Replaced(lib, k, replacement, nodes);
            && Retained(after.nodes, replacement.id) == Retained(lib.nodes, replacement.id)
            && Kept(after.order, Retained(after.nodes, replacement.id)) == Kept(lib.order, Retained(lib.nodes, replacement.id))
  {
    ReplacedRebuildable(services, lib, k, replacement, nodes);
    ConsistentFacts(services, lib);
    RefreshedNodes(services, lib.sources, k, replacement);
    var sources := lib.sources[k := replacement];
    RemovedIndex(services, lib.sources, k);
    RemovedIndex(services, sources, k);
    assert sources[..k] == lib.sources[..k] && sources[k + 1..] == lib.sources[k + 1..];
    KeysOfReplacement(services, replacement, nodes);
    NewIdsAreOther(services, sources, k);
    KeptSpliced(lib.order, Retained(lib.nodes, replacement.id), FirstOf(lib.order, lib.nodes, replacement.id, 0), replacement.nodeIds);
  }

  lemma MiddleDiffers(a: seq<Entry>, block: seq<Entry>, c: seq<Entry>)
    requires DistinctBy(a + block + c, IdOfEntry)
    ensures forall i, m :: 0 <= i < |block| && 0 <= m < |a + c| ==> (a + c)[m].0 != block[i].0
  {
    var all := a + block + c;
    forall i, m | 0 <= i < |block| && 0 <= m < |a + c| ensures (a + c)[m].0 != block[i].0 {
      var p, q := if m < |a| then m else m + |block|, |a| + i;
      assert all[p] == (a + c)[m] && all[q] == block[i];
      assert IdOfEntry(all[if p < q then p else q]) != IdOfEntry(all[if p < q then q else p]);
    }
  }

  lemma NewIdsAreOther(services: Services, sources: seq<Source>, k: nat)
    requires ParserContract(services) && ValidSources(services, sources) && Rebuildable(services, sources) && k < |sources|
    ensures var rest := Index(Entries(services, sources[..k]) + Entries(services, sources[k + 1..]));
            forall i :: 0 <= i < |Block(services, sources[k])| ==> Keys(Block(services, sources[k]))[i] !in rest
  {
    EntriesDistinct(services, sources);
    AroundSource(services, sources, k);
    var a, block, c := Entries(services, sources[..k]), Block(services, sources[k]), Entries(services, sources[k + 1..]);
    MiddleDiffers(a, block, c);
    forall i | 0 <= i < |block| ensures Keys(block)[i] !in Index(a + c) {
      if block[i].0 in Index(a + c) {
        IndexOnly(a + c, block[i].0);
        assert false;
      }
    }
  }

  // ---- Identity across a committed refresh ------------------------------

  // The draws are new to the library.
  ghost predicate NewDraws(lib: Library, id: Token, draw: nat -> Token) {
    forall d: nat :: Owned(id, draw(d)) !in lib.nodes
  }

  // A committed refresh puts the new nodes of the source in content order; under every update
  // key the first min(old, new) keep the old identifiers in order, the others are new to the
  // library, and all are distinct.
  lemma CommittedIdentity(services: Services, lib: Library, original: Source, url: string, content: Option<string>, a: Answers, key: string)
    requires RefreshFault(services, lib, original, url, content, a) == None && NewDraws(lib, original.id, a.draw)
    ensures var nodes, prior := services.parse(content.value).value.nodes, PriorIds(lib, original.id);
            var ids := RefreshedSource(services, lib, original, url, content.value, a).nodeIds;
            && |ids| == |nodes| && DistinctBy(ids, Itself)
            && var same := IdsFor(ids, nodes, key);
               var kept := Min(|prior(key)|, |same|);
               && same[..kept] == prior(key)[..kept]
               && forall c :: kept <= c < |same| ==> same[c] !in lib.nodes
  {
    RefreshReplaces(services, lib, original, url, content, a);
    var nodes, prior := services.parse(content.value).value.nodes, PriorIds(lib, original.id);
    ReplacementIsValid(services, lib.sources, Position(lib.sources, original.id),
                       RefreshedSource(services, lib, original, url, content.value, a));
    RefreshKeepsIdentity(prior, nodes, original.id, a.draw, key);
    DrawnAreNew(lib, original.id, a.draw, IdsFor(AssignedIds(prior, nodes, original.id, a.draw), nodes, key),
                Min(|prior(key)|, Count(nodes, key)), Draws(prior, nodes));
  }

  lemma ReplacementIsValid(services: Services, sources: seq<Source>, k: nat, replacement: Source)
    requires k < |sources| && ValidSources(services, sources[k := replacement])
    ensures DistinctBy(replacement.nodeIds, Itself)
  {
    assert sources[k := replacement][k] == replacement;
  }

  lemma DrawnAreNew(lib: Library, id: Token, draw: nat -> Token, ids: seq<NodeId>, kept: nat, draws: nat)
    requires NewDraws(lib, id, draw) && forall c :: kept <= c < |ids| ==> IsDraw(ids[c], id, draw, draws)
    ensures forall c :: kept <= c < |ids| ==> ids[c] !in lib.nodes
  {}
}
