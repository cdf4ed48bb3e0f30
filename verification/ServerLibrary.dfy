// The library as the controller holds it: fields changed in place under the state lock, with
// the loops of the original (src-tauri/src/application.rs:584-655, 938-991, 1102-1412;
// src-tauri/src/subscription_store.rs:77-127).
module ServerLibrary {
  import opened Text
  import opened SourceLibrary
  import opened RefreshIds
  import opened LibraryOperations

  method ValidateSource(services: Services, source: Source) returns (valid: bool)
    ensures valid <==> ValidSource(services, source)
  {
    if !(services.validName(source.name)
         && 0 < Utf8Len(source.content) <= MAX_INPUT_BYTES
         && (source.kind == Subscription || source.url.None?)
         && (source.url.Some? ==> services.validUrl(source.url.value))
         && (source.updatedAt.Some? ==> source.updatedAt.value <= MAX_TIME)
         && |source.nodeIds| <= MAX_NODES) { return false; }
    var seen: set<NodeId> := {};
    for i := 0 to |source.nodeIds|
      invariant seen == set j | 0 <= j < i :: source.nodeIds[j]
      invariant forall j :: 0 <= j < i ==> InNamespace(source.id, source.nodeIds[j])
      invariant forall j, k :: 0 <= j < k < i ==> source.nodeIds[j] != source.nodeIds[k]
    {
      var id := source.nodeIds[i];
      if !InNamespace(source.id, id) { return false; }
      if id in seen {
        var j :| 0 <= j < i && source.nodeIds[j] == id;
        assert Itself(source.nodeIds[j]) == Itself(source.nodeIds[i]);
        return false;
      }
      seen := seen + {id};
    }
    return true;
  }

  // What the store demands of a source by itself.
  ghost predicate Acceptable(services: Services, source: Source) {
    && services.validName(source.name) && source.content != "" && Utf8Len(source.content) <= 10_485_760
    && (source.kind == Subscription || source.url.None?)
    && (source.url.Some? ==> services.validUrl(source.url.value))
    && (source.updatedAt.Some? ==> source.updatedAt.value <= 8_640_000_000_000_000)
    && |source.nodeIds| <= 2000
    && (forall i, j :: 0 <= i < j < |source.nodeIds| ==> source.nodeIds[i] != source.nodeIds[j])
    && forall i :: 0 <= i < |source.nodeIds| ==>
         match source.nodeIds[i] case Plain(_) => source.id == LEGACY case Owned(owner, _) => owner == source.id
  }

  lemma {:induction false} BytesOfText(text: string)
    ensures text != "" <==> Utf8Len(text) > 0
  {}

  lemma AcceptableIff(services: Services, source: Source)
    ensures ValidSource(services, source) <==> Acceptable(services, source)
  {
    BytesOfText(source.content);
    assert DistinctBy(source.nodeIds, Itself) <==>
           forall i, j :: 0 <= i < j < |source.nodeIds| ==> source.nodeIds[i] != source.nodeIds[j] by {
      assert forall i :: 0 <= i < |source.nodeIds| ==> Itself(source.nodeIds[i]) == source.nodeIds[i];
    }
    assert NamespaceHolds(source) <==> forall i :: 0 <= i < |source.nodeIds| ==>
             match source.nodeIds[i] case Plain(_) => source.id == LEGACY case Owned(owner, _) => owner == source.id by {
      assert forall i :: 0 <= i < |source.nodeIds| ==>
        (InNamespace(source.id, source.nodeIds[i]) <==>
           match source.nodeIds[i] case Plain(_) => source.id == LEGACY case Owned(owner, _) => owner == source.id);
    }
  }

  lemma ValidSourcesIff(services: Services, sources: seq<Source>)
    ensures ValidSources(services, sources) <==>
            && |sources| <= 64 && TotalBytes(sources) <= 10_485_760
            && (forall i :: 0 <= i < |sources| ==> Acceptable(services, sources[i]))
            && forall i, j :: 0 <= i < j < |sources| ==> sources[i].id != sources[j].id
  {
    forall i | 0 <= i < |sources| ensures ValidSource(services, sources[i]) <==> Acceptable(services, sources[i]) {
      AcceptableIff(services, sources[i]);
    }
    assert DistinctBy(sources, SourceId) <==> forall i, j :: 0 <= i < j < |sources| ==> sources[i].id != sources[j].id by {
      assert forall i :: 0 <= i < |sources| ==> SourceId(sources[i]) == sources[i].id;
    }
  }

  method ValidateSources(services: Services, sources: seq<Source>) returns (valid: bool)
    ensures valid <==> ValidSources(services, sources)
    ensures valid <==>
            && |sources| <= 64 && TotalBytes(sources) <= 10_485_760
            && (forall i :: 0 <= i < |sources| ==> Acceptable(services, sources[i]))
            && forall i, j :: 0 <= i < j < |sources| ==> sources[i].id != sources[j].id
  {
    ValidSourcesIff(services, sources);
    if |sources| > MAX_SOURCES { return false; }
    var ids: set<Token> := {};
    var bytes := 0;
    for i := 0 to |sources|
      invariant ids == set j | 0 <= j < i :: sources[j].id
      invariant forall j :: 0 <= j < i ==> ValidSource(services, sources[j])
      invariant forall j, k :: 0 <= j < k < i ==> sources[j].id != sources[k].id
      invariant bytes == TotalBytes(sources[..i])
    {
      if sources[i].id in ids {
        var j :| 0 <= j < i && sources[j].id == sources[i].id;
        SameIdIsInvalid(services, sources, j, i);
        return false;
      }
      var ok := ValidateSource(services, sources[i]);
      if !ok { return false; }
      ids := ids + {sources[i].id};
      assert sources[..i + 1][..i] == sources[..i];
      bytes := bytes + Utf8Len(sources[i].content);
    }
    assert sources[..|sources|] == sources;
    BytesDecide(services, sources);
    return bytes <= MAX_INPUT_BYTES;
  }

  // Of a list of sound sources with distinct identifiers only the size is still to be checked.
  lemma BytesDecide(services: Services, sources: seq<Source>)
    requires |sources| <= MAX_SOURCES && (forall j :: 0 <= j < |sources| ==> ValidSource(services, sources[j]))
    requires forall j, k :: 0 <= j < k < |sources| ==> sources[j].id != sources[k].id
    ensures ValidSources(services, sources) <==> TotalBytes(sources) <= MAX_INPUT_BYTES
  {}

  lemma SameIdIsInvalid(services: Services, sources: seq<Source>, j: nat, k: nat)
    requires j < k < |sources| && sources[j].id == sources[k].id
    ensures !ValidSources(services, sources)
  {
    assert SourceId(sources[j]) == SourceId(sources[k]);
  }

  lemma {:induction false} MoreEntries(services: Services, sources: seq<Source>, i: nat)
    requires i <= |sources|
    ensures |Entries(services, sources[..i])| <= |Entries(services, sources)|
    decreases |sources| - i
  {
    if i == |sources| {
      assert sources[..i] == sources;
    } else {
      assert sources[..i + 1][..i] == sources[..i];
      MoreEntries(services, sources, i + 1);
    }
  }

  // `nodes.retain` and the order filter.
  method FilterOrder(order: seq<NodeId>, nodes: map<NodeId, Stored>) returns (kept: seq<NodeId>)
    ensures kept == Kept(order, nodes)
  {
    kept := [];
    for i := 0 to |order|
      invariant kept == Kept(order[..i], nodes)
    {
      assert order[..i + 1][..i] == order[..i];
      if order[i] in nodes { kept := kept + [order[i]]; }
    }
    assert order[..|order|] == order;
  }

  method FilterSources(sources: seq<Source>, id: Token) returns (rest: seq<Source>)
    ensures rest == SourcesWithout(sources, id)
  {
    rest := [];
    for i := 0 to |sources|
      invariant rest == SourcesWithout(sources[..i], id)
    {
      assert sources[..i + 1][..i] == sources[..i];
      if sources[i].id != id { rest := rest + [sources[i]]; }
    }
    assert sources[..|sources|] == sources;
  }

  // Rebuilds the entries of the stored sources; stops at the first unusable source or when
  // there would be too many nodes.
  method RebuildEntries(services: Services, sources: seq<Source>) returns (entries: Option<seq<Entry>>)
    ensures entries == if Rebuildable(services, sources) then Some(Entries(services, sources)) else None
  {
    var all := [];
    for i := 0 to |sources|
      invariant all == Entries(services, sources[..i]) && |all| <= MAX_NODES
      invariant forall j :: 0 <= j < i ==> Loadable(services, sources[j])
    {
      assert sources[..i + 1][..i] == sources[..i];
      var report := services.parse(sources[i].content);
      if report.None? { return None; }
      MoreEntries(services, sources, i + 1);
      if |all| + |report.value.nodes| > MAX_NODES { return None; }
      if sources[i].nodeIds != [] && |sources[i].nodeIds| != |report.value.nodes| { return None; }
      all := all + PrepareNodes(sources[i], report.value.nodes);
    }
    assert sources[..|sources|] == sources;
    return Some(all);
  }

  method CollectIndex(entries: seq<Entry>) returns (nodes: map<NodeId, Stored>)
    ensures nodes == Index(entries)
  {
    nodes := map[];
    for i := 0 to |entries|
      invariant nodes == Index(entries[..i])
    {
      assert entries[..i + 1][..i] == entries[..i];
      nodes := nodes[entries[i].0 := entries[i].1];
    }
    assert entries[..|entries|] == entries;
  }

  class Controller {
    const services: Services
    const naming: Naming
    var sources: seq<Source>
    var order: seq<NodeId>
    var nodes: map<NodeId, Stored>
    var disk: Option<seq<Source>>
    var pending: map<Token, Pending>
    var previewInflight: nat
    var active: Option<NodeId>
    var recovery: bool
    var shuttingDown: bool

    ghost function View(): Library
      reads this
    {
      Library(sources, order, nodes, disk, pending, previewInflight, active, recovery, shuttingDown)
    }

    // Starts from what is on disk.
    constructor (services: Services, naming: Naming, disk: Option<seq<Source>>)
      ensures this.services == services && this.naming == naming
      ensures View() == Restored(services, disk)
    {
      this.services, this.naming, this.disk := services, naming, disk;
      sources, order, nodes := [], [], map[];
      pending, previewInflight, active, recovery, shuttingDown := map[], 0, None, false, false;
      new;
      if disk.Some? {
        var valid := ValidateSources(services, disk.value);
        if valid {
          var entries := RebuildEntries(services, disk.value);
          if entries.Some? {
            nodes := CollectIndex(entries.value);
            order := Keys(entries.value);
            sources := disk.value;
          }
        }
      }
    }

    // ---- Preview slots: at most four previews pending or in progress -----

    ghost predicate SlotsBounded()
      reads this
    {
      |pending| + previewInflight <= MAX_PREVIEWS
    }

    method ReserveSlot() returns (reserved: bool)
      requires SlotsBounded()
      modifies this`previewInflight
      ensures SlotsBounded()
      ensures reserved <==> |pending| + old(previewInflight) < MAX_PREVIEWS
      ensures previewInflight == old(previewInflight) + if reserved then 1 else 0
    {
      if |pending| + previewInflight >= MAX_PREVIEWS { return false; }
      previewInflight := previewInflight + 1;
      return true;
    }

    method DropSlot()
      requires SlotsBounded() && previewInflight > 0
      modifies this`previewInflight
      ensures SlotsBounded() && previewInflight == old(previewInflight) - 1
    {
      previewInflight := previewInflight - 1;
    }

    // Fails only when the drawn token is already pending; the slot is given back either way.
    method CommitPreview(token: Token, preview: Pending) returns (committed: bool)
      requires SlotsBounded() && previewInflight > 0
      requires services.parse(preview.content) == Some(preview.report) && PendingParsed(services, View())
      modifies this`previewInflight, this`pending
      ensures SlotsBounded() && PendingParsed(services, View())
      ensures previewInflight == old(previewInflight) - 1
      ensures committed <==> token !in old(pending)
      ensures pending == if committed then old(pending)[token := preview] else old(pending)
    {
      previewInflight := previewInflight - 1;
      if token in pending { return false; }
      pending := pending[token := preview];
      return true;
    }

    // ---- Changing the library --------------------------------------------

    method CountSameKind(kind: Kind) returns (count: nat)
      ensures count == OfSameKind(sources, kind)
    {
      count := 0;
      for i := 0 to |sources|
        invariant count == OfSameKind(sources[..i], kind)
      {
        assert sources[..i + 1][..i] == sources[..i];
        if sources[i].kind == kind { count := count + 1; }
      }
      assert sources[..|sources|] == sources;
    }

    method ChooseName(preview: Token, name: Option<string>) returns (chosen: Option<string>)
      requires preview in pending
      ensures chosen == ImportName(View(), pending[preview], name, naming)
    {
      var ordinal := CountSameKind(pending[preview].kind);
      if name.Some? && Trim(name.value) != "" {
        if naming.accepts(Trim(name.value), pending[preview].report.nodes) { return Some(Trim(name.value)); }
        return None;
      }
      return Some(naming.default(pending[preview].kind, ordinal + 1));
    }

    // Every check of an import before the save.
    method AdmitImport(preview: Token, name: Option<string>, a: Answers) returns (result: Outcome<Source>)
      ensures var fault := ConfirmFault(services, naming, View(), preview, name, a);
              if fault.Some? then result == Failed(fault.value)
              else result == Done(ImportedSource(View(), naming, preview, name, a.draw(0), a.now))
    {
      if recovery { return Failed(RecoveryRequired); }
      if active.Some? { return Failed(ActiveConflict); }
      if pending == map[] { return Failed(PreviewMissing); }
      if preview !in pending { return Failed(TokenInvalid); }
      var imported := pending[preview];
      if imported.report.nodes == [] { return Failed(EmptyImport); }
      var chosen := ChooseName(preview, name);
      if chosen.None? { return Failed(NameInvalid); }
      if !a.entropy { return Failed(NoEntropy); }
      var source := Source(a.draw(0), chosen.value, imported.kind, imported.content, imported.url, Some(Timestamp(a.now)), 0, []);
      var valid := ValidateSources(services, sources + [source]);
      if !valid || |nodes| + |imported.report.nodes| > MAX_NODES { return Failed(LimitExceeded); }
      if !a.saved { return Failed(SaveFailed); }
      return Done(source);
    }

    // Commits exactly what may be imported, as one new source at the end, or changes nothing.
    method ConfirmImport(preview: Token, name: Option<string>, a: Answers) returns (result: Outcome<seq<NodeId>>)
      modifies this`sources, this`order, this`nodes, this`disk, this`pending
      ensures result.Failed? ==> View() == old(View())
      ensures result.Done? ==>
                && !recovery && active.None? && preview in old(pending) && old(pending)[preview].report.nodes != []
                && (name.Some? && Trim(name.value) != "" ==> naming.accepts(Trim(name.value), old(pending)[preview].report.nodes))
                && a.entropy && a.saved
      ensures result.Done? ==>
                && |sources| == |old(sources)| + 1 && sources[..|old(sources)|] == old(sources) && disk == Some(sources)
                && ValidSources(services, sources) && |old(nodes)| + |old(pending)[preview].report.nodes| <= 2000
                && var source, preview := sources[|old(sources)|], old(pending)[preview];
                   && source.id == a.draw(0) && source.kind == preview.kind && source.content == preview.content
                   && source.url == preview.url && source.revision == 0
                   && (name.Some? && Trim(name.value) != "" ==> source.name == Trim(name.value))
      ensures result.Done? ==> pending == old(pending) - {preview}
      ensures recovery ==> result == Failed(RecoveryRequired)
      ensures !recovery && active.Some? ==> result == Failed(ActiveConflict)
      ensures !recovery && active.None? && preview !in old(pending) ==>
                result == Failed(if old(pending) == map[] then PreviewMissing else TokenInvalid)
      ensures result == Failed(SaveFailed) ==> !a.saved
      ensures View() == Confirm(services, naming, old(View()), preview, name, a)
      ensures var fault := ConfirmFault(services, naming, old(View()), preview, name, a);
              if fault.Some? then result == Failed(fault.value)
              else result.Done? && order == old(order) + result.value
    {
      ImportCommitsIff(services, naming, View(), preview, name, a);
      if ConfirmFault(services, naming, View(), preview, name, a) == None {
        ImportedRecord(View(), naming, preview, name, a.draw(0), a.now);
      }
      var admitted := AdmitImport(preview, name, a);
      if admitted.Failed? { return Failed(admitted.error); }
      var ids := AppendSource(admitted.value, pending[preview].report.nodes, preview);
      return Done(ids);
    }

    method AppendSource(source: Source, parsed: seq<Parsed>, preview: Token) returns (ids: seq<NodeId>)
      modifies this`sources, this`order, this`nodes, this`disk, this`pending
      ensures View() == Appended(old(View()), source, parsed, preview) && order == old(order) + ids
    {
      var prepared := PrepareNodes(source, parsed);
      var added := CollectIndex(prepared);
      ids := Keys(prepared);
      disk := Some(sources + [source]);
      pending := pending - {preview};
      nodes := nodes + added;
      order := order + ids;
      sources := sources + [source];
    }

    method FindSource(id: Token) returns (k: nat)
      ensures k == Position(sources, id)
    {
      k := 0;
      while k < |sources| && sources[k].id != id
        invariant k <= |sources| && forall j :: 0 <= j < k ==> sources[j].id != id
      {
        k := k + 1;
      }
      FirstIsPosition(sources, id, k);
    }

    // The first section of a refresh, under the lock: the record to refresh and the address to
    // fetch, the given one before the stored one.
    method BeginRefresh(id: Token, url: Option<string>) returns (result: Outcome<(Source, string)>)
      ensures result == LibraryOperations.BeginRefresh(services, View(), id, url)
      ensures result.Done? <==>
                && !recovery && !shuttingDown && !InUse(View(), id)
                && Position(sources, id) < |sources| && sources[Position(sources, id)].kind == Subscription
                && (url.Some? || sources[Position(sources, id)].url.Some?)
                && services.validUrl(if url.Some? then url.value else sources[Position(sources, id)].url.value)
      ensures result.Done? ==>
                && result.value.0 == sources[Position(sources, id)]
                && result.value.1 == if url.Some? then url.value else sources[Position(sources, id)].url.value
      ensures recovery || shuttingDown ==> result == Failed(RecoveryRequired)
      ensures !recovery && !shuttingDown && InUse(View(), id) ==> result == Failed(ActiveConflict)
      ensures !recovery && !shuttingDown && !InUse(View(), id) && Position(sources, id) == |sources| ==> result == Failed(SourceMissing)
      ensures result == Failed(NotRefreshable) ==>
                Position(sources, id) < |sources| && sources[Position(sources, id)].kind != Subscription
    {
      var forbidden := ForbiddenNow(id);
      if forbidden.Some? { return Failed(forbidden.value); }
      var k := FindSource(id);
      if k == |sources| { return Failed(SourceMissing); }
      if sources[k].kind != Subscription { return Failed(NotRefreshable); }
      if url.None? && sources[k].url.None? { return Failed(UrlRequired); }
      var address := if url.Some? then url.value else sources[k].url.value;
      if !services.validUrl(address) { return Failed(UrlInvalid); }
      return Done((sources[k], address));
    }

    // The checks of a refresh, up to the save; `content` was fetched with the lock released.
    method AdmitRefresh(original: Source, url: string, content: Option<string>, a: Answers) returns (result: Outcome<(nat, Source)>)
      ensures var fault := RefreshFault(services, View(), original, url, content, a);
              if fault.Some? then result == Failed(fault.value)
              else result == Done((Position(sources, original.id), RefreshedSource(services, View(), original, url, content.value, a)))
    {
      if content.None? { return Failed(FetchFailed); }
      var report := services.parse(content.value);
      if report.None? { return Failed(ContentRejected); }
      if report.value.nodes == [] || !report.value.complete { return Failed(Incomplete); }
      var forbidden := ForbiddenNow(original.id);
      if forbidden.Some? { return Failed(forbidden.value); }
      var k := FindSource(original.id);
      if k == |sources| || sources[k] != original { return Failed(SourceChanged); }
      var queues, count := CollectIds(order, nodes, original.id);
      var ids := AssignIds(queues, report.value.nodes, original.id, a.entropy, a.draw, PriorIds(View(), original.id));
      if ids.None? { return Failed(NoEntropy); }
      if original.revision >= MAX_REVISION { return Failed(SourceChanged); }
      var replacement := Replacement(original, content.value, url, a.now, ids.value);
      var valid := ValidateSources(services, sources[k := replacement]);
      if !valid || |nodes| - count + |report.value.nodes| > MAX_NODES { return Failed(LimitExceeded); }
      if !a.entropy { return Failed(NoEntropy); }
      if !a.saved { return Failed(SaveFailed); }
      return Done((k, replacement));
    }

    // Commits exactly what may be refreshed, in the place of the source, or changes nothing.
    method RefreshSource(original: Source, url: string, content: Option<string>, a: Answers) returns (result: Outcome<seq<NodeId>>)
      modifies this`sources, this`order, this`nodes, this`disk
      ensures result.Failed? ==> View() == old(View())
      ensures result.Done? <==>
                && content.Some? && services.parse(content.value).Some?
                && services.parse(content.value).value.complete && services.parse(content.value).value.nodes != []
                && !recovery && !shuttingDown
                && !(active.Some? && active.value in old(nodes) && old(nodes)[active.value].sourceId == original.id)
                && Position(old(sources), original.id) < |old(sources)|
                && old(sources)[Position(old(sources), original.id)] == original
                && original.revision < 0xffff_ffff_ffff_ffff
                && ValidSources(services, old(sources)[Position(old(sources), original.id) :=
                                            RefreshedSource(services, old(View()), original, url, content.value, a)])
                && |old(nodes)| - CountOf(old(order), old(nodes), original.id) + |services.parse(content.value).value.nodes| <= 2000
                && a.entropy && a.saved
      ensures content.None? ==> result == Failed(FetchFailed)
      ensures content.Some? && services.parse(content.value).None? ==> result == Failed(ContentRejected)
      ensures content.Some? && services.parse(content.value).Some? && !services.parse(content.value).value.complete ==>
                result == Failed(Incomplete)
      ensures content.Some? && services.parse(content.value).Some?
              && services.parse(content.value).value.complete && services.parse(content.value).value.nodes != [] ==>
                && (recovery || shuttingDown ==> result == Failed(RecoveryRequired))
                && (!recovery && !shuttingDown && InUse(old(View()), original.id) ==> result == Failed(ActiveConflict))
                && (!recovery && !shuttingDown && !InUse(old(View()), original.id) && original !in old(sources) ==>
                      result == Failed(SourceChanged))
      ensures result == Failed(SaveFailed) ==> !a.saved
      ensures result.Done? ==>
                var k := Position(old(sources), original.id);
                && |sources| == |old(sources)| && sources == old(sources)[k := sources[k]] && disk == Some(sources)
                && sources[k].id == original.id && sources[k].name == original.name && sources[k].kind == original.kind
                && sources[k].content == content.value && sources[k].url == Some(url)
                && sources[k].revision == original.revision + 1 && sources[k].nodeIds == result.value
      ensures View() == Refresh(services, old(View()), original, url, content, a)
      ensures var fault := RefreshFault(services, old(View()), original, url, content, a);
              if fault.Some? then result == Failed(fault.value)
              else result == Done(RefreshedSource(services, old(View()), original, url, content.value, a).nodeIds)
    {
      RefreshCommitsIff(services, View(), original, url, content, a);
      if content.Some? && services.parse(content.value).Some? {
        RefreshedRecord(services, View(), original, url, content.value, a);
      }
      var admitted := AdmitRefresh(original, url, content, a);
      if admitted.Failed? { return Failed(admitted.error); }
      var (k, replacement) := admitted.value;
      ReplaceSource(k, replacement, services.parse(content.value).value.nodes);
      return Done(replacement.nodeIds);
    }

    method ReplaceSource(k: nat, replacement: Source, parsed: seq<Parsed>)
      requires k < |sources|
      modifies this`sources, this`order, this`nodes, this`disk
      ensures View() == Replaced(old(View()), k, replacement, parsed)
    {
      disk := Some(sources[k := replacement]);
      ReplaceNodes(replacement, parsed);
      sources := sources[k := replacement];
    }

    method ForbiddenNow(id: Token) returns (error: Option<LibraryError>)
      ensures error == Forbidden(View(), id)
    {
      if recovery || shuttingDown { return Some(RecoveryRequired); }
      if active.Some? && active.value in nodes && nodes[active.value].sourceId == id { return Some(ActiveConflict); }
      return None;
    }

    // Drops the old nodes of the source and splices the new ones in where the first one was.
    method ReplaceNodes(replacement: Source, parsed: seq<Parsed>)
      modifies this`order, this`nodes
      ensures order == RefreshedOrder(old(order), old(nodes), replacement.id, replacement.nodeIds)
      ensures nodes == Retained(old(nodes), replacement.id) + Index(PrepareNodes(replacement, parsed))
    {
      var at := FirstOf(order, nodes, replacement.id, 0);
      nodes := Retained(nodes, replacement.id);
      var kept := FilterOrder(order, nodes);
      order := Spliced(kept, at, replacement.nodeIds);
      var added := CollectIndex(PrepareNodes(replacement, parsed));
      nodes := nodes + added;
    }

    // Removes a source that is not in use; another one may be removed while a session runs.
    method RemoveSource(id: Token, saved: bool) returns (result: Outcome<()>)
      modifies this`sources, this`order, this`nodes, this`disk
      ensures result.Failed? ==> View() == old(View())
      ensures result.Done? <==>
                && !recovery && !shuttingDown
                && !(active.Some? && active.value in old(nodes) && old(nodes)[active.value].sourceId == id)
                && (saved || forall source :: source in old(sources) ==> source.id != id)
      ensures result.Done? ==> forall source :: source in sources <==> source in old(sources) && source.id != id
      ensures result.Done? && sources != old(sources) ==> disk == Some(sources)
      ensures recovery || shuttingDown ==> result == Failed(RecoveryRequired)
      ensures !recovery && !shuttingDown && result.Failed? ==>
                result == Failed(if InUse(old(View()), id) then ActiveConflict else SaveFailed)
      ensures View() == Remove(old(View()), id, saved)
      ensures result == match RemoveFault(old(View()), id, saved) case Some(error) => Failed(error) case None => Done(())
    {
      ghost var was := View();
      ListedIffPositioned(sources, id);
      if RemoveFault(was, id, saved) == None { RemoveDrops(was, id, saved); }
      var forbidden := ForbiddenNow(id);
      if forbidden.Some? { return Failed(forbidden.value); }
      var k := FindSource(id);
      if k == |sources| { return Done(()); }
      var rest := FilterSources(sources, id);
      if !saved { return Failed(SaveFailed); }
      disk := Some(rest);
      nodes := Retained(nodes, id);
      order := FilterOrder(order, nodes);
      sources := rest;
      return Done(());
    }

    method ResetLocalState(cleared: bool) returns (result: Outcome<()>)
      modifies this`sources, this`order, this`nodes, this`disk, this`pending
      ensures result.Done? <==> active.None? && cleared
      ensures result.Failed? ==> result == Failed(if active.Some? then ActiveConflict else SaveFailed)
      ensures if result.Done? then sources == [] && order == [] && nodes == map[] && pending == map[] && disk == None
              else View() == old(View())
      ensures View() == Reset(old(View()), cleared)
      ensures result == match ResetFault(old(View()), cleared) case Some(error) => Failed(error) case None => Done(())
    {
      if active.Some? { return Failed(ActiveConflict); }
      if !cleared { return Failed(SaveFailed); }
      disk := None;
      nodes, order, sources, pending := map[], [], [], map[];
      return Done(());
    }
  }

  lemma ListedIffPositioned(sources: seq<Source>, id: Token)
    ensures Position(sources, id) < |sources| <==> exists source :: source in sources && source.id == id
  {
    if Position(sources, id) < |sources| { assert sources[Position(sources, id)] in sources; }
  }

  lemma FirstIsPosition(sources: seq<Source>, id: Token, k: nat)
    requires k <= |sources| && (k < |sources| ==> sources[k].id == id) && forall j :: 0 <= j < k ==> sources[j].id != id
    ensures k == Position(sources, id)
  {}
}
