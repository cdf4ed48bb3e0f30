// Any interleaving of imports, in-flight refreshes, removals, resets, restarts and session
// starts (src-tauri/src/application.rs:1106-1412, 3806-3827). A refresh takes its snapshot
// under the lock, fetches with the lock released, and commits under the lock again.
module LibraryRuns {
  import opened Text
  import opened SourceLibrary
  import opened RefreshIds
  import opened LibraryOperations

  datatype Event =
    | AddPreview(token: Token, parsed: Pending)
    | Import(preview: Token, name: Option<string>, answers: Answers)
    | Begin(ticket: nat, id: Token, url: Option<string>)
    | Commit(ticket: nat, content: Option<string>, answers: Answers)
    | RemoveSource(id: Token, saved: bool)
    | ResetAll(cleared: bool)
    | SetSession(active: Option<NodeId>, recovery: bool, shuttingDown: bool)
    | Restart

  // What happened to the sources, in order.
  datatype Record = Added(source: Source) | Committed(before: Source, after: Source) | Removed(id: Token) | Cleared

  datatype System = System(lib: Library, tickets: map<nat, (Source, string)>, used: set<Token>, log: seq<Record>)

  // Drawn identifiers are new, tickets are not reused, previews are parsed content.
  ghost predicate Enabled(services: Services, s: System, e: Event) {
    match e
    case AddPreview(_, parsed) => services.parse(parsed.content) == Some(parsed.report)
    case Import(_, _, answers) => answers.draw(0) !in s.used
    case Begin(ticket, _, _) => ticket !in s.tickets
    case Commit(ticket, _, _) => ticket in s.tickets
    case _ => true
  }

  ghost function Apply(services: Services, naming: Naming, s: System, e: Event): System
    requires Enabled(services, s, e)
  {
    match e
    case AddPreview(token, parsed) => s.(lib := s.lib.(pending := s.lib.pending[token := parsed]))
    case Import(preview, name, a) =>
      if ConfirmFault(services, naming, s.lib, preview, name, a).Some? then s
      else
        var source := ImportedSource(s.lib, naming, preview, name, a.draw(0), a.now);
        s.(lib := Confirm(services, naming, s.lib, preview, name, a), used := s.used + {source.id}, log := s.log + [Added(source)])
    case Begin(ticket, id, url) =>
      (match BeginRefresh(services, s.lib, id, url)
       case Done(snapshot) => s.(tickets := s.tickets[ticket := snapshot])
       case Failed(_) => s)
    case Commit(ticket, content, a) =>
      var (original, url) := s.tickets[ticket];
      var after := s.(tickets := s.tickets - {ticket});
      if RefreshFault(services, s.lib, original, url, content, a).Some? then after
      else after.(lib := Refresh(services, s.lib, original, url, content, a),
                  log := s.log + [Committed(original, RefreshedSource(services, s.lib, original, url, content.value, a))])
    case RemoveSource(id, saved) =>
      if RemoveFault(s.lib, id, saved).Some? || Position(s.lib.sources, id) == |s.lib.sources| then s
      else s.(lib := Remove(s.lib, id, saved), log := s.log + [Removed(id)])
    case ResetAll(cleared) =>
      if ResetFault(s.lib, cleared).Some? then s else s.(lib := Reset(s.lib, cleared), log := s.log + [Cleared])
    case SetSession(active, recovery, shuttingDown) =>
      s.(lib := s.lib.(active := active, recovery := recovery, shuttingDown := shuttingDown))
    case Restart => s.(lib := Restored(services, s.lib.disk), tickets := map[])
  }

  // ---- The history of one source ----------------------------------------

  // The record of a source after a history that began with `base`.
  ghost function Latest(base: seq<Source>, log: seq<Record>, id: Token): Option<Source> {
    if log == [] then if Position(base, id) < |base| then Some(base[Position(base, id)]) else None
    else match log[|log| - 1]
      case Added(source) => if source.id == id then Some(source) else Latest(base, log[..|log| - 1], id)
      case Committed(_, after) => if after.id == id then Some(after) else Latest(base, log[..|log| - 1], id)
      case Removed(gone) => if gone == id then None else Latest(base, log[..|log| - 1], id)
      case Cleared => None
  }

  ghost function Current(sources: seq<Source>, id: Token): Option<Source> {
    var k := Position(sources, id);
    if k < |sources| then Some(sources[k]) else None
  }

  function Commits(log: seq<Record>, id: Token): nat {
    if log == [] then 0
    else Commits(log[..|log| - 1], id)
         + if log[|log| - 1].Committed? && log[|log| - 1].after.id == id then 1 else 0
  }

  ghost predicate About(record: Record, id: Token) {
    (record.Added? && record.source.id == id) || (record.Committed? && record.after.id == id)
  }

  // Every committed refresh replaces the record that immediately precedes it, one revision up.
  ghost predicate Linear(base: seq<Source>, log: seq<Record>) {
    forall k :: 0 <= k < |log| && log[k].Committed? ==>
      && Latest(base, log[..k], log[k].before.id) == Some(log[k].before)
      && log[k].after.id == log[k].before.id && log[k].after.revision == log[k].before.revision + 1
  }

  // After a removal nothing is recorded about the source again.
  ghost predicate NeverReappears(log: seq<Record>) {
    forall i, j :: 0 <= i < j < |log| && log[i].Removed? ==> !About(log[j], log[i].id)
  }

  // Everything recorded is about an identifier in `used`.
  ghost predicate Known(log: seq<Record>, used: set<Token>) {
    forall k :: 0 <= k < |log| ==>
      match log[k]
      case Added(source) => source.id in used
      case Committed(_, after) => after.id in used
      case Removed(id) => id in used
      case Cleared => true
  }

  ghost predicate FirstRevisions(base: seq<Source>, log: seq<Record>, current: seq<Source>) {
    forall source :: source in current && Position(base, source.id) == |base| ==> source.revision == Commits(log, source.id)
  }

  ghost predicate Gone(log: seq<Record>, sources: seq<Source>) {
    forall k, source :: 0 <= k < |log| && log[k].Removed? && source in sources ==> source.id != log[k].id
  }

  ghost predicate History(base: seq<Source>, s: System) {
    && DistinctBy(s.lib.sources, SourceId)
    && (forall source :: source in s.lib.sources ==> source.id in s.used)
    && (forall id :: Latest(base, s.log, id) == Current(s.lib.sources, id))
    && Linear(base, s.log) && NeverReappears(s.log) && Known(s.log, s.used)
    && FirstRevisions(base, s.log, s.lib.sources) && Gone(s.log, s.lib.sources)
  }

  // A run begins with what a start restores from the disk: nothing without a usable store.
  ghost function Run(services: Services, naming: Naming, disk: Option<seq<Source>>, events: seq<Event>): Option<System> {
    if events == [] then
      Some(System(Restored(services, disk), map[], set source | source in RestoredSources(services, disk) :: source.id, []))
    else match Run(services, naming, disk, events[..|events| - 1])
      case None => None
      case Some(s) =>
        if Enabled(services, s, events[|events| - 1]) then Some(Apply(services, naming, s, events[|events| - 1])) else None
  }

  // ---- Bookkeeping ------------------------------------------------------

  lemma CurrentOf(sources: seq<Source>, source: Source)
    requires DistinctBy(sources, SourceId) && source in sources
    ensures Current(sources, source.id) == Some(source)
  {
    var i :| 0 <= i < |sources| && sources[i] == source;
    var k := Position(sources, source.id);
    assert k <= i;
    assert forall j :: k < j < |sources| ==> SourceId(sources[k]) != SourceId(sources[j]);
  }

  lemma CurrentIs(sources: seq<Source>, id: Token)
    ensures Current(sources, id).Some? ==> Current(sources, id).value in sources && Current(sources, id).value.id == id
    ensures Current(sources, id).None? ==> forall source :: source in sources ==> source.id != id
  {
    forall source | source in sources && Current(sources, id).None? ensures source.id != id {
      var i :| 0 <= i < |sources| && sources[i] == source;
    }
  }

  // Two libraries with the same records under an identifier look the same there.
  lemma CurrentAgrees(a: seq<Source>, b: seq<Source>, id: Token)
    requires DistinctBy(a, SourceId) && DistinctBy(b, SourceId)
    requires forall source: Source :: source.id == id ==> (source in a <==> source in b)
    ensures Current(a, id) == Current(b, id)
  {
    CurrentIs(a, id);
    CurrentIs(b, id);
    if Current(a, id).Some? { CurrentOf(b, Current(a, id).value); }
    if Current(b, id).Some? { CurrentOf(a, Current(b, id).value); }
  }

  // One record was appended to the history, with its effect on the sources.
  ghost predicate Effect(before: seq<Source>, after: seq<Source>, record: Record) {
    match record
    case Added(source) =>
      && source.revision == 0 && (forall other :: other in before ==> other.id != source.id)
      && forall other :: other in after <==> other in before || other == source
    case Committed(previous, replacement) =>
      && previous in before && replacement.id == previous.id && replacement.revision == previous.revision + 1
      && forall other :: other in after <==> (other in before && other.id != previous.id) || other == replacement
    case Removed(id) =>
      && (exists other :: other in before && other.id == id)
      && forall other :: other in after <==> other in before && other.id != id
    case Cleared => after == []
  }

  lemma LatestStep(base: seq<Source>, before: seq<Source>, after: seq<Source>, log: seq<Record>, record: Record, id: Token)
    requires DistinctBy(before, SourceId) && DistinctBy(after, SourceId) && Effect(before, after, record)
    requires Latest(base, log, id) == Current(before, id)
    ensures Latest(base, log + [record], id) == Current(after, id)
  {
    assert (log + [record])[..|log|] == log;
    CurrentIs(after, id);
    match record
    case Added(source) =>
      if source.id == id { CurrentOf(after, source); } else { CurrentAgrees(before, after, id); }
    case Committed(_, replacement) =>
      if replacement.id == id { CurrentOf(after, replacement); } else { CurrentAgrees(before, after, id); }
    case Removed(gone) => if gone != id { CurrentAgrees(before, after, id); }
    case Cleared =>
  }

  lemma LinearStep(base: seq<Source>, before: seq<Source>, after: seq<Source>, log: seq<Record>, record: Record)
    requires Linear(base, log) && DistinctBy(before, SourceId) && Effect(before, after, record)
    requires forall id :: Latest(base, log, id) == Current(before, id)
    ensures Linear(base, log + [record])
  {
    var all := log + [record];
    forall k | 0 <= k < |all| && all[k].Committed?
      ensures Latest(base, all[..k], all[k].before.id) == Some(all[k].before)
      ensures all[k].after.id == all[k].before.id && all[k].after.revision == all[k].before.revision + 1
    {
      if k < |log| {
        assert all[..k] == log[..k];
      } else {
        assert all[..k] == log;
        CurrentOf(before, record.before);
      }
    }
  }

  lemma RemovalStep(before: seq<Source>, after: seq<Source>, log: seq<Record>, record: Record, used: set<Token>)
    requires NeverReappears(log) && Gone(log, before) && Effect(before, after, record)
    requires Known(log, used) && (record.Added? ==> record.source.id !in used)
    ensures NeverReappears(log + [record]) && Gone(log + [record], after)
  {
    var all := log + [record];
    forall i, j | 0 <= i < j < |all| && all[i].Removed? ensures !About(all[j], all[i].id) {
      assert all[i] == log[i];
    }
    forall k, source | 0 <= k < |all| && all[k].Removed? && source in after ensures source.id != all[k].id {
      if k < |log| { assert all[k] == log[k]; }
    }
  }

  lemma CommitsStep(log: seq<Record>, record: Record, id: Token)
    ensures Commits(log + [record], id) == Commits(log, id) + if record.Committed? && record.after.id == id then 1 else 0
  {
    assert (log + [record])[..|log|] == log;
  }

  lemma {:induction false} NoCommits(log: seq<Record>, used: set<Token>, id: Token)
    requires Known(log, used) && id !in used
    ensures Commits(log, id) == 0
  {
    if log != [] {
      assert log[|log| - 1] in log;
      NoCommits(log[..|log| - 1], used, id);
    }
  }

  lemma RevisionsStep(base: seq<Source>, before: seq<Source>, after: seq<Source>, log: seq<Record>, record: Record, used: set<Token>)
    requires FirstRevisions(base, log, before) && Effect(before, after, record)
    requires Known(log, used) && (record.Added? ==> record.source.id !in used)
    ensures FirstRevisions(base, log + [record], after)
  {
    forall source | source in after && Position(base, source.id) == |base|
      ensures source.revision == Commits(log + [record], source.id)
    {
      CommitsStep(log, record, source.id);
      if record.Added? && source == record.source { NoCommits(log, used, source.id); }
    }
  }

  lemma KnownStep(log: seq<Record>, record: Record, used: set<Token>, before: seq<Source>, after: seq<Source>)
    requires Known(log, used) && Effect(before, after, record) && forall source :: source in before ==> source.id in used
    ensures var more := used + if record.Added? then {record.source.id} else {};
            Known(log + [record], more) && forall source :: source in after ==> source.id in more
  {}

  lemma HistoryStep(base: seq<Source>, s: System, next: System, record: Record)
    requires History(base, s) && Effect(s.lib.sources, next.lib.sources, record) && DistinctBy(next.lib.sources, SourceId)
    requires next.log == s.log + [record] && (record.Added? ==> record.source.id !in s.used)
    requires next.used == s.used + if record.Added? then {record.source.id} else {}
    ensures History(base, next)
  {
    forall id ensures Latest(base, next.log, id) == Current(next.lib.sources, id) {
      LatestStep(base, s.lib.sources, next.lib.sources, s.log, record, id);
    }
    LinearStep(base, s.lib.sources, next.lib.sources, s.log, record);
    RemovalStep(s.lib.sources, next.lib.sources, s.log, record, s.used);
    RevisionsStep(base, s.lib.sources, next.lib.sources, s.log, record, s.used);
    KnownStep(s.log, record, s.used, s.lib.sources, next.lib.sources);
  }

  // ---- Every event ------------------------------------------------------

  lemma ImportEffect(services: Services, naming: Naming, lib: Library, preview: Token, name: Option<string>, a: Answers)
    requires ConfirmFault(services, naming, lib, preview, name, a) == None
    requires forall source :: source in lib.sources ==> source.id != a.draw(0)
    ensures Effect(lib.sources, Confirm(services, naming, lib, preview, name, a).sources,
                   Added(ImportedSource(lib, naming, preview, name, a.draw(0), a.now)))
  {}

  lemma ReplaceEffect(sources: seq<Source>, k: nat, replacement: Source)
    requires DistinctBy(sources, SourceId) && k < |sources|
    requires replacement.id == sources[k].id && replacement.revision == sources[k].revision + 1
    ensures Effect(sources, sources[k := replacement], Committed(sources[k], replacement))
  {
    OthersDiffer(sources, k);
    var after := sources[k := replacement];
    forall other ensures other in after <==> (other in sources && other.id != sources[k].id) || other == replacement {
      if other in after {
        var i :| 0 <= i < |after| && after[i] == other;
      }
      if other in sources && other.id != sources[k].id {
        var i :| 0 <= i < |sources| && sources[i] == other;
        assert after[i] == other;
      }
      if other == replacement { assert after[k] == other; }
    }
  }

  lemma CommitEffect(services: Services, lib: Library, original: Source, url: string, content: Option<string>, a: Answers)
    requires RefreshFault(services, lib, original, url, content, a) == None && DistinctBy(lib.sources, SourceId)
    ensures Effect(lib.sources, Refresh(services, lib, original, url, content, a).sources,
                   Committed(original, RefreshedSource(services, lib, original, url, content.value, a)))
  {
    RefreshReplaces(services, lib, original, url, content, a);
    ReplaceEffect(lib.sources, Position(lib.sources, original.id), RefreshedSource(services, lib, original, url, content.value, a));
  }

  lemma RemoveEffect(lib: Library, id: Token, saved: bool)
    requires RemoveFault(lib, id, saved) == None && Position(lib.sources, id) < |lib.sources|
    ensures Effect(lib.sources, Remove(lib, id, saved).sources, Removed(id))
  {
    RemoveDrops(lib, id, saved);
    assert lib.sources[Position(lib.sources, id)] in lib.sources;
  }

  lemma SameHistory(base: seq<Source>, s: System, next: System)
    requires History(base, s) && next.lib.sources == s.lib.sources && next.log == s.log && next.used == s.used
    ensures History(base, next)
  {}

  // An event that is recorded has the effect it records.
  lemma LoggedEffect(services: Services, naming: Naming, s: System, e: Event)
    requires Enabled(services, s, e) && Apply(services, naming, s, e).log != s.log && DistinctBy(s.lib.sources, SourceId)
    requires forall source :: source in s.lib.sources ==> source.id in s.used
    ensures var next := Apply(services, naming, s, e);
            && |next.log| == |s.log| + 1 && next.log == s.log + [next.log[|s.log|]]
            && Effect(s.lib.sources, next.lib.sources, next.log[|s.log|])
  {
    match e
    case Import(preview, name, a) => ImportEffect(services, naming, s.lib, preview, name, a);
    case Commit(ticket, content, a) =>
      CommitEffect(services, s.lib, s.tickets[ticket].0, s.tickets[ticket].1, content, a);
    case RemoveSource(id, saved) => RemoveEffect(s.lib, id, saved);
    case _ =>
  }

  lemma LoggedIds(services: Services, naming: Naming, s: System, e: Event)
    requires Enabled(services, s, e) && Apply(services, naming, s, e).log != s.log
    ensures var next := Apply(services, naming, s, e);
            && |next.log| == |s.log| + 1
            && var record := next.log[|s.log|];
               && (record.Added? ==> record.source.id !in s.used)
               && next.used == s.used + if record.Added? then {record.source.id} else {}
  {}

  lemma EventHistory(services: Services, naming: Naming, base: seq<Source>, s: System, e: Event)
    requires ParserContract(services) && Consistent(services, s.lib) && History(base, s) && Enabled(services, s, e)
    requires Consistent(services, Apply(services, naming, s, e).lib)
    ensures History(base, Apply(services, naming, s, e))
  {
    var next := Apply(services, naming, s, e);
    DistinctSources(services, next.lib);
    if next.log == s.log {
      UnloggedChangesNoSource(services, naming, s, e);
      SameHistory(base, s, next);
    } else {
      LoggedEffect(services, naming, s, e);
      LoggedIds(services, naming, s, e);
      HistoryStep(base, s, next, next.log[|s.log|]);
    }
  }

  lemma UnloggedChangesNoSource(services: Services, naming: Naming, s: System, e: Event)
    requires Consistent(services, s.lib) && Enabled(services, s, e) && Apply(services, naming, s, e).log == s.log
    ensures Apply(services, naming, s, e).lib.sources == s.lib.sources && Apply(services, naming, s, e).used == s.used
  {
    if e.Restart? { RestartKeeps(services, s.lib); }
  }

  lemma EventKeepsIndex(services: Services, naming: Naming, s: System, e: Event)
    requires ParserContract(services) && Consistent(services, s.lib) && PendingParsed(services, s.lib)
    requires Enabled(services, s, e)
    ensures Consistent(services, Apply(services, naming, s, e).lib)
  {
    match e
    case Import(preview, name, a) => ConfirmKeeps(services, naming, s.lib, preview, name, a);
    case Commit(ticket, content, a) =>
      RefreshKeeps(services, s.lib, s.tickets[ticket].0, s.tickets[ticket].1, content, a);
    case RemoveSource(id, saved) => RemoveKeeps(services, s.lib, id, saved);
    case ResetAll(cleared) => ResetKeeps(services, s.lib, cleared);
    case Restart => RestartKeeps(services, s.lib);
    case _ =>
  }

  lemma EventKeepsPending(services: Services, naming: Naming, s: System, e: Event)
    requires PendingParsed(services, s.lib) && Enabled(services, s, e)
    ensures PendingParsed(services, Apply(services, naming, s, e).lib)
  {
    if e.Import? { ConfirmKeepsPending(services, naming, s.lib, e.preview, e.name, e.answers); }
  }

  lemma BaseHistory(base: seq<Source>, s: System)
    requires DistinctBy(base, SourceId) && s.lib.sources == base && s.log == []
    requires s.used == set source | source in base :: source.id
    ensures History(base, s)
  {
    forall source | source in base ensures Position(base, source.id) < |base| { CurrentIs(base, source.id); }
  }

  // In every run, from any store or none, memory is what a restart would rebuild from the disk.
  lemma {:induction false} EveryRunKeepsIndex(services: Services, naming: Naming, disk: Option<seq<Source>>, events: seq<Event>)
    requires ParserContract(services) && Run(services, naming, disk, events).Some?
    ensures var lib := Run(services, naming, disk, events).value.lib; Consistent(services, lib) && PendingParsed(services, lib)
  {
    if events != [] {
      var init := events[..|events| - 1];
      EveryRunKeepsIndex(services, naming, disk, init);
      var s, e := Run(services, naming, disk, init).value, events[|events| - 1];
      EventKeepsIndex(services, naming, s, e);
      EventKeepsPending(services, naming, s, e);
    }
  }

  // In every run every committed refresh replaces the record immediately before it, one revision
  // up; a new source counts its revisions from 0; a removed source never reappears.
  lemma {:induction false} EveryRunIsLinear(services: Services, naming: Naming, disk: Option<seq<Source>>, events: seq<Event>)
    requires ParserContract(services) && Run(services, naming, disk, events).Some?
    ensures History(RestoredSources(services, disk), Run(services, naming, disk, events).value)
  {
    EveryRunKeepsIndex(services, naming, disk, events);
    if events == [] {
      var s := Run(services, naming, disk, events).value;
      DistinctSources(services, s.lib);
      BaseHistory(RestoredSources(services, disk), s);
    } else {
      var init := events[..|events| - 1];
      EveryRunKeepsIndex(services, naming, disk, init);
      EveryRunIsLinear(services, naming, disk, init);
      EventHistory(services, naming, RestoredSources(services, disk), Run(services, naming, disk, init).value, events[|events| - 1]);
    }
  }

  // ---- The active node --------------------------------------------------

  ghost predicate ActiveAt(lib: Library, id: NodeId, source: Source) {
    lib.active == Some(id) && id in lib.nodes && lib.nodes[id].sourceId == source.id && source in lib.sources
  }

  lemma RefreshKeepsOthersNode(services: Services, lib: Library, original: Source, url: string, content: Option<string>, a: Answers, id: NodeId)
    requires ParserContract(services) && Consistent(services, lib)
    requires RefreshFault(services, lib, original, url, content, a) == None
    requires id in lib.nodes && lib.nodes[id].sourceId != original.id
    ensures var after := Refresh(services, lib, original, url, content, a);
            id in after.nodes && after.nodes[id] == lib.nodes[id]
  {
    RefreshLeavesOthers(services, lib, original, url, content, a);
    var after := Refresh(services, lib, original, url, content, a);
    assert id in Retained(lib.nodes, original.id);
    assert id in Retained(after.nodes, original.id);
  }

  lemma ImportKeepsNode(services: Services, naming: Naming, lib: Library, preview: Token, name: Option<string>, a: Answers)
    requires lib.active.Some?
    ensures Confirm(services, naming, lib, preview, name, a) == lib
  {}

  predicate Undisturbed(events: seq<Event>) {
    forall i :: 0 <= i < |events| ==> !events[i].SetSession? && !events[i].Restart?
  }

  // From any moment at which a session is active on a listed node until the session changes, no
  // library event touches the source of that node.
  lemma {:induction false} ActiveSourceIsUntouched(services: Services, naming: Naming, disk: Option<seq<Source>>,
                                                   events: seq<Event>, more: seq<Event>, id: NodeId, source: Source)
    requires ParserContract(services) && Run(services, naming, disk, events).Some?
    requires Run(services, naming, disk, events + more).Some? && Undisturbed(more)
    requires ActiveAt(Run(services, naming, disk, events).value.lib, id, source)
    ensures var before, after := Run(services, naming, disk, events).value.lib, Run(services, naming, disk, events + more).value.lib;
            ActiveAt(after, id, source) && after.nodes[id] == before.nodes[id]
  {
    if more == [] {
      assert events + more == events;
    } else {
      var init, e := more[..|more| - 1], more[|more| - 1];
      assert (events + more)[..|events + more| - 1] == events + init && (events + more)[|events + more| - 1] == e;
      ActiveSourceIsUntouched(services, naming, disk, events, init, id, source);
      EveryRunKeepsIndex(services, naming, disk, events + init);
      ActiveSourceStep(services, naming, Run(services, naming, disk, events + init).value, e, id, source);
    }
  }

  // While a session is active, no single event touches the source of its node.
  lemma ActiveSourceStep(services: Services, naming: Naming, s: System, e: Event, id: NodeId, source: Source)
    requires ParserContract(services) && Consistent(services, s.lib) && Enabled(services, s, e) && !e.SetSession? && !e.Restart?
    requires ActiveAt(s.lib, id, source)
    ensures var next := Apply(services, naming, s, e).lib;
            ActiveAt(next, id, source) && next.nodes[id] == s.lib.nodes[id]
  {
    DistinctSources(services, s.lib);
    match e
    case Import(preview, name, a) => ImportKeepsNode(services, naming, s.lib, preview, name, a);
    case Commit(ticket, content, a) =>
      var (original, url) := s.tickets[ticket];
      if RefreshFault(services, s.lib, original, url, content, a) == None {
        RefreshReplaces(services, s.lib, original, url, content, a);
        RefreshKeepsOthersNode(services, s.lib, original, url, content, a, id);
        CommitEffect(services, s.lib, original, url, content, a);
      }
    case RemoveSource(gone, saved) =>
      if RemoveFault(s.lib, gone, saved) == None { RemoveDrops(s.lib, gone, saved); }
    case _ =>
  }
}
