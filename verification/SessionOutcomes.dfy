// What each section of the session machine means for its caller, without naming the section: when
// it goes on, what it reports, what it leaves (src-tauri/src/application.rs:1417-1967, 2327-3719).
module SessionOutcomes {
  import opened Text
  import opened RuntimeStatus
  import opened Session
  import opened SessionSafety
  import opened SessionContract

  // What holds whenever no section runs.
  ghost predicate Stable(s: State) { Safe(s) && Sound(s) }

  // The whole seconds until the next attempt, while one may come.
  ghost function AnnouncedRetry(s: State): Option<nat> {
    if s.intent.None? || s.intent.value.paused || s.active.Some? || s.recovery then None
    else if s.intent.value.next <= s.now then Some(0)
    else Some((s.intent.value.next - s.now) / 1000)
  }

  // Nothing runs and Windows is owed nothing.
  ghost predicate Rests(s: State) { s.active.None? && Owed(s.log) == 0 && Retained(s.log) == 0 }

  lemma StableRests(s: State)
    requires Safe(s) && s.active.None?
    ensures Rests(s)
  {
    SafeMeansOrder(s);
  }

  // The stage at which a start fails, in the order in which the services are asked.
  ghost function FirstFailure(mode: Mode, a: StartAnswers): Option<Stage> {
    if a.session.None? then Some(Random)
    else if a.prepared.Some? then a.prepared
    else if a.validated.Some? then a.validated
    else if a.launched.Some? then a.launched
    else if a.listening.Some? then a.listening
    else if a.proof.NoProof? then Some(a.proof.stage)
    else if a.owned.Some? then a.owned
    else if mode == SystemProxy && a.publish != Applied then Some(ProxyPublish)
    else if mode == SystemProxy && (a.ownership.None? || !a.ownership.value) then Some(ProxyOwnership)
    else None
  }

  // The engine was launched, and, in System Proxy mode, Windows may point at it.
  ghost predicate WasLaunched(a: StartAnswers) {
    a.session.Some? && a.prepared.None? && a.validated.None? && a.launched.None?
  }

  ghost predicate MayPointHere(a: StartAnswers) {
    WasLaunched(a) && a.listening.None? && a.proof.Latency? && a.owned.None? && a.publish != Unchanged
  }

  lemma ProveLeaves(s: State, node: nat, mode: Mode, a: StartAnswers)
    requires s.active.Some? && WasLaunched(a) && !s.active.value.requiresRestore
    ensures var next := ProveCore(s, node, mode, a).0;
            next.active.Some? && (next.active.value.requiresRestore <==> mode == SystemProxy && MayPointHere(a))
  {
    if a.proof.Latency? {
      VerifiedServes(s, node, a.ports, a.proof.ms);
      var verified := Verified(Proven(Proving(s, node), a.proof.ms), node, a.ports, a.proof.ms);
      TakeOverReady(verified, node, a.proof.ms, a);
    }
  }

  lemma StartLeaves(s: State, request: Request, mode: Mode, a: StartAnswers)
    requires s.active.None?
    ensures var next := StartCore(s, request, mode, a).0;
            && (next.active.Some? <==> WasLaunched(a))
            && (next.active.Some? ==> (next.active.value.requiresRestore <==> mode == SystemProxy && MayPointHere(a)))
  {
    if a.session.Some? {
      var checked := Preflight(s, request.node, mode, a.session.value, a).0;
      PreflightSession(s, request.node, mode, a.session.value, a);
      if WasLaunched(a) { ProveLeaves(Launched(checked, request, mode, a.session.value, a), request.node, mode, a); }
    }
  }

  lemma RollBackLocalLeaves(s: State, node: nat, stage: Stage, c: Cleanup)
    requires !s.recovery
    ensures var next := RollBackLocal(s, node, stage, c);
            && (next.active.Some? <==> s.active.Some? && c.stop.Some?)
            && (next.active.Some? ==> next.status.ports == Some(next.active.value.ports) && next.status.engine)
            && (next.recovery <==> next.active.Some? || !c.reconciled || stage == SessionRecovery)
  {
    var rolling := EnterRollBack(s, node, stage);
    assert rolling.active == s.active && !rolling.recovery;
    var stopped := ChildStopped(rolling, c.stop);
    assert stopped.active == s.active && Release(stopped).active.None? && !Release(stopped).recovery;
  }

  lemma EndRollBackLeaves(s: State, node: nat, stage: Stage, c: Cleanup)
    requires !s.recovery
    ensures var next := EndRollBack(s, node, stage, c);
            && (next.active.Some? <==> s.active.Some? && c.stop.Some?)
            && (next.recovery <==> next.active.Some? || !c.reconciled)
  {
    var stopped := ChildStopped(s, c.stop);
    assert stopped.active == s.active && Release(stopped).active.None? && !Release(stopped).recovery;
  }

  lemma RollBackProxyLeaves(s: State, node: nat, stage: Stage, c: Cleanup)
    requires !s.recovery
    ensures var next := RollBackProxy(s, node, stage, c);
            && (next.active.Some? <==>
                  s.active.Some? && ((s.active.value.requiresRestore && !RestoreOk(c.restore)) || c.stop.Some?))
            && (next.recovery <==> next.active.Some? || !c.reconciled)
  {
    var rolling := EnterRollBack(s, node, stage);
    assert rolling.active == s.active && !rolling.recovery;
    if s.active.Some? && s.active.value.requiresRestore {
      EndRollBackLeaves(ProxyRestored(rolling, c.restore), node, stage, c);
    } else {
      EndRollBackLeaves(rolling, node, stage, c);
    }
  }

  // The session is the one the services made, and the status shows its listeners and measurement.
  ghost predicate Serves(s: State, a: StartAnswers) {
    && s.active.Some? && a.session == Some(s.active.value.session) && s.active.value.generation == a.generation
    && s.active.value.ports == a.ports && s.active.value.failures == 0
    && s.status.session == a.session && s.status.ports == Some(a.ports) && s.status.engine
    && a.proof.Latency? && s.status.routeCheck == Some(a.proof.ms)
  }

  // The rows of the check that failed are shown failed.
  ghost predicate RowTells(s: State) {
    s.status.error.Some? ==>
      var p := s.status.proofs;
      match s.status.error.value
      case GenerateConfig => p.config.state == Failed
      case SessionStorage => p.config.state == Failed
      case ConfigCheck => p.config.state == Failed
      case StartEngine => p.process.state == Failed
      case EngineProcess => p.process.state == Failed
      case VerifyListeners =>
        p.http.state == Failed && p.socks.state == Failed && p.health.state == Failed && p.scope.state == Failed
      case ProveTraffic => p.outbound.state == Failed
      case ProxyPublish => p.proxy.state == Failed
      case ProxyOwnership => p.proxy.state == Failed
      case _ => true
  }

  lemma TakeOverServes(s: State, node: nat, ms: nat, a: StartAnswers)
    requires s.active.Some? && TakeOverProxy(s, node, ms, a).1.None?
    ensures var next := TakeOverProxy(s, node, ms, a).0;
            && next.active == Some(s.active.value.(requiresRestore := true))
            && next.status.session == s.status.session && next.status.ports == s.status.ports
            && next.status.engine == s.status.engine && next.status.routeCheck == Some(ms)
  {
    var applied := AfterPublish(Applying(s, node), a.publish);
    assert applied.active == Some(s.active.value.(requiresRestore := true));
    assert applied.status.session == s.status.session && applied.status.ports == s.status.ports
           && applied.status.engine == s.status.engine;
  }

  lemma VerifiedServes(s: State, node: nat, ports: Ports, ms: nat)
    requires s.active.Some?
    ensures var next := Verified(Proven(Proving(s, node), ms), node, ports, ms);
            && next.active == s.active && next.status.session == s.status.session && next.status.ports == Some(ports)
            && next.status.engine && next.status.routeCheck == Some(ms)
  {
    assert Proven(Proving(s, node), ms).status.session == s.status.session;
  }

  // Everything `Serves` says of the status and the session but how the session was launched.
  lemma ProveServes(s: State, node: nat, mode: Mode, a: StartAnswers)
    requires s.active.Some? && ProveCore(s, node, mode, a).1.None?
    ensures var next := ProveCore(s, node, mode, a).0;
            && next.active == Some(s.active.value.(requiresRestore := next.active.value.requiresRestore))
            && next.status.session == s.status.session && next.status.ports == Some(a.ports) && next.status.engine
            && a.proof.Latency? && next.status.routeCheck == Some(a.proof.ms)
  {
    VerifiedServes(s, node, a.ports, a.proof.ms);
    var verified := Verified(Proven(Proving(s, node), a.proof.ms), node, a.ports, a.proof.ms);
    if mode == SystemProxy { TakeOverServes(verified, node, a.proof.ms, a); } else { ReadyServes(verified, node); }
  }

  lemma ReadyServes(s: State, node: nat)
    ensures var next := Update(s, LocalProxyReady, Some(node), None);
            && next.active == s.active && next.status.session == s.status.session && next.status.ports == s.status.ports
            && next.status.engine == s.status.engine && next.status.routeCheck == s.status.routeCheck
  {}

  lemma LaunchedServes(s: State, request: Request, mode: Mode, session: nat, a: StartAnswers)
    requires s.status.session == Some(session)
    ensures var next := Launched(s, request, mode, session, a);
            && next.active == Some(Active(session, a.generation, request.node, request.routing, mode, false, a.ports, 0, s.now))
            && next.status.session == Some(session)
  {}

  lemma StartServes(s: State, request: Request, mode: Mode, a: StartAnswers)
    requires StartCore(s, request, mode, a).1.None?
    ensures Serves(StartCore(s, request, mode, a).0, a)
  {
    var checked := Preflight(s, request.node, mode, a.session.value, a).0;
    PreflightSession(s, request.node, mode, a.session.value, a);
    LaunchedServes(checked, request, mode, a.session.value, a);
    ProveServes(Launched(checked, request, mode, a.session.value, a), request.node, mode, a);
  }

  lemma PreflightSession(s: State, node: nat, mode: Mode, session: nat, a: StartAnswers)
    ensures Preflight(s, node, mode, session, a).0.status.session == Some(session)
  {}

  lemma ReleasedTells(s: State, node: nat, stage: Stage, c: Cleanup)
    requires c.stop.None? && c.reconciled
    ensures EndRollBack(s, node, stage, c).status.proofs == s.status.proofs
    ensures EndRollBackLocal(s, node, stage, c).status.proofs == s.status.proofs
  {
    assert Release(ChildStopped(s, c.stop)).status.proofs == s.status.proofs;
  }

  lemma FailedTells(s: State, stage: Stage)
    requires s.status.error == Some(stage) && exists p :: s.status.proofs == FailedProofs(p, stage)
    ensures RowTells(s)
  {}

  lemma RolledBackTells(s: State, node: nat, stage: Stage, c: Cleanup)
    requires c.stop.None? && c.reconciled && RollBackLocal(s, node, stage, c).status.error == Some(stage)
    ensures RowTells(RollBackLocal(s, node, stage, c))
  {
    var rolling := EnterRollBack(s, node, stage);
    assert rolling.status.proofs == FailedProofs(s.status.proofs, stage);
    ReleasedTells(rolling, node, stage, c);
    FailedTells(RollBackLocal(s, node, stage, c), stage);
  }

  lemma RolledBackProxyTells(s: State, node: nat, stage: Stage, c: Cleanup)
    requires c.stop.None? && c.reconciled && RestoreOk(c.restore) && RollBackProxy(s, node, stage, c).status.error == Some(stage)
    ensures RowTells(RollBackProxy(s, node, stage, c))
  {
    var rolling := EnterRollBack(s, node, stage);
    assert rolling.status.proofs == FailedProofs(s.status.proofs, stage) && rolling.active == s.active;
    if s.active.Some? && s.active.value.requiresRestore {
      assert ProxyRestored(rolling, c.restore).status.proofs == rolling.status.proofs;
      ReleasedTells(ProxyRestored(rolling, c.restore), node, stage, c);
    } else {
      ReleasedTells(rolling, node, stage, c);
    }
    FailedTells(RollBackProxy(s, node, stage, c), stage);
  }

  lemma ProveCoreFails(s: State, node: nat, mode: Mode, a: StartAnswers)
    requires s.active.Some? && a.session.Some? && a.prepared.None? && a.validated.None? && a.launched.None?
    ensures ProveCore(s, node, mode, a).1 == FirstFailure(mode, a)
  {}

  lemma StartFails(s: State, request: Request, mode: Mode, a: StartAnswers)
    ensures StartCore(s, request, mode, a).1 == FirstFailure(mode, a)
  {
    if a.session.Some? && a.prepared.None? && a.validated.None? && a.launched.None? {
      var checked := Preflight(s, request.node, mode, a.session.value, a).0;
      ProveCoreFails(Launched(checked, request, mode, a.session.value, a), request.node, mode, a);
    }
  }

  lemma StartKeepsRecovery(s: State, request: Request, mode: Mode, a: StartAnswers)
    ensures StartCore(s, request, mode, a).0.recovery == s.recovery
  {
    if a.session.Some? {
      var checked := Preflight(s, request.node, mode, a.session.value, a).0;
      assert checked.recovery == s.recovery;
      ProveKeepsRecovery(Launched(checked, request, mode, a.session.value, a), request.node, mode, a);
    }
  }

  lemma ProveKeepsRecovery(s: State, node: nat, mode: Mode, a: StartAnswers)
    requires s.active.Some?
    ensures ProveCore(s, node, mode, a).0.recovery == s.recovery
  {}

  // What a failed start leaves when its cleanup succeeds.
  lemma RollBackLocalCases(s: State, node: nat, stage: Stage, c: Cleanup)
    requires c.stop.None? && c.reconciled
    ensures var next := RollBackLocal(s, node, stage, c);
            && next.active.None? && next.status.error == Some(stage)
            && (!s.recovery && stage != SessionRecovery ==> !next.recovery && next.status.phase == DisconnectedWithError)
            && (stage == SessionRecovery ==> next.recovery)
  {
    var rolling := EnterRollBack(s, node, stage);
    assert rolling.recovery == s.recovery;
    assert Release(ChildStopped(rolling, c.stop)).active.None?;
  }

  lemma EndRollBackCases(s: State, node: nat, stage: Stage, c: Cleanup)
    requires c.stop.None? && c.reconciled
    ensures var next := EndRollBack(s, node, stage, c);
            && next.active.None? && next.recovery == s.recovery
            && next.status.phase == DisconnectedWithError && next.status.error == Some(stage)
  {
    assert Release(ChildStopped(s, c.stop)).active.None?;
  }

  lemma RollBackProxyCases(s: State, node: nat, stage: Stage, c: Cleanup)
    requires (c.restore == Restored || c.restore == ForeignPreserved) && c.stop.None? && c.reconciled
    ensures var next := RollBackProxy(s, node, stage, c);
            && next.active.None? && next.recovery == s.recovery
            && next.status.phase == DisconnectedWithError && next.status.error == Some(stage)
  {
    var rolling := EnterRollBack(s, node, stage);
    assert rolling.recovery == s.recovery && rolling.active == s.active;
    if s.active.Some? && s.active.value.requiresRestore {
      EndRollBackCases(ProxyRestored(rolling, c.restore), node, stage, c);
    } else {
      EndRollBackCases(rolling, node, stage, c);
    }
  }

  lemma LocalAttemptCases(s: State, request: Request, a: StartAnswers, c: Cleanup)
    ensures var next := LocalAttempt(s, request, a, c);
            var failure := FirstFailure(LocalOnly, a);
            && (failure.None? ==> next.recovery == s.recovery && Serves(next, a))
            && (failure.Some? && c.stop.None? && c.reconciled ==>
                  && next.active.None? && next.status.error == failure && RowTells(next)
                  && (!s.recovery && failure != Some(SessionRecovery) ==>
                        !next.recovery && next.status.phase == DisconnectedWithError)
                  && (failure == Some(SessionRecovery) ==> next.recovery))
  {
    StartFails(s, request, LocalOnly, a);
    StartKeepsRecovery(s, request, LocalOnly, a);
    var (started, failure) := StartCore(s, request, LocalOnly, a);
    if failure.None? {
      StartServes(s, request, LocalOnly, a);
    } else if c.stop.None? && c.reconciled {
      RollBackLocalCases(started, request.node, failure.value, c);
      RolledBackTells(started, request.node, failure.value, c);
    }
  }

  lemma ProxyAttemptCases(s: State, request: Request, known: bool, sameIdentity: bool, a: StartAnswers, c: Cleanup)
    ensures var (next, attempt) := ProxyAttempt(s, request, known, sameIdentity, a, c);
            var asked := s.active.None? && known && !s.shuttingDown && !s.recovery;
            && (attempt == Ended(true) <==> asked && FirstFailure(SystemProxy, a).None?)
            && (attempt == Ended(true) ==> Serves(next, a))
            && (asked && attempt == Ended(false)
                && (c.restore == Restored || c.restore == ForeignPreserved) && c.stop.None? && c.reconciled ==>
                  && next.active.None? && !next.recovery
                  && next.status.phase == DisconnectedWithError && next.status.error == FirstFailure(SystemProxy, a)
                  && RowTells(next))
  {
    StartFails(s, request, SystemProxy, a);
    StartKeepsRecovery(s, request, SystemProxy, a);
    var (started, failure) := StartCore(s, request, SystemProxy, a);
    if failure.None? {
      StartServes(s, request, SystemProxy, a);
    } else if (c.restore == Restored || c.restore == ForeignPreserved) && c.stop.None? && c.reconciled {
      RollBackProxyCases(started, request.node, failure.value, c);
      RolledBackProxyTells(started, request.node, failure.value, c);
    }
  }

  // When a failed start leaves a session behind, and when it requires recovery.
  lemma LocalAttemptLeaves(s: State, request: Request, a: StartAnswers, c: Cleanup)
    requires s.active.None? && !s.recovery && FirstFailure(LocalOnly, a).Some?
    ensures var next := LocalAttempt(s, request, a, c);
            && (next.active.Some? <==> WasLaunched(a) && c.stop.Some?)
            && (next.active.Some? ==> next.status.ports == Some(next.active.value.ports) && next.status.engine)
            && (next.recovery <==> next.active.Some? || !c.reconciled || FirstFailure(LocalOnly, a) == Some(SessionRecovery))
  {
    StartFails(s, request, LocalOnly, a);
    StartKeepsRecovery(s, request, LocalOnly, a);
    StartLeaves(s, request, LocalOnly, a);
    var (started, failure) := StartCore(s, request, LocalOnly, a);
    RollBackLocalLeaves(started, request.node, failure.value, c);
  }

  lemma ProxyAttemptLeaves(s: State, request: Request, sameIdentity: bool, a: StartAnswers, c: Cleanup)
    requires s.active.None? && !s.recovery && !s.shuttingDown && FirstFailure(SystemProxy, a).Some?
    ensures var next := ProxyAttempt(s, request, true, sameIdentity, a, c).0;
            && (next.active.Some? <==> (MayPointHere(a) && !RestoreOk(c.restore)) || (WasLaunched(a) && c.stop.Some?))
            && (next.recovery <==> next.active.Some? || !c.reconciled)
  {
    StartFails(s, request, SystemProxy, a);
    StartKeepsRecovery(s, request, SystemProxy, a);
    StartLeaves(s, request, SystemProxy, a);
    var (started, failure) := StartCore(s, request, SystemProxy, a);
    RollBackProxyLeaves(started, request.node, failure.value, c);
  }

  lemma LocalAttemptMeans(s: State, request: Request, a: StartAnswers, c: Cleanup)
    requires Stable(s) && s.active.None? && GoodServices(a)
    ensures var next := LocalAttempt(s, request, a, c);
            && Stable(next) && (next.active.None? ==> Rests(next))
            && if FirstFailure(LocalOnly, a).None? then RunsReady(next, LocalOnly, request)
               else next.active.Some? ==> next.recovery
  {
    LocalAttemptSafe(s, request, a, c);
    LocalAttemptSound(s, request, a, c);
    if LocalAttempt(s, request, a, c).active.None? { StableRests(LocalAttempt(s, request, a, c)); }
    StartFails(s, request, LocalOnly, a);
    var (started, failure) := StartCore(s, request, LocalOnly, a);
    if failure.None? {
      StartCoreReady(s, request, LocalOnly, a);
    } else {
      StartCoreSafe(s, request, LocalOnly, a);
      RollBackLocalSafe(started, request.node, failure.value, c);
    }
  }

  lemma StartLocalMeans(s: State, request: Request, known: bool, sameIdentity: bool, a: StartAnswers, c: Cleanup)
    requires Stable(s) && GoodServices(a)
    ensures var (next, verify) := StartLocal(s, request, known, sameIdentity, a, c);
            && Stable(next)
            && (s.active.None? && known && !s.shuttingDown && !s.recovery ==>
                  && next == LocalAttempt(s, request, a, c) && (next.active.None? ==> Rests(next))
                  && if FirstFailure(LocalOnly, a).None? then RunsReady(next, LocalOnly, request)
                     else next.active.Some? ==> next.recovery)
  {
    if s.active.None? { LocalAttemptMeans(s, request, a, c); }
  }

  lemma FinishLocalMeans(s: State, request: Request, sameIdentity: bool, proof: Option<nat>, live: bool, stop: Option<Stage>,
                         reconciled: bool, a: StartAnswers, c: Cleanup)
    requires Stable(s) && GoodServices(a) && Short(proof)
    requires s.active.Some? ==> Exact(s, LocalOnly, request) && NearlyProven(s.status)
    ensures var next := FinishLocal(s, request, sameIdentity, proof, live, stop, reconciled, a, c);
            var misreports := s.active.Some? && sameIdentity && proof.Some? && live && s.status.proofs.process.state != Passed;
            Safe(next) && (AllAccepted(next.log) <==> !misreports) && (!misreports ==> Stable(next))
  {
    FinishLocalSafe(s, request, sameIdentity, proof, live, stop, reconciled, a, c);
    FinishLocalIff(System(s, LocalVerifying(request), Idle, 0), sameIdentity, proof, live, stop, reconciled, a, c);
  }

  lemma ProxyAttemptMeans(s: State, request: Request, known: bool, sameIdentity: bool, a: StartAnswers, c: Cleanup)
    requires Stable(s) && GoodServices(a)
    ensures var (next, attempt) := ProxyAttempt(s, request, known, sameIdentity, a, c);
            && Stable(next)
            && (attempt.Verify? ==> next == s && Exact(s, SystemProxy, request) && sameIdentity && !s.recovery)
            && (attempt == Ended(true) ==> RunsReady(next, SystemProxy, request))
            && (attempt == Ended(false) && s.active.None? ==> Rests(next) || next.recovery)
  {
    ProxyAttemptSafe(s, request, known, sameIdentity, a, c);
    ProxyAttemptSound(s, request, known, sameIdentity, a, c);
    if s.active.None? { ProxyAttemptFromRest(s, request, known, sameIdentity, a, c); }
  }

  lemma ProxyAttemptFromRest(s: State, request: Request, known: bool, sameIdentity: bool, a: StartAnswers, c: Cleanup)
    requires Safe(s) && s.active.None?
    ensures var (next, attempt) := ProxyAttempt(s, request, known, sameIdentity, a, c);
            && !attempt.Verify?
            && (attempt == Ended(true) ==> RunsReady(next, SystemProxy, request))
            && (attempt == Ended(false) ==> Rests(next) || next.recovery)
  {
    StableRests(s);
    var (started, failure) := StartCore(s, request, SystemProxy, a);
    if failure.None? {
      StartCoreReady(s, request, SystemProxy, a);
    } else {
      StartCoreSafe(s, request, SystemProxy, a);
      RollBackProxySafe(started, request.node, failure.value, c);
      if RollBackProxy(started, request.node, failure.value, c).active.None? {
        StableRests(RollBackProxy(started, request.node, failure.value, c));
      }
    }
  }

  lemma FinishProxyMeans(s: State, request: Request, proof: Option<nat>, live: bool, owned: bool)
    requires Stable(s) && Short(proof)
    requires s.active.Some? ==> Exact(s, SystemProxy, request) && NearlyProven(s.status)
    ensures var (next, ok) := FinishProxy(s, request, proof, live, owned);
            var misreports := s.active.Some?
              && if ok then s.status.proofs.process.state != Passed else !owned && s.status.proofs.proxy.state != Failed;
            && Safe(next) && (ok <==> s.active.Some? && proof.Some? && live && owned)
            && (AllAccepted(next.log) <==> !misreports) && (!misreports ==> Stable(next))
  {
    FinishProxySafe(s, request, proof, live, owned);
    FinishProxyIff(System(s, ProxyVerifying(request), Idle, 0), proof, live, owned);
  }

  lemma FinishProxyCases(s: State, request: Request, proof: Option<nat>, live: bool, owned: bool)
    requires s.active.Some? ==> Exact(s, SystemProxy, request)
    ensures var (next, ok) := FinishProxy(s, request, proof, live, owned);
            && next.active == s.active && (s.active.None? ==> next == s)
            && (s.active.Some? ==>
                  && next.status.phase == (if ok then SystemProxyReady else if owned then Degraded else BlockedByConflict)
                  && next.status.error == (if ok then None else if owned then Some(ProveTraffic) else Some(ProxyOwnership))
                  && next.status.routeCheck == (if ok then proof else if owned then s.status.routeCheck else None))
  {}

  // A session that cannot be verified is replaced: only a teardown that fails stands in the way.
  lemma ReplaceLocalCases(s: State, request: Request, stop: Option<Stage>, reconciled: bool, a: StartAnswers, c: Cleanup)
    ensures var next := ReplaceLocal(s, request, stop, reconciled, a, c);
            if s.active.Some? && stop.Some? then next.active == s.active && next.recovery && next.status.error == stop
            else if !reconciled then next.active.None? && next.recovery && next.status.error == Some(SessionRecovery)
            else FirstFailure(LocalOnly, a).None? ==> RunsReady(next, LocalOnly, request)
  {
    var failed := WithProofs(s, s.status.proofs.(outbound := Plain(Failed), scope := Plain(Failed)));
    var stopped := ChildStopped(Update(failed, RollingBack, Some(request.node), None), stop);
    assert stopped.active == s.active && Release(stopped).active.None?;
    StartFails(Release(stopped), request, LocalOnly, a);
    if FirstFailure(LocalOnly, a).None? { StartCoreReady(Release(stopped), request, LocalOnly, a); }
  }

  lemma FinishLocalCases(s: State, request: Request, sameIdentity: bool, proof: Option<nat>, live: bool, stop: Option<Stage>,
                         reconciled: bool, a: StartAnswers, c: Cleanup)
    requires s.active.Some? ==> Exact(s, LocalOnly, request)
    ensures var next := FinishLocal(s, request, sameIdentity, proof, live, stop, reconciled, a, c);
            && (proof.Some? && !(s.active.Some? && sameIdentity) ==> next == s)
            && (proof.Some? && s.active.Some? && sameIdentity && live ==>
                  && next.active == s.active && next.status.phase == LocalProxyReady
                  && next.status.error.None? && next.status.routeCheck == proof)
            && (proof.None? || (s.active.Some? && sameIdentity && !live) ==>
                  if s.active.Some? && stop.Some? then next.active == s.active && next.recovery && next.status.error == stop
                  else if !reconciled then next.active.None? && next.recovery && next.status.error == Some(SessionRecovery)
                  else FirstFailure(LocalOnly, a).None? ==> RunsReady(next, LocalOnly, request))
  {
    ReplaceLocalCases(s, request, stop, reconciled, a, c);
  }

  lemma StopMeans(s: State, terminal: Option<Stage>, c: Cleanup)
    requires Stable(s)
    ensures var (next, ok) := StopActive(s, terminal, c);
            && Stable(next) && (ok ==> Rests(next))
            && (next.active.Some? ==> next.recovery && KeptByStop(s, next)) && (next.active.None? ==> Rests(next))
  {
    StopActiveSafe(s, terminal, c);
    StopActiveSound(s, terminal, c);
    SafeMeansOrder(StopActive(s, terminal, c).0);
  }

  // The cleanup of a stop completes: Windows is restored as owed, the core stopped, the session's
  // files reconciled.
  ghost predicate StopCompletes(s: State, c: Cleanup) {
    s.active.None? || ((s.active.value.requiresRestore ==> c.restore == Restored) && c.stop.None? && c.reconciled)
  }

  // What a completed cleanup leaves, and what a foreign Windows proxy does.
  ghost predicate Ends(s: State, terminal: Option<Stage>, next: State, ok: bool) {
    && (ok ==>
          && next.active.None? && next.intent == s.intent
          && next.status.phase == (if terminal.Some? then DisconnectedWithError else Disconnected) && next.status.error == terminal)
    && (!ok && !next.recovery ==>
          && next.active.None? && next.status.phase == DisconnectedWithError && next.status.error == Some(ProxyOwnership)
          && next.status.session.None? && (next.intent.Some? ==> next.intent.value.paused))
  }

  // The ownership row tells what the restoration found.
  ghost predicate RestorationShown(s: State, c: Cleanup, next: State) {
    s.active.Some? && s.active.value.requiresRestore && (c.restore == Restored || c.restore == ForeignPreserved) ==>
      next.status.proofs.proxy.state == if c.restore == Restored then Passed else Failed
  }

  // When a stop completes, when it requires recovery, and what it shows.
  lemma StopCases(s: State, terminal: Option<Stage>, c: Cleanup)
    ensures var (next, ok) := StopActive(s, terminal, c);
            && (ok <==> StopCompletes(s, c))
            && (s.active.None? && s.recovery ==> next == s)
            && (s.active.Some? ==> Ends(s, terminal, next, ok))
            && (s.active.None? && !s.recovery ==> Ends(s, None, next, ok))
            && (next.recovery <==>
                  if s.active.None? then s.recovery
                  else (s.active.value.requiresRestore && c.restore != Restored && c.restore != ForeignPreserved)
                       || c.stop.Some? || !c.reconciled)
            && (!ok || terminal.Some? ==> RestorationShown(s, c, next))
  {
    if s.active.Some? {
      RestoreFirstMeans(s, c);
      var owed := s.active.value.requiresRestore;
      if !owed || RestoreOk(c.restore) {
        StopRestoredCases(RestoreFirst(s, c), s.status.node, owed && c.restore == ForeignPreserved, terminal, c);
      }
    }
  }

  lemma RestoreFirstMeans(s: State, c: Cleanup)
    requires s.active.Some?
    ensures var next := RestoreFirst(s, c);
            next.active.Some? && next.intent == s.intent && next.recovery == s.recovery && RestorationShown(s, c, next)
  {}

  lemma StopRestoredCases(s: State, node: Option<nat>, conflict: bool, terminal: Option<Stage>, c: Cleanup)
    requires s.active.Some?
    ensures var (next, ok) := StopRestored(s, node, conflict, terminal, c);
            && (ok <==> c.stop.None? && c.reconciled && !conflict) && Ends(s, terminal, next, ok)
            && (next.recovery <==> c.stop.Some? || !c.reconciled)
            && (!ok || terminal.Some? ==> next.status.proofs == s.status.proofs)
  {
    var stopped := ChildStopped(Update(s, StoppingCore, node, None), c.stop);
    assert stopped.active.Some? && stopped.intent == s.intent && stopped.status.proofs == s.status.proofs;
    if c.stop.None? {
      var released := Release(stopped);
      assert released.active.None? && released.intent == s.intent && released.status.proofs == s.status.proofs;
      CleanupCases(released, node, conflict, terminal, c.reconciled);
    }
  }

  lemma CleanupCases(s: State, node: Option<nat>, conflict: bool, terminal: Option<Stage>, reconciled: bool)
    requires s.active.None?
    ensures var (next, ok) := AfterCleanup(s, node, conflict, terminal, reconciled);
            && (ok <==> reconciled && !conflict) && (next.recovery <==> !reconciled) && Ends(s, terminal, next, ok)
            && (!ok || terminal.Some? ==> next.status.proofs == s.status.proofs)
  {}

  // A session whose process is lost ends with that error once its cleanup completes.
  lemma LossCases(s: State, proofs: Proofs, stage: Stage, c: Cleanup)
    requires s.active.Some? && StopCompletes(s, c)
    ensures var next := StopActive(WithProofs(s, proofs), Some(stage), c).0;
            && next.active.None? && !next.recovery && next.intent == s.intent
            && next.status.phase == DisconnectedWithError && next.status.error == Some(stage)
  {
    StopCases(WithProofs(s, proofs), Some(stage), c);
  }

  lemma LostRests(s: State, proofs: Proofs, stage: Stage, c: Cleanup)
    requires Safe(s) && s.active.Some? && StopCompletes(s, c)
    ensures Rests(StopActive(WithProofs(s, proofs), Some(stage), c).0)
  {
    LossCases(s, proofs, stage, c);
    StopActiveSafe(WithProofs(s, proofs), Some(stage), c);
    SafeMeansOrder(StopActive(WithProofs(s, proofs), Some(stage), c).0);
  }

  lemma FinishRecoveryMeans(s: State, sessions: Option<Stage>, journalClean: bool)
    requires Stable(s) && s.active.None?
    ensures var next := FinishRecovery(s, sessions, journalClean);
            && Stable(next) && (next.recovery <==> sessions.Some? || !journalClean)
            && next.status.phase == if next.recovery then RecoveryRequired else Disconnected
  {
    RecoverySafe(s, None, if sessions.Some? then sessions.value else ProxyRestore);
    ResetSafe(s.(recovery := false));
    FinishRecoverySound(s, sessions, journalClean);
  }

  // A completed teardown of a session leaves no recovery required.
  lemma StopClearsRecovery(s: State, c: Cleanup)
    requires s.active.Some? && StopActive(s, None, c).1
    ensures !StopActive(s, None, c).0.recovery
  {}

  lemma ReconnectMeans(s: State, c: Cleanup)
    requires Stable(s)
    ensures var (next, request) := ReconnectTick(s, c);
            && Stable(next)
            && (request.Some? ==> Rests(next) && !next.recovery && s.intent.Some? && !s.intent.value.paused
                                  && s.intent.value.next <= s.now && request == Some(s.intent.value.request))
  {
    if s.active.None? {
      StableRests(s);
    } else {
      StopMeans(s, None, c);
      if StopActive(s, None, c).1 { StopClearsRecovery(s, c); }
    }
  }

  // When the tick reconnects, and which sessions it leaves alone.
  lemma ReconnectIff(s: State, c: Cleanup)
    ensures var (next, request) := ReconnectTick(s, c);
            && (request.Some? <==> Reconnects(s, c))
            && (s.active.Some? && (s.active.value.mode != SystemProxy || s.active.value.failures < 6) ==>
                  request.None? && next == s)
  {
    StopCases(s, None, c);
  }

  // A session whose process is lost survives its teardown only to wait for recovery.
  lemma LostAwaitsRecovery(s: State, stage: Stage, c: Cleanup)
    requires Safe(s)
    ensures ProcessLost(s, stage, c).active.Some? ==> ProcessLost(s, stage, c).recovery
  {
    StopActiveSafe(WithProofs(s, s.status.proofs.(process := Plain(Failed))), Some(stage), c);
  }

  // When a probe is due, and what a Windows proxy that is not RouteDeck's does to the status.
  lemma MonitorBeginCases(s: State, live: Liveness, owned: Option<bool>, c: Cleanup)
    ensures var (next, snapshot) := MonitorBegin(s, live, owned, c);
            var observed := !s.recovery && s.status.phase != RecoveryRequired && s.active.Some? && live == Alive;
            && (snapshot.Some? <==>
                  observed && (s.active.value.mode == SystemProxy ==> owned == Some(true)) && s.active.value.lastProbe + 10_000 <= s.now)
            && (snapshot.Some? ==>
                  live == Alive && Current(next, snapshot.value) && next.active == Some(s.active.value.(lastProbe := s.now)))
            && (observed && s.active.value.mode == SystemProxy && owned != Some(true) ==>
                  && next.active == s.active && next.status.error == Some(ProxyOwnership) && next.status.proofs.proxy.state == Failed
                  && next.status.steady.None? && next.status.routeCheck == (if owned.Some? then None else s.status.routeCheck)
                  && next.status.phase == if owned.Some? then BlockedByConflict else Degraded)
  {}

  lemma MonitorBeginMeans(s: State, live: Liveness, owned: Option<bool>, c: Cleanup)
    requires Stable(s)
    ensures var (next, snapshot) := MonitorBegin(s, live, owned, c);
            && Stable(next) && KeptByMonitor(s, next)
            && (live != Alive && next.active.Some? ==> next.recovery)
            && (snapshot.Some? ==>
                  live == Alive && Current(next, snapshot.value) && Measures(next, snapshot.value))
  {
    MonitorBeginSafe(s, live, owned, c);
    MonitorBeginSound(s, live, owned, c);
    MonitorBeginCases(s, live, owned, c);
    if live != Alive { LostAwaitsRecovery(s, LossStage(live), c); }
  }

  // What a probe of the running session does to its count of failures and to the status.
  lemma ResultCases(s: State, snapshot: Snapshot, live: Liveness, listeners: Option<Stage>, proof: Probe, c: Cleanup)
    requires Current(s, snapshot) && !s.recovery && s.status.phase != RecoveryRequired && live == Alive && listeners.None?
    ensures var next := MonitorResult(s, snapshot, live, listeners, proof, c).0;
            match proof
            case Latency(ms) =>
              && next.active == Some(s.active.value.(failures := 0)) && next.status.error.None? && next.status.routeCheck == Some(ms)
              && next.status.phase == ReadyPhase(snapshot.mode)
              && next.status.steady == (if snapshot.mode != LocalOnly && (s.status.phase == SystemProxyReady || s.status.phase == TunReady)
                                        then s.status.steady else None)
            case NoProof(stage) =>
              var failures := if s.active.value.failures >= 255 then 255 else s.active.value.failures + 1;
              && next.active == Some(s.active.value.(failures := failures)) && next.status.steady.None?
              && if failures < 2 then
                   && next.status.phase == s.status.phase && next.status.error == s.status.error
                   && next.status.revision == s.status.revision + if s.status.steady.Some? then 1 else 0
                 else
                   && next.status.phase == Degraded && next.status.error == Some(stage)
                   && next.status.routeCheck.None? && next.status.proofs.outbound.state == Failed
  {}

  lemma MonitorResultMeans(s: State, snapshot: Snapshot, live: Liveness, listeners: Option<Stage>, proof: Probe, c: Cleanup)
    requires Stable(s) && Measures(s, snapshot) && ShortProbe(proof)
    ensures var (next, warm) := MonitorResult(s, snapshot, live, listeners, proof, c);
            && Stable(next) && KeptByMonitor(s, next)
            && (!Current(s, snapshot) ==> !warm && next == s)
            && (warm ==> Current(next, snapshot) && snapshot.mode == SystemProxy && next.status.phase == SystemProxyReady)
  {
    MonitorResultSafe(s, snapshot, live, listeners, proof, c);
    MonitorResultSound(s, snapshot, live, listeners, proof, c);
    if Current(s, snapshot) && proof.Latency? { ProbePassedSafe(s, snapshot, proof.ms); }
  }

  lemma MonitorWarmMeans(s: State, snapshot: Snapshot, live: Liveness, latency: Option<nat>, c: Cleanup)
    requires Stable(s) && Measures(s, snapshot) && Short(latency)
    ensures var next := MonitorWarm(s, snapshot, live, latency, c);
            && Stable(next) && KeptByMonitor(s, next)
            && (!Current(s, snapshot) || s.status.error.Some? ==> next == s)
            && (live == Alive && next != s ==> next.status.steady == latency && next.status.phase == SystemProxyReady)
            && (Current(s, snapshot) && !s.recovery && s.status.phase == SystemProxyReady && live == Alive ==>
                  next.status == s.status.(steady := latency, revision := s.status.revision + 1))
  {
    MonitorWarmSafe(s, snapshot, live, latency, c);
    MonitorWarmSound(s, snapshot, live, latency, c);
    if s.active.Some? && KeepsSteady(s.status.phase) { NotTun(s); }
  }

  // ---- Where a run goes on ----------------------------------------------

  // Which command holds the operation lock after a step, and where it is.
  lemma LockAfter(y: System, e: Step)
    requires Enabled(y, e)
    ensures var s := y.state;
            Apply(y, e).op ==
            match e
            case CallLocal(request, known, sameIdentity, _, _) =>
              if known && !s.shuttingDown && !s.recovery && sameIdentity && s.active.Some? && s.active.value.mode == LocalOnly
                 && s.active.value.node == request.node && s.active.value.routing == request.routing
              then LocalVerifying(request) else Free
            case CallProxy(request, valid, known) =>
              if valid && known && !s.shuttingDown && !s.recovery && s.status.phase != BlockedByConflict then ProxyStarting(request)
              else Free
            case ProxyStart(known, sameIdentity, a, _) =>
              var request := y.op.request;
              if !s.shuttingDown && !s.recovery && sameIdentity && s.active.Some? && s.active.value.mode == SystemProxy
                 && s.active.value.node == request.node && s.active.value.routing == request.routing
              then ProxyVerifying(request)
              else Finishing(s.active.None? && known && !s.shuttingDown && !s.recovery && FirstFailure(SystemProxy, a).None?)
            case ProxyChecked(proof, live, owned) =>
              Finishing(proof.Some? && live && owned && Exact(s, SystemProxy, y.op.request))
            case CallRetry(_) => if s.recovery && s.active.None? then Recovering else Free
            case Reconnect(c) => if Reconnects(s, c) then ProxyStarting(s.intent.value.request) else Free
            case LocalChecked(_, _, _, _, _, _, _) => Free
            case AttemptEnds => Free
            case RetryEnds(_, _) => Free
            case _ => y.op
  {
    match e
    case ProxyStart(known, sameIdentity, a, c) => ProxyAttemptCases(y.state, y.op.request, known, sameIdentity, a, c);
    case Reconnect(c) =>
      ReconnectIff(y.state, c);
      if ReconnectTick(y.state, c).1.Some? { PickedIsWanted(y.state, c); }
    case _ =>
  }

  ghost predicate Reconnects(s: State, c: Cleanup) {
    && s.intent.Some? && !s.intent.value.paused && s.intent.value.next <= s.now
    && !s.recovery && !s.shuttingDown && s.status.phase != BlockedByConflict
    && (s.active.None? || (s.active.value.mode == SystemProxy && s.active.value.failures >= 6 && StopCompletes(s, c)))
  }

  lemma PickedIsWanted(s: State, c: Cleanup)
    requires ReconnectTick(s, c).1.Some?
    ensures s.intent.Some? && ReconnectTick(s, c).1 == Some(s.intent.value.request)
  {}

  // What the end of an attempt, of a stop and of a recovery, a shutdown and time do.
  lemma ScheduleAfter(y: System, e: Step)
    requires Enabled(y, e)
    ensures e.AttemptEnds? && y.state.intent.Some? ==>
              var before, after := y.state.intent.value, Apply(y, e).state.intent;
              && after.Some? && after.value.request == before.request
              && after.value.failures == (if y.op.ok then 0 else before.failures + 1)
              && after.value.next == y.state.now + (match after.value.failures
                   case 0 => 2_000 case 1 => 4_000 case 2 => 8_000 case 3 => 16_000 case 4 => 32_000 case _ => 60_000)
    ensures e.SetShutdown? ==> Apply(y, e).state == y.state.(shuttingDown := e.on)
    ensures e.Advance? ==> Apply(y, e).state == y.state.(now := y.state.now + e.ms)
    ensures e.RetryEnds? ==> (Apply(y, e).state.recovery <==> e.sessions.Some? || !e.journalClean)
    ensures e.StopRuns? || (e.CallRetry? && y.state.recovery) ==> StopCompletes(y.state, e.c) ==> Apply(y, e).state.active.None?
  {
    if e.StopRuns? || e.CallRetry? { StopCases(y.state, None, e.c); }
  }

  // Where the monitor is after a step, and how many stops wait.
  lemma MonitorAfter(y: System, e: Step)
    requires Enabled(y, e)
    ensures var s := y.state;
            Apply(y, e).monitor ==
            match e
            case MonitorBegins(alive, ownership, _) =>
              if !s.recovery && s.status.phase != RecoveryRequired && s.active.Some? && alive == Alive
                 && (s.active.value.mode == SystemProxy ==> ownership == Some(true)) && s.active.value.lastProbe + 10_000 <= s.now
              then Probing(Snapshot(s.active.value.session, s.active.value.generation, s.active.value.mode, s.active.value.node))
              else Idle
            case MonitorProbed(alive, listeners, probe, _) =>
              if !s.recovery && s.status.phase != RecoveryRequired && Current(s, y.monitor.snapshot)
                 && alive == Alive && listeners.None? && probe.Latency? && y.monitor.snapshot.mode == SystemProxy
              then Warming(y.monitor.snapshot) else Idle
            case MonitorWarmed(_, _, _) => Idle
            case _ => y.monitor
    ensures Apply(y, e).stops == if e.CallStop? then y.stops + 1 else if e.StopRuns? then y.stops - 1 else y.stops
  {
    match e
    case MonitorBegins(alive, ownership, c) => MonitorBeginCases(y.state, alive, ownership, c);
    case _ =>
  }
}
