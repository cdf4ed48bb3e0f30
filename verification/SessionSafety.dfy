// Safety of every run of the session machine: Windows is restored before a core is stopped, a
// session is let go only after both, published revisions rise, and a stale probe changes nothing
// (src-tauri/src/application.rs:1894-1948, 2690-2923, 3055-3080, 3403-3444, 3542-3584).
module SessionSafety {
  import opened Text
  import opened RuntimeStatus
  import opened Session

  // ---- What the engine and Windows are owed ------------------------------

  // `owed`: Windows may point at the session's listener. `stopped`: its core was stopped.
  datatype Ledger = Nothing | Running(session: nat, owed: bool, stopped: bool) | Violated

  function After(ledger: Ledger, e: Event): Ledger {
    match e
    case Published(_) => ledger
    case StartedCore(session) => if ledger == Nothing then Running(session, false, false) else Violated
    case AppliedProxy(session, changed) =>
      if ledger == Running(session, false, false) then Running(session, changed, false) else Violated
    case RestoredProxy(session, ok) => if ledger == Running(session, true, false) then Running(session, !ok, false) else Violated
    case StoppedCore(session, ok) => if ledger == Running(session, false, false) then Running(session, false, ok) else Violated
    case Released(session) => if ledger == Running(session, false, true) then Nothing else Violated
  }

  function LedgerOf(log: Log): Ledger {
    match log case Beginning => Nothing case Then(before, e) => After(LedgerOf(before), e)
  }

  function LastRevision(log: Log): int {
    match log
    case Beginning => -1
    case Then(before, e) => if e.Published? then e.status.revision else LastRevision(before)
  }

  predicate RevisionsRise(log: Log) {
    match log
    case Beginning => true
    case Then(before, e) => RevisionsRise(before) && (e.Published? ==> LastRevision(before) < e.status.revision)
  }

  function Expected(s: State): Ledger {
    match s.active case None => Nothing case Some(active) => Running(active.session, active.requiresRestore, false)
  }

  // The retained session is exactly what the ledger says is running and owed.
  ghost predicate Safe(s: State) {
    && LedgerOf(s.log) == Expected(s)
    && RevisionsRise(s.log) && LastRevision(s.log) <= s.status.revision
    && (s.active.Some? && s.active.value.requiresRestore ==> s.active.value.mode == SystemProxy)
  }

  // Publishing a newer status changes nothing of this.
  lemma EmitSafe(s: State, status: Status)
    requires Safe(s) && s.status.revision < status.revision
    ensures Safe(Emitted(s, status))
  {
  }

  lemma UpdateSafe(s: State, phase: Phase, node: Option<nat>, error: Option<Stage>)
    requires Safe(s)
    ensures Safe(Update(s, phase, node, error)) && Update(s, phase, node, error).active == s.active
  {
    EmitSafe(s, UpdatedStatus(s, phase, node, error));
  }

  lemma ResetSafe(s: State)
    requires Safe(s)
    ensures Safe(ResetDisconnected(s)) && ResetDisconnected(s).active == s.active
  {
    var cleared := ClearMetadata(s);
    UpdateSafe(cleared.(status := cleared.status.(scope := LocalOnly, mode := LocalOnly, session := None, proofs := DefaultProofs())),
               Disconnected, None, None);
  }

  lemma RecoverySafe(s: State, node: Option<nat>, stage: Stage)
    requires Safe(s)
    ensures Safe(InRecovery(s, node, stage)) && InRecovery(s, node, stage).active == s.active
  {
    UpdateSafe(s.(recovery := true), RecoveryRequired, node, Some(stage));
  }

  lemma LaunchedSafe(s: State, request: Request, mode: Mode, session: nat, a: StartAnswers)
    requires Safe(s) && s.active.None?
    ensures var next := Launched(s, request, mode, session, a);
            Safe(next) && next.active.Some? && next.active.value.mode == mode && !next.active.value.requiresRestore
  {
    var active := Active(session, a.generation, request.node, request.routing, mode, false, a.ports, 0, s.now);
    var started := Logged(s.(active := Some(active)), StartedCore(session));
    UpdateSafe(WithProofs(started, s.status.proofs.(process := Plain(Passed), http := Plain(Pending), socks := Plain(Pending),
                                                    health := Plain(Pending))),
               VerifyingListener, Some(request.node), None);
  }

  lemma TakeOverSafe(s: State, node: nat, ms: nat, a: StartAnswers)
    requires Safe(s) && s.active.Some? && s.active.value.mode == SystemProxy && !s.active.value.requiresRestore
    ensures var next := TakeOverProxy(s, node, ms, a).0; Safe(next) && next.active.Some? && next.active.value.mode == SystemProxy
  {
    var applying := Update(WithProofs(s, s.status.proofs.(proxy := Plain(Pending))), ApplyingSystemProxy, Some(node), None);
    UpdateSafe(WithProofs(s, s.status.proofs.(proxy := Plain(Pending))), ApplyingSystemProxy, Some(node), None);
    var applied := AfterPublish(Applying(s, node), a.publish);
    assert Safe(applied);
    var owned := WithProofs(applied, applied.status.proofs.(proxy := Plain(Passed)));
    UpdateSafe(owned.(status := owned.status.(routeCheck := Some(ms))), SystemProxyReady, Some(node), None);
  }

  lemma PreparingSafe(s: State, node: nat, mode: Mode, session: nat)
    requires Safe(s)
    ensures Safe(EnterPreparing(s, node, mode, session)) && EnterPreparing(s, node, mode, session).active == s.active
  {
    UpdateSafe(s.(status := s.status.(scope := mode, mode := mode, session := Some(session), proofs := DefaultProofs())),
               Preparing, Some(node), None);
  }

  lemma ValidatingSafe(s: State, node: nat)
    requires Safe(s)
    ensures Safe(Validating(s, node)) && Validating(s, node).active == s.active
  {
    UpdateSafe(WithProofs(s, s.status.proofs.(config := Plain(Pending))), ValidatingConfig, Some(node), None);
  }

  lemma LaunchingSafe(s: State, node: nat)
    requires Safe(s)
    ensures Safe(Launching(s, node)) && Launching(s, node).active == s.active
  {
    UpdateSafe(WithProofs(s, s.status.proofs.(config := Plain(Passed))), StartingCore, Some(node), None);
  }

  lemma ProvingSafe(s: State, node: nat)
    requires Safe(s)
    ensures Safe(Proving(s, node)) && Proving(s, node).active == s.active
  {
    UpdateSafe(WithProofs(s, s.status.proofs.(http := Plain(Passed), socks := Plain(Passed), health := Plain(Passed),
                                              outbound := Plain(Pending))),
               ProvingTraffic, Some(node), None);
  }

  lemma VerifiedSafe(s: State, node: nat, ports: Ports, ms: nat)
    requires Safe(s)
    ensures Safe(Verified(s, node, ports, ms)) && Verified(s, node, ports, ms).active == s.active
  {
    var owned := WithProofs(s, s.status.proofs.(scope := Plain(Passed)));
    UpdateSafe(owned.(status := owned.status.(ports := Some(ports), routeCheck := Some(ms), engine := true)),
               OutboundVerified, Some(node), None);
  }

  lemma ProvenSafe(s: State, ms: nat)
    requires Safe(s)
    ensures Safe(Proven(s, ms)) && Proven(s, ms).active == s.active
  {}

  // From the proven traffic on: a System Proxy session takes Windows over, a local one is ready.
  function Concluded(s: State, node: nat, mode: Mode, ms: nat, a: StartAnswers): State
    requires s.active.Some?
  {
    if mode == SystemProxy then TakeOverProxy(s, node, ms, a).0 else Update(s, LocalProxyReady, Some(node), None)
  }

  lemma ConcludedSafe(s: State, node: nat, mode: Mode, ms: nat, a: StartAnswers)
    requires Safe(s) && s.active.Some? && s.active.value.mode == mode && !s.active.value.requiresRestore
    ensures var next := Concluded(s, node, mode, ms, a); Safe(next) && next.active.Some? && next.active.value.mode == mode
  {
    if mode == SystemProxy { TakeOverSafe(s, node, ms, a); } else { UpdateSafe(s, LocalProxyReady, Some(node), None); }
  }

  lemma ProveCoreSafe(s: State, node: nat, mode: Mode, a: StartAnswers)
    requires Safe(s) && s.active.Some? && s.active.value.mode == mode && !s.active.value.requiresRestore
    ensures var next := ProveCore(s, node, mode, a).0; Safe(next) && next.active.Some? && next.active.value.mode == mode
  {
    ProvingSafe(s, node);
    if a.proof.Latency? {
      var proven := Proven(Proving(s, node), a.proof.ms);
      ProvenSafe(Proving(s, node), a.proof.ms);
      VerifiedSafe(proven, node, a.ports, a.proof.ms);
      var verified := Verified(proven, node, a.ports, a.proof.ms);
      ConcludedSafe(verified, node, mode, a.proof.ms, a);
    }
  }

  lemma PreflightSafe(s: State, node: nat, mode: Mode, session: nat, a: StartAnswers)
    requires Safe(s)
    ensures Safe(Preflight(s, node, mode, session, a).0) && Preflight(s, node, mode, session, a).0.active == s.active
  {
    var preparing := EnterPreparing(s, node, mode, session);
    PreparingSafe(s, node, mode, session);
    ValidatingSafe(preparing, node);
    LaunchingSafe(Validating(preparing, node), node);
  }

  lemma StartCoreSafe(s: State, request: Request, mode: Mode, a: StartAnswers)
    requires Safe(s) && s.active.None?
    ensures var next := StartCore(s, request, mode, a).0; Safe(next) && (next.active.Some? ==> next.active.value.mode == mode)
  {
    if a.session.Some? {
      PreflightSafe(s, request.node, mode, a.session.value, a);
      var checked := Preflight(s, request.node, mode, a.session.value, a).0;
      LaunchedSafe(checked, request, mode, a.session.value, a);
      ProveCoreSafe(Launched(checked, request, mode, a.session.value, a), request.node, mode, a);
    }
  }

  // ---- Undoing and stopping ---------------------------------------------

  // A core is stopped only when Windows is not pointing at it.
  lemma StopAndRelease(s: State, stop: Option<Stage>)
    requires Safe(s) && (s.active.Some? ==> !s.active.value.requiresRestore)
    ensures s.active.Some? && stop.Some? ==> Safe(ChildStopped(s, stop))
    ensures s.active.None? || stop.None? ==> Safe(Release(ChildStopped(s, stop))) && Release(ChildStopped(s, stop)).active.None?
  {
    if s.active.Some? {
      var session := s.active.value.session;
    }
  }

  lemma RollingSafe(s: State, node: nat, stage: Stage)
    requires Safe(s)
    ensures Safe(EnterRollBack(s, node, stage)) && EnterRollBack(s, node, stage).active == s.active
  {
    UpdateSafe(WithProofs(s, FailedProofs(s.status.proofs, stage)), RollingBack, Some(node), None);
  }

  lemma EndRollBackLocalSafe(s: State, node: nat, stage: Stage, c: Cleanup)
    requires Safe(s) && (s.active.Some? ==> !s.active.value.requiresRestore)
    ensures var next := EndRollBackLocal(s, node, stage, c);
            Safe(next) && (next.active.Some? ==> next.active == s.active && next.recovery)
  {
    StopAndRelease(s, c.stop);
    var stopped := ChildStopped(s, c.stop);
    if s.active.Some? && c.stop.Some? {
      RecoverySafe(stopped.(status := stopped.status.(ports := Some(s.active.value.ports), engine := true)), Some(node), c.stop.value);
    } else {
      RecoverySafe(Release(stopped), Some(node), stage);
      UpdateSafe(Release(stopped), DisconnectedWithError, Some(node), Some(stage));
    }
  }

  lemma RollBackLocalSafe(s: State, node: nat, stage: Stage, c: Cleanup)
    requires Safe(s) && (s.active.Some? ==> !s.active.value.requiresRestore)
    ensures var next := RollBackLocal(s, node, stage, c);
            Safe(next) && (next.active.Some? ==> next.active == s.active && next.recovery)
  {
    RollingSafe(s, node, stage);
    EndRollBackLocalSafe(EnterRollBack(s, node, stage), node, stage, c);
  }

  lemma RestoreSafe(s: State, restore: Restore)
    requires Safe(s) && s.active.Some? && s.active.value.requiresRestore
    ensures Safe(ProxyRestored(s, restore))
  {
  }

  lemma EndRollBackSafe(s: State, node: nat, stage: Stage, c: Cleanup)
    requires Safe(s) && (s.active.Some? ==> !s.active.value.requiresRestore)
    ensures Safe(EndRollBack(s, node, stage, c))
    ensures var next := EndRollBack(s, node, stage, c); next.active.Some? ==> next.active == s.active && next.recovery
  {
    StopAndRelease(s, c.stop);
    var stopped := ChildStopped(s, c.stop);
    if s.active.Some? && c.stop.Some? {
      RecoverySafe(stopped, Some(node), c.stop.value);
    } else {
      RecoverySafe(Release(stopped), Some(node), stage);
      UpdateSafe(Release(stopped), DisconnectedWithError, Some(node), Some(stage));
    }
  }

  lemma RollBackOwedSafe(s: State, node: nat, stage: Stage, c: Cleanup)
    requires Safe(s) && s.active.Some? && s.active.value.requiresRestore
    ensures var restored := ProxyRestored(s, c.restore);
            var next := if RestoreOk(c.restore) then EndRollBack(restored, node, stage, c) else InRecovery(restored, Some(node), ProxyRestore);
            Safe(next) && (next.active.Some? ==> next.recovery && next.active.value.mode == s.active.value.mode)
  {
    RestoreSafe(s, c.restore);
    var restored := ProxyRestored(s, c.restore);
    if RestoreOk(c.restore) { EndRollBackSafe(restored, node, stage, c); }
    else { RecoverySafe(restored, Some(node), ProxyRestore); }
  }

  lemma RollBackProxySafe(s: State, node: nat, stage: Stage, c: Cleanup)
    requires Safe(s)
    ensures var next := RollBackProxy(s, node, stage, c);
            && Safe(next)
            && (next.active.Some? ==> s.active.Some? && next.recovery && next.active.value.mode == s.active.value.mode)
  {
    var rolling := EnterRollBack(s, node, stage);
    RollingSafe(s, node, stage);
    if s.active.Some? && s.active.value.requiresRestore {
      RollBackOwedSafe(rolling, node, stage, c);
    } else {
      EndRollBackSafe(rolling, node, stage, c);
    }
  }

  lemma AfterCleanupSafe(s: State, node: Option<nat>, conflict: bool, terminal: Option<Stage>, reconciled: bool)
    requires Safe(s) && s.active.None?
    ensures Safe(AfterCleanup(s, node, conflict, terminal, reconciled).0)
    ensures AfterCleanup(s, node, conflict, terminal, reconciled).0.active.None?
  {
    if !reconciled {
      RecoverySafe(s, node, SessionRecovery);
    } else {
      var clean := s.(recovery := false);
      var paused := if s.intent.Some? then clean.(intent := Some(s.intent.value.(paused := true))) else clean;
      UpdateSafe(paused.(status := paused.status.(session := None)), DisconnectedWithError, node, Some(ProxyOwnership));
      UpdateSafe(clean, DisconnectedWithError, node, terminal);
      ResetSafe(clean);
    }
  }

  lemma RestoreFirstSafe(s: State, c: Cleanup)
    requires Safe(s) && s.active.Some?
    ensures var next := RestoreFirst(s, c);
            && Safe(next) && next.active.Some? && next.active.value.mode == s.active.value.mode
            && next.active.value.requiresRestore == (s.active.value.requiresRestore && !RestoreOk(c.restore))
  {
    if s.active.value.requiresRestore {
      UpdateSafe(s, RestoringSystemProxy, s.status.node, None);
      RestoreSafe(Restoring(s), c.restore);
    }
  }

  lemma StopRestoredSafe(s: State, node: Option<nat>, conflict: bool, terminal: Option<Stage>, c: Cleanup)
    requires Safe(s) && s.active.Some? && !s.active.value.requiresRestore
    ensures var (next, ok) := StopRestored(s, node, conflict, terminal, c);
            && Safe(next) && (ok ==> next.active.None?)
            && (next.active.Some? ==> next.recovery && next.active == s.active)
  {
    UpdateSafe(s, StoppingCore, node, None);
    var stopping := Update(s, StoppingCore, node, None);
    StopAndRelease(stopping, c.stop);
    if c.stop.Some? { RecoverySafe(ChildStopped(stopping, c.stop), node, c.stop.value); }
    else { AfterCleanupSafe(Release(ChildStopped(stopping, c.stop)), node, conflict, terminal, c.reconciled); }
  }

  // Restore first, then stop, then let go; completed cleanup leaves no session.
  lemma StopActiveSafe(s: State, terminal: Option<Stage>, c: Cleanup)
    requires Safe(s)
    ensures var (next, ok) := StopActive(s, terminal, c);
            && Safe(next) && (ok ==> next.active.None?)
            && (next.active.Some? ==> s.active.Some? && next.recovery && next.active.value.mode == s.active.value.mode)
  {
    if s.active.None? {
      ResetSafe(s);
    } else {
      RestoreFirstSafe(s, c);
      var restored := RestoreFirst(s, c);
      if s.active.value.requiresRestore && !RestoreOk(c.restore) {
        RecoverySafe(restored, s.status.node, ProxyRestore);
      } else {
        StopRestoredSafe(restored, s.status.node, s.active.value.requiresRestore && c.restore == ForeignPreserved, terminal, c);
      }
    }
  }

  // ---- Every step -------------------------------------------------------

  ghost predicate SafeSystem(y: System) {
    Safe(y.state) && (y.op.LocalVerifying? && y.state.active.Some? ==> y.state.active.value.mode == LocalOnly)
  }

  lemma LocalAttemptSafe(s: State, request: Request, a: StartAnswers, c: Cleanup)
    requires Safe(s) && s.active.None?
    ensures Safe(LocalAttempt(s, request, a, c))
  {
    StartCoreSafe(s, request, LocalOnly, a);
    var (started, failure) := StartCore(s, request, LocalOnly, a);
    if failure.Some? { RollBackLocalSafe(started, request.node, failure.value, c); }
  }

  lemma ProxyAttemptSafe(s: State, request: Request, known: bool, sameIdentity: bool, a: StartAnswers, c: Cleanup)
    requires Safe(s)
    ensures Safe(ProxyAttempt(s, request, known, sameIdentity, a, c).0)
  {
    if s.active.None? {
      StartCoreSafe(s, request, SystemProxy, a);
      var (started, failure) := StartCore(s, request, SystemProxy, a);
      if failure.Some? { RollBackProxySafe(started, request.node, failure.value, c); }
    }
  }

  lemma FinishLocalSafe(s: State, request: Request, sameIdentity: bool, proof: Option<nat>, live: bool, stop: Option<Stage>,
                        reconciled: bool, a: StartAnswers, c: Cleanup)
    requires Safe(s) && (s.active.Some? ==> s.active.value.mode == LocalOnly)
    ensures Safe(FinishLocal(s, request, sameIdentity, proof, live, stop, reconciled, a, c))
  {
    if proof.Some? {
      var proven := WithProofs(s, s.status.proofs.(outbound := Row(Passed, proof), scope := Plain(Passed)));
      UpdateSafe(proven.(status := proven.status.(routeCheck := proof)), OutboundVerified, Some(request.node), None);
      UpdateSafe(Update(proven.(status := proven.status.(routeCheck := proof)), OutboundVerified, Some(request.node), None),
                 LocalProxyReady, Some(request.node), None);
    }
    var failed := WithProofs(s, s.status.proofs.(outbound := Plain(Failed), scope := Plain(Failed)));
    UpdateSafe(failed, RollingBack, Some(request.node), None);
    var rolling := Update(failed, RollingBack, Some(request.node), None);
    StopAndRelease(rolling, stop);
    if s.active.Some? && stop.Some? {
      RecoverySafe(ChildStopped(rolling, stop), Some(request.node), stop.value);
    } else {
      RecoverySafe(Release(ChildStopped(rolling, stop)), Some(request.node), SessionRecovery);
      LocalAttemptSafe(Release(ChildStopped(rolling, stop)), request, a, c);
    }
  }

  lemma FinishProxySafe(s: State, request: Request, proof: Option<nat>, live: bool, owned: bool)
    requires Safe(s)
    ensures Safe(FinishProxy(s, request, proof, live, owned).0)
  {
    if proof.Some? {
      var proven := WithProofs(s, s.status.proofs.(outbound := Row(Passed, proof), scope := Plain(Passed), proxy := Plain(Passed)));
      UpdateSafe(proven.(status := proven.status.(routeCheck := proof)), SystemProxyReady, Some(request.node), None);
    }
    UpdateSafe(s, Degraded, Some(request.node), Some(ProveTraffic));
    UpdateSafe(s, BlockedByConflict, Some(request.node), Some(ProxyOwnership));
  }

  lemma FinishAttemptSafe(s: State, ok: bool)
    requires Safe(s)
    ensures Safe(FinishAttempt(s, ok)) && FinishAttempt(s, ok).active == s.active
  {
  }

  lemma MeasuredSafe(s: State, snapshot: Snapshot, ms: nat)
    requires Safe(s) && s.active.Some?
    ensures Safe(Measured(s, snapshot, ms)) && Measured(s, snapshot, ms).active == Some(s.active.value.(failures := 0))
  {}

  lemma ProbePassedSafe(s: State, snapshot: Snapshot, ms: nat)
    requires Safe(s) && s.active.Some?
    ensures Safe(ProbePassed(s, snapshot, ms))
    ensures ProbePassed(s, snapshot, ms).active == Some(s.active.value.(failures := 0))
  {
    MeasuredSafe(s, snapshot, ms);
    var measured := Measured(s, snapshot, ms);
    UpdateSafe(measured, OutboundVerified, Some(snapshot.node), None);
    UpdateSafe(measured, ReadyPhase(snapshot.mode), Some(snapshot.node), None);
    UpdateSafe(Update(measured, OutboundVerified, Some(snapshot.node), None), ReadyPhase(snapshot.mode), Some(snapshot.node), None);
  }

  lemma CountedSafe(s: State)
    requires Safe(s) && s.active.Some?
    ensures Safe(Counted(s)) && Counted(s).active.Some? && Counted(s).active.value.mode == s.active.value.mode
  {}

  lemma ProbeFailedSafe(s: State, snapshot: Snapshot, stage: Stage)
    requires Safe(s) && s.active.Some?
    ensures Safe(ProbeFailed(s, snapshot, stage)) && ProbeFailed(s, snapshot, stage).active.Some?
    ensures ProbeFailed(s, snapshot, stage).active.value.mode == s.active.value.mode
  {
    CountedSafe(s);
    var counted := Counted(s);
    UpdateSafe(WithProofs(counted.(status := counted.status.(routeCheck := None)), s.status.proofs.(outbound := Plain(Failed))),
               Degraded, Some(snapshot.node), Some(stage));
    EmitSafe(counted, counted.status.(revision := counted.status.revision + 1));
  }

  ghost predicate SameMode(s: State, next: State) {
    next.active.Some? ==> s.active.Some? && next.active.value.mode == s.active.value.mode
  }

  lemma ProcessLostSafe(s: State, stage: Stage, c: Cleanup)
    requires Safe(s)
    ensures Safe(ProcessLost(s, stage, c)) && SameMode(s, ProcessLost(s, stage, c))
  {
    StopActiveSafe(WithProofs(s, s.status.proofs.(process := Plain(Failed))), Some(stage), c);
  }

  lemma OwnershipLostSafe(s: State, phase: Phase)
    requires Safe(s) && s.active.Some?
    ensures Safe(OwnershipLost(s, phase)) && OwnershipLost(s, phase).active == s.active
  {
    UpdateSafe(WithProofs(s, s.status.proofs.(proxy := Plain(Failed))), phase, Some(s.active.value.node), Some(ProxyOwnership));
  }

  lemma MonitorBeginSafe(s: State, live: Liveness, owned: Option<bool>, c: Cleanup)
    requires Safe(s)
    ensures Safe(MonitorBegin(s, live, owned, c).0) && SameMode(s, MonitorBegin(s, live, owned, c).0)
  {
    if live != Alive {
      ProcessLostSafe(s, LossStage(live), c);
    } else if s.active.Some? {
      OwnershipLostSafe(s, if owned.Some? then BlockedByConflict else Degraded);
    }
  }

  lemma MonitorResultSafe(s: State, snapshot: Snapshot, live: Liveness, listeners: Option<Stage>, proof: Probe, c: Cleanup)
    requires Safe(s)
    ensures Safe(MonitorResult(s, snapshot, live, listeners, proof, c).0)
    ensures SameMode(s, MonitorResult(s, snapshot, live, listeners, proof, c).0)
  {
    if Current(s, snapshot) {
      var stage := if live != Alive then LossStage(live) else if listeners.Some? then listeners.value else Runtime;
      StopActiveSafe(WithProofs(s, s.status.proofs.(scope := Plain(Failed))), Some(stage), c);
      match proof
      case Latency(ms) => ProbePassedSafe(s, snapshot, ms);
      case NoProof(stage) => ProbeFailedSafe(s, snapshot, stage);
    }
  }

  lemma MonitorWarmSafe(s: State, snapshot: Snapshot, live: Liveness, latency: Option<nat>, c: Cleanup)
    requires Safe(s)
    ensures Safe(MonitorWarm(s, snapshot, live, latency, c)) && SameMode(s, MonitorWarm(s, snapshot, live, latency, c))
  {
    ProcessLostSafe(s, LossStage(live), c);
    var measured := s.(status := s.status.(steady := latency));
    EmitSafe(measured, measured.status.(revision := measured.status.revision + 1));
  }

  lemma StepSafe(y: System, e: Step)
    requires SafeSystem(y) && Enabled(y, e)
    ensures SafeSystem(Apply(y, e))
  {
    var s := y.state;
    match e
    case CallLocal(request, known, sameIdentity, a, c) => if s.active.None? { LocalAttemptSafe(s, request, a, c); }
    case LocalChecked(sameIdentity, proof, live, stop, reconciled, a, c) =>
      FinishLocalSafe(s, y.op.request, sameIdentity, proof, live, stop, reconciled, a, c);
    case CallProxy(_, _, _) =>
    case ProxyStart(known, sameIdentity, a, c) => ProxyAttemptSafe(s, y.op.request, known, sameIdentity, a, c);
    case ProxyChecked(proof, live, owned) => FinishProxySafe(s, y.op.request, proof, live, owned);
    case AttemptEnds => FinishAttemptSafe(s, y.op.ok);
    case CallStop =>
    case StopRuns(c) => StopActiveSafe(s, None, c);
    case CallRetry(c) => StopActiveSafe(s, None, c);
    case RetryEnds(sessions, journalClean) =>
      RecoverySafe(s, None, if sessions.Some? then sessions.value else ProxyRestore);
      ResetSafe(s.(recovery := false));
    case Reconnect(c) => StopActiveSafe(s, None, c);
    case MonitorBegins(alive, ownership, c) => MonitorBeginSafe(s, alive, ownership, c);
    case MonitorProbed(alive, listeners, probe, c) => MonitorResultSafe(s, y.monitor.snapshot, alive, listeners, probe, c);
    case MonitorWarmed(alive, warm, c) => MonitorWarmSafe(s, y.monitor.snapshot, alive, warm, c);
    case SetShutdown(_) =>
    case Advance(_) =>
  }

  lemma InitialSafe(leftover: Option<Stage>)
    ensures SafeSystem(Initial(leftover))
  {
    var state := State(DefaultStatus(), None, None, false, false, 0, Beginning);
    if leftover.Some? { RecoverySafe(state, None, leftover.value); }
  }

  // In every run, whatever the services answer and however the commands, the monitor and the
  // reconnection interleave: the retained session is exactly what runs and what Windows is owed,
  // no core is stopped while Windows may point at it, no publication is restored twice, a session
  // is released only after restoration and a successful stop, and published revisions rise.
  lemma {:induction false} EveryRunIsSafe(leftover: Option<Stage>, steps: seq<Step>)
    requires Run(leftover, steps).Some?
    ensures SafeSystem(Run(leftover, steps).value)
  {
    if steps == [] {
      InitialSafe(leftover);
    } else {
      EveryRunIsSafe(leftover, steps[..|steps| - 1]);
      StepSafe(Run(leftover, steps[..|steps| - 1]).value, steps[|steps| - 1]);
    }
  }

  // ---- What a ledger without violation says about the events -------------

  // Publications that may have changed Windows, less successful restorations.
  function Owed(log: Log): int {
    match log
    case Beginning => 0
    case Then(before, e) =>
      Owed(before) + if e.AppliedProxy? && e.changed then 1 else if e.RestoredProxy? && e.ok then -1 else 0
  }

  // Cores started, less sessions released.
  function Retained(log: Log): int {
    match log
    case Beginning => 0
    case Then(before, e) => Retained(before) + if e.StartedCore? then 1 else if e.Released? then -1 else 0
  }

  // The last thing done to the engine or to Windows.
  function LastEffect(log: Log): Option<Event> {
    match log
    case Beginning => None
    case Then(before, e) => if e.Published? then LastEffect(before) else Some(e)
  }

  // At every moment: at most one session and one unrestored publication; a core is stopped only
  // when nothing is owed; a session is released only right after the successful stop of its core;
  // only what is owed is restored; a core starts only when no session is retained.
  predicate Orderly(log: Log) {
    && 0 <= Owed(log) <= Retained(log) <= 1
    && match log
       case Beginning => true
       case Then(before, e) =>
         && Orderly(before)
         && (e.StoppedCore? || e.Released? ==> Owed(before) == 0 && Retained(before) == 1)
         && (e.Released? ==> LastEffect(before) == Some(StoppedCore(e.session, true)))
         && (e.RestoredProxy? ==> Owed(before) == 1)
         && (e.StartedCore? ==> Retained(before) == 0)
  }

  lemma {:induction false} LedgerMeansOrder(log: Log)
    requires LedgerOf(log) != Violated
    ensures Orderly(log)
    ensures LedgerOf(log).Running? ==> Retained(log) == 1 && Owed(log) == if LedgerOf(log).owed then 1 else 0
    ensures LedgerOf(log).Running? && LedgerOf(log).stopped ==> LastEffect(log) == Some(StoppedCore(LedgerOf(log).session, true))
    ensures LedgerOf(log) == Nothing ==> Retained(log) == 0 && Owed(log) == 0
  {
    match log
    case Beginning =>
    case Then(before, e) => LedgerMeansOrder(before);
  }

  lemma SafeMeansOrder(s: State)
    requires Safe(s)
    ensures Orderly(s.log) && (s.active.Some? <==> Retained(s.log) == 1)
    ensures s.active.Some? && s.active.value.requiresRestore <==> Owed(s.log) == 1
  {
    LedgerMeansOrder(s.log);
  }

  // While Windows may point at RouteDeck's listener, the session that put it there is retained
  // with its restore flag set.
  lemma RestoreBeforeStop(leftover: Option<Stage>, steps: seq<Step>)
    requires Run(leftover, steps).Some?
    ensures var s := Run(leftover, steps).value.state;
            && Orderly(s.log) && RevisionsRise(s.log)
            && (s.active.Some? <==> Retained(s.log) == 1)
            && (s.active.Some? && s.active.value.requiresRestore <==> Owed(s.log) == 1)
  {
    EveryRunIsSafe(leftover, steps);
    SafeMeansOrder(Run(leftover, steps).value.state);
  }

  // ---- Stale probes -----------------------------------------------------

  function StartedIds(log: Log): set<nat> {
    match log case Beginning => {} case Then(before, e) => StartedIds(before) + if e.StartedCore? then {e.session} else {}
  }

  function ReleasedIds(log: Log): set<nat> {
    match log case Beginning => {} case Then(before, e) => ReleasedIds(before) + if e.Released? then {e.session} else {}
  }

  // The random session identifiers of the run are distinct.
  predicate FreshSessions(log: Log) {
    match log
    case Beginning => true
    case Then(before, e) => FreshSessions(before) && (e.StartedCore? ==> e.session !in StartedIds(before))
  }

  lemma {:induction false} RunningIsNotReleased(log: Log)
    requires LedgerOf(log) != Violated && FreshSessions(log)
    ensures ReleasedIds(log) <= StartedIds(log)
    ensures LedgerOf(log).Running? ==> LedgerOf(log).session in StartedIds(log) && LedgerOf(log).session !in ReleasedIds(log)
  {
    match log
    case Beginning =>
    case Then(before, e) => RunningIsNotReleased(before);
  }

  // A probe of a session that has ended since changes nothing, whatever runs now; and a probe
  // that does change something measured the session that is still running.
  lemma StaleProbeChangesNothing(leftover: Option<Stage>, steps: seq<Step>, snapshot: Snapshot, live: Liveness,
                                 listeners: Option<Stage>, probe: Probe, warm: Option<nat>, c: Cleanup)
    requires Run(leftover, steps).Some? && FreshSessions(Run(leftover, steps).value.state.log)
    ensures var s := Run(leftover, steps).value.state;
            && (snapshot.session in ReleasedIds(s.log) ==>
                  MonitorResult(s, snapshot, live, listeners, probe, c) == (s, false)
                  && MonitorWarm(s, snapshot, live, warm, c) == s)
            && (MonitorResult(s, snapshot, live, listeners, probe, c).0 != s || MonitorWarm(s, snapshot, live, warm, c) != s ==>
                  s.active.Some? && s.active.value.session == snapshot.session && s.active.value.generation == snapshot.generation)
  {
    EveryRunIsSafe(leftover, steps);
    RunningIsNotReleased(Run(leftover, steps).value.state.log);
  }
}
