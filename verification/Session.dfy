// The session lifecycle as a state machine: each function is one stretch of the controller run
// without releasing the state lock (src-tauri/src/application.rs:701-717, 1417-1967, 2327-3719,
// without TUN). Answers of the services are parameters; times are milliseconds.
module Session {
  import opened Text
  import opened RuntimeStatus

  // A node and the routing compiled for it (policy and effective Naive flag).
  datatype Request = Request(node: nat, routing: nat)

  datatype Active = Active(
    session: nat, generation: nat, node: nat, routing: nat, mode: Mode, requiresRestore: bool, ports: Ports,
    failures: nat, lastProbe: nat)

  datatype Intent = Intent(request: Request, failures: nat, next: nat, paused: bool)

  // What happened, in order: snapshots published and effects on the engine and on Windows.
  datatype Event =
    | Published(status: Status)
    | StartedCore(session: nat)
    | AppliedProxy(session: nat, changed: bool)
    | RestoredProxy(session: nat, ok: bool)
    | StoppedCore(session: nat, ok: bool)
    | Released(session: nat)

  // The events so far, newest last.
  datatype Log = Beginning | Then(before: Log, last: Event)

  datatype State = State(
    status: Status, active: Option<Active>, intent: Option<Intent>, recovery: bool, shuttingDown: bool, now: nat,
    log: Log)

  // ---- Answers of the services ------------------------------------------

  datatype Restore = Restored | ForeignPreserved | NoJournal | RestoreFailed
  datatype Publish = Applied | Unchanged | MaybeChanged
  datatype Liveness = Alive | Exited | Unknown(stage: Stage)
  datatype Probe = Latency(ms: nat) | NoProof(stage: Stage)

  // `None` where a step succeeds, else the stage its error names.
  datatype StartAnswers = StartAnswers(
    session: Option<nat>, prepared: Option<Stage>, validated: Option<Stage>, generation: nat, launched: Option<Stage>,
    ports: Ports, listening: Option<Stage>, proof: Probe, owned: Option<Stage>, publish: Publish, ownership: Option<bool>)

  datatype Cleanup = Cleanup(restore: Restore, stop: Option<Stage>, reconciled: bool)

  // ---- Publishing -------------------------------------------------------

  const MAX_RETRY_MS: nat := 60_000

  // `(2 << min(failures, 5)).min(60)` seconds.
  function ReconnectDelay(failures: nat): (ms: nat)
    ensures ms <= MAX_RETRY_MS
  {
    match failures
    case 0 => 2_000 case 1 => 4_000 case 2 => 8_000 case 3 => 16_000 case 4 => 32_000 case _ => 60_000
  }

  function SecondsUntil(next: nat, now: nat): nat {
    if next <= now then 0 else (next - now) / 1000
  }

  // `sync_reconnect_status`
  function Synced(s: State, status: Status): Status {
    status.(requested := s.intent.Some?,
            paused := s.intent.Some? && (s.intent.value.paused || s.recovery || status.phase == BlockedByConflict),
            retrySeconds :=
              if s.intent.Some? && !s.intent.value.paused && s.active.None? && !s.recovery
              then Some(SecondsUntil(s.intent.value.next, s.now)) else None)
  }

  predicate KeepsRoute(phase: Phase) {
    phase == OutboundVerified || phase == LocalProxyReady || phase == SystemProxyReady || phase == TunReady || phase == Degraded
  }

  predicate KeepsSteady(phase: Phase) { phase == SystemProxyReady || phase == TunReady }

  function UpdatedStatus(s: State, phase: Phase, node: Option<nat>, error: Option<Stage>): Status {
    var synced := Synced(s, s.status.(phase := phase));
    synced.(node := node, error := error,
            steady := if error.Some? || !KeepsSteady(phase) then None else synced.steady,
            routeCheck := if KeepsRoute(phase) then synced.routeCheck else None,
            revision := synced.revision + 1)
  }

  function Logged(s: State, event: Event): State { s.(log := Then(s.log, event)) }

  function Emitted(s: State, status: Status): State { Logged(s.(status := status), Published(status)) }

  // `update_status`
  function Update(s: State, phase: Phase, node: Option<nat>, error: Option<Stage>): State {
    Emitted(s, UpdatedStatus(s, phase, node, error))
  }

  // A new revision of the current status.
  function Reemitted(s: State): State { Emitted(s, s.status.(revision := s.status.revision + 1)) }

  function WithProofs(s: State, proofs: Proofs): State { s.(status := s.status.(proofs := proofs)) }

  function ClearMetadata(s: State): State {
    s.(status := s.status.(ports := None, routeCheck := None, steady := None, engine := false))
  }

  function ResetDisconnected(s: State): State {
    var cleared := ClearMetadata(s);
    Update(cleared.(status := cleared.status.(scope := LocalOnly, mode := LocalOnly, session := None, proofs := DefaultProofs())),
           Disconnected, None, None)
  }

  // ---- Starting a core --------------------------------------------------

  function EnterPreparing(s: State, node: nat, mode: Mode, session: nat): State {
    Update(s.(status := s.status.(scope := mode, mode := mode, session := Some(session), proofs := DefaultProofs())),
           Preparing, Some(node), None)
  }

  function Validating(s: State, node: nat): State {
    Update(WithProofs(s, s.status.proofs.(config := Plain(Pending))), ValidatingConfig, Some(node), None)
  }

  function Launching(s: State, node: nat): State {
    Update(WithProofs(s, s.status.proofs.(config := Plain(Passed))), StartingCore, Some(node), None)
  }

  function Launched(s: State, request: Request, mode: Mode, session: nat, a: StartAnswers): State {
    var active := Active(session, a.generation, request.node, request.routing, mode, false, a.ports, 0, s.now);
    var started := Logged(s.(active := Some(active)), StartedCore(session));
    Update(WithProofs(started, s.status.proofs.(process := Plain(Passed), http := Plain(Pending), socks := Plain(Pending),
                                                health := Plain(Pending))),
           VerifyingListener, Some(request.node), None)
  }

  function Proving(s: State, node: nat): State {
    Update(WithProofs(s, s.status.proofs.(http := Plain(Passed), socks := Plain(Passed), health := Plain(Passed),
                                          outbound := Plain(Pending))),
           ProvingTraffic, Some(node), None)
  }

  function Proven(s: State, ms: nat): State {
    WithProofs(s, s.status.proofs.(outbound := Row(Passed, Some(ms))))
  }

  function Verified(s: State, node: nat, ports: Ports, ms: nat): State {
    var owned := WithProofs(s, s.status.proofs.(scope := Plain(Passed)));
    Update(owned.(status := owned.status.(ports := Some(ports), routeCheck := Some(ms), engine := true)),
           OutboundVerified, Some(node), None)
  }

  function Applying(s: State, node: nat): State
    requires s.active.Some?
  {
    var applying := Update(WithProofs(s, s.status.proofs.(proxy := Plain(Pending))), ApplyingSystemProxy, Some(node), None);
    applying.(active := Some(s.active.value.(requiresRestore := true)))
  }

  // The publication itself; a failed one may still have changed Windows.
  function AfterPublish(s: State, publish: Publish): State
    requires s.active.Some?
  {
    Logged(s.(active := Some(s.active.value.(requiresRestore := publish != Unchanged))),
           AppliedProxy(s.active.value.session, publish != Unchanged))
  }

  function ProxyReady(s: State, node: nat, ms: nat): State {
    var owned := WithProofs(s, s.status.proofs.(proxy := Plain(Passed)));
    Update(owned.(status := owned.status.(routeCheck := Some(ms))), SystemProxyReady, Some(node), None)
  }

  // From the verified engine to a ready System Proxy.
  function TakeOverProxy(s: State, node: nat, ms: nat, a: StartAnswers): (State, Option<Stage>)
    requires s.active.Some?
  {
    var applied := AfterPublish(Applying(s, node), a.publish);
    if a.publish != Applied then (applied, Some(ProxyPublish))
    else if a.ownership != Some(true) then (applied, Some(ProxyOwnership))
    else (ProxyReady(applied, node, ms), None)
  }

  // From the launched engine on.
  function ProveCore(s: State, node: nat, mode: Mode, a: StartAnswers): (State, Option<Stage>)
    requires s.active.Some?
  {
    if a.listening.Some? then (s, a.listening)
    else
      var proving := Proving(s, node);
      match a.proof
      case NoProof(stage) => (proving, Some(stage))
      case Latency(ms) =>
        var proven := Proven(proving, ms);
        if a.owned.Some? then (proven, a.owned)
        else
          var verified := Verified(proven, node, a.ports, ms);
          if mode == SystemProxy then TakeOverProxy(verified, node, ms, a)
          else (Update(verified, LocalProxyReady, Some(node), None), None)
  }

  // Up to the launch: ports, configuration and engine checks.
  function Preflight(s: State, node: nat, mode: Mode, session: nat, a: StartAnswers): (State, Option<Stage>) {
    var preparing := EnterPreparing(s, node, mode, session);
    if a.prepared.Some? then (preparing, a.prepared)
    else
      var validating := Validating(preparing, node);
      if a.validated.Some? then (validating, a.validated) else (Launching(validating, node), a.launched)
  }

  // `start_locked`: the new state and the stage that failed, if any.
  function StartCore(s: State, request: Request, mode: Mode, a: StartAnswers): (State, Option<Stage>) {
    if a.session.None? then (s, Some(Random))
    else
      var (checked, failure) := Preflight(s, request.node, mode, a.session.value, a);
      if failure.Some? then (checked, failure)
      else ProveCore(Launched(checked, request, mode, a.session.value, a), request.node, mode, a)
  }

  // ---- Undoing a failed start -------------------------------------------

  // `mark_failed_proof`
  function FailedProofs(p: Proofs, stage: Stage): Proofs {
    match stage
    case GenerateConfig => p.(config := Plain(Failed))
    case SessionStorage => p.(config := Plain(Failed))
    case ConfigCheck => p.(config := Plain(Failed))
    case StartEngine => p.(process := Plain(Failed))
    case EngineProcess => p.(process := Plain(Failed))
    case VerifyListeners =>
      p.(http := Plain(Failed), socks := Plain(Failed), health := Plain(Failed), scope := Plain(Failed))
    case ProveTraffic => p.(outbound := Plain(Failed))
    case ProxyPublish => p.(proxy := Plain(Failed))
    case ProxyOwnership => p.(proxy := Plain(Failed))
    case _ => p
  }

  function InRecovery(s: State, node: Option<nat>, stage: Stage): State {
    Update(s.(recovery := true), RecoveryRequired, node, Some(stage))
  }

  // Stops the child of the active session, if there is one.
  function ChildStopped(s: State, stop: Option<Stage>): State {
    if s.active.None? then s else Logged(s, StoppedCore(s.active.value.session, stop.None?))
  }

  // Gives up the active session, if there is one.
  function Release(s: State): State {
    ClearMetadata(if s.active.None? then s else Logged(s.(active := None), Released(s.active.value.session)))
  }

  function EnterRollBack(s: State, node: nat, stage: Stage): State {
    Update(WithProofs(s, FailedProofs(s.status.proofs, stage)), RollingBack, Some(node), None)
  }

  function EndRollBackLocal(s: State, node: nat, stage: Stage, c: Cleanup): State {
    var stopped := ChildStopped(s, c.stop);
    if s.active.Some? && c.stop.Some? then
      InRecovery(stopped.(status := stopped.status.(ports := Some(s.active.value.ports), engine := true)), Some(node), c.stop.value)
    else
      var released := Release(stopped);
      if stage == SessionRecovery || !c.reconciled then InRecovery(released, Some(node), stage)
      else Update(released, DisconnectedWithError, Some(node), Some(stage))
  }

  function RollBackLocal(s: State, node: nat, stage: Stage, c: Cleanup): State {
    EndRollBackLocal(EnterRollBack(s, node, stage), node, stage, c)
  }

  predicate RestoreOk(restore: Restore) { restore == Restored || restore == ForeignPreserved }

  function ProxyRestored(s: State, restore: Restore): State
    requires s.active.Some?
  {
    Logged(s.(active := Some(s.active.value.(requiresRestore := !RestoreOk(restore)))),
           RestoredProxy(s.active.value.session, RestoreOk(restore)))
  }

  // With Windows restored: stop the child, let the session go, report.
  function EndRollBack(s: State, node: nat, stage: Stage, c: Cleanup): State {
    var stopped := ChildStopped(s, c.stop);
    if s.active.Some? && c.stop.Some? then InRecovery(stopped, Some(node), c.stop.value)
    else
      var released := Release(stopped);
      if !c.reconciled then InRecovery(released, Some(node), stage)
      else Update(released, DisconnectedWithError, Some(node), Some(stage))
  }

  function RollBackProxy(s: State, node: nat, stage: Stage, c: Cleanup): State {
    var rolling := EnterRollBack(s, node, stage);
    if s.active.Some? && s.active.value.requiresRestore then
      var restored := ProxyRestored(rolling, c.restore);
      if RestoreOk(c.restore) then EndRollBack(restored, node, stage, c) else InRecovery(restored, Some(node), ProxyRestore)
    else EndRollBack(rolling, node, stage, c)
  }

  // ---- Stopping ---------------------------------------------------------

  function Restoring(s: State): State { Update(s, RestoringSystemProxy, s.status.node, None) }

  // Restoration when needed, and the resulting ownership proof.
  function RestoreFirst(s: State, c: Cleanup): State
    requires s.active.Some?
  {
    if !s.active.value.requiresRestore then s
    else
      var restored := ProxyRestored(Restoring(s), c.restore);
      match c.restore
      case Restored => WithProofs(restored, restored.status.proofs.(proxy := Plain(Passed)))
      case ForeignPreserved => WithProofs(restored, restored.status.proofs.(proxy := Plain(Failed)))
      case _ => restored
  }

  function AfterCleanup(s: State, node: Option<nat>, conflict: bool, terminal: Option<Stage>, reconciled: bool): (State, bool) {
    if !reconciled then (InRecovery(s, node, SessionRecovery), false)
    else
      var clean := s.(recovery := false);
      if conflict then
        var paused := if s.intent.Some? then clean.(intent := Some(s.intent.value.(paused := true))) else clean;
        (Update(paused.(status := paused.status.(session := None)), DisconnectedWithError, node, Some(ProxyOwnership)), false)
      else if terminal.Some? then (Update(clean, DisconnectedWithError, node, terminal), true)
      else (ResetDisconnected(clean), true)
  }

  // With Windows restored: stop the child and clean up.
  function StopRestored(s: State, node: Option<nat>, conflict: bool, terminal: Option<Stage>, c: Cleanup): (State, bool) {
    var stopped := ChildStopped(Update(s, StoppingCore, node, None), c.stop);
    if c.stop.Some? then (InRecovery(stopped, node, c.stop.value), false)
    else AfterCleanup(Release(stopped), node, conflict, terminal, c.reconciled)
  }

  // `stop_active_locked`: the new state and whether cleanup completed.
  function StopActive(s: State, terminal: Option<Stage>, c: Cleanup): (State, bool) {
    if s.active.None? then (if s.recovery then s else ResetDisconnected(s), true)
    else
      var owed := s.active.value.requiresRestore;
      var restored := RestoreFirst(s, c);
      if owed && !RestoreOk(c.restore) then (InRecovery(restored, s.status.node, ProxyRestore), false)
      else StopRestored(restored, s.status.node, owed && c.restore == ForeignPreserved, terminal, c)
  }

  // ---- Connecting -------------------------------------------------------

  predicate Exact(s: State, mode: Mode, request: Request) {
    s.active.Some? && s.active.value.mode == mode && s.active.value.node == request.node && s.active.value.routing == request.routing
  }

  function LocalAttempt(s: State, request: Request, a: StartAnswers, c: Cleanup): State {
    var (started, failure) := StartCore(s, request, LocalOnly, a);
    if failure.None? then started else RollBackLocal(started, request.node, failure.value, c)
  }

  // What `start_local_proxy` does while it holds both locks; `true` when it goes on to verify the
  // running session with the state lock released.
  function StartLocal(s: State, request: Request, known: bool, sameIdentity: bool, a: StartAnswers, c: Cleanup): (State, bool) {
    if s.shuttingDown || s.recovery || !known then (s, false)
    else if s.active.Some? then (s, Exact(s, LocalOnly, request) && sameIdentity)
    else (LocalAttempt(s, request, a, c), false)
  }

  function LocalReverified(s: State, node: nat, ms: nat): State {
    var proven := WithProofs(s, s.status.proofs.(outbound := Row(Passed, Some(ms)), scope := Plain(Passed)));
    Update(Update(proven.(status := proven.status.(routeCheck := Some(ms))), OutboundVerified, Some(node), None),
           LocalProxyReady, Some(node), None)
  }

  // Ends the session that could not be verified, if it is still there, and starts a new one.
  function ReplaceLocal(s: State, request: Request, stop: Option<Stage>, reconciled: bool, a: StartAnswers, c: Cleanup): State {
    var failed := WithProofs(s, s.status.proofs.(outbound := Plain(Failed), scope := Plain(Failed)));
    var stopped := ChildStopped(Update(failed, RollingBack, Some(request.node), None), stop);
    if s.active.Some? && stop.Some? then InRecovery(stopped, Some(request.node), stop.value)
    else
      var released := Release(stopped);
      if !reconciled then InRecovery(released, Some(request.node), SessionRecovery)
      else LocalAttempt(released, request, a, c)
  }

  // After the verification: confirm the session, or replace it by a new one.
  function FinishLocal(s: State, request: Request, sameIdentity: bool, proof: Option<nat>, live: bool, stop: Option<Stage>,
                       reconciled: bool, a: StartAnswers, c: Cleanup): State {
    if proof.Some? && !(Exact(s, LocalOnly, request) && sameIdentity) then s
    else if proof.Some? && live then LocalReverified(s, request.node, proof.value)
    else ReplaceLocal(s, request, stop, reconciled, a, c)
  }

  // The first section of `start_system_proxy`: record the intent.
  function EnterProxy(s: State, request: Request, valid: bool, known: bool): (State, bool) {
    if !valid || !known || s.shuttingDown || s.recovery || s.status.phase == BlockedByConflict then (s, false)
    else (s.(intent := Some(Intent(request, 0, s.now + ReconnectDelay(0), false))), true)
  }

  datatype Attempt = Verify | Ended(ok: bool)

  // `start_system_proxy_locked` up to its end or to the verification of the running session.
  function ProxyAttempt(s: State, request: Request, known: bool, sameIdentity: bool, a: StartAnswers, c: Cleanup): (State, Attempt) {
    if s.shuttingDown || s.recovery then (s, Ended(false))
    else if s.active.Some? then (s, if Exact(s, SystemProxy, request) && sameIdentity then Verify else Ended(false))
    else if !known then (s, Ended(false))
    else
      var (started, failure) := StartCore(s, request, SystemProxy, a);
      if failure.None? then (started, Ended(true)) else (RollBackProxy(started, request.node, failure.value, c), Ended(false))
  }

  function ProxyReverified(s: State, node: nat, ms: nat): State {
    var proven := WithProofs(s, s.status.proofs.(outbound := Row(Passed, Some(ms)), scope := Plain(Passed), proxy := Plain(Passed)));
    Update(proven.(status := proven.status.(routeCheck := Some(ms))), SystemProxyReady, Some(node), None)
  }

  // After the verification of the running session.
  function FinishProxy(s: State, request: Request, proof: Option<nat>, live: bool, owned: bool): (State, bool) {
    if !Exact(s, SystemProxy, request) then (s, false)
    else if proof.Some? && live && owned then (ProxyReverified(s, request.node, proof.value), true)
    else if owned then (Update(s, Degraded, Some(request.node), Some(ProveTraffic)), false)
    else (Update(s, BlockedByConflict, Some(request.node), Some(ProxyOwnership)), false)
  }

  predicate PausesRetry(stage: Stage) {
    stage == EngineLayout || stage == EngineIntegrity || stage == ConfigCheck || stage == GenerateConfig || stage == ProxyOwnership
  }

  // The retry schedule after an attempt.
  function Rescheduled(s: State, ok: bool): State {
    if s.intent.None? then s
    else
      var failures := if ok then 0 else s.intent.value.failures + 1;
      s.(intent := Some(s.intent.value.(failures := failures, next := s.now + ReconnectDelay(failures),
                                        paused := s.intent.value.paused || (s.status.error.Some? && PausesRetry(s.status.error.value)))))
  }

  function Flagged(s: State): State { s.(status := Synced(s, s.status)) }

  // `finish_connection_attempt`
  function FinishAttempt(s: State, ok: bool): State { Reemitted(Flagged(Rescheduled(s, ok))) }

  // The first section of `stop`: cancel the intent. The flags follow but nothing is published.
  function CancelIntent(s: State): State {
    Flagged(s.(intent := None))
  }

  // The next attempt of an intent is at most a minute ahead.
  predicate IntentBound(s: State) {
    s.intent.Some? ==> s.intent.value.next <= s.now + MAX_RETRY_MS
  }

  // ---- Recovery and automatic reconnection ------------------------------

  // The first section of `retry_session_recovery`; `true` when it goes on to recover with the
  // lock released.
  function BeginRecovery(s: State, c: Cleanup): (State, bool) {
    if !s.recovery then (s, false)
    else if s.active.Some? then (StopActive(s, None, c).0, false)
    else (s, true)
  }

  function FinishRecovery(s: State, sessions: Option<Stage>, journalClean: bool): State {
    if sessions.Some? then InRecovery(s, None, sessions.value)
    else if !journalClean then InRecovery(s, None, ProxyRestore)
    else ResetDisconnected(s.(recovery := false))
  }

  // `reconnect_tick`; the request is the one to start next.
  function ReconnectTick(s: State, c: Cleanup): (State, Option<Request>) {
    if s.shuttingDown || s.recovery || s.status.phase == BlockedByConflict || s.intent.None? then (s, None)
    else if s.intent.value.paused || s.now < s.intent.value.next then (s, None)
    else if s.active.None? then (s, Some(s.intent.value.request))
    else if s.active.value.mode != SystemProxy || s.active.value.failures < 6 then (s, None)
    else
      var (stopped, ok) := StopActive(s, None, c);
      (stopped, if ok then Some(s.intent.value.request) else None)
  }

  // ---- Monitoring -------------------------------------------------------

  const PROBE_INTERVAL: nat := 10_000

  datatype Snapshot = Snapshot(session: nat, generation: nat, mode: Mode, node: nat)

  function LossStage(live: Liveness): Stage { if live.Unknown? then live.stage else EngineProcess }

  // `handle_runtime_loss` without an owned TUN core.
  function ProcessLost(s: State, stage: Stage, c: Cleanup): State {
    StopActive(WithProofs(s, s.status.proofs.(process := Plain(Failed))), Some(stage), c).0
  }

  // The Windows proxy is somebody else's (blocked) or could not be checked (degraded).
  function OwnershipLost(s: State, phase: Phase): State
    requires s.active.Some?
  {
    Update(WithProofs(s, s.status.proofs.(proxy := Plain(Failed))), phase, Some(s.active.value.node), Some(ProxyOwnership))
  }

  // The first section of `monitor_tick`; a snapshot when a probe is due.
  function MonitorBegin(s: State, live: Liveness, owned: Option<bool>, c: Cleanup): (State, Option<Snapshot>) {
    if s.recovery || s.status.phase == RecoveryRequired || s.active.None? then (s, None)
    else if live != Alive then (ProcessLost(s, LossStage(live), c), None)
    else
      var active := s.active.value;
      if active.mode == SystemProxy && owned != Some(true) then
        (OwnershipLost(s, if owned.Some? then BlockedByConflict else Degraded), None)
      else if s.now - active.lastProbe < PROBE_INTERVAL then (s, None)
      else (s.(active := Some(active.(lastProbe := s.now))),
            Some(Snapshot(active.session, active.generation, active.mode, active.node)))
  }

  predicate Current(s: State, snapshot: Snapshot) {
    s.active.Some? && s.active.value.generation == snapshot.generation && s.active.value.session == snapshot.session
  }

  function ReadyPhase(mode: Mode): Phase {
    match mode case LocalOnly => LocalProxyReady case SystemProxy => SystemProxyReady case Tun => TunReady
  }

  function Measured(s: State, snapshot: Snapshot, ms: nat): State
    requires s.active.Some?
  {
    var proofs := s.status.proofs.(outbound := Row(Passed, Some(ms)), scope := Plain(Passed));
    var proven := WithProofs(s.(active := Some(s.active.value.(failures := 0))),
                             if snapshot.mode == SystemProxy then proofs.(proxy := Plain(Passed)) else proofs);
    proven.(status := proven.status.(routeCheck := Some(ms)))
  }

  function ProbePassed(s: State, snapshot: Snapshot, ms: nat): State
    requires s.active.Some?
  {
    var measured := Measured(s, snapshot, ms);
    var verified := if KeepsSteady(s.status.phase) then measured else Update(measured, OutboundVerified, Some(snapshot.node), None);
    Update(verified, ReadyPhase(snapshot.mode), Some(snapshot.node), None)
  }

  function Counted(s: State): State
    requires s.active.Some?
  {
    var failures := if s.active.value.failures < 255 then s.active.value.failures + 1 else 255;
    s.(active := Some(s.active.value.(failures := failures)), status := s.status.(steady := None))
  }

  function ProbeFailed(s: State, snapshot: Snapshot, stage: Stage): State
    requires s.active.Some?
  {
    var counted := Counted(s);
    if counted.active.value.failures >= 2 then
      Update(WithProofs(counted.(status := counted.status.(routeCheck := None)),
                        s.status.proofs.(outbound := Plain(Failed))),
             Degraded, Some(snapshot.node), Some(stage))
    else if s.status.steady.Some? then Reemitted(counted)
    else counted
  }

  // The second section, with the probe's result; `true` when a warm measurement follows.
  function MonitorResult(s: State, snapshot: Snapshot, live: Liveness, listeners: Option<Stage>, proof: Probe, c: Cleanup)
    : (State, bool)
  {
    if s.recovery || s.status.phase == RecoveryRequired || !Current(s, snapshot) then (s, false)
    else if live != Alive || listeners.Some? then
      var stage := if live != Alive then LossStage(live) else listeners.value;
      (StopActive(WithProofs(s, s.status.proofs.(scope := Plain(Failed))), Some(stage), c).0, false)
    else match proof
      case Latency(ms) => (ProbePassed(s, snapshot, ms), snapshot.mode == SystemProxy)
      case NoProof(stage) => (ProbeFailed(s, snapshot, stage), false)
  }

  // The third section, with the warm measurement.
  function MonitorWarm(s: State, snapshot: Snapshot, live: Liveness, latency: Option<nat>, c: Cleanup): State {
    if s.recovery || s.status.error.Some? || !KeepsSteady(s.status.phase) || !Current(s, snapshot) then s
    else if live != Alive then ProcessLost(s, LossStage(live), c)
    else Reemitted(s.(status := s.status.(steady := latency)))
  }

  // ---- Runs -------------------------------------------------------------

  // Which command holds the operation lock, and where it is.
  datatype Op =
    | Free | LocalVerifying(request: Request) | ProxyStarting(request: Request) | ProxyVerifying(request: Request)
    | Finishing(ok: bool) | Recovering

  datatype MonitorAt = Idle | Probing(snapshot: Snapshot) | Warming(snapshot: Snapshot)

  // `stops` counts the stop commands that have cancelled the intent and wait for the operation lock.
  datatype System = System(state: State, op: Op, monitor: MonitorAt, stops: nat)

  datatype Step =
    | CallLocal(request: Request, known: bool, sameIdentity: bool, a: StartAnswers, c: Cleanup)
    | LocalChecked(sameIdentity: bool, proof: Option<nat>, live: bool, stop: Option<Stage>, reconciled: bool, a: StartAnswers, c: Cleanup)
    | CallProxy(request: Request, valid: bool, known: bool)
    | ProxyStart(known: bool, sameIdentity: bool, a: StartAnswers, c: Cleanup)
    | ProxyChecked(proof: Option<nat>, live: bool, owned: bool)
    | AttemptEnds
    | CallStop
    | StopRuns(c: Cleanup)
    | CallRetry(c: Cleanup)
    | RetryEnds(sessions: Option<Stage>, journalClean: bool)
    | Reconnect(c: Cleanup)
    | MonitorBegins(alive: Liveness, ownership: Option<bool>, c: Cleanup)
    | MonitorProbed(alive: Liveness, listeners: Option<Stage>, probe: Probe, c: Cleanup)
    | MonitorWarmed(alive: Liveness, warm: Option<nat>, c: Cleanup)
    | SetShutdown(on: bool)
    | Advance(ms: nat)

  predicate Enabled(y: System, e: Step) {
    match e
    case CallLocal(_, _, _, _, _) => y.op.Free?
    case LocalChecked(_, _, _, _, _, _, _) => y.op.LocalVerifying?
    case CallProxy(_, _, _) => y.op.Free?
    case ProxyStart(_, _, _, _) => y.op.ProxyStarting?
    case ProxyChecked(_, _, _) => y.op.ProxyVerifying?
    case AttemptEnds => y.op.Finishing?
    case CallStop => true
    case StopRuns(_) => y.op.Free? && y.stops > 0
    case CallRetry(_) => y.op.Free?
    case RetryEnds(_, _) => y.op.Recovering?
    case Reconnect(_) => y.op.Free?
    case MonitorBegins(_, _, _) => y.monitor.Idle?
    case MonitorProbed(_, _, _, _) => y.monitor.Probing?
    case MonitorWarmed(_, _, _) => y.monitor.Warming?
    case SetShutdown(_) => true
    case Advance(_) => true
  }

  function Apply(y: System, e: Step): System
    requires Enabled(y, e)
  {
    var s := y.state;
    match e
    case CallLocal(request, known, sameIdentity, a, c) =>
      var (next, verify) := StartLocal(s, request, known, sameIdentity, a, c);
      y.(state := next, op := if verify then LocalVerifying(request) else Free)
    case LocalChecked(sameIdentity, proof, live, stop, reconciled, a, c) =>
      y.(state := FinishLocal(s, y.op.request, sameIdentity, proof, live, stop, reconciled, a, c), op := Free)
    case CallProxy(request, valid, known) =>
      var (next, go) := EnterProxy(s, request, valid, known);
      y.(state := next, op := if go then ProxyStarting(request) else Free)
    case ProxyStart(known, sameIdentity, a, c) =>
      var (next, attempt) := ProxyAttempt(s, y.op.request, known, sameIdentity, a, c);
      y.(state := next, op := match attempt case Verify => ProxyVerifying(y.op.request) case Ended(ok) => Finishing(ok))
    case ProxyChecked(proof, live, owned) =>
      var (next, ok) := FinishProxy(s, y.op.request, proof, live, owned);
      y.(state := next, op := Finishing(ok))
    case AttemptEnds => y.(state := FinishAttempt(s, y.op.ok), op := Free)
    case CallStop => y.(state := CancelIntent(s), stops := y.stops + 1)
    case StopRuns(c) => y.(state := StopActive(s, None, c).0, stops := y.stops - 1)
    case CallRetry(c) =>
      var (next, recover) := BeginRecovery(s, c);
      y.(state := next, op := if recover then Recovering else Free)
    case RetryEnds(sessions, journalClean) => y.(state := FinishRecovery(s, sessions, journalClean), op := Free)
    case Reconnect(c) =>
      var (next, request) := ReconnectTick(s, c);
      y.(state := next, op := if request.Some? then ProxyStarting(request.value) else Free)
    case MonitorBegins(alive, ownership, c) =>
      var (next, snapshot) := MonitorBegin(s, alive, ownership, c);
      y.(state := next, monitor := if snapshot.Some? then Probing(snapshot.value) else Idle)
    case MonitorProbed(alive, listeners, probe, c) =>
      var (next, warm) := MonitorResult(s, y.monitor.snapshot, alive, listeners, probe, c);
      y.(state := next, monitor := if warm then Warming(y.monitor.snapshot) else Idle)
    case MonitorWarmed(alive, warm, c) => y.(state := MonitorWarm(s, y.monitor.snapshot, alive, warm, c), monitor := Idle)
    case SetShutdown(on) => y.(state := s.(shuttingDown := on))
    case Advance(ms) => y.(state := s.(now := s.now + ms))
  }

  // At startup: disconnected, or waiting for recovery of what an earlier run left.
  function Initial(leftover: Option<Stage>): System {
    var empty := State(DefaultStatus(), None, None, false, false, 0, Beginning);
    System(if leftover.Some? then InRecovery(empty, None, leftover.value) else empty, Free, Idle, 0)
  }

  ghost function Run(leftover: Option<Stage>, steps: seq<Step>): Option<System> {
    if steps == [] then Some(Initial(leftover))
    else match Run(leftover, steps[..|steps| - 1])
      case None => None
      case Some(y) => if Enabled(y, steps[|steps| - 1]) then Some(Apply(y, steps[|steps| - 1])) else None
  }
}
