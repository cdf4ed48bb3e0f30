// Every snapshot the session machine publishes is one the UI accepts, with the exact steps at
// which it is not (src-tauri/src/application.rs:1417-1967, 2327-3719; src/tauriContract.ts:247-413).
module SessionContract {
  import opened Text
  import opened RuntimeStatus
  import opened Session

  predicate AllAccepted(log: Log) {
    match log case Beginning => true case Then(before, e) => AllAccepted(before) && (e.Published? ==> Accepted(e.status))
  }

  // What every state of the machine satisfies, even in the middle of a section.
  ghost predicate Base(s: State) {
    && s.status.scope == s.status.mode && LatenciesCoherent(s.status.proofs)
    && (s.status.ports.Some? ==> ValidPorts(s.status.ports.value)) && Short(s.status.routeCheck) && Short(s.status.steady)
    && AllAccepted(s.log) && IntentBound(s)
  }

  // The status describes the retained session.
  predicate Describes(status: Status, active: Active) {
    && status.session == Some(active.session) && status.node == Some(active.node) && status.mode == active.mode
    && active.mode != Tun && ValidPorts(active.ports)
    && (active.requiresRestore ==> active.mode == SystemProxy && status.ports.Some?)
  }

  // Everything proven about the engine but, possibly, that its process still runs.
  predicate NearlyProven(status: Status) {
    && status.proofs.config.state == Passed && status.proofs.http.state == Passed && status.proofs.socks.state == Passed
    && status.proofs.health.state == Passed && status.ports.Some?
    && (status.mode == LocalOnly ==> status.proofs.proxy.state == NotRun)
  }

  predicate Established(status: Status) { NearlyProven(status) && status.proofs.process.state == Passed }

  predicate EndPhase(phase: Phase) { phase == Disconnected || phase == DisconnectedWithError || phase == RecoveryRequired }

  predicate Shape(s: State) {
    match s.active
    case None => s.status.ports.None? && EndPhase(s.status.phase)
    case Some(active) => Describes(s.status, active) && (!s.recovery ==> Established(s.status)) && s.status.phase != Disconnected
  }

  // What holds whenever no section is running.
  ghost predicate Sound(s: State) {
    Base(s) && Accepted(s.status) && Shape(s) && (s.status.phase == RecoveryRequired ==> s.recovery)
  }

  // Reserved ports are valid and distinct; a health answer comes within a day.
  predicate ShortProbe(proof: Probe) { proof.Latency? ==> Short(Some(proof.ms)) }
  predicate GoodServices(a: StartAnswers) { ValidPorts(a.ports) && ShortProbe(a.proof) }

  // ---- Publishing -------------------------------------------------------

  lemma FlagsCoherent(s: State, status: Status)
    requires IntentBound(s) && (status.phase == BlockedByConflict ==> s.active.Some?)
    ensures RetryCoherent(Synced(s, status))
  {}

  // An update whose phase is coherent publishes an accepted snapshot.
  lemma UpdateAccepted(s: State, phase: Phase, node: Option<nat>, error: Option<Stage>)
    requires Base(s) && (phase == BlockedByConflict ==> s.active.Some?)
    requires PhaseCoherent(UpdatedStatus(s, phase, node, error)) && SteadyCoherent(UpdatedStatus(s, phase, node, error))
    ensures Base(Update(s, phase, node, error)) && Accepted(Update(s, phase, node, error).status)
  {
    FlagsCoherent(s, s.status.(phase := phase));
  }

  predicate TransitPhase(phase: Phase) {
    phase == Preparing || phase == ValidatingConfig || phase == StartingCore || phase == VerifyingListener
    || phase == ProvingTraffic || phase == OutboundVerified || phase == RollingBack || phase == StoppingCore
  }

  lemma PassingAccepted(s: State, phase: Phase, node: Option<nat>, error: Option<Stage>)
    requires Base(s) && TransitPhase(phase)
    ensures Base(Update(s, phase, node, error)) && Accepted(Update(s, phase, node, error).status)
  {
    UpdateAccepted(s, phase, node, error);
  }

  lemma EndAccepted(s: State, phase: Phase, node: Option<nat>, stage: Stage)
    requires Base(s) && (phase == DisconnectedWithError || phase == RecoveryRequired)
    ensures Base(Update(s, phase, node, Some(stage))) && Accepted(Update(s, phase, node, Some(stage)).status)
  {
    UpdateAccepted(s, phase, node, Some(stage));
  }

  lemma RecoverySound(s: State, node: Option<nat>, stage: Stage)
    requires Base(s)
    requires match s.active case None => s.status.ports.None? case Some(active) => Describes(s.status.(node := node), active)
    ensures Sound(InRecovery(s, node, stage)) && InRecovery(s, node, stage).active == s.active
  {
    EndAccepted(s.(recovery := true), RecoveryRequired, node, stage);
  }

  lemma FailedEndSound(s: State, node: Option<nat>, stage: Stage)
    requires Base(s) && s.active.None? && s.status.ports.None?
    ensures Sound(Update(s, DisconnectedWithError, node, Some(stage)))
  {
    EndAccepted(s, DisconnectedWithError, node, stage);
  }

  lemma ResetSound(s: State)
    requires AllAccepted(s.log) && IntentBound(s) && s.active.None?
    ensures Sound(ResetDisconnected(s))
  {
    var cleared := ClearMetadata(s);
    UpdateAccepted(cleared.(status := cleared.status.(scope := LocalOnly, mode := LocalOnly, session := None, proofs := DefaultProofs())),
                   Disconnected, None, None);
  }

  // ---- Starting ---------------------------------------------------------

  // In the middle of a start of `request`: no core yet.
  ghost predicate Before(s: State, mode: Mode, session: nat) {
    Base(s) && s.active.None? && s.status.ports.None? && s.status.mode == mode && s.status.session == Some(session)
  }

  lemma PreparingBefore(s: State, node: nat, mode: Mode, session: nat)
    requires Base(s) && s.active.None? && s.status.ports.None?
    ensures Before(EnterPreparing(s, node, mode, session), mode, session)
    ensures EnterPreparing(s, node, mode, session).status.proofs == DefaultProofs()
  {
    PassingAccepted(s.(status := s.status.(scope := mode, mode := mode, session := Some(session), proofs := DefaultProofs())),
                    Preparing, Some(node), None);
  }

  lemma ValidatingBefore(s: State, node: nat, mode: Mode, session: nat)
    requires Before(s, mode, session)
    ensures Before(Validating(s, node), mode, session)
    ensures Validating(s, node).status.proofs == s.status.proofs.(config := Plain(Pending))
  {
    PassingAccepted(WithProofs(s, s.status.proofs.(config := Plain(Pending))), ValidatingConfig, Some(node), None);
  }

  lemma LaunchingBefore(s: State, node: nat, mode: Mode, session: nat)
    requires Before(s, mode, session)
    ensures Before(Launching(s, node), mode, session)
    ensures Launching(s, node).status.proofs == s.status.proofs.(config := Plain(Passed))
  {
    PassingAccepted(WithProofs(s, s.status.proofs.(config := Plain(Passed))), StartingCore, Some(node), None);
  }

  lemma PreflightBefore(s: State, node: nat, mode: Mode, session: nat, a: StartAnswers)
    requires Base(s) && s.active.None? && s.status.ports.None?
    ensures var (next, failure) := Preflight(s, node, mode, session, a);
            && Before(next, mode, session)
            && (failure.None? ==> next.status.proofs == DefaultProofs().(config := Plain(Passed)))
  {
    var preparing := EnterPreparing(s, node, mode, session);
    PreparingBefore(s, node, mode, session);
    ValidatingBefore(preparing, node, mode, session);
    LaunchingBefore(Validating(preparing, node), node, mode, session);
  }

  // With a core running: the status describes it, up to the ports before they are published.
  ghost predicate During(s: State, node: nat, mode: Mode) {
    && Base(s) && s.active.Some? && Describes(s.status, s.active.value)
    && s.active.value.node == node && s.active.value.mode == mode
  }

  lemma LaunchedDuring(s: State, request: Request, mode: Mode, session: nat, a: StartAnswers)
    requires Before(s, mode, session) && mode != Tun && ValidPorts(a.ports)
    ensures var next := Launched(s, request, mode, session, a);
            && During(next, request.node, mode) && !next.active.value.requiresRestore
            && next.status.proofs == s.status.proofs.(process := Plain(Passed), http := Plain(Pending), socks := Plain(Pending),
                                                      health := Plain(Pending))
  {
    var active := Active(session, a.generation, request.node, request.routing, mode, false, a.ports, 0, s.now);
    var started := Logged(s.(active := Some(active)), StartedCore(session));
    PassingAccepted(WithProofs(started, s.status.proofs.(process := Plain(Passed), http := Plain(Pending), socks := Plain(Pending),
                                                         health := Plain(Pending))),
                    VerifyingListener, Some(request.node), None);
  }

  lemma ProvingDuring(s: State, node: nat, mode: Mode)
    requires During(s, node, mode)
    ensures During(Proving(s, node), node, mode) && Proving(s, node).active == s.active
    ensures Proving(s, node).status.proofs
            == s.status.proofs.(http := Plain(Passed), socks := Plain(Passed), health := Plain(Passed), outbound := Plain(Pending))
  {
    PassingAccepted(WithProofs(s, s.status.proofs.(http := Plain(Passed), socks := Plain(Passed), health := Plain(Passed),
                                                   outbound := Plain(Pending))),
                    ProvingTraffic, Some(node), None);
  }

  lemma VerifiedDuring(s: State, node: nat, mode: Mode, ports: Ports, ms: nat)
    requires During(s, node, mode) && ValidPorts(ports) && Short(Some(ms))
    ensures During(Verified(s, node, ports, ms), node, mode) && Verified(s, node, ports, ms).active == s.active
    ensures Verified(s, node, ports, ms).status.proofs == s.status.proofs.(scope := Plain(Passed))
    ensures Verified(s, node, ports, ms).status.ports == Some(ports) && Verified(s, node, ports, ms).status.routeCheck == Some(ms)
    ensures Verified(s, node, ports, ms).status.steady.None?
  {
    var owned := WithProofs(s, s.status.proofs.(scope := Plain(Passed)));
    PassingAccepted(owned.(status := owned.status.(ports := Some(ports), routeCheck := Some(ms), engine := true)),
                    OutboundVerified, Some(node), None);
  }

  // The proofs of a started core once its traffic is verified.
  function VerifiedProofs(ms: nat): Proofs {
    Proofs(Plain(Passed), Plain(Passed), Plain(Passed), Plain(Passed), Plain(Passed), Row(Passed, Some(ms)), Plain(Passed), Plain(NotRun))
  }

  lemma LocalReadySound(s: State, node: nat, ms: nat)
    requires During(s, node, LocalOnly) && s.status.proofs == VerifiedProofs(ms) && s.status.ports.Some? && s.status.routeCheck == Some(ms)
    ensures Sound(Update(s, LocalProxyReady, Some(node), None))
  {
    UpdateAccepted(s, LocalProxyReady, Some(node), None);
  }

  lemma ApplyingDuring(s: State, node: nat)
    requires During(s, node, SystemProxy) && s.status.ports.Some?
    ensures During(Applying(s, node), node, SystemProxy) && Applying(s, node).status.ports == s.status.ports
    ensures Applying(s, node).status.proofs == s.status.proofs.(proxy := Plain(Pending)) && Applying(s, node).status.steady.None?
  {
    UpdateAccepted(WithProofs(s, s.status.proofs.(proxy := Plain(Pending))), ApplyingSystemProxy, Some(node), None);
  }

  lemma AppliedDuring(s: State, node: nat, publish: Publish)
    requires During(s, node, SystemProxy) && s.status.ports.Some?
    ensures During(AfterPublish(s, publish), node, SystemProxy) && AfterPublish(s, publish).status == s.status
  {}

  lemma ProxyReadySound(s: State, node: nat, ms: nat)
    requires During(s, node, SystemProxy) && s.status.ports.Some? && s.status.steady.None?
    requires s.status.proofs == VerifiedProofs(ms).(proxy := Plain(Pending))
    ensures Sound(ProxyReady(s, node, ms))
  {
    var owned := WithProofs(s, s.status.proofs.(proxy := Plain(Passed)));
    UpdateAccepted(owned.(status := owned.status.(routeCheck := Some(ms))), SystemProxyReady, Some(node), None);
  }

  lemma TakeOverSound(s: State, node: nat, ms: nat, a: StartAnswers)
    requires During(s, node, SystemProxy) && s.status.ports.Some? && s.status.proofs == VerifiedProofs(ms)
    ensures var (next, failure) := TakeOverProxy(s, node, ms, a);
            if failure.None? then Sound(next) && next.active.Some? else During(next, node, SystemProxy)
  {
    ApplyingDuring(s, node);
    AppliedDuring(Applying(s, node), node, a.publish);
    var applied := AfterPublish(Applying(s, node), a.publish);
    if a.publish == Applied && a.ownership == Some(true) { ProxyReadySound(applied, node, ms); }
  }

  lemma ProveCoreSound(s: State, node: nat, mode: Mode, a: StartAnswers)
    requires During(s, node, mode) && GoodServices(a)
    requires s.status.proofs == DefaultProofs().(config := Plain(Passed), process := Plain(Passed), http := Plain(Pending),
                                                 socks := Plain(Pending), health := Plain(Pending))
    ensures var (next, failure) := ProveCore(s, node, mode, a);
            if failure.None? then Sound(next) && next.active.Some? else During(next, node, mode)
  {
    if a.listening.None? {
      ProvingDuring(s, node, mode);
      if a.proof.Latency? {
        var proven := Proven(Proving(s, node), a.proof.ms);
        assert During(proven, node, mode);
        if a.owned.None? {
          VerifiedDuring(proven, node, mode, a.ports, a.proof.ms);
          var verified := Verified(proven, node, a.ports, a.proof.ms);
          assert verified.status.proofs == VerifiedProofs(a.proof.ms);
          if mode == SystemProxy { TakeOverSound(verified, node, a.proof.ms, a); } else { LocalReadySound(verified, node, a.proof.ms); }
        }
      }
    }
  }

  // After a failed start: what its undoing needs.
  ghost predicate Undoable(s: State, node: nat, mode: Mode) {
    Base(s) && if s.active.None? then s.status.ports.None? else During(s, node, mode)
  }

  lemma StartCoreSound(s: State, request: Request, mode: Mode, a: StartAnswers)
    requires Base(s) && s.active.None? && s.status.ports.None? && mode != Tun && GoodServices(a)
    ensures var (next, failure) := StartCore(s, request, mode, a);
            if failure.None? then Sound(next) && next.active.Some? else Undoable(next, request.node, mode)
  {
    if a.session.Some? {
      PreflightBefore(s, request.node, mode, a.session.value, a);
      var (checked, failure) := Preflight(s, request.node, mode, a.session.value, a);
      if failure.None? {
        LaunchedDuring(checked, request, mode, a.session.value, a);
        ProveCoreSound(Launched(checked, request, mode, a.session.value, a), request.node, mode, a);
      }
    }
  }

  // ---- Where a start ends -----------------------------------------------

  // The session of `request` runs and the status says it is ready.
  predicate RunsReady(s: State, mode: Mode, request: Request) {
    && s.active.Some? && s.active.value.mode == mode
    && s.active.value.node == request.node && s.active.value.routing == request.routing
    && s.status.phase == (match mode case LocalOnly => LocalProxyReady case SystemProxy => SystemProxyReady case Tun => TunReady)
    && (s.active.value.requiresRestore <==> mode == SystemProxy)
  }

  lemma TakeOverReady(s: State, node: nat, ms: nat, a: StartAnswers)
    requires s.active.Some?
    ensures var (next, failure) := TakeOverProxy(s, node, ms, a);
            && next.active == Some(s.active.value.(requiresRestore := a.publish != Unchanged))
            && (failure.None? ==> a.publish == Applied && next.status.phase == SystemProxyReady)
  {
    var applied := AfterPublish(Applying(s, node), a.publish);
    assert applied.active == Some(s.active.value.(requiresRestore := a.publish != Unchanged));
  }

  lemma ProveCoreReady(s: State, node: nat, mode: Mode, a: StartAnswers)
    requires s.active.Some? && !s.active.value.requiresRestore && mode != Tun
    ensures var (next, failure) := ProveCore(s, node, mode, a);
            failure.None? ==> next.active == Some(s.active.value.(requiresRestore := mode == SystemProxy))
                              && next.status.phase == ReadyPhase(mode)
  {
    if a.proof.Latency? {
      var proven := Proven(Proving(s, node), a.proof.ms);
      assert proven.active == s.active;
      var verified := Verified(proven, node, a.ports, a.proof.ms);
      assert verified.active == s.active;
      TakeOverReady(verified, node, a.proof.ms, a);
    }
  }

  // A start that does not fail ends with the requested session running and ready.
  lemma StartCoreReady(s: State, request: Request, mode: Mode, a: StartAnswers)
    requires s.active.None? && mode != Tun && StartCore(s, request, mode, a).1.None?
    ensures RunsReady(StartCore(s, request, mode, a).0, mode, request)
  {
    var checked := Preflight(s, request.node, mode, a.session.value, a).0;
    var launched := Launched(checked, request, mode, a.session.value, a);
    assert Exact(launched, mode, request) && !launched.active.value.requiresRestore;
    ProveCoreReady(launched, request.node, mode, a);
  }

  // ---- Undoing ----------------------------------------------------------

  lemma FailedProofsCoherent(p: Proofs, stage: Stage)
    requires LatenciesCoherent(p)
    ensures LatenciesCoherent(FailedProofs(p, stage))
  {}

  lemma RollingFailed(s: State, node: nat, mode: Mode, stage: Stage)
    requires Undoable(s, node, mode)
    ensures Undoable(EnterRollBack(s, node, stage), node, mode) && EnterRollBack(s, node, stage).active == s.active
  {
    FailedProofsCoherent(s.status.proofs, stage);
    PassingAccepted(WithProofs(s, FailedProofs(s.status.proofs, stage)), RollingBack, Some(node), None);
  }

  lemma StoppedKeeps(s: State, stop: Option<Stage>)
    requires Base(s)
    ensures Base(ChildStopped(s, stop)) && ChildStopped(s, stop).status == s.status && ChildStopped(s, stop).active == s.active
    ensures Base(Release(s)) && Release(s).active.None? && Release(s).status.ports.None?
  {}

  // Once the session is let go, either end of an undone start is acceptable.
  lemma ReleasedEndsSound(s: State, node: nat, stage: Stage)
    requires Base(s)
    ensures Sound(InRecovery(Release(s), Some(node), stage))
    ensures Sound(Update(Release(s), DisconnectedWithError, Some(node), Some(stage)))
  {
    StoppedKeeps(s, None);
    RecoverySound(Release(s), Some(node), stage);
    FailedEndSound(Release(s), Some(node), stage);
  }

  lemma EndRollBackLocalSound(s: State, node: nat, stage: Stage, c: Cleanup)
    requires Undoable(s, node, LocalOnly)
    ensures Sound(EndRollBackLocal(s, node, stage, c))
  {
    StoppedKeeps(s, c.stop);
    var stopped := ChildStopped(s, c.stop);
    if s.active.Some? && c.stop.Some? {
      RecoverySound(stopped.(status := stopped.status.(ports := Some(s.active.value.ports), engine := true)), Some(node), c.stop.value);
    } else {
      ReleasedEndsSound(stopped, node, stage);
    }
  }

  lemma RollBackLocalSound(s: State, node: nat, stage: Stage, c: Cleanup)
    requires Undoable(s, node, LocalOnly)
    ensures Sound(RollBackLocal(s, node, stage, c))
  {
    RollingFailed(s, node, LocalOnly, stage);
    EndRollBackLocalSound(EnterRollBack(s, node, stage), node, stage, c);
  }

  lemma EndRollBackSound(s: State, node: nat, mode: Mode, stage: Stage, c: Cleanup)
    requires Undoable(s, node, mode)
    ensures Sound(EndRollBack(s, node, stage, c))
  {
    StoppedKeeps(s, c.stop);
    var stopped := ChildStopped(s, c.stop);
    if s.active.Some? && c.stop.Some? {
      RecoverySound(stopped, Some(node), c.stop.value);
    } else {
      ReleasedEndsSound(stopped, node, stage);
    }
  }

  lemma RollBackProxySound(s: State, node: nat, stage: Stage, c: Cleanup)
    requires Undoable(s, node, SystemProxy)
    ensures Sound(RollBackProxy(s, node, stage, c))
  {
    RollingFailed(s, node, SystemProxy, stage);
    var rolling := EnterRollBack(s, node, stage);
    if s.active.Some? && s.active.value.requiresRestore {
      var restored := ProxyRestored(rolling, c.restore);
      assert Undoable(restored, node, SystemProxy);
      if RestoreOk(c.restore) { EndRollBackSound(restored, node, SystemProxy, stage, c); }
      else { RecoverySound(restored, Some(node), ProxyRestore); }
    } else {
      EndRollBackSound(rolling, node, SystemProxy, stage, c);
    }
  }

  // ---- Stopping ---------------------------------------------------------

  // A running session whose proofs may have been marked since.
  ghost predicate Stoppable(s: State) {
    Base(s) && s.active.Some? && Describes(s.status, s.active.value)
  }

  lemma RestoringStoppable(s: State)
    requires Stoppable(s) && s.active.value.requiresRestore
    ensures Stoppable(Restoring(s)) && Restoring(s).active == s.active
    ensures Restoring(s).status.proofs == s.status.proofs && Restoring(s).status.ports == s.status.ports
    ensures Restoring(s).status.node == s.status.node
  {
    UpdateAccepted(s, RestoringSystemProxy, s.status.node, None);
  }

  lemma RestoredStoppable(s: State, restore: Restore)
    requires Stoppable(s) && s.active.value.requiresRestore
    ensures var next := ProxyRestored(s, restore);
            && Stoppable(next) && next.status == s.status
            && next.active == Some(s.active.value.(requiresRestore := !RestoreOk(restore)))
  {}

  lemma OwnershipRowStoppable(s: State, row: Row)
    requires Stoppable(s) && row.latency.None?
    ensures Stoppable(WithProofs(s, s.status.proofs.(proxy := row)))
  {}

  lemma RestoreFirstStoppable(s: State, c: Cleanup)
    requires Stoppable(s)
    ensures var next := RestoreFirst(s, c);
            && Stoppable(next) && next.status.node == s.status.node && next.status.ports == s.status.ports
            && next.status.proofs == s.status.proofs.(proxy := next.status.proofs.proxy)
            && (!s.active.value.requiresRestore ==> next == s)
            && next.active == Some(s.active.value.(requiresRestore := s.active.value.requiresRestore && !RestoreOk(c.restore)))
  {
    if s.active.value.requiresRestore {
      RestoringStoppable(s);
      RestoredStoppable(Restoring(s), c.restore);
      var restored := ProxyRestored(Restoring(s), c.restore);
      OwnershipRowStoppable(restored, Plain(Passed));
      OwnershipRowStoppable(restored, Plain(Failed));
    }
  }

  lemma AfterCleanupSound(s: State, node: Option<nat>, conflict: bool, terminal: Option<Stage>, reconciled: bool)
    requires Base(s) && s.active.None? && s.status.ports.None?
    ensures Sound(AfterCleanup(s, node, conflict, terminal, reconciled).0)
  {
    if !reconciled {
      RecoverySound(s, node, SessionRecovery);
    } else {
      var clean := s.(recovery := false);
      if conflict {
        var paused := if s.intent.Some? then clean.(intent := Some(s.intent.value.(paused := true))) else clean;
        FailedEndSound(paused.(status := paused.status.(session := None)), node, ProxyOwnership);
      } else if terminal.Some? {
        FailedEndSound(clean, node, terminal.value);
      } else {
        ResetSound(clean);
      }
    }
  }

  lemma StopRestoredSound(s: State, node: Option<nat>, conflict: bool, terminal: Option<Stage>, c: Cleanup)
    requires Stoppable(s) && s.status.node == node
    ensures var next := StopRestored(s, node, conflict, terminal, c).0;
            && Sound(next)
            && (next.active.Some? ==> next.active == s.active && next.recovery && next.status.proofs == s.status.proofs
                                      && next.status.ports == s.status.ports)
  {
    PassingAccepted(s, StoppingCore, node, None);
    var stopping := Update(s, StoppingCore, node, None);
    StoppedKeeps(stopping, c.stop);
    var stopped := ChildStopped(stopping, c.stop);
    StoppedKeeps(stopped, c.stop);
    if c.stop.Some? { RecoverySound(stopped, node, c.stop.value); }
    else { AfterCleanupSound(Release(stopped), node, conflict, terminal, c.reconciled); }
  }

  // What a failed stop leaves: the same session, waiting for recovery, with at most the
  // ownership row changed.
  ghost predicate KeptByStop(s: State, next: State) {
    next.active.Some? ==>
      && s.active.Some? && next.recovery
      && next.active == Some(s.active.value.(requiresRestore := next.active.value.requiresRestore))
      && next.status.proofs == s.status.proofs.(proxy := next.status.proofs.proxy) && next.status.ports == s.status.ports
      && (!s.active.value.requiresRestore ==> next.status.proofs == s.status.proofs)
  }

  lemma StopActiveSound(s: State, terminal: Option<Stage>, c: Cleanup)
    requires Stoppable(s) || (Sound(s) && s.active.None?)
    ensures Sound(StopActive(s, terminal, c).0) && KeptByStop(s, StopActive(s, terminal, c).0)
  {
    if s.active.None? {
      ResetSound(s);
    } else {
      RestoreFirstStoppable(s, c);
      var restored := RestoreFirst(s, c);
      var owed := s.active.value.requiresRestore;
      if owed && !RestoreOk(c.restore) { RecoverySound(restored, s.status.node, ProxyRestore); }
      else { StopRestoredSound(restored, s.status.node, owed && c.restore == ForeignPreserved, terminal, c); }
    }
  }

  // ---- Steps of a run ---------------------------------------------------

  // The re-verification that ends with an unproven process row, or blocks without failing the
  // ownership row. Both are decided by the state and the answers before the step.
  predicate Misreports(y: System, e: Step) {
    match e
    case ProxyChecked(proof, live, owned) =>
      && y.op.ProxyVerifying? && Exact(y.state, SystemProxy, y.op.request)
      && (if proof.Some? && live && owned then y.state.status.proofs.process.state != Passed
          else !owned && y.state.status.proofs.proxy.state != Failed)
    case LocalChecked(sameIdentity, proof, live, _, _, _, _) =>
      && y.op.LocalVerifying? && Exact(y.state, LocalOnly, y.op.request) && sameIdentity && proof.Some? && live
      && y.state.status.proofs.process.state != Passed
    case _ => false
  }

  // The monitor's snapshot names the session it was taken of.
  predicate Measures(s: State, snapshot: Snapshot) {
    Current(s, snapshot) ==> s.active.value.mode == snapshot.mode && s.active.value.node == snapshot.node
  }

  ghost predicate SoundSystem(y: System) {
    && Sound(y.state)
    && (y.op.LocalVerifying? && y.state.active.Some? ==> Exact(y.state, LocalOnly, y.op.request) && NearlyProven(y.state.status))
    && (y.op.ProxyVerifying? && y.state.active.Some? ==> Exact(y.state, SystemProxy, y.op.request) && NearlyProven(y.state.status))
    && (y.op.Recovering? ==> y.state.active.None?)
    && (!y.monitor.Idle? ==> Measures(y.state, y.monitor.snapshot))
  }

  // A drawn session identifier is not one being probed.
  predicate GoodStart(y: System, a: StartAnswers) {
    GoodServices(a) && (!y.monitor.Idle? ==> a.session != Some(y.monitor.snapshot.session))
  }

  predicate GoodAnswers(y: System, e: Step) {
    match e
    case CallLocal(_, _, _, a, _) => GoodStart(y, a)
    case LocalChecked(_, proof, _, _, _, a, _) => GoodStart(y, a) && Short(proof)
    case ProxyStart(_, _, a, _) => GoodStart(y, a)
    case ProxyChecked(proof, _, _) => Short(proof)
    case MonitorProbed(_, _, probe, _) => ShortProbe(probe)
    case MonitorWarmed(_, warm, _) => Short(warm)
    case _ => true
  }

  // After a start the retained session, if any, carries the drawn identifier.
  predicate CarriesDrawn(next: State, a: StartAnswers) {
    next.active.Some? ==> a.session == Some(next.active.value.session)
  }

  lemma LocalAttemptSound(s: State, request: Request, a: StartAnswers, c: Cleanup)
    requires Base(s) && s.active.None? && s.status.ports.None? && GoodServices(a)
    ensures Sound(LocalAttempt(s, request, a, c))
  {
    StartCoreSound(s, request, LocalOnly, a);
    var (started, failure) := StartCore(s, request, LocalOnly, a);
    if failure.Some? { RollBackLocalSound(started, request.node, failure.value, c); }
  }

  lemma ProxyAttemptSound(s: State, request: Request, known: bool, sameIdentity: bool, a: StartAnswers, c: Cleanup)
    requires Sound(s) && GoodServices(a)
    ensures Sound(ProxyAttempt(s, request, known, sameIdentity, a, c).0)
    ensures ProxyAttempt(s, request, known, sameIdentity, a, c).1.Verify? ==>
              ProxyAttempt(s, request, known, sameIdentity, a, c).0 == s && !s.recovery && Exact(s, SystemProxy, request)
  {
    if s.active.None? {
      StartCoreSound(s, request, SystemProxy, a);
      var (started, failure) := StartCore(s, request, SystemProxy, a);
      if failure.Some? { RollBackProxySound(started, request.node, failure.value, c); }
    }
  }

  predicate SameSession(s: State, next: State) {
    next.active.Some? ==> s.active.Some? && next.active.value.session == s.active.value.session
  }

  lemma TakeOverDrawn(s: State, node: nat, ms: nat, a: StartAnswers)
    requires s.active.Some?
    ensures SameSession(s, TakeOverProxy(s, node, ms, a).0)
  {
    var applied := AfterPublish(Applying(s, node), a.publish);
    assert applied.active.value.session == s.active.value.session;
    assert ProxyReady(applied, node, ms).active == applied.active;
  }

  lemma ProveDrawn(s: State, node: nat, mode: Mode, a: StartAnswers)
    requires s.active.Some?
    ensures SameSession(s, ProveCore(s, node, mode, a).0)
  {
    if a.proof.Latency? {
      var proven := Proven(Proving(s, node), a.proof.ms);
      assert proven.active == s.active;
      var verified := Verified(proven, node, a.ports, a.proof.ms);
      assert verified.active == s.active;
      TakeOverDrawn(verified, node, a.proof.ms, a);
    }
  }

  lemma StartDrawn(s: State, request: Request, mode: Mode, a: StartAnswers)
    requires s.active.None?
    ensures CarriesDrawn(StartCore(s, request, mode, a).0, a)
  {
    if a.session.Some? {
      var checked := Preflight(s, request.node, mode, a.session.value, a).0;
      assert checked.active.None?;
      ProveDrawn(Launched(checked, request, mode, a.session.value, a), request.node, mode, a);
    }
  }

  lemma EndSameSession(s: State, node: nat, stage: Stage, c: Cleanup)
    ensures SameSession(s, EndRollBack(s, node, stage, c))
  {
    assert ChildStopped(s, c.stop).active == s.active;
    assert Release(ChildStopped(s, c.stop)).active.None?;
  }

  lemma RollBackSameSession(s: State, node: nat, stage: Stage, c: Cleanup)
    ensures SameSession(s, RollBackProxy(s, node, stage, c))
  {
    var rolling := EnterRollBack(s, node, stage);
    assert rolling.active == s.active;
    EndSameSession(rolling, node, stage, c);
    if s.active.Some? {
      var restored := ProxyRestored(rolling, c.restore);
      assert SameSession(s, restored);
      EndSameSession(restored, node, stage, c);
    }
  }

  lemma EndLocalSameSession(s: State, node: nat, stage: Stage, c: Cleanup)
    ensures SameSession(s, EndRollBackLocal(s, node, stage, c))
  {
    assert ChildStopped(s, c.stop).active == s.active;
    assert Release(ChildStopped(s, c.stop)).active.None?;
  }

  lemma RollBackLocalSameSession(s: State, node: nat, stage: Stage, c: Cleanup)
    ensures SameSession(s, RollBackLocal(s, node, stage, c))
  {
    EndLocalSameSession(EnterRollBack(s, node, stage), node, stage, c);
  }

  lemma LocalAttemptDrawn(s: State, request: Request, a: StartAnswers, c: Cleanup)
    requires s.active.None?
    ensures CarriesDrawn(LocalAttempt(s, request, a, c), a)
  {
    StartDrawn(s, request, LocalOnly, a);
    var (started, failure) := StartCore(s, request, LocalOnly, a);
    if failure.Some? { RollBackLocalSameSession(started, request.node, failure.value, c); }
  }

  lemma ProxyAttemptDrawn(s: State, request: Request, known: bool, sameIdentity: bool, a: StartAnswers, c: Cleanup)
    requires s.active.None?
    ensures CarriesDrawn(ProxyAttempt(s, request, known, sameIdentity, a, c).0, a)
  {
    StartDrawn(s, request, SystemProxy, a);
    var (started, failure) := StartCore(s, request, SystemProxy, a);
    if failure.Some? { RollBackSameSession(started, request.node, failure.value, c); }
  }

  // ---- Re-verification --------------------------------------------------

  lemma UpdatePublishes(s: State, phase: Phase, node: Option<nat>, error: Option<Stage>)
    ensures AllAccepted(Update(s, phase, node, error).log)
            <==> AllAccepted(s.log) && Accepted(UpdatedStatus(s, phase, node, error))
    ensures Update(s, phase, node, error).status == UpdatedStatus(s, phase, node, error)
    ensures Update(s, phase, node, error).active == s.active
  {}

  // A confirmed System Proxy is published acceptably exactly when the process row is passed.
  lemma ProxyReverifiedIff(s: State, request: Request, ms: nat)
    requires Sound(s) && Exact(s, SystemProxy, request) && NearlyProven(s.status) && Short(Some(ms))
    ensures AllAccepted(ProxyReverified(s, request.node, ms).log) <==> s.status.proofs.process.state == Passed
    ensures s.status.proofs.process.state == Passed ==> Sound(ProxyReverified(s, request.node, ms))
  {
    var proven := WithProofs(s, s.status.proofs.(outbound := Row(Passed, Some(ms)), scope := Plain(Passed), proxy := Plain(Passed)));
    var measured := proven.(status := proven.status.(routeCheck := Some(ms)));
    UpdatePublishes(measured, SystemProxyReady, Some(request.node), None);
    if s.status.proofs.process.state == Passed { UpdateAccepted(measured, SystemProxyReady, Some(request.node), None); }
  }

  lemma LocalReverifiedIff(s: State, request: Request, ms: nat)
    requires Sound(s) && Exact(s, LocalOnly, request) && NearlyProven(s.status) && Short(Some(ms))
    ensures AllAccepted(LocalReverified(s, request.node, ms).log) <==> s.status.proofs.process.state == Passed
    ensures s.status.proofs.process.state == Passed ==> Sound(LocalReverified(s, request.node, ms))
  {
    var proven := WithProofs(s, s.status.proofs.(outbound := Row(Passed, Some(ms)), scope := Plain(Passed)));
    var measured := proven.(status := proven.status.(routeCheck := Some(ms)));
    PassingAccepted(measured, OutboundVerified, Some(request.node), None);
    var verified := Update(measured, OutboundVerified, Some(request.node), None);
    UpdatePublishes(verified, LocalProxyReady, Some(request.node), None);
    if s.status.proofs.process.state == Passed { UpdateAccepted(verified, LocalProxyReady, Some(request.node), None); }
  }

  lemma BlockedIff(s: State, request: Request)
    requires Sound(s) && Exact(s, SystemProxy, request) && NearlyProven(s.status)
    ensures AllAccepted(Update(s, BlockedByConflict, Some(request.node), Some(ProxyOwnership)).log) <==> s.status.proofs.proxy.state == Failed
    ensures s.status.proofs.proxy.state == Failed ==> Sound(Update(s, BlockedByConflict, Some(request.node), Some(ProxyOwnership)))
  {
    UpdatePublishes(s, BlockedByConflict, Some(request.node), Some(ProxyOwnership));
    if s.status.proofs.proxy.state == Failed { UpdateAccepted(s, BlockedByConflict, Some(request.node), Some(ProxyOwnership)); }
  }

  lemma DegradedSound(s: State, node: nat, stage: Stage)
    requires Base(s) && s.active.Some? && Describes(s.status.(node := Some(node)), s.active.value) && s.status.ports.Some?
    requires !s.recovery ==> Established(s.status)
    ensures Sound(Update(s, Degraded, Some(node), Some(stage)))
  {
    UpdateAccepted(s, Degraded, Some(node), Some(stage));
  }

  // The re-verification of a System Proxy session publishes only acceptable snapshots exactly
  // when it does not misreport.
  lemma FinishProxyIff(y: System, proof: Option<nat>, live: bool, owned: bool)
    requires SoundSystem(y) && y.op.ProxyVerifying? && Short(proof)
    ensures var next := FinishProxy(y.state, y.op.request, proof, live, owned).0;
            (AllAccepted(next.log) <==> !Misreports(y, ProxyChecked(proof, live, owned)))
            && (!Misreports(y, ProxyChecked(proof, live, owned)) ==> Sound(next))
            && next.active == y.state.active
  {
    var s, request := y.state, y.op.request;
    if Exact(s, SystemProxy, request) {
      if proof.Some? && live && owned { ProxyReverifiedIff(s, request, proof.value); }
      else if owned { DegradedSound(s, request.node, ProveTraffic); }
      else { BlockedIff(s, request); }
    }
  }

  lemma ReplaceLocalSound(s: State, request: Request, stop: Option<Stage>, reconciled: bool, a: StartAnswers, c: Cleanup)
    requires Sound(s) && GoodServices(a) && (s.active.Some? ==> Exact(s, LocalOnly, request))
    ensures Sound(ReplaceLocal(s, request, stop, reconciled, a, c))
  {
    var failed := WithProofs(s, s.status.proofs.(outbound := Plain(Failed), scope := Plain(Failed)));
    PassingAccepted(failed, RollingBack, Some(request.node), None);
    var rolling := Update(failed, RollingBack, Some(request.node), None);
    StoppedKeeps(rolling, stop);
    var stopped := ChildStopped(rolling, stop);
    StoppedKeeps(stopped, stop);
    if s.active.Some? && stop.Some? {
      RecoverySound(stopped, Some(request.node), stop.value);
    } else {
      RecoverySound(Release(stopped), Some(request.node), SessionRecovery);
      LocalAttemptSound(Release(stopped), request, a, c);
    }
  }

  lemma FinishLocalIff(y: System, sameIdentity: bool, proof: Option<nat>, live: bool, stop: Option<Stage>, reconciled: bool,
                       a: StartAnswers, c: Cleanup)
    requires SoundSystem(y) && y.op.LocalVerifying? && GoodServices(a) && Short(proof)
    ensures var e := LocalChecked(sameIdentity, proof, live, stop, reconciled, a, c);
            var next := FinishLocal(y.state, y.op.request, sameIdentity, proof, live, stop, reconciled, a, c);
            (AllAccepted(next.log) <==> !Misreports(y, e)) && (!Misreports(y, e) ==> Sound(next))
  {
    var s, request := y.state, y.op.request;
    if proof.Some? && !(Exact(s, LocalOnly, request) && sameIdentity) {
    } else if proof.Some? && live {
      LocalReverifiedIff(s, request, proof.value);
    } else {
      ReplaceLocalSound(s, request, stop, reconciled, a, c);
    }
  }

  // ---- Monitoring -------------------------------------------------------

  // The same session, if any, goes on.
  predicate SameRun(s: State, next: State) {
    next.active.Some? ==>
      && s.active.Some?
      && next.active.value.session == s.active.value.session && next.active.value.generation == s.active.value.generation
      && next.active.value.mode == s.active.value.mode && next.active.value.node == s.active.value.node
      && next.active.value.routing == s.active.value.routing
  }

  predicate KeptByMonitor(s: State, next: State) {
    SameRun(s, next) && (next.active.Some? && NearlyProven(s.status) ==> NearlyProven(next.status))
  }

  lemma MarkedLost(s: State, proofs: Proofs, stage: Stage, c: Cleanup)
    requires Sound(s) && s.active.Some? && LatenciesCoherent(proofs)
    requires proofs == s.status.proofs.(process := proofs.process, scope := proofs.scope)
    ensures var next := StopActive(WithProofs(s, proofs), Some(stage), c).0; Sound(next) && KeptByMonitor(s, next)
  {
    StopActiveSound(WithProofs(s, proofs), Some(stage), c);
  }

  lemma OwnershipLostSound(s: State, blocked: bool)
    requires Sound(s) && s.active.Some? && s.active.value.mode == SystemProxy && !s.recovery
    ensures var next := OwnershipLost(s, if blocked then BlockedByConflict else Degraded); Sound(next) && KeptByMonitor(s, next)
  {
    UpdateAccepted(WithProofs(s, s.status.proofs.(proxy := Plain(Failed))), if blocked then BlockedByConflict else Degraded,
                   Some(s.active.value.node), Some(ProxyOwnership));
  }

  lemma ProcessLostSound(s: State, stage: Stage, c: Cleanup)
    requires Sound(s) && s.active.Some?
    ensures Sound(ProcessLost(s, stage, c)) && KeptByMonitor(s, ProcessLost(s, stage, c))
  {
    MarkedLost(s, s.status.proofs.(process := Plain(Failed)), stage, c);
  }

  lemma ProbeDueSound(s: State)
    requires Sound(s) && s.active.Some?
    ensures var next := s.(active := Some(s.active.value.(lastProbe := s.now))); Sound(next) && KeptByMonitor(s, next)
  {}

  lemma MonitorBeginSound(s: State, live: Liveness, owned: Option<bool>, c: Cleanup)
    requires Sound(s)
    ensures var (next, snapshot) := MonitorBegin(s, live, owned, c);
            && Sound(next) && KeptByMonitor(s, next)
            && (snapshot.Some? ==> Measures(next, snapshot.value))
  {
    if s.recovery || s.status.phase == RecoveryRequired || s.active.None? {
    } else if live != Alive {
      ProcessLostSound(s, LossStage(live), c);
    } else if s.active.value.mode == SystemProxy && owned != Some(true) {
      OwnershipLostSound(s, owned.Some?);
    } else {
      ProbeDueSound(s);
    }
  }

  lemma MeasuredStoppable(s: State, snapshot: Snapshot, ms: nat)
    requires Sound(s) && !s.recovery && Current(s, snapshot) && Measures(s, snapshot) && Short(Some(ms))
    ensures var next := Measured(s, snapshot, ms);
            && Base(next) && Describes(next.status, next.active.value) && Established(next.status)
            && TrafficProven(next.status) && SameRun(s, next) && next.status.phase == s.status.phase
            && next.status.error == s.status.error && next.status.steady == s.status.steady
            && (snapshot.mode == SystemProxy ==> next.status.proofs.proxy.state == Passed)
  {}

  lemma ReadySound(s: State, node: nat, mode: Mode)
    requires Base(s) && s.active.Some? && Describes(s.status, s.active.value) && Established(s.status) && TrafficProven(s.status)
    requires s.active.value.mode == mode && s.active.value.node == node && (mode == SystemProxy ==> s.status.proofs.proxy.state == Passed)
    ensures var next := Update(s, ReadyPhase(mode), Some(node), None);
            Sound(next) && next.active == s.active && next.status.proofs == s.status.proofs && next.status.ports == s.status.ports
  {
    UpdateAccepted(s, ReadyPhase(mode), Some(node), None);
  }

  lemma ReverifiedStays(s: State, node: nat)
    requires Base(s) && s.active.Some? && Describes(s.status, s.active.value) && Established(s.status) && TrafficProven(s.status)
    requires s.active.value.node == node
    ensures var next := Update(s, OutboundVerified, Some(node), None);
            && Base(next) && next.active == s.active && Describes(next.status, next.active.value)
            && Established(next.status) && TrafficProven(next.status) && next.status.proofs == s.status.proofs
  {
    PassingAccepted(s, OutboundVerified, Some(node), None);
  }

  lemma ProbePassedSound(s: State, snapshot: Snapshot, ms: nat)
    requires Sound(s) && !s.recovery && Current(s, snapshot) && Measures(s, snapshot) && Short(Some(ms))
    ensures Sound(ProbePassed(s, snapshot, ms)) && KeptByMonitor(s, ProbePassed(s, snapshot, ms))
  {
    MeasuredStoppable(s, snapshot, ms);
    var measured := Measured(s, snapshot, ms);
    if KeepsSteady(s.status.phase) {
      ReadySound(measured, snapshot.node, snapshot.mode);
    } else {
      ReverifiedStays(measured, snapshot.node);
      ReadySound(Update(measured, OutboundVerified, Some(snapshot.node), None), snapshot.node, snapshot.mode);
    }
  }

  lemma CountedSound(s: State)
    requires Sound(s) && s.active.Some?
    ensures Sound(Counted(s)) && SameRun(s, Counted(s)) && Counted(s).status == s.status.(steady := None)
    ensures Counted(s).recovery == s.recovery
  {}

  lemma ReemittedSound(s: State)
    requires Sound(s)
    ensures Sound(Reemitted(s)) && Reemitted(s).active == s.active
    ensures Reemitted(s).status == s.status.(revision := s.status.revision + 1)
  {}

  lemma ProbeFailedSound(s: State, snapshot: Snapshot, stage: Stage)
    requires Sound(s) && !s.recovery && Current(s, snapshot) && Measures(s, snapshot)
    ensures Sound(ProbeFailed(s, snapshot, stage)) && KeptByMonitor(s, ProbeFailed(s, snapshot, stage))
  {
    CountedSound(s);
    var counted := Counted(s);
    ReemittedSound(counted);
    if counted.active.value.failures >= 2 {
      DegradedSound(WithProofs(counted.(status := counted.status.(routeCheck := None)), s.status.proofs.(outbound := Plain(Failed))),
                    snapshot.node, stage);
    }
  }

  lemma MonitorResultSound(s: State, snapshot: Snapshot, live: Liveness, listeners: Option<Stage>, proof: Probe, c: Cleanup)
    requires Sound(s) && Measures(s, snapshot) && ShortProbe(proof)
    ensures Sound(MonitorResult(s, snapshot, live, listeners, proof, c).0)
    ensures KeptByMonitor(s, MonitorResult(s, snapshot, live, listeners, proof, c).0)
  {
    if Current(s, snapshot) && !s.recovery {
      if live != Alive || listeners.Some? {
        MarkedLost(s, s.status.proofs.(scope := Plain(Failed)), if live != Alive then LossStage(live) else listeners.value, c);
      } else {
        match proof
        case Latency(ms) => ProbePassedSound(s, snapshot, ms);
        case NoProof(stage) => ProbeFailedSound(s, snapshot, stage);
      }
    }
  }

  lemma WarmedSound(s: State, latency: Option<nat>)
    requires Sound(s) && s.status.phase == SystemProxyReady && Short(latency)
    ensures Sound(Reemitted(s.(status := s.status.(steady := latency))))
  {}

  lemma MonitorWarmSound(s: State, snapshot: Snapshot, live: Liveness, latency: Option<nat>, c: Cleanup)
    requires Sound(s) && Measures(s, snapshot) && Short(latency)
    ensures Sound(MonitorWarm(s, snapshot, live, latency, c)) && KeptByMonitor(s, MonitorWarm(s, snapshot, live, latency, c))
  {
    if s.recovery || s.status.error.Some? || !KeepsSteady(s.status.phase) || !Current(s, snapshot) {
    } else if live != Alive {
      ProcessLostSound(s, LossStage(live), c);
    } else {
      NotTun(s);
      WarmedSound(s, latency);
    }
  }

  lemma NotTun(s: State)
    requires Sound(s) && s.active.Some? && KeepsSteady(s.status.phase)
    ensures s.status.phase == SystemProxyReady
  {}

  // ---- The other sections ----------------------------------------------

  lemma FlagsSound(s: State)
    requires Sound(s)
    ensures Sound(Flagged(s)) && Flagged(s).active == s.active && Flagged(s).recovery == s.recovery
    ensures Flagged(s).status.proofs == s.status.proofs && Flagged(s).status.ports == s.status.ports
    ensures Flagged(s).status.mode == s.status.mode
  {
    FlagsCoherent(s, s.status);
  }

  lemma RescheduledSound(s: State, ok: bool)
    requires Sound(s)
    ensures Sound(Rescheduled(s, ok)) && Rescheduled(s, ok).active == s.active
  {}

  lemma FinishAttemptSound(s: State, ok: bool)
    requires Sound(s)
    ensures Sound(FinishAttempt(s, ok)) && FinishAttempt(s, ok).active == s.active
  {
    RescheduledSound(s, ok);
    FlagsSound(Rescheduled(s, ok));
    ReemittedSound(Flagged(Rescheduled(s, ok)));
  }

  lemma CancelSound(s: State)
    requires Sound(s)
    ensures var next := CancelIntent(s);
            Sound(next) && next.active == s.active && next.recovery == s.recovery && next.status.proofs == s.status.proofs
            && next.status.ports == s.status.ports && next.status.mode == s.status.mode
  {
    assert Sound(s.(intent := None));
    FlagsSound(s.(intent := None));
  }

  lemma FinishRecoverySound(s: State, sessions: Option<Stage>, journalClean: bool)
    requires Sound(s) && s.active.None?
    ensures Sound(FinishRecovery(s, sessions, journalClean)) && FinishRecovery(s, sessions, journalClean).active.None?
  {
    RecoverySound(s, None, if sessions.Some? then sessions.value else ProxyRestore);
    ResetSound(s.(recovery := false));
  }

  // Stopping a session of a sound state, whichever it is.
  lemma StopSound(s: State, c: Cleanup)
    requires Sound(s)
    ensures Sound(StopActive(s, None, c).0) && SameRun(s, StopActive(s, None, c).0)
  {
    StopActiveSound(s, None, c);
  }

  lemma ReplaceLocalDrawn(s: State, request: Request, stop: Option<Stage>, reconciled: bool, a: StartAnswers, c: Cleanup)
    ensures var next := ReplaceLocal(s, request, stop, reconciled, a, c); CarriesDrawn(next, a) || next.active == s.active
  {
    var failed := WithProofs(s, s.status.proofs.(outbound := Plain(Failed), scope := Plain(Failed)));
    var stopped := ChildStopped(Update(failed, RollingBack, Some(request.node), None), stop);
    assert stopped.active == s.active;
    assert Release(stopped).active.None?;
    LocalAttemptDrawn(Release(stopped), request, a, c);
  }

  lemma FinishLocalDrawn(s: State, request: Request, sameIdentity: bool, proof: Option<nat>, live: bool, stop: Option<Stage>,
                         reconciled: bool, a: StartAnswers, c: Cleanup)
    ensures var next := FinishLocal(s, request, sameIdentity, proof, live, stop, reconciled, a, c);
            CarriesDrawn(next, a) || next.active == s.active
  {
    ReplaceLocalDrawn(s, request, stop, reconciled, a, c);
    if proof.Some? { assert LocalReverified(s, request.node, proof.value).active == s.active; }
  }

  // ---- Every step -------------------------------------------------------

  // What a step keeps of the monitor's snapshot.
  lemma StillMeasures(s: State, next: State, snapshot: Snapshot)
    requires Measures(s, snapshot) && SameRun(s, next)
    ensures Measures(next, snapshot)
  {}

  lemma NewMeasures(s: State, next: State, a: StartAnswers, snapshot: Snapshot)
    requires Measures(s, snapshot) && (CarriesDrawn(next, a) || next.active == s.active) && a.session != Some(snapshot.session)
    ensures Measures(next, snapshot)
  {}

  lemma CallLocalSound(y: System, request: Request, known: bool, sameIdentity: bool, a: StartAnswers, c: Cleanup)
    requires SoundSystem(y) && y.op.Free? && GoodStart(y, a)
    ensures SoundSystem(Apply(y, CallLocal(request, known, sameIdentity, a, c)))
  {
    var next := StartLocal(y.state, request, known, sameIdentity, a, c).0;
    if y.state.active.None? {
      LocalAttemptSound(y.state, request, a, c);
      LocalAttemptDrawn(y.state, request, a, c);
    }
    if !y.monitor.Idle? { NewMeasures(y.state, next, a, y.monitor.snapshot); }
  }

  lemma LocalCheckedIff(y: System, e: Step)
    requires SoundSystem(y) && y.op.LocalVerifying? && e.LocalChecked? && GoodAnswers(y, e)
    ensures (AllAccepted(Apply(y, e).state.log) <==> !Misreports(y, e)) && (!Misreports(y, e) ==> SoundSystem(Apply(y, e)))
  {
    FinishLocalIff(y, e.sameIdentity, e.proof, e.live, e.stop, e.reconciled, e.a, e.c);
    FinishLocalDrawn(y.state, y.op.request, e.sameIdentity, e.proof, e.live, e.stop, e.reconciled, e.a, e.c);
    if !y.monitor.Idle? { NewMeasures(y.state, Apply(y, e).state, e.a, y.monitor.snapshot); }
  }

  lemma ProxyStartSound(y: System, known: bool, sameIdentity: bool, a: StartAnswers, c: Cleanup)
    requires SoundSystem(y) && y.op.ProxyStarting? && GoodStart(y, a)
    ensures SoundSystem(Apply(y, ProxyStart(known, sameIdentity, a, c)))
  {
    var next := ProxyAttempt(y.state, y.op.request, known, sameIdentity, a, c).0;
    ProxyAttemptSound(y.state, y.op.request, known, sameIdentity, a, c);
    if y.state.active.None? { ProxyAttemptDrawn(y.state, y.op.request, known, sameIdentity, a, c); }
    if !y.monitor.Idle? { NewMeasures(y.state, next, a, y.monitor.snapshot); }
  }

  lemma BeginRecoverySound(s: State, c: Cleanup)
    requires Sound(s)
    ensures Sound(BeginRecovery(s, c).0) && SameRun(s, BeginRecovery(s, c).0)
    ensures BeginRecovery(s, c).1 ==> BeginRecovery(s, c).0.active.None?
  {
    StopSound(s, c);
  }

  lemma ReconnectTickSound(s: State, c: Cleanup)
    requires Sound(s)
    ensures Sound(ReconnectTick(s, c).0) && SameRun(s, ReconnectTick(s, c).0)
  {
    StopSound(s, c);
  }

  lemma StopCommandSound(y: System, e: Step)
    requires SoundSystem(y) && Enabled(y, e) && (e.StopRuns? || e.CallRetry? || e.Reconnect?)
    ensures SoundSystem(Apply(y, e))
  {
    match e
    case StopRuns(c) =>
      StopSound(y.state, c);
      if !y.monitor.Idle? { StillMeasures(y.state, StopActive(y.state, None, c).0, y.monitor.snapshot); }
    case CallRetry(c) =>
      BeginRecoverySound(y.state, c);
      if !y.monitor.Idle? { StillMeasures(y.state, BeginRecovery(y.state, c).0, y.monitor.snapshot); }
    case Reconnect(c) =>
      ReconnectTickSound(y.state, c);
      if !y.monitor.Idle? { StillMeasures(y.state, ReconnectTick(y.state, c).0, y.monitor.snapshot); }
  }

  lemma MonitorStepSound(y: System, e: Step)
    requires SoundSystem(y) && Enabled(y, e) && GoodAnswers(y, e) && (e.MonitorBegins? || e.MonitorProbed? || e.MonitorWarmed?)
    ensures SoundSystem(Apply(y, e))
  {
    var s := y.state;
    match e
    case MonitorBegins(alive, ownership, c) => MonitorBeginSound(s, alive, ownership, c);
    case MonitorProbed(alive, listeners, probe, c) =>
      MonitorResultSound(s, y.monitor.snapshot, alive, listeners, probe, c);
      StillMeasures(s, MonitorResult(s, y.monitor.snapshot, alive, listeners, probe, c).0, y.monitor.snapshot);
    case MonitorWarmed(alive, warm, c) => MonitorWarmSound(s, y.monitor.snapshot, alive, warm, c);
  }

  lemma QuickStepSound(y: System, e: Step)
    requires SoundSystem(y) && Enabled(y, e)
    requires e.CallProxy? || e.AttemptEnds? || e.CallStop? || e.RetryEnds? || e.SetShutdown? || e.Advance?
    ensures SoundSystem(Apply(y, e))
  {
    match e
    case CallProxy(_, _, _) =>
    case AttemptEnds => FinishAttemptSound(y.state, y.op.ok);
    case CallStop => CancelSound(y.state);
    case RetryEnds(sessions, journalClean) => FinishRecoverySound(y.state, sessions, journalClean);
    case SetShutdown(_) =>
    case Advance(_) =>
  }

  lemma ProxyCheckedIff(y: System, e: Step)
    requires SoundSystem(y) && y.op.ProxyVerifying? && e.ProxyChecked? && GoodAnswers(y, e)
    ensures (AllAccepted(Apply(y, e).state.log) <==> !Misreports(y, e)) && (!Misreports(y, e) ==> SoundSystem(Apply(y, e)))
  {
    FinishProxyIff(y, e.proof, e.live, e.owned);
  }

  // A step publishes only snapshots the UI accepts exactly when it does not misreport.
  lemma StepSoundIff(y: System, e: Step)
    requires SoundSystem(y) && Enabled(y, e) && GoodAnswers(y, e)
    ensures AllAccepted(Apply(y, e).state.log) <==> !Misreports(y, e)
    ensures !Misreports(y, e) ==> SoundSystem(Apply(y, e))
  {
    match e
    case CallLocal(request, known, sameIdentity, a, c) => CallLocalSound(y, request, known, sameIdentity, a, c);
    case LocalChecked(_, _, _, _, _, _, _) => LocalCheckedIff(y, e);
    case ProxyStart(known, sameIdentity, a, c) => ProxyStartSound(y, known, sameIdentity, a, c);
    case ProxyChecked(_, _, _) => ProxyCheckedIff(y, e);
    case StopRuns(_) => StopCommandSound(y, e);
    case CallRetry(_) => StopCommandSound(y, e);
    case Reconnect(_) => StopCommandSound(y, e);
    case MonitorBegins(_, _, _) => MonitorStepSound(y, e);
    case MonitorProbed(_, _, _, _) => MonitorStepSound(y, e);
    case MonitorWarmed(_, _, _) => MonitorStepSound(y, e);
    case _ => QuickStepSound(y, e);
  }

  lemma InitialSound(leftover: Option<Stage>)
    ensures SoundSystem(Initial(leftover))
  {
    var state := State(DefaultStatus(), None, None, false, false, 0, Beginning);
    if leftover.Some? { RecoverySound(state, None, leftover.value); }
  }

  // The run so far had well-behaved services and no step that misreports.
  ghost predicate Faithful(leftover: Option<Stage>, steps: seq<Step>) {
    steps == []
    || (Faithful(leftover, steps[..|steps| - 1]) && Run(leftover, steps[..|steps| - 1]).Some?
        && var y := Run(leftover, steps[..|steps| - 1]).value;
           Enabled(y, steps[|steps| - 1]) && GoodAnswers(y, steps[|steps| - 1]) && !Misreports(y, steps[|steps| - 1]))
  }

  // In every run without a misreporting re-verification, every published snapshot satisfies all
  // the UI's rules.
  lemma {:induction false} EveryPublishedSnapshotIsAccepted(leftover: Option<Stage>, steps: seq<Step>)
    requires Faithful(leftover, steps)
    ensures Run(leftover, steps).Some? && SoundSystem(Run(leftover, steps).value)
    ensures AllAccepted(Run(leftover, steps).value.state.log)
  {
    if steps == [] {
      InitialSound(leftover);
    } else {
      EveryPublishedSnapshotIsAccepted(leftover, steps[..|steps| - 1]);
      StepSoundIff(Run(leftover, steps[..|steps| - 1]).value, steps[|steps| - 1]);
    }
  }
}
