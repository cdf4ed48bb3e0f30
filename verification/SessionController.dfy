// The controller's state as fields changed in place, each method one section under the state
// lock, with the branches of the original (src-tauri/src/application.rs:1417-1967, 2327-3719,
// without TUN). Every method leaves the state the machine of `Session` prescribes, so what is
// proved of its runs holds here; the sections a command consists of state what they promise.
module SessionController {
  import opened Text
  import opened RuntimeStatus
  import opened Session
  import opened SessionSafety
  import opened SessionContract
  import opened SessionOutcomes

  class Controller {
    var status: Status
    var active: Option<Active>
    var reconnect: Option<Intent>
    var recoveryRequired: bool
    var shuttingDown: bool
    var now: nat
    ghost var log: Log

    ghost function View(): State
      reads this
    {
      State(status, active, reconnect, recoveryRequired, shuttingDown, now, log)
    }

    // Whenever no section runs: the retained session is what runs and what Windows is owed, and
    // every snapshot published so far is one the UI accepts.
    ghost predicate Valid()
      reads this
    {
      Stable(View())
    }

    // Nothing runs and Windows does not point at RouteDeck.
    ghost predicate AtRest()
      reads this
    {
      Rests(View())
    }

    constructor (leftover: Option<Stage>)
      ensures Valid() && AtRest() && (recoveryRequired <==> leftover.Some?)
      ensures View() == Initial(leftover).state
    {
      InitialSafe(leftover);
      InitialSound(leftover);
      status, active, reconnect, recoveryRequired, shuttingDown, now := DefaultStatus(), None, None, false, false, 0;
      log := Beginning;
      new;
      if leftover.Some? {
        recoveryRequired := true;
        UpdateStatus(RecoveryRequired, None, leftover);
      }
    }

    // ---- Status ---------------------------------------------------------

    method EmitStatus()
      modifies this`log
      ensures log == Then(old(log), Published(status))
    {
      log := Then(log, Published(status));
    }

    // A retry is announced only while one is wanted, not paused and nothing runs, and at most a
    // minute ahead.
    method SyncReconnectStatus()
      modifies this`status
      ensures status.requested <==> reconnect.Some?
      ensures status.paused <==>
                reconnect.Some? && (reconnect.value.paused || recoveryRequired || status.phase == BlockedByConflict)
      ensures status.retrySeconds == AnnouncedRetry(View())
      ensures IntentBound(View()) && (status.phase == BlockedByConflict ==> active.Some?) ==> RetryCoherent(status)
      ensures status == Synced(old(View()), old(status))
    {
      status := status.(requested := reconnect.Some?);
      var blocked := recoveryRequired || status.phase == BlockedByConflict;
      status := status.(paused := reconnect.Some? && (reconnect.value.paused || blocked));
      if reconnect.Some? && !reconnect.value.paused && active.None? && !recoveryRequired {
        status := status.(retrySeconds := Some(SecondsUntil(reconnect.value.next, now)));
      } else {
        status := status.(retrySeconds := None);
      }
    }

    // The measurements a phase does not keep are dropped.
    method DropMeasurements(phase: Phase, error: Option<Stage>)
      modifies this`status
      ensures status == old(status).(
                steady := if error.Some? || !KeepsSteady(phase) then None else old(status).steady,
                routeCheck := if KeepsRoute(phase) then old(status).routeCheck else None)
    {
      if error.Some? || !KeepsSteady(phase) { status := status.(steady := None); }
      if !KeepsRoute(phase) { status := status.(routeCheck := None); }
    }

    method UpdateStatus(phase: Phase, node: Option<nat>, error: Option<Stage>)
      modifies this`status, this`log
      ensures status.phase == phase && status.node == node && status.error == error
      ensures status.revision == old(status).revision + 1 && log == Then(old(log), Published(status))
      ensures View() == Update(old(View()), phase, node, error)
    {
      status := status.(phase := phase);
      SyncReconnectStatus();
      status := status.(node := node, error := error);
      DropMeasurements(phase, error);
      status := status.(revision := status.revision + 1);
      EmitStatus();
    }

    method Republish()
      modifies this`status, this`log
      ensures status.revision == old(status).revision + 1 && log == Then(old(log), Published(status))
      ensures View() == Reemitted(old(View()))
    {
      status := status.(revision := status.revision + 1);
      EmitStatus();
    }

    method SetProofs(proofs: Proofs)
      modifies this`status
      ensures View() == WithProofs(old(View()), proofs)
    {
      status := status.(proofs := proofs);
    }

    method MarkFailedProof(stage: Stage)
      modifies this`status
      ensures LatenciesCoherent(old(status).proofs) ==> LatenciesCoherent(status.proofs)
      ensures View() == WithProofs(old(View()), FailedProofs(old(status).proofs, stage))
    {
      match stage {
        case GenerateConfig => SetProofs(status.proofs.(config := Plain(Failed)));
        case SessionStorage => SetProofs(status.proofs.(config := Plain(Failed)));
        case ConfigCheck => SetProofs(status.proofs.(config := Plain(Failed)));
        case StartEngine => SetProofs(status.proofs.(process := Plain(Failed)));
        case EngineProcess => SetProofs(status.proofs.(process := Plain(Failed)));
        case VerifyListeners =>
          SetProofs(status.proofs.(http := Plain(Failed), socks := Plain(Failed), health := Plain(Failed)));
          SetProofs(status.proofs.(scope := Plain(Failed)));
        case ProveTraffic => SetProofs(status.proofs.(outbound := Plain(Failed)));
        case ProxyPublish => SetProofs(status.proofs.(proxy := Plain(Failed)));
        case ProxyOwnership => SetProofs(status.proofs.(proxy := Plain(Failed)));
        case _ =>
      }
    }

    method ClearActiveMetadata()
      modifies this`status
      ensures View() == ClearMetadata(old(View()))
    {
      status := status.(ports := None, routeCheck := None, steady := None, engine := false);
    }

    method ResetToDisconnected()
      modifies this`status, this`log
      ensures status.session.None? && status.ports.None? && status.proofs == DefaultProofs() && PhaseCoherent(status)
      ensures View() == ResetDisconnected(old(View()))
    {
      ClearActiveMetadata();
      status := status.(scope := LocalOnly, mode := LocalOnly, session := None, proofs := DefaultProofs());
      UpdateStatus(Disconnected, None, None);
    }

    method RequireRecovery(node: Option<nat>, stage: Stage)
      modifies this`status, this`log, this`recoveryRequired
      ensures recoveryRequired && status.phase == RecoveryRequired && status.retrySeconds.None?
      ensures View() == InRecovery(old(View()), node, stage)
    {
      recoveryRequired := true;
      UpdateStatus(RecoveryRequired, node, Some(stage));
    }

    // ---- Starting -------------------------------------------------------

    method CheckConfiguration(node: nat, mode: Mode, session: nat, a: StartAnswers) returns (failure: Option<Stage>)
      modifies this`status, this`log
      ensures (View(), failure) == Preflight(old(View()), node, mode, session, a)
    {
      status := status.(scope := mode, mode := mode, session := Some(session), proofs := DefaultProofs());
      UpdateStatus(Preparing, Some(node), None);
      if a.prepared.Some? { return a.prepared; }
      SetProofs(status.proofs.(config := Plain(Pending)));
      UpdateStatus(ValidatingConfig, Some(node), None);
      if a.validated.Some? { return a.validated; }
      SetProofs(status.proofs.(config := Plain(Passed)));
      UpdateStatus(StartingCore, Some(node), None);
      return a.launched;
    }

    method Launch(request: Request, mode: Mode, session: nat, a: StartAnswers)
      modifies this`status, this`log, this`active
      ensures View() == Launched(old(View()), request, mode, session, a)
    {
      active := Some(Active(session, a.generation, request.node, request.routing, mode, false, a.ports, 0, now));
      log := Then(log, StartedCore(session));
      SetProofs(status.proofs.(process := Plain(Passed)));
      SetProofs(status.proofs.(http := Plain(Pending), socks := Plain(Pending), health := Plain(Pending)));
      UpdateStatus(VerifyingListener, Some(request.node), None);
    }

    // The restore flag is set before Windows is changed.
    method BeginPublication(node: nat)
      requires active.Some?
      modifies this`status, this`log, this`active
      ensures active == Some(old(active).value.(requiresRestore := true))
      ensures View() == Applying(old(View()), node)
    {
      SetProofs(status.proofs.(proxy := Plain(Pending)));
      UpdateStatus(ApplyingSystemProxy, Some(node), None);
      active := Some(active.value.(requiresRestore := true));
    }

    method ConfirmPublication(node: nat, ms: nat)
      modifies this`status, this`log
      ensures View() == ProxyReady(old(View()), node, ms)
    {
      SetProofs(status.proofs.(proxy := Plain(Passed)));
      status := status.(routeCheck := Some(ms));
      UpdateStatus(SystemProxyReady, Some(node), None);
    }

    // The publication itself; its answer says whether a failed one may still have changed Windows.
    method PublishToWindows(publish: Publish)
      requires active.Some? && active.value.requiresRestore
      modifies this`log, this`active
      ensures active == Some(old(active).value.(requiresRestore := publish != Unchanged))
      ensures View() == AfterPublish(old(View()), publish)
    {
      log := Then(log, AppliedProxy(active.value.session, publish != Unchanged));
      if publish != Applied { active := Some(active.value.(requiresRestore := publish == MaybeChanged)); }
    }

    method PublishProxy(node: nat, ms: nat, a: StartAnswers) returns (failure: Option<Stage>)
      requires active.Some?
      modifies this`status, this`log, this`active
      ensures active == Some(old(active).value.(requiresRestore := a.publish != Unchanged))
      ensures failure.None? <==> a.publish == Applied && a.ownership == Some(true)
      ensures (View(), failure) == TakeOverProxy(old(View()), node, ms, a)
    {
      BeginPublication(node);
      PublishToWindows(a.publish);
      if a.publish != Applied { return Some(ProxyPublish); }
      if a.ownership != Some(true) { return Some(ProxyOwnership); }
      ConfirmPublication(node, ms);
      return None;
    }

    method ProveReady(node: nat, mode: Mode, a: StartAnswers) returns (failure: Option<Stage>)
      requires active.Some?
      modifies this`status, this`log, this`active
      ensures (View(), failure) == ProveCore(old(View()), node, mode, a)
    {
      if a.listening.Some? { return a.listening; }
      SetProofs(status.proofs.(http := Plain(Passed), socks := Plain(Passed), health := Plain(Passed)));
      SetProofs(status.proofs.(outbound := Plain(Pending)));
      UpdateStatus(ProvingTraffic, Some(node), None);
      if a.proof.NoProof? { return Some(a.proof.stage); }
      var ms := a.proof.ms;
      SetProofs(status.proofs.(outbound := Row(Passed, Some(ms))));
      if a.owned.Some? { return a.owned; }
      MarkVerified(node, a.ports, ms);
      if mode == SystemProxy {
        failure := PublishProxy(node, ms, a);
        return;
      }
      UpdateStatus(LocalProxyReady, Some(node), None);
      return None;
    }

    method MarkVerified(node: nat, ports: Ports, ms: nat)
      modifies this`status, this`log
      ensures View() == Verified(old(View()), node, ports, ms)
    {
      SetProofs(status.proofs.(scope := Plain(Passed)));
      status := status.(ports := Some(ports));
      status := status.(routeCheck := Some(ms));
      status := status.(engine := true);
      UpdateStatus(OutboundVerified, Some(node), None);
    }

    method StartLocked(request: Request, mode: Mode, a: StartAnswers) returns (failure: Option<Stage>)
      modifies this`status, this`log, this`active
      ensures failure.None? && old(active).None? && mode != Tun ==> RunsReady(View(), mode, request)
      ensures (View(), failure) == StartCore(old(View()), request, mode, a)
    {
      if active.None? && mode != Tun && StartCore(View(), request, mode, a).1.None? { StartCoreReady(View(), request, mode, a); }
      if a.session.None? { return Some(Random); }
      failure := CheckConfiguration(request.node, mode, a.session.value, a);
      if failure.Some? { return; }
      Launch(request, mode, a.session.value, a);
      failure := ProveReady(request.node, mode, a);
    }

    // ---- Undoing and stopping -------------------------------------------

    // `child.stop()`; dropping a child is never evidence of cleanup.
    method StopChild(stop: Option<Stage>)
      modifies this`log
      ensures View() == ChildStopped(old(View()), stop)
    {
      if active.Some? { log := Then(log, StoppedCore(active.value.session, stop.None?)); }
    }

    method ReleaseActive()
      modifies this`status, this`log, this`active
      ensures active.None? && status.ports.None? && !status.engine
      ensures View() == Release(old(View()))
    {
      if active.Some? {
        log := Then(log, Released(active.value.session));
        active := None;
      }
      ClearActiveMetadata();
    }

    // `restore_if_owned`
    method RestoreProxy(restore: Restore)
      requires active.Some?
      modifies this`log, this`active
      ensures active == Some(old(active).value.(requiresRestore := !RestoreOk(restore)))
      ensures View() == ProxyRestored(old(View()), restore)
    {
      log := Then(log, RestoredProxy(active.value.session, RestoreOk(restore)));
      active := Some(active.value.(requiresRestore := !RestoreOk(restore)));
    }

    method EndLocalRollBack(node: nat, stage: Stage, c: Cleanup)
      modifies this`status, this`log, this`active, this`recoveryRequired
      ensures View() == EndRollBackLocal(old(View()), node, stage, c)
    {
      StopChild(c.stop);
      if active.Some? && c.stop.Some? {
        status := status.(ports := Some(active.value.ports), engine := true);
        RequireRecovery(Some(node), c.stop.value);
        return;
      }
      ReleaseActive();
      ReportFailedStart(node, stage, stage == SessionRecovery || !c.reconciled);
    }

    method RollBackLocalStart(node: nat, stage: Stage, c: Cleanup)
      modifies this`status, this`log, this`active, this`recoveryRequired
      ensures View() == RollBackLocal(old(View()), node, stage, c)
    {
      MarkFailedProof(stage);
      UpdateStatus(RollingBack, Some(node), None);
      EndLocalRollBack(node, stage, c);
    }

    method ReportFailedStart(node: nat, stage: Stage, recover: bool)
      modifies this`status, this`log, this`recoveryRequired
      ensures View() == if recover then InRecovery(old(View()), Some(node), stage)
                        else Update(old(View()), DisconnectedWithError, Some(node), Some(stage))
    {
      if recover { RequireRecovery(Some(node), stage); }
      else { UpdateStatus(DisconnectedWithError, Some(node), Some(stage)); }
    }

    method EndProxyRollBack(node: nat, stage: Stage, c: Cleanup)
      modifies this`status, this`log, this`active, this`recoveryRequired
      ensures active.Some? ==> recoveryRequired && old(active).Some? && active.value.session == old(active).value.session
      ensures View() == EndRollBack(old(View()), node, stage, c)
    {
      StopChild(c.stop);
      if active.Some? && c.stop.Some? {
        RequireRecovery(Some(node), c.stop.value);
        return;
      }
      ReleaseActive();
      ReportFailedStart(node, stage, !c.reconciled);
    }

    method RollBackProxyStart(node: nat, stage: Stage, c: Cleanup)
      modifies this`status, this`log, this`active, this`recoveryRequired
      ensures active.Some? ==> recoveryRequired && old(active).Some? && active.value.session == old(active).value.session
      ensures View() == RollBackProxy(old(View()), node, stage, c)
    {
      var mayBePublished := active.Some? && active.value.requiresRestore;
      MarkFailedProof(stage);
      UpdateStatus(RollingBack, Some(node), None);
      if mayBePublished {
        RestoreProxy(c.restore);
        if !RestoreOk(c.restore) {
          RequireRecovery(Some(node), ProxyRestore);
          return;
        }
      }
      EndProxyRollBack(node, stage, c);
    }

    method FinishCleanup(node: Option<nat>, conflict: bool, terminal: Option<Stage>, reconciled: bool) returns (ok: bool)
      modifies this`status, this`log, this`recoveryRequired, this`reconnect
      ensures (View(), ok) == AfterCleanup(old(View()), node, conflict, terminal, reconciled)
    {
      if !reconciled {
        RequireRecovery(node, SessionRecovery);
        return false;
      }
      recoveryRequired := false;
      if conflict {
        if reconnect.Some? { reconnect := Some(reconnect.value.(paused := true)); }
        status := status.(session := None);
        UpdateStatus(DisconnectedWithError, node, Some(ProxyOwnership));
        return false;
      }
      if terminal.Some? {
        UpdateStatus(DisconnectedWithError, node, terminal);
      } else {
        ResetToDisconnected();
      }
      return true;
    }

    method StopRestoredCore(node: Option<nat>, conflict: bool, terminal: Option<Stage>, c: Cleanup) returns (ok: bool)
      modifies this`status, this`log, this`active, this`recoveryRequired, this`reconnect
      ensures (View(), ok) == StopRestored(old(View()), node, conflict, terminal, c)
    {
      UpdateStatus(StoppingCore, node, None);
      StopChild(c.stop);
      if c.stop.Some? {
        RequireRecovery(node, c.stop.value);
        return false;
      }
      ReleaseActive();
      ok := FinishCleanup(node, conflict, terminal, c.reconciled);
    }

    method RestoreWindows(c: Cleanup)
      requires active.Some?
      modifies this`status, this`log, this`active
      ensures View() == RestoreFirst(old(View()), c)
    {
      if !active.value.requiresRestore { return; }
      UpdateStatus(RestoringSystemProxy, status.node, None);
      RestoreProxy(c.restore);
      match c.restore {
        case Restored => SetProofs(status.proofs.(proxy := Plain(Passed)));
        case ForeignPreserved => SetProofs(status.proofs.(proxy := Plain(Failed)));
        case _ =>
      }
    }

    // Every teardown keeps the session until restoration and child cleanup succeeded.
    method StopActiveLocked(terminal: Option<Stage>, c: Cleanup) returns (ok: bool)
      modifies this`status, this`log, this`active, this`recoveryRequired, this`reconnect
      ensures (View(), ok) == StopActive(old(View()), terminal, c)
    {
      if active.None? {
        if recoveryRequired { return true; }
        ResetToDisconnected();
        return true;
      }
      var node := status.node;
      var owed := active.value.requiresRestore;
      RestoreWindows(c);
      if owed && !RestoreOk(c.restore) {
        RequireRecovery(node, ProxyRestore);
        return false;
      }
      ok := StopRestoredCore(node, owed && c.restore == ForeignPreserved, terminal, c);
    }

    // ---- Connecting -----------------------------------------------------

    method AttemptLocal(request: Request, a: StartAnswers, c: Cleanup)
      modifies this`status, this`log, this`active, this`recoveryRequired
      ensures View() == LocalAttempt(old(View()), request, a, c)
    {
      var failure := StartLocked(request, LocalOnly, a);
      if failure.Some? { RollBackLocalStart(request.node, failure.value, c); }
    }

    method EnterLocalProxy(request: Request, known: bool, sameIdentity: bool, a: StartAnswers, c: Cleanup) returns (verify: bool)
      modifies this`status, this`log, this`active, this`recoveryRequired
      ensures (View(), verify) == StartLocal(old(View()), request, known, sameIdentity, a, c)
    {
      if shuttingDown { return false; }
      if recoveryRequired { return false; }
      if !known { return false; }
      if active.Some? {
        return active.value.mode == LocalOnly && active.value.node == request.node && active.value.routing == request.routing
               && sameIdentity;
      }
      AttemptLocal(request, a, c);
      return false;
    }

    method ReplaceLocalSession(request: Request, stop: Option<Stage>, reconciled: bool, a: StartAnswers, c: Cleanup)
      modifies this`status, this`log, this`active, this`recoveryRequired
      ensures View() == ReplaceLocal(old(View()), request, stop, reconciled, a, c)
    {
      SetProofs(status.proofs.(outbound := Plain(Failed)));
      SetProofs(status.proofs.(scope := Plain(Failed)));
      UpdateStatus(RollingBack, Some(request.node), None);
      StopChild(stop);
      if active.Some? && stop.Some? {
        RequireRecovery(Some(request.node), stop.value);
        return;
      }
      ReleaseActive();
      if !reconciled {
        RequireRecovery(Some(request.node), SessionRecovery);
        return;
      }
      AttemptLocal(request, a, c);
    }

    method ConfirmLocal(node: nat, ms: nat)
      modifies this`status, this`log
      ensures View() == LocalReverified(old(View()), node, ms)
    {
      status := status.(routeCheck := Some(ms));
      SetProofs(status.proofs.(outbound := Row(Passed, Some(ms))));
      SetProofs(status.proofs.(scope := Plain(Passed)));
      UpdateStatus(OutboundVerified, Some(node), None);
      UpdateStatus(LocalProxyReady, Some(node), None);
    }

    method ConfirmOrReplaceLocal(request: Request, sameIdentity: bool, proof: Option<nat>, live: bool, stop: Option<Stage>,
                                   reconciled: bool, a: StartAnswers, c: Cleanup)
      modifies this`status, this`log, this`active, this`recoveryRequired
      ensures View() == FinishLocal(old(View()), request, sameIdentity, proof, live, stop, reconciled, a, c)
    {
      if proof.Some? {
        var exact := active.Some? && active.value.mode == LocalOnly && active.value.node == request.node
                     && active.value.routing == request.routing && sameIdentity;
        if !exact { return; }
        if live {
          ConfirmLocal(request.node, proof.value);
          return;
        }
      }
      ReplaceLocalSession(request, stop, reconciled, a, c);
    }

    method AdmitSystemProxy(request: Request, valid: bool, known: bool) returns (go: bool)
      modifies this`reconnect
      ensures (View(), go) == EnterProxy(old(View()), request, valid, known)
    {
      if !valid { return false; }
      if !known { return false; }
      if shuttingDown || recoveryRequired || status.phase == BlockedByConflict { return false; }
      reconnect := Some(Intent(request, 0, now + ReconnectDelay(0), false));
      return true;
    }

    method AttemptSystemProxy(request: Request, known: bool, sameIdentity: bool, a: StartAnswers, c: Cleanup)
      returns (attempt: Attempt)
      modifies this`status, this`log, this`active, this`recoveryRequired
      ensures (View(), attempt) == ProxyAttempt(old(View()), request, known, sameIdentity, a, c)
    {
      if shuttingDown { return Ended(false); }
      if recoveryRequired { return Ended(false); }
      if active.Some? {
        var exact := active.value.mode == SystemProxy && active.value.node == request.node
                     && active.value.routing == request.routing && sameIdentity;
        return if exact then Verify else Ended(false);
      }
      if !known { return Ended(false); }
      var failure := StartLocked(request, SystemProxy, a);
      if failure.None? { return Ended(true); }
      RollBackProxyStart(request.node, failure.value, c);
      return Ended(false);
    }

    method ReportVerification(request: Request, proof: Option<nat>, live: bool, owned: bool) returns (ok: bool)
      modifies this`status, this`log
      ensures (View(), ok) == FinishProxy(old(View()), request, proof, live, owned)
    {
      var exact := active.Some? && active.value.mode == SystemProxy && active.value.node == request.node
                   && active.value.routing == request.routing;
      if !exact { return false; }
      if proof.Some? && live && owned {
        status := status.(routeCheck := proof);
        SetProofs(status.proofs.(outbound := Row(Passed, proof)));
        SetProofs(status.proofs.(scope := Plain(Passed)));
        SetProofs(status.proofs.(proxy := Plain(Passed)));
        UpdateStatus(SystemProxyReady, Some(request.node), None);
        return true;
      }
      UpdateStatus(if owned then Degraded else BlockedByConflict, Some(request.node),
                   Some(if owned then ProveTraffic else ProxyOwnership));
      return false;
    }

    // The next retry of the intent, later after every failure.
    method Reschedule(ok: bool)
      modifies this`reconnect
      ensures View() == Rescheduled(old(View()), ok)
    {
      var pause := status.error.Some? && PausesRetry(status.error.value);
      if reconnect.Some? {
        var intent := reconnect.value;
        intent := intent.(failures := if ok then 0 else intent.failures + 1);
        intent := intent.(next := now + ReconnectDelay(intent.failures));
        if pause { intent := intent.(paused := true); }
        reconnect := Some(intent);
      }
    }

    method RescheduleAndPublish(ok: bool)
      modifies this`status, this`log, this`reconnect
      ensures View() == FinishAttempt(old(View()), ok)
    {
      Reschedule(ok);
      SyncReconnectStatus();
      Republish();
    }

    // ---- Stopping, recovery, reconnection -------------------------------

    method DropIntent()
      modifies this`status, this`reconnect
      ensures View() == CancelIntent(old(View()))
    {
      reconnect := None;
      SyncReconnectStatus();
    }

    method RecoverRetained(c: Cleanup) returns (recover: bool)
      modifies this`status, this`log, this`active, this`recoveryRequired, this`reconnect
      ensures (View(), recover) == BeginRecovery(old(View()), c)
    {
      if !recoveryRequired { return false; }
      if active.Some? {
        var _ := StopActiveLocked(None, c);
        return false;
      }
      return true;
    }

    method ReportRecovery(sessions: Option<Stage>, journalClean: bool)
      modifies this`status, this`log, this`recoveryRequired
      ensures View() == FinishRecovery(old(View()), sessions, journalClean)
    {
      if sessions.Some? {
        RequireRecovery(None, sessions.value);
        return;
      }
      if !journalClean {
        RequireRecovery(None, ProxyRestore);
        return;
      }
      recoveryRequired := false;
      ResetToDisconnected();
    }

    method PickReconnection(c: Cleanup) returns (request: Option<Request>)
      modifies this`status, this`log, this`active, this`recoveryRequired, this`reconnect
      ensures (View(), request) == ReconnectTick(old(View()), c)
    {
      if shuttingDown || recoveryRequired || status.phase == BlockedByConflict { return None; }
      if reconnect.None? { return None; }
      if reconnect.value.paused || now < reconnect.value.next { return None; }
      var wanted := reconnect.value.request;
      if active.Some? {
        if active.value.mode != SystemProxy { return None; }
        if active.value.failures < 6 { return None; }
        var ok := StopActiveLocked(None, c);
        if !ok { return None; }
      }
      return Some(wanted);
    }

    // ---- Monitoring -----------------------------------------------------

    method LoseProcess(stage: Stage, c: Cleanup)
      modifies this`status, this`log, this`active, this`recoveryRequired, this`reconnect
      ensures View() == ProcessLost(old(View()), stage, c)
    {
      SetProofs(status.proofs.(process := Plain(Failed)));
      var _ := StopActiveLocked(Some(stage), c);
    }

    method ObserveSession(live: Liveness, owned: Option<bool>, c: Cleanup) returns (snapshot: Option<Snapshot>)
      modifies this`status, this`log, this`active, this`recoveryRequired, this`reconnect
      ensures (View(), snapshot) == MonitorBegin(old(View()), live, owned, c)
    {
      if recoveryRequired || status.phase == RecoveryRequired { return None; }
      if active.None? { return None; }
      if live != Alive {
        LoseProcess(LossStage(live), c);
        return None;
      }
      if active.value.mode == SystemProxy && owned != Some(true) {
        SetProofs(status.proofs.(proxy := Plain(Failed)));
        UpdateStatus(if owned.Some? then BlockedByConflict else Degraded, Some(active.value.node), Some(ProxyOwnership));
        return None;
      }
      if now - active.value.lastProbe < PROBE_INTERVAL { return None; }
      active := Some(active.value.(lastProbe := now));
      return Some(Snapshot(active.value.session, active.value.generation, active.value.mode, active.value.node));
    }

    method RecordMeasurement(snapshot: Snapshot, ms: nat)
      requires active.Some?
      modifies this`status, this`active
      ensures View() == Measured(old(View()), snapshot, ms)
    {
      active := Some(active.value.(failures := 0));
      status := status.(routeCheck := Some(ms));
      SetProofs(status.proofs.(outbound := Row(Passed, Some(ms))));
      SetProofs(status.proofs.(scope := Plain(Passed)));
      if snapshot.mode == SystemProxy { SetProofs(status.proofs.(proxy := Plain(Passed))); }
    }

    method AcceptProbe(snapshot: Snapshot, ms: nat)
      requires active.Some?
      modifies this`status, this`log, this`active
      ensures View() == ProbePassed(old(View()), snapshot, ms)
    {
      RecordMeasurement(snapshot, ms);
      if !KeepsSteady(status.phase) { UpdateStatus(OutboundVerified, Some(snapshot.node), None); }
      UpdateStatus(ReadyPhase(snapshot.mode), Some(snapshot.node), None);
    }

    method CountFailure() returns (hadSteady: bool)
      requires active.Some?
      modifies this`status, this`active
      ensures View() == Counted(old(View())) && hadSteady == old(status).steady.Some?
    {
      active := Some(active.value.(failures := if active.value.failures < 255 then active.value.failures + 1 else 255));
      hadSteady := status.steady.Some?;
      status := status.(steady := None);
    }

    method RejectProbe(snapshot: Snapshot, stage: Stage)
      requires active.Some?
      modifies this`status, this`log, this`active
      ensures View() == ProbeFailed(old(View()), snapshot, stage)
    {
      var hadSteady := CountFailure();
      if active.value.failures >= 2 {
        status := status.(routeCheck := None);
        SetProofs(status.proofs.(outbound := Plain(Failed)));
        UpdateStatus(Degraded, Some(snapshot.node), Some(stage));
      } else if hadSteady {
        Republish();
      }
    }

    method JudgeProbe(snapshot: Snapshot, live: Liveness, listeners: Option<Stage>, proof: Probe, c: Cleanup) returns (warm: bool)
      modifies this`status, this`log, this`active, this`recoveryRequired, this`reconnect
      ensures (View(), warm) == MonitorResult(old(View()), snapshot, live, listeners, proof, c)
    {
      if recoveryRequired || status.phase == RecoveryRequired { return false; }
      if active.None? || active.value.generation != snapshot.generation || active.value.session != snapshot.session { return false; }
      if live != Alive || listeners.Some? {
        SetProofs(status.proofs.(scope := Plain(Failed)));
        var _ := StopActiveLocked(Some(if live != Alive then LossStage(live) else listeners.value), c);
        return false;
      }
      match proof {
        case Latency(ms) =>
          AcceptProbe(snapshot, ms);
          return snapshot.mode == SystemProxy;
        case NoProof(stage) =>
          RejectProbe(snapshot, stage);
          return false;
      }
    }

    method ShowWarmMeasurement(snapshot: Snapshot, live: Liveness, latency: Option<nat>, c: Cleanup)
      modifies this`status, this`log, this`active, this`recoveryRequired, this`reconnect
      ensures View() == MonitorWarm(old(View()), snapshot, live, latency, c)
    {
      if recoveryRequired || status.error.Some? || !KeepsSteady(status.phase) { return; }
      if active.None? || active.value.generation != snapshot.generation || active.value.session != snapshot.session { return; }
      if live != Alive {
        LoseProcess(LossStage(live), c);
        return;
      }
      status := status.(steady := latency);
      Republish();
    }

    // ---- What the commands, the monitor and the reconnection promise ----

    // A running session is never replaced here: it is left alone, and verified when it is the
    // requested one. What is started is ready, undone, or waits for recovery.
    method StartLocalProxy(request: Request, known: bool, sameIdentity: bool, a: StartAnswers, c: Cleanup) returns (verify: bool)
      requires Valid() && GoodServices(a)
      modifies this`status, this`log, this`active, this`recoveryRequired
      ensures Valid()
      ensures old(active).Some? || shuttingDown || old(recoveryRequired) ==> View() == old(View())
      ensures verify <==>
                && known && !shuttingDown && !old(recoveryRequired) && sameIdentity
                && old(active).Some? && old(active).value.mode == LocalOnly
                && old(active).value.node == request.node && old(active).value.routing == request.routing
      ensures old(active).None? && known && !shuttingDown && !old(recoveryRequired) ==>
                if FirstFailure(LocalOnly, a).None? then RunsReady(View(), LocalOnly, request) && Serves(View(), a) && !recoveryRequired
                else
                  && (active.Some? <==> WasLaunched(a) && c.stop.Some?)
                  && (active.Some? ==> status.ports == Some(active.value.ports) && status.engine)
                  && (recoveryRequired <==>
                        active.Some? || !c.reconciled || FirstFailure(LocalOnly, a) == Some(SessionRecovery))
                  && (c.stop.None? && c.reconciled ==>
                        && AtRest() && status.error == FirstFailure(LocalOnly, a) && RowTells(View())
                        && (!recoveryRequired ==> status.phase == DisconnectedWithError)
                        && (recoveryRequired ==> status.error == Some(SessionRecovery)))
      ensures (View(), verify) == StartLocal(old(View()), request, known, sameIdentity, a, c)
    {
      StartLocalMeans(View(), request, known, sameIdentity, a, c);
      LocalAttemptCases(View(), request, a, c);
      if active.None? && !recoveryRequired && FirstFailure(LocalOnly, a).Some? { LocalAttemptLeaves(View(), request, a, c); }
      verify := EnterLocalProxy(request, known, sameIdentity, a, c);
    }

    // Confirms or replaces the session under verification. Everything published is acceptable
    // exactly when a confirmed session has its process row passed.
    method FinishLocalVerification(request: Request, sameIdentity: bool, proof: Option<nat>, live: bool, stop: Option<Stage>,
                                   reconciled: bool, a: StartAnswers, c: Cleanup)
      requires Valid() && GoodServices(a) && Short(proof)
      requires active.Some? ==> Exact(View(), LocalOnly, request) && NearlyProven(status)
      modifies this`status, this`log, this`active, this`recoveryRequired
      ensures Safe(View())
      ensures var misreports := old(active).Some? && sameIdentity && proof.Some? && live && old(status).proofs.process.state != Passed;
              (AllAccepted(log) <==> !misreports) && (!misreports ==> Valid())
      ensures proof.Some? && !(old(active).Some? && sameIdentity) ==> View() == old(View())
      ensures proof.Some? && old(active).Some? && sameIdentity && live ==>
                active == old(active) && status.phase == LocalProxyReady && status.error.None? && status.routeCheck == proof
      ensures proof.None? || (old(active).Some? && sameIdentity && !live) ==>
                if old(active).Some? && stop.Some? then active == old(active) && recoveryRequired && status.error == stop
                else if !reconciled then active.None? && recoveryRequired && status.error == Some(SessionRecovery)
                else FirstFailure(LocalOnly, a).None? ==> RunsReady(View(), LocalOnly, request)
      ensures View() == FinishLocal(old(View()), request, sameIdentity, proof, live, stop, reconciled, a, c)
    {
      FinishLocalMeans(View(), request, sameIdentity, proof, live, stop, reconciled, a, c);
      FinishLocalCases(View(), request, sameIdentity, proof, live, stop, reconciled, a, c);
      ConfirmOrReplaceLocal(request, sameIdentity, proof, live, stop, reconciled, a, c);
    }

    // An admitted request replaces the intent; its first retry is two seconds away.
    method RequestSystemProxy(request: Request, valid: bool, known: bool) returns (go: bool)
      requires Valid()
      modifies this`reconnect
      ensures Valid()
      ensures go <==> valid && known && !shuttingDown && !recoveryRequired && status.phase != BlockedByConflict
      ensures reconnect == if go then Some(Intent(request, 0, now + 2_000, false)) else old(reconnect)
      ensures (View(), go) == EnterProxy(old(View()), request, valid, known)
    {
      go := AdmitSystemProxy(request, valid, known);
    }

    // Only a start from rest can end with a session: ready, or else nothing runs and Windows is
    // restored, or recovery is required. A running session is left alone.
    method StartSystemProxyLocked(request: Request, known: bool, sameIdentity: bool, a: StartAnswers, c: Cleanup)
      returns (attempt: Attempt)
      requires Valid() && GoodServices(a)
      modifies this`status, this`log, this`active, this`recoveryRequired
      ensures Valid()
      ensures old(active).Some? || shuttingDown || old(recoveryRequired) ==> View() == old(View())
      ensures attempt.Verify? <==>
                && !shuttingDown && !old(recoveryRequired) && sameIdentity
                && old(active).Some? && old(active).value.mode == SystemProxy
                && old(active).value.node == request.node && old(active).value.routing == request.routing
      ensures attempt == Ended(true) ==> RunsReady(View(), SystemProxy, request) && Serves(View(), a)
      ensures attempt == Ended(true) <==>
                old(active).None? && known && !shuttingDown && !old(recoveryRequired) && FirstFailure(SystemProxy, a).None?
      ensures attempt == Ended(false) && old(active).None? ==> AtRest() || recoveryRequired
      ensures attempt == Ended(false) && old(active).None? && known && !shuttingDown && !old(recoveryRequired) ==>
                && (active.Some? <==>
                      || (MayPointHere(a) && c.restore != Restored && c.restore != ForeignPreserved)
                      || (WasLaunched(a) && c.stop.Some?))
                && (recoveryRequired <==> active.Some? || !c.reconciled)
      ensures attempt == Ended(false) && old(active).None? && known && !shuttingDown && !old(recoveryRequired) ==>
                (c.restore == Restored || c.restore == ForeignPreserved) && c.stop.None? && c.reconciled ==>
                  && AtRest() && !recoveryRequired
                  && status.phase == DisconnectedWithError && status.error == FirstFailure(SystemProxy, a) && RowTells(View())
      ensures (View(), attempt) == ProxyAttempt(old(View()), request, known, sameIdentity, a, c)
    {
      ProxyAttemptMeans(View(), request, known, sameIdentity, a, c);
      ProxyAttemptCases(View(), request, known, sameIdentity, a, c);
      if active.None? && !recoveryRequired && !shuttingDown && FirstFailure(SystemProxy, a).Some? {
        ProxyAttemptLeaves(View(), request, sameIdentity, a, c);
      }
      attempt := AttemptSystemProxy(request, known, sameIdentity, a, c);
    }

    // Reports the session under verification. What is published is acceptable exactly when a
    // confirmed session has its process row passed and a blocked one its ownership row failed.
    method FinishProxyVerification(request: Request, proof: Option<nat>, live: bool, owned: bool) returns (ok: bool)
      requires Valid() && Short(proof)
      requires active.Some? ==> Exact(View(), SystemProxy, request) && NearlyProven(status)
      modifies this`status, this`log
      ensures Safe(View()) && (ok <==> active.Some? && proof.Some? && live && owned)
      ensures active == old(active) && (active.None? ==> View() == old(View()))
      ensures active.Some? ==>
                status.phase == (if ok then SystemProxyReady else if owned then Degraded else BlockedByConflict)
                && status.error == (if ok then None else if owned then Some(ProveTraffic) else Some(ProxyOwnership))
                && status.routeCheck == (if ok then proof else if owned then old(status).routeCheck else None)
      ensures var misreports := active.Some?
                && if ok then old(status).proofs.process.state != Passed else !owned && old(status).proofs.proxy.state != Failed;
              (AllAccepted(log) <==> !misreports) && (!misreports ==> Valid())
      ensures (View(), ok) == FinishProxy(old(View()), request, proof, live, owned)
    {
      FinishProxyMeans(View(), request, proof, live, owned);
      FinishProxyCases(View(), request, proof, live, owned);
      ok := ReportVerification(request, proof, live, owned);
    }

    // A success resets the count of failures; the next retry is two seconds to a minute away, twice
    // as far after every failure, and announced only when it may come. An error that a retry cannot
    // mend pauses it.
    method FinishConnectionAttempt(ok: bool)
      requires Valid()
      modifies this`status, this`log, this`reconnect
      ensures Valid() && (reconnect.Some? <==> old(reconnect).Some?)
      ensures reconnect.Some? ==>
                && reconnect.value.failures == (if ok then 0 else old(reconnect).value.failures + 1)
                && reconnect.value.request == old(reconnect).value.request
                && reconnect.value.next == now + (match reconnect.value.failures
                     case 0 => 2_000 case 1 => 4_000 case 2 => 8_000 case 3 => 16_000 case 4 => 32_000 case _ => 60_000)
                && (reconnect.value.paused <==>
                      old(reconnect).value.paused || old(status).error == Some(EngineLayout)
                      || old(status).error == Some(EngineIntegrity) || old(status).error == Some(ConfigCheck)
                      || old(status).error == Some(GenerateConfig) || old(status).error == Some(ProxyOwnership))
      ensures status.requested <==> reconnect.Some?
      ensures status.paused <==>
                reconnect.Some? && (reconnect.value.paused || recoveryRequired || status.phase == BlockedByConflict)
      ensures status.retrySeconds == AnnouncedRetry(View()) && (status.retrySeconds.Some? ==> status.retrySeconds.value <= 60)
      ensures View() == FinishAttempt(old(View()), ok)
    {
      FinishAttemptSafe(View(), ok);
      FinishAttemptSound(View(), ok);
      RescheduleAndPublish(ok);
    }

    // No retry is wanted or announced any more; the session and what was published are untouched.
    method CancelConnection()
      requires Valid()
      modifies this`status, this`reconnect
      ensures Valid() && reconnect.None? && !status.requested && !status.paused && status.retrySeconds.None?
      ensures View() == CancelIntent(old(View()))
    {
      CancelSound(View());
      DropIntent();
    }

    // The rest of a stop. When it completes nothing runs and Windows is restored; otherwise what
    // is left is the same session, waiting for recovery.
    method Stop(c: Cleanup) returns (ok: bool)
      requires Valid()
      modifies this`status, this`log, this`active, this`recoveryRequired, this`reconnect
      ensures Valid() && (ok ==> AtRest())
      ensures active.Some? ==> recoveryRequired && KeptByStop(old(View()), View())
      ensures ok <==> old(active).None?
                      || ((old(active).value.requiresRestore ==> c.restore == Restored) && c.stop.None? && c.reconciled)
      ensures ok ==> reconnect == old(reconnect) && (recoveryRequired || status.phase == Disconnected)
      ensures recoveryRequired <==>
                if old(active).None? then old(recoveryRequired)
                else (old(active).value.requiresRestore && c.restore != Restored && c.restore != ForeignPreserved)
                     || c.stop.Some? || !c.reconciled
      ensures !ok && !recoveryRequired ==>
                && AtRest() && status.phase == DisconnectedWithError && status.error == Some(ProxyOwnership)
                && status.session.None? && (reconnect.Some? ==> reconnect.value.paused)
      ensures old(active).None? && old(recoveryRequired) ==> View() == old(View())
      ensures !ok && old(active).Some? && old(active).value.requiresRestore
              && (c.restore == Restored || c.restore == ForeignPreserved) ==>
                status.proofs.proxy.state == if c.restore == Restored then Passed else Failed
      ensures (View(), ok) == StopActive(old(View()), None, c)
    {
      StopMeans(View(), None, c);
      StopCases(View(), None, c);
      ok := StopActiveLocked(None, c);
    }

    // Recovery first tears down a retained session; only with none left does it go on.
    method BeginSessionRecovery(c: Cleanup) returns (recover: bool)
      requires Valid()
      modifies this`status, this`log, this`active, this`recoveryRequired, this`reconnect
      ensures Valid() && (recover ==> View() == old(View()))
      ensures recover <==> old(recoveryRequired) && old(active).None?
      ensures old(recoveryRequired) && old(active).Some? ==>
                (!recoveryRequired <==>
                   && (old(active).value.requiresRestore ==> c.restore == Restored || c.restore == ForeignPreserved)
                   && c.stop.None? && c.reconciled)
      ensures !old(recoveryRequired) ==> View() == old(View())
      ensures old(recoveryRequired) && !recoveryRequired ==> AtRest()
      ensures (View(), recover) == BeginRecovery(old(View()), c)
    {
      StopMeans(View(), None, c);
      StopCases(View(), None, c);
      recover := RecoverRetained(c);
    }

    // Recovery succeeds only when session files and the journal are reconciled.
    method FinishSessionRecovery(sessions: Option<Stage>, journalClean: bool)
      requires Valid() && active.None?
      modifies this`status, this`log, this`recoveryRequired
      ensures Valid() && (recoveryRequired <==> sessions.Some? || !journalClean)
      ensures status.phase == if recoveryRequired then RecoveryRequired else Disconnected
      ensures View() == FinishRecovery(old(View()), sessions, journalClean)
    {
      FinishRecoveryMeans(View(), sessions, journalClean);
      ReportRecovery(sessions, journalClean);
    }

    // Only a due, unpaused intent reconnects, and only from rest: a System Proxy session is torn
    // down for it after six failed probes, any other session is left alone.
    method TickReconnect(c: Cleanup) returns (request: Option<Request>)
      requires Valid()
      modifies this`status, this`log, this`active, this`recoveryRequired, this`reconnect
      ensures Valid()
      ensures request.Some? ==>
                && AtRest() && !recoveryRequired && !shuttingDown
                && old(reconnect).Some? && !old(reconnect).value.paused && old(reconnect).value.next <= now
                && request == Some(old(reconnect).value.request)
      ensures old(reconnect).None? || old(recoveryRequired) || shuttingDown ==> request.None? && View() == old(View())
      ensures old(active).Some? && (old(active).value.mode != SystemProxy || old(active).value.failures < 6) ==>
                request.None? && View() == old(View())
      ensures request.Some? <==>
                && old(reconnect).Some? && !old(reconnect).value.paused && old(reconnect).value.next <= now
                && !old(recoveryRequired) && !shuttingDown && old(status).phase != BlockedByConflict
                && (old(active).None?
                    || (old(active).value.mode == SystemProxy && old(active).value.failures >= 6
                        && (old(active).value.requiresRestore ==> c.restore == Restored) && c.stop.None? && c.reconciled))
      ensures (View(), request) == ReconnectTick(old(View()), c)
    {
      ReconnectMeans(View(), c);
      ReconnectIff(View(), c);
      request := PickReconnection(c);
    }

    // A session whose process is lost is torn down or waits for recovery; a snapshot is taken of a
    // living session at most every ten seconds and names it.
    method BeginProbe(live: Liveness, owned: Option<bool>, c: Cleanup) returns (snapshot: Option<Snapshot>)
      requires Valid()
      modifies this`status, this`log, this`active, this`recoveryRequired, this`reconnect
      ensures Valid() && KeptByMonitor(old(View()), View())
      ensures live != Alive && active.Some? ==> recoveryRequired
      ensures old(recoveryRequired) || old(status).phase == RecoveryRequired || old(active).None? ==> View() == old(View())
      ensures snapshot.Some? ==>
                && live == Alive && Current(View(), snapshot.value) && Measures(View(), snapshot.value)
                && active == Some(old(active).value.(lastProbe := now))
      ensures snapshot.Some? <==>
                && !old(recoveryRequired) && old(status).phase != RecoveryRequired && old(active).Some? && live == Alive
                && (old(active).value.mode == SystemProxy ==> owned == Some(true))
                && old(active).value.lastProbe + 10_000 <= now
      ensures !old(recoveryRequired) && old(status).phase != RecoveryRequired && old(active).Some? && live == Alive
              && old(active).value.mode == SystemProxy && owned != Some(true) ==>
                && active == old(active) && status.error == Some(ProxyOwnership) && status.proofs.proxy.state == Failed
                && status.steady.None? && status.routeCheck == (if owned.Some? then None else old(status).routeCheck)
                && status.phase == if owned.Some? then BlockedByConflict else Degraded
      ensures !old(recoveryRequired) && old(status).phase != RecoveryRequired && old(active).Some? && live != Alive
              && (old(active).value.requiresRestore ==> c.restore == Restored) && c.stop.None? && c.reconciled ==>
                && AtRest() && !recoveryRequired && reconnect == old(reconnect)
                && status.phase == DisconnectedWithError && status.error == Some(if live.Unknown? then live.stage else EngineProcess)
      ensures (View(), snapshot) == MonitorBegin(old(View()), live, owned, c)
    {
      MonitorBeginMeans(View(), live, owned, c);
      MonitorBeginCases(View(), live, owned, c);
      if active.Some? && StopCompletes(View(), c) {
        LossCases(View(), status.proofs.(process := Plain(Failed)), LossStage(live), c);
        LostRests(View(), status.proofs.(process := Plain(Failed)), LossStage(live), c);
      }
      snapshot := ObserveSession(live, owned, c);
    }

    // The result counts only for the session and generation it measured.
    method FinishProbe(snapshot: Snapshot, live: Liveness, listeners: Option<Stage>, proof: Probe, c: Cleanup) returns (warm: bool)
      requires Valid() && Measures(View(), snapshot) && ShortProbe(proof)
      modifies this`status, this`log, this`active, this`recoveryRequired, this`reconnect
      ensures Valid() && KeptByMonitor(old(View()), View())
      ensures !Current(old(View()), snapshot) || old(recoveryRequired) || old(status).phase == RecoveryRequired ==>
                !warm && View() == old(View())
      ensures warm ==> Current(View(), snapshot) && snapshot.mode == SystemProxy && status.phase == SystemProxyReady
      ensures Current(old(View()), snapshot) && !old(recoveryRequired) && old(status).phase != RecoveryRequired
              && live == Alive && listeners.None? ==>
                match proof
                case Latency(ms) =>
                  && active == Some(old(active).value.(failures := 0)) && status.error.None? && status.routeCheck == Some(ms)
                  && status.phase == (if snapshot.mode == SystemProxy then SystemProxyReady else LocalProxyReady)
                  && status.steady == (if snapshot.mode == SystemProxy && old(status).phase == SystemProxyReady then old(status).steady else None)
                case NoProof(stage) =>
                  var failures := if old(active).value.failures >= 255 then 255 else old(active).value.failures + 1;
                  && active == Some(old(active).value.(failures := failures)) && status.steady.None?
                  && if failures < 2 then
                       && status.phase == old(status).phase && status.error == old(status).error
                       && status.revision == old(status).revision + if old(status).steady.Some? then 1 else 0
                     else
                       && status.phase == Degraded && status.error == Some(stage)
                       && status.routeCheck.None? && status.proofs.outbound.state == Failed
      ensures Current(old(View()), snapshot) && !old(recoveryRequired) && old(status).phase != RecoveryRequired
              && (live != Alive || listeners.Some?)
              && (old(active).value.requiresRestore ==> c.restore == Restored) && c.stop.None? && c.reconciled ==>
                && AtRest() && !recoveryRequired && reconnect == old(reconnect)
                && status.phase == DisconnectedWithError && status.error == Some(if live.Unknown? then live.stage else if live.Exited? then EngineProcess else listeners.value)
      ensures (View(), warm) == MonitorResult(old(View()), snapshot, live, listeners, proof, c)
    {
      MonitorResultMeans(View(), snapshot, live, listeners, proof, c);
      if Current(View(), snapshot) && !recoveryRequired && status.phase != RecoveryRequired && live == Alive && listeners.None? {
        ResultCases(View(), snapshot, live, listeners, proof, c);
      }
      if active.Some? && StopCompletes(View(), c) && (live != Alive || listeners.Some?) {
        var stage := if live != Alive then LossStage(live) else listeners.value;
        LossCases(View(), status.proofs.(scope := Plain(Failed)), stage, c);
        LostRests(View(), status.proofs.(scope := Plain(Failed)), stage, c);
      }
      warm := JudgeProbe(snapshot, live, listeners, proof, c);
    }

    // The warm latency is shown only while the measured session is still running and healthy.
    method FinishWarmMeasurement(snapshot: Snapshot, live: Liveness, latency: Option<nat>, c: Cleanup)
      requires Valid() && Measures(View(), snapshot) && Short(latency)
      modifies this`status, this`log, this`active, this`recoveryRequired, this`reconnect
      ensures Valid() && KeptByMonitor(old(View()), View())
      ensures !Current(old(View()), snapshot) || old(recoveryRequired) || old(status).error.Some? ==> View() == old(View())
      ensures live == Alive && View() != old(View()) ==> status.steady == latency && status.phase == SystemProxyReady
      ensures Current(old(View()), snapshot) && !old(recoveryRequired) && old(status).phase == SystemProxyReady && live == Alive ==>
                status == old(status).(steady := latency, revision := old(status).revision + 1)
      ensures Current(old(View()), snapshot) && !old(recoveryRequired) && old(status).phase == SystemProxyReady && old(status).error.None?
              && live != Alive
              && (old(active).value.requiresRestore ==> c.restore == Restored) && c.stop.None? && c.reconciled ==>
                && AtRest() && !recoveryRequired && reconnect == old(reconnect)
                && status.phase == DisconnectedWithError && status.error == Some(if live.Unknown? then live.stage else EngineProcess)
      ensures View() == MonitorWarm(old(View()), snapshot, live, latency, c)
    {
      MonitorWarmMeans(View(), snapshot, live, latency, c);
      if active.Some? && StopCompletes(View(), c) {
        LossCases(View(), status.proofs.(process := Plain(Failed)), LossStage(live), c);
        LostRests(View(), status.proofs.(process := Plain(Failed)), LossStage(live), c);
      }
      ShowWarmMeasurement(snapshot, live, latency, c);
    }
  }
}
