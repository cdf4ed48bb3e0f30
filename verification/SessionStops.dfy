// A cancelled connection stays cancelled: which calls make a stop quiet, and what an intent that
// survives a stop does (src-tauri/src/application.rs:1677-1722, 2764-2776, 3055-3253).
module SessionStops {
  import opened Text
  import opened RuntimeStatus
  import opened Session
  import opened SessionSafety

  function Starts(log: Log): nat {
    match log case Beginning => 0 case Then(before, e) => Starts(before) + if e.StartedCore? then 1 else 0
  }

  ghost function RunFrom(y: System, steps: seq<Step>): Option<System> {
    if steps == [] then Some(y)
    else match RunFrom(y, steps[..|steps| - 1])
      case None => None
      case Some(z) => if Enabled(z, steps[|steps| - 1]) then Some(Apply(z, steps[|steps| - 1])) else None
  }

  lemma RunFromPush(y: System, steps: seq<Step>, e: Step)
    requires RunFrom(y, steps).Some? && Enabled(RunFrom(y, steps).value, e)
    ensures RunFrom(y, steps + [e]) == Some(Apply(RunFrom(y, steps).value, e))
  {
    assert (steps + [e])[..|steps|] == steps;
  }

  // ---- Quiet systems ----------------------------------------------------

  predicate ExplicitStart(e: Step) { e.CallLocal? || e.CallProxy? }

  predicate Quiet(y: System) {
    y.state.active.None? && y.state.intent.None? && (y.op.Free? || y.op.Recovering?)
  }

  lemma QuietStep(y: System, e: Step)
    requires Quiet(y) && Enabled(y, e) && !ExplicitStart(e)
    ensures Quiet(Apply(y, e)) && Starts(Apply(y, e).state.log) == Starts(y.state.log)
  {}

  ghost predicate NoneOfThem(steps: seq<Step>, chosen: Step -> bool) {
    forall i :: 0 <= i < |steps| ==> !chosen(steps[i])
  }

  // From a quiet state no core is started until somebody asks for a connection again.
  lemma {:induction false} QuietUntilAsked(y: System, steps: seq<Step>)
    requires Quiet(y) && RunFrom(y, steps).Some? && NoneOfThem(steps, ExplicitStart)
    ensures Quiet(RunFrom(y, steps).value) && Starts(RunFrom(y, steps).value.state.log) == Starts(y.state.log)
  {
    if steps != [] {
      var n := |steps| - 1;
      QuietUntilAsked(y, steps[..n]);
      assert !ExplicitStart(steps[n]);
      QuietStep(RunFrom(y, steps[..n]).value, steps[n]);
    }
  }

  // ---- What a step does to the intent -----------------------------------

  // A section that decides nothing about the intent at most pauses it.
  predicate KeepsIntent(s: State, next: State) {
    && next.now == s.now
    && (s.intent.None? ==> next.intent.None?)
    && (s.intent.Some? ==> next.intent == s.intent || next.intent == Some(s.intent.value.(paused := true)))
  }

  // A section that leaves the intent alone.
  predicate SameIntent(s: State, next: State) { next.now == s.now && next.intent == s.intent }

  lemma UpdateSameIntent(s: State, phase: Phase, node: Option<nat>, error: Option<Stage>)
    ensures SameIntent(s, Update(s, phase, node, error))
  {}

  lemma RecoverySameIntent(s: State, node: Option<nat>, stage: Stage)
    ensures SameIntent(s, InRecovery(s, node, stage))
  {}

  lemma ChildStoppedSameIntent(s: State, stop: Option<Stage>)
    ensures SameIntent(s, ChildStopped(s, stop)) && SameIntent(s, Release(ChildStopped(s, stop)))
  {}

  lemma RestoreKeepsIntent(s: State, c: Cleanup)
    requires s.active.Some?
    ensures KeepsIntent(s, RestoreFirst(s, c))
  {}

  lemma CleanupKeepsIntent(s: State, node: Option<nat>, conflict: bool, terminal: Option<Stage>, reconciled: bool)
    ensures KeepsIntent(s, AfterCleanup(s, node, conflict, terminal, reconciled).0)
  {}

  lemma StopRestoredKeepsIntent(s: State, node: Option<nat>, conflict: bool, terminal: Option<Stage>, c: Cleanup)
    ensures KeepsIntent(s, StopRestored(s, node, conflict, terminal, c).0)
  {
    var stopping := Update(s, StoppingCore, node, None);
    UpdateSameIntent(s, StoppingCore, node, None);
    ChildStoppedSameIntent(stopping, c.stop);
    if c.stop.Some? { RecoverySameIntent(ChildStopped(stopping, c.stop), node, c.stop.value); }
    else { CleanupKeepsIntent(Release(ChildStopped(stopping, c.stop)), node, conflict, terminal, c.reconciled); }
  }

  lemma StopKeepsIntent(s: State, terminal: Option<Stage>, c: Cleanup)
    ensures KeepsIntent(s, StopActive(s, terminal, c).0)
  {
    if s.active.Some? {
      RestoreKeepsIntent(s, c);
      StopRestoredKeepsIntent(RestoreFirst(s, c), s.status.node, s.active.value.requiresRestore && c.restore == ForeignPreserved,
                              terminal, c);
    }
  }

  lemma TakeOverSameIntent(s: State, node: nat, ms: nat, a: StartAnswers)
    requires s.active.Some?
    ensures SameIntent(s, TakeOverProxy(s, node, ms, a).0)
  {
    assert SameIntent(s, AfterPublish(Applying(s, node), a.publish));
  }

  lemma ProveSameIntent(s: State, node: nat, mode: Mode, a: StartAnswers)
    requires s.active.Some?
    ensures SameIntent(s, ProveCore(s, node, mode, a).0)
  {
    if a.proof.Latency? {
      var verified := Verified(Proven(Proving(s, node), a.proof.ms), node, a.ports, a.proof.ms);
      assert SameIntent(s, verified) && verified.active.Some?;
      TakeOverSameIntent(verified, node, a.proof.ms, a);
    }
  }

  lemma PreflightSameIntent(s: State, node: nat, mode: Mode, session: nat, a: StartAnswers)
    ensures SameIntent(s, Preflight(s, node, mode, session, a).0)
  {}

  lemma StartSameIntent(s: State, request: Request, mode: Mode, a: StartAnswers)
    ensures SameIntent(s, StartCore(s, request, mode, a).0)
  {
    if a.session.Some? {
      PreflightSameIntent(s, request.node, mode, a.session.value, a);
      var launched := Launched(Preflight(s, request.node, mode, a.session.value, a).0, request, mode, a.session.value, a);
      ProveSameIntent(launched, request.node, mode, a);
    }
  }

  lemma EndLocalSameIntent(s: State, node: nat, stage: Stage, c: Cleanup)
    ensures SameIntent(s, EndRollBackLocal(s, node, stage, c))
  {
    assert SameIntent(s, ChildStopped(s, c.stop)) && SameIntent(s, Release(ChildStopped(s, c.stop)));
  }

  lemma AttemptSameIntent(s: State, request: Request, a: StartAnswers, c: Cleanup)
    ensures SameIntent(s, LocalAttempt(s, request, a, c))
  {
    StartSameIntent(s, request, LocalOnly, a);
    var (started, failure) := StartCore(s, request, LocalOnly, a);
    if failure.Some? { EndLocalSameIntent(EnterRollBack(started, request.node, failure.value), request.node, failure.value, c); }
  }

  lemma EndSameIntent(s: State, node: nat, stage: Stage, c: Cleanup)
    ensures SameIntent(s, EndRollBack(s, node, stage, c))
  {
    assert SameIntent(s, ChildStopped(s, c.stop)) && SameIntent(s, Release(ChildStopped(s, c.stop)));
  }

  lemma RollBackSameIntent(s: State, node: nat, stage: Stage, c: Cleanup)
    ensures SameIntent(s, RollBackProxy(s, node, stage, c))
  {
    var rolling := EnterRollBack(s, node, stage);
    if s.active.Some? && s.active.value.requiresRestore {
      EndSameIntent(ProxyRestored(rolling, c.restore), node, stage, c);
    } else {
      EndSameIntent(rolling, node, stage, c);
    }
  }

  lemma ProxyAttemptSameIntent(s: State, request: Request, known: bool, sameIdentity: bool, a: StartAnswers, c: Cleanup)
    ensures SameIntent(s, ProxyAttempt(s, request, known, sameIdentity, a, c).0)
  {
    StartSameIntent(s, request, SystemProxy, a);
    var (started, failure) := StartCore(s, request, SystemProxy, a);
    if failure.Some? { RollBackSameIntent(started, request.node, failure.value, c); }
  }

  lemma FinishSameIntent(s: State, request: Request, sameIdentity: bool, proof: Option<nat>, live: bool, stop: Option<Stage>,
                         reconciled: bool, a: StartAnswers, c: Cleanup)
    ensures SameIntent(s, FinishLocal(s, request, sameIdentity, proof, live, stop, reconciled, a, c))
  {
    var failed := WithProofs(s, s.status.proofs.(outbound := Plain(Failed), scope := Plain(Failed)));
    var stopped := ChildStopped(Update(failed, RollingBack, Some(request.node), None), stop);
    assert SameIntent(s, stopped) && SameIntent(s, Release(stopped));
    AttemptSameIntent(Release(stopped), request, a, c);
  }

  lemma LossKeepsIntent(s: State, stage: Stage, c: Cleanup)
    ensures KeepsIntent(s, ProcessLost(s, stage, c))
  {
    StopKeepsIntent(WithProofs(s, s.status.proofs.(process := Plain(Failed))), Some(stage), c);
  }

  lemma BeginKeepsIntent(s: State, live: Liveness, owned: Option<bool>, c: Cleanup)
    ensures KeepsIntent(s, MonitorBegin(s, live, owned, c).0)
  {
    LossKeepsIntent(s, LossStage(live), c);
  }

  lemma ResultKeepsIntent(s: State, snapshot: Snapshot, live: Liveness, listeners: Option<Stage>, probe: Probe, c: Cleanup)
    ensures KeepsIntent(s, MonitorResult(s, snapshot, live, listeners, probe, c).0)
  {
    StopKeepsIntent(WithProofs(s, s.status.proofs.(scope := Plain(Failed))),
                    Some(if live != Alive then LossStage(live) else if listeners.Some? then listeners.value else Runtime), c);
    if Current(s, snapshot) {
      match probe
      case Latency(ms) => assert SameIntent(s, Measured(s, snapshot, ms));
      case NoProof(_) => assert SameIntent(s, Counted(s));
    }
  }

  lemma WarmKeepsIntent(s: State, snapshot: Snapshot, live: Liveness, warm: Option<nat>, c: Cleanup)
    ensures KeepsIntent(s, MonitorWarm(s, snapshot, live, warm, c))
  {
    LossKeepsIntent(s, LossStage(live), c);
  }

  // The steps that record, drop or reschedule the intent, and the passing of time.
  predicate ChangesIntent(e: Step) { e.CallProxy? || e.CallStop? || e.AttemptEnds? || e.Advance? }

  lemma StartCommandKeepsIntent(y: System, e: Step)
    requires Enabled(y, e) && (e.CallLocal? || e.LocalChecked? || e.ProxyStart?)
    ensures SameIntent(y.state, Apply(y, e).state)
  {
    match e
    case CallLocal(request, _, _, a, c) => AttemptSameIntent(y.state, request, a, c);
    case LocalChecked(sameIdentity, proof, live, stop, reconciled, a, c) =>
      FinishSameIntent(y.state, y.op.request, sameIdentity, proof, live, stop, reconciled, a, c);
    case ProxyStart(known, sameIdentity, a, c) => ProxyAttemptSameIntent(y.state, y.op.request, known, sameIdentity, a, c);
  }

  lemma StopCommandKeepsIntent(y: System, e: Step)
    requires Enabled(y, e) && (e.StopRuns? || e.CallRetry? || e.Reconnect?)
    ensures KeepsIntent(y.state, Apply(y, e).state)
  {
    StopKeepsIntent(y.state, None, e.c);
  }

  // Every other step at most pauses the intent.
  lemma IntentStep(y: System, e: Step)
    requires Enabled(y, e) && !ChangesIntent(e)
    ensures KeepsIntent(y.state, Apply(y, e).state)
  {
    match e
    case MonitorBegins(alive, ownership, c) => BeginKeepsIntent(y.state, alive, ownership, c);
    case MonitorProbed(alive, listeners, probe, c) => ResultKeepsIntent(y.state, y.monitor.snapshot, alive, listeners, probe, c);
    case MonitorWarmed(alive, warm, c) => WarmKeepsIntent(y.state, y.monitor.snapshot, alive, warm, c);
    case CallLocal(_, _, _, _, _) => StartCommandKeepsIntent(y, e);
    case LocalChecked(_, _, _, _, _, _, _) => StartCommandKeepsIntent(y, e);
    case ProxyStart(_, _, _, _) => StartCommandKeepsIntent(y, e);
    case StopRuns(_) => StopCommandKeepsIntent(y, e);
    case CallRetry(_) => StopCommandKeepsIntent(y, e);
    case Reconnect(_) => StopCommandKeepsIntent(y, e);
    case _ =>
  }

  // A call for a System Proxy connection that is admitted.
  predicate Accepts(y: System, e: Step) {
    e.CallProxy? && EnterProxy(y.state, e.request, e.valid, e.known).1
  }

  // Only an admitted call sets the intent, and only the call of a stop drops it.
  lemma IntentIsSetAndDropped(y: System, e: Step)
    requires Enabled(y, e)
    ensures y.state.intent.None? ==> (Apply(y, e).state.intent.Some? <==> Accepts(y, e))
    ensures y.state.intent.Some? ==> (Apply(y, e).state.intent.None? <==> e.CallStop?)
  {
    if !ChangesIntent(e) { IntentStep(y, e); }
  }

  lemma BoundStep(y: System, e: Step)
    requires Enabled(y, e) && IntentBound(y.state)
    ensures IntentBound(Apply(y, e).state)
  {
    if !ChangesIntent(e) { IntentStep(y, e); }
  }

  // In every run, with whatever answers, the next attempt is at most a minute ahead.
  lemma {:induction false} EveryRunBoundsRetry(leftover: Option<Stage>, steps: seq<Step>)
    requires Run(leftover, steps).Some?
    ensures IntentBound(Run(leftover, steps).value.state)
  {
    if steps != [] {
      var n := |steps| - 1;
      EveryRunBoundsRetry(leftover, steps[..n]);
      BoundStep(Run(leftover, steps[..n]).value, steps[n]);
    }
  }

  // ---- Stopping ---------------------------------------------------------

  // Step `i` is a call for a connection that is admitted.
  ghost predicate Asked(y: System, steps: seq<Step>, i: int) {
    0 <= i < |steps| && RunFrom(y, steps[..i]).Some? && Accepts(RunFrom(y, steps[..i]).value, steps[i])
  }

  predicate CancelledAfter(steps: seq<Step>, i: int) {
    exists j :: 0 <= j < |steps| && i < j && steps[j].CallStop?
  }

  // Every admitted call for a connection is followed by the call of a stop.
  ghost predicate EveryAskCancelled(y: System, steps: seq<Step>) {
    forall i :: Asked(y, steps, i) ==> CancelledAfter(steps, i)
  }

  lemma AskedBefore(y: System, steps: seq<Step>, e: Step, i: int)
    requires 0 <= i < |steps|
    ensures Asked(y, steps + [e], i) <==> Asked(y, steps, i)
    ensures !e.CallStop? ==> (CancelledAfter(steps + [e], i) <==> CancelledAfter(steps, i))
    ensures e.CallStop? ==> CancelledAfter(steps + [e], i)
  {
    var all := steps + [e];
    assert all[..i] == steps[..i] && all[i] == steps[i];
    if e.CallStop? { assert all[|steps|].CallStop?; }
    if CancelledAfter(steps, i) {
      var j :| 0 <= j < |steps| && i < j && steps[j].CallStop?;
      assert all[j].CallStop?;
    }
  }

  lemma AskedLast(y: System, steps: seq<Step>, e: Step)
    requires RunFrom(y, steps).Some?
    ensures Asked(y, steps + [e], |steps|) <==> Accepts(RunFrom(y, steps).value, e)
    ensures !CancelledAfter(steps + [e], |steps|)
  {
    assert (steps + [e])[..|steps|] == steps;
  }

  lemma CancelledByOne(y: System, steps: seq<Step>, e: Step)
    requires RunFrom(y, steps).Some? && Enabled(RunFrom(y, steps).value, e)
    ensures EveryAskCancelled(y, steps + [e]) <==>
            e.CallStop? || (EveryAskCancelled(y, steps) && !Accepts(RunFrom(y, steps).value, e))
  {
    AskedLast(y, steps, e);
    forall i | 0 <= i < |steps|
      ensures Asked(y, steps + [e], i) <==> Asked(y, steps, i)
      ensures CancelledAfter(steps + [e], i) <==> e.CallStop? || CancelledAfter(steps, i)
    {
      AskedBefore(y, steps, e, i);
    }
  }

  // From a cancelled connection on, an intent exists exactly when some admitted call for a
  // connection has not been cancelled since.
  lemma {:induction false} IntentIsAnUncancelledAsk(y: System, steps: seq<Step>)
    requires y.state.intent.None? && RunFrom(y, steps).Some?
    ensures RunFrom(y, steps).value.state.intent.None? <==> EveryAskCancelled(y, steps)
  {
    if steps != [] {
      var init, e := steps[..|steps| - 1], steps[|steps| - 1];
      assert init + [e] == steps;
      IntentIsAnUncancelledAsk(y, init);
      IntentIsSetAndDropped(RunFrom(y, init).value, e);
      CancelledByOne(y, init, e);
    }
  }

  lemma {:induction false} SafeThroughout(y: System, steps: seq<Step>)
    requires SafeSystem(y) && RunFrom(y, steps).Some?
    ensures SafeSystem(RunFrom(y, steps).value)
  {
    if steps != [] {
      var n := |steps| - 1;
      SafeThroughout(y, steps[..n]);
      StepSafe(RunFrom(y, steps[..n]).value, steps[n]);
    }
  }

  // What a stop whose cleanup completes leaves.
  lemma CompletedStop(y: System, c: Cleanup)
    requires SafeSystem(y) && Enabled(y, StopRuns(c)) && StopActive(y.state, None, c).1
    ensures var after := Apply(y, StopRuns(c));
            after.state.active.None? && after.op.Free? && (after.state.intent.None? <==> y.state.intent.None?)
  {
    StopActiveSafe(y.state, None, c);
    StopKeepsIntent(y.state, None, c);
  }

  // A stop that completes its cleanup, `during` after its call, leaves a quiet system exactly
  // when every connection admitted in between was itself cancelled by another call of a stop.
  lemma StopIsQuietIff(y: System, during: seq<Step>, c: Cleanup)
    requires SafeSystem(y) && RunFrom(Apply(y, CallStop), during).Some?
    requires Enabled(RunFrom(Apply(y, CallStop), during).value, StopRuns(c))
    requires StopActive(RunFrom(Apply(y, CallStop), during).value.state, None, c).1
    ensures Quiet(Apply(RunFrom(Apply(y, CallStop), during).value, StopRuns(c)))
            <==> EveryAskCancelled(Apply(y, CallStop), during)
  {
    StepSafe(y, CallStop);
    SafeThroughout(Apply(y, CallStop), during);
    IntentIsAnUncancelledAsk(Apply(y, CallStop), during);
    CompletedStop(RunFrom(Apply(y, CallStop), during).value, c);
  }

  // Stop, from its call to its completed cleanup, with a reconnection or a start possibly still
  // in progress at the call: afterwards nothing starts a core until somebody asks again.
  lemma StoppedMeansStopped(y: System, during: seq<Step>, c: Cleanup, later: seq<Step>)
    requires SafeSystem(y) && RunFrom(Apply(y, CallStop), during).Some?
    requires EveryAskCancelled(Apply(y, CallStop), during)
    requires Enabled(RunFrom(Apply(y, CallStop), during).value, StopRuns(c))
    requires StopActive(RunFrom(Apply(y, CallStop), during).value.state, None, c).1
    requires RunFrom(Apply(RunFrom(Apply(y, CallStop), during).value, StopRuns(c)), later).Some? && NoneOfThem(later, ExplicitStart)
    ensures var stopped := Apply(RunFrom(Apply(y, CallStop), during).value, StopRuns(c));
            Starts(RunFrom(stopped, later).value.state.log) == Starts(stopped.state.log)
  {
    StopIsQuietIff(y, during, c);
    QuietUntilAsked(Apply(RunFrom(Apply(y, CallStop), during).value, StopRuns(c)), later);
  }

  // ---- An intent that survives a stop -----------------------------------

  lemma UpdateStartsNothing(s: State, phase: Phase, node: Option<nat>, error: Option<Stage>)
    ensures Starts(Update(s, phase, node, error).log) == Starts(s.log) && Update(s, phase, node, error).active == s.active
  {}

  lemma PreflightStartsNothing(s: State, node: nat, mode: Mode, session: nat, a: StartAnswers)
    ensures Starts(Preflight(s, node, mode, session, a).0.log) == Starts(s.log)
  {
    var preparing := EnterPreparing(s, node, mode, session);
    assert Starts(preparing.log) == Starts(s.log);
    assert Starts(Validating(preparing, node).log) == Starts(s.log);
  }

  lemma TakeOverStartsNothing(s: State, node: nat, ms: nat, a: StartAnswers)
    requires s.active.Some?
    ensures Starts(TakeOverProxy(s, node, ms, a).0.log) == Starts(s.log)
  {
    var applied := AfterPublish(Applying(s, node), a.publish);
    assert Starts(Applying(s, node).log) == Starts(s.log);
    assert Starts(applied.log) == Starts(s.log);
  }

  // Verifying a proven engine, and what follows, starts nothing.
  lemma VerifiedStartsNothing(s: State, node: nat, ports: Ports, ms: nat)
    ensures Starts(Verified(s, node, ports, ms).log) == Starts(s.log) && Verified(s, node, ports, ms).active == s.active
  {}

  lemma ProvingStartsNothing(s: State, node: nat, ms: nat)
    ensures Starts(Proving(s, node).log) == Starts(s.log) && Starts(Proven(Proving(s, node), ms).log) == Starts(s.log)
    ensures Proven(Proving(s, node), ms).active == s.active
  {}

  lemma ProveStartsNothing(s: State, node: nat, mode: Mode, a: StartAnswers)
    requires s.active.Some?
    ensures Starts(ProveCore(s, node, mode, a).0.log) == Starts(s.log)
  {
    ProvingStartsNothing(s, node, if a.proof.Latency? then a.proof.ms else 0);
    if a.proof.Latency? {
      var proven := Proven(Proving(s, node), a.proof.ms);
      VerifiedStartsNothing(proven, node, a.ports, a.proof.ms);
      var verified := Verified(proven, node, a.ports, a.proof.ms);
      if mode == SystemProxy { TakeOverStartsNothing(verified, node, a.proof.ms, a); }
      else { UpdateStartsNothing(verified, LocalProxyReady, Some(node), None); }
    }
  }

  lemma RecoveryStartsNothing(s: State, node: Option<nat>, stage: Stage)
    ensures Starts(InRecovery(s, node, stage).log) == Starts(s.log)
  {}

  lemma ChildStoppedStartsNothing(s: State, stop: Option<Stage>)
    ensures Starts(ChildStopped(s, stop).log) == Starts(s.log) && Starts(Release(s).log) == Starts(s.log)
  {}

  lemma EndStartsNothing(s: State, node: nat, stage: Stage, c: Cleanup)
    ensures Starts(EndRollBack(s, node, stage, c).log) == Starts(s.log)
  {
    ChildStoppedStartsNothing(s, c.stop);
    var stopped := ChildStopped(s, c.stop);
    ChildStoppedStartsNothing(stopped, c.stop);
    if s.active.Some? && c.stop.Some? { RecoveryStartsNothing(stopped, Some(node), c.stop.value); }
    RecoveryStartsNothing(Release(stopped), Some(node), stage);
    UpdateStartsNothing(Release(stopped), DisconnectedWithError, Some(node), Some(stage));
  }

  // Undoing a start starts nothing.
  lemma RollBackStartsNothing(s: State, node: nat, stage: Stage, c: Cleanup)
    ensures Starts(RollBackProxy(s, node, stage, c).log) == Starts(s.log)
  {
    UpdateStartsNothing(WithProofs(s, FailedProofs(s.status.proofs, stage)), RollingBack, Some(node), None);
    var rolling := EnterRollBack(s, node, stage);
    if s.active.Some? && s.active.value.requiresRestore {
      var restored := ProxyRestored(rolling, c.restore);
      assert Starts(restored.log) == Starts(s.log);
      RecoveryStartsNothing(restored, Some(node), ProxyRestore);
      EndStartsNothing(restored, node, stage, c);
    } else {
      EndStartsNothing(rolling, node, stage, c);
    }
  }

  // The answers under which the engine is launched, whether or not it proves itself afterwards.
  predicate Launches(a: StartAnswers) {
    a.session.Some? && a.prepared.None? && a.validated.None? && a.launched.None?
  }

  // An attempt whose engine is launched starts exactly one core, however it goes on.
  lemma LaunchStartsOne(s: State, request: Request, a: StartAnswers, c: Cleanup)
    requires s.active.None? && !s.recovery && !s.shuttingDown && Launches(a)
    ensures Starts(ProxyAttempt(s, request, true, true, a, c).0.log) == Starts(s.log) + 1
  {
    var checked := Preflight(s, request.node, SystemProxy, a.session.value, a).0;
    PreflightStartsNothing(s, request.node, SystemProxy, a.session.value, a);
    var launched := Launched(checked, request, SystemProxy, a.session.value, a);
    assert Starts(launched.log) == Starts(checked.log) + 1;
    ProveStartsNothing(launched, request.node, SystemProxy, a);
    var (started, failure) := StartCore(s, request, SystemProxy, a);
    if failure.Some? { RollBackStartsNothing(started, request.node, failure.value, c); }
  }

  // When a retry is due and nothing forbids it, the tick picks the intended connection.
  lemma DueTick(s: State, c: Cleanup)
    requires s.active.None? && s.intent.Some? && !s.intent.value.paused && s.intent.value.next <= s.now
    requires !s.recovery && !s.shuttingDown && s.status.phase != BlockedByConflict
    ensures ReconnectTick(s, c) == (s, Some(s.intent.value.request))
  {}

  lemma StopEndsDisconnected(s: State, c: Cleanup)
    requires StopActive(s, None, c).1 && !StopActive(s, None, c).0.recovery
    ensures StopActive(s, None, c).0.status.phase == Disconnected
  {}

  // The retry a minute later: the tick picks the intended connection and one core is started.
  function RetryAfter(a: StartAnswers, c: Cleanup): seq<Step> {
    [Advance(MAX_RETRY_MS)] + [Reconnect(c)] + [ProxyStart(true, true, a, c)]
  }

  // In every run, an intent that survived a completed stop reconnects: unless it is paused,
  // recovery is required or the program shuts down, the tick a minute later starts one core,
  // whatever becomes of it.
  lemma SurvivingIntentReconnects(leftover: Option<Stage>, steps: seq<Step>, c: Cleanup, a: StartAnswers)
    requires Run(leftover, steps).Some? && Enabled(Run(leftover, steps).value, StopRuns(c))
    requires StopActive(Run(leftover, steps).value.state, None, c).1 && Launches(a)
    requires var s := Apply(Run(leftover, steps).value, StopRuns(c)).state;
             s.intent.Some? && !s.intent.value.paused && !s.recovery && !s.shuttingDown
    ensures var stopped := Apply(Run(leftover, steps).value, StopRuns(c));
            && RunFrom(stopped, RetryAfter(a, c)).Some?
            && Starts(RunFrom(stopped, RetryAfter(a, c)).value.state.log) == Starts(stopped.state.log) + 1
  {
    var y := Run(leftover, steps).value;
    EveryRunIsSafe(leftover, steps);
    EveryRunBoundsRetry(leftover, steps);
    CompletedStop(y, c);
    BoundStep(y, StopRuns(c));
    StopEndsDisconnected(y.state, c);
    var stopped := Apply(y, StopRuns(c));
    var due := Apply(stopped, Advance(MAX_RETRY_MS));
    DueTick(due.state, c);
    LaunchStartsOne(due.state, due.state.intent.value.request, a, c);
    Unrolled(stopped, Advance(MAX_RETRY_MS), Reconnect(c), ProxyStart(true, true, a, c));
  }

  lemma Unrolled(y: System, first: Step, second: Step, third: Step)
    requires Enabled(y, first) && Enabled(Apply(y, first), second) && Enabled(Apply(Apply(y, first), second), third)
    ensures RunFrom(y, [first] + [second] + [third]) == Some(Apply(Apply(Apply(y, first), second), third))
  {
    var none: seq<Step> := [];
    RunFromPush(y, none, first);
    assert none + [first] == [first];
    RunFromPush(y, [first], second);
    RunFromPush(y, [first] + [second], third);
  }
}
