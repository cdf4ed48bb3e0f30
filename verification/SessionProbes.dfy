// When a running session is torn down to reconnect: only after six probes in a row without proof
// (src-tauri/src/application.rs:3119-3170, 3300-3398).
module SessionProbes {
  import opened Text
  import opened RuntimeStatus
  import opened Session
  import opened SessionSafety
  import opened SessionContract
  import opened SessionStops

  // The step is the result of a probe of the session that runs, and of nothing else.
  ghost predicate Judges(y: System, e: Step) {
    && e.MonitorProbed? && y.monitor.Probing? && y.state.active.Some?
    && y.state.active.value.session == y.monitor.snapshot.session
    && y.state.active.value.generation == y.monitor.snapshot.generation
    && !y.state.recovery && y.state.status.phase != RecoveryRequired && e.alive == Alive && e.listeners.None?
  }

  // The probe results without proof since the last one with proof or the start of the last core.
  ghost function FailedProbes(leftover: Option<Stage>, steps: seq<Step>): nat
    requires Run(leftover, steps).Some?
  {
    if steps == [] then 0
    else
      var n := |steps| - 1;
      var y, e := Run(leftover, steps[..n]).value, steps[n];
      if Starts(Apply(y, e).state.log) > Starts(y.state.log) then 0
      else if !Judges(y, e) then FailedProbes(leftover, steps[..n])
      else match e.probe case Latency(_) => 0 case NoProof(_) => FailedProbes(leftover, steps[..n]) + 1
  }

  // ---- What a section does to the count of the session ------------------

  // A section that starts nothing and leaves the count of what still runs alone.
  predicate KeepsCount(s: State, next: State) {
    && Starts(next.log) == Starts(s.log)
    && (next.active.Some? ==>
          s.active.Some? && next.active.value.failures == s.active.value.failures && next.active.value.mode == s.active.value.mode)
  }

  // A section after which a running session has just been started.
  predicate StartsAnew(s: State, next: State) {
    && Starts(s.log) <= Starts(next.log)
    && (next.active.Some? ==> Starts(s.log) < Starts(next.log) && next.active.value.failures == 0)
  }

  lemma UpdateKeepsCount(s: State, phase: Phase, node: Option<nat>, error: Option<Stage>)
    ensures KeepsCount(s, Update(s, phase, node, error))
  {}

  lemma RecoveryKeepsCount(s: State, node: Option<nat>, stage: Stage)
    ensures KeepsCount(s, InRecovery(s, node, stage))
  {}

  lemma ChildKeepsCount(s: State, stop: Option<Stage>)
    ensures KeepsCount(s, ChildStopped(s, stop)) && KeepsCount(s, Release(s)) && Release(s).active.None?
  {}

  lemma RestoreKeepsCount(s: State, c: Cleanup)
    requires s.active.Some?
    ensures KeepsCount(s, RestoreFirst(s, c))
  {
    UpdateKeepsCount(s, RestoringSystemProxy, s.status.node, None);
    assert s.active.value.requiresRestore ==> KeepsCount(s, ProxyRestored(Restoring(s), c.restore));
  }

  lemma CleanupKeepsCount(s: State, node: Option<nat>, conflict: bool, terminal: Option<Stage>, reconciled: bool)
    ensures KeepsCount(s, AfterCleanup(s, node, conflict, terminal, reconciled).0)
  {}

  lemma StopRestoredKeepsCount(s: State, node: Option<nat>, conflict: bool, terminal: Option<Stage>, c: Cleanup)
    ensures KeepsCount(s, StopRestored(s, node, conflict, terminal, c).0)
  {
    var stopping := Update(s, StoppingCore, node, None);
    UpdateKeepsCount(s, StoppingCore, node, None);
    ChildKeepsCount(stopping, c.stop);
    var stopped := ChildStopped(stopping, c.stop);
    ChildKeepsCount(stopped, c.stop);
    if c.stop.Some? { RecoveryKeepsCount(stopped, node, c.stop.value); }
    else { CleanupKeepsCount(Release(stopped), node, conflict, terminal, c.reconciled); }
  }

  lemma StopKeepsCount(s: State, terminal: Option<Stage>, c: Cleanup)
    ensures KeepsCount(s, StopActive(s, terminal, c).0)
  {
    if s.active.Some? {
      RestoreKeepsCount(s, c);
      RecoveryKeepsCount(RestoreFirst(s, c), s.status.node, ProxyRestore);
      StopRestoredKeepsCount(RestoreFirst(s, c), s.status.node, s.active.value.requiresRestore && c.restore == ForeignPreserved,
                             terminal, c);
    }
  }

  lemma EndLocalKeepsCount(s: State, node: nat, stage: Stage, c: Cleanup)
    ensures KeepsCount(s, EndRollBackLocal(s, node, stage, c))
  {
    ChildKeepsCount(s, c.stop);
    var stopped := ChildStopped(s, c.stop);
    ChildKeepsCount(stopped, c.stop);
    if s.active.Some? && c.stop.Some? {
      RecoveryKeepsCount(stopped.(status := stopped.status.(ports := Some(s.active.value.ports), engine := true)),
                         Some(node), c.stop.value);
    } else {
      RecoveryKeepsCount(Release(stopped), Some(node), stage);
      UpdateKeepsCount(Release(stopped), DisconnectedWithError, Some(node), Some(stage));
    }
  }

  lemma EnterRollBackKeepsCount(s: State, node: nat, stage: Stage)
    ensures KeepsCount(s, EnterRollBack(s, node, stage)) && EnterRollBack(s, node, stage).active == s.active
  {}

  lemma EndKeepsCount(s: State, node: nat, stage: Stage, c: Cleanup)
    ensures KeepsCount(s, EndRollBack(s, node, stage, c))
  {
    ChildKeepsCount(s, c.stop);
    var stopped := ChildStopped(s, c.stop);
    ChildKeepsCount(stopped, c.stop);
    if s.active.Some? && c.stop.Some? {
      RecoveryKeepsCount(stopped, Some(node), c.stop.value);
    } else {
      RecoveryKeepsCount(Release(stopped), Some(node), stage);
      UpdateKeepsCount(Release(stopped), DisconnectedWithError, Some(node), Some(stage));
    }
  }

  lemma RollBackKeepsCount(s: State, node: nat, stage: Stage, c: Cleanup)
    ensures KeepsCount(s, RollBackProxy(s, node, stage, c))
  {
    EnterRollBackKeepsCount(s, node, stage);
    var rolling := EnterRollBack(s, node, stage);
    if s.active.Some? && s.active.value.requiresRestore {
      var restored := ProxyRestored(rolling, c.restore);
      assert KeepsCount(s, restored);
      RecoveryKeepsCount(restored, Some(node), ProxyRestore);
      EndKeepsCount(restored, node, stage, c);
    } else {
      EndKeepsCount(rolling, node, stage, c);
    }
  }

  // ---- Starts -----------------------------------------------------------

  lemma TakeOverKeepsCount(s: State, node: nat, ms: nat, a: StartAnswers)
    requires s.active.Some?
    ensures KeepsCount(s, TakeOverProxy(s, node, ms, a).0)
  {
    TakeOverStartsNothing(s, node, ms, a);
    TakeOverReady(s, node, ms, a);
  }

  lemma ProveKeepsCount(s: State, node: nat, mode: Mode, a: StartAnswers)
    requires s.active.Some?
    ensures KeepsCount(s, ProveCore(s, node, mode, a).0)
  {
    ProvingStartsNothing(s, node, if a.proof.Latency? then a.proof.ms else 0);
    if a.proof.Latency? {
      var proven := Proven(Proving(s, node), a.proof.ms);
      VerifiedStartsNothing(proven, node, a.ports, a.proof.ms);
      var verified := Verified(proven, node, a.ports, a.proof.ms);
      TakeOverKeepsCount(verified, node, a.proof.ms, a);
      UpdateKeepsCount(verified, LocalProxyReady, Some(node), None);
    }
  }

  lemma StartAnew(s: State, request: Request, mode: Mode, a: StartAnswers)
    requires s.active.None?
    ensures StartsAnew(s, StartCore(s, request, mode, a).0)
  {
    if a.session.Some? {
      var checked := Preflight(s, request.node, mode, a.session.value, a).0;
      PreflightStartsNothing(s, request.node, mode, a.session.value, a);
      assert checked.active.None?;
      var launched := Launched(checked, request, mode, a.session.value, a);
      assert Starts(launched.log) == Starts(s.log) + 1 && launched.active.value.failures == 0;
      ProveKeepsCount(launched, request.node, mode, a);
    }
  }

  lemma LocalAttemptAnew(s: State, request: Request, a: StartAnswers, c: Cleanup)
    requires s.active.None?
    ensures StartsAnew(s, LocalAttempt(s, request, a, c))
  {
    StartAnew(s, request, LocalOnly, a);
    var (started, failure) := StartCore(s, request, LocalOnly, a);
    if failure.Some? {
      EnterRollBackKeepsCount(started, request.node, failure.value);
      EndLocalKeepsCount(EnterRollBack(started, request.node, failure.value), request.node, failure.value, c);
    }
  }

  lemma ProxyAttemptAnew(s: State, request: Request, known: bool, sameIdentity: bool, a: StartAnswers, c: Cleanup)
    ensures var next := ProxyAttempt(s, request, known, sameIdentity, a, c).0; if s.active.Some? then next == s else StartsAnew(s, next)
  {
    if s.active.None? {
      StartAnew(s, request, SystemProxy, a);
      var (started, failure) := StartCore(s, request, SystemProxy, a);
      if failure.Some? { RollBackKeepsCount(started, request.node, failure.value, c); }
    }
  }

  lemma ReplaceKeepsOrStartsAnew(s: State, request: Request, stop: Option<Stage>, reconciled: bool, a: StartAnswers, c: Cleanup)
    ensures var next := ReplaceLocal(s, request, stop, reconciled, a, c); KeepsCount(s, next) || StartsAnew(s, next)
  {
    var failed := WithProofs(s, s.status.proofs.(outbound := Plain(Failed), scope := Plain(Failed)));
    var rolling := Update(failed, RollingBack, Some(request.node), None);
    assert KeepsCount(s, rolling) && rolling.active == s.active;
    ChildKeepsCount(rolling, stop);
    var stopped := ChildStopped(rolling, stop);
    ChildKeepsCount(stopped, stop);
    if s.active.Some? && stop.Some? {
      RecoveryKeepsCount(stopped, Some(request.node), stop.value);
    } else if !reconciled {
      RecoveryKeepsCount(Release(stopped), Some(request.node), SessionRecovery);
    } else {
      LocalAttemptAnew(Release(stopped), request, a, c);
    }
  }

  lemma ReverifiedKeepsCount(s: State, node: nat, ms: nat)
    ensures KeepsCount(s, LocalReverified(s, node, ms))
  {
    var proven := WithProofs(s, s.status.proofs.(outbound := Row(Passed, Some(ms)), scope := Plain(Passed)));
    var shown := proven.(status := proven.status.(routeCheck := Some(ms)));
    UpdateKeepsCount(shown, OutboundVerified, Some(node), None);
    UpdateKeepsCount(Update(shown, OutboundVerified, Some(node), None), LocalProxyReady, Some(node), None);
  }

  lemma FinishLocalKeepsOrStartsAnew(s: State, request: Request, sameIdentity: bool, proof: Option<nat>, live: bool,
                                     stop: Option<Stage>, reconciled: bool, a: StartAnswers, c: Cleanup)
    ensures var next := FinishLocal(s, request, sameIdentity, proof, live, stop, reconciled, a, c);
            KeepsCount(s, next) || StartsAnew(s, next)
  {
    if proof.Some? { ReverifiedKeepsCount(s, request.node, proof.value); }
    ReplaceKeepsOrStartsAnew(s, request, stop, reconciled, a, c);
  }

  // ---- The monitor ------------------------------------------------------

  lemma LossKeepsCount(s: State, stage: Stage, c: Cleanup)
    ensures KeepsCount(s, ProcessLost(s, stage, c))
  {
    StopKeepsCount(WithProofs(s, s.status.proofs.(process := Plain(Failed))), Some(stage), c);
  }

  lemma BeginKeepsCount(s: State, live: Liveness, owned: Option<bool>, c: Cleanup)
    ensures KeepsCount(s, MonitorBegin(s, live, owned, c).0)
  {
    LossKeepsCount(s, LossStage(live), c);
  }

  lemma WarmKeepsCount(s: State, snapshot: Snapshot, live: Liveness, warm: Option<nat>, c: Cleanup)
    ensures KeepsCount(s, MonitorWarm(s, snapshot, live, warm, c))
  {
    LossKeepsCount(s, LossStage(live), c);
  }

  // A result that judges the session counts; any other leaves the count alone.
  lemma ResultCounts(y: System, e: Step)
    requires Enabled(y, e) && e.MonitorProbed?
    ensures var s, next := y.state, Apply(y, e).state;
            if !Judges(y, e) then KeepsCount(s, next)
            else
              && Starts(next.log) == Starts(s.log) && next.active.Some?
              && next.active.value.failures == match e.probe
                   case Latency(_) => 0
                   case NoProof(_) => if s.active.value.failures >= 255 then 255 else s.active.value.failures + 1
  {
    var s, snapshot := y.state, y.monitor.snapshot;
    if Judges(y, e) {
      match e.probe
      case Latency(ms) => PassedCounts(s, snapshot, ms);
      case NoProof(stage) => FailedCounts(s, snapshot, stage);
    } else {
      StopKeepsCount(WithProofs(s, s.status.proofs.(scope := Plain(Failed))),
                     Some(if e.alive != Alive then LossStage(e.alive) else if e.listeners.Some? then e.listeners.value else Runtime), e.c);
    }
  }

  lemma PassedCounts(s: State, snapshot: Snapshot, ms: nat)
    requires s.active.Some?
    ensures var next := ProbePassed(s, snapshot, ms);
            Starts(next.log) == Starts(s.log) && next.active.Some? && next.active.value.failures == 0
  {
    var measured := Measured(s, snapshot, ms);
    assert measured.log == s.log;
    UpdateKeepsCount(measured, OutboundVerified, Some(snapshot.node), None);
  }

  lemma FailedCounts(s: State, snapshot: Snapshot, stage: Stage)
    requires s.active.Some?
    ensures var next := ProbeFailed(s, snapshot, stage);
            && Starts(next.log) == Starts(s.log) && next.active.Some?
            && next.active.value.failures == if s.active.value.failures >= 255 then 255 else s.active.value.failures + 1
  {
    assert Counted(s).log == s.log;
  }

  // ---- Every step, every run --------------------------------------------

  lemma OtherStepCounts(y: System, e: Step)
    requires Enabled(y, e) && !e.MonitorProbed?
    ensures KeepsCount(y.state, Apply(y, e).state) || StartsAnew(y.state, Apply(y, e).state)
  {
    match e
    case CallLocal(request, _, _, a, c) => if y.state.active.None? { LocalAttemptAnew(y.state, request, a, c); }
    case LocalChecked(sameIdentity, proof, live, stop, reconciled, a, c) =>
      FinishLocalKeepsOrStartsAnew(y.state, y.op.request, sameIdentity, proof, live, stop, reconciled, a, c);
    case ProxyStart(known, sameIdentity, a, c) => ProxyAttemptAnew(y.state, y.op.request, known, sameIdentity, a, c);
    case StopRuns(c) => StopKeepsCount(y.state, None, c);
    case CallRetry(c) => StopKeepsCount(y.state, None, c);
    case Reconnect(c) => StopKeepsCount(y.state, None, c);
    case MonitorBegins(alive, ownership, c) => BeginKeepsCount(y.state, alive, ownership, c);
    case MonitorWarmed(alive, warm, c) => WarmKeepsCount(y.state, y.monitor.snapshot, alive, warm, c);
    case _ =>
  }

  function Saturated(count: nat): nat { if count <= 255 then count else 255 }

  lemma OtherStepTracks(y: System, e: Step, count: nat)
    requires Enabled(y, e) && !Judges(y, e)
    requires y.state.active.Some? ==> y.state.active.value.failures == Saturated(count)
    ensures var s, next := y.state, Apply(y, e).state;
            && Starts(s.log) <= Starts(next.log)
            && (next.active.Some? ==>
                  next.active.value.failures == Saturated(if Starts(s.log) < Starts(next.log) then 0 else count))
  {
    if e.MonitorProbed? { ResultCounts(y, e); } else { OtherStepCounts(y, e); }
  }

  // In every run the count of the running session is the number of its probes without proof since
  // the last one with proof.
  lemma {:induction false} CountIsFailedProbes(leftover: Option<Stage>, steps: seq<Step>)
    requires Run(leftover, steps).Some? && Run(leftover, steps).value.state.active.Some?
    ensures Run(leftover, steps).value.state.active.value.failures == Saturated(FailedProbes(leftover, steps))
  {
    if steps != [] {
      var n := |steps| - 1;
      var y, e := Run(leftover, steps[..n]).value, steps[n];
      if y.state.active.Some? { CountIsFailedProbes(leftover, steps[..n]); }
      if Judges(y, e) { ResultCounts(y, e); } else { OtherStepTracks(y, e, FailedProbes(leftover, steps[..n])); }
    }
  }

  // In every run, a reconnection that touches a running session finds a System Proxy session with
  // six probes in a row without proof.
  lemma TornDownAfterSixFailures(leftover: Option<Stage>, steps: seq<Step>, c: Cleanup)
    requires Run(leftover, steps).Some? && Enabled(Run(leftover, steps).value, Reconnect(c))
    requires Run(leftover, steps).value.state.active.Some?
    requires Apply(Run(leftover, steps).value, Reconnect(c)) != Run(leftover, steps).value
    ensures Run(leftover, steps).value.state.active.value.mode == SystemProxy && FailedProbes(leftover, steps) >= 6
  {
    CountIsFailedProbes(leftover, steps);
  }
}
