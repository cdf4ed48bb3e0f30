// Concrete runs: re-verifications that publish a snapshot the UI rejects
// (src-tauri/src/application.rs:1488-1612, 1778-1867 against src/tauriContract.ts:332-363,
// 399-404), and a stop that an intent survives (src-tauri/src/application.rs:2764-2776).
module SessionExamples {
  import opened Text
  import opened RuntimeStatus
  import opened Session
  import opened SessionSafety
  import opened SessionContract
  import opened SessionStops

  // Services that grant everything.
  function Granting(): StartAnswers {
    StartAnswers(Some(7), None, None, 8, None, Ports(1, 2, 3), None, Latency(5), None, Applied, Some(true))
  }

  function Clean(): Cleanup { Cleanup(Restored, None, true) }
  function Stuck(): Cleanup { Cleanup(RestoreFailed, None, true) }
  function Wanted(): Request { Request(0, 0) }

  lemma RunPush(leftover: Option<Stage>, steps: seq<Step>, e: Step)
    requires Run(leftover, steps).Some?
    ensures Run(leftover, steps + [e])
            == if Enabled(Run(leftover, steps).value, e) then Some(Apply(Run(leftover, steps).value, e)) else None
  {
    assert (steps + [e])[..|steps|] == steps;
  }

  lemma FaithfulPush(leftover: Option<Stage>, steps: seq<Step>, e: Step)
    requires Faithful(leftover, steps) && Run(leftover, steps).Some?
    requires var y := Run(leftover, steps).value; Enabled(y, e) && GoodAnswers(y, e) && !Misreports(y, e)
    ensures Faithful(leftover, steps + [e])
    ensures Run(leftover, steps + [e]) == Some(Apply(Run(leftover, steps).value, e))
  {
    RunPush(leftover, steps, e);
    assert (steps + [e])[..|steps|] == steps;
  }

  // Granted everything, a start ends ready.
  lemma GrantedCheck(s: State, request: Request)
    requires s.active.None?
    ensures var (next, failure) := Preflight(s, request.node, SystemProxy, 7, Granting());
            failure.None? && next.active.None? && next.recovery == s.recovery && next.shuttingDown == s.shuttingDown
            && next.intent == s.intent
  {}

  lemma GrantedProof(s: State, request: Request)
    requires s.active.Some?
    ensures var (next, failure) := ProveCore(s, request.node, SystemProxy, Granting());
            && failure.None? && next.active == Some(s.active.value.(requiresRestore := true))
            && next.status.phase == SystemProxyReady && next.status.proofs.proxy.state == Passed && next.status.error.None?
            && next.recovery == s.recovery && next.shuttingDown == s.shuttingDown && next.intent == s.intent
  {
    var verified := Verified(Proven(Proving(s, request.node), 5), request.node, Ports(1, 2, 3), 5);
    assert verified.active == s.active && verified.recovery == s.recovery && verified.shuttingDown == s.shuttingDown
           && verified.intent == s.intent;
    var applied := AfterPublish(Applying(verified, request.node), Applied);
    assert applied.active == Some(s.active.value.(requiresRestore := true)) && applied.intent == s.intent;
  }

  lemma GrantedStart(s: State, request: Request)
    requires s.active.None? && !s.recovery && !s.shuttingDown
    ensures var (next, attempt) := ProxyAttempt(s, request, true, true, Granting(), Clean());
            && attempt == Ended(true) && Exact(next, SystemProxy, request)
            && next.status.phase == SystemProxyReady && next.status.proofs.proxy.state == Passed && next.status.error.None?
            && !next.recovery && !next.shuttingDown && next.active.value.requiresRestore && next.intent == s.intent
  {
    GrantedCheck(s, request);
    var launched := Launched(Preflight(s, request.node, SystemProxy, 7, Granting()).0, request, SystemProxy, 7, Granting());
    assert launched.active.Some? && !launched.recovery && !launched.shuttingDown && launched.intent == s.intent;
    GrantedProof(launched, request);
  }

  function Connection(): seq<Step> { [CallProxy(Wanted(), true, true)] + [ProxyStart(true, true, Granting(), Clean())] }

  // A connected System Proxy session about to be verified again.
  function Connecting(): seq<Step> { Connection() + [AttemptEnds] + [CallProxy(Wanted(), true, true)] + [ProxyStart(true, true, Granting(), Clean())] }

  predicate Ready(s: State) {
    && Exact(s, SystemProxy, Wanted()) && s.status.phase == SystemProxyReady && s.status.proofs.proxy.state == Passed
    && !s.recovery && !s.shuttingDown && s.active.value.requiresRestore
  }

  ghost predicate Reverifying(y: System) {
    y.op == ProxyVerifying(Wanted()) && y.monitor.Idle? && Ready(y.state)
  }

  lemma ReachesReady()
    ensures Faithful(None, Connection()) && Run(None, Connection()).Some?
    ensures var y := Run(None, Connection()).value; y.op == Finishing(true) && y.monitor.Idle? && Ready(y.state)
  {
    var none: seq<Step> := [];
    var call := CallProxy(Wanted(), true, true);
    FaithfulPush(None, none, call);
    assert none + [call] == [call];
    var y := Run(None, [call]).value;
    assert y.op == ProxyStarting(Wanted()) && y.state.active.None? && !y.state.recovery && !y.state.shuttingDown && y.monitor.Idle?;
    FaithfulPush(None, [call], ProxyStart(true, true, Granting(), Clean()));
    GrantedStart(y.state, Wanted());
  }

  lemma ReachesVerification()
    ensures Faithful(None, Connecting()) && Run(None, Connecting()).Some? && Reverifying(Run(None, Connecting()).value)
  {
    ReachesReady();
    AttemptKeeps(Run(None, Connection()).value.state, true);
    FaithfulPush(None, Connection(), AttemptEnds);
    var steps := Connection() + [AttemptEnds];
    CallsAgain(None, steps);
  }

  lemma CallsAgain(leftover: Option<Stage>, steps: seq<Step>)
    requires Faithful(leftover, steps) && Run(leftover, steps).Some?
    requires var y := Run(leftover, steps).value; y.op.Free? && y.monitor.Idle? && Ready(y.state)
    ensures var more := steps + [CallProxy(Wanted(), true, true)] + [ProxyStart(true, true, Granting(), Clean())];
            Faithful(leftover, more) && Run(leftover, more).Some? && Reverifying(Run(leftover, more).value)
  {
    FaithfulPush(leftover, steps, CallProxy(Wanted(), true, true));
    FaithfulPush(leftover, steps + [CallProxy(Wanted(), true, true)], ProxyStart(true, true, Granting(), Clean()));
  }

  lemma AttemptKeeps(s: State, ok: bool)
    ensures var next := FinishAttempt(s, ok);
            && next.active == s.active && next.status.phase == s.status.phase && next.status.proofs == s.status.proofs
            && next.recovery == s.recovery && next.shuttingDown == s.shuttingDown
  {}

  // The proxy is found taken over: it is reported as blocked with its ownership row still passed.
  lemma BlockedWithoutFailedOwnership()
    ensures var steps := Connecting() + [ProxyChecked(None, false, false)];
            Run(None, steps).Some? && !AllAccepted(Run(None, steps).value.state.log)
  {
    ReachesVerification();
    EveryPublishedSnapshotIsAccepted(None, Connecting());
    var y := Run(None, Connecting()).value;
    RunPush(None, Connecting(), ProxyChecked(None, false, false));
    StepSoundIff(y, ProxyChecked(None, false, false));
  }

  // While the verification is under way the monitor cannot tell whether the process lives and
  // fails to restore Windows; the verification then reports a ready session, with the process row
  // failed and recovery still required.
  lemma ReadyWithFailedProcess()
    ensures var steps := Connecting() + [MonitorBegins(Unknown(Runtime), Some(true), Stuck())] + [ProxyChecked(Some(5), true, true)];
            Run(None, steps).Some? && !AllAccepted(Run(None, steps).value.state.log)
            && Run(None, steps).value.state.recovery
  {
    ReachesVerification();
    var lost := MonitorBegins(Unknown(Runtime), Some(true), Stuck());
    var y := Run(None, Connecting()).value;
    FaithfulPush(None, Connecting(), lost);
    var steps := Connecting() + [lost];
    EveryPublishedSnapshotIsAccepted(None, Connecting());
    EveryPublishedSnapshotIsAccepted(None, steps);
    LostButStuck(y.state);
    var z := Run(None, steps).value;
    RunPush(None, steps, ProxyChecked(Some(5), true, true));
    StepSoundIff(z, ProxyChecked(Some(5), true, true));
  }

  lemma LostButStuck(s: State)
    requires Exact(s, SystemProxy, Wanted()) && !s.recovery && s.status.phase == SystemProxyReady && s.active.value.requiresRestore
    ensures var next := MonitorBegin(s, Unknown(Runtime), Some(true), Stuck()).0;
            Exact(next, SystemProxy, Wanted()) && next.recovery && next.status.proofs.process.state == Failed
  {
    var marked := WithProofs(s, s.status.proofs.(process := Plain(Failed)));
    var restored := RestoreFirst(marked, Stuck());
    assert restored.active.Some? && restored.status.proofs.process == Plain(Failed) && Exact(restored, SystemProxy, Wanted());
  }

  // ---- A local session --------------------------------------------------

  lemma LocalCheck(s: State)
    requires s.active.None?
    ensures var (next, failure) := Preflight(s, Wanted().node, LocalOnly, 7, Granting());
            failure.None? && next.active.None? && next.recovery == s.recovery && next.shuttingDown == s.shuttingDown
  {}

  lemma LocalProof(s: State)
    requires s.active.Some?
    ensures var (next, failure) := ProveCore(s, Wanted().node, LocalOnly, Granting());
            && failure.None? && next.active == s.active && next.status.phase == LocalProxyReady
            && next.recovery == s.recovery && next.shuttingDown == s.shuttingDown
  {}

  lemma LocalStart(s: State)
    requires s.active.None? && !s.recovery && !s.shuttingDown
    ensures var next := LocalAttempt(s, Wanted(), Granting(), Clean());
            && Exact(next, LocalOnly, Wanted()) && next.status.phase == LocalProxyReady && !next.active.value.requiresRestore
            && !next.recovery && !next.shuttingDown
  {
    LocalCheck(s);
    var launched := Launched(Preflight(s, Wanted().node, LocalOnly, 7, Granting()).0, Wanted(), LocalOnly, 7, Granting());
    assert launched.active.Some? && !launched.recovery && !launched.shuttingDown;
    LocalProof(launched);
  }

  function LocalCall(): Step { CallLocal(Wanted(), true, true, Granting(), Clean()) }

  // A local session, asked for again and therefore about to be verified.
  lemma LocalVerification()
    ensures Faithful(None, [LocalCall()] + [LocalCall()]) && Run(None, [LocalCall()] + [LocalCall()]).Some?
    ensures var y := Run(None, [LocalCall()] + [LocalCall()]).value;
            && y.op == LocalVerifying(Wanted()) && y.monitor.Idle? && Exact(y.state, LocalOnly, Wanted())
            && y.state.status.phase == LocalProxyReady && !y.state.active.value.requiresRestore
            && !y.state.recovery && !y.state.shuttingDown
  {
    var none: seq<Step> := [];
    FaithfulPush(None, none, LocalCall());
    assert none + [LocalCall()] == [LocalCall()];
    LocalStart(Initial(None).state);
    FaithfulPush(None, [LocalCall()], LocalCall());
  }

  function Unstoppable(): Cleanup { Cleanup(Restored, Some(StopEngine), true) }

  lemma LocalLost(s: State)
    requires Exact(s, LocalOnly, Wanted()) && !s.recovery && s.status.phase == LocalProxyReady && !s.active.value.requiresRestore
    ensures var next := MonitorBegin(s, Unknown(Runtime), None, Unstoppable()).0;
            Exact(next, LocalOnly, Wanted()) && next.status.proofs.process.state == Failed
  {}

  function LosesProcess(): Step { MonitorBegins(Unknown(Runtime), None, Unstoppable()) }
  function LocalConfirmed(): Step { LocalChecked(true, Some(5), true, None, true, Granting(), Clean()) }
  function LostWhileVerifying(): seq<Step> { [LocalCall()] + [LocalCall()] + [LosesProcess()] }

  lemma LosingWhileVerifying()
    ensures Faithful(None, LostWhileVerifying()) && Run(None, LostWhileVerifying()).Some?
    ensures var y := Run(None, LostWhileVerifying()).value;
            y.op == LocalVerifying(Wanted()) && Exact(y.state, LocalOnly, Wanted()) && y.state.status.proofs.process.state == Failed
            && y.monitor.Idle?
  {
    LocalVerification();
    var y := Run(None, [LocalCall()] + [LocalCall()]).value;
    FaithfulPush(None, [LocalCall()] + [LocalCall()], LosesProcess());
    LocalLost(y.state);
  }

  // While the verification is under way the monitor cannot tell whether the process lives and
  // fails to stop it; the verification then reports a ready local session with the process row failed.
  lemma LocalReadyWithFailedProcess()
    ensures Run(None, LostWhileVerifying() + [LocalConfirmed()]).Some?
    ensures !AllAccepted(Run(None, LostWhileVerifying() + [LocalConfirmed()]).value.state.log)
  {
    LosingWhileVerifying();
    EveryPublishedSnapshotIsAccepted(None, LostWhileVerifying());
    var y := Run(None, LostWhileVerifying()).value;
    RunPush(None, LostWhileVerifying(), LocalConfirmed());
    StepSoundIff(y, LocalConfirmed());
  }

  // ---- A stop that an intent survives -----------------------------------

  // A connection asked for while a stop waits for its turn.
  function CallsWhileStopping(): seq<Step> { [CallStop] + [CallProxy(Wanted(), true, true)] }
  function StartedWhileStopping(): seq<Step> { CallsWhileStopping() + [ProxyStart(true, true, Granting(), Clean())] }
  function AskedWhileStopping(): seq<Step> { StartedWhileStopping() + [AttemptEnds] }

  lemma AttemptKeepsIntent(s: State)
    requires s.intent.Some? && !s.intent.value.paused && s.status.error.None?
    ensures FinishAttempt(s, true).intent.Some? && !FinishAttempt(s, true).intent.value.paused
  {}

  predicate Waiting(y: System) { y.stops == 1 && y.monitor.Idle? && !y.state.recovery && !y.state.shuttingDown }

  predicate Pursued(s: State) { s.intent.Some? && !s.intent.value.paused }

  lemma StopCalled()
    ensures Run(None, [CallStop]).Some?
    ensures var y := Run(None, [CallStop]).value;
            Waiting(y) && y.op.Free? && y.state.active.None? && y.state.status.phase == Disconnected
  {
    var none: seq<Step> := [];
    RunPush(None, none, CallStop);
    assert none + [CallStop] == [CallStop];
  }

  lemma ProxyCalled(y: System)
    requires Waiting(y) && y.op.Free? && y.state.active.None? && y.state.status.phase == Disconnected
    ensures var next := Apply(y, CallProxy(Wanted(), true, true));
            Waiting(next) && next.op == ProxyStarting(Wanted()) && next.state.active.None? && Pursued(next.state)
  {}

  lemma CallingWhileStopping()
    ensures Run(None, CallsWhileStopping()).Some?
    ensures var y := Run(None, CallsWhileStopping()).value;
            Waiting(y) && y.op == ProxyStarting(Wanted()) && y.state.active.None? && Pursued(y.state)
  {
    StopCalled();
    RunPush(None, [CallStop], CallProxy(Wanted(), true, true));
    ProxyCalled(Run(None, [CallStop]).value);
  }

  lemma StartedSystem(y: System, a: StartAnswers, c: Cleanup, next: State)
    requires y.op.ProxyStarting? && ProxyAttempt(y.state, y.op.request, true, true, a, c) == (next, Ended(true))
    ensures Apply(y, ProxyStart(true, true, a, c)) == y.(state := next, op := Finishing(true))
  {}

  lemma StartsWhileStopping(y: System)
    requires Waiting(y) && y.op == ProxyStarting(Wanted()) && y.state.active.None? && Pursued(y.state)
    ensures var next := Apply(y, ProxyStart(true, true, Granting(), Clean()));
            && Waiting(next) && next.op == Finishing(true) && next.state.active.Some? && next.state.active.value.requiresRestore
            && Pursued(next.state) && next.state.status.error.None?
  {
    GrantedStart(y.state, Wanted());
    StartedSystem(y, Granting(), Clean(), ProxyAttempt(y.state, Wanted(), true, true, Granting(), Clean()).0);
  }

  lemma EndsWhileStopping(y: System)
    requires Waiting(y) && y.op == Finishing(true) && y.state.active.Some? && y.state.active.value.requiresRestore
    requires Pursued(y.state) && y.state.status.error.None?
    ensures var next := Apply(y, AttemptEnds);
            Waiting(next) && next.op.Free? && next.state.active == y.state.active && Pursued(next.state)
  {
    AttemptKeeps(y.state, true);
    AttemptKeepsIntent(y.state);
  }

  lemma StartingWhileStopping()
    ensures Run(None, StartedWhileStopping()).Some?
    ensures var y := Run(None, StartedWhileStopping()).value;
            && Waiting(y) && y.op == Finishing(true) && y.state.active.Some? && y.state.active.value.requiresRestore
            && Pursued(y.state) && y.state.status.error.None?
  {
    CallingWhileStopping();
    RunPush(None, CallsWhileStopping(), ProxyStart(true, true, Granting(), Clean()));
    StartsWhileStopping(Run(None, CallsWhileStopping()).value);
  }

  lemma AskingWhileStopping()
    ensures Run(None, AskedWhileStopping()).Some?
    ensures var y := Run(None, AskedWhileStopping()).value;
            Waiting(y) && y.op.Free? && y.state.active.Some? && y.state.active.value.requiresRestore && Pursued(y.state)
  {
    StartingWhileStopping();
    RunPush(None, StartedWhileStopping(), AttemptEnds);
    EndsWhileStopping(Run(None, StartedWhileStopping()).value);
  }

  lemma CleanStop(s: State)
    requires s.active.Some? && s.active.value.requiresRestore
    ensures var (next, ok) := StopActive(s, None, Clean());
            ok && !next.recovery && next.active.None? && next.intent == s.intent && next.shuttingDown == s.shuttingDown
  {
    var restored := RestoreFirst(s, Clean());
    assert restored.active.Some? && restored.intent == s.intent && restored.shuttingDown == s.shuttingDown;
    var stopped := ChildStopped(Update(restored, StoppingCore, s.status.node, None), None);
    assert stopped.active.Some? && stopped.intent == s.intent && stopped.shuttingDown == s.shuttingDown;
  }

  // The stop completes and yet the system is not quiet: a minute later another core is started.
  lemma IntentSurvivesStop()
    ensures Run(None, AskedWhileStopping()).Some?
    ensures var y := Run(None, AskedWhileStopping()).value;
            && Enabled(y, StopRuns(Clean())) && StopActive(y.state, None, Clean()).1 && !Quiet(Apply(y, StopRuns(Clean())))
            && var stopped := Apply(y, StopRuns(Clean()));
               && RunFrom(stopped, RetryAfter(Granting(), Clean())).Some?
               && Starts(RunFrom(stopped, RetryAfter(Granting(), Clean())).value.state.log) == Starts(stopped.state.log) + 1
  {
    AskingWhileStopping();
    CleanStop(Run(None, AskedWhileStopping()).value.state);
    SurvivingIntentReconnects(None, AskedWhileStopping(), Clean(), Granting());
  }
}
