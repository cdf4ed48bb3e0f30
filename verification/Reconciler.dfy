// The UI's serial queue and the loop that makes the runtime follow the user's intent
// (src/tauriController.ts:664-916, 1076-1095, 1185-1215). Every `await` is a turn in which the
// user may act and the runtime may report; an environment gives one turn after another.
module Reconciler {
  import opened Text
  import opened RuntimeStatus

  // The listed servers, each with its source.
  type Servers = map<nat, nat>

  // `recovering`: the runtime reports that recovery is required. `pending`: the runtime still uses
  // older rules than the saved ones. Both are as last reported when the user acts. `admitted`: the
  // source is a subscription with an address when its refresh runs. `pick`: which server takes the
  // place of a selected one that is gone.
  datatype Call =
    | Connect | Disconnect | Retry(recovering: bool) | SelectServer(id: nat) | SetMode(tun: bool)
    | ApplyRouting(changesRuntime: bool, pending: bool) | Import(added: Servers, pick: Option<nat>)
    | RefreshSource(source: nat, background: bool, admitted: bool) | RemoveSource(source: nat) | ResetState

  // `calls`: what the user does meanwhile. `runtime`: the newest accepted snapshot afterwards.
  // `ok`: whether the awaited operation succeeded. `listed`: the servers it answers, if it lists any.
  datatype Turn = Turn(calls: seq<Call>, runtime: Option<Status>, ok: bool, listed: Servers, pick: Option<nat>)

  type Environment = nat -> Turn

  datatype Operation =
    | Reconcile | StopOnly | Reestablish | Recover | Refresh(source: nat, background: bool, admitted: bool)
    | Remove(source: nat) | Reset

  datatype Outcome = Returned | Threw

  datatype Intent = Intent(wants: bool, tun: bool, selected: Option<nat>, routingRevision: nat, servers: Servers)

  // The selection among newly listed servers.
  function Reselected(selected: Option<nat>, servers: Servers, pick: Option<nat>): Option<nat> {
    if selected.Some? && selected.value in servers then selected
    else if pick.Some? && pick.value in servers then pick
    else None
  }

  // The user's calls take effect at once; an import that loses a listed server is refused.
  function AfterCall(intent: Intent, call: Call): Intent {
    match call
    case Connect => intent.(wants := true)
    case Disconnect => intent.(wants := false)
    case Retry(recovering) => intent.(wants := !recovering)
    case SelectServer(id) => if id in intent.servers then intent.(selected := Some(id)) else intent
    case SetMode(tun) => intent.(tun := tun)
    case ApplyRouting(changes, _) => if changes then intent.(routingRevision := intent.routingRevision + 1) else intent
    case Import(added, pick) =>
      if intent.servers.Keys <= added.Keys then
        intent.(servers := added, selected := Reselected(intent.selected, added, pick))
      else intent
    case RefreshSource(_, _, _) => intent
    case RemoveSource(_) => intent
    case ResetState => intent.(wants := false)
  }

  // While an operation is queued, each call that changes something leaves another one behind.
  function Enqueued(intent: Intent, call: Call): seq<Operation> {
    match call
    case Connect => [Reconcile]
    case Disconnect => [StopOnly]
    case Retry(recovering) => if recovering then [Recover] else [Reestablish]
    case SelectServer(id) => if id !in intent.servers || intent.selected == Some(id) then [] else [Reconcile]
    case SetMode(tun) => if intent.tun == tun then [] else [Reconcile]
    case ApplyRouting(changes, pending) => if changes || pending then [Reconcile] else []
    case Import(_, _) => []
    case RefreshSource(source, background, admitted) => [Refresh(source, background, admitted)]
    case RemoveSource(source) => [Remove(source)]
    case ResetState => [Reset]
  }

  function AfterCalls(intent: Intent, calls: seq<Call>): Intent {
    if calls == [] then intent else AfterCall(AfterCalls(intent, calls[..|calls| - 1]), calls[|calls| - 1])
  }

  function AllEnqueued(intent: Intent, calls: seq<Call>): seq<Operation> {
    if calls == [] then []
    else AllEnqueued(intent, calls[..|calls| - 1]) + Enqueued(AfterCalls(intent, calls[..|calls| - 1]), calls[|calls| - 1])
  }

  predicate HasSession(runtime: Option<Status>) {
    runtime.Some? && runtime.value.phase != Disconnected && runtime.value.phase != DisconnectedWithError
  }

  // Selecting, switching the mode and saving rules lead to an operation only when a connection is
  // wanted or running; the other calls always do.
  predicate OnlyInUse(call: Call) { call.SelectServer? || call.SetMode? || call.ApplyRouting? }

  // From idle a call leads to an operation.
  predicate Needed(intent: Intent, runtime: Option<Status>, call: Call) {
    (OnlyInUse(call) ==> intent.wants || HasSession(runtime)) && Enqueued(intent, call) != []
  }

  predicate VerifiedReady(s: Status) {
    (s.phase == LocalProxyReady || s.phase == SystemProxyReady || s.phase == TunReady) && Accepted(s)
  }

  function ExpectedMode(tun: bool): Mode { if tun then Tun else SystemProxy }

  // The runtime is what the intent asks for.
  predicate Matches(intent: Intent, runtime: Option<Status>, runtimeRouting: int) {
    && intent.selected.Some? && HasSession(runtime) && runtime.value.node == intent.selected
    && runtime.value.mode == ExpectedMode(intent.tun) && runtimeRouting == intent.routingRevision
    && (VerifiedReady(runtime.value) || runtime.value.phase == Degraded)
  }

  predicate Converged(intent: Intent, runtime: Option<Status>, runtimeRouting: int) {
    if intent.wants then Matches(intent, runtime, runtimeRouting) && intent.selected.value in intent.servers
    else !HasSession(runtime)
  }

  // The running session is of a server of the source.
  predicate Affects(intent: Intent, runtime: Option<Status>, source: nat) {
    && HasSession(runtime) && runtime.value.node.Some? && runtime.value.node.value in intent.servers
    && intent.servers[runtime.value.node.value] == source
  }

  // How many commands a quiet loop still needs: nothing, a start, or a stop (or switch) first.
  function Rank(intent: Intent, runtime: Option<Status>, runtimeRouting: int): nat {
    if !intent.wants || Matches(intent, runtime, runtimeRouting) then 0 else if !HasSession(runtime) then 1 else 2
  }

  function TurnsLeft(at: nat, quietFrom: nat): nat { if at < quietFrom then quietFrom - at else 0 }

  // The user acts only in finitely many turns.
  ghost predicate QuietFrom(env: Environment, quietFrom: nat) {
    forall i :: quietFrom <= i ==> env(i).calls == []
  }

  // In these turns the user does nothing and the runtime reports nothing new.
  ghost predicate StandsStill(env: Environment, from: nat, to: nat, runtime: Option<Status>) {
    forall i :: from <= i < to ==> env(i).calls == [] && env(i).runtime == runtime
  }

  // The turn succeeds and shows the wanted connection, ready.
  ghost predicate Shows(turn: Turn, intent: Intent) {
    && turn.ok && turn.runtime.Some? && intent.selected.Some? && turn.runtime.value.node == intent.selected
    && turn.runtime.value.mode == (if intent.tun then Tun else SystemProxy)
    && (turn.runtime.value.phase == SystemProxyReady || turn.runtime.value.phase == TunReady) && Accepted(turn.runtime.value)
  }

  // The runtime reports no session.
  ghost predicate Idle(runtime: Option<Status>) {
    runtime.None? || runtime.value.phase == Disconnected || runtime.value.phase == DisconnectedWithError
  }

  // A connection to a listed server is wanted.
  ghost predicate Chases(intent: Intent) { intent.wants && intent.selected.Some? && intent.selected.value in intent.servers }

  // Turns from `k` on in which a start of the listed, selected server succeeds.
  ghost predicate Connects(env: Environment, k: nat, intent: Intent) {
    && intent.selected.Some? && intent.selected.value in intent.servers
    && env(k).ok && Idle(env(k).runtime) && env(k + 1).ok && Shows(env(k + 2), intent)
  }

  // The wanted connection runs already, with the saved rules, perhaps degraded.
  ghost predicate Stands(turn: Turn, intent: Intent, runtimeRouting: int) {
    && turn.ok && turn.runtime.Some? && intent.selected.Some? && intent.selected.value in intent.servers
    && turn.runtime.value.node == intent.selected && turn.runtime.value.mode == (if intent.tun then Tun else SystemProxy)
    && runtimeRouting == intent.routingRevision
    && (turn.runtime.value.phase == Degraded
        || (Accepted(turn.runtime.value)
            && (turn.runtime.value.phase == SystemProxyReady || turn.runtime.value.phase == TunReady)))
  }

  // Operations whose call says that no connection is wanted.
  predicate Quits(operation: Operation) { operation == StopOnly || operation == Recover || operation == Reset }

  // Operations that, returning normally, leave the runtime as wanted.
  predicate Settles(operation: Operation) {
    operation == Reconcile || operation == StopOnly || operation == Reestablish
  }

  // When the last operation, running or queued, quits, no connection is wanted.
  predicate Ordered(intent: Intent, running: Operation, queue: seq<Operation>) {
    Quits(if queue == [] then running else queue[|queue| - 1]) ==> !intent.wants
  }

  lemma CallKeepsOrder(intent: Intent, running: Operation, queue: seq<Operation>, call: Call)
    requires Ordered(intent, running, queue)
    ensures Ordered(AfterCall(intent, call), running, queue + Enqueued(intent, call))
  {
    var added := Enqueued(intent, call);
    if added == [] { assert queue + added == queue; }
    else { assert (queue + added)[|queue + added| - 1] == added[|added| - 1]; }
  }

  lemma {:induction false} CallsKeepOrder(intent: Intent, running: Operation, queue: seq<Operation>, calls: seq<Call>)
    requires Ordered(intent, running, queue)
    ensures Ordered(AfterCalls(intent, calls), running, queue + AllEnqueued(intent, calls))
  {
    if calls == [] {
      assert queue + [] == queue;
    } else {
      var init := calls[..|calls| - 1];
      CallsKeepOrder(intent, running, queue, init);
      var before := queue + AllEnqueued(intent, init);
      CallKeepsOrder(AfterCalls(intent, init), running, before, calls[|calls| - 1]);
      assert queue + AllEnqueued(intent, calls) == before + Enqueued(AfterCalls(intent, init), calls[|calls| - 1]);
    }
  }

  // Wanting a connection anew leaves an operation behind.
  lemma {:induction false} NewWishIsQueued(intent: Intent, calls: seq<Call>)
    requires !intent.wants && AllEnqueued(intent, calls) == []
    ensures !AfterCalls(intent, calls).wants
  {
    if calls != [] { NewWishIsQueued(intent, calls[..|calls| - 1]); }
  }

  // ---- What the user's calls amount to ----------------------------------

  predicate IsWish(call: Call) { call == Connect || call == Disconnect || call.Retry? || call == ResetState }

  lemma WishStep(intent: Intent, call: Call)
    ensures AfterCall(intent, call).wants
            <==> if IsWish(call) then call == Connect || call == Retry(false) else intent.wants
  {}

  // A connection is wanted after any calls exactly when the last wish among them asks for one, or
  // none was made (`i == -1`) and it was wanted before.
  lemma {:induction false} WantedIffLastWish(intent: Intent, calls: seq<Call>, i: int)
    requires -1 <= i < |calls| && (0 <= i ==> IsWish(calls[i])) && forall j :: i < j < |calls| ==> !IsWish(calls[j])
    ensures AfterCalls(intent, calls).wants
            <==> if 0 <= i then calls[i] == Connect || calls[i] == Retry(false) else intent.wants
  {
    if calls != [] {
      var n := |calls| - 1;
      WishStep(AfterCalls(intent, calls[..n]), calls[n]);
      if i < n { WantedIffLastWish(intent, calls[..n], i); }
    }
  }

  lemma ModeStep(intent: Intent, call: Call)
    ensures AfterCall(intent, call).tun == if call.SetMode? then call.tun else intent.tun
  {}

  // The mode is the last one set.
  lemma {:induction false} ModeIsLastSet(intent: Intent, calls: seq<Call>, i: int)
    requires -1 <= i < |calls| && (0 <= i ==> calls[i].SetMode?) && forall j :: i < j < |calls| ==> !calls[j].SetMode?
    ensures AfterCalls(intent, calls).tun == if 0 <= i then calls[i].tun else intent.tun
  {
    if calls != [] {
      var n := |calls| - 1;
      ModeStep(AfterCalls(intent, calls[..n]), calls[n]);
      if i < n { ModeIsLastSet(intent, calls[..n], i); }
    }
  }

  predicate ChangesRules(call: Call) { call.ApplyRouting? && call.changesRuntime }

  function RoutingChanges(calls: seq<Call>): nat {
    if calls == [] then 0 else RoutingChanges(calls[1..]) + if ChangesRules(calls[0]) then 1 else 0
  }

  lemma {:induction false} OneMoreChange(calls: seq<Call>, call: Call)
    ensures RoutingChanges(calls + [call]) == RoutingChanges(calls) + if ChangesRules(call) then 1 else 0
  {
    if calls == [] {
      assert [call][1..] == [] && [] + [call] == [call];
    } else {
      assert (calls + [call])[1..] == calls[1..] + [call];
      OneMoreChange(calls[1..], call);
    }
  }

  // The routing revision counts the changes of the rules.
  lemma {:induction false} RevisionCountsChanges(intent: Intent, calls: seq<Call>)
    ensures AfterCalls(intent, calls).routingRevision == intent.routingRevision + RoutingChanges(calls)
  {
    if calls != [] {
      var init, last := calls[..|calls| - 1], calls[|calls| - 1];
      RevisionCountsChanges(intent, init);
      OneMoreChange(init, last);
      assert init + [last] == calls;
    }
  }

  // The call selects a server that is listed when it is made.
  predicate Selects(intent: Intent, call: Call) { call.SelectServer? && call.id in intent.servers }

  // The call imports servers and keeps all that are listed when it is made.
  predicate Imports(intent: Intent, call: Call) { call.Import? && intent.servers.Keys <= call.added.Keys }

  // No call after the first `i` selects or imports.
  predicate NoneFrom(intent: Intent, calls: seq<Call>, i: nat) {
    forall j :: i <= j < |calls| ==>
      !Selects(AfterCalls(intent, calls[..j]), calls[j]) && !Imports(AfterCalls(intent, calls[..j]), calls[j])
  }

  lemma SelectionStep(intent: Intent, call: Call)
    ensures Selects(intent, call) ==> AfterCall(intent, call) == intent.(selected := Some(call.id))
    ensures Imports(intent, call) ==>
              && AfterCall(intent, call).servers == call.added
              && AfterCall(intent, call).selected
                 == if intent.selected.Some? && intent.selected.value in call.added then intent.selected
                    else if call.pick.Some? && call.pick.value in call.added then call.pick
                    else None
    ensures !Selects(intent, call) && !Imports(intent, call) ==>
              AfterCall(intent, call).selected == intent.selected && AfterCall(intent, call).servers == intent.servers
  {}

  // Calls that select and import nothing leave the selection and the listed servers alone.
  lemma {:induction false} SelectionStays(intent: Intent, calls: seq<Call>, i: nat)
    requires i <= |calls| && NoneFrom(intent, calls, i)
    ensures var end, before := AfterCalls(intent, calls), AfterCalls(intent, calls[..i]);
            end.selected == before.selected && end.servers == before.servers
  {
    if i == |calls| {
      assert calls[..i] == calls;
    } else {
      var n := |calls| - 1;
      forall j | i <= j < n
        ensures !Selects(AfterCalls(intent, calls[..n][..j]), calls[..n][j])
        ensures !Imports(AfterCalls(intent, calls[..n][..j]), calls[..n][j])
      {
        assert calls[..n][..j] == calls[..j];
      }
      SelectionStays(intent, calls[..n], i);
      assert calls[..n][..i] == calls[..i];
      SelectionStep(AfterCalls(intent, calls[..n]), calls[n]);
    }
  }

  // The last selection of a listed server or import decides what is selected: that server, or
  // what the import keeps or picks.
  lemma SelectionIsLastMade(intent: Intent, calls: seq<Call>, i: nat)
    requires i < |calls| && NoneFrom(intent, calls, i + 1)
    ensures var before, end := AfterCalls(intent, calls[..i]), AfterCalls(intent, calls);
            && (Selects(before, calls[i]) ==> end.selected == Some(calls[i].id) && end.servers == before.servers)
            && (Imports(before, calls[i]) ==>
                  && end.servers == calls[i].added
                  && end.selected == if before.selected.Some? && before.selected.value in calls[i].added then before.selected
                                     else if calls[i].pick.Some? && calls[i].pick.value in calls[i].added then calls[i].pick
                                     else None)
  {
    assert calls[..i + 1][..i] == calls[..i];
    SelectionStep(AfterCalls(intent, calls[..i]), calls[i]);
    SelectionStays(intent, calls, i + 1);
  }

  class TauriController {
    var intent: Intent
    var runtime: Option<Status>
    var runtimeRouting: int
    var queue: seq<Operation>
    var at: nat

    constructor (intent: Intent, runtime: Option<Status>)
      ensures this.intent == intent && this.runtime == runtime
      ensures runtimeRouting == 0 && queue == [] && at == 0
    {
      this.intent, this.runtime := intent, runtime;
      runtimeRouting, queue, at := 0, [], 0;
    }

    // The user's calls, in order.
    method TakeCalls(calls: seq<Call>)
      modifies this`intent, this`queue
      ensures intent == AfterCalls(old(intent), calls) && queue == old(queue) + AllEnqueued(old(intent), calls)
    {
      ghost var start, waiting := intent, queue;
      for i := 0 to |calls|
        invariant intent == AfterCalls(start, calls[..i]) && queue == waiting + AllEnqueued(start, calls[..i])
      {
        assert calls[..i + 1][..i] == calls[..i];
        queue := queue + Enqueued(intent, calls[i]);
        intent := AfterCall(intent, calls[i]);
      }
      assert calls[..|calls|] == calls;
    }

    // One `await`: the user's calls are taken, then the newest snapshot counts.
    method Await(env: Environment, ghost running: Operation) returns (ok: bool)
      modifies this
      ensures at == old(at) + 1 && ok == env(old(at)).ok && runtime == env(old(at)).runtime
      ensures intent == AfterCalls(old(intent), env(old(at)).calls)
      ensures queue == old(queue) + AllEnqueued(old(intent), env(old(at)).calls)
      ensures runtimeRouting == old(runtimeRouting)
      ensures old(Ordered(intent, running, queue)) ==> Ordered(intent, running, queue)
    {
      var turn := env(at);
      if Ordered(intent, running, queue) { CallsKeepOrder(intent, running, queue, turn.calls); }
      TakeCalls(turn.calls);
      runtime, at, ok := turn.runtime, at + 1, turn.ok;
    }

    // Succeeds only when the runtime then reports the disconnected state.
    method StopRuntime(env: Environment, ghost running: Operation) returns (outcome: Outcome)
      modifies this
      ensures at == old(at) + 1 && runtimeRouting == old(runtimeRouting) && runtime == env(old(at)).runtime
      ensures intent == AfterCalls(old(intent), env(old(at)).calls)
      ensures queue == old(queue) + AllEnqueued(old(intent), env(old(at)).calls)
      ensures old(Ordered(intent, running, queue)) ==> Ordered(intent, running, queue)
      ensures outcome.Returned? <==> env(old(at)).ok && runtime.Some? && runtime.value.phase == Disconnected
    {
      var ok := Await(env, running);
      if !ok { return Threw; }
      if runtime.None? || runtime.value.phase != Disconnected { return Threw; }
      return Returned;
    }

    // Starts what is selected when the command is given.
    method StartSelectedRuntime(env: Environment, ghost quietFrom: nat) returns (outcome: Outcome, node: nat, mode: Mode)
      requires QuietFrom(env, quietFrom)
      modifies this
      ensures old(at) < at && old(queue) <= queue
      ensures old(at) >= quietFrom ==> intent == old(intent) && queue == old(queue)
      ensures old(at) >= quietFrom && outcome.Returned? ==>
                intent.selected == Some(node) && mode == ExpectedMode(intent.tun) && runtimeRouting == intent.routingRevision
      ensures old(at) >= quietFrom && env(old(at)).ok && env(old(at) + 1).ok && old(intent).selected.Some? ==> outcome.Returned?
      ensures old(at) >= quietFrom && outcome.Returned? ==> at == old(at) + 2 && runtime == env(old(at) + 1).runtime
      ensures Ordered(intent, Reconcile, queue) || !old(Ordered(intent, Reconcile, queue))
    {
      var ok := Await(env, Reconcile);
      if !ok || intent.selected.None? { return Threw, 0, SystemProxy; }
      node, mode := intent.selected.value, ExpectedMode(intent.tun);
      var revision := intent.routingRevision;
      ok := Await(env, Reconcile);
      if !ok { return Threw, node, mode; }
      runtimeRouting := revision;
      outcome := Returned;
    }

    // Moves a TUN session to another server; succeeds only when that very session then reports it.
    method SwitchServer(env: Environment, session: nat, node: nat) returns (outcome: Outcome)
      modifies this
      ensures at == old(at) + 1 && runtimeRouting == old(runtimeRouting)
      ensures intent == AfterCalls(old(intent), env(old(at)).calls)
      ensures queue == old(queue) + AllEnqueued(old(intent), env(old(at)).calls)
      ensures old(Ordered(intent, Reconcile, queue)) ==> Ordered(intent, Reconcile, queue)
      ensures runtime == env(old(at)).runtime
      ensures outcome.Returned? <==>
                && env(old(at)).ok && runtime.Some? && runtime.value.session == Some(session) && runtime.value.node == Some(node)
                && runtime.value.phase == TunReady && Accepted(runtime.value)
    {
      var ok := Await(env, Reconcile);
      if !ok { return Threw; }
      if runtime.None? || runtime.value.session != Some(session) || runtime.value.node != Some(node)
         || runtime.value.phase != TunReady || !VerifiedReady(runtime.value) { return Threw; }
      return Returned;
    }

    // The error path: a failed connection is no longer wanted unless the backend still pursues
    // it; a cancelled one is torn down.
    method GiveUp(env: Environment, ghost quietFrom: nat)
      requires QuietFrom(env, quietFrom) && Ordered(intent, Reconcile, queue)
      modifies this
      ensures old(at) <= at && old(queue) <= queue && Ordered(intent, Reconcile, queue)
      ensures old(at) >= quietFrom ==> queue == old(queue)
    {
      var cancelled := !intent.wants;
      var pursued := runtime.Some? && runtime.value.requested;
      var tunKept := runtime.Some? && runtime.value.mode == Tun && HasSession(runtime);
      if !pursued && !tunKept { intent := intent.(wants := false); }
      if cancelled && HasSession(runtime) {
        var _ := StopRuntime(env, Reconcile);
      }
    }

    // Ends for every environment in which the user acts finitely often, whatever the runtime
    // reports. When it returns normally with nothing queued behind it, the runtime is what the
    // user wants.
    method ReconcileConnection(env: Environment, ghost quietFrom: nat) returns (outcome: Outcome)
      requires QuietFrom(env, quietFrom) && Ordered(intent, Reconcile, queue)
      modifies this
      ensures old(at) < at && old(queue) <= queue && Ordered(intent, Reconcile, queue)
      ensures old(at) >= quietFrom ==> queue == old(queue) && (outcome.Returned? ==> intent == old(intent))
      ensures outcome.Returned? && queue == [] ==> Converged(intent, runtime, runtimeRouting)
      ensures old(at) >= quietFrom && old(intent).wants && Connects(env, old(at), old(intent)) ==>
                outcome.Returned? && at == old(at) + 3
      ensures old(at) >= quietFrom && old(intent).wants && Stands(env(old(at)), old(intent), old(runtimeRouting)) ==>
                outcome.Returned? && at == old(at) + 1
    {
      var ok := Await(env, Reconcile);
      if !ok { return Threw; }
      outcome := Chase(env, quietFrom);
    }

    // The loop, from the snapshot of the first `await` on.
    method Chase(env: Environment, ghost quietFrom: nat) returns (outcome: Outcome)
      requires QuietFrom(env, quietFrom) && Ordered(intent, Reconcile, queue)
      modifies this
      ensures old(at) <= at && old(queue) <= queue && Ordered(intent, Reconcile, queue)
      ensures old(at) >= quietFrom ==> queue == old(queue) && (outcome.Returned? ==> intent == old(intent))
      ensures outcome.Returned? && queue == [] ==> Converged(intent, runtime, runtimeRouting)
      ensures old(at) >= quietFrom && old(Chases(intent)) ==>
                && (Idle(old(runtime)) && env(old(at)).ok && Shows(env(old(at) + 1), old(intent)) ==>
                      outcome.Returned? && at == old(at) + 2)
                && (old(Matches(intent, runtime, runtimeRouting)) ==> outcome.Returned? && at == old(at))
    {
      // 1: a start follows that succeeds; 2: the wanted connection runs. `upto`: the turn by then.
      ghost var stage: nat, upto := 0, at;
      if at >= quietFrom && Chases(intent) {
        if Idle(runtime) && env(at).ok && Shows(env(at + 1), intent) { stage, upto := 1, at + 2; }
        else if Matches(intent, runtime, runtimeRouting) { stage := 2; }
      }
      ghost var foreseen := stage != 0;
      var end: Option<Outcome> := None;
      while end.None?
        invariant old(at) <= at && old(queue) <= queue && Ordered(intent, Reconcile, queue)
        invariant old(at) >= quietFrom ==> queue == old(queue) && (end.None? || end.value.Returned? ==> intent == old(intent))
        invariant end.Some? && end.value.Returned? && queue == [] ==> Converged(intent, runtime, runtimeRouting)
        invariant (foreseen ==> stage != 0) && stage <= 2
        invariant stage != 0 ==> old(at) >= quietFrom && (end.None? || end.value.Returned?) && Chases(intent)
        invariant stage == 1 ==> end.None? && at + 2 == upto && Idle(runtime) && env(at).ok && Shows(env(at + 1), intent)
        invariant stage == 2 ==> at == upto && Matches(intent, runtime, runtimeRouting)
        decreases end.None?, TurnsLeft(at, quietFrom), Rank(intent, runtime, runtimeRouting)
      {
        end := Pass(env, quietFrom);
        if stage == 1 { stage := 2; }
      }
      outcome := end.value;
    }

    // One pass of the loop: the end, or a command that brings the runtime closer.
    method Pass(env: Environment, ghost quietFrom: nat) returns (end: Option<Outcome>)
      requires QuietFrom(env, quietFrom) && Ordered(intent, Reconcile, queue)
      modifies this
      ensures old(at) <= at && old(queue) <= queue && Ordered(intent, Reconcile, queue)
      ensures old(at) >= quietFrom ==> queue == old(queue) && (end.None? || end.value.Returned? ==> intent == old(intent))
      ensures end.Some? && end.value.Returned? && queue == [] ==> Converged(intent, runtime, runtimeRouting)
      ensures end.None? ==> old(at) < at && (old(at) >= quietFrom ==>
                Rank(intent, runtime, runtimeRouting) < old(Rank(intent, runtime, runtimeRouting)))
      ensures old(Chases(intent)) ==>
                && (Idle(old(runtime)) && old(at) >= quietFrom && env(old(at)).ok && Shows(env(old(at) + 1), old(intent)) ==>
                      end.None? && at == old(at) + 2 && Matches(intent, runtime, runtimeRouting))
                && (old(Matches(intent, runtime, runtimeRouting)) ==>
                      && end.Some? && end.value.Returned? && at == old(at) && intent == old(intent)
                      && runtime == old(runtime) && runtimeRouting == old(runtimeRouting))
    {
      if !intent.wants {
        var outcome := EndWanted(env, quietFrom);
        return Some(outcome);
      }
      if runtime.Some? && (runtime.value.phase == RecoveryRequired || runtime.value.phase == BlockedByConflict) {
        GiveUp(env, quietFrom);
        return Some(Threw);
      }
      if intent.selected.None? || intent.selected.value !in intent.servers {
        GiveUp(env, quietFrom);
        return Some(Threw);
      }
      if Matches(intent, runtime, runtimeRouting) { return Some(Returned); }
      var outcome := Approach(env, quietFrom);
      if outcome.Threw? {
        GiveUp(env, quietFrom);
        return Some(Threw);
      }
      return None;
    }

    // Nothing is wanted: stop what runs.
    method EndWanted(env: Environment, ghost quietFrom: nat) returns (outcome: Outcome)
      requires QuietFrom(env, quietFrom) && Ordered(intent, Reconcile, queue) && !intent.wants
      modifies this
      ensures old(at) <= at && old(queue) <= queue && Ordered(intent, Reconcile, queue)
      ensures old(at) >= quietFrom ==> queue == old(queue) && (outcome.Returned? ==> intent == old(intent))
      ensures outcome.Returned? && queue == [] ==> Converged(intent, runtime, runtimeRouting)
    {
      if !HasSession(runtime) { return Returned; }
      outcome := StopRuntime(env, Reconcile);
      if outcome.Threw? {
        GiveUp(env, quietFrom);
        return;
      }
      if queue == [] { NewWishIsQueued(old(intent), env(old(at)).calls); }
    }

    // One command towards the wanted connection: a switch, a stop or a start. In a turn without
    // user calls it brings the runtime closer.
    method Approach(env: Environment, ghost quietFrom: nat) returns (outcome: Outcome)
      requires QuietFrom(env, quietFrom) && Ordered(intent, Reconcile, queue)
      requires intent.wants && intent.selected.Some? && !Matches(intent, runtime, runtimeRouting)
      modifies this
      ensures old(at) < at && old(queue) <= queue && Ordered(intent, Reconcile, queue)
      ensures old(at) >= quietFrom ==> queue == old(queue) && intent == old(intent)
      ensures old(at) >= quietFrom && outcome.Returned? ==>
                Rank(intent, runtime, runtimeRouting) < old(Rank(intent, runtime, runtimeRouting))
      ensures old(at) >= quietFrom && Idle(old(runtime)) && env(old(at)).ok && Shows(env(old(at) + 1), old(intent)) ==>
                outcome.Returned? && at == old(at) + 2 && Matches(intent, runtime, runtimeRouting)
      ensures !Idle(old(runtime)) && (!old(intent).tun || old(runtime).value.mode != Tun || old(runtime).value.session.None?) ==>
                && at == old(at) + 1 && runtime == env(old(at)).runtime
                && (outcome.Returned? <==> env(old(at)).ok && runtime.Some? && runtime.value.phase == Disconnected)
      ensures !Idle(old(runtime)) && old(intent).tun && old(runtime).value.mode == Tun && old(runtime).value.session.Some?
              && old(runtimeRouting) == old(intent).routingRevision ==>
                && at == old(at) + 1 && runtime == env(old(at)).runtime && runtimeRouting == old(runtimeRouting)
                && (Shows(env(old(at)), old(intent)) && runtime.value.session == old(runtime).value.session ==> outcome.Returned?)
    {
      var node, mode := intent.selected.value, ExpectedMode(intent.tun);
      if HasSession(runtime) {
        if mode == Tun && runtime.value.mode == Tun && runtime.value.session.Some? && runtimeRouting == intent.routingRevision {
          outcome := SwitchServer(env, runtime.value.session.value, node);
          // A failed switch leaves the old session; only a newer selection is tried normally.
          if outcome.Threw? && intent.wants && intent.selected != Some(node) { return Returned; }
          return;
        }
        outcome := StopRuntime(env, Reconcile);
        return;
      }
      var startedNode, startedMode;
      outcome, startedNode, startedMode := StartSelectedRuntime(env, quietFrom);
      if outcome.Threw? { return; }
      if runtime.None? || runtime.value.node != Some(startedNode) || runtime.value.mode != startedMode
         || runtime.value.phase == LocalProxyReady || !VerifiedReady(runtime.value) { return Threw; }
    }

    // ---- The other operations of the queue ------------------------------

    // The operation `disconnect` queues.
    method StopOperation(env: Environment, ghost quietFrom: nat) returns (outcome: Outcome)
      requires QuietFrom(env, quietFrom) && Ordered(intent, StopOnly, queue)
      modifies this
      ensures old(at) < at && old(queue) <= queue && Ordered(intent, StopOnly, queue)
      ensures old(at) >= quietFrom ==> queue == old(queue) && intent == old(intent)
      ensures outcome.Returned? && queue == [] ==> Converged(intent, runtime, runtimeRouting)
      ensures outcome.Returned? <==>
                && env(old(at)).ok
                && var seen := env(old(at)).runtime;
                   (!Idle(seen) || (seen.Some? && seen.value.requested) ==>
                      env(old(at) + 1).ok && env(old(at) + 1).runtime.Some?
                      && env(old(at) + 1).runtime.value.phase == Disconnected)
    {
      var ok := Await(env, StopOnly);
      if !ok { return Threw; }
      if HasSession(runtime) || (runtime.Some? && runtime.value.requested) {
        outcome := StopRuntime(env, StopOnly);
        return;
      }
      return Returned;
    }

    // A retry re-establishes even a matching session; a failed one is no longer wanted.
    method RetryOperation(env: Environment, ghost quietFrom: nat) returns (outcome: Outcome)
      requires QuietFrom(env, quietFrom) && Ordered(intent, Reestablish, queue)
      modifies this
      ensures old(at) < at && old(queue) <= queue && Ordered(intent, Reconcile, queue)
      ensures old(at) >= quietFrom ==> queue == old(queue) && (outcome.Returned? ==> intent == old(intent))
      ensures outcome.Returned? && queue == [] ==> Converged(intent, runtime, runtimeRouting)
      ensures outcome.Threw? ==> !intent.wants
    {
      var ok := Await(env, Reconcile);
      outcome := if ok then Returned else Threw;
      if outcome.Returned? && HasSession(runtime) { outcome := StopRuntime(env, Reconcile); }
      if outcome.Returned? { outcome := ReconcileConnection(env, quietFrom); }
      if outcome.Threw? { intent := intent.(wants := false); }
    }

    method RecoverOperation(env: Environment, ghost quietFrom: nat) returns (outcome: Outcome)
      requires QuietFrom(env, quietFrom) && Ordered(intent, Recover, queue)
      modifies this
      ensures old(at) < at && old(queue) <= queue && Ordered(intent, Recover, queue)
      ensures old(at) >= quietFrom ==> queue == old(queue)
    {
      var ok := Await(env, Recover);
      return if ok then Returned else Threw;
    }

    // Asks for the list of servers, where an answer that cannot be read counts as a failure, and
    // takes it over unless a server of another source is missing or a removed source is still
    // there. The selected server stays selected while it is listed.
    method Reload(source: nat, removed: bool, env: Environment) returns (outcome: Outcome)
      modifies this
      ensures at == old(at) + 1 && runtime == env(old(at)).runtime && runtimeRouting == old(runtimeRouting)
      ensures queue == old(queue) + AllEnqueued(old(intent), env(old(at)).calls)
      ensures old(Ordered(intent, Reconcile, queue)) ==> Ordered(intent, Reconcile, queue)
      ensures intent == AfterCalls(old(intent), env(old(at)).calls).(selected := intent.selected, servers := intent.servers)
      ensures outcome.Threw? ==> intent == AfterCalls(old(intent), env(old(at)).calls)
      ensures outcome.Returned? ==>
                var before := AfterCalls(old(intent), env(old(at)).calls);
                && (forall id :: id in before.servers && before.servers[id] != source ==> id in intent.servers)
                && (removed ==> forall id :: id in intent.servers ==> intent.servers[id] != source)
                && intent.selected == Reselected(before.selected, intent.servers, env(old(at)).pick)
    {
      var turn := env(at);
      var ok := Await(env, Reconcile);
      if !ok { return Threw; }
      if exists id :: id in intent.servers && intent.servers[id] != source && id !in turn.listed { return Threw; }
      if removed && exists id :: id in turn.listed && turn.listed[id] == source { return Threw; }
      intent := intent.(servers := turn.listed, selected := Reselected(intent.selected, turn.listed, turn.pick));
      return Returned;
    }

    // A refresh that concerns no running session.
    method RefreshIdle(source: nat, env: Environment, ghost quietFrom: nat) returns (outcome: Outcome)
      requires QuietFrom(env, quietFrom) && Ordered(intent, Reconcile, queue)
      modifies this
      ensures old(at) < at && old(queue) <= queue && Ordered(intent, Reconcile, queue)
      ensures old(at) >= quietFrom ==> queue == old(queue)
      ensures old(Converged(intent, runtime, runtimeRouting) && !Affects(intent, runtime, source)) ==>
                outcome.Returned? && StandsStill(env, old(at), at, old(runtime)) ==> Converged(intent, runtime, runtimeRouting)
    {
      var ok := Await(env, Reconcile);
      if !ok { return Threw; }
      outcome := Reload(source, false, env);
      if outcome.Threw? { intent := intent.(wants := false); }
    }

    // A refresh of the running session's source: it is stopped first and, after the refresh or
    // its failure, re-established as far as a connection is still wanted.
    method RefreshRunning(source: nat, env: Environment, ghost quietFrom: nat) returns (outcome: Outcome)
      requires QuietFrom(env, quietFrom) && Ordered(intent, Reconcile, queue)
      modifies this
      ensures old(at) < at && old(queue) <= queue && Ordered(intent, Reconcile, queue)
      ensures old(at) >= quietFrom ==> queue == old(queue)
      ensures outcome.Returned? ==> env(old(at)).runtime.Some? && env(old(at)).runtime.value.phase == Disconnected
      ensures outcome.Returned? && queue == [] ==> Converged(intent, runtime, runtimeRouting)
    {
      outcome := StopRuntime(env, Reconcile);
      if outcome.Threw? {
        intent := intent.(wants := false);
        return;
      }
      var ok := Await(env, Reconcile);
      if !ok {
        // The backend keeps the old source when the fetch fails.
        if intent.wants { outcome := ReconcileConnection(env, quietFrom); }
        return Threw;
      }
      outcome := Reload(source, false, env);
      if outcome.Threw? {
        intent := intent.(wants := false);
        return;
      }
      outcome := ReconcileConnection(env, quietFrom);
    }

    // Refreshing a source. A session of that source is stopped first and re-established
    // afterwards (`again`); any other leaves a converged runtime converged.
    method RefreshOperation(source: nat, background: bool, admitted: bool, env: Environment, ghost quietFrom: nat)
      returns (outcome: Outcome, again: bool)
      requires QuietFrom(env, quietFrom) && Ordered(intent, Reconcile, queue)
      modifies this
      ensures old(at) < at && old(queue) <= queue && Ordered(intent, Reconcile, queue)
      ensures old(at) >= quietFrom ==> queue == old(queue)
      ensures var known, seen := AfterCalls(old(intent), env(old(at)).calls), env(old(at)).runtime;
              again <==>
                && env(old(at)).ok && admitted && !Idle(seen) && !background
                && seen.value.node.Some? && seen.value.node.value in known.servers
                && known.servers[seen.value.node.value] == source
      ensures again && outcome.Returned? && queue == [] ==> Converged(intent, runtime, runtimeRouting)
      ensures outcome.Returned? && StandsStill(env, old(at), at, old(runtime)) && old(Converged(intent, runtime, runtimeRouting)) ==>
                !again && Converged(intent, runtime, runtimeRouting)
    {
      again := false;
      var ok := Await(env, Reconcile);
      if !ok { return Threw, false; }
      if background && (intent.wants || HasSession(runtime) || !admitted) { return Returned, false; }
      if !admitted { return Threw, false; }
      if Affects(intent, runtime, source) {
        outcome := RefreshRunning(source, env, quietFrom);
        again := true;
      } else {
        outcome := RefreshIdle(source, env, quietFrom);
      }
    }

    // Removing a source. A session of that source is stopped for good first; afterwards no server
    // of the source is listed, and any other converged runtime stays converged.
    method RemoveOperation(source: nat, env: Environment, ghost quietFrom: nat) returns (outcome: Outcome)
      requires QuietFrom(env, quietFrom) && Ordered(intent, Reconcile, queue)
      modifies this
      ensures old(at) < at && old(queue) <= queue && Ordered(intent, Reconcile, queue)
      ensures old(at) >= quietFrom ==> queue == old(queue)
      ensures outcome.Returned? ==> forall id :: id in intent.servers ==> intent.servers[id] != source
      ensures old(at) >= quietFrom ==>
                var seen := env(old(at)).runtime;
                intent.wants <==>
                  old(intent).wants
                  && !(env(old(at)).ok && !Idle(seen) && seen.value.node.Some? && seen.value.node.value in old(intent).servers
                       && old(intent).servers[seen.value.node.value] == source)
      ensures outcome.Returned? && StandsStill(env, old(at), at, old(runtime)) && old(Converged(intent, runtime, runtimeRouting)) ==>
                Converged(intent, runtime, runtimeRouting)
    {
      var ok := Await(env, Reconcile);
      if !ok { return Threw; }
      outcome := StopAffected(source, env);
      if outcome.Threw? { return; }
      outcome := RemoveAndReload(source, env);
    }

    // A session of the source is stopped for good, any other is left alone.
    method StopAffected(source: nat, env: Environment) returns (outcome: Outcome)
      requires Ordered(intent, Reconcile, queue)
      modifies this
      ensures Ordered(intent, Reconcile, queue) && old(at) <= at && old(queue) <= queue && runtimeRouting == old(runtimeRouting)
      ensures if old(Affects(intent, runtime, source)) then
                && at == old(at) + 1 && runtime == env(old(at)).runtime
                && intent == AfterCalls(old(intent).(wants := false), env(old(at)).calls)
                && queue == old(queue) + AllEnqueued(old(intent).(wants := false), env(old(at)).calls)
                && (outcome.Returned? ==> runtime.Some? && runtime.value.phase == Disconnected)
              else
                outcome.Returned? && at == old(at) && intent == old(intent) && runtime == old(runtime) && queue == old(queue)
    {
      if !Affects(intent, runtime, source) { return Returned; }
      intent := intent.(wants := false);
      outcome := StopRuntime(env, Reconcile);
    }

    // The removal itself and the list that follows it.
    method RemoveAndReload(source: nat, env: Environment) returns (outcome: Outcome)
      requires Ordered(intent, Reconcile, queue)
      modifies this
      ensures old(at) < at && old(queue) <= queue && Ordered(intent, Reconcile, queue) && runtimeRouting == old(runtimeRouting)
      ensures outcome.Returned? ==> forall id :: id in intent.servers ==> intent.servers[id] != source
      ensures at <= old(at) + 2 && runtime == env(at - 1).runtime
      ensures env(old(at)).calls == [] && (at == old(at) + 2 ==> env(old(at) + 1).calls == []) ==>
                && queue == old(queue) && intent == old(intent).(selected := intent.selected, servers := intent.servers)
                && (outcome.Returned? ==>
                      && (forall id :: id in old(intent).servers && old(intent).servers[id] != source ==> id in intent.servers)
                      && (old(intent).selected.Some? && old(intent).selected.value in intent.servers ==>
                            intent.selected == old(intent).selected))
    {
      var ok := Await(env, Reconcile);
      if !ok { return Threw; }
      outcome := Reload(source, true, env);
    }

    // Resetting everything: what runs is stopped first, and no server or rule is left.
    method ResetOperation(env: Environment, ghost quietFrom: nat) returns (outcome: Outcome)
      requires QuietFrom(env, quietFrom) && Ordered(intent, Reset, queue)
      modifies this
      ensures old(at) < at && old(queue) <= queue && Ordered(intent, Reset, queue)
      ensures old(at) >= quietFrom ==> queue == old(queue)
      ensures outcome.Returned? ==> intent.servers == map[] && intent.selected.None? && intent.routingRevision == runtimeRouting == 0
    {
      var ok := Await(env, Reset);
      if !ok { return Threw; }
      if HasSession(runtime) {
        outcome := StopRuntime(env, Reset);
        if outcome.Threw? { return; }
      }
      outcome := ForgetAll(env);
    }

    method ForgetAll(env: Environment) returns (outcome: Outcome)
      modifies this
      ensures at == old(at) + 1 && queue == old(queue) + AllEnqueued(old(intent), env(old(at)).calls)
      ensures old(Ordered(intent, Reset, queue)) ==> Ordered(intent, Reset, queue)
      ensures outcome.Returned? ==> intent.servers == map[] && intent.selected.None? && intent.routingRevision == runtimeRouting == 0
    {
      var ok := Await(env, Reset);
      if !ok { return Threw; }
      runtimeRouting := 0;
      intent := intent.(selected := None, servers := map[], routingRevision := 0);
      return Returned;
    }

    method RunOperation(operation: Operation, env: Environment, ghost quietFrom: nat) returns (outcome: Outcome)
      requires QuietFrom(env, quietFrom) && Ordered(intent, operation, queue)
      modifies this
      ensures old(at) < at && old(queue) <= queue && (queue != [] ==> Ordered(intent, operation, queue))
      ensures old(at) >= quietFrom ==> queue == old(queue)
      ensures old(at) >= quietFrom && Settles(operation) && outcome.Returned? ==> intent == old(intent)
      ensures Settles(operation) && outcome.Returned? && queue == [] ==> Converged(intent, runtime, runtimeRouting)
      ensures operation == Reconcile && old(at) >= quietFrom && old(intent).wants && Connects(env, old(at), old(intent)) ==>
                outcome.Returned?
      ensures operation.Remove? && outcome.Returned? ==> forall id :: id in intent.servers ==> intent.servers[id] != operation.source
      ensures operation.Reset? && outcome.Returned? ==>
                intent.servers == map[] && intent.selected.None? && intent.routingRevision == runtimeRouting == 0
    {
      match operation {
        case Reconcile => outcome := ReconcileConnection(env, quietFrom);
        case StopOnly => outcome := StopOperation(env, quietFrom);
        case Reestablish => outcome := RetryOperation(env, quietFrom);
        case Recover => outcome := RecoverOperation(env, quietFrom);
        case Refresh(source, background, admitted) =>
          var again;
          outcome, again := RefreshOperation(source, background, admitted, env, quietFrom);
        case Remove(source) => outcome := RemoveOperation(source, env, quietFrom);
        case Reset => outcome := ResetOperation(env, quietFrom);
      }
    }

    // A call from idle, and the operations that follow until none is left. If the last one is to
    // settle the connection and returned normally, the runtime is what the user wants; saving the
    // rules once more after a failed teardown is such a call. Without further calls the last
    // operation is the one the call asks for.
    method Perform(call: Call, env: Environment, ghost quietFrom: nat) returns (outcome: Outcome, last: Operation)
      requires QuietFrom(env, quietFrom) && queue == []
      requires call.ApplyRouting? ==> (call.pending <==> HasSession(runtime) && AfterCall(intent, call).routingRevision != runtimeRouting)
      requires call.Retry? ==> (call.recovering <==> runtime.Some? && runtime.value.phase == RecoveryRequired)
      modifies this
      ensures queue == []
      ensures old(at) < at <==>
                var used := old(intent).wants
                            || (old(runtime).Some? && old(runtime).value.phase != Disconnected
                                && old(runtime).value.phase != DisconnectedWithError);
                match call
                case SelectServer(id) => used && id in old(intent).servers && old(intent).selected != Some(id)
                case SetMode(tun) => used && old(intent).tun != tun
                case ApplyRouting(changes, pending) => used && (changes || pending)
                case Import(_, _) => false
                case _ => true
      ensures call == ApplyRouting(false, true) ==> old(at) < at
      ensures call == Connect && old(at) >= quietFrom && Connects(env, old(at), old(intent)) ==> outcome.Returned?
      ensures old(at) < at && old(at) >= quietFrom ==>
                match call
                case Disconnect => last == StopOnly
                case Retry(recovering) => last == if recovering then Recover else Reestablish
                case RefreshSource(source, background, admitted) => last == Refresh(source, background, admitted)
                case RemoveSource(source) => last == Remove(source)
                case ResetState => last == Reset
                case _ => last == Reconcile
      ensures outcome.Returned? && old(at) < at && (last == Reconcile || last == StopOnly || last == Reestablish) ==>
                if intent.wants then
                  && intent.selected.Some? && intent.selected.value in intent.servers
                  && runtime.Some? && runtime.value.node == intent.selected
                  && runtime.value.mode == (if intent.tun then Tun else SystemProxy)
                  && runtimeRouting == intent.routingRevision
                  && (runtime.value.phase == Degraded
                      || (Accepted(runtime.value)
                          && (runtime.value.phase == LocalProxyReady || runtime.value.phase == SystemProxyReady
                              || runtime.value.phase == TunReady)))
                else runtime.None? || runtime.value.phase == Disconnected || runtime.value.phase == DisconnectedWithError
      ensures outcome.Returned? && old(at) >= quietFrom ==>
                match call
                case Connect => intent == old(intent).(wants := true) && Matches(intent, runtime, runtimeRouting)
                case Disconnect => intent == old(intent).(wants := false) && !HasSession(runtime)
                case Retry(recovering) => !recovering ==> intent == old(intent).(wants := true) && Matches(intent, runtime, runtimeRouting)
                case SelectServer(id) => id in old(intent).servers ==> intent == old(intent).(selected := Some(id))
                case SetMode(tun) => intent == old(intent).(tun := tun)
                case ApplyRouting(changes, _) =>
                  intent == old(intent).(routingRevision := old(intent).routingRevision + if changes then 1 else 0)
                case RemoveSource(source) => forall id :: id in intent.servers ==> intent.servers[id] != source
                case ResetState => intent.servers == map[] && intent.selected.None? && intent.routingRevision == runtimeRouting == 0
                case _ => true
      ensures outcome.Returned? && old(at) >= quietFrom && old(at) < at && OnlyInUse(call) && old(intent).wants ==>
                Matches(intent, runtime, runtimeRouting)
    {
      if !OnlyInUse(call) || intent.wants || HasSession(runtime) { queue := Enqueued(intent, call); }
      intent := AfterCall(intent, call);
      outcome, last := Returned, Reconcile;
      while queue != []
        invariant queue != [] ==> Ordered(intent, Reconcile, queue)
        invariant old(at) <= at && (old(at) < at ==> old(Needed(intent, runtime, call)))
        invariant at == old(at) ==> (queue != [] <==> old(Needed(intent, runtime, call)))
        invariant at == old(at) && queue != [] ==> queue == Enqueued(old(intent), call)
        invariant old(at) < at && old(at) >= quietFrom ==> queue == [] && Enqueued(old(intent), call) == [last]
        invariant queue == [] && outcome.Returned? && old(at) < at && Settles(last) ==> Converged(intent, runtime, runtimeRouting)
        invariant at == old(at) ==> intent == AfterCall(old(intent), call)
        invariant call == Connect && old(at) >= quietFrom && Connects(env, old(at), old(intent)) ==> outcome.Returned?
        invariant old(at) < at && outcome.Returned? && last.Remove? ==>
                    forall id :: id in intent.servers ==> intent.servers[id] != last.source
        invariant old(at) < at && outcome.Returned? && last.Reset? ==>
                    intent.servers == map[] && intent.selected.None? && intent.routingRevision == runtimeRouting == 0
        invariant outcome.Returned? && old(at) >= quietFrom && old(at) < at && Settles(last) ==> intent == AfterCall(old(intent), call)
        decreases TurnsLeft(at, quietFrom), |queue|
      {
        last := queue[0];
        queue := queue[1..];
        outcome := RunOperation(last, env, quietFrom);
      }
    }
  }
}
