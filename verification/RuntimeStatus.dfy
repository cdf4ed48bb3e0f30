// Runtime snapshots and the UI's rules for a legal one
// (src-tauri/src/application.rs:55-168; src/tauriContract.ts:247-413, 571-584).
module RuntimeStatus {
  import opened Text

  datatype Phase =
    | Disconnected | Preparing | ValidatingConfig | StartingCore | VerifyingListener | ProvingTraffic | OutboundVerified
    | ApplyingSystemProxy | LocalProxyReady | SystemProxyReady | TunReady | RestoringSystemProxy | BlockedByConflict
    | Degraded | RollingBack | StoppingCore | DisconnectedWithError | RecoveryRequired

  datatype Mode = LocalOnly | SystemProxy | Tun

  datatype Stage =
    | Start | GenerateConfig | EngineLayout | EngineIntegrity | ConfigCheck | StartEngine | VerifyListeners | ProveTraffic
    | EngineProcess | StopEngine | ProxyPublish | ProxyRestore | ProxyOwnership | SessionStorage | SessionRecovery | Random
    | Monitor | Runtime

  datatype ProofState = NotRun | Pending | Passed | Failed
  datatype Row = Row(state: ProofState, latency: Option<nat>)

  // The eight proof rows, one per kind.
  datatype Proofs = Proofs(
    config: Row, process: Row, http: Row, socks: Row, health: Row, outbound: Row, scope: Row, proxy: Row)

  datatype Ports = Ports(http: nat, socks: nat, health: nat)

  // Of an error only the stage matters here; of the engine version only its presence.
  datatype Status = Status(
    revision: nat, requested: bool, paused: bool, retrySeconds: Option<nat>, session: Option<nat>, scope: Mode, mode: Mode,
    phase: Phase, node: Option<nat>, ports: Option<Ports>, routeCheck: Option<nat>, steady: Option<nat>, engine: bool,
    proofs: Proofs, error: Option<Stage>)

  function Plain(state: ProofState): Row { Row(state, None) }

  function DefaultProofs(): Proofs {
    Proofs(Plain(NotRun), Plain(NotRun), Plain(NotRun), Plain(NotRun), Plain(NotRun), Plain(NotRun), Plain(NotRun), Plain(NotRun))
  }

  function DefaultStatus(): Status {
    Status(0, false, false, None, None, LocalOnly, LocalOnly, Disconnected, None, None, None, None, false, DefaultProofs(), None)
  }

  // ---- The UI's rules ---------------------------------------------------

  predicate ValidPorts(p: Ports) {
    && 1 <= p.http <= 65535 && 1 <= p.socks <= 65535 && 1 <= p.health <= 65535
    && p.http != p.socks && p.http != p.health && p.socks != p.health
  }

  // A retry is announced only while it is wanted and not paused, and at most a minute ahead.
  predicate RetryCoherent(s: Status) {
    && (s.paused ==> s.requested)
    && (s.retrySeconds.Some? ==> s.requested && !s.paused && s.retrySeconds.value <= 60)
  }

  const MAX_DURATION_MS: nat := 86_400_000

  // A duration, if there is one, is at most a day.
  predicate Short(duration: Option<nat>) { duration.Some? ==> duration.value <= MAX_DURATION_MS }

  // Only a passed outbound proof carries a latency.
  predicate LatenciesCoherent(p: Proofs) {
    && p.config.latency.None? && p.process.latency.None? && p.http.latency.None? && p.socks.latency.None?
    && p.health.latency.None? && p.scope.latency.None? && p.proxy.latency.None?
    && (p.outbound.latency.Some? ==> p.outbound.state == Passed) && Short(p.outbound.latency)
  }

  predicate SteadyCoherent(s: Status) {
    s.steady.Some? ==>
      (s.phase == SystemProxyReady || s.phase == TunReady) && s.error.None? && s.routeCheck.Some? && s.session.Some? && s.node.Some?
  }

  predicate Settled(s: Status) { s.session.Some? && s.node.Some? && s.ports.Some? }

  predicate EngineProven(p: Proofs) {
    p.config.state == Passed && p.process.state == Passed && p.http.state == Passed && p.socks.state == Passed
    && p.health.state == Passed
  }

  predicate TrafficProven(s: Status) {
    && EngineProven(s.proofs) && s.proofs.outbound.state == Passed && s.proofs.scope.state == Passed
    && s.proofs.outbound.latency.Some? && s.proofs.outbound.latency == s.routeCheck
  }

  predicate PhaseCoherent(s: Status) {
    match s.phase
    case Disconnected =>
      && s.scope == LocalOnly && s.session.None? && s.node.None? && s.ports.None? && s.routeCheck.None? && !s.engine
      && s.error.None? && s.proofs == DefaultProofs()
    case LocalProxyReady =>
      Settled(s) && s.error.None? && s.scope == LocalOnly && TrafficProven(s) && s.proofs.proxy.state == NotRun
    case SystemProxyReady =>
      Settled(s) && s.error.None? && s.scope == SystemProxy && TrafficProven(s) && s.proofs.proxy.state == Passed
    case TunReady => Settled(s) && s.error.None? && s.scope == Tun && TrafficProven(s) && s.proofs.proxy.state == NotRun
    case ApplyingSystemProxy => Settled(s) && s.error.None? && s.scope == SystemProxy && s.proofs.proxy.state == Pending
    case RestoringSystemProxy => Settled(s) && s.error.None? && s.scope == SystemProxy
    case BlockedByConflict =>
      Settled(s) && s.scope == SystemProxy && s.error == Some(ProxyOwnership) && s.proofs.proxy.state == Failed
    case Degraded => Settled(s) && s.error.Some?
    case DisconnectedWithError => s.error.Some?
    case RecoveryRequired => s.error.Some?
    case _ => true
  }

  // Everything `parseRuntimeStatus` and `validateRuntimeRelationships` demand of a snapshot.
  predicate Accepted(s: Status) {
    && s.scope == s.mode && RetryCoherent(s) && LatenciesCoherent(s.proofs) && SteadyCoherent(s) && PhaseCoherent(s)
    && (s.ports.Some? ==> ValidPorts(s.ports.value)) && Short(s.routeCheck) && Short(s.steady)
  }

  // ---- The revision gate ------------------------------------------------

  // The snapshots a gate lets through, in order: those newer than everything before them.
  function Passing(revisions: seq<int>, seen: int): seq<int> {
    if revisions == [] then []
    else if revisions[0] > seen then [revisions[0]] + Passing(revisions[1..], revisions[0])
    else Passing(revisions[1..], seen)
  }

  // What the gate shows last.
  function Shown(revisions: seq<int>, seen: int): int {
    var passed := Passing(revisions, seen);
    if passed == [] then seen else passed[|passed| - 1]
  }

  ghost predicate Increasing(s: seq<int>) {
    forall i, j :: 0 <= i < j < |s| ==> s[i] < s[j]
  }

  class RevisionGate {
    var revision: int

    constructor ()
      ensures revision == -1
    { revision := -1; }

    method Accept(next: int) returns (accepted: bool)
      modifies this
      ensures accepted <==> next > old(revision)
      ensures revision == if accepted then next else old(revision)
    {
      if next <= revision { return false; }
      revision := next;
      return true;
    }

    // Feeds snapshots as they arrive, in any order and with any repetition.
    method AcceptAll(revisions: seq<int>) returns (passed: seq<int>)
      modifies this
      ensures passed == Passing(revisions, old(revision))
    {
      passed := [];
      ghost var start := revision;
      for i := 0 to |revisions|
        invariant passed + Passing(revisions[i..], revision) == Passing(revisions, start)
      {
        var accepted := Accept(revisions[i]);
        assert revisions[i..][1..] == revisions[i + 1..];
        if accepted { passed := passed + [revisions[i]]; }
      }
    }
  }

  lemma IncreasingPush(first: int, rest: seq<int>)
    requires Increasing(rest) && (rest != [] ==> first < rest[0])
    ensures Increasing([first] + rest)
  {
    var all := [first] + rest;
    forall i, j | 0 <= i < j < |all| ensures all[i] < all[j] {
      assert all[j] == rest[j - 1];
      assert rest[0] <= rest[j - 1];
      if i > 0 { assert all[i] == rest[i - 1]; }
    }
  }

  // What gets through is strictly increasing and ends with the newest snapshot that arrived.
  lemma {:induction false} GateShowsNewest(revisions: seq<int>, seen: int)
    ensures Increasing([seen] + Passing(revisions, seen))
    ensures forall r :: r in Passing(revisions, seen) ==> r in revisions
    ensures seen <= Shown(revisions, seen) && forall r :: r in revisions ==> r <= Shown(revisions, seen)
  {
    if revisions != [] {
      var rest := revisions[1..];
      if revisions[0] > seen {
        GateShowsNewest(rest, revisions[0]);
        var tail := [revisions[0]] + Passing(rest, revisions[0]);
        assert Passing(revisions, seen) == tail;
        IncreasingPush(seen, tail);
      } else {
        GateShowsNewest(rest, seen);
      }
      assert revisions == [revisions[0]] + rest;
    }
  }
}
