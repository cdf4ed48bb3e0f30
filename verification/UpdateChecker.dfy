// The shared update checker: one fetch at a time, its result served to everybody for a
// minute (src-tauri/src/app_updates.rs:12, 34-88). A check is a thread that repeatedly looks
// at the shared state under its mutex; the fetch itself runs with the mutex released and is
// assumed not to panic. Times are milliseconds of one monotone clock.
module UpdateChecker {
  import opened Text

  const THROTTLE: nat := 60_000

  datatype Cached<V> = Cached(at: nat, value: V)
  datatype Shared<V> = Shared(running: bool, cached: Option<Cached<V>>)

  // What a thread holding the mutex does next.
  datatype Verdict<V> = Return(cached: Cached<V>) | Begin | Wait

  predicate Fresh<V>(shared: Shared<V>, now: nat) {
    shared.cached.Some? && now - shared.cached.value.at < THROTTLE
  }

  function Look<V>(shared: Shared<V>, now: nat): Verdict<V> {
    if Fresh(shared, now) then Return(shared.cached.value) else if !shared.running then Begin else Wait
  }

  function AfterLook<V>(shared: Shared<V>, now: nat): Shared<V> {
    if Look(shared, now) == Begin then shared.(running := true) else shared
  }

  class AppUpdateChecker<V> {
    var running: bool
    var cached: Option<Cached<V>>

    ghost function View(): Shared<V> reads this { Shared(running, cached) }

    constructor ()
      ensures View() == Shared(false, None)
    {
      running, cached := false, None;
    }

    // One turn of the loop of `check_with`, under the mutex. A result younger than a minute is
    // served; a fetch begins only when none is running; nobody waits without a running fetch.
    method TryBegin(now: nat) returns (verdict: Verdict<V>)
      modifies this
      ensures verdict.Return? <==> cached.Some? && now - cached.value.at < THROTTLE
      ensures verdict.Return? ==> Some(verdict.cached) == cached
      ensures verdict.Begin? ==> running && !old(running)
      ensures verdict.Wait? ==> running && old(running)
      ensures cached == old(cached) && (!verdict.Begin? ==> running == old(running))
      ensures verdict == Look(old(View()), now) && View() == AfterLook(old(View()), now)
    {
      if cached.Some? {
        if now - cached.value.at < THROTTLE { return Return(cached.value); }
      }
      if !running {
        running := true;
        return Begin;
      }
      return Wait;
    }

    // The section of `check_with` after the fetch, under the mutex.
    method Complete(now: nat, result: V)
      modifies this
      ensures View() == Shared(false, Some(Cached(now, result)))
    {
      running := false;
      cached := Some(Cached(now, result));
    }
  }

  // ---- Any number of threads --------------------------------------------

  datatype Phase<V> = Ready | Waiting | Fetching | Done(value: V)

  // Wakeups may be spurious; `Complete` wakes every waiting thread.
  datatype Event<V> = Call(t: nat) | Wake(t: nat) | Check(t: nat, now: nat) | Complete(t: nat, now: nat, result: V)

  datatype Record<V> =
    | Began(t: nat, at: nat)
    | Finished(t: nat, at: nat, value: V)
    | Served(t: nat, at: nat, value: V, since: nat)

  datatype System<V> = System(shared: Shared<V>, threads: map<nat, Phase<V>>, clock: nat, log: seq<Record<V>>)

  ghost predicate Enabled<V>(s: System<V>, e: Event<V>) {
    match e
    case Call(t) => t !in s.threads
    case Wake(t) => t in s.threads && s.threads[t] == Waiting
    case Check(t, now) => t in s.threads && s.threads[t] == Ready && s.clock <= now
    case Complete(t, now, _) => t in s.threads && s.threads[t] == Fetching && s.clock <= now
  }

  function NotifyAll<V>(threads: map<nat, Phase<V>>): map<nat, Phase<V>> {
    map t | t in threads :: if threads[t].Waiting? then Ready else threads[t]
  }

  function Apply<V>(s: System<V>, e: Event<V>): System<V> {
    match e
    case Call(t) => s.(threads := s.threads[t := Ready])
    case Wake(t) => s.(threads := s.threads[t := Ready])
    case Check(t, now) =>
      var next := s.(shared := AfterLook(s.shared, now), clock := now);
      (match Look(s.shared, now)
       case Return(hit) => next.(threads := s.threads[t := Done(hit.value)], log := s.log + [Served(t, now, hit.value, hit.at)])
       case Begin => next.(threads := s.threads[t := Fetching], log := s.log + [Began(t, now)])
       case Wait => next.(threads := s.threads[t := Waiting]))
    case Complete(t, now, result) =>
      System(Shared(false, Some(Cached(now, result))), NotifyAll(s.threads)[t := Done(result)], now,
             s.log + [Finished(t, now, result)])
  }

  ghost function Run<V>(events: seq<Event<V>>): System<V> {
    if events == [] then System(Shared(false, None), map[], 0, [])
    else Apply(Run(events[..|events| - 1]), events[|events| - 1])
  }

  ghost predicate Possible<V>(events: seq<Event<V>>) {
    events == []
    || (Possible(events[..|events| - 1]) && Enabled(Run(events[..|events| - 1]), events[|events| - 1]))
  }

  // Fetches begun and not yet finished.
  ghost function InFlight<V>(log: seq<Record<V>>): int {
    if log == [] then 0
    else InFlight(log[..|log| - 1])
         + match log[|log| - 1] case Began(_, _) => 1 case Finished(_, _, _) => -1 case Served(_, _, _, _) => 0
  }

  // At every moment of the run.
  ghost predicate OneAtATime<V>(log: seq<Record<V>>) {
    forall k :: 0 <= k <= |log| ==> 0 <= InFlight(log[..k]) <= 1
  }

  ghost predicate Throttled<V>(log: seq<Record<V>>) {
    forall i, j :: 0 <= i < j < |log| && log[i].Finished? && log[j].Began? ==> log[i].at + THROTTLE <= log[j].at
  }

  // `log[j]` serves what `log[i]` fetched.
  ghost predicate ServedFrom<V>(log: seq<Record<V>>, i: int, j: int) {
    0 <= i < j < |log| && log[i].Finished? && log[j].Served? && log[i].value == log[j].value && log[i].at == log[j].since
  }

  ghost predicate ServesFresh<V>(log: seq<Record<V>>) {
    forall j :: 0 <= j < |log| && log[j].Served? ==>
      log[j].at - log[j].since < THROTTLE && exists i :: ServedFrom(log, i, j)
  }

  // A finished check returned its own fetch or something served to it.
  ghost predicate Earned<V>(log: seq<Record<V>>, t: nat, value: V) {
    exists i :: 0 <= i < |log| && !log[i].Began? && log[i].t == t && log[i].value == value
  }

  ghost predicate LogInv<V>(s: System<V>) {
    && InFlight(s.log) == (if s.shared.running then 1 else 0)
    && OneAtATime(s.log) && Throttled(s.log) && ServesFresh(s.log)
    && (forall i :: 0 <= i < |s.log| && s.log[i].Finished? ==> s.shared.cached.Some? && s.log[i].at <= s.shared.cached.value.at)
    && (s.shared.cached.Some? ==>
          exists i :: 0 <= i < |s.log| && s.log[i].Finished? && s.log[i].at == s.shared.cached.value.at
                      && s.log[i].value == s.shared.cached.value.value)
  }

  ghost predicate ThreadInv<V>(s: System<V>) {
    && (s.shared.running <==> exists t :: t in s.threads && s.threads[t] == Fetching)
    && (forall t, u :: t in s.threads && u in s.threads && s.threads[t] == Fetching && s.threads[u] == Fetching ==> t == u)
    && (forall t :: t in s.threads && s.threads[t] == Waiting ==> s.shared.running)
    && (forall t :: t in s.threads && s.threads[t].Done? ==> Earned(s.log, t, s.threads[t].value))
  }

  lemma ThreadsStep<V>(s: System<V>, e: Event<V>)
    requires ThreadInv(s) && Enabled(s, e)
    ensures ThreadInv(Apply(s, e))
  {
    var next := Apply(s, e);
    EarnedGrows(s, e);
    FetchingTracked(s, e);
  }

  lemma FetchingTracked<V>(s: System<V>, e: Event<V>)
    requires ThreadInv(s) && Enabled(s, e)
    ensures Apply(s, e).shared.running <==> exists t :: t in Apply(s, e).threads && Apply(s, e).threads[t] == Fetching
  {
    var next := Apply(s, e);
    if s.shared.running {
      var f :| f in s.threads && s.threads[f] == Fetching;
      if !e.Complete? { assert next.threads[f] == Fetching; }
    } else if e.Check? && Look(s.shared, e.now) == Begin {
      assert next.threads[e.t] == Fetching;
    }
  }

  lemma EarnedGrows<V>(s: System<V>, e: Event<V>)
    requires ThreadInv(s) && Enabled(s, e)
    ensures forall t :: t in Apply(s, e).threads && Apply(s, e).threads[t].Done? ==>
              Earned(Apply(s, e).log, t, Apply(s, e).threads[t].value)
  {
    var next := Apply(s, e);
    assert s.log <= next.log;
    forall t | t in next.threads && next.threads[t].Done? ensures Earned(next.log, t, next.threads[t].value) {
      if t in s.threads && s.threads[t] == next.threads[t] {
        var i :| 0 <= i < |s.log| && !s.log[i].Began? && s.log[i].t == t && s.log[i].value == s.threads[t].value;
        assert next.log[i] == s.log[i];
      } else {
        assert next.log[|s.log|].t == t;
      }
    }
  }

  lemma Extended<V>(log: seq<Record<V>>, last: Record<V>)
    requires OneAtATime(log) && 0 <= InFlight(log + [last]) <= 1
    ensures OneAtATime(log + [last])
  {
    var all := log + [last];
    forall k | 0 <= k <= |all| ensures 0 <= InFlight(all[..k]) <= 1 {
      if k <= |log| { assert all[..k] == log[..k]; } else { assert all[..k] == all; }
    }
  }

  lemma ServesFreshExtended<V>(log: seq<Record<V>>, last: Record<V>)
    requires ServesFresh(log)
    requires last.Served? ==> last.at - last.since < THROTTLE
    requires last.Served? ==>
               exists i :: 0 <= i < |log| && log[i].Finished? && log[i].value == last.value && log[i].at == last.since
    ensures ServesFresh(log + [last])
  {
    var all := log + [last];
    forall j | 0 <= j < |all| && all[j].Served? ensures all[j].at - all[j].since < THROTTLE && exists i :: ServedFrom(all, i, j) {
      if j < |log| {
        var i :| ServedFrom(log, i, j);
        assert ServedFrom(all, i, j);
      } else {
        var i :| 0 <= i < |log| && log[i].Finished? && log[i].value == last.value && log[i].at == last.since;
        assert ServedFrom(all, i, j);
      }
    }
  }

  lemma CountStep<V>(log: seq<Record<V>>, last: Record<V>)
    ensures InFlight(log + [last])
            == InFlight(log) + match last case Began(_, _) => 1 case Finished(_, _, _) => -1 case Served(_, _, _, _) => 0
  {
    assert (log + [last])[..|log|] == log;
  }

  lemma ThrottledExtended<V>(log: seq<Record<V>>, last: Record<V>)
    requires Throttled(log)
    requires last.Began? ==> forall i :: 0 <= i < |log| && log[i].Finished? ==> log[i].at + THROTTLE <= last.at
    ensures Throttled(log + [last])
  {}

  // What may be appended to the log of a good run, and the state it leaves.
  ghost predicate Appends<V>(s: System<V>, next: System<V>, last: Record<V>) {
    && next.log == s.log + [last]
    && match last
       case Began(_, at) =>
         && !s.shared.running && next.shared == s.shared.(running := true)
         && (s.shared.cached.Some? ==> s.shared.cached.value.at + THROTTLE <= at)
       case Finished(_, at, value) =>
         s.shared.running && next.shared == Shared(false, Some(Cached(at, value)))
         && (s.shared.cached.Some? ==> s.shared.cached.value.at <= at)
       case Served(_, at, value, since) =>
         && next.shared == s.shared && s.shared.cached == Some(Cached(since, value)) && at - since < THROTTLE
  }

  lemma StepAppends<V>(s: System<V>, e: Event<V>)
    requires ThreadInv(s) && Enabled(s, e)
    requires s.shared.cached.Some? ==> s.shared.cached.value.at <= s.clock
    ensures var next := Apply(s, e);
            (next.log == s.log && next.shared == s.shared)
            || exists last :: Appends(s, next, last)
  {
    var next := Apply(s, e);
    if next.log != s.log { assert Appends(s, next, next.log[|s.log|]); }
  }

  lemma AppendKeeps<V>(s: System<V>, next: System<V>, last: Record<V>)
    requires LogInv(s) && Appends(s, next, last)
    ensures LogInv(next)
  {
    CountStep(s.log, last);
    Extended(s.log, last);
    ThrottledExtended(s.log, last);
    ServesFreshExtended(s.log, last);
    CacheTracked(s, next, last);
  }

  lemma CacheTracked<V>(s: System<V>, next: System<V>, last: Record<V>)
    requires LogInv(s) && Appends(s, next, last)
    ensures forall i :: 0 <= i < |next.log| && next.log[i].Finished? ==>
              next.shared.cached.Some? && next.log[i].at <= next.shared.cached.value.at
    ensures next.shared.cached.Some? ==>
              exists i :: 0 <= i < |next.log| && next.log[i].Finished? && next.log[i].at == next.shared.cached.value.at
                          && next.log[i].value == next.shared.cached.value.value
  {
    if last.Finished? {
      assert next.log[|s.log|] == last;
    } else if s.shared.cached.Some? {
      var i :| 0 <= i < |s.log| && s.log[i].Finished? && s.log[i].at == s.shared.cached.value.at
               && s.log[i].value == s.shared.cached.value.value;
      assert next.log[i] == s.log[i];
    }
  }

  lemma LogStep<V>(s: System<V>, e: Event<V>)
    requires LogInv(s) && ThreadInv(s) && Enabled(s, e)
    requires s.shared.cached.Some? ==> s.shared.cached.value.at <= s.clock
    ensures LogInv(Apply(s, e))
  {
    StepAppends(s, e);
    var next := Apply(s, e);
    if last :| Appends(s, next, last) { AppendKeeps(s, next, last); }
  }

  ghost predicate Good<V>(s: System<V>) {
    LogInv(s) && ThreadInv(s) && (s.shared.cached.Some? ==> s.shared.cached.value.at <= s.clock)
  }

  // In every run of any number of concurrent checks: at most one fetch is in flight, a fetch
  // begins at least a minute after any earlier one finished, nobody waits without a running
  // fetch, and every check returns its own fetch or a result younger than a minute.
  lemma {:induction false} EveryRunIsGood<V>(events: seq<Event<V>>)
    requires Possible(events)
    ensures Good(Run(events))
  {
    if events == [] {
      assert Run(events).log == [];
    } else {
      EveryRunIsGood(events[..|events| - 1]);
      var s, e := Run(events[..|events| - 1]), events[|events| - 1];
      LogStep(s, e);
      ThreadsStep(s, e);
    }
  }

  // Finishing a fetch leaves nobody asleep.
  lemma CompleteWakesAll<V>(s: System<V>, t: nat, now: nat, result: V)
    requires ThreadInv(s) && Enabled(s, Complete(t, now, result))
    ensures var next := Apply(s, Complete(t, now, result));
            && (forall u :: u in next.threads ==> next.threads[u] != Waiting && next.threads[u] != Fetching)
            && forall u :: u in s.threads && s.threads[u] == Waiting ==>
                 Enabled(next, Check(u, now)) && Look(next.shared, now) == Return(Cached(now, result))
  {
    assert forall u :: u in s.threads && s.threads[u] == Fetching ==> u == t;
  }

  // ---- No check is stuck ------------------------------------------------

  lemma Push<V>(events: seq<Event<V>>, e: Event<V>)
    requires Possible(events) && Enabled(Run(events), e)
    ensures Possible(events + [e]) && Run(events + [e]) == Apply(Run(events), e)
  {
    assert (events + [e])[..|events|] == events;
  }

  // A thread that runs a fetch ends with its result.
  lemma FetchEnds<V>(events: seq<Event<V>>, t: nat, result: V) returns (more: seq<Event<V>>)
    requires Possible(events) && t in Run(events).threads && Run(events).threads[t] == Fetching
    ensures Possible(events + more) && t in Run(events + more).threads && Run(events + more).threads[t] == Done(result)
  {
    more := [Complete(t, Run(events).clock, result)];
    Push(events, more[0]);
  }

  // A thread that waits is woken by the fetch it waits for and served its result.
  lemma WaitEnds<V>(events: seq<Event<V>>, t: nat, result: V) returns (more: seq<Event<V>>)
    requires Possible(events) && t in Run(events).threads && Run(events).threads[t] == Waiting
    ensures Possible(events + more) && t in Run(events + more).threads && Run(events + more).threads[t] == Done(result)
  {
    EveryRunIsGood(events);
    var s := Run(events);
    var f :| f in s.threads && s.threads[f] == Fetching;
    var complete, check := Complete(f, s.clock, result), Check(t, s.clock);
    Push(events, complete);
    assert f != t;
    Push(events + [complete], check);
    more := [complete, check];
    assert events + more == events + [complete] + [check];
  }

  // A thread that looks is served, fetches, or waits.
  lemma LookEnds<V>(events: seq<Event<V>>, t: nat, result: V) returns (more: seq<Event<V>>)
    requires Possible(events) && t in Run(events).threads && Run(events).threads[t] == Ready
    ensures Possible(events + more) && t in Run(events + more).threads && Run(events + more).threads[t].Done?
  {
    var check := Check(t, Run(events).clock);
    Push(events, check);
    var after := events + [check];
    var rest: seq<Event<V>> := [];
    if Run(after).threads[t] == Fetching { rest := FetchEnds(after, t, result); }
    else if Run(after).threads[t] == Waiting { rest := WaitEnds(after, t, result); }
    else { assert after + rest == after; }
    more := [check] + rest;
    assert events + more == after + rest;
  }

  // From every moment of every run every check, begun or not, can still end.
  lemma EveryCheckCanEnd<V>(events: seq<Event<V>>, t: nat, result: V) returns (more: seq<Event<V>>)
    requires Possible(events)
    ensures Possible(events + more) && t in Run(events + more).threads && Run(events + more).threads[t].Done?
  {
    if t !in Run(events).threads {
      Push(events, Call(t));
      var rest := LookEnds(events + [Call(t)], t, result);
      more := [Call(t)] + rest;
      assert events + more == events + [Call(t)] + rest;
    } else {
      match Run(events).threads[t]
      case Ready => more := LookEnds(events, t, result);
      case Waiting => more := WaitEnds(events, t, result);
      case Fetching => more := FetchEnds(events, t, result);
      case Done(_) =>
        more := [];
        assert events + more == events;
    }
  }

  // A finished check keeps its result, and only its own steps move a thread, except that the end
  // of a fetch wakes those that wait; a spurious wake-up makes its thread look again.
  lemma OthersStand<V>(s: System<V>, e: Event<V>, u: nat)
    requires Enabled(s, e) && u in s.threads
    ensures u in Apply(s, e).threads
    ensures e.Wake? && u == e.t ==> Apply(s, e) == s.(threads := s.threads[u := Ready])
    ensures u != e.t ==> Apply(s, e).threads[u] == if e.Complete? && s.threads[u] == Waiting then Ready else s.threads[u]
  {}
}
