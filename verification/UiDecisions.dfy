// What a routing document of the UI does to a connection: each rule the user wrote, followed from
// the document to the engine's decision (src/tauriController.ts:105-143, 786-801;
// src-tauri/src/config.rs:309-391).
module UiDecisions {
  import opened Text
  import opened TunPrefix
  import opened AppRuleMatching
  import opened RoutePolicy
  import opened RouteRules
  import opened ConfigCompiler
  import opened UiRouting

  // The rule is about the program with this image path.
  predicate UiMatches(app: UiApp, path: string) {
    if app.byName then EqualFold(ExecutableName(path), ExecutableName(app.path)) else path == app.path
  }

  // A connection the TUN itself does not decide: no health probe, no DNS, not for its own network.
  ghost predicate Ordinary(mode: CaptureMode, c: Connection) {
    && c.inbound != HealthIn
    && (mode.Tun? && c.inbound == TunIn ==> c.port != 53 && !InOwnNetwork(mode.settings, Ipv6Enabled, c))
  }

  // The first enabled traffic rule of the document for the connection.
  predicate UiTrafficMatches(rule: UiTrafficRule, c: Connection) {
    rule.enabled && rule.network == c.network && rule.port == c.port
  }

  ghost predicate FirstUiTraffic(rules: seq<UiTrafficRule>, c: Connection, i: int) {
    0 <= i < |rules| && UiTrafficMatches(rules[i], c) && forall k :: 0 <= k < i ==> !UiTrafficMatches(rules[k], c)
  }

  ghost predicate NoUiTraffic(rules: seq<UiTrafficRule>, c: Connection) {
    forall i :: 0 <= i < |rules| ==> !UiTrafficMatches(rules[i], c)
  }

  // Documents the backend compiles, and the configuration they compile to.
  ghost predicate Compiles(raw: RawRouting, r: Routing, base: ConfigRequest, own: seq<Cidr>) {
    && AsciiRaw(raw) && ValidatedRouting(raw) == Some(r) && ValidPolicy(PolicyOf(r)) && TypedBase(base)
    && OwnFor(RequestOf(base, r)) == Some(own)
  }

  ghost function Decision(base: ConfigRequest, r: Routing, own: seq<Cidr>, bridge: bool, c: Connection): Action {
    var config := ConfigFor(RequestOf(base, r), own, bridge);
    Decide(config.rules, config.final, c)
  }

  lemma DecisionIsIntended(raw: RawRouting, r: Routing, base: ConfigRequest, own: seq<Cidr>, bridge: bool, c: Connection)
    requires Compiles(raw, r, base, own) && TypedConnection(c)
    ensures Decision(base, r, own, bridge, c) == Intended(RequestOf(base, r).mode, PolicyOf(r), c)
  {
    OwnIsTyped(base, r, own);
    MeansIntended(raw, r, RequestOf(base, r).mode, own, c);
    ConfigRules(base, r, own, bridge);
  }

  // ---- Traffic rules ----------------------------------------------------

  lemma NoActive(rules: seq<UiTrafficRule>, c: Connection)
    requires NoUiTraffic(rules, c)
    ensures TrafficVerdict(ActiveTrafficRules(rules), c) == None
  {
    NoActiveApplies(rules, c);
  }

  lemma {:induction false} NoActiveApplies(rules: seq<UiTrafficRule>, c: Connection)
    requires NoUiTraffic(rules, c)
    ensures forall i :: 0 <= i < |ActiveTrafficRules(rules)| ==> !TrafficApplies(ActiveTrafficRules(rules)[i], c)
  {
    if rules != [] {
      assert forall i :: 0 <= i < |rules[1..]| ==> rules[1..][i] == rules[i + 1];
      NoActiveApplies(rules[1..], c);
    }
  }

  lemma {:induction false} FirstActive(rules: seq<UiTrafficRule>, c: Connection, i: int)
    requires FirstUiTraffic(rules, c, i)
    ensures TrafficVerdict(ActiveTrafficRules(rules), c) == Some(OutcomeOf(rules[i].action))
    decreases rules
  {
    var head := if rules[0].enabled && rules[0].port >= 0 then [TrafficRule(rules[0].network, rules[0].port, rules[0].action)] else [];
    var rest := ActiveTrafficRules(rules[1..]);
    if i == 0 {
      assert FirstTraffic(head + rest, c, 0);
      assert forall j :: FirstTraffic(head + rest, c, j) ==> j == 0;
    } else {
      assert forall k :: 0 <= k < |rules[1..]| ==> rules[1..][k] == rules[k + 1];
      assert FirstUiTraffic(rules[1..], c, i - 1);
      FirstActive(rules[1..], c, i - 1);
      if head != [] { HeadSkipped(head[0], rest, c); }
      assert head == [] ==> head + rest == rest;
    }
  }

  lemma HeadSkipped(first: TrafficRule, rest: seq<TrafficRule>, c: Connection)
    requires !TrafficApplies(first, c)
    ensures TrafficVerdict([first] + rest, c) == TrafficVerdict(rest, c)
  {
    var all := [first] + rest;
    forall i: int ensures FirstTraffic(all, c, i + 1) <==> FirstTraffic(rest, c, i) {
      if FirstTraffic(rest, c, i) {
        assert forall k :: 0 <= k < i + 1 ==> !TrafficApplies(all[k], c) by {
          forall k | 0 <= k < i + 1 ensures !TrafficApplies(all[k], c) { if k > 0 { assert all[k] == rest[k - 1]; } }
        }
      }
      if FirstTraffic(all, c, i + 1) {
        forall k | 0 <= k < i ensures !TrafficApplies(rest[k], c) { assert all[k + 1] == rest[k]; }
      }
    }
    if i :| FirstTraffic(rest, c, i) {
      assert FirstTraffic(all, c, i + 1);
      OneFirst(all, c, i + 1);
      OneFirst(rest, c, i);
    } else {
      forall j: int ensures !FirstTraffic(all, c, j) {
        assert FirstTraffic(all, c, (j - 1) + 1) <==> FirstTraffic(rest, c, j - 1);
      }
    }
  }

  lemma OneFirst(rules: seq<TrafficRule>, c: Connection, i: int)
    requires FirstTraffic(rules, c, i)
    ensures TrafficVerdict(rules, c) == Some(OutcomeOf(rules[i].action))
  {
    assert forall j :: FirstTraffic(rules, c, j) ==> j == i;
  }

  // Inside the TUN the first enabled traffic rule of the document decides, as the user chose.
  lemma UiTrafficRuleDecides(raw: RawRouting, r: Routing, base: ConfigRequest, own: seq<Cidr>, bridge: bool, c: Connection, i: int)
    requires Compiles(raw, r, base, own) && TypedConnection(c) && Ordinary(RequestOf(base, r).mode, c)
    requires base.mode.Tun? && c.inbound == TunIn && FirstUiTraffic(r.trafficRules, c, i)
    ensures Decision(base, r, own, bridge, c)
            == match r.trafficRules[i].action
               case Block => RejectNoDrop
               case TrafficDirect => RouteTo(DirectOut)
               case TrafficVpn => RouteTo(Selected)
  {
    DecisionIsIntended(raw, r, base, own, bridge, c);
    FirstActive(r.trafficRules, c, i);
  }

  // ---- Application rules ------------------------------------------------

  // The connection is left to the application rules.
  ghost predicate LeftToApps(base: ConfigRequest, r: Routing, c: Connection) {
    && Ordinary(RequestOf(base, r).mode, c)
    && (base.mode.Tun? && c.inbound == TunIn ==> NoUiTraffic(r.trafficRules, c))
  }

  lemma LeftMeans(raw: RawRouting, r: Routing, base: ConfigRequest, own: seq<Cidr>, bridge: bool, c: Connection)
    requires Compiles(raw, r, base, own) && TypedConnection(c) && LeftToApps(base, r, c)
    ensures Decision(base, r, own, bridge, c)
            == match AppDecision(PolicyOf(r).apps, c)
               case Some(action) => action
               case None => if c.isPrivate then RouteTo(DirectOut) else RouteTo(if r.defaultRoute == Vpn then Selected else DirectOut)
  {
    DecisionIsIntended(raw, r, base, own, bridge, c);
    if base.mode.Tun? && c.inbound == TunIn { NoActive(r.trafficRules, c); }
  }

  // A sent rule applies exactly to the program the user's rule is about.
  lemma SentApplies(app: UiApp, c: Connection)
    requires CheckedApp(app)
    ensures Applies(AppRouteOf(app), c) <==> c.processPath.Some? && UiMatches(app, c.processPath.value)
    ensures AppRouteOf(app).matchBy == (if app.byName then ByName else ByPath)
  {
    NormalPathIsStable(app.path);
  }

  lemma SentRule(raw: RawRouting, r: Routing, app: UiApp)
    requires AsciiRaw(raw) && ValidatedRouting(raw) == Some(r) && app in r.apps && app.route.Explicit?
    ensures CheckedApp(app) && AppRouteOf(app) in PolicyOf(r).apps && AppRouteOf(app).action == app.route.route
  {
    ValidatedIsChecked(raw, r);
    EffectiveMembers(r.apps);
    var i :| 0 <= i < |Effective(r.apps)| && Effective(r.apps)[i] == app;
    assert PolicyOf(r).apps[i] == AppRouteOf(app);
  }

  // Every sent rule comes from a rule of the document with a route of its own.
  lemma SentFrom(raw: RawRouting, r: Routing, x: AppRoute)
    requires AsciiRaw(raw) && ValidatedRouting(raw) == Some(r) && x in PolicyOf(r).apps
    ensures exists app :: app in r.apps && app.route.Explicit? && CheckedApp(app) && AppRouteOf(app) == x
  {
    ValidatedIsChecked(raw, r);
    EffectiveMembers(r.apps);
    var i :| 0 <= i < |PolicyOf(r).apps| && PolicyOf(r).apps[i] == x;
    var app := Effective(r.apps)[i];
    assert app in Effective(r.apps) && AppRouteOf(app) == x;
  }

  ghost predicate MatchedByPath(r: Routing, path: string) {
    exists app :: app in r.apps && app.route.Explicit? && !app.byName && UiMatches(app, path)
  }

  lemma KindIsApp(raw: RawRouting, r: Routing, app: UiApp, c: Connection)
    requires AsciiRaw(raw) && ValidatedRouting(raw) == Some(r) && ValidPolicy(PolicyOf(r))
    requires app in r.apps && app.route.Explicit? && c.processPath.Some? && UiMatches(app, c.processPath.value)
    ensures var kind := if app.byName then ByName else ByPath;
            && SomeApp(PolicyOf(r).apps, kind, c)
            && (SomeAppWith(PolicyOf(r).apps, kind, Direct, c) <==> app.route.route == Direct)
  {
    SentRule(raw, r, app);
    SentApplies(app, c);
    var sent, kind := AppRouteOf(app), if app.byName then ByName else ByPath;
    forall x | x in PolicyOf(r).apps && x.matchBy == kind && Applies(x, c) ensures x == sent {
      SameKindSameKey(x, sent, c);
      OneActionPerKind(PolicyOf(r).apps, KeyOf, x, sent);
    }
  }

  // A program with a rule of its own is routed as the user chose: by its exact path, or, when no
  // exact path is about it, by its file name.
  lemma UiAppRuleDecides(raw: RawRouting, r: Routing, base: ConfigRequest, own: seq<Cidr>, bridge: bool, c: Connection, app: UiApp)
    requires Compiles(raw, r, base, own) && TypedConnection(c) && LeftToApps(base, r, c)
    requires app in r.apps && app.route.Explicit? && c.processPath.Some? && UiMatches(app, c.processPath.value)
    requires app.byName ==> !MatchedByPath(r, c.processPath.value)
    ensures Decision(base, r, own, bridge, c) == RouteTo(if app.route.route == Vpn then Selected else DirectOut)
  {
    LeftMeans(raw, r, base, own, bridge, c);
    KindIsApp(raw, r, app, c);
    if app.byName && SomeApp(PolicyOf(r).apps, ByPath, c) {
      var x :| x in PolicyOf(r).apps && x.matchBy == ByPath && Applies(x, c);
      SentFrom(raw, r, x);
      var other :| other in r.apps && other.route.Explicit? && CheckedApp(other) && AppRouteOf(other) == x;
      SentApplies(other, c);
      assert false;
    }
  }

  // A program without a rule of its own goes the default way, private destinations directly.
  lemma UiDefaultDecides(raw: RawRouting, r: Routing, base: ConfigRequest, own: seq<Cidr>, bridge: bool, c: Connection)
    requires Compiles(raw, r, base, own) && TypedConnection(c) && LeftToApps(base, r, c)
    requires forall app :: app in r.apps && app.route.Explicit? ==> c.processPath.None? || !UiMatches(app, c.processPath.value)
    ensures Decision(base, r, own, bridge, c)
            == if c.isPrivate then RouteTo(DirectOut) else RouteTo(if r.defaultRoute == Vpn then Selected else DirectOut)
  {
    LeftMeans(raw, r, base, own, bridge, c);
    forall x | x in PolicyOf(r).apps ensures !Applies(x, c) {
      SentFrom(raw, r, x);
      var app :| app in r.apps && app.route.Explicit? && CheckedApp(app) && AppRouteOf(app) == x;
      SentApplies(app, c);
    }
  }

  // The document's settings of the TUN and of the Naive outbound reach the configuration.
  lemma UiSettingsCompiled(r: Routing, base: ConfigRequest, own: seq<Cidr>, bridge: bool)
    ensures var config := ConfigFor(RequestOf(base, r), own, bridge);
            && (forall i :: 0 <= i < |config.inbounds| && config.inbounds[i].tag == TunIn ==> config.inbounds[i].stack == Some(r.tunStack))
            && |config.outbounds| == 2 && config.outbounds[0].tag == Selected
            && (config.outbounds[0].udpOverTcp <==> !bridge && base.protocol == Naive && r.naiveUdpOverTcp)
  {}

  // A text with something in it, not too long and without control characters.
  ghost predicate Readable(text: string, maxBytes: nat) {
    && (exists i :: 0 <= i < |text| && !IsWhite(text[i])) && Utf8Len(text) <= maxBytes
    && forall i :: 0 <= i < |text| ==> !IsControl(text[i])
  }

  lemma {:induction false} FirstKeptIs(s: string, i: nat)
    requires i <= |s|
    ensures i <= FirstKept(s, i) <= |s|
    ensures forall k :: i <= k < FirstKept(s, i) ==> IsWhite(s[k])
    ensures FirstKept(s, i) < |s| ==> !IsWhite(s[FirstKept(s, i)])
    decreases |s| - i
  {
    if i < |s| && IsWhite(s[i]) { FirstKeptIs(s, i + 1); }
  }

  lemma {:induction false} LastKeptIs(s: string, j: nat)
    requires j <= |s|
    ensures 0 <= LastKept(s, j) <= j
    ensures forall k :: LastKept(s, j) <= k < j ==> IsWhite(s[k])
    ensures LastKept(s, j) > 0 ==> !IsWhite(s[LastKept(s, j) - 1])
  {
    if j > 0 && IsWhite(s[j - 1]) { LastKeptIs(s, j - 1); }
  }

  lemma TrimmedAway(s: string)
    ensures Trim(s) != "" <==> exists i :: 0 <= i < |s| && !IsWhite(s[i])
  {
    FirstKeptIs(s, 0);
    LastKeptIs(s, |s|);
    var i, j := FirstKept(s, 0), LastKept(s, |s|);
    if exists k :: 0 <= k < |s| && !IsWhite(s[k]) {
      var k :| 0 <= k < |s| && !IsWhite(s[k]);
      assert i <= k < j;
    }
  }

  lemma ReadableIff(text: string, maxBytes: nat)
    ensures ValidText(text, maxBytes) <==> Readable(text, maxBytes)
  {
    TrimmedAway(text);
    if Readable(text, maxBytes) { assert forall c :: c in text ==> !IsControl(c); }
  }

  // A program the UI takes: readable texts, a path with a separator, and for a rule by name a file
  // name that can run.
  ghost predicate Takes(app: UiApp) {
    && Readable(app.id, 4096) && Readable(app.name, 260) && Readable(app.path, 4096)
    && (exists i :: 0 <= i < |app.path| && (app.path[i] == '\\' || app.path[i] == '/'))
    && (app.byName ==> UiValidExecutableName(ExecutableName(Trim(app.path))))
  }

  lemma TakesIff(app: UiApp)
    ensures ValidApp(app) <==> Takes(app)
  {
    ReadableIff(app.id, 4096);
    ReadableIff(app.name, 260);
    ReadableIff(app.path, 4096);
  }

  // The rules are about the same program.
  ghost predicate SameUiProgram(a: UiApp, b: UiApp) {
    && a.byName == b.byName
    && var x, y := Backslashed(Trim(a.path)), Backslashed(Trim(b.path));
       if a.byName then Lower(ExecutableName(x)) == Lower(ExecutableName(y)) else Lower(Backslashed(x)) == Lower(Backslashed(y))
  }

  lemma DistinctApps(apps: seq<UiApp>)
    ensures DistinctBy(NormalApps(apps), AppId) <==> forall i, j :: 0 <= i < j < |apps| ==> apps[i].id != apps[j].id
    ensures DistinctBy(NormalApps(apps), MatchKey) <==>
            forall i, j :: 0 <= i < j < |apps| ==> !SameUiProgram(apps[i], apps[j])
  {
    assert forall i :: 0 <= i < |apps| ==> AppId(NormalApps(apps)[i]) == apps[i].id;
    forall i, j | 0 <= i < j < |apps|
      ensures MatchKey(NormalApps(apps)[i]) == MatchKey(NormalApps(apps)[j]) <==> SameUiProgram(apps[i], apps[j])
    {
    }
  }

  ghost predicate TakesApps(apps: seq<UiApp>) {
    && |apps| <= 256 && (forall i :: 0 <= i < |apps| ==> Takes(apps[i]))
    && (forall i, j :: 0 <= i < j < |apps| ==> apps[i].id != apps[j].id)
    && forall i, j :: 0 <= i < j < |apps| ==> !SameUiProgram(apps[i], apps[j])
  }

  ghost predicate TakesRules(rules: seq<UiTrafficRule>) {
    && |rules| <= 32
    && (forall i :: 0 <= i < |rules| ==> Readable(rules[i].id, 128) && 1 <= rules[i].port <= 65535 && rules[i].port != 53)
    && forall i, j :: 0 <= i < j < |rules| ==> rules[i].id != rules[j].id
  }

  lemma TakesAppsIff(apps: seq<UiApp>)
    ensures ValidUiApps(apps) <==> TakesApps(apps)
  {
    DistinctApps(apps);
    forall i | 0 <= i < |apps| ensures ValidApp(apps[i]) <==> Takes(apps[i]) { TakesIff(apps[i]); }
  }

  lemma TakesRulesIff(rules: seq<UiTrafficRule>)
    ensures ValidUiTrafficRules(rules) <==> TakesRules(rules)
  {
    forall i | 0 <= i < |rules| ensures ValidText(rules[i].id, 128) <==> Readable(rules[i].id, 128) { ReadableIff(rules[i].id, 128); }
    assert DistinctBy(rules, RuleId) <==> forall i, j :: 0 <= i < j < |rules| ==> rules[i].id != rules[j].id by {
      assert forall i :: 0 <= i < |rules| ==> RuleId(rules[i]) == rules[i].id;
    }
  }

  // What the UI accepts: at most 256 sound programs with distinct identifiers, no two rules about
  // the same, at most 32 traffic rules with distinct identifiers and ports other than 53.
  lemma UiAcceptsIff(raw: RawRouting)
    ensures ValidatedRouting(raw).Some? <==>
            && TakesApps(raw.apps)
            && TakesRules(if raw.trafficRules.Some? then raw.trafficRules.value
                          else [UiTrafficRule("quic-compatibility", true, Udp, 443, Block)])
    ensures ValidatedRouting(raw).Some? ==>
            var r := ValidatedRouting(raw).value;
            && r.defaultRoute == raw.defaultRoute && r.tunStack == (if raw.tunStack.Some? then raw.tunStack.value else Gvisor)
            && (r.naiveUdpOverTcp <==> raw.naiveUdpOverTcp == Some(true)) && |r.apps| == |raw.apps|
            && (raw.trafficRules.Some? ==> r.trafficRules == raw.trafficRules.value)
            && forall i :: 0 <= i < |r.apps| ==> r.apps[i] == raw.apps[i].(name := Trim(raw.apps[i].name),
                                                                           path := Backslashed(Trim(raw.apps[i].path)))
  {
    TakesAppsIff(raw.apps);
    TakesRulesIff(if raw.trafficRules.Some? then raw.trafficRules.value else DefaultTrafficRules());
  }
}
