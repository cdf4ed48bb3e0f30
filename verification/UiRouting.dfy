// The UI's routing document: its validation, the keys that decide whether a saved edit
// reconnects, and the policy the backend receives (src/tauriController.ts:105-147, 779-803,
// 1076-1095, src/appRuleMatching.ts:17-29, src-tauri/src/application.rs:331-372).
// Texts are ASCII, where JavaScript's and Rust's trimming and case folding coincide.
module UiRouting {
  import opened Text
  import opened TunPrefix
  import opened AppRuleMatching
  import opened RoutePolicy
  import opened RouteRules
  import opened ConfigCompiler

  datatype UiRoute = Inherit | Explicit(route: Route)
  datatype UiApp = UiApp(id: string, name: string, path: string, byName: bool, route: UiRoute)
  datatype UiTrafficRule = UiTrafficRule(id: string, enabled: bool, network: Network, port: int, action: TrafficAction)

  datatype RawRouting = RawRouting(
    defaultRoute: Route, tunStack: Option<TunStack>, naiveUdpOverTcp: Option<bool>,
    trafficRules: Option<seq<UiTrafficRule>>, apps: seq<UiApp>)

  datatype Routing = Routing(
    defaultRoute: Route, tunStack: TunStack, naiveUdpOverTcp: bool, trafficRules: seq<UiTrafficRule>, apps: seq<UiApp>)

  // The compatibility rule a document without traffic rules is migrated to.
  function DefaultTrafficRules(): seq<UiTrafficRule> {
    [UiTrafficRule("quic-compatibility", true, Udp, 443, Block)]
  }

  predicate ValidText(text: string, maxBytes: nat) {
    Trim(text) != "" && Utf8Len(text) <= maxBytes && !(exists c :: c in text && IsControl(c))
  }

  predicate ValidApp(app: UiApp) {
    && ValidText(app.id, 4096) && ValidText(app.name, 260) && ValidText(app.path, 4096)
    && ('\\' in app.path || '/' in app.path)
    && (app.byName ==> UiValidExecutableName(ExecutableName(Trim(app.path))))
  }

  function NormalPath(path: string): string { Backslashed(Trim(path)) }

  function NormalApp(app: UiApp): UiApp {
    app.(name := Trim(app.name), path := NormalPath(app.path))
  }

  function NormalApps(apps: seq<UiApp>): seq<UiApp> {
    seq(|apps|, i requires 0 <= i < |apps| => NormalApp(apps[i]))
  }

  // The key duplicates are refused by.
  function MatchKey(app: UiApp): AppKey {
    if app.byName then NameKey(Lower(ExecutableName(app.path))) else PathKey(Lower(Backslashed(app.path)))
  }

  function AppId(app: UiApp): string { app.id }
  function RuleId(rule: UiTrafficRule): string { rule.id }

  predicate ValidUiTrafficRule(rule: UiTrafficRule) {
    ValidText(rule.id, 128) && 1 <= rule.port <= 65535 && rule.port != 53
  }

  ghost predicate ValidUiApps(apps: seq<UiApp>) {
    && |apps| <= 256
    && (forall i :: 0 <= i < |apps| ==> ValidApp(apps[i]))
    && DistinctBy(NormalApps(apps), AppId) && DistinctBy(NormalApps(apps), MatchKey)
  }

  ghost predicate ValidUiTrafficRules(rules: seq<UiTrafficRule>) {
    |rules| <= 32 && (forall i :: 0 <= i < |rules| ==> ValidUiTrafficRule(rules[i])) && DistinctBy(rules, RuleId)
  }

  ghost function ValidatedRouting(raw: RawRouting): Option<Routing> {
    var rules := if raw.trafficRules.Some? then raw.trafficRules.value else DefaultTrafficRules();
    if !ValidUiApps(raw.apps) || !ValidUiTrafficRules(rules) then None
    else Some(Routing(raw.defaultRoute, if raw.tunStack.Some? then raw.tunStack.value else Gvisor,
                      raw.naiveUdpOverTcp.Some? && raw.naiveUdpOverTcp.value, rules, NormalApps(raw.apps)))
  }

  predicate AsciiRaw(raw: RawRouting) {
    forall i :: 0 <= i < |raw.apps| ==> IsAscii(raw.apps[i].path) && IsAscii(raw.apps[i].name)
  }

  // ---- Keys -------------------------------------------------------------

  function EffectiveAppKey(app: UiApp): AppKey {
    if app.byName then NameKey(Lower(ExecutableName(app.path))) else PathKey(app.path)
  }

  function Effective(apps: seq<UiApp>): seq<UiApp> {
    if apps == [] then []
    else Effective(apps[..|apps| - 1]) + if apps[|apps| - 1].route == Inherit then [] else [apps[|apps| - 1]]
  }

  function KeyList(apps: seq<UiApp>): seq<(AppKey, UiRoute)> {
    seq(|apps|, i requires 0 <= i < |apps| => (EffectiveAppKey(apps[i]), apps[i].route))
  }

  // A sort by any comparator permutes its input; nothing else about `localeCompare` is used.
  ghost predicate Permutes(sort: seq<(AppKey, UiRoute)> -> seq<(AppKey, UiRoute)>) {
    forall list :: multiset(sort(list)) == multiset(list)
  }

  function EffectiveRoutingKey(sort: seq<(AppKey, UiRoute)> -> seq<(AppKey, UiRoute)>, r: Routing)
    : (Route, seq<(AppKey, UiRoute)>)
  {
    (r.defaultRoute, sort(KeyList(Effective(r.apps))))
  }

  function ActiveTrafficRules(rules: seq<UiTrafficRule>): seq<TrafficRule> {
    if rules == [] then []
    else (if rules[0].enabled && rules[0].port >= 0 then [TrafficRule(rules[0].network, rules[0].port, rules[0].action)] else [])
         + ActiveTrafficRules(rules[1..])
  }

  function EffectiveTunKey(r: Routing): (TunStack, seq<TrafficRule>) {
    (r.tunStack, ActiveTrafficRules(r.trafficRules))
  }

  // ---- What the backend receives ----------------------------------------

  function AppRouteOf(app: UiApp): AppRoute {
    AppRoute(app.path, if ExecutableName(app.path) == "" then None else Some(ExecutableName(app.path)),
             if app.byName then ByName else ByPath, if app.route.Explicit? then app.route.route else Direct)
  }

  function AppRoutesOf(apps: seq<UiApp>): seq<AppRoute> {
    seq(|apps|, i requires 0 <= i < |apps| => AppRouteOf(apps[i]))
  }

  function PolicyOf(r: Routing): Policy {
    Policy(r.defaultRoute, AppRoutesOf(Effective(r.apps)), LanDirect, Ipv6Enabled, CurrentNetwork)
  }

  // The request a session of the mode of `base` would be started with.
  function RequestOf(base: ConfigRequest, r: Routing): ConfigRequest {
    base.(policy := PolicyOf(r), naiveUdpOverTcp := r.naiveUdpOverTcp,
          mode := if base.mode.Tun? then
                    Tun(base.mode.settings.(stack := r.tunStack, trafficRules := ActiveTrafficRules(r.trafficRules)))
                  else base.mode)
  }

  // ---- Validated paths --------------------------------------------------

  predicate NormalizedPath(path: string) {
    IsAscii(path) && IsTrimmed(path) && '/' !in path
  }

  lemma TrimKeeps(s: string, c: char)
    requires c in s && !IsWhite(c)
    ensures c in Trim(s)
  {
    var k :| 0 <= k < |s| && s[k] == c;
    var i, j := FirstKept(s, 0), LastKept(s, |s|);
    FirstKeptBound(s, 0, k);
    LastKeptBound(s, |s|, k);
    assert s[i..j][k - i] == c;
  }

  lemma FirstKeptBound(s: string, i: nat, k: nat)
    requires i <= k < |s| && !IsWhite(s[k])
    ensures FirstKept(s, i) <= k
    decreases |s| - i
  {}

  lemma LastKeptBound(s: string, j: nat, k: nat)
    requires k < j <= |s| && !IsWhite(s[k])
    ensures k < LastKept(s, j)
  {}

  lemma TrimIsPart(s: string)
    ensures |Trim(s)| <= |s| && forall c :: c in Trim(s) ==> c in s
  {}

  lemma NormalPathFacts(path: string)
    requires IsAscii(path)
    ensures NormalizedPath(NormalPath(path)) && |NormalPath(path)| <= |path|
    ensures ('\\' in path || '/' in path) ==> '\\' in NormalPath(path)
    ensures (forall c :: c in path ==> !IsControl(c)) ==> forall c :: c in NormalPath(path) ==> !IsControl(c)
  {
    var t := Trim(path);
    TrimIsPart(path);
    TrimmedIffTrimIsIdentity(path);
    var n := NormalPath(path);
    forall c | c in n ensures (c == '\\' || c in path) && c != '/' && c as int < 0x80 {
      var i :| 0 <= i < |n| && n[i] == c;
      assert t[i] in path;
    }
    if '\\' in path || '/' in path {
      TrimKeeps(path, if '\\' in path then '\\' else '/');
      var i :| 0 <= i < |t| && (t[i] == '\\' || t[i] == '/');
      assert n[i] == '\\';
    }
  }

  lemma NormalPathIsStable(path: string)
    requires NormalizedPath(path)
    ensures Trim(path) == path && Backslashed(path) == path && NormalPath(path) == path
  {
    TrimmedIffTrimIsIdentity(path);
    assert forall i :: 0 <= i < |path| ==> path[i] in path;
  }

  lemma {:induction false} NameStartBackslashed(path: string, k: nat)
    requires k <= |path|
    ensures NameStart(Backslashed(path), k) == NameStart(path, k)
  {
    if !(k == 0 || IsSeparator(path[k - 1])) { NameStartBackslashed(path, k - 1); }
  }

  // Replacing separators leaves the file name alone.
  lemma NameOfBackslashed(path: string)
    ensures ExecutableName(Backslashed(path)) == ExecutableName(path)
  {
    NameStartBackslashed(path, |path|);
    var start := NameStart(path, |path|);
    assert forall i :: start <= i < |path| ==> Backslashed(path)[i] == path[i];
  }

  // ---- A validated document ---------------------------------------------

  // What every application of a validated document satisfies.
  predicate CheckedApp(app: UiApp) {
    && NormalizedPath(app.path) && ValidProcessPath(app.path)
    && (app.byName ==> ValidExecutableName(ExecutableName(app.path)))
  }

  lemma NormalAppIsChecked(app: UiApp)
    requires ValidApp(app) && IsAscii(app.path)
    ensures CheckedApp(NormalApp(app))
  {
    NormalPathFacts(app.path);
    var n := NormalPath(app.path);
    Utf8LenAscii(app.path);
    Utf8LenAscii(n);
    NameOfBackslashed(Trim(app.path));
    UiNameCheckAgrees(ExecutableName(Trim(app.path)));
  }

  // The backend's duplicate key of a sent rule is the UI's.
  lemma SameKey(app: UiApp)
    requires NormalizedPath(app.path)
    ensures KeyOf(AppRouteOf(app)) == MatchKey(app)
  {
    NormalPathIsStable(app.path);
  }

  // A sent rule is at fault exactly when it is an exact path whose file name exceeds 260 bytes.
  lemma SentRuleFault(app: UiApp)
    requires CheckedApp(app)
    ensures RuleError(AppRouteOf(app))
            == if !app.byName && Utf8Len(ExecutableName(app.path)) > 260 then Some(BadProcessName) else None
  {
    NormalPathIsStable(app.path);
    var name := ExecutableName(app.path);
    forall c | c in name ensures c in app.path { }
  }

  lemma {:induction false} EffectiveMembers(apps: seq<UiApp>)
    ensures forall x :: x in Effective(apps) <==> x in apps && x.route != Inherit
    ensures |Effective(apps)| <= |apps|
  {
    if apps != [] {
      var n := |apps| - 1;
      assert apps == apps[..n] + [apps[n]];
      EffectiveMembers(apps[..n]);
    }
  }

  lemma {:induction false} EffectiveDistinct<K>(apps: seq<UiApp>, key: UiApp -> K)
    requires DistinctBy(apps, key)
    ensures DistinctBy(Effective(apps), key)
  {
    if apps != [] {
      var n := |apps| - 1;
      assert apps == apps[..n] + [apps[n]];
      EffectiveDistinct(apps[..n], key);
      EffectiveMembers(apps[..n]);
      forall x | x in Effective(apps[..n]) ensures key(x) != key(apps[n]) {
        var i :| 0 <= i < n && apps[i] == x;
      }
      DistinctPush(Effective(apps[..n]), apps[n], key);
    }
  }

  ghost predicate AllChecked(apps: seq<UiApp>) {
    forall app :: app in apps ==> CheckedApp(app)
  }

  lemma ValidatedIsChecked(raw: RawRouting, r: Routing)
    requires AsciiRaw(raw) && ValidatedRouting(raw) == Some(r)
    ensures AllChecked(r.apps) && |r.apps| <= 256 && DistinctBy(r.apps, MatchKey)
  {
    forall app | app in r.apps ensures CheckedApp(app) {
      var i :| 0 <= i < |r.apps| && r.apps[i] == app;
      NormalAppIsChecked(raw.apps[i]);
    }
  }

  lemma SentDistinct(apps: seq<UiApp>)
    requires AllChecked(apps) && DistinctBy(apps, MatchKey)
    ensures DistinctBy(AppRoutesOf(apps), KeyOf)
  {
    forall i | 0 <= i < |apps| ensures KeyOf(AppRoutesOf(apps)[i]) == MatchKey(apps[i]) {
      assert apps[i] in apps;
      SameKey(apps[i]);
    }
  }

  predicate ShortPathNames(apps: seq<UiApp>) {
    forall app :: app in apps && app.route != Inherit && !app.byName ==> Utf8Len(ExecutableName(app.path)) <= 260
  }

  // Everything the UI accepts is a valid policy for the backend, except that the backend also
  // bounds the file name sent along with an exact path.
  lemma UiAcceptedIsValidIff(raw: RawRouting, r: Routing)
    requires AsciiRaw(raw) && ValidatedRouting(raw) == Some(r)
    ensures ValidPolicy(PolicyOf(r)) <==> ShortPathNames(r.apps)
  {
    ValidatedIsChecked(raw, r);
    EffectiveMembers(r.apps);
    EffectiveDistinct(r.apps, MatchKey);
    var apps := Effective(r.apps);
    SentDistinct(apps);
    SentFaults(apps, RuleError);
    assert ShortPathNames(apps) <==> ShortPathNames(r.apps);
  }

  lemma SentFaults(apps: seq<UiApp>, fault: AppRoute -> Option<PolicyError>)
    requires fault == RuleError && AllChecked(apps) && forall app :: app in apps ==> app.route != Inherit
    ensures NoneFaulty(AppRoutesOf(apps), fault) <==> ShortPathNames(apps)
  {
    forall i | 0 <= i < |apps|
      ensures fault(AppRoutesOf(apps)[i]) == None <==> (!apps[i].byName ==> Utf8Len(ExecutableName(apps[i].path)) <= 260)
    {
      assert apps[i] in apps;
      SentRuleFault(apps[i]);
    }
    if ShortPathNames(apps) {
      forall i | 0 <= i < |apps| ensures fault(AppRoutesOf(apps)[i]) == None { assert apps[i] in apps; }
    }
    if NoneFaulty(AppRoutesOf(apps), fault) {
      forall app | app in apps && !app.byName ensures Utf8Len(ExecutableName(app.path)) <= 260 {
        var i :| 0 <= i < |apps| && apps[i] == app;
        assert fault(AppRoutesOf(apps)[i]) == None;
      }
    }
  }

  // ---- Skipping a reconnect is sound ------------------------------------

  predicate SameKeys(a: seq<UiApp>, b: seq<UiApp>) {
    forall x :: x in a ==> exists y :: y in b && EffectiveAppKey(y) == EffectiveAppKey(x) && y.route == x.route
  }

  lemma SameKeyLists(a: seq<UiApp>, b: seq<UiApp>)
    requires multiset(KeyList(a)) == multiset(KeyList(b))
    ensures SameKeys(a, b)
  {
    forall x | x in a ensures exists y :: y in b && EffectiveAppKey(y) == EffectiveAppKey(x) && y.route == x.route {
      var i :| 0 <= i < |a| && a[i] == x;
      SameElements(KeyList(b), KeyList(a), i);
      var m :| 0 <= m < |KeyList(b)| && KeyList(b)[m] == KeyList(a)[i];
      assert b[m] in b;
    }
  }

  lemma AppliesByKey(x: UiApp, y: UiApp, c: Connection)
    requires NormalizedPath(x.path) && NormalizedPath(y.path) && EffectiveAppKey(x) == EffectiveAppKey(y)
    ensures Applies(AppRouteOf(x), c) <==> Applies(AppRouteOf(y), c)
    ensures AppRouteOf(x).matchBy == AppRouteOf(y).matchBy
  {
    NormalPathIsStable(x.path);
    NormalPathIsStable(y.path);
  }

  lemma Partner(a: seq<UiApp>, b: seq<UiApp>, x: UiApp, c: Connection)
    requires AllChecked(a) && AllChecked(b) && SameKeys(a, b) && x in a
    ensures exists y :: y in b && AppRouteOf(y).matchBy == AppRouteOf(x).matchBy
                        && AppRouteOf(y).action == AppRouteOf(x).action
                        && (Applies(AppRouteOf(y), c) <==> Applies(AppRouteOf(x), c))
  {
    var y :| y in b && EffectiveAppKey(y) == EffectiveAppKey(x) && y.route == x.route;
    AppliesByKey(x, y, c);
  }

  // A sent rule of one list that is about the connection has its like in the other.
  ghost predicate HasLike(b: seq<AppRoute>, x: AppRoute, c: Connection) {
    exists y :: y in b && y.matchBy == x.matchBy && y.action == x.action && Applies(y, c)
  }

  lemma SentPartner(a: seq<UiApp>, b: seq<UiApp>, x: AppRoute, c: Connection)
    requires AllChecked(a) && AllChecked(b) && SameKeys(a, b) && x in AppRoutesOf(a) && Applies(x, c)
    ensures HasLike(AppRoutesOf(b), x, c)
  {
    var i :| 0 <= i < |a| && AppRouteOf(a[i]) == x;
    Partner(a, b, a[i], c);
    var y :| y in b && AppRouteOf(y).matchBy == x.matchBy && AppRouteOf(y).action == x.action
             && (Applies(AppRouteOf(y), c) <==> Applies(x, c));
    var m :| 0 <= m < |b| && b[m] == y;
    assert AppRoutesOf(b)[m] == AppRouteOf(y);
  }

  lemma CarriedOver(a: seq<UiApp>, b: seq<UiApp>, kind: AppMatchBy, c: Connection)
    requires AllChecked(a) && AllChecked(b) && SameKeys(a, b)
    ensures SomeApp(AppRoutesOf(a), kind, c) ==> SomeApp(AppRoutesOf(b), kind, c)
  {
    if x :| x in AppRoutesOf(a) && x.matchBy == kind && Applies(x, c) { SentPartner(a, b, x, c); }
  }

  lemma CarriedOverWith(a: seq<UiApp>, b: seq<UiApp>, kind: AppMatchBy, route: Route, c: Connection)
    requires AllChecked(a) && AllChecked(b) && SameKeys(a, b)
    ensures SomeAppWith(AppRoutesOf(a), kind, route, c) ==> SomeAppWith(AppRoutesOf(b), kind, route, c)
  {
    if x :| x in AppRoutesOf(a) && x.matchBy == kind && x.action == route && Applies(x, c) { SentPartner(a, b, x, c); }
  }

  lemma SameAppDecision(a: seq<UiApp>, b: seq<UiApp>, c: Connection)
    requires AllChecked(a) && AllChecked(b) && SameKeys(a, b) && SameKeys(b, a)
    ensures AppDecision(AppRoutesOf(a), c) == AppDecision(AppRoutesOf(b), c)
  {
    forall kind ensures SomeApp(AppRoutesOf(a), kind, c) <==> SomeApp(AppRoutesOf(b), kind, c) {
      CarriedOver(a, b, kind, c);
      CarriedOver(b, a, kind, c);
    }
    forall kind, route
      ensures SomeAppWith(AppRoutesOf(a), kind, route, c) <==> SomeAppWith(AppRoutesOf(b), kind, route, c)
    {
      CarriedOverWith(a, b, kind, route, c);
      CarriedOverWith(b, a, kind, route, c);
    }
  }

  lemma KeyGivesSameKeys(sort: seq<(AppKey, UiRoute)> -> seq<(AppKey, UiRoute)>, a: Routing, b: Routing)
    requires Permutes(sort) && EffectiveRoutingKey(sort, a) == EffectiveRoutingKey(sort, b)
    ensures a.defaultRoute == b.defaultRoute
    ensures SameKeys(Effective(a.apps), Effective(b.apps)) && SameKeys(Effective(b.apps), Effective(a.apps))
  {
    var x, y := KeyList(Effective(a.apps)), KeyList(Effective(b.apps));
    assert multiset(sort(x)) == multiset(x) && multiset(sort(y)) == multiset(y);
    SameKeyLists(Effective(a.apps), Effective(b.apps));
    SameKeyLists(Effective(b.apps), Effective(a.apps));
  }

  // Equal routing keys: both documents are accepted by the backend, or neither is.
  lemma EqualKeysEquallyValid(sort: seq<(AppKey, UiRoute)> -> seq<(AppKey, UiRoute)>,
                              rawA: RawRouting, rawB: RawRouting, a: Routing, b: Routing)
    requires Permutes(sort) && EffectiveRoutingKey(sort, a) == EffectiveRoutingKey(sort, b)
    requires AsciiRaw(rawA) && ValidatedRouting(rawA) == Some(a) && AsciiRaw(rawB) && ValidatedRouting(rawB) == Some(b)
    ensures ValidPolicy(PolicyOf(a)) <==> ValidPolicy(PolicyOf(b))
  {
    KeyGivesSameKeys(sort, a, b);
    UiAcceptedIsValidIff(rawA, a);
    UiAcceptedIsValidIff(rawB, b);
    if ShortPathNames(b.apps) { ShortByKeys(a.apps, b.apps); }
    if ShortPathNames(a.apps) { ShortByKeys(b.apps, a.apps); }
  }

  lemma ShortByKeys(a: seq<UiApp>, b: seq<UiApp>)
    requires SameKeys(Effective(a), Effective(b)) && ShortPathNames(b)
    ensures ShortPathNames(a)
  {
    EffectiveMembers(a);
    EffectiveMembers(b);
    forall app | app in a && app.route != Inherit && !app.byName ensures Utf8Len(ExecutableName(app.path)) <= 260 {
      assert app in Effective(a);
      var y :| y in Effective(b) && EffectiveAppKey(y) == EffectiveAppKey(app) && y.route == app.route;
    }
  }

  predicate TypedBase(base: ConfigRequest) {
    base.mode.Tun? ==> base.mode.settings.ipv4.Typed() && base.mode.settings.ipv6.Some? && base.mode.settings.ipv6.value.Typed()
  }

  // Two documents that need no reconnect compile to configurations that differ at most in the
  // text of their rules, and decide every connection identically.
  lemma SkipIsSound(sort: seq<(AppKey, UiRoute)> -> seq<(AppKey, UiRoute)>, rawA: RawRouting, rawB: RawRouting,
                    a: Routing, b: Routing, base: ConfigRequest, own: seq<Cidr>, bridge: bool, c: Connection)
    requires Permutes(sort) && EffectiveRoutingKey(sort, a) == EffectiveRoutingKey(sort, b)
    requires AsciiRaw(rawA) && ValidatedRouting(rawA) == Some(a) && AsciiRaw(rawB) && ValidatedRouting(rawB) == Some(b)
    requires base.mode.Tun? ==> EffectiveTunKey(a) == EffectiveTunKey(b)
    requires a.naiveUdpOverTcp == b.naiveUdpOverTcp || base.protocol != Naive
    requires ValidPolicy(PolicyOf(a)) && TypedBase(base) && TypedConnection(c)
    requires OwnFor(RequestOf(base, a)) == Some(own)
    ensures ValidPolicy(PolicyOf(b)) && OwnFor(RequestOf(base, b)) == Some(own)
    ensures var x, y := ConfigFor(RequestOf(base, a), own, bridge), ConfigFor(RequestOf(base, b), own, bridge);
            x.(rules := []) == y.(rules := []) && Decide(x.rules, x.final, c) == Decide(y.rules, y.final, c)
  {
    EqualKeysEquallyValid(sort, rawA, rawB, a, b);
    KeyGivesSameKeys(sort, a, b);
    SameShell(base, a, b, own, bridge);
    OwnIsTyped(base, a, own);
    SameDecisions(rawA, rawB, a, b, RequestOf(base, a).mode, own, c);
    ConfigRules(base, a, own, bridge);
    ConfigRules(base, b, own, bridge);
  }

  lemma OwnIsTyped(base: ConfigRequest, r: Routing, own: seq<Cidr>)
    requires TypedBase(base) && OwnFor(RequestOf(base, r)) == Some(own)
    ensures var mode := RequestOf(base, r).mode;
            mode.Tun? ==>
              && (forall t :: t in OwnAddresses(mode.settings, Ipv6Enabled) ==> t.Typed())
              && OwnPrefixes(OwnAddresses(mode.settings, Ipv6Enabled)) == Some(own)
  {}

  lemma ConfigRules(base: ConfigRequest, r: Routing, own: seq<Cidr>, bridge: bool)
    ensures var config := ConfigFor(RequestOf(base, r), own, bridge);
            config.rules == RulesFor(RequestOf(base, r).mode, own, PolicyOf(r)) && config.final == OutboundFor(r.defaultRoute)
  {}

  lemma SameShell(base: ConfigRequest, a: Routing, b: Routing, own: seq<Cidr>, bridge: bool)
    requires a.defaultRoute == b.defaultRoute && (base.mode.Tun? ==> EffectiveTunKey(a) == EffectiveTunKey(b))
    requires a.naiveUdpOverTcp == b.naiveUdpOverTcp || base.protocol != Naive
    ensures RequestOf(base, a).mode == RequestOf(base, b).mode
    ensures OwnFor(RequestOf(base, a)) == OwnFor(RequestOf(base, b))
    ensures ConfigFor(RequestOf(base, a), own, bridge).(rules := []) == ConfigFor(RequestOf(base, b), own, bridge).(rules := [])
  {}

  lemma SentIsAscii(raw: RawRouting, r: Routing)
    requires AsciiRaw(raw) && ValidatedRouting(raw) == Some(r)
    ensures AsciiApps(PolicyOf(r).apps) && AllChecked(Effective(r.apps))
  {
    ValidatedIsChecked(raw, r);
    EffectiveMembers(r.apps);
    forall i | 0 <= i < |Effective(r.apps)| ensures IsAscii(PolicyOf(r).apps[i].processPath) {
      assert Effective(r.apps)[i] in Effective(r.apps);
    }
  }

  lemma MeansIntended(raw: RawRouting, r: Routing, mode: CaptureMode, own: seq<Cidr>, c: Connection)
    requires AsciiRaw(raw) && ValidatedRouting(raw) == Some(r) && ValidPolicy(PolicyOf(r)) && TypedConnection(c)
    requires mode.Tun? ==>
               && (forall t :: t in OwnAddresses(mode.settings, Ipv6Enabled) ==> t.Typed())
               && OwnPrefixes(OwnAddresses(mode.settings, Ipv6Enabled)) == Some(own)
    ensures Decide(RulesFor(mode, own, PolicyOf(r)), OutboundFor(r.defaultRoute), c) == Intended(mode, PolicyOf(r), c)
  {
    SentIsAscii(raw, r);
    CompiledRulesMeanPolicy(mode, own, PolicyOf(r), c);
  }

  lemma SameIntent(mode: CaptureMode, a: Policy, b: Policy, c: Connection)
    requires a == b.(apps := a.apps) && AppDecision(a.apps, c) == AppDecision(b.apps, c)
    ensures Intended(mode, a, c) == Intended(mode, b, c)
  {}

  lemma SameDecisions(rawA: RawRouting, rawB: RawRouting, a: Routing, b: Routing, mode: CaptureMode, own: seq<Cidr>, c: Connection)
    requires AsciiRaw(rawA) && ValidatedRouting(rawA) == Some(a) && AsciiRaw(rawB) && ValidatedRouting(rawB) == Some(b)
    requires a.defaultRoute == b.defaultRoute
    requires SameKeys(Effective(a.apps), Effective(b.apps)) && SameKeys(Effective(b.apps), Effective(a.apps))
    requires ValidPolicy(PolicyOf(a)) && ValidPolicy(PolicyOf(b)) && TypedConnection(c)
    requires mode.Tun? ==>
               && (forall t :: t in OwnAddresses(mode.settings, Ipv6Enabled) ==> t.Typed())
               && OwnPrefixes(OwnAddresses(mode.settings, Ipv6Enabled)) == Some(own)
    ensures Decide(RulesFor(mode, own, PolicyOf(a)), OutboundFor(a.defaultRoute), c)
            == Decide(RulesFor(mode, own, PolicyOf(b)), OutboundFor(b.defaultRoute), c)
  {
    MeansIntended(rawA, a, mode, own, c);
    MeansIntended(rawB, b, mode, own, c);
    SentIsAscii(rawA, a);
    SentIsAscii(rawB, b);
    SameAppDecision(Effective(a.apps), Effective(b.apps), c);
    SameIntent(mode, PolicyOf(a), PolicyOf(b), c);
  }

  // ---- Saving an edit ---------------------------------------------------

  datatype RunMode = LocalOnlyRun | SystemProxyRun | TunRun
  datatype Run = Run(mode: RunMode, nodeId: Option<string>)
  datatype Server = Server(id: string, naive: bool)
  datatype UiState = UiState(
    runtime: Option<Run>, wantsConnection: bool, tunSelected: bool, selectedServerId: string, servers: seq<Server>,
    routing: Routing)

  // Whether saving `saved` over the current document reconnects the runtime.
  ghost predicate ChangesRuntime(sort: seq<(AppKey, UiRoute)> -> seq<(AppKey, UiRoute)>, ui: UiState, saved: Routing) {
    var tunUsesPolicy := (ui.runtime.Some? && ui.runtime.value.mode == TunRun) || (ui.wantsConnection && ui.tunSelected);
    || EffectiveRoutingKey(sort, saved) != EffectiveRoutingKey(sort, ui.routing)
    || (EffectiveTunKey(saved) != EffectiveTunKey(ui.routing) && tunUsesPolicy)
    || (saved.naiveUdpOverTcp != ui.routing.naiveUdpOverTcp
        && exists server :: server in ui.servers && server.naive
             && (tunUsesPolicy || (ui.runtime.Some? && ui.runtime.value.nodeId == Some(server.id)) || server.id == ui.selectedServerId))
  }

  // `base` describes the running session: its mode, and whether its node is a Naive one.
  ghost predicate Running(ui: UiState, base: ConfigRequest) {
    && ui.runtime.Some? && (base.mode.Tun? <==> ui.runtime.value.mode == TunRun)
    && (base.protocol == Naive ==> exists server :: server in ui.servers && server.naive && ui.runtime.value.nodeId == Some(server.id))
  }

  // An edit that is saved without reconnecting leaves the running configuration as good as the new one.
  lemma UnchangedRuntimeIsSound(sort: seq<(AppKey, UiRoute)> -> seq<(AppKey, UiRoute)>, ui: UiState,
                                rawSaved: RawRouting, rawCurrent: RawRouting, saved: Routing,
                                base: ConfigRequest, own: seq<Cidr>, bridge: bool, c: Connection)
    requires Permutes(sort) && !ChangesRuntime(sort, ui, saved) && Running(ui, base)
    requires AsciiRaw(rawSaved) && ValidatedRouting(rawSaved) == Some(saved)
    requires AsciiRaw(rawCurrent) && ValidatedRouting(rawCurrent) == Some(ui.routing)
    requires ValidPolicy(PolicyOf(ui.routing)) && TypedBase(base) && TypedConnection(c)
    requires OwnFor(RequestOf(base, ui.routing)) == Some(own)
    ensures ValidPolicy(PolicyOf(saved)) && OwnFor(RequestOf(base, saved)) == Some(own)
    ensures var x, y := ConfigFor(RequestOf(base, ui.routing), own, bridge), ConfigFor(RequestOf(base, saved), own, bridge);
            x.(rules := []) == y.(rules := []) && Decide(x.rules, x.final, c) == Decide(y.rules, y.final, c)
  {
    SkipIsSound(sort, rawCurrent, rawSaved, ui.routing, saved, base, own, bridge, c);
  }

  // Documents that differ in a TUN rule only: outside TUN mode the edit between them is skipped.
  function RuleFreeRouting(): RawRouting { RawRouting(Vpn, None, None, Some([]), []) }

  function OneRuleRouting(): RawRouting {
    RuleFreeRouting().(trafficRules := Some([UiTrafficRule("a", true, Udp, 443, Block)]))
  }

  lemma TunRuleEditSkips(base: ConfigRequest)
    requires !base.mode.Tun?
    ensures var x, y := ValidatedRouting(RuleFreeRouting()), ValidatedRouting(OneRuleRouting());
            && x.Some? && y.Some? && x != y && EffectiveTunKey(x.value) != EffectiveTunKey(y.value)
            && EffectiveRoutingKey(list => list, x.value) == EffectiveRoutingKey(list => list, y.value)
            && AsciiRaw(RuleFreeRouting()) && AsciiRaw(OneRuleRouting()) && Permutes(list => list)
            && ValidPolicy(PolicyOf(x.value)) && TypedBase(base) && OwnFor(RequestOf(base, x.value)).Some?
  {
    ValidPlainText("a");
    var x, y := ValidatedRouting(RuleFreeRouting()), ValidatedRouting(OneRuleRouting());
    assert NormalApps([]) == [];
    assert y.value.trafficRules[1..] == [];
    UiAcceptedIsValidIff(RuleFreeRouting(), x.value);
  }

  // ---- Reloading a saved document ---------------------------------------

  function AsRaw(r: Routing): RawRouting {
    RawRouting(r.defaultRoute, Some(r.tunStack), Some(r.naiveUdpOverTcp), Some(r.trafficRules), r.apps)
  }

  lemma TrimIsStable(s: string)
    ensures Trim(Trim(s)) == Trim(s)
  {
    TrimmedIffTrimIsIdentity(s);
    TrimmedIffTrimIsIdentity(Trim(s));
  }

  lemma NormalAppIsStable(app: UiApp)
    requires ValidApp(app) && IsAscii(app.path) && IsAscii(app.name)
    ensures ValidApp(NormalApp(app)) && NormalApp(NormalApp(app)) == NormalApp(app)
  {
    NormalPathFacts(app.path);
    NormalPathIsStable(NormalPath(app.path));
    TrimIsStable(app.name);
    TrimIsPart(app.name);
    Utf8LenAscii(app.name);
    Utf8LenAscii(app.path);
    Utf8LenAscii(Trim(app.name));
    Utf8LenAscii(NormalPath(app.path));
    NameOfBackslashed(Trim(app.path));
  }

  // What was saved after validation is read back unchanged.
  lemma SavedRoutingReloads(raw: RawRouting, r: Routing)
    requires AsciiRaw(raw) && ValidatedRouting(raw) == Some(r)
    ensures ValidatedRouting(AsRaw(r)) == Some(r)
  {
    forall i | 0 <= i < |raw.apps| ensures ValidApp(r.apps[i]) && NormalApp(r.apps[i]) == r.apps[i] {
      NormalAppIsStable(raw.apps[i]);
    }
    assert NormalApps(r.apps) == r.apps;
  }

  // ---- Where the UI is laxer than the backend ---------------------------

  function LongNamePath(): string { [':', '\\'] + seq(261, i => 'a') }

  function LongNameApp(): UiApp { UiApp("a", "a", LongNamePath(), false, Explicit(Vpn)) }

  function LongNameRouting(): RawRouting { RawRouting(Direct, None, None, Some([]), [LongNameApp()]) }

  lemma LongNameIsAccepted()
    ensures AsciiRaw(LongNameRouting()) && ValidatedRouting(LongNameRouting()).Some?
    ensures ValidatedRouting(LongNameRouting()).value.apps == [LongNameApp()]
  {
    LongNameAppIsValid();
    NormalPathIsStable(LongNamePath());
    TrimmedIffTrimIsIdentity("a");
  }

  // The UI accepts an exact path with a 261-byte file name that the backend then refuses.
  lemma LongFileNameIsRefused()
    ensures ValidatedRouting(LongNameRouting()).Some? && !ValidPolicy(PolicyOf(ValidatedRouting(LongNameRouting()).value))
  {
    LongNameIsAccepted();
    var r := ValidatedRouting(LongNameRouting()).value;
    UiAcceptedIsValidIff(LongNameRouting(), r);
    NotShort(r.apps);
  }

  lemma NotShort(apps: seq<UiApp>)
    requires apps == [LongNameApp()]
    ensures !ShortPathNames(apps)
  {
    assert apps[0] in apps;
    LongNameLength();
  }

  lemma ValidPlainText(text: string)
    requires text != "" && |text| <= 128 && forall c :: c in text ==> 0x20 < c as int < 0x7f
    ensures ValidText(text, 128)
  {
    Utf8LenAscii(text);
    assert text[0] in text && text[|text| - 1] in text;
    TrimmedIffTrimIsIdentity(text);
  }

  lemma LongNameLength()
    ensures Utf8Len(ExecutableName(LongNamePath())) == 261
  {
    var path := LongNamePath();
    StartsAfter(path, |path|);
    Utf8LenAscii(ExecutableName(path));
  }

  lemma {:induction false} StartsAfter(path: string, k: nat)
    requires path == LongNamePath() && 2 <= k <= |path|
    ensures NameStart(path, k) == 2
  {
    if k > 2 { StartsAfter(path, k - 1); }
  }

  lemma LongNameAppIsValid()
    ensures ValidApp(LongNameApp()) && IsAscii(LongNamePath()) && NormalizedPath(LongNamePath())
  {
    var path := LongNamePath();
    assert forall c :: c in path ==> 0x20 < c as int < 0x7f && c != '/';
    Utf8LenAscii(path);
    TrimmedIffTrimIsIdentity(path);
    assert path[1] == '\\';
    ValidPlainText("a");
  }
}
