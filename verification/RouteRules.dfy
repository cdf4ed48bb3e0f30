// The ordered rule list a policy compiles to, and what it means
// (src-tauri/src/config.rs:198-209, 309-391).
module RouteRules {
  import opened Text
  import opened TunPrefix
  import opened AppRuleMatching
  import opened RoutePolicy

  datatype InboundTag = HttpIn | SocksIn | HealthIn | TunIn
  datatype Network = Tcp | Udp
  datatype Destination = Named | Ip(family: Family, address: nat)

  // One connection as the engine sees it: where it entered, what it wants, and the
  // image path of the process that opened it, if known.
  datatype Connection = Connection(
    inbound: InboundTag, network: Network, port: nat, destination: Destination, isPrivate: bool,
    processPath: Option<string>)

  datatype OutboundTag = Selected | DirectOut
  datatype Action = RouteTo(outbound: OutboundTag) | HijackDns | Drop | Reject | RejectNoDrop

  datatype Rule = Rule(
    inbounds: Option<seq<InboundTag>>, networks: Option<seq<Network>>, port: Option<nat>, cidrs: Option<seq<Cidr>>,
    onlyIpv6: bool, onlyPrivate: bool, processPath: Option<string>, processRegex: Option<string>, action: Action)

  datatype TunStack = SystemStack | Gvisor
  datatype TrafficAction = Block | TrafficDirect | TrafficVpn
  datatype TrafficRule = TrafficRule(network: Network, port: nat, action: TrafficAction)
  datatype TunSettings = TunSettings(ipv4: Cidr, ipv6: Option<Cidr>, stack: TunStack, trafficRules: seq<TrafficRule>)
  datatype CaptureMode = LocalProxy | SystemProxy | Tun(settings: TunSettings)

  // ---- First-match evaluation -------------------------------------------

  ghost predicate RegexFinds(pattern: string, path: string) {
    ReadRegex(pattern).Some? && Search(ReadRegex(pattern).value, path)
  }

  ghost predicate InSomeCidr(cidrs: seq<Cidr>, c: Connection) {
    c.destination.Ip? && exists n :: n in cidrs && CidrContains(n, c.destination.family, c.destination.address)
  }

  ghost predicate RuleMatches(rule: Rule, c: Connection) {
    && (rule.inbounds.Some? ==> c.inbound in rule.inbounds.value)
    && (rule.networks.Some? ==> c.network in rule.networks.value)
    && (rule.port.Some? ==> c.port == rule.port.value)
    && (rule.cidrs.Some? ==> InSomeCidr(rule.cidrs.value, c))
    && (rule.onlyIpv6 ==> c.destination.Ip? && c.destination.family == V6)
    && (rule.onlyPrivate ==> c.isPrivate)
    && (rule.processPath.Some? ==> c.processPath == rule.processPath)
    && (rule.processRegex.Some? ==> c.processPath.Some? && RegexFinds(rule.processRegex.value, c.processPath.value))
  }

  ghost function FirstMatch(rules: seq<Rule>, c: Connection): Option<Action> {
    if rules == [] then None
    else if RuleMatches(rules[0], c) then Some(rules[0].action)
    else FirstMatch(rules[1..], c)
  }

  ghost function Decide(rules: seq<Rule>, final: OutboundTag, c: Connection): Action {
    match FirstMatch(rules, c) case Some(action) => action case None => RouteTo(final)
  }

  ghost function OrElse(first: Option<Action>, second: Option<Action>): Option<Action> {
    if first.Some? then first else second
  }

  lemma {:induction false} FirstMatchConcat(a: seq<Rule>, b: seq<Rule>, c: Connection)
    ensures FirstMatch(a + b, c) == OrElse(FirstMatch(a, c), FirstMatch(b, c))
  {
    if a == [] {
      assert a + b == b;
    } else {
      assert (a + b)[1..] == a[1..] + b;
      FirstMatchConcat(a[1..], b, c);
    }
  }

  lemma FirstMatchOne(rule: Rule, c: Connection)
    ensures FirstMatch([rule], c) == if RuleMatches(rule, c) then Some(rule.action) else None
  {
    assert [rule][1..] == [];
  }

  // ---- Compilation ------------------------------------------------------

  function Unconditional(action: Action): Rule {
    Rule(None, None, None, None, false, false, None, None, action)
  }

  function OutboundFor(route: Route): OutboundTag {
    if route == Direct then DirectOut else Selected
  }

  function HealthRule(): Rule { Unconditional(RouteTo(Selected)).(inbounds := Some([HealthIn])) }

  function TunDnsHijackRule(): Rule {
    Unconditional(HijackDns).(inbounds := Some([TunIn]), networks := Some([Tcp, Udp]), port := Some(53))
  }

  function OwnPrefixRule(own: seq<Cidr>): Rule {
    Unconditional(Drop).(inbounds := Some([TunIn]), cidrs := Some(own))
  }

  function Ipv6Rule(): Rule { Unconditional(Reject).(onlyIpv6 := true) }

  function TrafficRuleOf(t: TrafficRule): Rule {
    Unconditional(TrafficDecision(t.action)).(inbounds := Some([TunIn]), networks := Some([t.network]), port := Some(t.port))
  }

  function TrafficDecision(action: TrafficAction): Action {
    match action
    case Block => RejectNoDrop
    case TrafficDirect => RouteTo(DirectOut)
    case TrafficVpn => RouteTo(Selected)
  }

  function NativePath(app: AppRoute): string { Backslashed(Trim(app.processPath)) }

  function NameOf(app: AppRoute): string { ExecutableName(Trim(app.processPath)) }

  function AppRule(app: AppRoute): Rule {
    var base := Unconditional(RouteTo(OutboundFor(app.action)));
    match app.matchBy
    case ByPath => base.(processPath := Some(NativePath(app)))
    case ByName => base.(processRegex := Some(NamePattern(NameOf(app))))
  }

  function LanRule(): Rule { Unconditional(RouteTo(DirectOut)).(onlyPrivate := true) }

  function TrafficRulesOf(rules: seq<TrafficRule>): seq<Rule> {
    if rules == [] then [] else TrafficRulesOf(rules[..|rules| - 1]) + [TrafficRuleOf(rules[|rules| - 1])]
  }

  function OfKind(apps: seq<AppRoute>, kind: AppMatchBy): seq<AppRoute> {
    if apps == [] then []
    else (if apps[0].matchBy == kind then [apps[0]] else []) + OfKind(apps[1..], kind)
  }

  // `sort_by_key(match_by == Name)`: a stable sort with exact paths first.
  function ExactPathsFirst(apps: seq<AppRoute>): seq<AppRoute> {
    OfKind(apps, ByPath) + OfKind(apps, ByName)
  }

  function AppRulesOf(apps: seq<AppRoute>): seq<Rule> {
    if apps == [] then [] else AppRulesOf(apps[..|apps| - 1]) + [AppRule(apps[|apps| - 1])]
  }

  function TunPart(mode: CaptureMode, own: seq<Cidr>): seq<Rule> {
    if mode.Tun? then [TunDnsHijackRule(), OwnPrefixRule(own)] else []
  }

  function V6Part(policy: Policy): seq<Rule> {
    if policy.ipv6 == Ipv6Disabled then [Ipv6Rule()] else []
  }

  function TrafficPart(mode: CaptureMode): seq<Rule> {
    if mode.Tun? then TrafficRulesOf(mode.settings.trafficRules) else []
  }

  function LanPart(policy: Policy): seq<Rule> {
    if policy.lan == LanDirect then [LanRule()] else []
  }

  function RulesFor(mode: CaptureMode, own: seq<Cidr>, policy: Policy): seq<Rule> {
    [HealthRule()] + TunPart(mode, own) + V6Part(policy) + TrafficPart(mode)
    + AppRulesOf(ExactPathsFirst(policy.apps)) + LanPart(policy)
  }

  // The TUN networks the guard drops: IPv4 always, IPv6 only when enabled.
  function OwnAddresses(settings: TunSettings, ipv6: Ipv6Policy): seq<Cidr> {
    [settings.ipv4] + (if ipv6 == Ipv6Enabled && settings.ipv6.Some? then [settings.ipv6.value] else [])
  }

  function OwnPrefixes(addresses: seq<Cidr>): Option<seq<Cidr>> {
    if addresses == [] then Some([])
    else match (CanonicalTunPrefix(addresses[0]), OwnPrefixes(addresses[1..]))
      case (Some(p), Some(rest)) => Some([p] + rest)
      case _ => None
  }

  // ---- The declared policy ----------------------------------------------

  ghost predicate Applies(app: AppRoute, c: Connection) {
    c.processPath.Some?
    && match app.matchBy
       case ByPath => c.processPath.value == Backslashed(Trim(app.processPath))
       case ByName => EqualFold(ExecutableName(c.processPath.value), ExecutableName(Trim(app.processPath)))
  }

  ghost predicate SomeApp(apps: seq<AppRoute>, kind: AppMatchBy, c: Connection) {
    exists app :: app in apps && app.matchBy == kind && Applies(app, c)
  }

  ghost predicate SomeAppWith(apps: seq<AppRoute>, kind: AppMatchBy, route: Route, c: Connection) {
    exists app :: app in apps && app.matchBy == kind && app.action == route && Applies(app, c)
  }

  // An exact path beats a file name; within a kind the order of the rules is not consulted.
  ghost function AppDecision(apps: seq<AppRoute>, c: Connection): Option<Action> {
    if SomeApp(apps, ByPath, c) then Some(RouteTo(if SomeAppWith(apps, ByPath, Direct, c) then DirectOut else Selected))
    else if SomeApp(apps, ByName, c) then Some(RouteTo(if SomeAppWith(apps, ByName, Direct, c) then DirectOut else Selected))
    else None
  }

  predicate TrafficApplies(rule: TrafficRule, c: Connection) {
    rule.network == c.network && rule.port == c.port
  }

  ghost predicate FirstTraffic(rules: seq<TrafficRule>, c: Connection, i: int) {
    0 <= i < |rules| && TrafficApplies(rules[i], c) && forall k :: 0 <= k < i ==> !TrafficApplies(rules[k], c)
  }

  // A rule blocks, or sends the connection through the VPN, or around it.
  function OutcomeOf(action: TrafficAction): Action {
    if action == Block then RejectNoDrop else RouteTo(if action == TrafficVpn then Selected else DirectOut)
  }

  // The first traffic rule for the connection's network and port decides.
  ghost function TrafficVerdict(rules: seq<TrafficRule>, c: Connection): Option<Action> {
    if i :| FirstTraffic(rules, c, i) then Some(OutcomeOf(rules[i].action)) else None
  }

  // The destination agrees with the TUN's address on every prefix bit.
  ghost predicate InNetworkOf(tun: Cidr, c: Connection) {
    && tun.Cidr? && c.destination.Ip? && c.destination.family == tun.family && tun.prefix <= tun.family.Width()
    && forall i :: tun.family.Width() - tun.prefix <= i < tun.family.Width()
         ==> Bit(c.destination.address, i) == Bit(tun.address, i)
  }

  ghost predicate InSomeNetwork(addresses: seq<Cidr>, c: Connection) {
    exists a :: a in addresses && InNetworkOf(a, c)
  }

  // The TUN's own networks: IPv4 always, IPv6 only when enabled.
  ghost predicate InOwnNetwork(settings: TunSettings, ipv6: Ipv6Policy, c: Connection) {
    InNetworkOf(settings.ipv4, c) || (ipv6 == Ipv6Enabled && settings.ipv6.Some? && InNetworkOf(settings.ipv6.value, c))
  }

  // What the policy declares for a connection.
  ghost function Intended(mode: CaptureMode, policy: Policy, c: Connection): Action {
    if c.inbound == HealthIn then RouteTo(Selected)
    else if mode.Tun? && c.inbound == TunIn && c.port == 53 then HijackDns
    else if mode.Tun? && c.inbound == TunIn && InOwnNetwork(mode.settings, policy.ipv6, c) then Drop
    else if policy.ipv6 == Ipv6Disabled && c.destination.Ip? && c.destination.family == V6 then Reject
    else if mode.Tun? && c.inbound == TunIn && TrafficVerdict(mode.settings.trafficRules, c).Some? then
      TrafficVerdict(mode.settings.trafficRules, c).value
    else match AppDecision(policy.apps, c)
      case Some(action) => action
      case None =>
        if policy.lan == LanDirect && c.isPrivate then RouteTo(DirectOut)
        else RouteTo(if policy.default == Vpn then Selected else DirectOut)
  }

  predicate AsciiApps(apps: seq<AppRoute>) {
    forall i :: 0 <= i < |apps| ==> IsAscii(apps[i].processPath)
  }

  predicate TypedConnection(c: Connection) {
    (c.destination.Ip? ==> Fits(c.destination.address, c.destination.family.Width()))
    && (c.processPath.Some? ==> IsAscii(c.processPath.value))
  }

  // ---- Compilation preserves meaning ------------------------------------

  lemma AsciiSuffix(s: string, i: nat, j: nat)
    requires IsAscii(s) && i <= j <= |s|
    ensures IsAscii(s[i..j])
  {
    forall ch | ch in s[i..j] ensures ch as int < 0x80 { assert ch in s; }
  }

  lemma NameIsAscii(path: string)
    requires IsAscii(path)
    ensures IsAscii(ExecutableName(Trim(path)))
  {
    var i, j := FirstKept(path, 0), LastKept(path, |path|);
    if i < j { AsciiSuffix(path, i, j); }
    var t := Trim(path);
    AsciiSuffix(t, NameStart(t, |t|), |t|);
    assert t[NameStart(t, |t|)..|t|] == ExecutableName(t);
  }

  // A compiled application rule matches exactly the connections its rule is about.
  lemma AppRuleMeaning(app: AppRoute, c: Connection)
    requires RuleError(app) == None && IsAscii(app.processPath) && TypedConnection(c)
    ensures RuleMatches(AppRule(app), c) <==> Applies(app, c)
    ensures AppRule(app).action == RouteTo(if app.action == Vpn then Selected else DirectOut)
  {
    if app.matchBy == ByName && c.processPath.Some? {
      NameIsAscii(app.processPath);
      NamePatternMeaning(NameOf(app), c.processPath.value);
    }
  }

  lemma NamePatternMeaning(name: string, path: string)
    requires ValidExecutableName(name) && IsAscii(name) && IsAscii(path)
    ensures RegexFinds(NamePattern(name), path) <==> EqualFold(ExecutableName(path), name)
  {
    PatternMatchesBasename(name, path);
  }

  // Two rules of one kind that apply to the same connection have the same key.
  lemma SameKindSameKey(a: AppRoute, b: AppRoute, c: Connection)
    requires a.matchBy == b.matchBy && Applies(a, c) && Applies(b, c)
    ensures KeyOf(a) == KeyOf(b)
  {}

  ghost predicate AppMeanings(apps: seq<AppRoute>, c: Connection) {
    forall app :: app in apps ==>
      (RuleMatches(AppRule(app), c) <==> Applies(app, c)) && AppRule(app).action == RouteTo(OutboundFor(app.action))
  }

  // The first match among compiled rules comes from a rule that applies.
  lemma {:induction false} FirstAppMatch(apps: seq<AppRoute>, c: Connection)
    requires AppMeanings(apps, c)
    ensures FirstMatch(AppRulesOf(apps), c) == None <==> forall app :: app in apps ==> !Applies(app, c)
    ensures FirstMatch(AppRulesOf(apps), c).Some? ==>
              exists app :: app in apps && Applies(app, c) && FirstMatch(AppRulesOf(apps), c) == Some(RouteTo(OutboundFor(app.action)))
  {
    if apps != [] {
      var init, last := apps[..|apps| - 1], apps[|apps| - 1];
      assert apps == init + [last];
      FirstAppMatch(init, c);
      FirstMatchConcat(AppRulesOf(init), [AppRule(last)], c);
      FirstMatchOne(AppRule(last), c);
    }
  }

  lemma {:induction false} OfKindMembers(apps: seq<AppRoute>, kind: AppMatchBy)
    ensures forall app :: app in OfKind(apps, kind) <==> app in apps && app.matchBy == kind
  {
    if apps != [] {
      assert apps == [apps[0]] + apps[1..];
      OfKindMembers(apps[1..], kind);
    }
  }

  lemma {:induction false} AppRulesConcat(a: seq<AppRoute>, b: seq<AppRoute>)
    ensures AppRulesOf(a + b) == AppRulesOf(a) + AppRulesOf(b)
  {
    if b == [] {
      assert a + b == a;
    } else {
      assert (a + b)[..|a + b| - 1] == a + b[..|b| - 1];
      AppRulesConcat(a, b[..|b| - 1]);
    }
  }

  // Distinct keys: all rules of one kind that apply agree on the action.
  lemma OneActionPerKind(apps: seq<AppRoute>, key: AppRoute -> AppKey, a: AppRoute, b: AppRoute)
    requires DistinctBy(apps, key) && a in apps && b in apps && key(a) == key(b)
    ensures a == b
  {
    var i :| 0 <= i < |apps| && apps[i] == a;
    var j :| 0 <= j < |apps| && apps[j] == b;
    if i < j || j < i { assert key(apps[i]) == key(apps[j]); }
  }

  lemma KindDecision(apps: seq<AppRoute>, kind: AppMatchBy, c: Connection)
    requires DistinctBy(apps, KeyOf) && AppMeanings(apps, c)
    ensures FirstMatch(AppRulesOf(OfKind(apps, kind)), c)
            == if SomeApp(apps, kind, c) then Some(RouteTo(if SomeAppWith(apps, kind, Direct, c) then DirectOut else Selected))
               else None
  {
    var some := OfKind(apps, kind);
    OfKindMembers(apps, kind);
    FirstAppMatch(some, c);
    if app :| app in some && Applies(app, c) && FirstMatch(AppRulesOf(some), c) == Some(RouteTo(OutboundFor(app.action))) {
      forall other | other in apps && other.matchBy == kind && Applies(other, c) ensures other == app {
        SameKindSameKey(other, app, c);
        OneActionPerKind(apps, KeyOf, other, app);
      }
    }
  }

  lemma AppRulesMeaning(apps: seq<AppRoute>, c: Connection)
    requires ValidApps(apps) && AsciiApps(apps) && TypedConnection(c)
    ensures FirstMatch(AppRulesOf(ExactPathsFirst(apps)), c) == AppDecision(apps, c)
  {
    forall app | app in apps
      ensures (RuleMatches(AppRule(app), c) <==> Applies(app, c)) && AppRule(app).action == RouteTo(OutboundFor(app.action))
    {
      var i :| 0 <= i < |apps| && apps[i] == app;
      AppRuleMeaning(apps[i], c);
    }
    AppRulesConcat(OfKind(apps, ByPath), OfKind(apps, ByName));
    FirstMatchConcat(AppRulesOf(OfKind(apps, ByPath)), AppRulesOf(OfKind(apps, ByName)), c);
    KindDecision(apps, ByPath, c);
    KindDecision(apps, ByName, c);
  }

  // Inside the TUN the first applicable rule blocks, goes around the VPN, or goes through it, as it
  // says; without one, and outside the TUN, the traffic rules say nothing.
  lemma TrafficRulesMeaning(rules: seq<TrafficRule>, c: Connection)
    ensures forall i :: c.inbound == TunIn && FirstTraffic(rules, c, i) ==>
              FirstMatch(TrafficRulesOf(rules), c)
              == Some(match rules[i].action
                      case Block => RejectNoDrop
                      case TrafficDirect => RouteTo(DirectOut)
                      case TrafficVpn => RouteTo(Selected))
    ensures c.inbound != TunIn || (forall i :: 0 <= i < |rules| ==> rules[i].network != c.network || rules[i].port != c.port) ==>
              FirstMatch(TrafficRulesOf(rules), c) == None
  {
    TrafficRulesGiveVerdict(rules, c);
    forall i | FirstTraffic(rules, c, i) ensures TrafficVerdict(rules, c) == Some(OutcomeOf(rules[i].action)) {
      assert forall j :: FirstTraffic(rules, c, j) ==> j == i;
    }
  }

  lemma {:induction false} TrafficRulesGiveVerdict(rules: seq<TrafficRule>, c: Connection)
    ensures FirstMatch(TrafficRulesOf(rules), c) == if c.inbound == TunIn then TrafficVerdict(rules, c) else None
  {
    if rules != [] {
      var n := |rules| - 1;
      var init := rules[..n];
      TrafficRulesGiveVerdict(init, c);
      FirstMatchConcat(TrafficRulesOf(init), [TrafficRuleOf(rules[n])], c);
      FirstMatchOne(TrafficRuleOf(rules[n]), c);
      VerdictPush(init, rules[n], c);
      assert rules == init + [rules[n]];
    }
  }

  lemma VerdictPush(init: seq<TrafficRule>, last: TrafficRule, c: Connection)
    ensures TrafficVerdict(init + [last], c)
            == OrElse(TrafficVerdict(init, c), if TrafficApplies(last, c) then Some(OutcomeOf(last.action)) else None)
  {
    var rules := init + [last];
    if i :| FirstTraffic(init, c, i) {
      assert forall k :: 0 <= k <= i ==> init[k] == rules[k];
      assert FirstTraffic(rules, c, i);
      assert forall j :: FirstTraffic(rules, c, j) ==> j == i;
    } else {
      NoneFirst(init, c);
      assert forall k :: 0 <= k < |init| ==> !TrafficApplies(rules[k], c);
      assert TrafficApplies(last, c) ==> FirstTraffic(rules, c, |init|);
    }
  }

  lemma NoneFirst(rules: seq<TrafficRule>, c: Connection)
    requires forall i :: !FirstTraffic(rules, c, i)
    ensures forall k :: 0 <= k < |rules| ==> !TrafficApplies(rules[k], c)
  {
    for k := 0 to |rules|
      invariant forall m :: 0 <= m < k ==> !TrafficApplies(rules[m], c)
    {
      assert !FirstTraffic(rules, c, k);
    }
  }

  // The guard's networks are the networks of the TUN's own addresses.
  lemma {:induction false} GuardMeaning(addresses: seq<Cidr>, c: Connection)
    requires TypedConnection(c) && (forall a :: a in addresses ==> a.Typed()) && OwnPrefixes(addresses).Some?
    ensures InSomeCidr(OwnPrefixes(addresses).value, c) <==> InSomeNetwork(addresses, c)
  {
    if addresses != [] {
      var a, rest := addresses[0], addresses[1..];
      assert addresses == [a] + rest;
      GuardMeaning(rest, c);
      CanonicalBits(a, 0);
      var p := CanonicalTunPrefix(a).value;
      assert OwnPrefixes(addresses).value == [p] + OwnPrefixes(rest).value;
      if c.destination.Ip? {
        GuardCoversNetwork(a, c.destination.family, c.destination.address);
      }
      assert InNetworkOf(a, c) <==> c.destination.Ip? && CidrContains(p, c.destination.family, c.destination.address);
    }
  }

  // First-match evaluation of the compiled rules is the declared policy, for every connection.
  lemma CompiledRulesMeanPolicy(mode: CaptureMode, own: seq<Cidr>, policy: Policy, c: Connection)
    requires ValidPolicy(policy) && AsciiApps(policy.apps) && TypedConnection(c)
    requires mode.Tun? ==>
               && (forall a :: a in OwnAddresses(mode.settings, policy.ipv6) ==> a.Typed())
               && OwnPrefixes(OwnAddresses(mode.settings, policy.ipv6)) == Some(own)
    ensures Decide(RulesFor(mode, own, policy), OutboundFor(policy.default), c) == Intended(mode, policy, c)
  {
    var apps := AppRulesOf(ExactPathsFirst(policy.apps));
    SixParts([HealthRule()], TunPart(mode, own), V6Part(policy), TrafficPart(mode), apps, LanPart(policy), c);
    FirstMatchOne(HealthRule(), c);
    TunPartMeaning(mode, own, policy, c);
    FirstMatchOne(Ipv6Rule(), c);
    if mode.Tun? { TrafficRulesGiveVerdict(mode.settings.trafficRules, c); }
    AppRulesMeaning(policy.apps, c);
    FirstMatchOne(LanRule(), c);
  }

  lemma OwnNetworks(settings: TunSettings, ipv6: Ipv6Policy, c: Connection)
    ensures InSomeNetwork(OwnAddresses(settings, ipv6), c) <==> InOwnNetwork(settings, ipv6, c)
  {
    assert settings.ipv4 in OwnAddresses(settings, ipv6);
    if ipv6 == Ipv6Enabled && settings.ipv6.Some? { assert settings.ipv6.value in OwnAddresses(settings, ipv6); }
  }

  lemma TunPartMeaning(mode: CaptureMode, own: seq<Cidr>, policy: Policy, c: Connection)
    requires TypedConnection(c)
    requires mode.Tun? ==>
               && (forall a :: a in OwnAddresses(mode.settings, policy.ipv6) ==> a.Typed())
               && OwnPrefixes(OwnAddresses(mode.settings, policy.ipv6)) == Some(own)
    ensures FirstMatch(TunPart(mode, own), c)
            == if !mode.Tun? || c.inbound != TunIn then None
               else if c.port == 53 then Some(HijackDns)
               else if InOwnNetwork(mode.settings, policy.ipv6, c) then Some(Drop)
               else None
  {
    if mode.Tun? {
      assert TunPart(mode, own) == [TunDnsHijackRule()] + [OwnPrefixRule(own)];
      FirstMatchConcat([TunDnsHijackRule()], [OwnPrefixRule(own)], c);
      FirstMatchOne(TunDnsHijackRule(), c);
      assert c.network == if c.network.Tcp? then [Tcp, Udp][0] else [Tcp, Udp][1];
      FirstMatchOne(OwnPrefixRule(own), c);
      GuardMeaning(OwnAddresses(mode.settings, policy.ipv6), c);
      OwnNetworks(mode.settings, policy.ipv6, c);
    }
  }

  lemma SixParts(a: seq<Rule>, b: seq<Rule>, d: seq<Rule>, e: seq<Rule>, f: seq<Rule>, g: seq<Rule>, c: Connection)
    ensures FirstMatch(a + b + d + e + f + g, c)
            == OrElse(OrElse(OrElse(OrElse(OrElse(FirstMatch(a, c), FirstMatch(b, c)), FirstMatch(d, c)),
                 FirstMatch(e, c)), FirstMatch(f, c)), FirstMatch(g, c))
  {
    FirstMatchConcat(a, b, c);
    FirstMatchConcat(a + b, d, c);
    FirstMatchConcat(a + b + d, e, c);
    FirstMatchConcat(a + b + d + e, f, c);
    FirstMatchConcat(a + b + d + e + f, g, c);
  }

  // Reordering the application rules of a valid policy never changes a decision.
  lemma OrderIsIrrelevant(mode: CaptureMode, own: seq<Cidr>, a: Policy, b: Policy, c: Connection)
    requires ValidPolicy(a) && AsciiApps(a.apps) && TypedConnection(c)
    requires multiset(a.apps) == multiset(b.apps) && b == a.(apps := b.apps)
    requires mode.Tun? ==>
               && (forall t :: t in OwnAddresses(mode.settings, a.ipv6) ==> t.Typed())
               && OwnPrefixes(OwnAddresses(mode.settings, a.ipv6)) == Some(own)
    ensures Decide(RulesFor(mode, own, a), OutboundFor(a.default), c) == Decide(RulesFor(mode, own, b), OutboundFor(b.default), c)
  {
    ValidityIgnoresOrder(a, b);
    forall i | 0 <= i < |b.apps| ensures IsAscii(b.apps[i].processPath) { SameElements(a.apps, b.apps, i); }
    CompiledRulesMeanPolicy(mode, own, a, c);
    CompiledRulesMeanPolicy(mode, own, b, c);
    IntentIgnoresOrder(mode, a, b, c);
  }

  lemma IntentIgnoresOrder(mode: CaptureMode, a: Policy, b: Policy, c: Connection)
    requires multiset(a.apps) == multiset(b.apps) && b == a.(apps := b.apps)
    ensures Intended(mode, a, c) == Intended(mode, b, c)
  {
    SameMembers(a.apps, b.apps);
    SameDecision(a.apps, b.apps, c);
  }

  lemma SameMembers<T>(a: seq<T>, b: seq<T>)
    requires multiset(a) == multiset(b)
    ensures forall x :: x in a <==> x in b
  {
    forall x ensures x in a <==> x in b { assert x in multiset(a) <==> x in multiset(b); }
  }

  lemma SameDecision(a: seq<AppRoute>, b: seq<AppRoute>, c: Connection)
    requires forall x :: x in a <==> x in b
    ensures AppDecision(a, c) == AppDecision(b, c)
  {
    assert forall kind :: SomeApp(a, kind, c) <==> SomeApp(b, kind, c);
    assert forall kind, route :: SomeAppWith(a, kind, route, c) <==> SomeAppWith(b, kind, route, c);
  }
}
