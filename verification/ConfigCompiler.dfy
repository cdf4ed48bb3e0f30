// Compiling a request into an engine configuration, with the closing checks on the
// result (src-tauri/src/config.rs:165-757). JSON documents are typed records.
module ConfigCompiler {
  import opened Text
  import opened TunPrefix
  import opened AppRuleMatching
  import opened RoutePolicy
  import opened RouteRules

  datatype Protocol = Vless(reality: bool) | Hysteria2 | Naive
  datatype LocalPorts = LocalPorts(http: nat, socks: nat, health: nat)
  datatype VpnDns = VpnDns(serverName: string, path: string)
  datatype TunUpstream = TunUpstream(alias: string, dns: Option<nat>)

  datatype ConfigRequest = ConfigRequest(
    protocol: Protocol, requiresApproval: bool, approved: bool, policy: Policy, mode: CaptureMode, ports: LocalPorts,
    healthPassword: string, vpnDns: Option<VpnDns>, tunUpstream: Option<TunUpstream>, naiveUdpOverTcp: bool)

  datatype ConfigError =
    // request faults
    | InsecureTls | BadPorts | BadPolicy | ProxyMustUseVpn | UpstreamMissing | BadAlias | BadUpstreamDns | BadTunAddress
    | BadTrafficRules | Ipv6AddressMissing | UpstreamNotAllowed | BadVpnDns
    | BadCredential | VpnDnsMissing | BridgeNeedsReality | BridgePortZero
    // faults of the generated document
    | BadTunPrefix | BadNamePattern | HealthUnsafe | GuardUnsafe | BindingUnsafe

  datatype InboundKind = HttpInbound | SocksInbound | TunInbound
  datatype Inbound = Inbound(
    kind: InboundKind, tag: InboundTag, loopback: bool, port: nat, users: nat, addresses: seq<Cidr>,
    stack: Option<TunStack>)

  datatype OutboundKind = VlessOutbound | Hysteria2Outbound | NaiveOutbound | SocksOutbound | DirectOutbound | BlockOutbound
  datatype Outbound = Outbound(
    kind: OutboundKind, tag: OutboundTag, loopbackServer: bool, bindInterface: Option<string>,
    domainResolver: Option<DnsTag>, udpOverTcp: bool)

  datatype DnsKind = LocalDns | TcpDns | HttpsDns
  datatype DnsTag = Bootstrap | RemoteDns
  datatype DnsServer = DnsServer(kind: DnsKind, tag: DnsTag, bindInterface: Option<string>, detour: Option<OutboundTag>)

  datatype Config = Config(
    dnsServers: seq<DnsServer>, dnsFinal: DnsTag, dnsIpv4Only: bool, inbounds: seq<Inbound>, outbounds: seq<Outbound>,
    rules: seq<Rule>, final: OutboundTag, defaultInterface: Option<string>, autoDetectInterface: bool)

  datatype Result<+T> = Ok(value: T) | Err(error: ConfigError)

  // ---- Request validation -----------------------------------------------

  predicate IsOwnAlias(alias: string) {
    var a := Lower(alias);
    |a| == 9 && a[0] == 'r' && a[1] == 'o' && a[2] == 'u' && a[3] == 't' && a[4] == 'e'
    && a[5] == 'd' && a[6] == 'e' && a[7] == 'c' && a[8] == 'k'
  }

  predicate NoControls(s: string) { forall c :: c in s ==> !IsControl(c) }

  predicate ValidAlias(alias: string) {
    alias != "" && IsTrimmed(alias) && Utf16Len(alias) <= 256 && NoControls(alias) && !IsOwnAlias(alias)
  }

  predicate ValidUpstreamDns(address: nat) {
    address != 0 && ShiftRight(address, 24) != 127 && ShiftRight(address, 28) != 14 && address != AllOnes(32)
  }

  // 10/8, 172.16/12 or 192.168/16; fc00::/7 for IPv6.
  predicate ValidTunAddress(value: Cidr, family: Family) {
    && value.Cidr? && value.family == family && value.prefix <= family.Width()
    && (if family == V4 then
          ShiftRight(value.address, 24) == 10 || ShiftRight(value.address, 20) == 0xac1 || ShiftRight(value.address, 16) == 0xc0a8
        else ShiftRight(value.address, 121) == 0x7e)
  }

  predicate ValidTrafficRules(rules: seq<TrafficRule>) {
    |rules| <= 32 && forall i :: 0 <= i < |rules| ==> rules[i].port != 0 && rules[i].port != 53
  }

  predicate ValidVpnDns(dns: VpnDns) {
    dns.serverName != "" && NoControls(dns.serverName)
    && dns.path != "" && dns.path[0] == '/' && Utf8Len(dns.path) <= 1024 && NoControls(dns.path)
  }

  predicate ValidCredential(password: string) {
    password != "" && Utf8Len(password) <= 8192 && NoControls(password)
  }

  function TunFault(settings: TunSettings, ipv6: Ipv6Policy, upstream: Option<TunUpstream>): Option<ConfigError> {
    if upstream.None? then Some(UpstreamMissing)
    else if !ValidAlias(upstream.value.alias) then Some(BadAlias)
    else if upstream.value.dns.Some? && !ValidUpstreamDns(upstream.value.dns.value) then Some(BadUpstreamDns)
    else if !ValidTunAddress(settings.ipv4, V4) then Some(BadTunAddress)
    else if !ValidTrafficRules(settings.trafficRules) then Some(BadTrafficRules)
    else if ipv6 == Ipv6Enabled && settings.ipv6.None? then Some(Ipv6AddressMissing)
    else if ipv6 == Ipv6Enabled && !ValidTunAddress(settings.ipv6.value, V6) then Some(BadTunAddress)
    else None
  }

  predicate PortsDistinct(p: LocalPorts) {
    p.http != 0 && p.socks != 0 && p.health != 0 && p.http != p.socks && p.http != p.health && p.socks != p.health
  }

  ghost function RequestFault(r: ConfigRequest): Option<ConfigError> {
    if r.requiresApproval && !r.approved then Some(InsecureTls)
    else if !PortsDistinct(r.ports) then Some(BadPorts)
    else if !ValidPolicy(r.policy) then Some(BadPolicy)
    else if r.mode.LocalProxy? && !(r.policy.default == Vpn && r.policy.apps == [] && r.policy.lan == FollowDefault)
      then Some(ProxyMustUseVpn)
    else if r.mode.Tun? && TunFault(r.mode.settings, r.policy.ipv6, r.tunUpstream).Some?
      then TunFault(r.mode.settings, r.policy.ipv6, r.tunUpstream)
    else if !r.mode.Tun? && r.tunUpstream.Some? then Some(UpstreamNotAllowed)
    else if r.vpnDns.Some? && !ValidVpnDns(r.vpnDns.value) then Some(BadVpnDns)
    else None
  }

  lemma ShiftedIs(address: nat, h: nat, q: nat)
    ensures ShiftRight(address, h) == q <==> q * Pow2(h) <= address < (q + 1) * Pow2(h)
  {
    ShiftRightDivides(address, h);
    Multiples(ShiftRight(address, h), Pow2(h), q, address);
    Multiples(ShiftRight(address, h), Pow2(h), q + 1, address);
    if q * Pow2(h) <= address < (q + 1) * Pow2(h) {
      SameParts(ShiftRight(address, h), address - ShiftRight(address, h) * Pow2(h), q, address - q * Pow2(h), Pow2(h));
    }
  }

  lemma HighPart(a: nat, h: nat, q: nat, size: nat)
    requires size == Pow2(h)
    ensures ShiftRight(a, h) == q <==> q * size <= a < (q + 1) * size
  {
    ShiftedIs(a, h, q);
  }

  lemma PrivateV4(a: nat)
    ensures ShiftRight(a, 24) == 10 <==> 0x0a00_0000 <= a < 0x0b00_0000
    ensures ShiftRight(a, 20) == 0xac1 <==> 0xac10_0000 <= a < 0xac20_0000
    ensures ShiftRight(a, 16) == 0xc0a8 <==> 0xc0a8_0000 <= a < 0xc0a9_0000
  {
    Powers();
    HighPart(a, 24, 10, 0x100_0000);
    HighPart(a, 20, 0xac1, 0x10_0000);
    HighPart(a, 16, 0xc0a8, 0x1_0000);
  }

  lemma PrivateV6(a: nat)
    ensures ShiftRight(a, 121) == 0x7e <==>
            0xfc00_0000_0000_0000_0000_0000_0000_0000 <= a < 0xfe00_0000_0000_0000_0000_0000_0000_0000
  {
    Power121();
    HighPart(a, 121, 0x7e, 0x200_0000_0000_0000_0000_0000_0000_0000);
  }

  // The private ranges as numbers: 10.0.0.0/8, 172.16.0.0/12, 192.168.0.0/16, and fc00::/7.
  lemma TunAddressRanges(value: Cidr, family: Family)
    ensures ValidTunAddress(value, family) <==>
            && value.Cidr? && value.family == family && value.prefix <= (if family == V4 then 32 else 128)
            && var a := value.address;
               if family == V4 then
                 || 0x0a00_0000 <= a < 0x0b00_0000 || 0xac10_0000 <= a < 0xac20_0000 || 0xc0a8_0000 <= a < 0xc0a9_0000
               else 0xfc00_0000_0000_0000_0000_0000_0000_0000 <= a < 0xfe00_0000_0000_0000_0000_0000_0000_0000
  {
    if value.Cidr? {
      PrivateV4(value.address);
      PrivateV6(value.address);
    }
  }

  // The upstream DNS server is no loopback, multicast, broadcast or unspecified address.
  lemma UpstreamDnsRanges(address: nat)
    ensures ValidUpstreamDns(address) <==>
            && address != 0 && address != AllOnes(32)
            && !(0x7f00_0000 <= address < 0x8000_0000) && !(0xe000_0000 <= address < 0xf000_0000)
  {
    Powers();
    HighPart(address, 24, 127, 0x100_0000);
    HighPart(address, 28, 14, 0x1000_0000);
  }

  // What the generator demands of a request.
  lemma RequestAcceptedIff(r: ConfigRequest)
    ensures RequestFault(r) == None <==>
            && (r.requiresApproval ==> r.approved)
            && r.ports.http != 0 && r.ports.socks != 0 && r.ports.health != 0
            && r.ports.http != r.ports.socks && r.ports.http != r.ports.health && r.ports.socks != r.ports.health
            && ValidPolicy(r.policy)
            && (r.mode.LocalProxy? ==> r.policy.default == Vpn && r.policy.apps == [] && r.policy.lan == FollowDefault)
            && (r.tunUpstream.Some? <==> r.mode.Tun?)
            && (r.mode.Tun? ==>
                  && Nameable(r.tunUpstream.value.alias)
                  && (r.tunUpstream.value.dns.Some? ==> ValidUpstreamDns(r.tunUpstream.value.dns.value))
                  && ValidTunAddress(r.mode.settings.ipv4, V4)
                  && |r.mode.settings.trafficRules| <= 32
                  && (forall rule :: rule in r.mode.settings.trafficRules ==> rule.port != 0 && rule.port != 53)
                  && (r.policy.ipv6 == Ipv6Enabled ==>
                        r.mode.settings.ipv6.Some? && ValidTunAddress(r.mode.settings.ipv6.value, V6)))
            && (r.vpnDns.Some? ==>
                  && r.vpnDns.value.serverName != "" && WithoutControls(r.vpnDns.value.serverName)
                  && r.vpnDns.value.path != "" && r.vpnDns.value.path[0] == '/'
                  && Utf8Len(r.vpnDns.value.path) <= 1024 && WithoutControls(r.vpnDns.value.path))
  {
    if r.mode.Tun? && r.tunUpstream.Some? { OwnAlias(r.tunUpstream.value.alias); }
  }

  ghost predicate WithoutControls(s: string) { forall i :: 0 <= i < |s| ==> !IsControl(s[i]) }

  // An alias of an adapter that is not RouteDeck's own.
  ghost predicate Nameable(alias: string) {
    && alias != "" && !IsWhite(alias[0]) && !IsWhite(alias[|alias| - 1]) && Utf16Len(alias) <= 256
    && WithoutControls(alias) && Lower(alias) != "routedeck"
  }

  lemma OwnAlias(alias: string)
    ensures IsOwnAlias(alias) <==> Lower(alias) == "routedeck"
  {}

  // A reported fault is one of the request, and none that is looked for earlier.
  ghost predicate FaultIsReal(r: ConfigRequest, fault: ConfigError) {
    match fault
    case InsecureTls => r.requiresApproval && !r.approved
    case BadPorts => !PortsDistinct(r.ports)
    case BadPolicy => !ValidPolicy(r.policy)
    case ProxyMustUseVpn => r.mode.LocalProxy? && (r.policy.default != Vpn || r.policy.apps != [] || r.policy.lan != FollowDefault)
    case UpstreamMissing => r.mode.Tun? && r.tunUpstream.None?
    case BadAlias => r.mode.Tun? && r.tunUpstream.Some? && !Nameable(r.tunUpstream.value.alias)
    case BadUpstreamDns =>
      && r.mode.Tun? && r.tunUpstream.Some? && r.tunUpstream.value.dns.Some?
      && !ValidUpstreamDns(r.tunUpstream.value.dns.value)
    case BadTunAddress =>
      r.mode.Tun? && (!ValidTunAddress(r.mode.settings.ipv4, V4)
                      || (r.mode.settings.ipv6.Some? && !ValidTunAddress(r.mode.settings.ipv6.value, V6)))
    case BadTrafficRules =>
      r.mode.Tun? && (|r.mode.settings.trafficRules| > 32
                      || exists rule :: rule in r.mode.settings.trafficRules && (rule.port == 0 || rule.port == 53))
    case Ipv6AddressMissing => r.mode.Tun? && r.policy.ipv6 == Ipv6Enabled && r.mode.settings.ipv6.None?
    case UpstreamNotAllowed => !r.mode.Tun? && r.tunUpstream.Some?
    case BadVpnDns => r.vpnDns.Some?
    case _ => false
  }

  lemma ReportedFaultIsReal(r: ConfigRequest)
    ensures RequestFault(r).Some? ==> FaultIsReal(r, RequestFault(r).value)
  {
    if r.mode.Tun? { TunFaultIsReal(r); }
  }

  lemma TunFaultIsReal(r: ConfigRequest)
    requires r.mode.Tun?
    ensures var fault := TunFault(r.mode.settings, r.policy.ipv6, r.tunUpstream); fault.Some? ==> FaultIsReal(r, fault.value)
  {
    if r.tunUpstream.Some? { OwnAlias(r.tunUpstream.value.alias); }
  }

  // Generation needs an accepted request, a usable credential, the VPN DNS the policy asks for,
  // and for a bridge a REALITY node and a port.
  lemma GeneratedIff(r: ConfigRequest, bridgePort: Option<nat>)
    ensures Fault(r, bridgePort) == None <==>
            && RequestFault(r) == None
            && r.healthPassword != "" && Utf8Len(r.healthPassword) <= 8192 && WithoutControls(r.healthPassword)
            && (r.policy.dns == DnsVpn ==> r.vpnDns.Some?)
            && (bridgePort.Some? ==> r.protocol.Vless? && r.protocol.reality && bridgePort.value != 0)
  {}

  method ValidateRequest(r: ConfigRequest) returns (fault: Option<ConfigError>)
    ensures fault == RequestFault(r)
    ensures fault.Some? ==> FaultIsReal(r, fault.value)
  {
    ReportedFaultIsReal(r);
    if r.requiresApproval && !r.approved { return Some(InsecureTls); }
    if !PortsDistinct(r.ports) { return Some(BadPorts); }
    var policyFault := Validate(r.policy);
    if policyFault.Some? { return Some(BadPolicy); }
    if r.mode.LocalProxy? && (r.policy.default != Vpn || r.policy.apps != [] || r.policy.lan != FollowDefault) {
      return Some(ProxyMustUseVpn);
    }
    if r.mode.Tun? {
      fault := TunFault(r.mode.settings, r.policy.ipv6, r.tunUpstream);
      if fault.Some? { return; }
    } else if r.tunUpstream.Some? {
      return Some(UpstreamNotAllowed);
    }
    if r.vpnDns.Some? && !ValidVpnDns(r.vpnDns.value) { return Some(BadVpnDns); }
    return None;
  }

  // ---- Closing checks ---------------------------------------------------

  function OutTag(outbound: Outbound): OutboundTag { outbound.tag }
  function InTag(inbound: Inbound): InboundTag { inbound.tag }
  function DnsServerTag(server: DnsServer): DnsTag { server.tag }

  function Find<T, K(==)>(xs: seq<T>, tagOf: T -> K, tag: K): Option<T> {
    if xs == [] then None else if tagOf(xs[0]) == tag then Some(xs[0]) else Find(xs[1..], tagOf, tag)
  }

  function FindOutbound(outbounds: seq<Outbound>, tag: OutboundTag): Option<Outbound> {
    Find(outbounds, OutTag, tag)
  }

  function FindInbound(inbounds: seq<Inbound>, tag: InboundTag): Option<Inbound> {
    Find(inbounds, InTag, tag)
  }

  function FindDns(servers: seq<DnsServer>, tag: DnsTag): Option<DnsServer> {
    Find(servers, DnsServerTag, tag)
  }

  predicate MentionsHealth(rule: Rule) {
    rule.inbounds.Some? && HealthIn in rule.inbounds.value
  }

  predicate NoDirectHealth(config: Config) {
    var selected, health := FindOutbound(config.outbounds, Selected), FindInbound(config.inbounds, HealthIn);
    && selected.Some? && !selected.value.kind.DirectOutbound? && !selected.value.kind.BlockOutbound?
    && health.Some? && health.value.loopback && health.value.users > 0
    && |config.rules| > 0 && MentionsHealth(config.rules[0]) && config.rules[0].action == RouteTo(Selected)
    && forall i :: 1 <= i < |config.rules| ==> !MentionsHealth(config.rules[i])
  }

  predicate TunOwnPrefixGuard(config: Config, expected: seq<Cidr>) {
    var tun := FindInbound(config.inbounds, TunIn);
    && tun.Some? && OwnPrefixes(tun.value.addresses) == Some(expected)
    && |config.rules| > 2 && config.rules[1] == TunDnsHijackRule()
    && config.rules[2].cidrs == Some(expected) && config.rules[2].inbounds == Some([TunIn])
    && config.rules[2].action == Drop
  }

  predicate TunUpstreamBinding(config: Config, alias: string, bridge: bool) {
    var selected, direct, bootstrap :=
      FindOutbound(config.outbounds, Selected), FindOutbound(config.outbounds, DirectOut), FindDns(config.dnsServers, Bootstrap);
    && !config.autoDetectInterface && selected.Some? && direct.Some? && bootstrap.Some?
    && if bridge then
         && selected.value.kind == SocksOutbound && selected.value.loopbackServer && selected.value.bindInterface == None
         && config.defaultInterface == None
         && direct.value.bindInterface == Some(alias) && bootstrap.value.bindInterface == Some(alias)
       else
         && config.defaultInterface == Some(alias)
         && selected.value.bindInterface == None && direct.value.bindInterface == None
         && (bootstrap.value.bindInterface == None
             || (bootstrap.value.kind == TcpDns && bootstrap.value.bindInterface == Some(alias)))
  }

  // ---- Generation -------------------------------------------------------

  function AliasOf(r: ConfigRequest): Option<string> {
    if r.tunUpstream.Some? then Some(r.tunUpstream.value.alias) else None
  }

  function InboundsFor(r: ConfigRequest): seq<Inbound> {
    [Inbound(HttpInbound, HttpIn, true, r.ports.http, 0, [], None),
     Inbound(SocksInbound, SocksIn, true, r.ports.socks, 0, [], None),
     Inbound(HttpInbound, HealthIn, true, r.ports.health, 1, [], None)]
    + if r.mode.Tun? then
        [Inbound(TunInbound, TunIn, false, 0, 0, OwnAddresses(r.mode.settings, r.policy.ipv6), Some(r.mode.settings.stack))]
      else []
  }

  function SelectedFor(r: ConfigRequest, bridge: bool): Outbound {
    var resolver := if r.policy.dns == DnsVpn then Some(Bootstrap) else None;
    if bridge then Outbound(SocksOutbound, Selected, true, None, resolver, false)
    else
      Outbound(match r.protocol case Vless(_) => VlessOutbound case Hysteria2 => Hysteria2Outbound case Naive => NaiveOutbound,
               Selected, false, None, resolver, r.protocol == Naive && r.naiveUdpOverTcp)
  }

  function DirectFor(r: ConfigRequest, bridge: bool): Outbound {
    Outbound(DirectOutbound, DirectOut, false, if bridge then AliasOf(r) else None, None, false)
  }

  function BootstrapFor(r: ConfigRequest, bridge: bool): DnsServer {
    var tcp := r.mode.Tun? && r.tunUpstream.Some? && r.tunUpstream.value.dns.Some?;
    DnsServer(if tcp then TcpDns else LocalDns, Bootstrap, if tcp || bridge then AliasOf(r) else None, None)
  }

  function RemoteServer(): DnsServer { DnsServer(HttpsDns, RemoteDns, None, Some(Selected)) }

  function DnsServersFor(r: ConfigRequest, bridge: bool): seq<DnsServer> {
    [BootstrapFor(r, bridge)] + if r.policy.dns == DnsVpn then [RemoteServer()] else []
  }

  function ConfigFor(r: ConfigRequest, own: seq<Cidr>, bridge: bool): Config {
    Config(
      DnsServersFor(r, bridge),
      if r.policy.dns == DnsVpn then RemoteDns else Bootstrap, r.policy.ipv6 == Ipv6Disabled,
      InboundsFor(r), [SelectedFor(r, bridge), DirectFor(r, bridge)],
      RulesFor(r.mode, own, r.policy), OutboundFor(r.policy.default),
      if r.mode.Tun? && !bridge then AliasOf(r) else None, false)
  }

  function OwnFor(r: ConfigRequest): Option<seq<Cidr>> {
    if r.mode.Tun? then OwnPrefixes(OwnAddresses(r.mode.settings, r.policy.ipv6)) else Some([])
  }

  // Every way a request can be at fault, in the order the generator looks.
  ghost function Fault(r: ConfigRequest, bridgePort: Option<nat>): Option<ConfigError> {
    if bridgePort.Some? && !(r.protocol.Vless? && r.protocol.reality) then Some(BridgeNeedsReality)
    else if bridgePort == Some(0) then Some(BridgePortZero)
    else if RequestFault(r).Some? then RequestFault(r)
    else if !ValidCredential(r.healthPassword) then Some(BadCredential)
    else if r.policy.dns == DnsVpn && r.vpnDns.None? then Some(VpnDnsMissing)
    else None
  }

  predicate TypedRequest(r: ConfigRequest) {
    r.mode.Tun? ==> r.mode.settings.ipv4.Typed() && (r.mode.settings.ipv6.Some? ==> r.mode.settings.ipv6.value.Typed())
  }

  // Generation fails only for a fault of the request; otherwise every closing check accepts
  // the document, native or through the SOCKS bridge.
  method GenerateConfig(r: ConfigRequest, bridgePort: Option<nat>) returns (result: Result<Config>)
    requires TypedRequest(r)
    ensures Fault(r, bridgePort).Some? ==> result == Err(Fault(r, bridgePort).value)
    ensures Fault(r, bridgePort).None? ==> OwnFor(r).Some? && result == Ok(ConfigFor(r, OwnFor(r).value, bridgePort.Some?))
    ensures result.Ok? ==>
              var alias := if r.tunUpstream.Some? then Some(r.tunUpstream.value.alias) else None;
              && |result.value.outbounds| == 2 && result.value.outbounds[0].tag == Selected
              && result.value.outbounds[1]
                 == Outbound(DirectOutbound, DirectOut, false, if bridgePort.Some? then alias else None, None, false)
              && result.value.defaultInterface == (if r.mode.Tun? && bridgePort.None? then alias else None)
              && !result.value.autoDetectInterface && (result.value.dnsIpv4Only <==> r.policy.ipv6 == Ipv6Disabled)
              && result.value.final == (if r.policy.default == Vpn then Selected else DirectOut)
    ensures bridgePort.Some? && !(r.protocol.Vless? && r.protocol.reality) ==> result == Err(BridgeNeedsReality)
    ensures r.protocol.Vless? && r.protocol.reality && bridgePort == Some(0) ==> result == Err(BridgePortZero)
    ensures result == Err(BadCredential) ==> !ValidCredential(r.healthPassword)
    ensures result == Err(VpnDnsMissing) ==> r.policy.dns == DnsVpn && r.vpnDns.None?
  {
    if bridgePort.Some? && !(r.protocol.Vless? && r.protocol.reality) { return Err(BridgeNeedsReality); }
    if bridgePort == Some(0) { return Err(BridgePortZero); }
    var fault := ValidateRequest(r);
    if fault.Some? { return Err(fault.value); }
    result := GenerateValidated(r, bridgePort.Some?);
  }

  method GenerateValidated(r: ConfigRequest, bridge: bool) returns (result: Result<Config>)
    requires RequestFault(r) == None
    ensures OwnFor(r).Some?
    ensures result == if !ValidCredential(r.healthPassword) then Err(BadCredential)
                      else if r.policy.dns == DnsVpn && r.vpnDns.None? then Err(VpnDnsMissing)
                      else Ok(ConfigFor(r, OwnFor(r).value, bridge))
  {
    OwnAddressesHavePrefixes(r);
    var own := OwnFor(r);
    if own.None? { return Err(BadTunPrefix); }
    if !ValidCredential(r.healthPassword) { return Err(BadCredential); }
    var inbounds := GenerateInbounds(r);
    var dns := GenerateDns(r, bridge);
    if dns.None? { return Err(VpnDnsMissing); }
    var (servers, final, selected) := dns.value;
    OrderedAppsAreValid(r.policy) by { RequestIsValid(r); }
    var rules := GenerateRules(r, own.value);
    if rules.None? { return Err(BadNamePattern); }
    var defaultInterface := None;
    if r.mode.Tun? && !bridge { defaultInterface := AliasOf(r); }
    var direct := Outbound(DirectOutbound, DirectOut, false, None, None, false);
    if bridge && AliasOf(r).Some? { direct := direct.(bindInterface := AliasOf(r)); }
    var root := Config(servers, final, r.policy.ipv6 != Ipv6Enabled, inbounds, [selected, direct], rules.value, OutboundFor(r.policy.default), defaultInterface, false);
    assert direct == DirectFor(r, bridge);
    ClosingChecksAccept(r, own.value, bridge);
    result := Close(r, own.value, bridge, root);
  }

  lemma RequestIsValid(r: ConfigRequest)
    requires RequestFault(r) == None
    ensures ValidPolicy(r.policy) && (r.mode.Tun? ==> r.tunUpstream.Some?)
  {}

  // ---- What the closing checks guarantee --------------------------------

  // Element `i` is the first with the tag.
  ghost predicate First<T(!new), K(!new)>(xs: seq<T>, tagOf: T -> K, tag: K, i: int) {
    0 <= i < |xs| && tagOf(xs[i]) == tag && forall j :: 0 <= j < i ==> tagOf(xs[j]) != tag
  }

  lemma {:induction false} FindsFirst<T(!new), K(!new)>(xs: seq<T>, tagOf: T -> K, tag: K) returns (i: int)
    ensures Find(xs, tagOf, tag).Some? ==> First(xs, tagOf, tag, i) && xs[i] == Find(xs, tagOf, tag).value
    ensures Find(xs, tagOf, tag).None? ==> forall j :: 0 <= j < |xs| ==> tagOf(xs[j]) != tag
  {
    i := 0;
    if xs != [] && tagOf(xs[0]) != tag {
      var k := FindsFirst(xs[1..], tagOf, tag);
      assert forall j :: 0 < j < |xs| ==> xs[j] == xs[1..][j - 1];
      i := k + 1;
    }
  }

  lemma FirstIsFound<T(!new), K(!new)>(xs: seq<T>, tagOf: T -> K, tag: K, i: int)
    requires First(xs, tagOf, tag, i)
    ensures Find(xs, tagOf, tag) == Some(xs[i])
  {
    var k := FindsFirst(xs, tagOf, tag);
  }

  ghost predicate FirstOutbound(config: Config, tag: OutboundTag, i: int) {
    First(config.outbounds, OutTag, tag, i)
  }

  ghost predicate FirstInbound(config: Config, tag: InboundTag, i: int) {
    First(config.inbounds, InTag, tag, i)
  }

  ghost predicate FirstDns(config: Config, tag: DnsTag, i: int) {
    First(config.dnsServers, DnsServerTag, tag, i)
  }

  // The health listener is on loopback and asks for credentials, and its traffic goes through the
  // selected server, by the first rule and no other.
  ghost predicate ProtectsHealth(config: Config) {
    && (exists i :: FirstOutbound(config, Selected, i)
                    && config.outbounds[i].kind != DirectOutbound && config.outbounds[i].kind != BlockOutbound)
    && (exists i :: FirstInbound(config, HealthIn, i) && config.inbounds[i].loopback && config.inbounds[i].users > 0)
    && |config.rules| > 0 && config.rules[0].action == RouteTo(Selected)
    && forall i :: 0 <= i < |config.rules| ==>
         (i == 0 <==> config.rules[i].inbounds.Some? && HealthIn in config.rules[i].inbounds.value)
  }

  // Inside the TUN, DNS is hijacked second and the TUN's own networks are dropped third.
  ghost predicate GuardsTun(config: Config, own: seq<Cidr>) {
    && (exists i :: FirstInbound(config, TunIn, i) && OwnPrefixes(config.inbounds[i].addresses) == Some(own))
    && |config.rules| > 2 && config.rules[1] == TunDnsHijackRule()
    && config.rules[2].cidrs == Some(own) && config.rules[2].inbounds == Some([TunIn]) && config.rules[2].action == Drop
  }

  // Traffic leaves by the adapter `alias`: natively by the default interface, through a bridge by
  // the direct outbound and the bootstrap server, the selected one staying on loopback.
  ghost predicate Binds(config: Config, alias: string, bridge: bool) {
    && !config.autoDetectInterface
    && exists i, j, k ::
         && FirstOutbound(config, Selected, i) && FirstOutbound(config, DirectOut, j) && FirstDns(config, Bootstrap, k)
         && config.outbounds[i].bindInterface == None
         && if bridge then
              && config.outbounds[i].kind == SocksOutbound && config.outbounds[i].loopbackServer && config.defaultInterface == None
              && config.outbounds[j].bindInterface == Some(alias) && config.dnsServers[k].bindInterface == Some(alias)
            else
              && config.defaultInterface == Some(alias) && config.outbounds[j].bindInterface == None
              && (config.dnsServers[k].bindInterface == None
                  || (config.dnsServers[k].bindInterface == Some(alias) && config.dnsServers[k].kind == TcpDns))
  }

  lemma CheckedHealth(config: Config)
    ensures NoDirectHealth(config) <==> ProtectsHealth(config)
  {
    if NoDirectHealth(config) {
      var i := FindsFirst(config.outbounds, OutTag, Selected);
      var j := FindsFirst(config.inbounds, InTag, HealthIn);
    }
    if ProtectsHealth(config) {
      var i :| FirstOutbound(config, Selected, i)
               && config.outbounds[i].kind != DirectOutbound && config.outbounds[i].kind != BlockOutbound;
      var j :| FirstInbound(config, HealthIn, j) && config.inbounds[j].loopback && config.inbounds[j].users > 0;
      FirstIsFound(config.outbounds, OutTag, Selected, i);
      FirstIsFound(config.inbounds, InTag, HealthIn, j);
    }
  }

  lemma CheckedGuard(config: Config, own: seq<Cidr>)
    ensures TunOwnPrefixGuard(config, own) <==> GuardsTun(config, own)
  {
    if TunOwnPrefixGuard(config, own) { var i := FindsFirst(config.inbounds, InTag, TunIn); }
    if GuardsTun(config, own) {
      var i :| FirstInbound(config, TunIn, i) && OwnPrefixes(config.inbounds[i].addresses) == Some(own);
      FirstIsFound(config.inbounds, InTag, TunIn, i);
    }
  }

  lemma CheckedBinding(config: Config, alias: string, bridge: bool)
    ensures TunUpstreamBinding(config, alias, bridge) <==> Binds(config, alias, bridge)
  {
    if TunUpstreamBinding(config, alias, bridge) {
      var i := FindsFirst(config.outbounds, OutTag, Selected);
      var j := FindsFirst(config.outbounds, OutTag, DirectOut);
      var k := FindsFirst(config.dnsServers, DnsServerTag, Bootstrap);
      assert FirstOutbound(config, Selected, i) && FirstOutbound(config, DirectOut, j) && FirstDns(config, Bootstrap, k);
    }
    if Binds(config, alias, bridge) {
      forall i, j, k | FirstOutbound(config, Selected, i) && FirstOutbound(config, DirectOut, j) && FirstDns(config, Bootstrap, k)
        ensures FindOutbound(config.outbounds, Selected) == Some(config.outbounds[i])
        ensures FindOutbound(config.outbounds, DirectOut) == Some(config.outbounds[j])
        ensures FindDns(config.dnsServers, Bootstrap) == Some(config.dnsServers[k])
      {
        FirstIsFound(config.outbounds, OutTag, Selected, i);
        FirstIsFound(config.outbounds, OutTag, DirectOut, j);
        FirstIsFound(config.dnsServers, DnsServerTag, Bootstrap, k);
      }
    }
  }

  // The document is released only when the closing checks accept it.
  method Close(r: ConfigRequest, own: seq<Cidr>, bridge: bool, root: Config) returns (result: Result<Config>)
    requires r.mode.Tun? ==> r.tunUpstream.Some?
    ensures result.Ok? <==> NoDirectHealth(root)
                            && (r.mode.Tun? ==> TunOwnPrefixGuard(root, own)
                                                && TunUpstreamBinding(root, r.tunUpstream.value.alias, bridge))
    ensures result.Ok? ==> result.value == root
    ensures result.Ok? <==> ProtectsHealth(root) && (r.mode.Tun? ==> GuardsTun(root, own) && Binds(root, r.tunUpstream.value.alias, bridge))
  {
    CheckedHealth(root);
    CheckedGuard(root, own);
    if r.mode.Tun? { CheckedBinding(root, r.tunUpstream.value.alias, bridge); }
    if !NoDirectHealth(root) { return Err(HealthUnsafe); }
    if r.mode.Tun? {
      if !TunOwnPrefixGuard(root, own) { return Err(GuardUnsafe); }
      if !TunUpstreamBinding(root, r.tunUpstream.value.alias, bridge) { return Err(BindingUnsafe); }
    }
    return Ok(root);
  }

  // A tag names one inbound, only the TUN is open beyond the loopback interface, and only the
  // health listener asks for credentials; the TUN's addresses are those whose networks are guarded.
  method GenerateInbounds(r: ConfigRequest) returns (inbounds: seq<Inbound>)
    ensures inbounds == InboundsFor(r)
    ensures forall i, j :: 0 <= i < j < |inbounds| ==> inbounds[i].tag != inbounds[j].tag
    ensures forall i :: 0 <= i < |inbounds| ==>
              && inbounds[i].loopback == (inbounds[i].tag != TunIn)
              && (inbounds[i].users > 0 <==> inbounds[i].tag == HealthIn)
    ensures forall i :: 0 <= i < |inbounds| ==>
              && inbounds[i].port == (match inbounds[i].tag
                                      case HttpIn => r.ports.http
                                      case SocksIn => r.ports.socks
                                      case HealthIn => r.ports.health
                                      case TunIn => 0)
              && (inbounds[i].kind == SocksInbound <==> inbounds[i].tag == SocksIn)
              && (inbounds[i].kind == TunInbound <==> inbounds[i].tag == TunIn)
              && inbounds[i].stack == if inbounds[i].tag == TunIn then Some(r.mode.settings.stack) else None
    ensures |inbounds| >= 3 && inbounds[0].tag == HttpIn && inbounds[1].tag == SocksIn && inbounds[2].tag == HealthIn
    ensures (exists i :: 0 <= i < |inbounds| && inbounds[i].tag == TunIn) <==> r.mode.Tun?
    ensures forall i :: 0 <= i < |inbounds| && inbounds[i].tag == TunIn ==> OwnPrefixes(inbounds[i].addresses) == OwnFor(r)
  {
    inbounds := [Inbound(HttpInbound, HttpIn, true, r.ports.http, 0, [], None),
                 Inbound(SocksInbound, SocksIn, true, r.ports.socks, 0, [], None),
                 Inbound(HttpInbound, HealthIn, true, r.ports.health, 1, [], None)];
    if r.mode.Tun? {
      var addresses := [r.mode.settings.ipv4];
      if r.policy.ipv6 == Ipv6Enabled && r.mode.settings.ipv6.Some? {
        addresses := addresses + [r.mode.settings.ipv6.value];
      }
      assert addresses == OwnAddresses(r.mode.settings, r.policy.ipv6);
      inbounds := inbounds + [Inbound(TunInbound, TunIn, false, 0, 0, addresses, Some(r.mode.settings.stack))];
      assert inbounds[3].tag == TunIn;
    }
    assert inbounds[0].tag == HttpIn && inbounds[1].tag == SocksIn && inbounds[2].tag == HealthIn;
  }

  // The DNS servers, the final one, and the selected outbound with its resolver. With VPN DNS the
  // queries go through the VPN and only the VPN server's own name is left to the bootstrap server;
  // otherwise the bootstrap server answers everything.
  method GenerateDns(r: ConfigRequest, bridge: bool) returns (dns: Option<(seq<DnsServer>, DnsTag, Outbound)>)
    ensures dns.None? <==> r.policy.dns == DnsVpn && r.vpnDns.None?
    ensures dns.Some? && r.policy.dns == DnsVpn ==>
              && dns.value.1 == RemoteDns && dns.value.2.domainResolver == Some(Bootstrap)
              && |dns.value.0| == 2 && dns.value.0[0].tag == Bootstrap
              && dns.value.0[1] == DnsServer(HttpsDns, RemoteDns, None, Some(Selected))
    ensures dns.Some? && r.policy.dns == CurrentNetwork ==>
              dns.value.1 == Bootstrap && dns.value.2.domainResolver == None && |dns.value.0| == 1 && dns.value.0[0].tag == Bootstrap
    ensures dns.Some? ==>
              var bootstrap, upstream := dns.value.0[0], r.mode.Tun? && r.tunUpstream.Some? && r.tunUpstream.value.dns.Some?;
              && bootstrap.detour == None && (bootstrap.kind == TcpDns <==> upstream) && (bootstrap.kind == LocalDns <==> !upstream)
              && bootstrap.bindInterface == if (upstream || bridge) && r.tunUpstream.Some? then Some(r.tunUpstream.value.alias) else None
    ensures dns.Some? ==>
              var selected := dns.value.2;
              && selected.tag == Selected && selected.bindInterface == None
              && (bridge <==> selected.kind == SocksOutbound) && (bridge <==> selected.loopbackServer)
              && (!bridge ==> (selected.kind == VlessOutbound <==> r.protocol.Vless?)
                              && (selected.kind == Hysteria2Outbound <==> r.protocol == Hysteria2)
                              && (selected.kind == NaiveOutbound <==> r.protocol == Naive))
              && (selected.udpOverTcp <==> !bridge && r.protocol == Naive && r.naiveUdpOverTcp)
    ensures dns == if r.policy.dns == DnsVpn && r.vpnDns.None? then None
                   else Some((DnsServersFor(r, bridge), if r.policy.dns == DnsVpn then RemoteDns else Bootstrap, SelectedFor(r, bridge)))
  {
    var selected := SelectedFor(r, bridge).(domainResolver := None);
    var bootstrap := DnsServer(LocalDns, Bootstrap, None, None);
    if r.mode.Tun? && r.tunUpstream.Some? && r.tunUpstream.value.dns.Some? {
      bootstrap := DnsServer(TcpDns, Bootstrap, AliasOf(r), None);
    }
    if bridge && AliasOf(r).Some? { bootstrap := bootstrap.(bindInterface := AliasOf(r)); }
    var servers, final := [bootstrap], Bootstrap;
    if r.policy.dns == DnsVpn {
      if r.vpnDns.None? { return None; }
      selected := selected.(domainResolver := Some(Bootstrap));
      servers, final := servers + [RemoteServer()], RemoteDns;
    }
    assert bootstrap == BootstrapFor(r, bridge) && servers == DnsServersFor(r, bridge);
    return Some((servers, final, selected));
  }

  method AddTrafficRules(head: seq<Rule>, traffic: seq<TrafficRule>) returns (rules: seq<Rule>)
    ensures rules == head + TrafficRulesOf(traffic)
  {
    rules := head;
    for i := 0 to |traffic|
      invariant rules == head + TrafficRulesOf(traffic[..i])
    {
      assert traffic[..i + 1][..i] == traffic[..i];
      rules := rules + [TrafficRuleOf(traffic[i])];
    }
    assert traffic[..|traffic|] == traffic;
  }

  // The rule for one application; the pattern printer refuses no validated name.
  method GenerateAppRule(app: AppRoute) returns (generated: Option<Rule>)
    requires app.matchBy == ByName ==> ValidExecutableName(NameOf(app))
    ensures generated == Some(AppRule(app))
  {
    var rule := Unconditional(RouteTo(OutboundFor(app.action)));
    match app.matchBy {
      case ByPath => rule := rule.(processPath := Some(NativePath(app)));
      case ByName =>
        var pattern := ExecutableNamePattern(NameOf(app));
        if pattern.None? { return None; }
        rule := rule.(processRegex := pattern);
    }
    return Some(rule);
  }

  ghost predicate NamesValid(apps: seq<AppRoute>) {
    forall i :: 0 <= i < |apps| ==> apps[i].matchBy == ByName ==> ValidExecutableName(NameOf(apps[i]))
  }

  method AddAppRules(head: seq<Rule>, apps: seq<AppRoute>) returns (generated: Option<seq<Rule>>)
    requires NamesValid(apps)
    ensures generated == Some(head + AppRulesOf(apps))
  {
    var rules := head;
    for i := 0 to |apps|
      invariant rules == head + AppRulesOf(apps[..i])
    {
      var rule := GenerateAppRule(apps[i]);
      if rule.None? { return None; }
      AppRulesPush(apps, i);
      rules := rules + [rule.value];
    }
    assert apps[..|apps|] == apps;
    return Some(rules);
  }

  lemma AppRulesPush(apps: seq<AppRoute>, i: nat)
    requires i < |apps|
    ensures AppRulesOf(apps[..i + 1]) == AppRulesOf(apps[..i]) + [AppRule(apps[i])]
  {
    assert apps[..i + 1][..i] == apps[..i];
  }

  method GenerateRules(r: ConfigRequest, own: seq<Cidr>) returns (generated: Option<seq<Rule>>)
    requires NamesValid(ExactPathsFirst(r.policy.apps))
    ensures generated == Some(RulesFor(r.mode, own, r.policy))
  {
    var rules := [HealthRule()];
    if r.mode.Tun? {
      rules := rules + [TunDnsHijackRule()];
      rules := rules + [OwnPrefixRule(own)];
    }
    if r.policy.ipv6 == Ipv6Disabled { rules := rules + [Ipv6Rule()]; }
    assert rules == [HealthRule()] + TunPart(r.mode, own) + V6Part(r.policy);
    ghost var head := rules;
    if r.mode.Tun? { rules := AddTrafficRules(rules, r.mode.settings.trafficRules); }
    assert rules == head + TrafficPart(r.mode);
    generated := AddAppRules(rules, ExactPathsFirst(r.policy.apps));
    if generated.None? { return; }
    rules := generated.value;
    head := rules;
    if r.policy.lan == LanDirect { rules := rules + [LanRule()]; }
    assert rules == head + LanPart(r.policy);
    assert head == [HealthRule()] + TunPart(r.mode, own) + V6Part(r.policy) + TrafficPart(r.mode) + AppRulesOf(ExactPathsFirst(r.policy.apps));
    return Some(rules);
  }

  lemma OrderedAppsAreValid(policy: Policy)
    requires ValidPolicy(policy)
    ensures NamesValid(ExactPathsFirst(policy.apps))
  {
    forall i | 0 <= i < |ExactPathsFirst(policy.apps)| && ExactPathsFirst(policy.apps)[i].matchBy == ByName
      ensures ValidExecutableName(NameOf(ExactPathsFirst(policy.apps)[i]))
    {
      OrderedAppIsValid(policy, i);
    }
  }

  lemma OrderedAppIsValid(policy: Policy, i: nat)
    requires ValidPolicy(policy) && i < |ExactPathsFirst(policy.apps)| && ExactPathsFirst(policy.apps)[i].matchBy == ByName
    ensures ValidExecutableName(NameOf(ExactPathsFirst(policy.apps)[i]))
  {
    var app := ExactPathsFirst(policy.apps)[i];
    OfKindMembers(policy.apps, ByPath);
    OfKindMembers(policy.apps, ByName);
    assert app in policy.apps;
    var j :| 0 <= j < |policy.apps| && policy.apps[j] == app;
    assert RuleError(policy.apps[j]) == None;
  }

  lemma OwnAddressesHavePrefixes(r: ConfigRequest)
    requires RequestFault(r) == None
    ensures OwnFor(r).Some?
  {
    if r.mode.Tun? {
      var addresses := OwnAddresses(r.mode.settings, r.policy.ipv6);
      assert forall a :: a in addresses ==> a.Cidr? && a.prefix <= a.family.Width();
      PrefixesExist(addresses);
    }
  }

  lemma {:induction false} PrefixesExist(addresses: seq<Cidr>)
    requires forall a :: a in addresses ==> a.Cidr? && a.prefix <= a.family.Width()
    ensures OwnPrefixes(addresses).Some?
  {
    if addresses != [] {
      assert addresses[0] in addresses;
      assert forall a :: a in addresses[1..] ==> a in addresses;
      PrefixesExist(addresses[1..]);
    }
  }

  // ---- Why the closing checks accept ------------------------------------

  ghost predicate HealthFree(rules: seq<Rule>) {
    forall i :: 0 <= i < |rules| ==> !MentionsHealth(rules[i])
  }

  lemma {:induction false} TrafficHealthFree(rules: seq<TrafficRule>)
    ensures HealthFree(TrafficRulesOf(rules))
  {
    if rules != [] { TrafficHealthFree(rules[..|rules| - 1]); }
  }

  lemma {:induction false} AppsHealthFree(apps: seq<AppRoute>)
    ensures HealthFree(AppRulesOf(apps))
  {
    if apps != [] { AppsHealthFree(apps[..|apps| - 1]); }
  }

  lemma HealthFreeConcat(a: seq<Rule>, b: seq<Rule>)
    requires HealthFree(a) && HealthFree(b)
    ensures HealthFree(a + b)
  {}

  lemma RestHealthFree(mode: CaptureMode, own: seq<Cidr>, policy: Policy)
    ensures HealthFree(TunPart(mode, own) + V6Part(policy) + TrafficPart(mode)
                       + AppRulesOf(ExactPathsFirst(policy.apps)) + LanPart(policy))
  {
    var tun, v6, traffic, apps :=
      TunPart(mode, own), V6Part(policy), TrafficPart(mode), AppRulesOf(ExactPathsFirst(policy.apps));
    AppsHealthFree(ExactPathsFirst(policy.apps));
    if mode.Tun? { TrafficHealthFree(mode.settings.trafficRules); }
    TunPartHealthFree(mode, own);
    HealthFreeConcat(tun, v6);
    HealthFreeConcat(tun + v6, traffic);
    HealthFreeConcat(tun + v6 + traffic, apps);
    HealthFreeConcat(tun + v6 + traffic + apps, LanPart(policy));
  }

  lemma TunPartHealthFree(mode: CaptureMode, own: seq<Cidr>)
    ensures HealthFree(TunPart(mode, own))
  {}

  lemma FirstThenRest(a: Rule, b: seq<Rule>, c: seq<Rule>, d: seq<Rule>, e: seq<Rule>, f: seq<Rule>)
    ensures [a] + b + c + d + e + f == [a] + (b + c + d + e + f)
  {}

  // Health comes first and nothing later mentions it; in TUN mode the hijack and the guard follow it.
  lemma RulesHealthFree(mode: CaptureMode, own: seq<Cidr>, policy: Policy)
    ensures RulesFor(mode, own, policy) != [] && RulesFor(mode, own, policy)[0] == HealthRule()
    ensures HealthFree(RulesFor(mode, own, policy)[1..])
    ensures mode.Tun? ==> |RulesFor(mode, own, policy)| > 2
                          && RulesFor(mode, own, policy)[1] == TunDnsHijackRule() && RulesFor(mode, own, policy)[2] == OwnPrefixRule(own)
  {
    var v6, traffic, apps, lan := V6Part(policy), TrafficPart(mode), AppRulesOf(ExactPathsFirst(policy.apps)), LanPart(policy);
    FirstThenRest(HealthRule(), TunPart(mode, own), v6, traffic, apps, lan);
    RestHealthFree(mode, own, policy);
    TailAfter(HealthRule(), TunPart(mode, own) + v6 + traffic + apps + lan, RulesFor(mode, own, policy));
    if mode.Tun? { Leading(HealthRule(), TunDnsHijackRule(), OwnPrefixRule(own), v6, traffic, apps, lan); }
  }

  lemma TailAfter(a: Rule, rest: seq<Rule>, all: seq<Rule>)
    requires all == [a] + rest
    ensures all != [] && all[0] == a && all[1..] == rest
  {}

  lemma Leading(a: Rule, b: Rule, c: Rule, d: seq<Rule>, e: seq<Rule>, f: seq<Rule>, g: seq<Rule>)
    ensures |[a] + [b, c] + d + e + f + g| > 2
    ensures ([a] + [b, c] + d + e + f + g)[1] == b && ([a] + [b, c] + d + e + f + g)[2] == c
  {
    var head := [a] + [b, c];
    assert head[1] == b && head[2] == c;
    var all := head + d + e + f + g;
    assert (head + d)[1] == b && (head + d)[2] == c;
    assert (head + d + e)[1] == b && (head + d + e)[2] == c;
    assert (head + d + e + f)[1] == b && (head + d + e + f)[2] == c;
    assert all[1] == b && all[2] == c;
  }

  lemma FindFirstTwo(a: Outbound, b: Outbound)
    requires a.tag == Selected && b.tag == DirectOut
    ensures FindOutbound([a, b], Selected) == Some(a) && FindOutbound([a, b], DirectOut) == Some(b)
  {
    assert [a, b][1..] == [b] && Find([b], OutTag, DirectOut) == Some(b);
  }

  lemma FindStep(first: Inbound, rest: seq<Inbound>, tag: InboundTag)
    ensures FindInbound([first] + rest, tag) == if first.tag == tag then Some(first) else FindInbound(rest, tag)
  {
    assert ([first] + rest)[1..] == rest;
  }

  lemma FindThird(a: Inbound, b: Inbound, c: Inbound, rest: seq<Inbound>, tag: InboundTag)
    requires a.tag == HttpIn && b.tag == SocksIn && c.tag == HealthIn && (tag == HealthIn || tag == TunIn)
    ensures FindInbound([a, b, c] + rest, tag) == if tag == HealthIn then Some(c) else FindInbound(rest, tag)
  {
    assert [a, b, c] + rest == [a] + ([b] + ([c] + rest));
    FindStep(a, [b] + ([c] + rest), tag);
    FindStep(b, [c] + rest, tag);
    FindStep(c, rest, tag);
  }

  lemma ClosingChecksAccept(r: ConfigRequest, own: seq<Cidr>, bridge: bool)
    requires RequestFault(r) == None && OwnFor(r) == Some(own)
    ensures NoDirectHealth(ConfigFor(r, own, bridge))
    ensures r.mode.Tun? ==> r.tunUpstream.Some? && TunOwnPrefixGuard(ConfigFor(r, own, bridge), own)
                            && TunUpstreamBinding(ConfigFor(r, own, bridge), r.tunUpstream.value.alias, bridge)
  {
    RulesHealthFree(r.mode, own, r.policy);
    var config := ConfigFor(r, own, bridge);
    forall i | 1 <= i < |config.rules| ensures !MentionsHealth(config.rules[i]) {
      assert config.rules[i] == config.rules[1..][i - 1];
    }
    FindFirstTwo(SelectedFor(r, bridge), DirectFor(r, bridge));
    var fixed := InboundsFor(r);
    FindThird(fixed[0], fixed[1], fixed[2], fixed[3..], HealthIn);
    FindThird(fixed[0], fixed[1], fixed[2], fixed[3..], TunIn);
    assert fixed == [fixed[0], fixed[1], fixed[2]] + fixed[3..];
    assert config.dnsServers[0] == BootstrapFor(r, bridge);
    assert MentionsHealth(HealthRule()) by { assert [HealthIn][0] == HealthIn; }
  }

  // Whatever the generator returns routes every connection as the policy declares.
  lemma GeneratedConfigMeansPolicy(r: ConfigRequest, bridgePort: Option<nat>, c: Connection)
    requires TypedRequest(r) && Fault(r, bridgePort).None? && AsciiApps(r.policy.apps) && TypedConnection(c)
    ensures OwnFor(r).Some?
    ensures var config := ConfigFor(r, OwnFor(r).value, bridgePort.Some?);
            Decide(config.rules, config.final, c) == Intended(r.mode, r.policy, c)
  {
    OwnAddressesHavePrefixes(r);
    if r.mode.Tun? {
      forall a | a in OwnAddresses(r.mode.settings, r.policy.ipv6) ensures a.Typed() {}
    }
    CompiledRulesMeanPolicy(r.mode, OwnFor(r).value, r.policy, c);
  }
}
