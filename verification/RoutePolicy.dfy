// Routing policies and their validation (src-tauri/src/domain.rs:673-781, 1000-1013).
// Names and paths are folded as ASCII.
module RoutePolicy {
  import opened Text
  import opened AppRuleMatching

  datatype Route = Direct | Vpn
  datatype AppMatchBy = ByPath | ByName
  datatype LanPolicy = LanDirect | FollowDefault
  datatype Ipv6Policy = Ipv6Enabled | Ipv6Disabled
  datatype DnsPolicy = DnsVpn | CurrentNetwork

  datatype AppRoute = AppRoute(processPath: string, processName: Option<string>, matchBy: AppMatchBy, action: Route)

  datatype Policy = Policy(default: Route, apps: seq<AppRoute>, lan: LanPolicy, ipv6: Ipv6Policy, dns: DnsPolicy)

  // The text keys "path:..." and "name:..." of the source, as tagged values.
  datatype AppKey = PathKey(text: string) | NameKey(text: string)

  datatype PolicyError =
    | TooManyRules | BadProcessPath | BadProcessName | BadExecutableName | ConflictingActions | DuplicateRule

  const MAX_APP_RULES := 512
  const MAX_PATH_BYTES := 4096

  function CanonicalProcessPath(path: string): string {
    Lower(Backslashed(Trim(path)))
  }

  function KeyOf(app: AppRoute): AppKey {
    match app.matchBy
    case ByPath => PathKey(CanonicalProcessPath(app.processPath))
    case ByName => NameKey(Lower(ExecutableName(Trim(app.processPath))))
  }

  predicate ValidProcessPath(path: string) {
    && path != ""
    && Utf8Len(path) <= MAX_PATH_BYTES
    && !(exists c :: c in path && IsControl(c))
    && ('\\' in path || '/' in path)
  }

  predicate ValidProcessName(name: string) {
    name != "" && Utf8Len(name) <= 260 && !(exists c :: c in name && IsControl(c))
  }

  // What is wrong with a rule by itself.
  function RuleError(app: AppRoute): Option<PolicyError> {
    if !ValidProcessPath(app.processPath) then Some(BadProcessPath)
    else if app.processName.Some? && !ValidProcessName(app.processName.value) then Some(BadProcessName)
    else if app.matchBy == ByName && !ValidExecutableName(ExecutableName(Trim(app.processPath))) then Some(BadExecutableName)
    else None
  }

  ghost predicate NoneFaulty(apps: seq<AppRoute>, fault: AppRoute -> Option<PolicyError>) {
    forall i :: 0 <= i < |apps| ==> fault(apps[i]) == None
  }

  ghost predicate ValidApps(apps: seq<AppRoute>) {
    NoneFaulty(apps, RuleError) && DistinctBy(apps, KeyOf)
  }

  ghost predicate ValidPolicy(policy: Policy) {
    |policy.apps| <= MAX_APP_RULES && ValidApps(policy.apps)
  }

  // Rule `j` is at fault for `e`: by itself, or by repeating the key of an earlier rule.
  ghost predicate Offends(apps: seq<AppRoute>, fault: AppRoute -> Option<PolicyError>, key: AppRoute -> AppKey,
                          j: nat, e: PolicyError)
    requires j < |apps|
  {
    fault(apps[j]) == Some(e)
    || (fault(apps[j]) == None
        && exists i :: 0 <= i < j && key(apps[i]) == key(apps[j])
             && e == if apps[i].action != apps[j].action then ConflictingActions else DuplicateRule)
  }

  lemma OffendingIsInvalid(apps: seq<AppRoute>, fault: AppRoute -> Option<PolicyError>, key: AppRoute -> AppKey,
                           j: nat, e: PolicyError)
    requires j < |apps| && Offends(apps, fault, key, j, e)
    ensures !(NoneFaulty(apps, fault) && DistinctBy(apps, key))
  {}

  lemma AcceptNext(apps: seq<AppRoute>, app: AppRoute, fault: AppRoute -> Option<PolicyError>)
    requires NoneFaulty(apps, fault) && fault(app) == None
    ensures NoneFaulty(apps + [app], fault)
  {}

  // The keys seen so far, each with the rule it came from.
  ghost predicate Seen(apps: seq<AppRoute>, key: AppRoute -> AppKey, actions: map<AppKey, Route>, first: map<AppKey, nat>)
  {
    && actions.Keys == first.Keys
    && (forall i :: 0 <= i < |apps| ==> key(apps[i]) in actions)
    && forall k :: k in actions ==> first[k] < |apps| && key(apps[first[k]]) == k
                                    && actions[k] == apps[first[k]].action
  }

  lemma SeenNext(apps: seq<AppRoute>, app: AppRoute, key: AppRoute -> AppKey,
                 actions: map<AppKey, Route>, first: map<AppKey, nat>)
    requires Seen(apps, key, actions, first) && key(app) !in actions
    ensures Seen(apps + [app], key, actions[key(app) := app.action], first[key(app) := |apps|])
    ensures forall i :: 0 <= i < |apps| ==> key(apps[i]) != key(app)
  {}

  // What the validation loop knows after `j` accepted rules.
  ghost predicate Accepted(apps: seq<AppRoute>, fault: AppRoute -> Option<PolicyError>, key: AppRoute -> AppKey, j: nat,
                           actions: map<AppKey, Route>, first: map<AppKey, nat>)
  {
    j <= |apps| && NoneFaulty(apps[..j], fault) && DistinctBy(apps[..j], key) && Seen(apps[..j], key, actions, first)
  }

  lemma Advance(apps: seq<AppRoute>, fault: AppRoute -> Option<PolicyError>, key: AppRoute -> AppKey, j: nat,
                actions: map<AppKey, Route>, first: map<AppKey, nat>, k: AppKey)
    requires Accepted(apps, fault, key, j, actions, first) && j < |apps|
    requires fault(apps[j]) == None && k == key(apps[j]) && k !in actions
    ensures Accepted(apps, fault, key, j + 1, actions[k := apps[j].action], first[k := j])
  {
    assert apps[..j + 1] == apps[..j] + [apps[j]];
    AcceptNext(apps[..j], apps[j], fault);
    SeenNext(apps[..j], apps[j], key, actions, first);
    DistinctPush(apps[..j], apps[j], key);
  }

  lemma Reject(apps: seq<AppRoute>, fault: AppRoute -> Option<PolicyError>, key: AppRoute -> AppKey, j: nat,
               actions: map<AppKey, Route>, first: map<AppKey, nat>, k: AppKey)
    requires Accepted(apps, fault, key, j, actions, first) && j < |apps|
    requires fault(apps[j]) == None && k == key(apps[j]) && k in actions
    ensures Offends(apps, fault, key, j, if actions[k] != apps[j].action then ConflictingActions else DuplicateRule)
  {
    assert apps[..j][first[k]] == apps[first[k]];
  }

  lemma AllAccepted(apps: seq<AppRoute>, fault: AppRoute -> Option<PolicyError>, key: AppRoute -> AppKey,
                    actions: map<AppKey, Route>, first: map<AppKey, nat>)
    requires Accepted(apps, fault, key, |apps|, actions, first)
    ensures NoneFaulty(apps, fault) && DistinctBy(apps, key)
  {
    assert apps[..|apps|] == apps;
  }

  // A rule the backend takes by itself: a path of at most 4096 bytes with a separator and no
  // control character, a file name of at most 260 bytes, and for a rule by name one that can run.
  ghost predicate Sound(app: AppRoute) {
    && app.processPath != "" && Utf8Len(app.processPath) <= 4096
    && (forall c :: c in app.processPath ==> !IsControl(c))
    && (exists c :: c in app.processPath && (c == '\\' || c == '/'))
    && (app.processName.Some? ==>
          && app.processName.value != "" && Utf8Len(app.processName.value) <= 260
          && forall c :: c in app.processName.value ==> !IsControl(c))
    && (app.matchBy == ByName ==> ValidExecutableName(ExecutableName(Trim(app.processPath))))
  }

  // Two rules are about the same program.
  ghost predicate SameProgram(a: AppRoute, b: AppRoute) {
    && a.matchBy == b.matchBy
    && if a.matchBy == ByPath then Lower(Backslashed(Trim(a.processPath))) == Lower(Backslashed(Trim(b.processPath)))
       else Lower(ExecutableName(Trim(a.processPath))) == Lower(ExecutableName(Trim(b.processPath)))
  }

  lemma SoundIff(app: AppRoute)
    ensures RuleError(app) == None <==> Sound(app)
  {}

  lemma SameProgramIff(a: AppRoute, b: AppRoute)
    ensures KeyOf(a) == KeyOf(b) <==> SameProgram(a, b)
  {}

  // A valid policy has at most 512 rules, each sound, no two about the same program.
  lemma ValidPolicyIff(policy: Policy)
    ensures ValidPolicy(policy) <==>
            && |policy.apps| <= 512 && (forall i :: 0 <= i < |policy.apps| ==> Sound(policy.apps[i]))
            && forall i, j :: 0 <= i < j < |policy.apps| ==> !SameProgram(policy.apps[i], policy.apps[j])
  {
    forall i | 0 <= i < |policy.apps| ensures RuleError(policy.apps[i]) == None <==> Sound(policy.apps[i]) {
      SoundIff(policy.apps[i]);
    }
    forall i, j | 0 <= i < j < |policy.apps|
      ensures KeyOf(policy.apps[i]) == KeyOf(policy.apps[j]) <==> SameProgram(policy.apps[i], policy.apps[j])
    {
      SameProgramIff(policy.apps[i], policy.apps[j]);
    }
  }

  // Accepts exactly the valid policies; a rejection names the first offending rule's fault.
  method Validate(policy: Policy) returns (error: Option<PolicyError>)
    ensures error == None <==> ValidPolicy(policy)
    ensures error == None <==>
            && |policy.apps| <= 512 && (forall i :: 0 <= i < |policy.apps| ==> Sound(policy.apps[i]))
            && forall i, j :: 0 <= i < j < |policy.apps| ==> !SameProgram(policy.apps[i], policy.apps[j])
    ensures |policy.apps| > MAX_APP_RULES ==> error == Some(TooManyRules)
    ensures error.Some? && |policy.apps| <= MAX_APP_RULES ==>
              exists j :: 0 <= j < |policy.apps| && ValidApps(policy.apps[..j])
                          && Offends(policy.apps, RuleError, KeyOf, j, error.value)
  {
    ValidPolicyIff(policy);
    if |policy.apps| > MAX_APP_RULES { return Some(TooManyRules); }
    var actions: map<AppKey, Route> := map[];
    ghost var first: map<AppKey, nat> := map[];
    for j := 0 to |policy.apps|
      invariant Accepted(policy.apps, RuleError, KeyOf, j, actions, first)
    {
      var app := policy.apps[j];
      error := RuleError(app);
      if error.Some? {
        OffendingIsInvalid(policy.apps, RuleError, KeyOf, j, error.value);
        return;
      }
      var key := KeyOf(app);
      if key in actions {
        var previous := actions[key];
        error := Some(if previous != app.action then ConflictingActions else DuplicateRule);
        Reject(policy.apps, RuleError, KeyOf, j, actions, first, key);
        OffendingIsInvalid(policy.apps, RuleError, KeyOf, j, error.value);
        return;
      }
      Advance(policy.apps, RuleError, KeyOf, j, actions, first, key);
      actions, first := actions[key := app.action], first[key := j];
    }
    AllAccepted(policy.apps, RuleError, KeyOf, actions, first);
    return None;
  }

  // Validity does not depend on the order of the rules.
  lemma ValidityIgnoresOrder(a: Policy, b: Policy)
    requires ValidPolicy(a) && multiset(a.apps) == multiset(b.apps)
    ensures ValidPolicy(b)
  {
    SameSize(a.apps, b.apps);
    PermutedNoneFaulty(a.apps, b.apps, RuleError);
    PermutedDistinct(a.apps, b.apps, KeyOf);
  }

  lemma PermutedNoneFaulty(a: seq<AppRoute>, b: seq<AppRoute>, fault: AppRoute -> Option<PolicyError>)
    requires multiset(a) == multiset(b) && NoneFaulty(a, fault)
    ensures NoneFaulty(b, fault)
  {
    forall i | 0 <= i < |b| ensures fault(b[i]) == None { SameElements(a, b, i); }
  }
}
