/**
 Routes, upstreams and the choice between them: which model rule a request gets, which configurations are accepted at
 load time, and how an accepted one dispatches. (config/config.go, server/server.go)
 */
module Routing {
  import opened Common
  import opened Glob

  datatype Protocol = Responses | Chat | Anthropic | OtherProtocol(name: string)

  datatype AuthMode = DefaultAuth | Subscription | OtherAuth(name: string)

  datatype Operation = Inference | Compact | OtherOperation(name: string)

  datatype Upstream = Upstream(
    name: string, protocol: Protocol, baseURL: string, path: string, apiKey: string, model: string,
    supportsResponses: bool, responsesPath: string, auth: AuthMode, defaultMaxTokens: int, maxTokensField: string)

  datatype Rule = Rule(match_: string, upstream: string, model: Option<string>)

  datatype Route = Route(path: string, input: Protocol, operation: Operation, rules: seq<Rule>)

  const SUBSCRIPTION_URL := "https://chatgpt.com/backend-api/codex"
  const SUBSCRIPTION_PATH := "/responses"
  const CHAT_SUFFIX := "/chat/completions"

  // ---------- choosing a rule ----------

  predicate IsWildcard(s: string) { '*' in s }

  predicate IsCatchAll(r: Rule) { r.match_ == "" || r.match_ == "*" }

  predicate IsExact(r: Rule) { r.match_ != "" && !IsWildcard(r.match_) }

  predicate IsGlob(r: Rule) { r.match_ != "*" && IsWildcard(r.match_) }

  ghost predicate GlobFits(r: Rule, model: string) { IsGlob(r) && Matches(r.match_, model) }

  predicate ExactFits(r: Rule, model: string) { IsExact(r) && r.match_ == model }

  /** The first of the rules with a property. */
  ghost predicate IsFirst(rules: seq<Rule>, r: Option<Rule>, fits: Rule -> bool) {
    match r
    case Some(m) => exists i :: 0 <= i < |rules| && rules[i] == m && fits(m) && forall j :: 0 <= j < i ==>
        !fits(rules[j])
    case None => forall j :: 0 <= j < |rules| ==> !fits(rules[j])
  }

  ghost function First(rules: seq<Rule>, fits: Rule -> bool): (r: Option<Rule>)
    ensures IsFirst(rules, r, fits)
  {
    if rules == [] then None
    else if fits(rules[0]) then Some(rules[0])
    else
      var r := First(rules[1..], fits);
      assert forall j :: 1 <= j < |rules| ==> rules[j] == rules[1..][j - 1];
      r
  }

  ghost function Exact(model: string): Rule -> bool { (r: Rule) => ExactFits(r, model) }

  ghost function Globbing(model: string): Rule -> bool { (r: Rule) => GlobFits(r, model) }

  ghost function CatchAll(): Rule -> bool { (r: Rule) => IsCatchAll(r) }

  /** Exact names come before globs, and globs before the catch-all; among several the first one counts. */
  ghost function Chosen(rules: seq<Rule>, model: string): Option<Rule> {
    var exact := First(rules, Exact(model));
    if exact.Some? then exact
    else
      var glob := First(rules, Globbing(model));
      if glob.Some? then glob else First(rules, CatchAll())
  }

  lemma {:induction false} FirstIsUnique(rules: seq<Rule>, r: Option<Rule>, fits: Rule -> bool)
    requires IsFirst(rules, r, fits)
    ensures r == First(rules, fits)
  {
    var f := First(rules, fits);
    if r.Some? {
      var i :| 0 <= i < |rules| && rules[i] == r.value && fits(r.value) && forall j :: 0 <= j < i ==> !fits(rules[j]);
      if f.Some? {
        var k :| 0 <= k < |rules| && rules[k] == f.value && fits(f.value) && forall j :: 0 <= j < k ==> !fits(rules[j]);
        assert i == k;
      }
    }
  }

  method Resolve(rules: seq<Rule>, model: string) returns (r: Option<Rule>)
    ensures r == Chosen(rules, model)
  {
    hide GlobFits, ExactFits, IsCatchAll;
    for i := 0 to |rules|
      invariant forall j :: 0 <= j < i ==> !Exact(model)(rules[j])
    {
      var m := rules[i];
      if m.match_ != "" && !IsWildcard(m.match_) && m.match_ == model {
        assert Exact(model)(m) by { ExactMeans(m, model); }
        FirstIsUnique(rules, Some(m), Exact(model));
        return Some(m);
      }
      ExactMeans(m, model);
    }
    FirstIsUnique(rules, None, Exact(model));
    for i := 0 to |rules|
      invariant forall j :: 0 <= j < i ==> !Globbing(model)(rules[j])
    {
      var m := rules[i];
      GlobMeans(m, model);
      if m.match_ != "*" && IsWildcard(m.match_) {
        var found := GlobMatch(m.match_, model);
        if found {
          FirstIsUnique(rules, Some(m), Globbing(model));
          return Some(m);
        }
      }
    }
    FirstIsUnique(rules, None, Globbing(model));
    for i := 0 to |rules|
      invariant forall j :: 0 <= j < i ==> !CatchAll()(rules[j])
    {
      var m := rules[i];
      CatchAllMeans(m);
      if m.match_ == "" || m.match_ == "*" {
        FirstIsUnique(rules, Some(m), CatchAll());
        return Some(m);
      }
    }
    FirstIsUnique(rules, None, CatchAll());
    return None;
  }

  lemma ExactMeans(m: Rule, model: string)
    ensures Exact(model)(m) <==> m.match_ != "" && !IsWildcard(m.match_) && m.match_ == model
  {
  }

  lemma GlobMeans(m: Rule, model: string)
    ensures Globbing(model)(m) <==> m.match_ != "*" && IsWildcard(m.match_) && Matches(m.match_, model)
  {
  }

  lemma CatchAllMeans(m: Rule)
    ensures CatchAll()(m) <==> m.match_ == "" || m.match_ == "*"
  {
  }

  // ---------- the order of the rules ----------

  function Globs(rules: seq<Rule>): seq<Rule> {
    if rules == [] then [] else (if IsGlob(rules[0]) then [rules[0]] else []) + Globs(rules[1..])
  }

  /** No exact name twice, at most one catch-all. */
  ghost predicate Unambiguous(rules: seq<Rule>) {
    forall i, j :: 0 <= i < j < |rules| ==> NoClash(rules[i], rules[j])
  }

  predicate NoClash(a: Rule, b: Rule) {
    !(IsExact(a) && IsExact(b) && a.match_ == b.match_) && !(IsCatchAll(a) && IsCatchAll(b))
  }

  lemma {:induction false} FirstGlobOf(rules: seq<Rule>, model: string)
    ensures First(rules, Globbing(model)) == First(Globs(rules), Globbing(model))
  {
    hide GlobFits;
    if rules != [] {
      FirstGlobOf(rules[1..], model);
      GlobMeans(rules[0], model);
      var head := if IsGlob(rules[0]) then [rules[0]] else [];
      assert Globs(rules) == head + Globs(rules[1..]);
      if IsGlob(rules[0]) {
        assert Globs(rules)[1..] == Globs(rules[1..]);
      } else {
        assert Globs(rules) == Globs(rules[1..]);
      }
    }
  }

  /** With one candidate at most, the first candidate does not depend on the order. */
  lemma FirstOfOne(a: seq<Rule>, b: seq<Rule>, fits: Rule -> bool)
    requires multiset(a) == multiset(b)
    requires forall x, y :: x in a && y in a && fits(x) && fits(y) ==> x == y
    ensures First(a, fits) == First(b, fits)
  {
    assert forall x :: x in a <==> x in multiset(a);
    assert forall x :: x in b <==> x in multiset(b);
    var f, g := First(a, fits), First(b, fits);
    if f.Some? { assert f.value in b; }
    if g.Some? { assert g.value in a; }
  }

  lemma ClashingIsSame(rules: seq<Rule>, x: Rule, y: Rule)
    requires Unambiguous(rules) && x in rules && y in rules && !NoClash(x, y)
    ensures x == y
  {
    hide IsExact, IsCatchAll;
    var i :| 0 <= i < |rules| && rules[i] == x;
    var j :| 0 <= j < |rules| && rules[j] == y;
  }

  /** The chosen rule is the same for any reordering of the rules that keeps the globs in their order. */
  lemma OrderInvariance(a: seq<Rule>, b: seq<Rule>, model: string)
    requires multiset(a) == multiset(b) && Globs(a) == Globs(b) && Unambiguous(a)
    ensures Chosen(a, model) == Chosen(b, model)
  {
    hide GlobFits, First;
    forall x, y | x in a && y in a && Exact(model)(x) && Exact(model)(y) ensures x == y {
      ClashingIsSame(a, x, y);
    }
    FirstOfOne(a, b, Exact(model));
    forall x, y | x in a && y in a && CatchAll()(x) && CatchAll()(y) ensures x == y {
      ClashingIsSame(a, x, y);
    }
    FirstOfOne(a, b, CatchAll());
    FirstGlobOf(a, model);
    FirstGlobOf(b, model);
  }

  // ---------- accepted configurations ----------

  predicate KnownProtocol(p: Protocol) { !p.OtherProtocol? }

  /** What a Codex subscription upstream must look like. */
  predicate SubscriptionFits(u: Upstream) {
    && u.defaultMaxTokens == 0 && u.protocol == Responses && u.baseURL == SUBSCRIPTION_URL
    && u.path == SUBSCRIPTION_PATH
    && u.apiKey == "" && u.model == "" && !u.supportsResponses && u.responsesPath == ""
  }

  predicate UpstreamFits(u: Upstream) {
    && u.name != "" && u.baseURL != "" && u.path != "" && u.defaultMaxTokens >= 0
    && KnownProtocol(u.protocol) && !u.auth.OtherAuth?
    && (u.maxTokensField != "" ==> u.protocol == Chat && u.maxTokensField in ["max_completion_tokens", "max_tokens"])
    && (u.supportsResponses ==> u.protocol == Chat && (u.responsesPath != "" || HasSuffix(u.path, CHAT_SUFFIX)))
    && (u.responsesPath != "" ==> u.supportsResponses && HasPrefix(u.responsesPath, "/"))
    && (u.auth == Subscription ==> SubscriptionFits(u))
  }

  ghost predicate UpstreamsFit(us: seq<Upstream>) {
    && us != []
    && (forall i :: 0 <= i < |us| ==> UpstreamFits(us[i]))
    && (forall i, j :: 0 <= i < j < |us| ==> us[i].name != us[j].name)
  }

  predicate Convertible(input: Protocol, upstream: Protocol) {
    input == upstream || (input == Responses && upstream == Chat)
  }

  /** A rule of a route names a defined upstream the route can talk to. */
  predicate RuleFits(byName: map<string, Upstream>, r: Route, m: Rule) {
    && m.upstream != "" && m.upstream in byName
    && Convertible(r.input, byName[m.upstream].protocol)
    && (byName[m.upstream].auth == Subscription ==> r.input == Responses && m.model == Some(""))
  }

  predicate IsSubscription(byName: map<string, Upstream>, m: Rule) {
    m.upstream in byName && byName[m.upstream].auth == Subscription
  }

  ghost predicate RouteFits(byName: map<string, Upstream>, r: Route) {
    && HasPrefix(r.path, "/") && KnownProtocol(r.input) && !r.operation.OtherOperation?
    && (r.operation == Compact ==> r.input == Responses)
    && r.rules != [] && Unambiguous(r.rules)
    && (forall i :: 0 <= i < |r.rules| ==> RuleFits(byName, r, r.rules[i]))
    && (if exists i :: 0 <= i < |r.rules| && IsSubscription(byName, r.rules[i])
        then |r.rules| == 1 && r.rules[0].match_ == "*" else r.operation != Compact)
  }

  ghost predicate RoutesFit(byName: map<string, Upstream>, rs: seq<Route>) {
    && rs != []
    && (forall i :: 0 <= i < |rs| ==> RouteFits(byName, rs[i]))
    && (forall i, j :: 0 <= i < j < |rs| ==> rs[i].path != rs[j].path)
  }

  /** The map from names to upstreams. */
  ghost predicate Names(byName: map<string, Upstream>, us: seq<Upstream>) {
    && (forall i :: 0 <= i < |us| ==> us[i].name in byName && byName[us[i].name] == us[i])
    && (forall n :: n in byName ==> byName[n].name == n && byName[n] in us)
  }

  ghost predicate ConfigFits(us: seq<Upstream>, rs: seq<Route>) {
    UpstreamsFit(us) && forall byName :: Names(byName, us) ==> RoutesFit(byName, rs)
  }

  lemma NamesOnce(a: map<string, Upstream>, b: map<string, Upstream>, us: seq<Upstream>)
    requires Names(a, us) && Names(b, us)
    ensures a == b
  {
  }

  method CheckSubscription(u: Upstream) returns (ok: bool)
    ensures ok <==> SubscriptionFits(u)
  {
    if u.defaultMaxTokens != 0 { return false; }
    if u.protocol != Responses { return false; }
    if u.baseURL != SUBSCRIPTION_URL { return false; }
    if u.path != SUBSCRIPTION_PATH { return false; }
    if u.apiKey != "" { return false; }
    if u.model != "" { return false; }
    if u.supportsResponses || u.responsesPath != "" { return false; }
    return true;
  }

  method CheckUpstream(u: Upstream) returns (ok: bool)
    requires u.name != ""
    ensures ok <==> UpstreamFits(u)
  {
    hide SubscriptionFits;
    if u.defaultMaxTokens < 0 { return false; }
    if u.maxTokensField != "" {
      if u.protocol != Chat { return false; }
      if u.maxTokensField != "max_completion_tokens" && u.maxTokensField != "max_tokens" { return false; }
    }
    if !KnownProtocol(u.protocol) { return false; }
    if u.auth.OtherAuth? { return false; }
    if u.baseURL == "" { return false; }
    if u.path == "" { return false; }
    if u.supportsResponses && u.protocol != Chat { return false; }
    if u.responsesPath != "" && !u.supportsResponses { return false; }
    if u.supportsResponses && u.responsesPath == "" && !HasSuffix(u.path, CHAT_SUFFIX) { return false; }
    if u.responsesPath != "" && !HasPrefix(u.responsesPath, "/") { return false; }
    if u.auth == Subscription {
      ok := CheckSubscription(u);
      return;
    }
    return true;
  }

  method CheckUpstreams(us: seq<Upstream>) returns (ok: bool, byName: map<string, Upstream>)
    ensures ok <==> UpstreamsFit(us)
    ensures ok ==> Names(byName, us)
  {
    hide UpstreamFits, Names;
    byName := map[];
    NoNames();
    if |us| == 0 {
      return false, byName;
    }
    assert us[..0] == [];
    for i := 0 to |us|
      invariant Names(byName, us[..i])
      invariant forall j :: 0 <= j < i ==> UpstreamFits(us[j])
      invariant forall j, k :: 0 <= j < k < i ==> us[j].name != us[k].name
    {
      var u := us[i];
      if u.name == "" {
        NamelessUpstream(u);
        return false, byName;
      }
      if u.name in byName {
        SameName(byName, us, i);
        return false, byName;
      }
      var fits := CheckUpstream(u);
      if !fits {
        return false, byName;
      }
      FreshName(byName, us, i);
      NamesMore(byName, us[..i], u);
      assert us[..i + 1] == us[..i] + [u];
      byName := byName[u.name := u];
    }
    assert us[..|us|] == us;
    return true, byName;
  }

  lemma NoNames()
    ensures Names(map[], [])
  {
  }

  lemma SameName(byName: map<string, Upstream>, us: seq<Upstream>, i: nat)
    requires i < |us| && Names(byName, us[..i]) && us[i].name in byName
    ensures exists j :: 0 <= j < i && us[j].name == us[i].name
  {
    var j :| 0 <= j < i && us[..i][j] == byName[us[i].name];
    assert us[j].name == us[i].name;
  }

  lemma FreshName(byName: map<string, Upstream>, us: seq<Upstream>, i: nat)
    requires i < |us| && Names(byName, us[..i]) && us[i].name !in byName
    ensures forall j :: 0 <= j < i ==> us[j].name != us[i].name
  {
    forall j | 0 <= j < i ensures us[j].name != us[i].name { assert us[..i][j] == us[j]; }
  }

  lemma NamelessUpstream(u: Upstream)
    requires u.name == ""
    ensures !UpstreamFits(u)
  {
  }

  lemma NamesMore(byName: map<string, Upstream>, us: seq<Upstream>, u: Upstream)
    requires Names(byName, us) && u.name !in byName
    ensures Names(byName[u.name := u], us + [u])
  {
    var more := byName[u.name := u];
    forall n | n in more ensures more[n].name == n && more[n] in us + [u] {
      if n != u.name { assert byName[n] in us; }
    }
  }

  method CheckRules(byName: map<string, Upstream>, r: Route) returns (ok: bool)
    requires r.rules != []
    ensures ok <==>
      && Unambiguous(r.rules)
      && (forall i :: 0 <= i < |r.rules| ==> RuleFits(byName, r, r.rules[i]))
      && (if exists i :: 0 <= i < |r.rules| && IsSubscription(byName, r.rules[i])
          then |r.rules| == 1 && r.rules[0].match_ == "*" else r.operation != Compact)
  {
    hide IsExact, IsCatchAll, IsSubscription, RuleFits;
    var seenExact: set<string> := {};
    var catchAll := 0;
    var subscriptions := 0;
    for i := 0 to |r.rules|
      invariant 0 <= catchAll && 0 <= subscriptions <= i
      invariant forall j :: 0 <= j < i ==> RuleFits(byName, r, r.rules[j])
      invariant forall s :: s in seenExact <==> exists j :: 0 <= j < i && IsExact(r.rules[j]) && r.rules[j].match_ == s
      invariant forall j, k :: 0 <= j < k < i ==>
                  !(IsExact(r.rules[j]) && IsExact(r.rules[k]) && r.rules[j].match_ == r.rules[k].match_)
      invariant catchAll == 0 <==> forall j :: 0 <= j < i ==> !IsCatchAll(r.rules[j])
      invariant catchAll <= 1 <==> forall j, k :: 0 <= j < k < i ==> !(IsCatchAll(r.rules[j]) && IsCatchAll(r.rules[k]))
      invariant subscriptions == 0 <==> forall j :: 0 <= j < i ==> !IsSubscription(byName, r.rules[j])
    {
      var m := r.rules[i];
      MatchMeans(m);
      var fits := CheckRule(byName, r, m);
      if !fits { return false; }
      if byName[m.upstream].auth == Subscription {
        subscriptions := subscriptions + 1;
      }
      if m.match_ == "" || m.match_ == "*" {
        catchAll := catchAll + 1;
      } else if !IsWildcard(m.match_) {
        if m.match_ in seenExact {
          var j :| 0 <= j < i && IsExact(r.rules[j]) && r.rules[j].match_ == m.match_;
          assert !NoClash(r.rules[j], r.rules[i]);
          return false;
        }
        seenExact := seenExact + {m.match_};
      }
    }
    if catchAll > 1 {
      var j, k :| 0 <= j < k < |r.rules| && IsCatchAll(r.rules[j]) && IsCatchAll(r.rules[k]);
      assert !NoClash(r.rules[j], r.rules[k]);
      return false;
    }
    if subscriptions > 0 {
      if subscriptions != |r.rules| { return false; }
      if |r.rules| != 1 || r.rules[0].match_ != "*" { return false; }
    } else if r.operation == Compact {
      return false;
    }
    return true;
  }

  lemma MatchMeans(m: Rule)
    ensures IsCatchAll(m) <==> m.match_ == "" || m.match_ == "*"
    ensures IsExact(m) <==> !IsCatchAll(m) && !IsWildcard(m.match_)
  {
  }

  method CheckRule(byName: map<string, Upstream>, r: Route, m: Rule) returns (ok: bool)
    ensures ok <==> RuleFits(byName, r, m)
    ensures ok ==> m.upstream in byName && (IsSubscription(byName, m) <==> byName[m.upstream].auth == Subscription)
  {
    if m.upstream == "" { return false; }
    if m.upstream !in byName { return false; }
    var u := byName[m.upstream];
    if u.auth == Subscription {
      if r.input != Responses { return false; }
      if m.model.None? || m.model.value != "" { return false; }
    }
    if r.input != u.protocol && !(r.input == Responses && u.protocol == Chat) { return false; }
    return true;
  }

  method CheckRoute(byName: map<string, Upstream>, r: Route, seenPath: set<string>) returns (ok: bool)
    ensures ok <==> RouteFits(byName, r) && r.path !in seenPath
  {
    hide Unambiguous, RuleFits, IsSubscription;
    if r.path == "" { return false; }
    if !HasPrefix(r.path, "/") { return false; }
    if r.path in seenPath { return false; }
    if !KnownProtocol(r.input) { return false; }
    if r.operation.OtherOperation? { return false; }
    if r.operation == Compact && r.input != Responses { return false; }
    if |r.rules| == 0 { return false; }
    ok := CheckRules(byName, r);
  }

  /** validateConfig: accepts exactly the configurations that fit. */
  method ValidateConfig(us: seq<Upstream>, rs: seq<Route>) returns (ok: bool)
    ensures ok <==> ConfigFits(us, rs)
  {
    hide UpstreamsFit, RouteFits, Names;
    var upstreamsOk, byName := CheckUpstreams(us);
    if !upstreamsOk {
      return false;
    }
    assert ConfigFits(us, rs) <==> RoutesFit(byName, rs) by {
      forall other | Names(other, us) ensures other == byName { NamesOnce(other, byName, us); }
    }
    if |rs| == 0 {
      return false;
    }
    var seenPath: set<string> := {};
    for i := 0 to |rs|
      invariant forall j :: 0 <= j < i ==> RouteFits(byName, rs[j])
      invariant forall p :: p in seenPath <==> exists j :: 0 <= j < i && rs[j].path == p
      invariant forall j, k :: 0 <= j < k < i ==> rs[j].path != rs[k].path
    {
      var fits := CheckRoute(byName, rs[i], seenPath);
      if !fits {
        return false;
      }
      seenPath := seenPath + {rs[i].path};
    }
    return true;
  }

  // ---------- dispatching ----------

  function TrimSuffix(s: string, p: string): string {
    if HasSuffix(s, p) then s[..|s| - |p|] else s
  }

  /** The path of the Responses endpoint of an upstream that has one. */
  function EffectiveResponsesPath(u: Upstream): string {
    if u.responsesPath != "" then u.responsesPath else TrimSuffix(u.path, CHAT_SUFFIX) + "/responses"
  }

  function EffectiveModel(m: Rule, u: Upstream): string {
    if m.model.Some? then m.model.value else u.model
  }

  datatype Handling = Forward | Convert

  /** How a request is served: by which upstream, in which protocol, on which endpoint and for which model. */
  datatype Dispatch = Dispatch(upstream: Upstream, wire: Protocol, viaResponses: bool, handling: Handling,
                               model: string)

  /** The decisions of handleRoute; none when no rule fits the model or its upstream is not defined. */
  method HandleRoute(byName: map<string, Upstream>, r: Route, model: string) returns (d: Option<Dispatch>)
    ensures d.None? <==> Chosen(r.rules, model).None? || Chosen(r.rules, model).value.upstream !in byName
    ensures d.Some? ==> Dispatched(byName, r, model, d.value)
  {
    hide Chosen;
    var rule := Resolve(r.rules, model);
    if rule.None? || rule.value.upstream !in byName {
      return None;
    }
    var u := byName[rule.value.upstream];
    var wire := u.protocol;
    var viaResponses := false;
    if r.input == Responses && u.protocol == Chat && u.supportsResponses {
      wire := Responses;
      viaResponses := true;
    }
    if r.input == wire {
      return Some(Dispatch(u, wire, viaResponses, Forward, EffectiveModel(rule.value, u)));
    }
    return Some(Dispatch(u, wire, viaResponses, Convert, EffectiveModel(rule.value, u)));
  }

  lemma ChosenIsRule(rules: seq<Rule>, model: string)
    ensures Chosen(rules, model).Some? ==> Chosen(rules, model).value in rules
  {
  }

  /** The decision taken for a model: bytes are forwarded when both ends speak one protocol, else converted. */
  ghost predicate Dispatched(byName: map<string, Upstream>, r: Route, model: string, d: Dispatch) {
    var rule := Chosen(r.rules, model);
    && rule.Some? && rule.value.upstream in byName && d.upstream == byName[rule.value.upstream]
    && (d.viaResponses <==> r.input == Responses && d.upstream.protocol == Chat && d.upstream.supportsResponses)
    && d.wire == (if d.viaResponses then Responses else d.upstream.protocol)
    && (d.handling == Forward <==> r.input == d.wire)
    && d.model == EffectiveModel(rule.value, d.upstream)
  }

  /** The Responses endpoint of an upstream that has one: the absolute path it names, or its own path with the Chat
      ending exchanged. */
  ghost predicate HasResponsesPath(u: Upstream) {
    if u.responsesPath != "" then EffectiveResponsesPath(u) == u.responsesPath && HasPrefix(u.responsesPath, "/")
    else exists front: string :: u.path == front + CHAT_SUFFIX && EffectiveResponsesPath(u) == front + "/responses"
  }

  /**
   Dispatch safety. In an accepted configuration every rule chosen names a defined upstream that fits, and whatever is
   not forwarded in the client's own protocol goes from a Responses client to a Chat upstream without a Responses
   endpoint: there is no other conversion. A Responses endpoint that is used is the one the upstream names or its
   Chat path with the ending exchanged. A subscription upstream is only reached by a Responses route with that one rule,
   and passes the client's model through; a compact route only reaches a subscription upstream.
   */
  lemma DispatchSafety(us: seq<Upstream>, rs: seq<Route>, byName: map<string, Upstream>, r: Route, model: string,
                       d: Dispatch)
    requires ConfigFits(us, rs) && Names(byName, us) && r in rs
    ensures Chosen(r.rules, model).Some? ==> Chosen(r.rules, model).value.upstream in byName
    ensures Dispatched(byName, r, model, d) ==>
      && d.upstream in us && UpstreamFits(d.upstream)
      && (d.handling == Convert ==> r.input == Responses && d.wire == Chat && !d.upstream.supportsResponses)
      && (d.viaResponses ==> d.handling == Forward && HasResponsesPath(d.upstream))
      && (d.upstream.auth == Subscription ==>
            d.handling == Forward && r.input == Responses && d.model == "" && |r.rules| == 1)
      && (r.operation == Compact ==> d.upstream.auth == Subscription)
      && (match Chosen(r.rules, model).value.model
          case Some(name) => d.model == name
          case None => d.model == d.upstream.model)
  {
    hide First, IsFirst, HasPrefix, HasSuffix, Chosen, HasResponsesPath;
    assert RoutesFit(byName, rs);
    var k :| 0 <= k < |rs| && rs[k] == r;
    assert RouteFits(byName, rs[k]);
    ChosenIsRule(r.rules, model);
    if Chosen(r.rules, model).Some? {
      var i :| 0 <= i < |r.rules| && r.rules[i] == Chosen(r.rules, model).value;
      assert RuleFits(byName, r, r.rules[i]);
      if Dispatched(byName, r, model, d) {
        var j :| 0 <= j < |us| && us[j] == d.upstream;
        assert UpstreamFits(us[j]);
        if d.viaResponses { ResponsesPathIs(d.upstream); }
        if d.upstream.auth == Subscription { assert IsSubscription(byName, r.rules[i]); }
      }
    }
  }

  lemma ResponsesPathIs(u: Upstream)
    requires UpstreamFits(u) && u.supportsResponses
    ensures HasResponsesPath(u)
  {
    if u.responsesPath == "" {
      var front := TrimSuffix(u.path, CHAT_SUFFIX);
      assert u.path == front + CHAT_SUFFIX;
    }
  }

  /** In an accepted configuration the order of a route's rules matters for its globs only. */
  lemma ReorderedRoute(us: seq<Upstream>, rs: seq<Route>, byName: map<string, Upstream>, r: Route, rules: seq<Rule>,
                       model: string)
    requires ConfigFits(us, rs) && Names(byName, us) && r in rs
    requires multiset(rules) == multiset(r.rules) && Globs(rules) == Globs(r.rules)
    ensures Chosen(rules, model) == Chosen(r.rules, model)
  {
    hide Chosen, Globs;
    assert RoutesFit(byName, rs);
    var k :| 0 <= k < |rs| && rs[k] == r;
    assert RouteFits(byName, rs[k]);
    OrderInvariance(r.rules, rules, model);
  }
}
