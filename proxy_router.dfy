/**
 * The plugin's `configureServer` hook: a request middleware and an `upgrade`
 * listener that walk the proxy rule table in order and forward the event
 * with the first eligible rule. Compiling and running the regular
 * expression (`new RegExp(pattern).test(url)`) is the parameter `test`.
 */
module ProxyRouter {
  import opened Wrappers
  import opened JsValues
  import opened PluginOptions

  /** `test(pattern, url)` stands for `new RegExp(pattern).test(url)`. */
  type Matcher = (string, string) -> bool

  /** What a handler does with one event. */
  datatype Action =
    | Forward(index: nat, opts: JsValue)  // hand the event to the proxy with rule `index` and these options
    | Next                                // call `next()` with no argument
    | NoOp                                // leave the event alone

  /** What the callback given to the proxy does when forwarding reports `err`. */
  datatype ErrorReaction = NextWithError(err: JsValue) | Logged(err: JsValue) | Ignored

  /**
   * The handlers `configureServer` registers, each with the rule table it reads:
   * a registered middleware acts on a request as `RequestAction(table, url, test)`,
   * a registered upgrade listener on an upgrade as `UpgradeAction(table, url, test)`.
   */
  datatype Handlers = Handlers(middleware: Option<seq<Rule>>, upgradeListener: Option<seq<Rule>>)

  /** `typeof o === 'object' ? {...o, ws: undefined} : o`: the options handed to the proxy. */
  function ForwardedOptions(o: JsValue): (r: JsValue)
    // `ws` is cleared and every other property reads as before
    ensures Get(r, "ws") == Undefined
    ensures forall name :: name != "ws" ==> Get(r, name) == Get(o, name)
    // objects (and `null`) are copied with an own `ws` property; other values pass through
    ensures TypeofObject(o) ==> r.Object? && "ws" in r.fields
    ensures o.Object? ==> r.Object? && r.fields.Keys == o.fields.Keys + {"ws"}
    ensures o.Null? ==> r == Object(map["ws" := Undefined])
    ensures !TypeofObject(o) ==> r == o
  {
    match o
    case Object(fields) => Object(fields["ws" := Undefined])
    case Null => Object(map["ws" := Undefined])
    case _ => o
  }

  /** `req.url` is truthy: present and non-empty. */
  predicate UrlPresent(url: Option<string>)
  {
    url.Some? && url.value != ""
  }

  /** The middleware's test: `req.url && re.test(req.url)`. */
  predicate RequestEligible(test: Matcher, url: Option<string>, rule: Rule)
  {
    UrlPresent(url) && test(rule.pattern, url.value)
  }

  /** The upgrade listener's test: `req.url && re.test(req.url) && proxyOptions?.ws`. */
  predicate UpgradeEligible(test: Matcher, url: Option<string>, rule: Rule)
  {
    RequestEligible(test, url, rule) && Truthy(Get(rule.options, "ws"))
  }

  /** The index of the first rule, in table order, that `eligible` accepts. */
  function FirstEligible(rules: seq<Rule>, eligible: Rule -> bool): (r: Option<nat>)
    ensures r.Some? ==> r.value < |rules| && eligible(rules[r.value])
    ensures r.Some? ==> forall j :: 0 <= j < r.value ==> !eligible(rules[j])
    ensures r.None? ==> forall j :: 0 <= j < |rules| ==> !eligible(rules[j])
  {
    if rules == [] then None
    else if eligible(rules[0]) then Some(0)
    else
      match FirstEligible(rules[1..], eligible)
      case None => None
      case Some(i) => Some(i + 1)
  }

  /** The middleware's test as a function of the rule. */
  function RequestTest(test: Matcher, url: Option<string>): Rule -> bool
  {
    rule => RequestEligible(test, url, rule)
  }

  /** The upgrade listener's test as a function of the rule. */
  function UpgradeTest(test: Matcher, url: Option<string>): Rule -> bool
  {
    rule => UpgradeEligible(test, url, rule)
  }

  /** What the middleware does with a request, as a function of the table and the URL. */
  function RequestAction(rules: seq<Rule>, url: Option<string>, test: Matcher): Action
  {
    match FirstEligible(rules, RequestTest(test, url))
    case Some(i) => Forward(i, ForwardedOptions(rules[i].options))
    case None => Next
  }

  /** What the upgrade listener does with an upgrade event, as a function of the table and the URL. */
  function UpgradeAction(rules: seq<Rule>, url: Option<string>, test: Matcher): Action
  {
    match FirstEligible(rules, UpgradeTest(test, url))
    case Some(i) => Forward(i, ForwardedOptions(rules[i].options))
    case None => NoOp
  }

  /** `server.middlewares.use(...)` and `server.httpServer?.on('upgrade', ...)`, both only when `options?.proxy` is truthy. */
  function ConfigureServer(options: Options, hasHttpServer: bool): (h: Handlers)
    ensures h.middleware.Some? <==> options.proxy.Some?
    ensures h.upgradeListener.Some? <==> options.proxy.Some? && hasHttpServer
    ensures h.middleware.Some? ==> h.middleware == options.proxy
    ensures h.upgradeListener.Some? ==> h.upgradeListener == options.proxy
  {
    match options.proxy
    case None => Handlers(None, None)
    case Some(rules) => Handlers(Some(rules), if hasHttpServer then Some(rules) else None)
  }

  /** The request middleware: the first rule whose pattern matches a non-empty URL wins; otherwise `next()`. */
  method HandleRequest(rules: seq<Rule>, url: Option<string>, test: Matcher) returns (a: Action)
    ensures a == RequestAction(rules, url, test)
    ensures a.Forward? ==>
      && a.index < |rules|
      && UrlPresent(url)
      && test(rules[a.index].pattern, url.value)
      && a.opts == ForwardedOptions(rules[a.index].options)
    ensures a.Forward? ==> forall j :: 0 <= j < a.index ==> !test(rules[j].pattern, url.value)
    ensures a.Next? <==> !UrlPresent(url) || forall j :: 0 <= j < |rules| ==> !test(rules[j].pattern, url.value)
    ensures !a.NoOp?
  {
    for i := 0 to |rules|
      invariant forall j :: 0 <= j < i ==> !RequestEligible(test, url, rules[j])
    {
      if UrlPresent(url) && test(rules[i].pattern, url.value) {
        return Forward(i, ForwardedOptions(rules[i].options));
      }
    }
    return Next;
  }

  /** The upgrade listener: the first rule that matches and has a truthy `ws` wins; otherwise nothing happens. */
  method HandleUpgrade(rules: seq<Rule>, url: Option<string>, test: Matcher) returns (a: Action)
    ensures a == UpgradeAction(rules, url, test)
    ensures a.Forward? ==>
      && a.index < |rules|
      && UrlPresent(url)
      && test(rules[a.index].pattern, url.value)
      && Truthy(Get(rules[a.index].options, "ws"))
      && a.opts == ForwardedOptions(rules[a.index].options)
    ensures a.Forward? ==>
      forall j :: 0 <= j < a.index ==> !test(rules[j].pattern, url.value) || !Truthy(Get(rules[j].options, "ws"))
    ensures a.NoOp? <==> forall j :: 0 <= j < |rules| ==> !UpgradeEligible(test, url, rules[j])
    ensures !a.Next?
  {
    for i := 0 to |rules|
      invariant forall j :: 0 <= j < i ==> !UpgradeEligible(test, url, rules[j])
    {
      if UrlPresent(url) && test(rules[i].pattern, url.value) && Truthy(Get(rules[i].options, "ws")) {
        return Forward(i, ForwardedOptions(rules[i].options));
      }
    }
    return NoOp;
  }

  /** The middleware's callback `err => err && next(err)`. */
  function OnRequestError(err: JsValue): (r: ErrorReaction)
    ensures r == Ignored <==> !Truthy(err)
    ensures r != Ignored ==> r == NextWithError(err)
  {
    if Truthy(err) then NextWithError(err) else Ignored
  }

  /** The upgrade listener's callback `err => err && console.error(err)`: errors are logged, never passed on. */
  function OnUpgradeError(err: JsValue): (r: ErrorReaction)
    ensures r == Ignored <==> !Truthy(err)
    ensures r != Ignored ==> r == Logged(err)
  {
    if Truthy(err) then Logged(err) else Ignored
  }

  /** The first eligible rule of a table extended at the end: the old table's, else the extension's, shifted. */
  lemma {:induction false} FirstEligibleAppend(rules: seq<Rule>, more: seq<Rule>, eligible: Rule -> bool)
    ensures FirstEligible(rules + more, eligible) ==
      match FirstEligible(rules, eligible)
      case Some(i) => Some(i)
      case None =>
        match FirstEligible(more, eligible)
        case Some(k) => Some(|rules| + k)
        case None => None
  {
    if rules == [] {
      assert rules + more == more;
    } else {
      assert (rules + more)[1..] == rules[1..] + more;
      FirstEligibleAppend(rules[1..], more, eligible);
    }
  }

  /**
   * Rules added after the one a request is forwarded with never change where it goes.
   * "Added after" means at the end of the entry order; in JavaScript a new integer-like
   * key (such as `"404"`) is listed before the string keys, so this lemma describes
   * additions under other keys.
   */
  lemma AppendedRulesNeverShadow(rules: seq<Rule>, more: seq<Rule>, url: Option<string>, test: Matcher)
    ensures RequestAction(rules, url, test).Forward? ==> RequestAction(rules + more, url, test) == RequestAction(rules, url, test)
    ensures UpgradeAction(rules, url, test).Forward? ==> UpgradeAction(rules + more, url, test) == UpgradeAction(rules, url, test)
    ensures RequestAction(rules, url, test).Next? && RequestAction(more, url, test).Forward? ==>
      RequestAction(rules + more, url, test) ==
        Forward(|rules| + RequestAction(more, url, test).index, RequestAction(more, url, test).opts)
    ensures UpgradeAction(rules, url, test).NoOp? && UpgradeAction(more, url, test).Forward? ==>
      UpgradeAction(rules + more, url, test) ==
        Forward(|rules| + UpgradeAction(more, url, test).index, UpgradeAction(more, url, test).opts)
  {
    FirstEligibleAppend(rules, more, RequestTest(test, url));
    FirstEligibleAppend(rules, more, UpgradeTest(test, url));
  }

  /** A truthy but empty `proxy` object registers both handlers, which then pass every request on and leave every upgrade alone. */
  lemma EmptyProxyRegistersPassThrough(options: Options, hasHttpServer: bool, url: Option<string>, test: Matcher)
    requires options.proxy == Some([]) && hasHttpServer
    ensures var h := ConfigureServer(options, hasHttpServer);
      && h.middleware.Some? && RequestAction(h.middleware.value, url, test) == Next
      && h.upgradeListener.Some? && UpgradeAction(h.upgradeListener.value, url, test) == NoOp
  {
  }

  /** An upgrade is never forwarded with a rule earlier than the one a plain request to the same URL would use. */
  lemma UpgradeNeverBeforeRequest(rules: seq<Rule>, url: Option<string>, test: Matcher)
    ensures UpgradeAction(rules, url, test).Forward? ==>
      && RequestAction(rules, url, test).Forward?
      && RequestAction(rules, url, test).index <= UpgradeAction(rules, url, test).index
    ensures RequestAction(rules, url, test).Next? ==> UpgradeAction(rules, url, test).NoOp?
  {
  }

  /** When every rule allows upgrades, the two handlers choose the same rule and the same options. */
  lemma AllWsHandlersAgree(rules: seq<Rule>, url: Option<string>, test: Matcher)
    requires forall j :: 0 <= j < |rules| ==> Truthy(Get(rules[j].options, "ws"))
    ensures RequestAction(rules, url, test).Forward? <==> UpgradeAction(rules, url, test).Forward?
    ensures RequestAction(rules, url, test).Forward? ==> RequestAction(rules, url, test) == UpgradeAction(rules, url, test)
  {
  }

  /** A rule whose pattern matches the URL bounds the chosen rule: nothing after it is used. */
  lemma MatchingRuleAbsorbsLaterRules(rules: seq<Rule>, k: nat, url: Option<string>, test: Matcher)
    requires k < |rules| && UrlPresent(url) && test(rules[k].pattern, url.value)
    ensures RequestAction(rules, url, test).Forward?
    ensures RequestAction(rules, url, test).index <= k
  {
  }

  /** An empty table, or a missing or empty URL, passes every request on and leaves every upgrade alone. */
  lemma NothingToMatchPassesThrough(rules: seq<Rule>, url: Option<string>, test: Matcher)
    requires rules == [] || !UrlPresent(url)
    ensures RequestAction(rules, url, test) == Next
    ensures UpgradeAction(rules, url, test) == NoOp
  {
  }

  /** The rule table `{"^/api/": target1, "^/ws/": {...target2, ws: true}}` against three events. */
  lemma ApiAndWsScenarios(target1: map<string, JsValue>, target2: map<string, JsValue>, test: Matcher)
    requires "ws" !in target1
    requires test("^/api/", "/api/users") && test("^/api/", "/api/data") && !test("^/api/", "/ws/chat")
    requires test("^/ws/", "/ws/chat") && !test("^/api/", "/static/app.js") && !test("^/ws/", "/static/app.js")
    requires !test("^/ws/", "/api/data")
    ensures var rules := [Rule("^/api/", Object(target1)), Rule("^/ws/", Object(target2["ws" := Bool(true)]))];
      && RequestAction(rules, Some("/api/users"), test) == Forward(0, Object(target1["ws" := Undefined]))
      && UpgradeAction(rules, Some("/ws/chat"), test) == Forward(1, Object(target2["ws" := Undefined]))
      && UpgradeAction(rules, Some("/api/data"), test) == NoOp
      && RequestAction(rules, Some("/static/app.js"), test) == Next
  {
    var t2 := target2["ws" := Bool(true)];
    var rules := [Rule("^/api/", Object(target1)), Rule("^/ws/", Object(t2))];
    assert t2["ws" := Undefined] == target2["ws" := Undefined];
    assert UpgradeEligible(test, Some("/ws/chat"), rules[1]);
    assert FirstEligible(rules, UpgradeTest(test, Some("/ws/chat"))) == Some(1);
  }

}
