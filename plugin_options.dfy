/**
 * The options object the plugin factory is called with. Every access in the
 * plugin is written `options?.field`, so calling the factory with no options
 * behaves as `Options(None, None, None)`.
 */
module PluginOptions {
  import opened Wrappers
  import opened JsValues

  /** One entry of `Object.entries(options.proxy)`: a pattern string and its target options. */
  datatype Rule = Rule(pattern: string, options: JsValue)

  /** `certificateDomain`: a single host name or a list of them. */
  datatype DomainSpec = Domain(name: string) | Domains(names: seq<string>)

  /** Truthiness of a `certificateDomain` value: an empty string is falsy, every array is truthy. */
  predicate DomainTruthy(d: DomainSpec)
  {
    match d
    case Domain(name) => name != ""
    case Domains(_) => true
  }

  /** The explicit `ssl` option. */
  datatype SslPair = SslPair(key: string, cert: string)

  /**
   * `proxy` is the rule table in entry order (`None` when it is `undefined`
   * or `null`); `certificateDomain` and `ssl` are `None` when absent.
   */
  datatype Options = Options(
    proxy: Option<seq<Rule>>,
    certificateDomain: Option<DomainSpec>,
    ssl: Option<SslPair>)

}
