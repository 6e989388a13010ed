/**
 * The plugin's `config` hook: decides which `server.https` settings the dev
 * server starts with. The certificate utility (`devcert.certificateFor`) is a
 * parameter of the decision; whether and with what it was asked is part of
 * the decision's result.
 */
module TlsConfig {
  import opened Wrappers
  import opened PluginOptions

  /** `env.command` as the host server reports it. */
  datatype Command = Serve | Build

  /** What awaiting `devcert.certificateFor(domains)` produced: a rejection, or the PEM text of key and certificate. */
  datatype CertificateOutcome = Threw | Returned(key: string, cert: string)

  /** What the hook returns: nothing, `{server: {https: {key, cert}}}`, or `{}`. */
  datatype ServerConfig = NoConfig | Https(key: string, cert: string) | EmptyConfig

  /** The hook's result together with the domain argument certificate generation was called with, if it was called. */
  datatype ConfigDecision = ConfigDecision(config: ServerConfig, requested: Option<DomainSpec>)

  /** `options?.certificateDomain || ['localhost']`: the argument passed to certificate generation. */
  function CertificateDomains(certificateDomain: Option<DomainSpec>): (d: DomainSpec)
    ensures DomainTruthy(d)
    ensures certificateDomain.Some? && DomainTruthy(certificateDomain.value) ==> d == certificateDomain.value
    ensures certificateDomain.None? || !DomainTruthy(certificateDomain.value) ==> d == Domains(["localhost"])
  {
    match certificateDomain
    case Some(given) => if DomainTruthy(given) then given else Domains(["localhost"])
    case None => Domains(["localhost"])
  }

  /** Generated material is used only when both the certificate and the key are non-empty text. */
  predicate Usable(outcome: CertificateOutcome)
  {
    outcome.Returned? && outcome.cert != "" && outcome.key != ""
  }

  /** The `config` hook, with `certificateFor` standing for the certificate utility. */
  function ConfigHook(command: Command, options: Options, certificateFor: DomainSpec -> CertificateOutcome): (d: ConfigDecision)
    // outside `serve` nothing is configured and no certificate is asked for
    ensures command != Serve ==> d.config == NoConfig && d.requested == None
    // an explicit pair is handed over exactly as given, without generation
    ensures command == Serve && options.ssl.Some? ==>
      d.config == Https(options.ssl.value.key, options.ssl.value.cert) && d.requested == None
    // otherwise generation is asked exactly once, for the configured domains or for localhost
    ensures command == Serve && options.ssl.None? ==> d.requested == Some(CertificateDomains(options.certificateDomain))
    // generated material is used iff it is complete, and then verbatim
    ensures command == Serve && options.ssl.None? ==>
      (d.config.Https? <==> Usable(certificateFor(CertificateDomains(options.certificateDomain))))
    ensures command == Serve && options.ssl.None? && d.config.Https? ==>
      certificateFor(CertificateDomains(options.certificateDomain)) == Returned(d.config.key, d.config.cert)
    // a failed or incomplete generation degrades to `{}`, never to an error or a partial pair
    ensures command == Serve && options.ssl.None? && !d.config.Https? ==> d.config == EmptyConfig
    ensures command == Serve <==> d.config != NoConfig
    ensures d.config.Https? && options.ssl.None? ==> d.config.key != "" && d.config.cert != ""
  {
    if command != Serve then
      ConfigDecision(NoConfig, None)
    else if options.ssl.Some? then
      ConfigDecision(Https(options.ssl.value.key, options.ssl.value.cert), None)
    else
      var domains := CertificateDomains(options.certificateDomain);
      var outcome := certificateFor(domains);
      if Usable(outcome) then
        ConfigDecision(Https(outcome.key, outcome.cert), Some(domains))
      else
        ConfigDecision(EmptyConfig, Some(domains))
  }

  /** When the hook does not ask for a certificate, what the certificate utility would do makes no difference. */
  lemma GeneratorIrrelevantWithoutRequest(command: Command, options: Options,
                                          gen1: DomainSpec -> CertificateOutcome, gen2: DomainSpec -> CertificateOutcome)
    requires command != Serve || options.ssl.Some?
    ensures ConfigHook(command, options, gen1) == ConfigHook(command, options, gen2)
    ensures ConfigHook(command, options, gen1).requested == None
  {
  }

  /** The decision depends on the certificate utility only through its answer for the requested domains. */
  lemma GeneratorConsultedOnlyForRequest(command: Command, options: Options,
                                         gen1: DomainSpec -> CertificateOutcome, gen2: DomainSpec -> CertificateOutcome)
    requires ConfigHook(command, options, gen1).requested.Some?
    requires gen1(ConfigHook(command, options, gen1).requested.value) == gen2(ConfigHook(command, options, gen1).requested.value)
    ensures ConfigHook(command, options, gen1) == ConfigHook(command, options, gen2)
  {
  }

  /**
   * A corollary of `ConfigHook`'s contract, not a guarantee about the certificates: two
   * runs whose generations both return complete material configure HTTPS both times and
   * ask for the same domains.
   */
  lemma RepeatedProvisioningStable(options: Options,
                                   gen1: DomainSpec -> CertificateOutcome, gen2: DomainSpec -> CertificateOutcome)
    requires options.ssl.None?
    requires Usable(gen1(CertificateDomains(options.certificateDomain)))
    requires Usable(gen2(CertificateDomains(options.certificateDomain)))
    ensures ConfigHook(Serve, options, gen1).config.Https?
    ensures ConfigHook(Serve, options, gen2).config.Https?
    ensures ConfigHook(Serve, options, gen1).requested == ConfigHook(Serve, options, gen2).requested
  {
  }

  /** A rejected generation for `bad.invalid` leaves the server configured with `{}`. */
  lemma GenerationFailureScenario(certificateFor: DomainSpec -> CertificateOutcome)
    requires certificateFor(Domains(["bad.invalid"])) == Threw
    ensures ConfigHook(Serve, Options(None, Some(Domains(["bad.invalid"])), None), certificateFor)
            == ConfigDecision(EmptyConfig, Some(Domains(["bad.invalid"])))
  {
  }

}
