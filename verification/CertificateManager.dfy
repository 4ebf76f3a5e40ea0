/**
 * The certificate manager: it checks that the configured certificate is in the user's
 * certificate store and then builds an HTTPS agent whose `cert` and `key` options name the
 * token certificate by thumbprint and password. The agent stays unset until that succeeds,
 * and its accessors refuse to work before then.
 *
 * Running `certutil` is not modelled: `run` maps a command line to its standard output, or to
 * the error the child process rejected with.
 */
module Certificates {
  import opened Results
  import opened Text

  datatype CertificateConfig = CertificateConfig(
    certificateThumbprint: string,
    certificatePath: Option<string>,
    certificatePassword: string,
    pfxPath: Option<string>,
    pfxPassword: Option<string>,
    certificateSubject: Option<string>)

  /** A configuration holding only a thumbprint and a password, as the clients build it. */
  function TokenConfig(thumbprint: string, password: string): (c: CertificateConfig)
    ensures c.certificateThumbprint == thumbprint && c.certificatePassword == password
    ensures c.certificatePath.None? && c.pfxPath.None? && c.pfxPassword.None? && c.certificateSubject.None?
  {
    CertificateConfig(thumbprint, None, password, None, None, None)
  }

  const Provider: string := "SafeSign IC Standard Windows Cryptographic Service Provider"
  const Ciphers: string := "HIGH:!aNULL:!MD5:!RC4"
  const MinVersion: string := "TLSv1.2"
  /** SSL_OP_NO_SSLv2 */
  const NoSslV2: int := 0x00000001

  const ThumbprintMissing: string := "Thumbprint do certificado não fornecido"
  const NotInStore: string := "Certificado não encontrado no repositório"
  const InitFailurePrefix: string := "Falha ao inicializar certificado: "
  const NotInitialized: string := "Certificado não inicializado"
  const TokenStatusCommand: string := "certutil -user -csp \"" + Provider + "\" -key"

  /** The store query for a thumbprint. */
  function StoreQueryCommand(thumbprint: string): string
  {
    "certutil -user -store My \"" + thumbprint + "\""
  }

  datatype TokenCertificate = TokenCertificate(thumbprint: string, provider: string)
  datatype TokenKey = TokenKey(password: string, provider: string)

  /** The options an HTTPS agent was built with. */
  datatype AgentOptions = AgentOptions(
    rejectUnauthorized: bool,
    cert: Option<TokenCertificate>,
    key: Option<TokenKey>,
    pfx: Option<string>,
    ciphers: string,
    minVersion: string,
    secureOptions: int)

  /** An `https.Agent`, reduced to its options; its identity is that of the object. */
  class Agent {
    const options: AgentOptions

    constructor (options: AgentOptions)
      ensures this.options == options
    {
      this.options := options;
    }
  }

  /** The agent options `initialize` uses for a configuration. */
  function TokenAgentOptions(config: CertificateConfig): (o: AgentOptions)
    ensures !o.rejectUnauthorized && o.pfx.None?
    ensures o.ciphers == Ciphers && o.minVersion == MinVersion && o.secureOptions == NoSslV2
    ensures o.cert == Some(TokenCertificate(config.certificateThumbprint, Provider))
    ensures o.key == Some(TokenKey(config.certificatePassword, Provider))
  {
    AgentOptions(
      rejectUnauthorized := false,
      cert := Some(TokenCertificate(config.certificateThumbprint, Provider)),
      key := Some(TokenKey(config.certificatePassword, Provider)),
      pfx := None,
      ciphers := Ciphers,
      minVersion := MinVersion,
      secureOptions := NoSslV2)
  }

  /** What `getCertificate` returns: `options.cert || options.pfx`. */
  datatype Credential = CertOption(cert: TokenCertificate) | PfxOption(pfx: string) | Undefined

  function CertificateOf(options: AgentOptions): (c: Credential)
    ensures options.cert.Some? ==> c == CertOption(options.cert.value)
    ensures options.cert.None? && options.pfx.Some? ==> c == PfxOption(options.pfx.value)
    ensures options.cert.None? && options.pfx.None? ==> c == Undefined
  {
    if options.cert.Some? then CertOption(options.cert.value)
    else if options.pfx.Some? then PfxOption(options.pfx.value)
    else Undefined
  }

  /** The record `getCertificateInfo` returns. */
  datatype CertificateInfo = CertificateInfo(
    thumbprint: string,
    path: Option<string>,
    hasPassword: bool,
    provider: string)

  /** The configuration as the start of `initialize` logs it: the password replaced by `***`. */
  function LoggedConfig(config: CertificateConfig): (logged: CertificateConfig)
    ensures logged.certificatePassword == "***"
    ensures logged.(certificatePassword := config.certificatePassword) == config
  {
    config.(certificatePassword := "***")
  }

  /** Two configurations that differ only in their password are logged alike. */
  lemma LogHidesPassword(a: CertificateConfig, b: CertificateConfig)
    requires a.(certificatePassword := b.certificatePassword) == b
    ensures LoggedConfig(a) == LoggedConfig(b)
  {
    assert LoggedConfig(a) == a.(certificatePassword := "***");
  }

  /**
   * The checks inside `initialize`'s `try` block: the store query, the thumbprint in its output,
   * and the token status query. The error is the one the block would throw.
   */
  function StoreCheck(thumbprint: string, run: string -> Result<string>): (r: Result<()>)
    ensures r.Ok? <==> run(StoreQueryCommand(thumbprint)).Ok?
                       && Includes(run(StoreQueryCommand(thumbprint)).value, thumbprint)
                       && run(TokenStatusCommand).Ok?
    ensures run(StoreQueryCommand(thumbprint)).Err? ==> r == Err(run(StoreQueryCommand(thumbprint)).error)
    ensures run(StoreQueryCommand(thumbprint)).Ok? && !Includes(run(StoreQueryCommand(thumbprint)).value, thumbprint) ==>
              r == Err(Fail(NotInStore))
    ensures run(StoreQueryCommand(thumbprint)).Ok? && Includes(run(StoreQueryCommand(thumbprint)).value, thumbprint)
            && run(TokenStatusCommand).Err? ==>
              r == Err(run(TokenStatusCommand).error)
  {
    match run(StoreQueryCommand(thumbprint))
    case Err(e) => Err(e)
    case Ok(stdout) =>
      if !Includes(stdout, thumbprint) then Err(Fail(NotInStore))
      else
        match run(TokenStatusCommand)
        case Err(e) => Err(e)
        case Ok(_) => Ok(())
  }

  /**
   * What `initialize` returns for a configuration: an empty thumbprint fails before any store
   * query and is not rewrapped; every failure inside the `try` block is rewrapped with the
   * "Falha ao inicializar certificado" prefix.
   */
  function InitializeOutcome(config: CertificateConfig, run: string -> Result<string>): (r: Result<()>)
    ensures config.certificateThumbprint == "" ==> r == Err(Fail(ThumbprintMissing))
    ensures r.Ok? <==> config.certificateThumbprint != ""
                       && run(StoreQueryCommand(config.certificateThumbprint)).Ok?
                       && Includes(run(StoreQueryCommand(config.certificateThumbprint)).value,
                                   config.certificateThumbprint)
                       && run(TokenStatusCommand).Ok?
    ensures config.certificateThumbprint != "" && StoreCheck(config.certificateThumbprint, run).Err? ==>
              r == Err(Fail(InitFailurePrefix + StoreCheck(config.certificateThumbprint, run).error.message))
  {
    if config.certificateThumbprint == "" then Err(Fail(ThumbprintMissing))
    else
      match StoreCheck(config.certificateThumbprint, run)
      case Err(e) => Err(Fail(InitFailurePrefix + e.message))
      case Ok(_) => Ok(())
  }

  class CertificateManager {
    const config: CertificateConfig
    var agent: Agent?

    constructor (config: CertificateConfig)
      ensures this.config == config && agent == null
    {
      this.config := config;
      agent := null;
    }

    /** `initialize`: only success sets the agent, to a new one with the token options. */
    method Initialize(run: string -> Result<string>) returns (r: Result<()>)
      modifies this`agent
      ensures r == InitializeOutcome(config, run)
      ensures r.Ok? ==> agent != null && fresh(agent) && agent.options == TokenAgentOptions(config)
      ensures r.Err? ==> agent == old(agent)
    {
      if config.certificateThumbprint == "" {
        return Err(Fail(ThumbprintMissing));
      }
      match StoreCheck(config.certificateThumbprint, run)
      case Err(e) =>
        r := Err(Fail(InitFailurePrefix + e.message));
      case Ok(_) =>
        agent := new Agent(TokenAgentOptions(config));
        r := Ok(());
    }

    /** `getAgent` */
    method GetAgent() returns (r: Result<Agent>)
      ensures agent == null ==> r == Err(Fail(NotInitialized))
      ensures agent != null ==> r == Ok(agent)
    {
      if agent == null {
        return Err(Fail(NotInitialized));
      }
      return Ok(agent);
    }

    /** `getHttpsAgent`: the same guard and the same object as `getAgent`. */
    method GetHttpsAgent() returns (r: Result<Agent>)
      ensures agent == null ==> r == Err(Fail(NotInitialized))
      ensures agent != null ==> r == Ok(agent)
    {
      if agent == null {
        return Err(Fail(NotInitialized));
      }
      return Ok(agent);
    }

    /** `getCertificate`: the agent's `cert` option, else its `pfx` option. */
    method GetCertificate() returns (r: Result<Credential>)
      ensures agent == null ==> r == Err(Fail(NotInitialized))
      ensures agent != null && agent.options.cert.Some? ==> r == Ok(CertOption(agent.options.cert.value))
      ensures agent != null && agent.options.cert.None? ==> r == Ok(CertificateOf(agent.options))
    {
      if agent == null {
        return Err(Fail(NotInitialized));
      }
      return Ok(CertificateOf(agent.options));
    }

    /** `getCertificateInfo`: a projection of the configuration that needs no initialisation. */
    function GetCertificateInfo(): (info: CertificateInfo)
      ensures info.thumbprint == config.certificateThumbprint && info.path == config.certificatePath
      ensures info.hasPassword <==> config.certificatePassword != ""
      ensures info.provider == Provider
    {
      CertificateInfo(config.certificateThumbprint, config.certificatePath,
                      config.certificatePassword != "", Provider)
    }
  }

  /**
   * After a successful initialisation the accessors agree: both agent accessors return the
   * agent that was built, and the certificate is the token certificate of the thumbprint.
   */
  method InitializedAccessors(manager: CertificateManager, run: string -> Result<string>)
    returns (agent: Result<Agent>, httpsAgent: Result<Agent>, certificate: Result<Credential>)
    modifies manager
    ensures InitializeOutcome(manager.config, run).Ok? ==>
              agent.Ok? && agent == httpsAgent
              && certificate == Ok(CertOption(TokenCertificate(manager.config.certificateThumbprint, Provider)))
    ensures manager.config.certificateThumbprint == "" && old(manager.agent) == null ==>
              agent == httpsAgent == Err(Fail(NotInitialized)) && certificate == Err(Fail(NotInitialized))
  {
    var _ := manager.Initialize(run);
    agent := manager.GetAgent();
    httpsAgent := manager.GetHttpsAgent();
    certificate := manager.GetCertificate();
  }
}
