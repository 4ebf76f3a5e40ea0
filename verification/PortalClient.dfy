/**
 * The portal client of `src/pje-client.ts`: it builds a certificate manager from the thumbprint
 * and password of its configuration, keeps the agent that manager produces, and lets no
 * operation run while that agent is unset. The operations themselves are simulations: the case
 * lookup answers with a fixed record and the filing answers with a random protocol.
 */
module PortalClient {
  import opened Results
  import opened Certificates
  import PdfProcessor

  /** The certificate part of the client configuration. */
  datatype Credentials = Credentials(certificateThumbprint: string, certificatePassword: string)

  /** The client configuration; `certificate` may be missing at run time despite its type. */
  datatype PortalConfig = PortalConfig(baseUrl: string, appName: string, certificate: Option<Credentials>)

  const NoCertificateConfig: string := "Configuração do certificado não fornecida"

  datatype Party = Party(tipo: string, nome: string)

  /** The record `buscarProcesso` answers with. */
  datatype CaseRecord = CaseRecord(
    numeroProcesso: string,
    classe: string,
    assunto: string,
    orgaoJulgador: string,
    partes: seq<Party>)

  /** The simulated case: every field but the number is fixed. */
  function SimulatedCase(numeroProcesso: string): (c: CaseRecord)
    ensures c.numeroProcesso == numeroProcesso
    ensures |c.partes| == 2 && c.partes[0].tipo == "Autor" && c.partes[1].tipo == "Réu"
  {
    CaseRecord(
      numeroProcesso,
      "Procedimento Comum Cível",
      "Indenização por Dano Material",
      "1ª Vara Cível",
      [Party("Autor", "João da Silva"), Party("Réu", "Empresa XYZ Ltda")])
  }

  /** Two simulated cases differ only in their number. */
  lemma SimulatedCaseIgnoresNumber(a: string, b: string)
    ensures SimulatedCase(a).(numeroProcesso := b) == SimulatedCase(b)
    ensures SimulatedCase(a) == SimulatedCase(b) <==> a == b
  {
    assert SimulatedCase(a).numeroProcesso == a;
  }

  /**
   * `String.prototype.substring(start, end)` for `0 <= start <= end`: both ends are clamped to
   * the length of the string.
   */
  function Substring(s: string, start: nat, end: nat): (r: string)
    requires start <= end
    ensures |r| <= end - start
    ensures start <= |s| ==> r == s[start..if end <= |s| then end else |s|]
    ensures start >= |s| ==> r == ""
  {
    var a := if start <= |s| then start else |s|;
    var b := if end <= |s| then end else |s|;
    s[a..b]
  }

  class PjeClient {
    const config: PortalConfig
    var certificateManager: CertificateManager?
    var agent: Agent?

    constructor (config: PortalConfig)
      ensures this.config == config && certificateManager == null && agent == null
    {
      this.config := config;
      certificateManager := null;
      agent := null;
    }

    /**
     * `initializeCertificate`: a missing certificate configuration fails at once; otherwise a new
     * manager replaces the old one before it is initialised, its error is passed on unchanged and
     * leaves `agent` as it was, and success copies the manager's agent.
     */
    method InitializeCertificate(run: string -> Result<string>) returns (r: Result<()>)
      modifies this`certificateManager, this`agent
      ensures config.certificate.None? ==>
                r == Err(Fail(NoCertificateConfig))
                && certificateManager == old(certificateManager) && agent == old(agent)
      ensures config.certificate.Some? ==>
                certificateManager != null && fresh(certificateManager)
                && certificateManager.config == TokenConfig(config.certificate.value.certificateThumbprint,
                                                            config.certificate.value.certificatePassword)
                && r == InitializeOutcome(certificateManager.config, run)
      ensures r.Ok? ==> certificateManager != null && agent != null && agent == certificateManager.agent
                        && agent.options == TokenAgentOptions(certificateManager.config)
      ensures r.Err? ==> agent == old(agent)
    {
      if config.certificate.None? {
        return Err(Fail(NoCertificateConfig));
      }
      var manager := new CertificateManager(TokenConfig(config.certificate.value.certificateThumbprint,
                                                        config.certificate.value.certificatePassword));
      certificateManager := manager;
      r := manager.Initialize(run);
      if r.Err? {
        return;
      }
      var got := manager.GetAgent();
      match got
      case Err(_) =>
        assert false;
      case Ok(a) =>
        agent := a;
    }

    /** `authenticateWithCertificate`: a simulation that only checks the agent. */
    method AuthenticateWithCertificate() returns (r: Result<()>)
      ensures agent == null ==> r == Err(Fail(NotInitialized))
      ensures agent != null ==> r == Ok(())
    {
      if agent == null {
        return Err(Fail(NotInitialized));
      }
      return Ok(());
    }

    /** `buscarProcesso`: the simulated case for the number, once the agent is set. */
    method BuscarProcesso(numeroProcesso: string) returns (r: Result<CaseRecord>)
      ensures agent == null ==> r == Err(Fail(NotInitialized))
      ensures agent != null ==> r.Ok? && r.value.numeroProcesso == numeroProcesso
                                && r.value == SimulatedCase(numeroProcesso)
    {
      if agent == null {
        return Err(Fail(NotInitialized));
      }
      return Ok(SimulatedCase(numeroProcesso));
    }

    /**
     * `peticionar`: once the agent is set, the protocol is characters 2 to 14 of the base-36 text
     * of a random number, which the caller supplies as `randomText`.
     */
    method Peticionar(processInfo: PdfProcessor.ProcessInfo, randomText: string) returns (r: Result<string>)
      ensures agent == null ==> r == Err(Fail(NotInitialized))
      ensures agent != null ==> r.Ok? && |r.value| <= 13 && r.value == Substring(randomText, 2, 15)
    {
      if agent == null {
        return Err(Fail(NotInitialized));
      }
      var protocol := Substring(randomText, 2, 15);
      return Ok(protocol);
    }
  }

  /**
   * The client's life cycle: before initialisation every operation is refused; after a
   * successful initialisation every operation succeeds.
   */
  method InitializedClient(client: PjeClient, run: string -> Result<string>, numero: string)
    returns (init: Result<()>, auth: Result<()>, found: Result<CaseRecord>)
    modifies client
    ensures init.Ok? ==> auth == Ok(()) && found == Ok(SimulatedCase(numero))
    ensures init.Err? && old(client.agent) == null ==>
              auth == Err(Fail(NotInitialized)) && found == Err(Fail(NotInitialized))
    ensures client.config.certificate.Some? ==>
              init == InitializeOutcome(TokenConfig(client.config.certificate.value.certificateThumbprint,
                                                    client.config.certificate.value.certificatePassword), run)
  {
    init := client.InitializeCertificate(run);
    auth := client.AuthenticateWithCertificate();
    found := client.BuscarProcesso(numero);
  }
}
