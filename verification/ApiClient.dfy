/**
 * The REST client of the MCP server (`PJEClient` in `src/index.ts`). It keeps an access token,
 * an optional certificate manager and the HTTPS agent of its request instance; every request
 * it sends carries the JSON content type, a bearer token when one is held and the legacy
 * application header when an application name is configured.
 *
 * The network is not modelled: `http` maps the request the client would send to the response
 * body, or to the error the request rejected with.
 */
module ApiClient {
  import opened Results
  import opened Json
  import opened Certificates

  datatype PjeConfig = PjeConfig(
    baseUrl: string,
    ssoUrl: Option<string>,
    clientId: Option<string>,
    clientSecret: Option<string>,
    username: Option<string>,
    password: Option<string>,
    appName: Option<string>,
    certificate: Option<CertificateConfig>)

  datatype Verb = Get | Post

  datatype Body = NoBody | JsonBody(json: Json) | FormBody(fields: seq<(string, string)>)

  /**
   * A request as it leaves the client: the path is relative to the base URL when `agent` is
   * the instance's agent; `params` are the query parameters.
   */
  datatype Request = Request(
    verb: Verb,
    url: string,
    params: map<string, string>,
    headers: map<string, string>,
    agent: Agent?,
    body: Body)

  const NoCertificate: string := "Nenhum certificado configurado"
  const InitErrorPrefix: string := "Erro ao inicializar certificado: "
  const CertificateAuthPrefix: string := "Erro na autenticação por certificado: "
  const SsoIncomplete: string := "Configuração de SSO incompleta"
  const SsoAuthPrefix: string := "Erro na autenticação: "

  const ProcessesPath: string := "/api/v1/processos"
  const CertificateAuthPath: string := "/api/v1/auth/certificate"
  const CourtsPath: string := "/api/v1/orgaos-julgadores"
  const ClassesPath: string := "/api/v1/classes"
  const SubjectsPath: string := "/api/v1/assuntos"

  /** The headers the request interceptor leaves on every request of the instance. */
  function Headers(accessToken: Option<Json>, appName: Option<string>): (h: map<string, string>)
    ensures "Content-Type" in h && h["Content-Type"] == "application/json"
    ensures "Authorization" in h <==> Given(accessToken)
    ensures Given(accessToken) ==> h["Authorization"] == "Bearer " + ValueText(accessToken.value)
    ensures "X-pje-legacy-app" in h <==> Present(appName)
    ensures Present(appName) ==> h["X-pje-legacy-app"] == appName.value
    ensures h.Keys <= {"Content-Type", "Authorization", "X-pje-legacy-app"}
  {
    var base := map["Content-Type" := "application/json"];
    var withToken := if Given(accessToken) then base["Authorization" := "Bearer " + ValueText(accessToken.value)] else base;
    if Present(appName) then withToken["X-pje-legacy-app" := appName.value] else withToken
  }

  /** The JSON form of what `getCertificate` returns; `undefined` leaves the member out. */
  function CredentialJson(c: Credential): (j: Option<Json>)
    ensures j.None? <==> c.Undefined?
    ensures c.CertOption? ==>
              j == Some(JObj([("thumbprint", JStr(c.cert.thumbprint)), ("provider", JStr(c.cert.provider))]))
    ensures c.PfxOption? ==> j == Some(JStr(c.pfx))
  {
    match c
    case CertOption(cert) => Some(JObj([("thumbprint", JStr(cert.thumbprint)), ("provider", JStr(cert.provider))]))
    case PfxOption(pfx) => Some(JStr(pfx))
    case Undefined => None
  }

  /** The request `authenticateWithCertificate` posts. */
  function CertificateAuthRequest(accessToken: Option<Json>, appName: Option<string>, agent: Agent?,
                                  credential: Credential): (req: Request)
    ensures req.verb == Post && req.url == CertificateAuthPath && req.params == map[]
    ensures req.agent == agent && req.headers == Headers(accessToken, appName)
    ensures req.body == JsonBody(ObjectOf([("certificate", CredentialJson(credential))]))
  {
    Request(Post, CertificateAuthPath, map[], Headers(accessToken, appName), agent,
            JsonBody(ObjectOf([("certificate", CredentialJson(credential))])))
  }

  /**
   * The token a response carries (`response.data.access_token`), with a failed request or an
   * unreadable body rewrapped by `prefix`.
   */
  function TokenOutcome(response: Result<Json>, prefix: string): (r: Result<Option<Json>>)
    ensures response.Err? ==> r == Err(Fail(prefix + ErrorText(response.error)))
    ensures response.Ok? && response.value.JObj? ==> r == Ok(Member(response.value.members, "access_token"))
    ensures response.Ok? && response.value.JNull? ==>
              r == Err(Fail(prefix + ErrorText(PropertyOf(response.value, "access_token").error)))
    ensures response.Ok? && !response.value.JNull? && !response.value.JObj? ==> r == Ok(None)
    ensures r.Err? ==> r.error.name == "Error"
  {
    match response
    case Err(e) => Err(Fail(prefix + ErrorText(e)))
    case Ok(data) =>
      match PropertyOf(data, "access_token")
      case Err(e) => Err(Fail(prefix + ErrorText(e)))
      case Ok(token) => Ok(token)
  }

  /** The form body of the password grant. */
  function SsoForm(config: PjeConfig): (form: seq<(string, string)>)
    requires Present(config.clientId) && Present(config.clientSecret)
    ensures |form| == 6
    ensures form[0] == ("grant_type", "password") && form[5] == ("scope", "openid")
    ensures form[1] == ("client_id", config.clientId.value)
    ensures form[2] == ("client_secret", config.clientSecret.value)
    ensures form[3] == ("username", OrElse(config.username, ""))
    ensures form[4] == ("password", OrElse(config.password, ""))
  {
    [("grant_type", "password"),
     ("client_id", config.clientId.value),
     ("client_secret", config.clientSecret.value),
     ("username", OrElse(config.username, "")),
     ("password", OrElse(config.password, "")),
     ("scope", "openid")]
  }

  /**
   * The request of the password grant, posted with the global HTTP client: it goes to the SSO
   * URL itself, with the form content type, no token and no agent.
   */
  function SsoRequest(config: PjeConfig): (req: Request)
    requires Present(config.ssoUrl) && Present(config.clientId) && Present(config.clientSecret)
    ensures req.verb == Post && req.url == config.ssoUrl.value && req.agent == null
    ensures req.headers == map["Content-Type" := "application/x-www-form-urlencoded"]
    ensures "Authorization" !in req.headers
    ensures req.body == FormBody(SsoForm(config))
  {
    Request(Post, config.ssoUrl.value, map[], map["Content-Type" := "application/x-www-form-urlencoded"],
            null, FormBody(SsoForm(config)))
  }

  /** `typeof v === "string" ? v : JSON.stringify(v)` */
  function TextOrJson(v: Json): (s: string)
    ensures v.JStr? ==> s == v.s
    ensures !v.JStr? ==> s == Stringify(v)
  {
    if v.JStr? then v.s else Stringify(v)
  }

  /** `Array.isArray(v) ? JSON.stringify(v) : v`, for a value that is sent as a parameter. */
  function JsonIfArray(v: Json): (s: string)
    ensures v.JArr? ==> s == Stringify(v)
    ensures !v.JArr? ==> s == ValueText(v)
  {
    if v.JArr? then Stringify(v) else ValueText(v)
  }

  /** `v || fallback` on a value that may be `undefined`. */
  function JsonOr(o: Option<Json>, fallback: Json): (v: Json)
    ensures Given(o) ==> v == o.value
    ensures !Given(o) ==> v == fallback
  {
    if Given(o) then o.value else fallback
  }

  /** The `page` parameter: a JSON object holding the page (default 1) and the size (default 20). */
  function PageParam(page: Option<Json>, size: Option<Json>): string
  {
    Stringify(JObj([("page", JsonOr(page, JNum(1))), ("size", JsonOr(size, JNum(20)))]))
  }

  /** The two keys of the `page` parameter need no escaping. */
  lemma PageKeysQuoted()
    ensures Quote("page") == "\"page\"" && Quote("size") == "\"size\""
  {
    QuotePlain("page");
    QuotePlain("size");
  }

  /** The `page` parameter is the object text with the page first and the size second. */
  lemma PageParamText(page: Option<Json>, size: Option<Json>)
    ensures PageParam(page, size)
            == "{\"page\":" + Stringify(JsonOr(page, JNum(1))) + ",\"size\":" + Stringify(JsonOr(size, JNum(20))) + "}"
  {
    var p, s := JsonOr(page, JNum(1)), JsonOr(size, JNum(20));
    StringifyPair("page", p, "size", s);
    PageKeysQuoted();
    PairText(Stringify(p), Stringify(s));
  }

  lemma PairText(page: string, size: string)
    ensures "{" + (("\"page\"" + ":" + page) + "," + ("\"size\"" + ":" + size)) + "}"
            == "{\"page\":" + page + ",\"size\":" + size + "}"
  {
  }

  /** A size without a page asks for page 1. */
  lemma PageDefaultsToOne(n: int)
    requires n != 0
    ensures PageParam(None, Some(JNum(n))) == "{\"page\":1,\"size\":" + NumberText(n) + "}"
  {
    PageParamText(None, Some(JNum(n)));
    assert Stringify(JNum(1)) == "1";
    PageOneText(NumberText(n));
  }

  lemma PageOneText(size: string)
    ensures "{\"page\":" + "1" + ",\"size\":" + size + "}" == "{\"page\":1,\"size\":" + size + "}"
  {
  }

  /** A page without a size asks for 20 entries. */
  lemma SizeDefaultsToTwenty(n: int)
    requires n != 0
    ensures PageParam(Some(JNum(n)), None) == "{\"page\":" + NumberText(n) + ",\"size\":20}"
  {
    PageParamText(Some(JNum(n)), None);
    assert Stringify(JNum(20)) == "20" by {
      assert Digits(2) == "2";
    }
    SizeTwentyText(NumberText(n));
  }

  lemma SizeTwentyText(page: string)
    ensures "{\"page\":" + page + ",\"size\":" + "20" + "}" == "{\"page\":" + page + ",\"size\":20}"
  {
  }

  /** The query parameters of `listarProcessos`; an argument that is falsy leaves its key out. */
  function ProcessQuery(filter: Option<Json>, fields: Option<Json>, order: Option<Json>,
                        page: Option<Json>, size: Option<Json>): (params: map<string, string>)
    ensures "filter" in params <==> Given(filter)
    ensures Given(filter) ==> params["filter"] == TextOrJson(filter.value)
    ensures "fields" in params <==> Given(fields)
    ensures Given(fields) ==> params["fields"] == JsonIfArray(fields.value)
    ensures "order" in params <==> Given(order)
    ensures Given(order) ==> params["order"] == TextOrJson(order.value)
    ensures "page" in params <==> Given(page) || Given(size)
    ensures "page" in params ==> params["page"] == PageParam(page, size)
    ensures params.Keys <= {"filter", "fields", "order", "page"}
  {
    var p0: map<string, string> := map[];
    var p1 := if Given(filter) then p0["filter" := TextOrJson(filter.value)] else p0;
    var p2 := if Given(fields) then p1["fields" := JsonIfArray(fields.value)] else p1;
    var p3 := if Given(order) then p2["order" := TextOrJson(order.value)] else p2;
    if Given(page) || Given(size) then p3["page" := PageParam(page, size)] else p3
  }

  /** `listarProcessos` fills its parameter object one condition at a time. */
  method QueryParams(filter: Option<Json>, fields: Option<Json>, order: Option<Json>,
                     page: Option<Json>, size: Option<Json>) returns (params: map<string, string>)
    ensures params == ProcessQuery(filter, fields, order, page, size)
  {
    params := map[];
    if Given(filter) {
      params := params["filter" := TextOrJson(filter.value)];
    }
    if Given(fields) {
      params := params["fields" := JsonIfArray(fields.value)];
    }
    if Given(order) {
      params := params["order" := TextOrJson(order.value)];
    }
    if Given(page) || Given(size) {
      params := params["page" := PageParam(page, size)];
    }
  }

  class PjeClient {
    var config: PjeConfig
    var accessToken: Option<Json>
    var certificateManager: CertificateManager?
    /** The agent of the current request instance; `null` until a certificate is initialised. */
    var httpsAgent: Agent?

    /** A certificate manager exists exactly when the configuration names a certificate. */
    constructor (config: PjeConfig)
      ensures this.config == config && accessToken.None? && httpsAgent == null
      ensures certificateManager != null <==> config.certificate.Some?
      ensures certificateManager != null ==>
                fresh(certificateManager) && certificateManager.config == config.certificate.value
                && certificateManager.agent == null
    {
      this.config := config;
      accessToken := None;
      httpsAgent := null;
      if config.certificate.Some? {
        certificateManager := new CertificateManager(config.certificate.value);
      } else {
        certificateManager := null;
      }
    }

    /** The request to `path` on the current instance. */
    function InstanceGet(path: string, params: map<string, string>): (req: Request)
      reads this
      ensures req.verb == Get && req.url == path && req.params == params && req.body == NoBody
      ensures req.agent == httpsAgent && req.headers == Headers(accessToken, config.appName)
    {
      Request(Get, path, params, Headers(accessToken, config.appName), httpsAgent, NoBody)
    }

    /**
     * `initializeCertificate`: without a manager it fails; a failure of the manager is rewrapped
     * with its name and message and leaves the instance's agent alone; success moves the
     * instance to the manager's new agent.
     */
    method InitializeCertificate(run: string -> Result<string>) returns (r: Result<()>)
      modifies this`httpsAgent, certificateManager
      ensures certificateManager == old(certificateManager)
      ensures certificateManager == null ==> r == Err(Fail(NoCertificate)) && httpsAgent == old(httpsAgent)
      ensures certificateManager != null ==>
                var outcome := InitializeOutcome(certificateManager.config, run);
                (outcome.Ok? ==> r == Ok(()) && httpsAgent != null && httpsAgent == certificateManager.agent
                                 && fresh(httpsAgent)
                                 && httpsAgent.options == TokenAgentOptions(certificateManager.config))
                && (outcome.Err? ==> r == Err(Fail(InitErrorPrefix + ErrorText(outcome.error)))
                                     && httpsAgent == old(httpsAgent)
                                     && certificateManager.agent == old(certificateManager.agent))
    {
      if certificateManager == null {
        return Err(Fail(NoCertificate));
      }
      var init := certificateManager.Initialize(run);
      if init.Err? {
        return Err(Fail(InitErrorPrefix + ErrorText(init.error)));
      }
      var got := certificateManager.GetHttpsAgent();
      match got
      case Err(_) =>
        assert false;
      case Ok(a) =>
        httpsAgent := a;
        r := Ok(());
    }

    /**
     * `authenticateWithCertificate`: it needs a manager; an uninitialised manager, a failed
     * request or an unreadable body fail with the certificate-authentication prefix and keep
     * the token; a response sets the token to its `access_token`.
     */
    method AuthenticateWithCertificate(http: Request -> Result<Json>) returns (r: Result<()>)
      modifies this`accessToken
      ensures certificateManager == null ==> r == Err(Fail(NotInitialized)) && accessToken == old(accessToken)
      ensures certificateManager != null && certificateManager.agent == null ==>
                r == Err(Fail(CertificateAuthPrefix + ErrorText(Fail(NotInitialized))))
                && accessToken == old(accessToken)
      ensures certificateManager != null && certificateManager.agent != null ==>
                var outcome := TokenOutcome(
                  http(CertificateAuthRequest(old(accessToken), config.appName, httpsAgent,
                                              CertificateOf(certificateManager.agent.options))),
                  CertificateAuthPrefix);
                (outcome.Ok? ==> r == Ok(()) && accessToken == outcome.value)
                && (outcome.Err? ==> r == Err(outcome.error) && accessToken == old(accessToken))
    {
      if certificateManager == null {
        return Err(Fail(NotInitialized));
      }
      var certificate := certificateManager.GetCertificate();
      if certificate.Err? {
        return Err(Fail(CertificateAuthPrefix + ErrorText(certificate.error)));
      }
      var req := CertificateAuthRequest(accessToken, config.appName, httpsAgent, certificate.value);
      var outcome := TokenOutcome(http(req), CertificateAuthPrefix);
      match outcome
      case Err(e) =>
        r := Err(e);
      case Ok(token) =>
        accessToken := token;
        r := Ok(());
    }

    /** `getCertificateInfo`: the manager's projection of its configuration. */
    function GetCertificateInfo(): (r: Result<CertificateInfo>)
      reads this, certificateManager
      ensures certificateManager == null ==> r == Err(Fail(NoCertificate))
      ensures certificateManager != null ==>
                r.Ok? && r.value.thumbprint == certificateManager.config.certificateThumbprint
                && (r.value.hasPassword <==> certificateManager.config.certificatePassword != "")
      ensures certificateManager != null ==>
                r == Ok(certificateManager.GetCertificateInfo())
                && r.value.path == certificateManager.config.certificatePath && r.value.provider == Provider
    {
      if certificateManager == null then Err(Fail(NoCertificate))
      else Ok(certificateManager.GetCertificateInfo())
    }

    /**
     * `authenticate`: the password grant needs the SSO URL, the client id and the client
     * secret; its failure is rewrapped and keeps the token.
     */
    method Authenticate(http: Request -> Result<Json>) returns (r: Result<()>)
      modifies this`accessToken
      ensures !(Present(config.ssoUrl) && Present(config.clientId) && Present(config.clientSecret)) ==>
                r == Err(Fail(SsoIncomplete)) && accessToken == old(accessToken)
      ensures Present(config.ssoUrl) && Present(config.clientId) && Present(config.clientSecret) ==>
                var outcome := TokenOutcome(http(SsoRequest(config)), SsoAuthPrefix);
                (outcome.Ok? ==> r == Ok(()) && accessToken == outcome.value)
                && (outcome.Err? ==> r == Err(outcome.error) && accessToken == old(accessToken))
    {
      if !Present(config.ssoUrl) || !Present(config.clientId) || !Present(config.clientSecret) {
        return Err(Fail(SsoIncomplete));
      }
      var outcome := TokenOutcome(http(SsoRequest(config)), SsoAuthPrefix);
      match outcome
      case Err(e) =>
        r := Err(e);
      case Ok(token) =>
        accessToken := token;
        r := Ok(());
    }

    /** `listarProcessos`: a GET of the process list with the parameters built above. */
    method ListarProcessos(filter: Option<Json>, fields: Option<Json>, order: Option<Json>,
                           page: Option<Json>, size: Option<Json>, http: Request -> Result<Json>)
      returns (r: Result<Json>)
      ensures r == http(InstanceGet(ProcessesPath, ProcessQuery(filter, fields, order, page, size)))
    {
      var params := QueryParams(filter, fields, order, page, size);
      r := http(InstanceGet(ProcessesPath, params));
    }

    /** `buscarProcesso`: a GET of the process whose id is written into the path. */
    method BuscarProcesso(id: Option<Json>, http: Request -> Result<Json>) returns (r: Result<Json>)
      ensures r == http(InstanceGet(ProcessesPath + "/" + DisplayText(id), map[]))
    {
      r := http(InstanceGet(ProcessesPath + "/" + DisplayText(id), map[]));
    }

    method ListarOrgaosJulgadores(http: Request -> Result<Json>) returns (r: Result<Json>)
      ensures r == http(InstanceGet(CourtsPath, map[]))
    {
      r := http(InstanceGet(CourtsPath, map[]));
    }

    method ListarClasses(http: Request -> Result<Json>) returns (r: Result<Json>)
      ensures r == http(InstanceGet(ClassesPath, map[]))
    {
      r := http(InstanceGet(ClassesPath, map[]));
    }

    method ListarAssuntos(http: Request -> Result<Json>) returns (r: Result<Json>)
      ensures r == http(InstanceGet(SubjectsPath, map[]))
    {
      r := http(InstanceGet(SubjectsPath, map[]));
    }
  }
}
