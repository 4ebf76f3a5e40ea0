/**
 * The MCP server of `src/index.ts`: the tool names it lists, the dispatch of a tool call with
 * its "not configured" guards and its conversion of every thrown error into one text reply, the
 * two configuration tools, the status report and the certificate tools.
 *
 * The environment, the command runner and the network are the three parts of `World`; a reply
 * is the text of its single content item.
 */
module McpServer {
  import opened Results
  import opened Json
  import opened Certificates
  import opened ApiClient

  datatype World = World(
    env: map<string, string>,
    run: string -> Result<string>,
    http: Request -> Result<Json>)

  datatype Tool =
    | Configurar
    | ListarProcessos
    | BuscarProcesso
    | ListarOrgaosJulgadores
    | ListarClasses
    | ListarAssuntos
    | Status
    | ConfigurarCertificado
    | ListarCertificados
    | InfoCertificado

  function ToolName(t: Tool): string
  {
    match t
    case Configurar => "pje_configurar"
    case ListarProcessos => "pje_listar_processos"
    case BuscarProcesso => "pje_buscar_processo"
    case ListarOrgaosJulgadores => "pje_listar_orgaos_julgadores"
    case ListarClasses => "pje_listar_classes"
    case ListarAssuntos => "pje_listar_assuntos"
    case Status => "pje_status"
    case ConfigurarCertificado => "pje_configurar_certificado"
    case ListarCertificados => "pje_listar_certificados"
    case InfoCertificado => "pje_info_certificado"
  }

  /** The `switch` on the tool name: each listed name selects its tool, any other name none. */
  function ToolOf(name: string): (t: Option<Tool>)
    ensures t.Some? ==> ToolName(t.value) == name
    ensures t.None? ==> forall u :: ToolName(u) != name
  {
    if name == "pje_configurar" then Some(Configurar)
    else if name == "pje_listar_processos" then Some(ListarProcessos)
    else if name == "pje_buscar_processo" then Some(BuscarProcesso)
    else if name == "pje_listar_orgaos_julgadores" then Some(ListarOrgaosJulgadores)
    else if name == "pje_listar_classes" then Some(ListarClasses)
    else if name == "pje_listar_assuntos" then Some(ListarAssuntos)
    else if name == "pje_status" then Some(Status)
    else if name == "pje_configurar_certificado" then Some(ConfigurarCertificado)
    else if name == "pje_listar_certificados" then Some(ListarCertificados)
    else if name == "pje_info_certificado" then Some(InfoCertificado)
    else None
  }

  /** Every tool is reached by its own name, so no two tools share a name. */
  lemma ToolNameRoundTrip(t: Tool)
    ensures ToolOf(ToolName(t)) == Some(t)
    ensures forall u :: ToolName(u) == ToolName(t) ==> u == t
  {
    match t
    case Configurar =>
    case ListarProcessos =>
    case BuscarProcesso =>
    case ListarOrgaosJulgadores =>
    case ListarClasses =>
    case ListarAssuntos =>
    case Status =>
    case ConfigurarCertificado =>
    case ListarCertificados =>
    case InfoCertificado =>
  }

  /** The names the tool list announces, in its order; each of them is dispatched. */
  function ListedTools(): (names: seq<string>)
    ensures |names| == 10
    ensures forall i :: 0 <= i < |names| ==> ToolOf(names[i]).Some?
    ensures forall t :: ToolName(t) in names
  {
    [ToolName(Configurar), ToolName(ListarProcessos), ToolName(BuscarProcesso),
     ToolName(ListarOrgaosJulgadores), ToolName(ListarClasses), ToolName(ListarAssuntos),
     ToolName(Status), ToolName(ConfigurarCertificado), ToolName(ListarCertificados),
     ToolName(InfoCertificado)]
  }

  /** The five tools that talk to the PJE API and so need a configured client. */
  predicate NeedsClient(t: Tool)
  {
    t.ListarProcessos? || t.BuscarProcesso? || t.ListarOrgaosJulgadores? || t.ListarClasses? || t.ListarAssuntos?
  }

  const NotConfigured: string := "PJE não configurado"
  const UnknownToolPrefix: string := "Ferramenta desconhecida: "

  /** The reply the dispatch's `catch` makes of a thrown error. */
  function ErrorReply(e: Error): string
  {
    "Erro: " + e.message
  }

  /** A data tool's reply: its heading and the indented response, or the error it threw. */
  function DataReply(heading: string, response: Result<Json>): string
  {
    match response
    case Ok(data) => heading + "\n\n" + Pretty(data, 0)
    case Err(e) => ErrorReply(e)
  }

  const ProcessesHeading: string := "📋 **Processos encontrados:**"
  const ProcessHeading: string := "📄 **Detalhes do processo:**"
  const CourtsHeading: string := "🏛️ **Órgãos julgadores:**"
  const ClassesHeading: string := "📚 **Classes processuais:**"
  const SubjectsHeading: string := "📑 **Assuntos processuais:**"

  /** An argument declared as a string: present when the caller sent a string. */
  function ArgText(args: map<string, Json>, key: string): (r: Option<string>)
    ensures r.Some? <==> key in args && args[key].JStr?
    ensures r.Some? ==> r.value == args[key].s
  {
    if key in args && args[key].JStr? then Some(args[key].s) else None
  }

  const DefaultBaseUrl: string := "https://pje.tjce.jus.br"
  const DefaultAppName: string := "pje-tjce-1g"

  /**
   * The configuration `configurarPJE` builds: each setting from the arguments, else from the
   * environment, with defaults for the base URL and the application name; never a certificate.
   */
  function BuildConfig(args: map<string, Json>, env: map<string, string>): (c: PjeConfig)
    ensures c.certificate.None?
    ensures c.baseUrl == OrElse(Or(ArgText(args, "baseUrl"), EnvVar(env, "PJE_BASE_URL")), DefaultBaseUrl)
    ensures c.baseUrl != ""
    ensures c.appName == Some(OrElse(Or(ArgText(args, "appName"), EnvVar(env, "PJE_APP_NAME")), DefaultAppName))
    ensures Present(ArgText(args, "ssoUrl")) ==> c.ssoUrl == ArgText(args, "ssoUrl")
    ensures !Present(ArgText(args, "ssoUrl")) ==> c.ssoUrl == EnvVar(env, "PJE_SSO_URL")
    ensures c.clientId == Or(ArgText(args, "clientId"), EnvVar(env, "PJE_CLIENT_ID"))
    ensures c.clientSecret == Or(ArgText(args, "clientSecret"), EnvVar(env, "PJE_CLIENT_SECRET"))
    ensures c.username == Or(ArgText(args, "username"), EnvVar(env, "PJE_USERNAME"))
    ensures c.password == Or(ArgText(args, "password"), EnvVar(env, "PJE_PASSWORD"))
  {
    PjeConfig(
      baseUrl := OrElse(Or(ArgText(args, "baseUrl"), EnvVar(env, "PJE_BASE_URL")), DefaultBaseUrl),
      ssoUrl := Or(ArgText(args, "ssoUrl"), EnvVar(env, "PJE_SSO_URL")),
      clientId := Or(ArgText(args, "clientId"), EnvVar(env, "PJE_CLIENT_ID")),
      clientSecret := Or(ArgText(args, "clientSecret"), EnvVar(env, "PJE_CLIENT_SECRET")),
      username := Or(ArgText(args, "username"), EnvVar(env, "PJE_USERNAME")),
      password := Or(ArgText(args, "password"), EnvVar(env, "PJE_PASSWORD")),
      appName := Some(OrElse(Or(ArgText(args, "appName"), EnvVar(env, "PJE_APP_NAME")), DefaultAppName)),
      certificate := None)
  }

  /** `${value}` for an optional string. */
  function Shown(o: Option<string>): string
  {
    match o
    case None => "undefined"
    case Some(s) => s
  }

  /** The reply of `configurarPJE` when the certificate could not be loaded. */
  function NoCertificateReply(config: PjeConfig, message: string): string
  {
    NoCertificateTitle + config.baseUrl + "\n- App: " + Shown(config.appName) + NoCertificateError + message
  }

  const NoCertificateTitle: string := "❌ PJE configurado sem certificado!\n\n🎯 **Configuração:**\n- URL: "
  const NoCertificateError: string := "\n- Certificado: ❌ Erro ao carregar\n\n**Erro:** "

  /** The arguments-or-environment value of one certificate setting. */
  function CertificateSetting(args: map<string, Json>, env: map<string, string>, key: string, envName: string)
    : (r: Option<string>)
    ensures Present(ArgText(args, key)) ==> r == ArgText(args, key)
    ensures !Present(ArgText(args, key)) ==> r == EnvVar(env, envName)
  {
    Or(ArgText(args, key), EnvVar(env, envName))
  }

  function Thumbprint(args: map<string, Json>, env: map<string, string>): Option<string>
  {
    CertificateSetting(args, env, "certificateThumbprint", "PJE_CERTIFICATE_THUMBPRINT")
  }

  function Password(args: map<string, Json>, env: map<string, string>): Option<string>
  {
    CertificateSetting(args, env, "certificatePassword", "PJE_CERTIFICATE_PASSWORD")
  }

  const MissingCredentials: string := "Thumbprint e senha do certificado são obrigatórios"

  /** The configuration a new client gets from `configurarCertificado`. */
  function CertificateClientConfig(env: map<string, string>, certificate: CertificateConfig): (c: PjeConfig)
    ensures c.certificate == Some(certificate)
    ensures c.baseUrl == OrElse(EnvVar(env, "PJE_BASE_URL"), DefaultBaseUrl)
    ensures c.appName == Some(OrElse(EnvVar(env, "PJE_APP_NAME"), DefaultAppName))
    ensures c.ssoUrl.None? && c.clientId.None? && c.clientSecret.None? && c.username.None? && c.password.None?
  {
    PjeConfig(
      baseUrl := OrElse(EnvVar(env, "PJE_BASE_URL"), DefaultBaseUrl),
      ssoUrl := None, clientId := None, clientSecret := None, username := None, password := None,
      appName := Some(OrElse(EnvVar(env, "PJE_APP_NAME"), DefaultAppName)),
      certificate := Some(certificate))
  }

  /** `getCertificateInfo()` as a JSON object; an undefined path is left out. */
  function InfoJson(info: CertificateInfo): (j: Json)
    ensures j.JObj?
    ensures Member(j.members, "thumbprint") == Some(JStr(info.thumbprint))
    ensures Member(j.members, "path") == (match info.path case None => None case Some(p) => Some(JStr(p)))
    ensures Member(j.members, "hasPassword") == Some(JBool(info.hasPassword))
    ensures Member(j.members, "provider") == Some(JStr(info.provider))
    ensures Member(j.members, "subject").None?
  {
    InfoMember(info, "thumbprint");
    InfoMember(info, "path");
    InfoMember(info, "hasPassword");
    InfoMember(info, "provider");
    InfoMember(info, "subject");
    JObj(InfoMembers(info))
  }

  /** The members of the information object, in the order of its literal. */
  function InfoMembers(info: CertificateInfo): seq<(string, Json)>
  {
    var path := match info.path case None => [] case Some(p) => [("path", JStr(p))];
    [("thumbprint", JStr(info.thumbprint))] + path
    + [("hasPassword", JBool(info.hasPassword)), ("provider", JStr(info.provider))]
  }

  /** What one key of the information object reads. */
  lemma InfoMember(info: CertificateInfo, key: string)
    ensures Member(InfoMembers(info), key)
            == if key == "provider" then Some(JStr(info.provider))
               else if key == "hasPassword" then Some(JBool(info.hasPassword))
               else if key == "path" then (match info.path case None => None case Some(p) => Some(JStr(p)))
               else if key == "thumbprint" then Some(JStr(info.thumbprint))
               else None
  {
    var first := ("thumbprint", JStr(info.thumbprint));
    var path := match info.path case None => [] case Some(p) => [("path", JStr(p))];
    var a := [first] + path;
    var b := a + [("hasPassword", JBool(info.hasPassword))];
    assert InfoMembers(info) == b + [("provider", JStr(info.provider))];
    MemberOfLast(b, "provider", JStr(info.provider), key);
    MemberOfLast(a, "hasPassword", JBool(info.hasPassword), key);
    MemberOfLast([], first.0, first.1, key);
    match info.path
    case None =>
      assert a == [] + [first];
    case Some(p) =>
      assert a == [first] + [("path", JStr(p))];
      MemberOfLast([first], "path", JStr(p), key);
      assert [first] == [] + [first];
  }

  const InfoTitle: string := "\n\n**Informações do Certificado:**\n"

  const SuccessTitle: string :=
    "🔐 **Certificado Digital Configurado com Sucesso!**\n\n✅ Certificado carregado e autenticado\n"
    + "🎯 Pronto para usar com todas as funcionalidades do PJE\n\n**Informações do Certificado:**\n"

  const AuthFailedTitle: string :=
    "⚠️ **Certificado Carregado, mas Autenticação Falhou**\n\nCertificado foi carregado, mas a autenticação no PJE falhou.\nErro: "

  function CertificateSuccessReply(info: CertificateInfo): string
  {
    SuccessTitle + Pretty(InfoJson(info), 0)
  }

  function CertificateAuthFailedReply(e: Error, info: CertificateInfo): string
  {
    AuthFailedTitle + ErrorText(e) + InfoTitle + Pretty(InfoJson(info), 0)
  }

  const CertificateErrorTitle: string := "❌ **Erro ao Configurar Certificado Digital**\n\n"

  const CertificateHints: string :=
    "\n\n**Dicas:**\n1. Verifique se o arquivo .pfx existe no caminho especificado\n"
    + "2. Confirme se a senha do certificado está correta\n"
    + "3. Para certificados do Windows, use o thumbprint ou subject\n"
    + "4. Execute 'pje_listar_certificados' para ver certificados disponíveis"

  function CertificateErrorReply(message: string): string
  {
    CertificateErrorTitle + message + CertificateHints
  }

  /** The certificate login `configurarCertificado` makes once the certificate is initialised. */
  function CertificateLogin(thumbprint: string, http: Request -> Result<Json>, token: Option<Json>,
                            appName: Option<string>, agent: Agent?): Result<Option<Json>>
  {
    TokenOutcome(http(CertificateAuthRequest(token, appName, agent, CertOption(TokenCertificate(thumbprint, Provider)))),
                 CertificateAuthPrefix)
  }

  /**
   * The reply of `configurarCertificado` once both settings are known: the error reply when the
   * certificate does not initialise, otherwise the reply for the login's outcome, both showing the
   * certificate information. `token`, `appName` and `agent` are those the login goes out with.
   */
  function CertificateOutcomeReply(thumbprint: string, password: string, world: World, token: Option<Json>,
                                   appName: Option<string>, agent: Agent?): string
  {
    var info := CertificateInfo(thumbprint, None, password != "", Provider);
    match InitializeOutcome(TokenConfig(thumbprint, password), world.run)
    case Err(e) => CertificateErrorReply(InitErrorPrefix + ErrorText(e))
    case Ok(_) =>
      match CertificateLogin(thumbprint, world.http, token, appName, agent)
      case Ok(_) => CertificateSuccessReply(info)
      case Err(e) => CertificateAuthFailedReply(e, info)
  }

  const ListCertificatesCommand: string := "certutil -store My"

  const CertificatesTitle: string := "🔍 **Certificados Digitais Disponíveis no Windows**\n\n"
  const ListErrorTitle: string := "❌ **Erro ao Listar Certificados**\n\n"
  const WindowsNote: string := "\n\n**Nota:** Esta funcionalidade requer Windows e acesso ao Certificate Store."

  /** `listarCertificados`: the store listing, or the error with a note about Windows. */
  function CertificatesReply(listing: Result<string>): string
  {
    match listing
    case Ok(stdout) => CertificatesTitle + stdout
    case Err(e) => ListErrorTitle + e.message + WindowsNote
  }

  const NoCertificateInfo: string :=
    "❌ **Nenhum Certificado Configurado**\n\nExecute 'pje_configurar_certificado' primeiro para carregar um certificado digital."
  const InfoErrorTitle: string := "❌ **Erro ao Obter Informações do Certificado**\n\n"
  /** The TypeError `info.subject.forEach(...)` throws when `subject` is undefined. */
  const ForEachOfUndefined: string := "Cannot read properties of undefined (reading 'forEach')"

  // The status report

  /** One line of the status report. */
  datatype StatusLine =
    | Heading(text: string)
    | Item(name: string, value: string)
    | Step(text: string)
    | Blank

  function Render(line: StatusLine): string
  {
    match line
    case Heading(text) => text
    case Item(name, value) => "- " + name + ": " + value + "\n"
    case Step(text) => text
    case Blank => "\n"
  }

  /** The report text: the rendered lines one after another. */
  function Concat(lines: seq<StatusLine>): string
  {
    if lines == [] then "" else Concat(lines[..|lines| - 1]) + Render(lines[|lines| - 1])
  }

  lemma ConcatSnoc(lines: seq<StatusLine>, line: StatusLine)
    ensures Concat(lines + [line]) == Concat(lines) + Render(line)
  {
    assert (lines + [line])[..|lines|] == lines;
  }

  /** Rendering distributes over the concatenation of two reports. */
  lemma {:induction false} ConcatAppend(a: seq<StatusLine>, b: seq<StatusLine>)
    ensures Concat(a + b) == Concat(a) + Concat(b)
    decreases |b|
  {
    if b == [] {
      assert a + b == a;
    } else {
      var front, last := b[..|b| - 1], b[|b| - 1];
      assert b == front + [last];
      assert a + b == (a + front) + [last];
      calc {
        Concat(a + b);
        == { ConcatSnoc(a + front, last); }
        Concat(a + front) + Render(last);
        == { ConcatAppend(a, front); }
        (Concat(a) + Concat(front)) + Render(last);
        == { assert (Concat(a) + Concat(front)) + Render(last) == Concat(a) + (Concat(front) + Render(last)); }
        Concat(a) + (Concat(front) + Render(last));
        == { ConcatSnoc(front, last); }
        Concat(a) + Concat(b);
      }
    }
  }

  /** What the report knows of the client. */
  datatype ClientState = NoClient | ClientWith(hasToken: bool, hasManager: bool)

  const NotSet: string := "❌ Não configurado"

  /** `${value || '❌ Não configurado'}` */
  function Setting(o: Option<string>): string
  {
    OrElse(o, NotSet)
  }

  /** A secret is reported only by whether it is set. */
  function Masked(o: Option<string>): (r: Option<string>)
    ensures Present(o) ==> r == Some("***")
    ensures !Present(o) ==> r.None?
  {
    if Present(o) then Some("***") else None
  }

  const TokenActive: string := "✅ Token ativo"
  const CertificateConfigured: string := "🔐 Certificado configurado"
  const PublicOnly: string := "⚠️ Apenas consultas públicas"

  /** The authentication line: a token first, then a certificate manager, then public access. */
  function AuthValue(hasToken: bool, hasManager: bool): (v: string)
    ensures hasToken ==> v == TokenActive
    ensures !hasToken && hasManager ==> v == CertificateConfigured
    ensures !hasToken && !hasManager ==> v == PublicOnly
  {
    if hasToken then TokenActive else if hasManager then CertificateConfigured else PublicOnly
  }

  const StepBaseUrl: string := "1. Configure PJE_BASE_URL no arquivo .env\n"
  const StepCredentials: string := "2. Configure certificado digital ou credenciais SSO no arquivo .env\n"
  const StepConfigure: string := "3. Execute: 'Configure o PJE'\n"
  const StepReady: string := "3. ✅ Pronto para usar!\n"

  const StatusTitle: string := "🔍 **STATUS DO PJE MCP SERVER**\n\n"
  const EnvHeading: string := "🔧 **Configuração do arquivo .env:**\n"
  const CertificateHeading: string := "🔐 **Certificado Digital:**\n"
  const ConnectionHeading: string := "🔗 **Conexão:**\n"
  const NextStepsHeading: string := "\n💡 **Próximos passos:**\n"
  const NoClientStatus: string := "❌ Cliente não configurado"
  const NoClientSolution: string := "Execute 'pje_configurar' primeiro"
  const ClientStatus: string := "✅ Cliente configurado"

  /** A next step, listed only when its condition holds. */
  function OptionalStep(listed: bool, text: string): (steps: seq<StatusLine>)
    ensures listed ==> steps == [Step(text)]
    ensures !listed ==> steps == []
  {
    if listed then [Step(text)] else []
  }

  function EnvLines(env: map<string, string>): seq<StatusLine>
  {
    [Heading(EnvHeading),
     Item("URL Base", Setting(EnvVar(env, "PJE_BASE_URL"))),
     Item("App Name", Setting(EnvVar(env, "PJE_APP_NAME"))),
     Item("SSO URL", Setting(EnvVar(env, "PJE_SSO_URL"))),
     Item("Client ID", Setting(EnvVar(env, "PJE_CLIENT_ID"))),
     Item("Client Secret", Setting(EnvVar(env, "PJE_CLIENT_SECRET"))),
     Item("Username", Setting(Masked(EnvVar(env, "PJE_USERNAME")))),
     Item("Password", Setting(Masked(EnvVar(env, "PJE_PASSWORD")))),
     Blank]
  }

  function CertificateLines(env: map<string, string>): seq<StatusLine>
  {
    [Heading(CertificateHeading),
     Item("Arquivo PFX", Setting(EnvVar(env, "PJE_CERTIFICATE_PFX_PATH"))),
     Item("Senha PFX", Setting(Masked(EnvVar(env, "PJE_CERTIFICATE_PFX_PASSWORD")))),
     Item("Thumbprint", Setting(EnvVar(env, "PJE_CERTIFICATE_THUMBPRINT"))),
     Blank]
  }

  function ConnectionLines(state: ClientState): seq<StatusLine>
  {
    [Heading(ConnectionHeading)]
    + match state
      case NoClient =>
        [Item("Status", NoClientStatus), Item("Solução", NoClientSolution), Blank]
      case ClientWith(hasToken, hasManager) =>
        [Item("Status", ClientStatus), Item("Autenticação", AuthValue(hasToken, hasManager))]
  }

  function NextStepLines(env: map<string, string>, state: ClientState): seq<StatusLine>
  {
    [Heading(NextStepsHeading)]
    + OptionalStep(!Present(EnvVar(env, "PJE_BASE_URL")), StepBaseUrl)
    + OptionalStep(!Present(EnvVar(env, "PJE_CERTIFICATE_PFX_PATH")) && !Present(EnvVar(env, "PJE_SSO_URL")),
                   StepCredentials)
    + [Step(if state.NoClient? then StepConfigure else StepReady)]
  }

  /** The title and the two configuration sections, which depend on the environment only. */
  function StatusHead(env: map<string, string>): seq<StatusLine>
  {
    [Heading(StatusTitle)] + EnvLines(env) + CertificateLines(env)
  }

  /** The lines of the status report, section by section. */
  function StatusLines(env: map<string, string>, state: ClientState): seq<StatusLine>
  {
    StatusHead(env) + ConnectionLines(state) + NextStepLines(env, state)
  }

  /** The configuration sections hold no authentication line and no next step. */
  lemma StatusHeadItems(env: map<string, string>)
    ensures forall line :: line in StatusHead(env) ==> !line.Step?
    ensures forall line :: line in StatusHead(env) && line.Item? ==> line.name != "Autenticação"
  {
  }

  const SecretNames: set<string> := {"PJE_USERNAME", "PJE_PASSWORD", "PJE_CERTIFICATE_PFX_PASSWORD"}

  /**
   * The report shows nothing of the username, the password and the PFX password but whether
   * they are set: two environments that differ only in those values give the same report.
   */
  lemma StatusHidesSecrets(env1: map<string, string>, env2: map<string, string>, state: ClientState)
    requires forall name :: name !in SecretNames ==> EnvVar(env1, name) == EnvVar(env2, name)
    requires forall name :: name in SecretNames ==> Present(EnvVar(env1, name)) == Present(EnvVar(env2, name))
    ensures Concat(StatusLines(env1, state)) == Concat(StatusLines(env2, state))
  {
    assert Masked(EnvVar(env1, "PJE_USERNAME")) == Masked(EnvVar(env2, "PJE_USERNAME"));
    assert Masked(EnvVar(env1, "PJE_PASSWORD")) == Masked(EnvVar(env2, "PJE_PASSWORD"));
    assert Masked(EnvVar(env1, "PJE_CERTIFICATE_PFX_PASSWORD")) == Masked(EnvVar(env2, "PJE_CERTIFICATE_PFX_PASSWORD"));
    assert EnvVar(env1, "PJE_BASE_URL") == EnvVar(env2, "PJE_BASE_URL");
    assert EnvVar(env1, "PJE_APP_NAME") == EnvVar(env2, "PJE_APP_NAME");
    assert EnvVar(env1, "PJE_SSO_URL") == EnvVar(env2, "PJE_SSO_URL");
    assert EnvVar(env1, "PJE_CLIENT_ID") == EnvVar(env2, "PJE_CLIENT_ID");
    assert EnvVar(env1, "PJE_CLIENT_SECRET") == EnvVar(env2, "PJE_CLIENT_SECRET");
    assert EnvVar(env1, "PJE_CERTIFICATE_PFX_PATH") == EnvVar(env2, "PJE_CERTIFICATE_PFX_PATH");
    assert EnvVar(env1, "PJE_CERTIFICATE_THUMBPRINT") == EnvVar(env2, "PJE_CERTIFICATE_THUMBPRINT");
    assert StatusLines(env1, state) == StatusLines(env2, state);
  }

  /** Each secret line shows `***` when the secret is set and the "not configured" mark otherwise. */
  lemma SecretLines(env: map<string, string>, state: ClientState)
    ensures var lines := StatusLines(env, state);
            lines[7] == Item("Username", if Present(EnvVar(env, "PJE_USERNAME")) then "***" else NotSet)
            && lines[8] == Item("Password", if Present(EnvVar(env, "PJE_PASSWORD")) then "***" else NotSet)
            && lines[12] == Item("Senha PFX", if Present(EnvVar(env, "PJE_CERTIFICATE_PFX_PASSWORD")) then "***" else NotSet)
  {
  }

  /** With a client, the report has exactly one authentication line. */
  lemma AuthItemUnique(env: map<string, string>, hasToken: bool, hasManager: bool)
    ensures forall v :: Item("Autenticação", v) in StatusLines(env, ClientWith(hasToken, hasManager))
                        <==> v == AuthValue(hasToken, hasManager)
  {
    var state := ClientWith(hasToken, hasManager);
    var auth := Item("Autenticação", AuthValue(hasToken, hasManager));
    assert ConnectionLines(state) == [Heading(ConnectionHeading), Item("Status", ClientStatus), auth];
    assert |"Status"| != |"Autenticação"|;
    StatusHeadItems(env);
    assert forall line :: line in NextStepLines(env, state) ==> !line.Item?;
    var lines := StatusLines(env, state);
    assert lines == StatusHead(env) + ConnectionLines(state) + NextStepLines(env, state);
    assert auth in lines;
    forall v | Item("Autenticação", v) in lines
      ensures v == AuthValue(hasToken, hasManager)
    {
      assert Item("Autenticação", v) in ConnectionLines(state);
    }
  }

  /**
   * With a client, the authentication line reports a token if there is one, else a certificate
   * manager if there is one, else public access only.
   */
  lemma StatusAuthenticationLine(env: map<string, string>, hasToken: bool, hasManager: bool)
    ensures var lines := StatusLines(env, ClientWith(hasToken, hasManager));
            (Item("Autenticação", TokenActive) in lines <==> hasToken)
            && (Item("Autenticação", CertificateConfigured) in lines <==> !hasToken && hasManager)
            && (Item("Autenticação", PublicOnly) in lines <==> !hasToken && !hasManager)
  {
    AuthItemUnique(env, hasToken, hasManager);
    assert TokenActive != CertificateConfigured && TokenActive != PublicOnly && CertificateConfigured != PublicOnly by {
      assert |TokenActive| != |CertificateConfigured| && |TokenActive| != |PublicOnly|;
      assert |CertificateConfigured| != |PublicOnly|;
    }
  }

  /** Which next steps the last section lists. */
  lemma NextStepMembership(env: map<string, string>, state: ClientState)
    ensures var steps := NextStepLines(env, state);
            (Step(StepBaseUrl) in steps <==> !Present(EnvVar(env, "PJE_BASE_URL")))
            && (Step(StepCredentials) in steps
                <==> !Present(EnvVar(env, "PJE_CERTIFICATE_PFX_PATH")) && !Present(EnvVar(env, "PJE_SSO_URL")))
            && (Step(StepConfigure) in steps <==> state.NoClient?)
            && (Step(StepReady) in steps <==> state.ClientWith?)
  {
    assert |StepBaseUrl| != |StepCredentials| && |StepConfigure| != |StepReady|;
    assert |StepBaseUrl| != |StepConfigure| && |StepBaseUrl| != |StepReady|;
    assert |StepCredentials| != |StepConfigure| && |StepCredentials| != |StepReady|;
  }

  /**
   * The first two next steps appear exactly when the base URL, and both the PFX path and the
   * SSO URL, are unset; the third depends only on whether a client exists.
   */
  lemma StatusNextSteps(env: map<string, string>, state: ClientState)
    ensures var lines := StatusLines(env, state);
            (Step(StepBaseUrl) in lines <==> !Present(EnvVar(env, "PJE_BASE_URL")))
            && (Step(StepCredentials) in lines
                <==> !Present(EnvVar(env, "PJE_CERTIFICATE_PFX_PATH")) && !Present(EnvVar(env, "PJE_SSO_URL")))
            && (Step(StepConfigure) in lines <==> state.NoClient?)
            && (Step(StepReady) in lines <==> state.ClientWith?)
  {
    StatusHeadItems(env);
    assert forall line :: line in ConnectionLines(state) ==> !line.Step?;
    NextStepMembership(env, state);
  }

  /** Without a client the report says so and asks for the configuration tool. */
  lemma StatusWithoutClient(env: map<string, string>)
    ensures var lines := StatusLines(env, NoClient);
            Item("Status", NoClientStatus) in lines
            && Item("Solução", NoClientSolution) in lines
            && Step(StepConfigure) in lines
  {
    var connection := [Heading(ConnectionHeading), Item("Status", NoClientStatus),
                       Item("Solução", NoClientSolution), Blank];
    var steps := NextStepLines(env, NoClient);
    assert ConnectionLines(NoClient) == connection;
    assert StatusLines(env, NoClient) == StatusHead(env) + connection + steps;
    assert steps[|steps| - 1] == Step(StepConfigure);
  }

  /** Without a client the report has no authentication line. */
  lemma StatusWithoutClientHasNoAuthentication(env: map<string, string>)
    ensures forall line :: line in StatusLines(env, NoClient) && line.Item? ==> line.name != "Autenticação"
  {
    var head := StatusHead(env);
    var connection := [Heading(ConnectionHeading), Item("Status", NoClientStatus),
                       Item("Solução", NoClientSolution), Blank];
    var steps := NextStepLines(env, NoClient);
    assert ConnectionLines(NoClient) == connection;
    assert StatusLines(env, NoClient) == head + connection + steps;
    StatusHeadItems(env);
    assert |"Status"| != |"Autenticação"| && |"Solução"| != |"Autenticação"|;
    assert forall line :: line in steps ==> !line.Item?;
  }

  /**
   * The end of `configurarCertificado`, on a client whose certificate manager was just replaced:
   * the certificate is initialised, the client authenticates with it, and the reply says how
   * far it got. A failed initialisation leaves agent and token alone; a failed authentication
   * leaves the token alone.
   */
  method InitializeAndLogin(client: PjeClient, thumbprint: string, password: string, world: World)
    returns (text: string)
    requires client.certificateManager != null && client.certificateManager.agent == null
    requires client.certificateManager.config == TokenConfig(thumbprint, password)
    modifies client`httpsAgent, client`accessToken, client.certificateManager
    ensures client.certificateManager == old(client.certificateManager)
    ensures InitializeOutcome(TokenConfig(thumbprint, password), world.run).Err? ==>
              text == CertificateErrorReply(
                        InitErrorPrefix + ErrorText(InitializeOutcome(TokenConfig(thumbprint, password), world.run).error))
              && client.certificateManager.agent == null
              && client.accessToken == old(client.accessToken) && client.httpsAgent == old(client.httpsAgent)
    ensures InitializeOutcome(TokenConfig(thumbprint, password), world.run).Ok? ==>
              var login := CertificateLogin(thumbprint, world.http, old(client.accessToken), client.config.appName,
                                            client.httpsAgent);
              var info := CertificateInfo(thumbprint, None, password != "", Provider);
              client.httpsAgent != null && fresh(client.httpsAgent)
              && client.httpsAgent == client.certificateManager.agent
              && client.httpsAgent.options == TokenAgentOptions(TokenConfig(thumbprint, password))
              && (login.Ok? ==> text == CertificateSuccessReply(info) && client.accessToken == login.value)
              && (login.Err? ==> text == CertificateAuthFailedReply(login.error, info)
                                 && client.accessToken == old(client.accessToken))
    ensures text == CertificateOutcomeReply(thumbprint, password, world, old(client.accessToken),
                                            client.config.appName, client.httpsAgent)
  {
    var init := client.InitializeCertificate(world.run);
    if init.Err? {
      return CertificateErrorReply(init.error.message);
    }
    assert CertificateOf(client.httpsAgent.options) == CertOption(TokenCertificate(thumbprint, Provider));
    var auth := client.AuthenticateWithCertificate(world.http);
    var info := client.GetCertificateInfo();
    if info.Err? {
      assert false;
    }
    assert info.value == CertificateInfo(thumbprint, None, password != "", Provider);
    match auth
    case Ok(_) =>
      text := CertificateSuccessReply(info.value);
    case Err(e) =>
      text := CertificateAuthFailedReply(e, info.value);
  }

  class PjeServer {
    var pjeClient: PjeClient?

    constructor ()
      ensures pjeClient == null
    {
      pjeClient := null;
    }

    function ClientStateOf(): (s: ClientState)
      reads this, pjeClient
      ensures s.NoClient? <==> pjeClient == null
      ensures pjeClient != null ==>
                s == ClientWith(Given(pjeClient.accessToken), pjeClient.certificateManager != null)
    {
      if pjeClient == null then NoClient
      else ClientWith(Given(pjeClient.accessToken), pjeClient.certificateManager != null)
    }

    /**
     * `verificarStatus`: the report is appended line by line; it is the rendering of the status
     * lines for the environment and the client.
     */
    method VerificarStatus(env: map<string, string>) returns (text: string)
      ensures text == Concat(StatusLines(env, ClientStateOf()))
    {
      text := Concat(StatusHead(env));
      var connection := [Heading(ConnectionHeading)];
      if pjeClient == null {
        connection := connection + [Item("Status", NoClientStatus), Item("Solução", NoClientSolution), Blank];
      } else {
        var auth: string;
        if Given(pjeClient.accessToken) {
          auth := TokenActive;
        } else if pjeClient.certificateManager != null {
          auth := CertificateConfigured;
        } else {
          auth := PublicOnly;
        }
        connection := connection + [Item("Status", ClientStatus), Item("Autenticação", auth)];
      }
      assert connection == ConnectionLines(ClientStateOf());
      ConcatAppend(StatusHead(env), connection);
      text := text + Concat(connection);
      var steps := [Heading(NextStepsHeading)];
      var listed := !Present(EnvVar(env, "PJE_BASE_URL"));
      if listed {
        steps := steps + [Step(StepBaseUrl)];
      }
      assert steps == [Heading(NextStepsHeading)] + OptionalStep(listed, StepBaseUrl);
      listed := !Present(EnvVar(env, "PJE_CERTIFICATE_PFX_PATH")) && !Present(EnvVar(env, "PJE_SSO_URL"));
      if listed {
        steps := steps + [Step(StepCredentials)];
      }
      steps := steps + [Step(if pjeClient == null then StepConfigure else StepReady)];
      assert steps == NextStepLines(env, ClientStateOf());
      ConcatAppend(StatusHead(env) + connection, steps);
      text := text + Concat(steps);
    }

    /** `listarProcessos` of the server: the filter, page and size arguments, no fields, no order. */
    method ListarProcessosTool(args: map<string, Json>, http: Request -> Result<Json>) returns (text: string)
      requires pjeClient != null
      ensures text == DataReply(ProcessesHeading,
                                http(pjeClient.InstanceGet(ProcessesPath,
                                     ProcessQuery(Property(args, "filter"), None, None,
                                                  Property(args, "page"), Property(args, "size")))))
    {
      var result := pjeClient.ListarProcessos(Property(args, "filter"), None, None,
                                              Property(args, "page"), Property(args, "size"), http);
      text := DataReply(ProcessesHeading, result);
    }

    method BuscarProcessoTool(args: map<string, Json>, http: Request -> Result<Json>) returns (text: string)
      requires pjeClient != null
      ensures text == DataReply(ProcessHeading,
                                http(pjeClient.InstanceGet(ProcessesPath + "/" + DisplayText(Property(args, "id")), map[])))
    {
      var result := pjeClient.BuscarProcesso(Property(args, "id"), http);
      text := DataReply(ProcessHeading, result);
    }

    /**
     * `configurarPJE`: the fixed certificate it builds never reaches the new client's
     * configuration, so the client has no certificate; yet the certificate branch is always
     * taken, so the reply is always the one for a certificate that could not be loaded, and the
     * SSO and public branches after it are never reached.
     */
    method ConfigurarPJE(args: map<string, Json>, world: World) returns (text: string)
      modifies this`pjeClient
      ensures pjeClient != null && fresh(pjeClient)
      ensures pjeClient.config == BuildConfig(args, world.env)
      ensures pjeClient.certificateManager == null && pjeClient.accessToken.None? && pjeClient.httpsAgent == null
      ensures text == NoCertificateReply(BuildConfig(args, world.env), NoCertificate)
    {
      var config := BuildConfig(args, world.env);
      var client := new PjeClient(config);
      pjeClient := client;
      var init := client.InitializeCertificate(world.run);
      if init.Err? {
        return NoCertificateReply(config, init.error.message);
      }
      assert false;
    }

    /**
     * The part of `configurarCertificado` that installs a certificate: a new client built with
     * it, or the current client with its certificate setting and its manager replaced.
     */
    method InstallCertificate(env: map<string, string>, certificate: CertificateConfig) returns (client: PjeClient)
      modifies this`pjeClient, pjeClient
      ensures pjeClient == client && client.config.certificate == Some(certificate)
      ensures client.certificateManager != null && fresh(client.certificateManager)
      ensures client.certificateManager.config == certificate && client.certificateManager.agent == null
      ensures old(pjeClient) == null ==>
                fresh(client) && client.config == CertificateClientConfig(env, certificate)
                && client.accessToken.None? && client.httpsAgent == null
      ensures old(pjeClient) != null ==>
                client == old(pjeClient) && client.config == old(pjeClient.config).(certificate := Some(certificate))
                && client.accessToken == old(pjeClient.accessToken) && client.httpsAgent == old(pjeClient.httpsAgent)
    {
      if pjeClient == null {
        client := new PjeClient(CertificateClientConfig(env, certificate));
        pjeClient := client;
      } else {
        client := pjeClient;
        client.config := client.config.(certificate := Some(certificate));
        client.certificateManager := new CertificateManager(certificate);
      }
    }

    /**
     * The rest of `configurarCertificado` once both settings are known: the certificate is
     * installed and initialised, and the client then authenticates with it. A failed
     * initialisation gives the error reply; a failed authentication still shows the certificate
     * information.
     */
    method ApplyCertificate(thumbprint: string, password: string, world: World) returns (text: string)
      modifies this`pjeClient, pjeClient
      ensures pjeClient != null && pjeClient.config.certificate == Some(TokenConfig(thumbprint, password))
      ensures pjeClient.certificateManager != null && fresh(pjeClient.certificateManager)
              && pjeClient.certificateManager.config == TokenConfig(thumbprint, password)
      ensures old(pjeClient) == null ==>
                fresh(pjeClient) && pjeClient.config == CertificateClientConfig(world.env, TokenConfig(thumbprint, password))
      ensures old(pjeClient) != null ==>
                pjeClient == old(pjeClient)
                && pjeClient.config == old(pjeClient.config).(certificate := Some(TokenConfig(thumbprint, password)))
      ensures InitializeOutcome(TokenConfig(thumbprint, password), world.run).Err? ==>
                text == CertificateErrorReply(
                          InitErrorPrefix + ErrorText(InitializeOutcome(TokenConfig(thumbprint, password), world.run).error))
                && pjeClient.certificateManager.agent == null
                && (old(pjeClient) == null ==> pjeClient.accessToken.None? && pjeClient.httpsAgent == null)
                && (old(pjeClient) != null ==>
                      pjeClient.accessToken == old(pjeClient.accessToken) && pjeClient.httpsAgent == old(pjeClient.httpsAgent))
      ensures InitializeOutcome(TokenConfig(thumbprint, password), world.run).Ok? ==>
                var token := if old(pjeClient) == null then None else old(pjeClient.accessToken);
                var login := CertificateLogin(thumbprint, world.http, token, pjeClient.config.appName, pjeClient.httpsAgent);
                var info := CertificateInfo(thumbprint, None, password != "", Provider);
                pjeClient.httpsAgent != null && fresh(pjeClient.httpsAgent)
                && pjeClient.httpsAgent == pjeClient.certificateManager.agent
                && pjeClient.httpsAgent.options == TokenAgentOptions(TokenConfig(thumbprint, password))
                && (login.Ok? ==> text == CertificateSuccessReply(info) && pjeClient.accessToken == login.value)
                && (login.Err? ==> text == CertificateAuthFailedReply(login.error, info) && pjeClient.accessToken == token)
      ensures text == CertificateOutcomeReply(thumbprint, password, world,
                                              if old(pjeClient) == null then None else old(pjeClient.accessToken),
                                              pjeClient.config.appName, pjeClient.httpsAgent)
    {
      var client := InstallCertificate(world.env, TokenConfig(thumbprint, password));
      text := InitializeAndLogin(client, thumbprint, password, world);
    }

    /**
     * `configurarCertificado`: both settings are required, each taken from the arguments before
     * the environment; without them nothing changes.
     */
    method ConfigurarCertificadoTool(args: map<string, Json>, world: World) returns (text: string)
      modifies this`pjeClient, pjeClient
      ensures !Present(Thumbprint(args, world.env)) || !Present(Password(args, world.env)) ==>
                text == CertificateErrorReply(MissingCredentials)
                && pjeClient == old(pjeClient) && (pjeClient != null ==> unchanged(pjeClient))
      ensures Present(Thumbprint(args, world.env)) && Present(Password(args, world.env)) ==>
                var thumbprint, password := Thumbprint(args, world.env).value, Password(args, world.env).value;
                var token := if old(pjeClient) == null then None else old(pjeClient.accessToken);
                var initialized := InitializeOutcome(TokenConfig(thumbprint, password), world.run).Ok?;
                pjeClient != null
                && pjeClient.config.certificate == Some(TokenConfig(thumbprint, password))
                && pjeClient.certificateManager != null && fresh(pjeClient.certificateManager)
                && pjeClient.certificateManager.config == TokenConfig(thumbprint, password)
                && (old(pjeClient) == null ==>
                      fresh(pjeClient) && pjeClient.config == CertificateClientConfig(world.env, TokenConfig(thumbprint, password)))
                && (old(pjeClient) != null ==>
                      pjeClient == old(pjeClient)
                      && pjeClient.config == old(pjeClient.config).(certificate := Some(TokenConfig(thumbprint, password))))
                && (initialized <==> pjeClient.certificateManager.agent != null)
                && (initialized ==> pjeClient.httpsAgent == pjeClient.certificateManager.agent)
                && (var login := CertificateLogin(thumbprint, world.http, token, pjeClient.config.appName, pjeClient.httpsAgent);
                    pjeClient.accessToken == if initialized && login.Ok? then login.value else token)
                && text == CertificateOutcomeReply(thumbprint, password, world, token,
                                                   pjeClient.config.appName, pjeClient.httpsAgent)
    {
      var thumbprint := Thumbprint(args, world.env);
      var password := Password(args, world.env);
      if !Present(thumbprint) || !Present(password) {
        return CertificateErrorReply(MissingCredentials);
      }
      text := ApplyCertificate(thumbprint.value, password.value, world);
    }

    /**
     * `infoCertificado`: without a client or a manager it asks for a certificate; otherwise the
     * information object has no `subject`, and iterating over it throws.
     */
    method InfoCertificadoTool() returns (text: string)
      ensures pjeClient == null || pjeClient.certificateManager == null ==> text == NoCertificateInfo
      ensures pjeClient != null && pjeClient.certificateManager != null ==>
                text == InfoErrorTitle + ForEachOfUndefined
    {
      if pjeClient == null || pjeClient.certificateManager == null {
        return NoCertificateInfo;
      }
      var info := pjeClient.GetCertificateInfo();
      if info.Err? {
        assert false;
      }
      var subject := Member(InfoJson(info.value).members, "subject");
      if subject.Some? {
        assert false;
      }
      return InfoErrorTitle + ForEachOfUndefined;
    }

    /**
     * The data tools of the `CallTool` handler's `switch`: each asks the API client for its
     * resource, and an error it throws becomes the error reply.
     */
    method DataTool(tool: Tool, args: map<string, Json>, http: Request -> Result<Json>) returns (text: string)
      requires NeedsClient(tool) && pjeClient != null
      ensures tool == ListarProcessos ==>
                text == DataReply(ProcessesHeading,
                                  http(pjeClient.InstanceGet(ProcessesPath,
                                    ProcessQuery(Property(args, "filter"), None, None,
                                                 Property(args, "page"), Property(args, "size")))))
      ensures tool == BuscarProcesso ==>
                text == DataReply(ProcessHeading,
                                  http(pjeClient.InstanceGet(
                                    ProcessesPath + "/" + DisplayText(Property(args, "id")), map[])))
      ensures tool == ListarOrgaosJulgadores ==>
                text == DataReply(CourtsHeading, http(pjeClient.InstanceGet(CourtsPath, map[])))
      ensures tool == ListarClasses ==>
                text == DataReply(ClassesHeading, http(pjeClient.InstanceGet(ClassesPath, map[])))
      ensures tool == ListarAssuntos ==>
                text == DataReply(SubjectsHeading, http(pjeClient.InstanceGet(SubjectsPath, map[])))
    {
      match tool
      case ListarProcessos =>
        text := ListarProcessosTool(args, http);
      case BuscarProcesso =>
        text := BuscarProcessoTool(args, http);
      case ListarOrgaosJulgadores =>
        var result := pjeClient.ListarOrgaosJulgadores(http);
        text := DataReply(CourtsHeading, result);
      case ListarClasses =>
        var result := pjeClient.ListarClasses(http);
        text := DataReply(ClassesHeading, result);
      case ListarAssuntos =>
        var result := pjeClient.ListarAssuntos(http);
        text := DataReply(SubjectsHeading, result);
    }

    /**
     * The two configuration tools of the `CallTool` handler's `switch`: each installs or updates
     * the client.
     */
    method ConfigTool(tool: Tool, args: map<string, Json>, world: World) returns (text: string)
      requires tool == Configurar || tool == ConfigurarCertificado
      modifies this`pjeClient, pjeClient
      ensures tool == Configurar ==>
                text == NoCertificateReply(BuildConfig(args, world.env), NoCertificate)
                && pjeClient != null && fresh(pjeClient) && pjeClient.config == BuildConfig(args, world.env)
                && pjeClient.certificateManager == null && pjeClient.accessToken.None? && pjeClient.httpsAgent == null
      ensures tool == ConfigurarCertificado
              && (!Present(Thumbprint(args, world.env)) || !Present(Password(args, world.env))) ==>
                text == CertificateErrorReply(MissingCredentials)
                && pjeClient == old(pjeClient) && (pjeClient != null ==> unchanged(pjeClient))
      ensures tool == ConfigurarCertificado && Present(Thumbprint(args, world.env)) && Present(Password(args, world.env)) ==>
                var thumbprint, password := Thumbprint(args, world.env).value, Password(args, world.env).value;
                pjeClient != null && pjeClient.config.certificate == Some(TokenConfig(thumbprint, password))
                && text == CertificateOutcomeReply(thumbprint, password, world,
                                                   if old(pjeClient) == null then None else old(pjeClient.accessToken),
                                                   pjeClient.config.appName, pjeClient.httpsAgent)
    {
      if tool == Configurar {
        text := ConfigurarPJE(args, world);
      } else {
        text := ConfigurarCertificadoTool(args, world);
      }
    }

    /**
     * The status report and the two certificate queries of the `CallTool` handler's `switch`:
     * none of them changes the client.
     */
    method ReportTool(tool: Tool, world: World) returns (text: string)
      requires tool == Status || tool == ListarCertificados || tool == InfoCertificado
      ensures tool == Status ==> text == Concat(StatusLines(world.env, ClientStateOf()))
      ensures tool == ListarCertificados ==> text == CertificatesReply(world.run(ListCertificatesCommand))
      ensures tool == InfoCertificado ==>
                text == if pjeClient == null || pjeClient.certificateManager == null then NoCertificateInfo
                        else InfoErrorTitle + ForEachOfUndefined
    {
      if tool == Status {
        text := VerificarStatus(world.env);
      } else if tool == ListarCertificados {
        text := CertificatesReply(world.run(ListCertificatesCommand));
      } else {
        text := InfoCertificadoTool();
      }
    }

    /**
     * The `CallTool` handler: unknown names and data tools without a client are refused before
     * any handler runs; every other call runs the handler of its tool.
     */
    method CallTool(name: string, args: map<string, Json>, world: World) returns (text: string)
      modifies this`pjeClient, pjeClient
      ensures ToolOf(name).None? ==>
                text == ErrorReply(Fail(UnknownToolPrefix + name)) && pjeClient == old(pjeClient)
      ensures ToolOf(name).Some? && NeedsClient(ToolOf(name).value) && old(pjeClient) == null ==>
                text == ErrorReply(Fail(NotConfigured)) && pjeClient == null
      ensures ToolOf(name).Some? && NeedsClient(ToolOf(name).value) ==>
                pjeClient == old(pjeClient) && (pjeClient != null ==> unchanged(pjeClient))
      ensures ToolOf(name) == Some(ListarOrgaosJulgadores) && old(pjeClient) != null ==>
                text == DataReply(CourtsHeading, world.http(pjeClient.InstanceGet(CourtsPath, map[])))
      ensures ToolOf(name) == Some(Status) ==>
                text == Concat(StatusLines(world.env, old(ClientStateOf())))
      ensures ToolOf(name) == Some(Configurar) ==>
                text == NoCertificateReply(BuildConfig(args, world.env), NoCertificate)
                && pjeClient != null && fresh(pjeClient) && pjeClient.config == BuildConfig(args, world.env)
      ensures ToolOf(name) == Some(ListarCertificados) ==> text == CertificatesReply(world.run(ListCertificatesCommand))
      ensures ToolOf(name) == Some(ConfigurarCertificado) && Present(Thumbprint(args, world.env))
              && Present(Password(args, world.env)) ==>
                pjeClient != null
                && pjeClient.config.certificate == Some(TokenConfig(Thumbprint(args, world.env).value,
                                                                    Password(args, world.env).value))
    {
      var tool := ToolOf(name);
      if tool.None? {
        return ErrorReply(Fail(UnknownToolPrefix + name));
      }
      if NeedsClient(tool.value) && pjeClient == null {
        return ErrorReply(Fail(NotConfigured));
      }
      if NeedsClient(tool.value) {
        text := DataTool(tool.value, args, world.http);
      } else if tool.value == Configurar || tool.value == ConfigurarCertificado {
        text := ConfigTool(tool.value, args, world);
      } else {
        text := ReportTool(tool.value, world);
      }
    }
  }
}
