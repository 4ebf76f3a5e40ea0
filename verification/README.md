# PJE MCP server — a verified model of its core

The PJE MCP server gives an assistant tools for the PJE electronic court system: it lists and
looks up processes, the judging bodies, the procedural classes and the subjects through the PJE
REST API, configures that API client from tool arguments and the environment, and reports its own
status. For a digital certificate on a hardware token, its certificate manager only queries the
Windows certificate store and the token with `certutil` and then records the thumbprint, the
password and the provider as options of an HTTPS agent; the certificate itself is never read. A
separate extractor reads the case number and three labelled fields out of the
text of a petition PDF, and a simpler portal client stands in for filing: its lookup returns a
simulated case and its petition returns a random protocol text.

This project models that core in Dafny and proves what it promises:

- `Results.dfy`, `Text.dfy`, `Json.dfy` — the JavaScript meanings the other modules rely on:
  thrown errors and their `${error}` text, `||` on possibly undefined strings, `\s`, `\d`,
  `trim`, `includes`, case-insensitive comparison, the JSON values of tool arguments and
  `JSON.stringify`.
- `PdfProcessor.dfy` — `extractProcessInfo` as a function of the text the PDF parser produced,
  with the regular expressions modelled by their JavaScript meaning: leftmost match, greedy
  quantifiers that backtrack.
- `CertificateManager.dfy` — the certificate manager, a class whose `agent` stays unset until
  the thumbprint and the certificate store check succeed.
- `PortalClient.dfy` — the portal client of `src/pje-client.ts`, a class whose `agent` gates
  every operation.
- `ApiClient.dfy` — the REST client of `src/index.ts`: its token, its certificate manager, the
  agent of its request instance, the headers every request carries and the query of the
  process list.
- `McpServer.dfy` — the server: the tool list, the dispatch with its "not configured" guards and
  its conversion of thrown errors into a text reply, the two configuration tools, the status
  report and the certificate tools.

The environment (`process.env`), the command runner (`certutil` through `exec`) and the network
(axios) are inputs: a map of variables, a function from a command line to its output or error,
and a function from a request to its response body or error.

## Model

| member | source | states |
|---|---|---|
| Results.ErrorText | src/index.ts:105 | `${error}` of an `Error` is its name, then `: ` and its message when both are non-empty |
| Results.Or | src/index.ts:372-378 | `a \|\| b` is truthy iff one side is, is `a` whenever `a` is truthy, and is `b` whenever `a` is not |
| Results.OrElse | src/index.ts:372-373 | `a \|\| literal` is `a` when truthy and the literal otherwise |
| Text.Trim | src/pdf-processor.ts:61 | the trimmed text is the input with a whitespace-only prefix and a whitespace-only suffix removed, starts and ends with non-whitespace, and is empty iff the input is all whitespace |
| Text.Includes | src/certificate-manager.ts:57 | `includes` holds iff the substring occurs at some index, case-sensitively |
| Json.PropertyOf | src/index.ts:119 | reading a property of `null` throws; of an object it yields the member; of any other value it yields `undefined` |
| PdfProcessor.Search | src/pdf-processor.ts:27 | `match` returns the leftmost index where the pattern matches, and none when it matches nowhere |
| PdfProcessor.Matched | src/pdf-processor.ts:38 | a format yields a match iff it matches at some index |
| PdfProcessor.MatchedIsLeftmost | src/pdf-processor.ts:38 | `match[0]` is the text the format matches at the leftmost index where it matches |
| PdfProcessor.FirstFormat | src/pdf-processor.ts:37-49 | the loop returns the first format in list order that matches, and fails only when none does |
| PdfProcessor.GroupStart | src/pdf-processor.ts:60 | after a label, `\s*([^\n]+)` starts its group at the greatest admissible place: only whitespace before it and no line feed at it |
| PdfProcessor.LineEnd | src/pdf-processor.ts:60 | `[^\n]+` runs to the next line feed or the end of the text |
| PdfProcessor.FindField | src/pdf-processor.ts:60 | the field expression is matched at its leftmost admissible occurrence |
| PdfProcessor.FieldValue | src/pdf-processor.ts:60-69 | a field value holds no line feed, is trimmed at both ends, and is empty when the label never occurs or when the field expression matches nowhere |
| PdfProcessor.ExtractFromText | src/pdf-processor.ts:27-77 | a twenty-digit match always succeeds with a 20-character number; a fallback result has empty class, body and subject; every result has the intermediate-petition type; the only error is "number not found" |
| PdfProcessor.ExtractProcessInfo | src/pdf-processor.ts:13-82 | every failure, a read or parse error included, surfaces as "Erro ao processar o arquivo PDF"; success needs readable text |
| PdfProcessor.NumberIsLeftmostTwentyDigits | src/pdf-processor.ts:27-77 | the number is the leftmost run of twenty digits, not preceded by a digit, so within a longer run it is the first twenty; the other fields are the labelled values |
| PdfProcessor.TwentyDigitsFoundAt | src/pdf-processor.ts:27 | the twenty-digit search stops at the first index where twenty digits begin |
| PdfProcessor.SuffixFormatImpliesDotted | src/pdf-processor.ts:32-34 | text matching the longer dotted format at an index matches the shorter one there |
| PdfProcessor.FallbackIsDottedFormat | src/pdf-processor.ts:28-49 | when twenty digits are absent, the fallback loop's result is the shorter dotted format's match: the `\d{20}` entry and the longer format are dead |
| PdfProcessor.ExtractionSucceedsIff | src/pdf-processor.ts:27-51 | extraction succeeds iff the text holds twenty digits or a shorter dotted number, and the fallback number is the leftmost dotted match with empty fields |
| PdfProcessor.FieldValueAtFirstOccurrence | src/pdf-processor.ts:60-69 | at the first admissible label, the value is the trimmed rest of the line after its whitespace, or empty when that whitespace reaches the end of the text |
| Certificates.TokenConfig | src/pje-client.ts:30-33 | the configuration built for a manager holds the thumbprint and the password only |
| Certificates.TokenAgentOptions | src/certificate-manager.ts:68-85 | the agent rejects nothing unauthorised, uses the fixed ciphers, TLS 1.2 and no SSLv2, and names the thumbprint in `cert` and the password in `key` with the fixed provider |
| Certificates.CertificateOf | src/certificate-manager.ts:115 | `cert \|\| pfx`: the `cert` option when set, else the `pfx` option, else undefined |
| Certificates.LoggedConfig | src/certificate-manager.ts:37-40 | the logged configuration shows the password as `***` and keeps every other field |
| Certificates.LogHidesPassword | src/certificate-manager.ts:37-40 | two configurations differing only in their password are logged identically |
| Certificates.StoreCheck | src/certificate-manager.ts:46-64 | the checks pass iff the store query succeeds, its output contains the thumbprint verbatim, and the token query succeeds; a failed store query's error is passed on, output without the thumbprint fails with "Certificado não encontrado no repositório", and a failed token query's error is passed on |
| Certificates.InitializeOutcome | src/certificate-manager.ts:36-95 | an empty thumbprint fails unwrapped with "Thumbprint do certificado não fornecido"; otherwise success iff the store checks pass, and a failure is rewrapped as "Falha ao inicializar certificado: <message>" |
| Certificates.CertificateManager.constructor | src/certificate-manager.ts:28-34 | a new manager keeps its configuration and has no agent |
| Certificates.CertificateManager.Initialize | src/certificate-manager.ts:36-95 | the outcome is the one above; success sets a new agent with the token options; failure leaves the agent as it was |
| Certificates.CertificateManager.GetAgent | src/certificate-manager.ts:97-102 | throws "Certificado não inicializado" while there is no agent, else returns it |
| Certificates.CertificateManager.GetHttpsAgent | src/certificate-manager.ts:104-109 | the same guard and the same object as `getAgent` |
| Certificates.CertificateManager.GetCertificate | src/certificate-manager.ts:111-116 | the same guard; then the agent's `cert` option, falling back to `pfx` |
| Certificates.CertificateManager.GetCertificateInfo | src/certificate-manager.ts:118-125 | needs no agent; echoes thumbprint and path, `hasPassword` iff the password is non-empty, fixed provider |
| Certificates.InitializedAccessors | src/certificate-manager.ts:97-116 | after a successful initialisation both agent accessors return the same agent and the certificate is the thumbprint's token certificate; with an empty thumbprint and no earlier agent all three refuse |
| PortalClient.SimulatedCase | src/pje-client.ts:61-70 | the simulated case carries the requested number, an author and a defendant |
| PortalClient.SimulatedCaseIgnoresNumber | src/pje-client.ts:61-70 | two simulated cases differ only in their number, and are equal iff the numbers are |
| PortalClient.Substring | src/pje-client.ts:80 | `substring(2, 15)` clamps both ends to the length and yields at most 13 characters |
| PortalClient.PjeClient.constructor | src/pje-client.ts:14-21 | a new client keeps its configuration and has neither manager nor agent |
| PortalClient.PjeClient.InitializeCertificate | src/pje-client.ts:23-42 | a missing certificate configuration fails with "Configuração do certificado não fornecida"; otherwise a new manager from thumbprint and password replaces the old one, its error is passed on unchanged with the agent untouched, and success copies the manager's agent |
| PortalClient.PjeClient.AuthenticateWithCertificate | src/pje-client.ts:44-52 | refuses without an agent, otherwise succeeds and changes nothing |
| PortalClient.PjeClient.BuscarProcesso | src/pje-client.ts:54-71 | refuses without an agent, otherwise returns the simulated case for the number |
| PortalClient.PjeClient.Peticionar | src/pje-client.ts:73-88 | refuses without an agent, otherwise returns characters 2 to 14 of the random text |
| PortalClient.InitializedClient | src/pje-client.ts:23-71 | after a successful initialisation authentication and lookup succeed; after a failed one on a fresh client both refuse |
| ApiClient.Headers | src/index.ts:65-73 | every request has the JSON content type, a bearer header iff a token is held, and the legacy application header iff an application name is set, and nothing else |
| ApiClient.CredentialJson | src/index.ts:115-117 | a token certificate becomes the object of its thumbprint and provider, a PFX option its string, and an undefined certificate leaves the member out of the body |
| ApiClient.CertificateAuthRequest | src/index.ts:115-117 | the certificate login is a POST to `/api/v1/auth/certificate` on the instance, with its headers and agent and the certificate in the body |
| ApiClient.TokenOutcome | src/index.ts:114-122 | a failed request is rewrapped with the prefix; a `null` body is the TypeError of reading its property, rewrapped with the prefix; an object body yields its `access_token`; any other body yields `undefined` |
| ApiClient.SsoForm | src/index.ts:140-147 | the password grant sends grant type, client id and secret, username and password defaulting to empty, and scope `openid`, in that order |
| ApiClient.SsoRequest | src/index.ts:138-153 | the grant is posted to the SSO URL with the form content type, without token or agent |
| ApiClient.TextOrJson | src/index.ts:165 | a string filter or order is sent verbatim, any other value as its JSON text |
| ApiClient.JsonIfArray | src/index.ts:168 | an array of fields is sent as JSON text, any other value as its string; the server never passes `fields`, so only direct calls of the client reach it |
| ApiClient.JsonOr | src/index.ts:174 | `v \|\| fallback` keeps a truthy value and replaces a falsy or missing one |
| ApiClient.PageParamText | src/index.ts:174 | the `page` parameter is the JSON object with the page first and the size second |
| ApiClient.PageDefaultsToOne | src/index.ts:174 | a size without a page asks for page 1 |
| ApiClient.SizeDefaultsToTwenty | src/index.ts:174 | a page without a size asks for 20 entries |
| ApiClient.ProcessQuery | src/index.ts:161-175 | each of filter, fields and order appears iff truthy, in its encoding; `page` appears iff page or size is truthy; no other key |
| ApiClient.QueryParams | src/index.ts:162-175 | the conditional assignments build exactly that parameter map |
| ApiClient.PjeClient.constructor | src/index.ts:48-74 | a new client has no token and no certificate agent, and a fresh uninitialised manager iff the configuration names a certificate |
| ApiClient.PjeClient.InstanceGet | src/index.ts:63-73 | a GET on the instance carries the instance's agent and the interceptor's headers |
| ApiClient.PjeClient.InitializeCertificate | src/index.ts:76-107 | without a manager it fails with "Nenhum certificado configurado"; a manager failure is rewrapped as "Erro ao inicializar certificado: <error>" and keeps both agents; success moves the instance to the manager's new agent |
| ApiClient.PjeClient.AuthenticateWithCertificate | src/index.ts:109-123 | without a manager it refuses; an uninitialised manager, a failed request or an unreadable body fail with the certificate prefix and keep the token; a response sets the token |
| ApiClient.PjeClient.GetCertificateInfo | src/index.ts:125-130 | without a manager it fails with "Nenhum certificado configurado"; otherwise it returns exactly the manager's information, with the manager's path and the fixed provider |
| ApiClient.PjeClient.Authenticate | src/index.ts:132-159 | refuses with "Configuração de SSO incompleta" unless SSO URL, client id and secret are all set; a failure keeps the token, a response sets it |
| ApiClient.PjeClient.ListarProcessos | src/index.ts:161-179 | the process list is a GET of `/api/v1/processos` with the parameters above |
| ApiClient.PjeClient.BuscarProcesso | src/index.ts:181-184 | the process is a GET of `/api/v1/processos/<id>` |
| ApiClient.PjeClient.ListarOrgaosJulgadores | src/index.ts:186-189 | a GET of `/api/v1/orgaos-julgadores` on the instance |
| ApiClient.PjeClient.ListarClasses | src/index.ts:191-194 | a GET of `/api/v1/classes` on the instance |
| ApiClient.PjeClient.ListarAssuntos | src/index.ts:196-199 | a GET of `/api/v1/assuntos` on the instance |
| McpServer.ToolOf | src/index.ts:328-356 | a name selects a tool only when it is that tool's name; any other name selects none |
| McpServer.ToolNameRoundTrip | src/index.ts:328-356 | every tool is dispatched by its own name, and no two tools share a name |
| McpServer.ListedTools | src/index.ts:223-324 | the ten listed names are exactly the dispatched tools |
| McpServer.ArgText | src/index.ts:372-378 | a string argument is present iff the caller sent a string under that key, and is then that string |
| McpServer.BuildConfig | src/index.ts:371-379 | each setting comes from the arguments, else the environment, with defaults for base URL and application name; the configuration never names a certificate |
| McpServer.CertificateSetting | src/index.ts:592-593 | a certificate setting from the arguments takes precedence over the environment |
| McpServer.CertificateClientConfig | src/index.ts:603-607 | a new client for a certificate gets base URL and application name from the environment or their defaults, and nothing else besides the certificate |
| McpServer.InfoJson | src/certificate-manager.ts:118-125 | the certificate information object has the thumbprint, the path iff it is defined, `hasPassword` and the provider, and no `subject` member |
| McpServer.InfoMember | src/certificate-manager.ts:118-125 | looking a key up in the information members finds each of the four fields and nothing else |
| McpServer.Masked | src/index.ts:530-533 | a secret is reported as `***` when set and as missing otherwise |
| McpServer.AuthValue | src/index.ts:558-564 | the authentication line prefers a token, then a certificate manager, then public access |
| McpServer.OptionalStep | src/index.ts:568-573 | a next step is listed exactly when its condition holds |
| McpServer.StatusHidesSecrets | src/index.ts:524-550 | environments that differ only in the values, not the presence, of username, password and PFX password give the same report |
| McpServer.SecretLines | src/index.ts:544-549 | the username, password and PFX password lines show `***` when set and the not-configured mark otherwise |
| McpServer.AuthItemUnique | src/index.ts:556-565 | with a client the report holds exactly one authentication line |
| McpServer.StatusAuthenticationLine | src/index.ts:558-564 | the line reports a token iff there is one, a certificate iff no token but a manager, public access iff neither |
| McpServer.NextStepMembership | src/index.ts:567-578 | which next steps the last section lists |
| McpServer.StatusNextSteps | src/index.ts:567-578 | steps 1 and 2 appear iff the base URL, respectively both the PFX path and the SSO URL, are unset; step 3 says configure iff there is no client |
| McpServer.StatusWithoutClient | src/index.ts:552-578 | without a client the report says the client is not configured and asks for the configuration tool |
| McpServer.StatusWithoutClientHasNoAuthentication | src/index.ts:552-565 | without a client the report has no authentication line |
| McpServer.PjeServer.constructor | src/index.ts:202-220 | the server starts without a client |
| McpServer.PjeServer.ClientStateOf | src/index.ts:553-564 | what the report reads of the client: whether it exists, holds a token, has a manager |
| McpServer.PjeServer.VerificarStatus | src/index.ts:523-588 | the text appended step by step is the rendering of the status lines for the environment and the client |
| McpServer.PjeServer.ListarProcessosTool | src/index.ts:456-468 | the reply is the heading and the indented list fetched with filter, page and size, or the error |
| McpServer.PjeServer.BuscarProcessoTool | src/index.ts:470-482 | the reply is the heading and the indented process fetched by id, or the error |
| McpServer.PjeServer.ConfigurarPJE | src/index.ts:370-454 | a fresh client with the built configuration and no manager replaces the old one, and the reply is always the "sem certificado" one with "Nenhum certificado configurado" |
| McpServer.PjeServer.InstallCertificate | src/index.ts:597-612 | without a client a new one is built for the certificate; otherwise the current client's certificate setting and manager are replaced and its token and agent kept |
| McpServer.InitializeAndLogin | src/index.ts:614-646 | on a client with a fresh manager: a failed initialisation gives the rewrapped error reply and changes no agent or token; a successful one gives the client the manager's token agent, then a login sets the token or keeps it on failure, and the reply says which, with the certificate information |
| McpServer.PjeServer.ApplyCertificate | src/index.ts:597-645 | the certificate is installed on a new or the current client with a fresh manager, even when initialisation then fails; a failed initialisation gives the error reply and keeps token and agent; otherwise the client's agent is the manager's new token agent, it logs in with the token certificate, a login sets the token and a failed one keeps it, and the reply is success or authentication failure, both with the certificate information |
| McpServer.PjeServer.ConfigurarCertificadoTool | src/index.ts:590-646 | both settings are required, argument before environment; without them the reply is the error and nothing changes; with them the client holds the certificate and a fresh manager, its agent is the manager's iff initialisation succeeded, its token is the login's only when both steps succeeded, and the reply is the outcome's |
| McpServer.PjeServer.InfoCertificadoTool | src/index.ts:671-732 | without a client or manager it asks for a certificate; otherwise iterating the missing `subject` throws and the reply is the error |
| McpServer.PjeServer.DataTool | src/index.ts:331-345 | each data tool replies with its heading and the indented response of its request, or the error |
| McpServer.PjeServer.ConfigTool | src/index.ts:328-349 | `pje_configurar` installs a fresh client with the built configuration and no manager, token or agent, with the "sem certificado" reply; `pje_configurar_certificado` without settings replies with the error and changes nothing, with them installs the certificate and replies with the outcome |
| McpServer.PjeServer.ReportTool | src/index.ts:346-353 | the status, certificate-list and certificate-information tools change nothing and give the status report, the store listing reply, and the no-certificate reply or the iteration error |
| McpServer.PjeServer.CallTool | src/index.ts:326-367 | an unknown name and a data tool without a client give `Erro: ` replies and change nothing; data tools never change the client; the judging-body list, status, configuration and certificate listing give their replies; configuring a certificate installs it |

## Left out

- Async sequencing, the MCP SDK and its stdio transport, the Express web server
  (`src/web-server.ts`), the manual certificate script (`src/test-certificate.ts`) and the
  interfaces of `src/types.ts` are not part of this model; `./utils.js` is not part of this model
  either, and its `execAsync` is the command-runner input.
- Reading the PDF file and `pdf-parse` are not modelled: the extractor takes their text or their
  error.
- Console logging is not modelled, except that the manager's log hides the password.
- The tool input schemas of the tool list are not modelled; only the names are.
- ArgText: a tool argument that is not a string is treated as absent, even when it is truthy.
  The source would use it as it is. For example, `"certificatePassword": 123456` makes
  `pje_configurar_certificado` give the missing-credentials reply, where the source goes on with
  that number as the password. The same holds for a numeric or object `baseUrl`, `appName`,
  `ssoUrl` and so on in `pje_configurar`. Several of these arguments appear in no input schema:
  `certificatePassword`, and `ssoUrl`, `clientId`, `clientSecret`, `username` and `password`.
- An absent `arguments` object is modelled as an empty map. The source would throw a TypeError
  reading its properties.
- Numbers are integers, so `JSON.stringify` of a fraction is not modelled.
- JsonIfArray: parameters are modelled as strings, so a non-array `fields` value is recorded as
  its string form, `[object Object]` for an object. The client puts the value itself in the
  parameter map, and axios encodes an object parameter in its own way; that encoding is not
  modelled. The server never passes `fields`.
- NumberText, Pretty: an integer is written with all its digits, however large. JavaScript writes
  numbers from 1e21 up in exponent form, and rounds integers beyond 2^53 to the nearest double, so
  the texts differ for such numbers.
- Matched: its own contract states only whether there is a match; the matched text is stated by
  `MatchedIsLeftmost`.
- `parseInt(process.env.PJE_TIMEOUT_MS || "30000")` only sets the request timeout. Timeouts are not
  modelled.
- Every error is an `Error` with a name and a message. The `String(error)` branches for thrown
  non-errors are not modelled.
- `Math.random` is replaced by the text it would yield in base 36.
- The agent's TLS behaviour is not modelled; an agent is the record of its options.
- In `configurarPJE` the successful login reply, the failed login reply, the SSO reply and the
  public-access reply are unreachable. `ConfigurarPJE` marks that branch with `assert false`
  instead of modelling the texts.
- In `infoCertificado` the subject, issuer and date lines are unreachable, so `Date`,
  `toLocaleString` and the remaining-days arithmetic are not modelled: the information object has
  no `subject`, and its `forEach` always throws.
- VerificarStatus: it appends whole sections of lines rather than one line at a time. Its result
  is the same text.
- CallTool: its own contract states the certificate tool's new certificate setting but not its
  reply. That reply is stated by `ConfigTool`, which it calls, and by `ConfigurarCertificadoTool`.
  Its contract does not state the replies of the process tools, the class and subject lists or
  `pje_info_certificado` either; `DataTool` and `ReportTool` state those.
- The exact texts of the `JSON.stringify(result, null, 2)` replies follow `Json.Pretty`. Key
  order is the order of the members, and `undefined` members are dropped. A JavaScript object
  holds each key once, with its last value, and lists integer-like keys (`"1"`, `"2"`) first in
  ascending order; `Pretty` writes the members as given, so a response body with a repeated key
  or with integer-like keys after other keys is written differently.
