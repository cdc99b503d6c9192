/** The typed API client: connection options, their validation, and the
    client `New` builds from them. */
module SdkClient {
  import opened Wrappers
  import opened SdkErrors

  /** Connection parameters. `apiCookie` is the raw cookie header value
      (for example "sid=..."). */
  datatype Options = Options(apiBaseURL: string, apiKey: string, secret: string, apiCookie: string)

  /** What `New` demands before it builds anything: a base URL, a cookie, and
      a secret or an API key. */
  predicate ValidOptions(o: Options) {
    o.apiBaseURL != "" && o.apiCookie != "" && (o.apiKey != "" || o.secret != "")
  }

  /** The configuration of the underlying JSON-over-HTTP client: its base URL
      and the headers it adds to every request. */
  datatype Transport = Transport(baseURL: string, headers: map<string, string>)

  datatype ProjectsClient = ProjectsClient(transport: Transport)

  datatype MiaClient = MiaClient(projects: ProjectsClient)

  const SecretHeader := "secret"
  const CookieHeader := "cookie"

  /** The credential sent under the `secret` header: the secret when one is
      given, otherwise the API key. */
  function Credential(o: Options): (v: string)
    ensures ValidOptions(o) ==> v != ""
    ensures o.secret != "" ==> v == o.secret
    ensures o.secret == "" ==> v == o.apiKey
  {
    if o.secret != "" then o.secret else o.apiKey
  }

  /** `sdk.New`. `parseBaseURL` is the JSON client's construction-time check of
      the base URL (it rejects, for instance, a control character): it yields
      the client library's own error, which `New` returns unwrapped. */
  function New(o: Options, parseBaseURL: string -> Option<Error>): (r: Result<MiaClient, Error>)
    ensures r.Success? <==> ValidOptions(o) && parseBaseURL(o.apiBaseURL).None?
    ensures !ValidOptions(o) ==> r == Failure(Wrap(CreateClient, "client options are not correct"))
    ensures ValidOptions(o) && parseBaseURL(o.apiBaseURL).Some? ==>
              r == Failure(parseBaseURL(o.apiBaseURL).value)
    ensures r.Success? ==>
              && r.value.projects.transport.baseURL == o.apiBaseURL
              && r.value.projects.transport.headers.Keys == {SecretHeader, CookieHeader}
              && r.value.projects.transport.headers[SecretHeader] == Credential(o)
              && r.value.projects.transport.headers[CookieHeader] == o.apiCookie
  {
    if !ValidOptions(o) then
      Failure(Wrap(CreateClient, "client options are not correct"))
    else
      match parseBaseURL(o.apiBaseURL)
      case Some(e) => Failure(e)
      case None =>
        var headers := map[SecretHeader := Credential(o), CookieHeader := o.apiCookie];
        Success(MiaClient(ProjectsClient(Transport(o.apiBaseURL, headers))))
  }

  /** The four option sets the client's tests reject, rejected with the same error. */
  lemma NewRejectsIncompleteOptions(parseBaseURL: string -> Option<Error>)
    ensures forall o | o in {Options("", "", "", ""), Options("base", "", "sid=asd", ""),
                             Options("base", "", "", "cookie"), Options("", "", "sid=asd", "cookie")} ::
              New(o, parseBaseURL) == Failure(Wrap(CreateClient, "client options are not correct"))
  {
  }
}
