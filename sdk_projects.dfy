/** The Projects resource client: list every project, and find one by its
    external identifier on top of that list. */
module SdkProjects {
  import opened Wrappers
  import opened SdkErrors
  import opened SdkClient
  import Strconv

  datatype Cluster = Cluster(hostname: string, namespace: string)

  datatype Environment = Environment(envID: string, displayName: string, cluster: Cluster)

  /** The zero value (an empty type) means that no pipeline is configured. */
  datatype Pipelines = Pipelines(kind: string)

  datatype Project = Project(
    id: string,
    name: string,
    configurationGitPath: string,
    projectID: string,
    environments: seq<Environment>,
    pipelines: Pipelines)

  /** A request as handed to the transport. */
  datatype Request = Request(verb: string, url: string, headers: map<string, string>)

  /** What the transport and the JSON decoder make of one request. */
  datatype Fetch =
    | SetupFailed(err: Error)          // the transport refused to build the request
    | TransportFailed(reason: string)  // no response: DNS, connection, ...
    | Answered(status: nat, body: string, decoded: Result<seq<Project>, string>)
                                       // a response; `decoded` is the JSON decoder's verdict on `body`

  const ProjectsPath := "api/backend/projects/"

  /** The one request `Get` issues: a GET of the projects collection, with the
      client's headers. */
  function ListRequest(c: ProjectsClient): (req: Request)
    ensures req.verb == "GET"
    ensures |req.url| >= |"/projects/"| && req.url[|req.url| - |"/projects/"|..] == "/projects/"
    ensures |req.url| == |c.transport.baseURL| + |ProjectsPath|
    ensures req.url[..|c.transport.baseURL|] == c.transport.baseURL
    ensures req.url[|c.transport.baseURL|..] == ProjectsPath
    ensures req.headers == c.transport.headers
  {
    var url := c.transport.baseURL + ProjectsPath;
    assert url[|url| - |"/projects/"|..] == "/projects/";
    Request("GET", url, c.transport.headers)
  }

  predicate IsSuccessStatus(status: nat) {
    200 <= status < 300
  }

  /** The message of an `ErrHTTP` error: method, URL, status and the raw body. */
  function HttpErrorMessage(req: Request, status: nat, body: string): string {
    req.verb + " " + req.url + ": " + Strconv.Itoa(status) + " - " + body
  }

  /** `ProjectsClient.Get`: the outcome of the list request, classified. */
  function Get(c: ProjectsClient, send: Request -> Fetch): (r: Result<seq<Project>, Error>)
    ensures send(ListRequest(c)).SetupFailed? ==> r == Failure(send(ListRequest(c)).err)
    ensures send(ListRequest(c)).TransportFailed? ==>
              r == Failure(Wrap(Generic, send(ListRequest(c)).reason))
    ensures send(ListRequest(c)).Answered? ==>
              var a := send(ListRequest(c));
              && (!IsSuccessStatus(a.status) ==>
                    r == Failure(Error(Http, HttpErrorMessage(ListRequest(c), a.status, a.body))))
              && (IsSuccessStatus(a.status) && a.decoded.Failure? ==>
                    r == Failure(Wrap(Generic, a.decoded.error)))
              && (IsSuccessStatus(a.status) && a.decoded.Success? ==>
                    r == Success(a.decoded.value))
  {
    var req := ListRequest(c);
    match send(req)
    case SetupFailed(e) => Failure(e)
    case TransportFailed(reason) => Failure(Wrap(Generic, reason))
    case Answered(status, body, decoded) =>
      if !IsSuccessStatus(status) then
        Failure(Error(Http, HttpErrorMessage(req, status, body)))
      else
        match decoded
        case Failure(msg) => Failure(Wrap(Generic, msg))
        case Success(projects) => Success(projects)
  }

  /** The position of the first project whose `projectID` is exactly `id`. */
  function FirstIndexOf(projects: seq<Project>, id: string): (r: Option<nat>)
    ensures r.Some? ==> r.value < |projects| && projects[r.value].projectID == id
    ensures r.Some? ==> forall k :: 0 <= k < r.value ==> projects[k].projectID != id
    ensures r.None? <==> forall k :: 0 <= k < |projects| ==> projects[k].projectID != id
  {
    if projects == [] then None
    else if projects[0].projectID == id then Some(0)
    else
      match FirstIndexOf(projects[1..], id)
      case None => None
      case Some(k) => Some(k + 1)
  }

  /** `getProjectByID`: list, then scan for the first exact match. */
  function GetProjectByID(c: ProjectsClient, send: Request -> Fetch, id: string): (r: Result<Project, Error>)
    ensures Get(c, send).Failure? ==> r == Failure(Get(c, send).error)
    ensures Get(c, send).Success? ==>
              var projects := Get(c, send).value;
              && (r.Success? <==> exists k :: 0 <= k < |projects| && projects[k].projectID == id)
              && (r.Failure? ==> r.error == Wrap(ProjectNotFound, id))
              && (r.Success? ==> exists k :: 0 <= k < |projects| && projects[k] == r.value &&
                                  r.value.projectID == id &&
                                  forall j :: 0 <= j < k ==> projects[j].projectID != id)
  {
    match Get(c, send)
    case Failure(e) => Failure(e)
    case Success(projects) =>
      match FirstIndexOf(projects, id)
      case None => Failure(Wrap(ProjectNotFound, id))
      case Some(k) => Success(projects[k])
  }

  /** Every error `Get` produces is classified as `ErrHTTP` or `ErrGeneric`,
      except the transport's own request-setup error, which is passed on as it is. */
  lemma GetErrorClassified(c: ProjectsClient, send: Request -> Fetch)
    requires Get(c, send).Failure?
    ensures || Get(c, send).error.kind in {Http, Generic}
            || (send(ListRequest(c)).SetupFailed? && Get(c, send).error == send(ListRequest(c)).err)
  {
  }

  /** The `ErrHTTP` message starts with the method and URL and ends with the
      response body verbatim, and the status in between reads back as the status. */
  lemma {:induction false} HttpErrorMessageParts(req: Request, status: nat, body: string)
    ensures var m := HttpErrorMessage(req, status, body);
            var head := req.verb + " " + req.url + ": ";
            var digits := Strconv.Itoa(status);
            && |m| == |head| + |digits| + 3 + |body|
            && m[..|head|] == head
            && m[|m| - |body|..] == body
            && m[|head|..|head| + |digits|] == digits
            && m[|head| + |digits|..|head| + |digits| + 3] == " - "
            && Strconv.ParseDecimal(m[|head|..|head| + |digits|]) == status
  {
    Strconv.ParseItoa(status);
  }

  /** Searching by id never recodes an error of the listing: its kind and its
      message come out unchanged, and "not found" is reserved for a listing
      that succeeded. */
  lemma GetProjectByIDPassesErrorsThrough(c: ProjectsClient, send: Request -> Fetch, id: string)
    requires GetProjectByID(c, send, id).Failure?
    ensures GetProjectByID(c, send, id).error.kind == ProjectNotFound ==>
              Get(c, send).Success? || Get(c, send).error.kind == ProjectNotFound
    ensures Get(c, send).Failure? ==>
              GetProjectByID(c, send, id).error.kind == Get(c, send).error.kind &&
              GetProjectByID(c, send, id).error.message == Get(c, send).error.message
  {
  }

  /** A client built by `New` lists with a GET under its base URL and sends
      the options' credential (secret, or else API key) and cookie with it. */
  lemma NewClientListRequest(o: Options, parseBaseURL: string -> Option<Error>)
    requires New(o, parseBaseURL).Success?
    ensures var req := ListRequest(New(o, parseBaseURL).value.projects);
            && req.verb == "GET"
            && req.url == o.apiBaseURL + ProjectsPath
            && req.headers[CookieHeader] == o.apiCookie
            && req.headers[SecretHeader] == Credential(o)
            && req.headers[SecretHeader] != ""
  {
  }

  /** The lookup compares ids exactly: over the listing [project-1, project-2],
      "project-2" finds the second project and "project1" finds nothing. */
  lemma {:induction false} GetProjectByIDExactMatch(c: ProjectsClient, p1: Project, p2: Project, body: string)
    requires p1.projectID == "project-1" && p2.projectID == "project-2"
    ensures var send := (req: Request) => Answered(200, body, Success([p1, p2]));
            && GetProjectByID(c, send, "project-2") == Success(p2)
            && GetProjectByID(c, send, "project1") == Failure(Wrap(ProjectNotFound, "project1"))
  {
    var send := (req: Request) => Answered(200, body, Success([p1, p2]));
    assert Get(c, send) == Success([p1, p2]);
    assert [p1, p2][1..] == [p2];
    assert FirstIndexOf([p1, p2], "project-2") == Some(1);
    assert |"project1"| != |"project-1"|;
    assert FirstIndexOf([p1, p2], "project1") == None;
  }
}
