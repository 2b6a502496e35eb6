/**
 * src/cf-api.ts: the Cloudflare Pages client. Each call builds one request to
 * the Cloudflare API v4 and decides what to return from the decoded JSON
 * envelope of the response. The transport is the parameter `fetch`, a total
 * function from the request sent to the envelope received.
 */
module CfApi {
  import opened Wrappers

  const ApiUrl := "https://api.cloudflare.com/client/v4"

  /** The fields of the action's configuration that the client reads. */
  datatype ApiConfig = ApiConfig(
    accountId: string,
    apiEmail: string,
    apiToken: string,
    productionBranch: string)

  datatype HttpMethod = Post | Get

  /** A request as handed to `fetch`; the body is the list of JSON fields it serialises. */
  datatype Request = Request(
    verb: HttpMethod,
    url: string,
    headers: seq<(string, string)>,
    body: Option<seq<(string, string)>>)

  datatype ApiError = ApiError(code: int, message: string)

  /** The part of `result` the client reads; a missing field is None. */
  datatype ProjectResult = ProjectResult(id: Option<string>, name: Option<string>)

  /** The decoded response; `null` or a missing field is None. */
  datatype Envelope = Envelope(result: Option<ProjectResult>, errors: Option<seq<ApiError>>)

  // ---------------------------------------------------------------------
  // Endpoints and requests
  // ---------------------------------------------------------------------

  /** The projects collection of an account. */
  function ProjectsUrl(accountId: string): string
  {
    ApiUrl + "/accounts/" + accountId + "/pages/projects"
  }

  /** One project of an account; the name is inserted as it is, without escaping. */
  function ProjectUrl(accountId: string, projectName: string): string
  {
    ProjectsUrl(accountId) + "/" + projectName
  }

  /** Within one account, a project URL names exactly one project. */
  lemma ProjectUrlIdentifiesProject(accountId: string, a: string, b: string)
    requires ProjectUrl(accountId, a) == ProjectUrl(accountId, b)
    ensures a == b
  {
    var n := |ProjectsUrl(accountId)| + 1;
    assert a == ProjectUrl(accountId, a)[n..];
    assert b == ProjectUrl(accountId, b)[n..];
  }

  /** The collection URL names exactly one account. */
  lemma ProjectsUrlIdentifiesAccount(a: string, b: string)
    requires ProjectsUrl(a) == ProjectsUrl(b)
    ensures a == b
  {
    var n := |ApiUrl + "/accounts/"|;
    assert |a| == |b|;
    assert a == ProjectsUrl(a)[n..n + |a|];
    assert b == ProjectsUrl(b)[n..n + |b|];
  }

  /** The headers every call sends. */
  function Headers(config: ApiConfig): seq<(string, string)>
  {
    [("Content-Type", "application/json"),
     ("X-Auth-Email", config.apiEmail),
     ("X-Auth-Key", config.apiToken)]
  }

  function CreateRequest(config: ApiConfig, projectName: string): Request
  {
    Request(Post, ProjectsUrl(config.accountId), Headers(config),
            Some([("name", projectName), ("production_branch", config.productionBranch)]))
  }

  function GetRequest(config: ApiConfig, projectName: string): Request
  {
    Request(Get, ProjectUrl(config.accountId, projectName), Headers(config), None)
  }

  /**
   * Creating and reading a project send the same credentials and the JSON
   * content type; they differ in method, path and body only, and the create
   * body carries exactly the name and the production branch.
   */
  lemma RequestsDifferOnlyInMethodPathBody(config: ApiConfig, projectName: string)
    ensures CreateRequest(config, projectName).headers == GetRequest(config, projectName).headers
    ensures ("X-Auth-Key", config.apiToken) in GetRequest(config, projectName).headers
    ensures ("X-Auth-Email", config.apiEmail) in GetRequest(config, projectName).headers
    ensures ("Content-Type", "application/json") in GetRequest(config, projectName).headers
    ensures CreateRequest(config, projectName).verb == Post && GetRequest(config, projectName).verb == Get
    ensures GetRequest(config, projectName).url == CreateRequest(config, projectName).url + "/" + projectName
    ensures CreateRequest(config, projectName).body == Some([("name", projectName), ("production_branch", config.productionBranch)])
    ensures GetRequest(config, projectName).body == None
  {
  }

  // ---------------------------------------------------------------------
  // Error messages
  // ---------------------------------------------------------------------

  /** `errors.map((error) => error.message)`. */
  function ErrorMessages(errors: seq<ApiError>): (messages: seq<string>)
    ensures |messages| == |errors|
    ensures forall i :: 0 <= i < |errors| ==> messages[i] == errors[i].message
  {
    seq(|errors|, i requires 0 <= i < |errors| => errors[i].message)
  }

  /** `Array.prototype.join`: the parts in order, with the separator between neighbours. */
  function Join(parts: seq<string>, separator: string): string
    decreases |parts|
  {
    if parts == [] then ""
    else if |parts| == 1 then parts[0]
    else parts[0] + separator + Join(parts[1..], separator)
  }

  /** Join agrees with the left-to-right accumulation of the ECMAScript algorithm. */
  lemma {:induction false} JoinAppend(parts: seq<string>, last: string, separator: string)
    ensures Join(parts + [last], separator)
         == if parts == [] then last else Join(parts, separator) + separator + last
    decreases |parts|
  {
    if |parts| >= 2 {
      assert (parts + [last])[1..] == parts[1..] + [last];
      JoinAppend(parts[1..], last, separator);
    } else if |parts| == 1 {
      assert (parts + [last])[1..] == [last];
    } else {
      assert parts + [last] == [last];
    }
  }

  // ---------------------------------------------------------------------
  // Reading the envelope
  // ---------------------------------------------------------------------

  /**
   * How the test `if (data.errors)` at src/cf-api.ts:115 is read. As written,
   * JavaScript takes any array as true, the empty one included; the test
   * suite expects a response with `errors: []` to succeed, which is the
   * `NonEmpty` reading.
   */
  datatype ErrorsReading = AsWritten | NonEmpty

  predicate ErrorsReported(reading: ErrorsReading, errors: Option<seq<ApiError>>)
  {
    match reading
    case AsWritten => errors.Some?
    case NonEmpty => errors.Some? && errors.value != []
  }

  /** The two readings disagree on exactly one envelope field value: an empty `errors` array. */
  lemma ReadingsDifferOnlyOnEmptyErrors(errors: Option<seq<ApiError>>)
    ensures ErrorsReported(AsWritten, errors) != ErrorsReported(NonEmpty, errors) <==> errors == Some([])
  {
  }

  const CreateFailurePrefix := "Failed to create project, "

  /**
   * What `createProject` does with the response: throw an Error carrying the
   * joined messages, return `result.id`, or, when there is no `result`,
   * throw the TypeError raised by reading `data.result.name` for the log line.
   */
  datatype CreateOutcome = Created(id: Option<string>) | CreationFailed(message: string) | ResultMissing

  /** `createProject`: POST the new project and interpret the envelope. */
  function CreateProject(reading: ErrorsReading, config: ApiConfig, projectName: string, fetch: Request -> Envelope): (r: CreateOutcome)
    ensures var data := fetch(CreateRequest(config, projectName));
      && (r.CreationFailed? <==> ErrorsReported(reading, data.errors))
      && (r.CreationFailed? ==> data.errors.Some? && r.message == CreateFailurePrefix + Join(ErrorMessages(data.errors.value), ", "))
      && (r.Created? <==> !ErrorsReported(reading, data.errors) && data.result.Some?)
      && (r.Created? ==> r.id == data.result.value.id)
  {
    var data := fetch(CreateRequest(config, projectName));
    if ErrorsReported(reading, data.errors) then
      CreationFailed(CreateFailurePrefix + Join(ErrorMessages(data.errors.value), ", "))
    else if data.result.None? then
      ResultMissing
    else
      Created(data.result.value.id)
  }

  /** `getProject`: GET the project; its id when `result.id` is truthy, otherwise null. */
  function GetProject(config: ApiConfig, projectName: string, fetch: Request -> Envelope): (r: Option<string>)
    ensures var data := fetch(GetRequest(config, projectName));
      && (r.Some? <==> data.result.Some? && data.result.value.id.Some? && data.result.value.id.value != "")
      && (r.Some? ==> data.result.value.id == r && r.value != "")
  {
    var data := fetch(GetRequest(config, projectName));
    if data.result.Some? && data.result.value.id.Some? && data.result.value.id.value != "" then
      data.result.value.id
    else
      None
  }

  /** `getProject` never looks at `errors`: two responses with the same `result` give the same answer. */
  lemma GetProjectIgnoresErrors(config: ApiConfig, projectName: string, fetch1: Request -> Envelope, fetch2: Request -> Envelope)
    requires fetch1(GetRequest(config, projectName)).result == fetch2(GetRequest(config, projectName)).result
    ensures GetProject(config, projectName, fetch1) == GetProject(config, projectName, fetch2)
  {
  }

  /** Every envelope that lets `createProject` return an id lets `getProject` read the same non-empty id. */
  lemma CreateAndGetReadTheSameId(reading: ErrorsReading, config: ApiConfig, projectName: string, fetch: Request -> Envelope, id: string)
    requires id != ""
    requires CreateProject(reading, config, projectName, fetch) == Created(Some(id))
    requires fetch(GetRequest(config, projectName)).result == fetch(CreateRequest(config, projectName)).result
    ensures GetProject(config, projectName, fetch) == Some(id)
  {
  }

  /** Joined with ", ", the messages say nothing exactly when there is none, or a single empty one. */
  lemma JoinEmptyExactly(parts: seq<string>)
    ensures Join(parts, ", ") == "" <==> parts == [] || parts == [""]
  {
  }

  /** `createProject` throws the bare prefix exactly when the reported errors are none, or one with an empty message. */
  lemma CreateFailsBareExactly(reading: ErrorsReading, config: ApiConfig, projectName: string, fetch: Request -> Envelope)
    requires ErrorsReported(reading, fetch(CreateRequest(config, projectName)).errors)
    ensures var errors := fetch(CreateRequest(config, projectName)).errors.value;
      CreateProject(reading, config, projectName, fetch) == CreationFailed(CreateFailurePrefix)
      <==> errors == [] || (|errors| == 1 && errors[0].message == "")
  {
  }

  // ---------------------------------------------------------------------
  // The empty-errors discrepancy
  // ---------------------------------------------------------------------

  /** As written, a successful response carrying `errors: []` makes `createProject` throw a message with nothing after the prefix. */
  lemma CreateRejectsEmptyErrorsAsWritten(config: ApiConfig, projectName: string, fetch: Request -> Envelope)
    requires fetch(CreateRequest(config, projectName)) == Envelope(Some(ProjectResult(Some("test-project-id"), None)), Some([]))
    ensures CreateProject(AsWritten, config, projectName, fetch) == CreationFailed("Failed to create project, ")
  {
  }

  /** Read as "errors non-empty", a response with no errors returns the id, as the test suite expects. */
  lemma CreateSucceedsWithoutErrors(config: ApiConfig, projectName: string, fetch: Request -> Envelope)
    requires fetch(CreateRequest(config, projectName)).errors in {None, Some([])}
    requires fetch(CreateRequest(config, projectName)).result.Some?
    ensures CreateProject(NonEmpty, config, projectName, fetch)
         == Created(fetch(CreateRequest(config, projectName)).result.value.id)
  {
  }

  /** Under either reading, a single reported error fails with the prefix followed by its message. */
  lemma CreateReportsSingleError(reading: ErrorsReading, config: ApiConfig, projectName: string, fetch: Request -> Envelope, e: ApiError)
    requires fetch(CreateRequest(config, projectName)).errors == Some([e])
    ensures CreateProject(reading, config, projectName, fetch) == CreationFailed(CreateFailurePrefix + e.message)
  {
  }
}
