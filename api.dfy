/**
 * The API service: how each backend operation becomes an HTTP request
 * (endpoint, method, body, headers, URL), and how the response becomes the
 * operation's result or the message of the error it throws.
 *
 * The network is not modelled: the response a request gets is a `Reply`
 * parameter, any reply being possible. The service keeps the log `sent` of
 * the requests it has issued, so "makes no remote call" is a statement
 * about that log.
 */
module Api {
  import opened Wrappers
  import opened Text
  import opened Uri
  import opened Model

  // ---------------------------------------------------------------------------
  // Base URL
  // ---------------------------------------------------------------------------

  const DefaultBaseUrl := "http://localhost:5001/api"

  /** The base URL from the `NEXT_PUBLIC_API_URL` setting, or the local default when it is unset or empty. */
  function BaseUrl(setting: Option<string>): (base: string)
    ensures Truthy(setting) ==> base == setting.value
    ensures !Truthy(setting) ==> base == DefaultBaseUrl
    ensures base != ""
  {
    OrElse(setting, DefaultBaseUrl)
  }

  /** The URL of a request: the base URL followed by the endpoint, with nothing in between. */
  function RequestUrl(base: string, endpoint: string): (url: string)
    ensures |url| == |base| + |endpoint|
    ensures url[..|base|] == base && url[|base|..] == endpoint
  {
    base + endpoint
  }

  // ---------------------------------------------------------------------------
  // Requests
  // ---------------------------------------------------------------------------

  datatype Method = GET | POST | PUT | DELETE

  type Headers = map<string, string>

  /** The serialised records a request body can carry (`JSON.stringify` of them is not modelled). */
  datatype Payload =
    | NewUserData(newUser: NewUser)
    | UserData(userPatch: UserPatch)
    | ProjectData(newProject: NewProject)
    | ProjectUpdate(projectPatch: ProjectPatch)
    | ExperienceData(newExperience: NewWorkExperience)
    | ExperienceUpdate(experiencePatch: WorkExperiencePatch)
    | AutomationData(clerkUserId: string, jobUrl: string)

  datatype FormValue = FileValue(file: File) | TextValue(text: string)

  datatype Body = JsonBody(payload: Payload) | FormBody(fields: seq<(string, FormValue)>)

  /** A `RequestInit`: each of `method` (here `httpMethod`), `headers` and `body` may be left out. */
  datatype RequestInit = RequestInit(httpMethod: Option<Method>, headers: Option<Headers>, body: Option<Body>)

  datatype HttpRequest = HttpRequest(url: string, init: RequestInit)

  const ContentType := "Content-Type"
  const JsonType := "application/json"
  const JsonHeaders: Headers := map[ContentType := JsonType]

  /**
   * The configuration `request` hands to `fetch`: a `headers` object holding
   * the JSON content type merged with the caller's headers, then every
   * property of the caller's options spread over it. Because the spread
   * comes last, headers supplied by the caller replace the merged object
   * outright, the JSON content type included.
   */
  function Config(options: RequestInit): (config: RequestInit)
    ensures config.httpMethod == options.httpMethod && config.body == options.body
    ensures config.headers.Some?
    ensures options.headers.None? ==> config.headers.value == JsonHeaders
    ensures options.headers.Some? ==> config.headers.value == options.headers.value
  {
    var merged := JsonHeaders + options.headers.GetOr(map[]);
    RequestInit(options.httpMethod, if options.headers.Some? then options.headers else Some(merged), options.body)
  }

  /** The request carries the JSON content type exactly when the caller gave no headers or gave that same one. */
  lemma ConfigJson(options: RequestInit)
    ensures var h := Config(options).headers.value;
      (ContentType in h && h[ContentType] == JsonType)
      <==> (options.headers.None? || (ContentType in options.headers.value && options.headers.value[ContentType] == JsonType))
  {
  }

  /** `fetch` sends GET when the configuration names no method. */
  function EffectiveMethod(init: RequestInit): Method {
    init.httpMethod.GetOr(GET)
  }

  // ---------------------------------------------------------------------------
  // The operations and their endpoints
  // ---------------------------------------------------------------------------

  /** The operations of the service that go through `request`. */
  datatype Operation =
    | GetUserByClerkId(clerkUserId: string)
    | CreateUserWithClerk(newUser: NewUser)
    | UpdateUserByClerkId(clerkUserId: string, userPatch: UserPatch)
    | AddProject(userId: string, project: NewProject)
    | UpdateProject(userId: string, projectId: string, projectPatch: ProjectPatch)
    | DeleteProject(userId: string, projectId: string)
    | AddWorkExperience(userId: string, experience: NewWorkExperience)
    | UpdateWorkExperience(userId: string, experienceId: string, experiencePatch: WorkExperiencePatch)
    | DeleteWorkExperience(userId: string, experienceId: string)
    | SearchUsersBySkills(skills: seq<string>)
    | GetUsersByCompany(company: string)
    | GetResumeData(clerkUserId: string)
    | AutomateApplication(clerkUserId: string, jobUrl: string)
    | GetApplicationStatus(applicationId: string)

  /** The `skills` query value: the skills joined with commas, then percent-encoded as one component. */
  function SkillsParam(skills: seq<string>): (value: string)
    ensures QuerySafe(value)
  {
    EncodeURIComponent(Join(skills, ','))
  }

  /** The endpoint of each operation, relative to the base URL. Identifiers are inserted as they are; only the company and the skills are encoded. */
  function Endpoint(op: Operation): string {
    match op
    case GetUserByClerkId(id) => "/users/clerk/" + id
    case CreateUserWithClerk(_) => "/users/clerk"
    case UpdateUserByClerkId(id, _) => "/users/clerk/" + id
    case AddProject(uid, _) => "/users/" + uid + "/projects"
    case UpdateProject(uid, pid, _) => "/users/" + uid + "/projects/" + pid
    case DeleteProject(uid, pid) => "/users/" + uid + "/projects/" + pid
    case AddWorkExperience(uid, _) => "/users/" + uid + "/work-experiences"
    case UpdateWorkExperience(uid, eid, _) => "/users/" + uid + "/work-experiences/" + eid
    case DeleteWorkExperience(uid, eid) => "/users/" + uid + "/work-experiences/" + eid
    case SearchUsersBySkills(skills) => "/users/search/skills?skills=" + SkillsParam(skills)
    case GetUsersByCompany(company) => "/users/company/" + EncodeURIComponent(company)
    case GetResumeData(id) => "/resume/" + id
    case AutomateApplication(_, _) => "/application/automate"
    case GetApplicationStatus(id) => "/application/status/" + id
  }

  /** The options each operation passes to `request`: a method and a JSON body where it has them, never headers. */
  function Options(op: Operation): (options: RequestInit)
    ensures options.headers.None?
    ensures options.body.Some? <==> options.httpMethod == Some(POST) || options.httpMethod == Some(PUT)
  {
    match op
    case CreateUserWithClerk(u) => RequestInit(Some(POST), None, Some(JsonBody(NewUserData(u))))
    case UpdateUserByClerkId(_, patch) => RequestInit(Some(PUT), None, Some(JsonBody(UserData(patch))))
    case AddProject(_, p) => RequestInit(Some(POST), None, Some(JsonBody(ProjectData(p))))
    case UpdateProject(_, _, patch) => RequestInit(Some(PUT), None, Some(JsonBody(ProjectUpdate(patch))))
    case DeleteProject(_, _) => RequestInit(Some(DELETE), None, None)
    case AddWorkExperience(_, e) => RequestInit(Some(POST), None, Some(JsonBody(ExperienceData(e))))
    case UpdateWorkExperience(_, _, patch) => RequestInit(Some(PUT), None, Some(JsonBody(ExperienceUpdate(patch))))
    case DeleteWorkExperience(_, _) => RequestInit(Some(DELETE), None, None)
    case AutomateApplication(id, url) => RequestInit(Some(POST), None, Some(JsonBody(AutomationData(id, url))))
    case _ => RequestInit(None, None, None)
  }

  /** The request `request` issues for an operation. */
  function RequestFor(base: string, op: Operation): HttpRequest {
    HttpRequest(RequestUrl(base, Endpoint(op)), Config(Options(op)))
  }

  // ---------------------------------------------------------------------------
  // The route table, and the requests checked against it
  // ---------------------------------------------------------------------------

  /** The HTTP method of each operation, as the backend's routes expect it. */
  function RouteMethod(op: Operation): Method {
    match op
    case CreateUserWithClerk(_) => POST
    case AddProject(_, _) => POST
    case AddWorkExperience(_, _) => POST
    case AutomateApplication(_, _) => POST
    case UpdateUserByClerkId(_, _) => PUT
    case UpdateProject(_, _, _) => PUT
    case UpdateWorkExperience(_, _, _) => PUT
    case DeleteProject(_, _) => DELETE
    case DeleteWorkExperience(_, _) => DELETE
    case _ => GET
  }

  /** Every request goes out with the method of its route and the JSON content type. */
  lemma RequestMethodAndHeaders(base: string, op: Operation)
    ensures EffectiveMethod(RequestFor(base, op).init) == RouteMethod(op)
    ensures RequestFor(base, op).init.headers == Some(JsonHeaders)
  {
  }

  /** Exactly the creating and updating operations send a body, and it is the data they were given. */
  lemma RequestBody(base: string, op: Operation)
    ensures RequestFor(base, op).init.body.Some? <==> RouteMethod(op) == POST || RouteMethod(op) == PUT
    ensures op.CreateUserWithClerk? ==> RequestFor(base, op).init.body == Some(JsonBody(NewUserData(op.newUser)))
    ensures op.UpdateUserByClerkId? ==> RequestFor(base, op).init.body == Some(JsonBody(UserData(op.userPatch)))
    ensures op.AddProject? ==> RequestFor(base, op).init.body == Some(JsonBody(ProjectData(op.project)))
    ensures op.UpdateProject? ==> RequestFor(base, op).init.body == Some(JsonBody(ProjectUpdate(op.projectPatch)))
    ensures op.AddWorkExperience? ==> RequestFor(base, op).init.body == Some(JsonBody(ExperienceData(op.experience)))
    ensures op.UpdateWorkExperience? ==> RequestFor(base, op).init.body == Some(JsonBody(ExperienceUpdate(op.experiencePatch)))
    ensures op.AutomateApplication? ==> RequestFor(base, op).init.body == Some(JsonBody(AutomationData(op.clerkUserId, op.jobUrl)))
  {
  }

  /** The company name is encoded into a single path segment: it cannot add a segment, a query or a fragment. */
  lemma CompanySegment(company: string)
    ensures var e := EncodeURIComponent(company);
      Endpoint(GetUsersByCompany(company)) == "/users/company/" + e
      && '/' !in e && '?' !in e && '#' !in e
  {
    var e := EncodeURIComponent(company);
    QuerySafeExcludes(e, '/');
    QuerySafeExcludes(e, '?');
    QuerySafeExcludes(e, '#');
  }

  /**
   * The skills search puts the list into one query value that holds only
   * unreserved characters and `%`, so it cannot end the value or start
   * another parameter, and a receiver that percent-decodes the value and
   * splits it at commas gets the list back, as long as no skill contains a
   * comma and the list is not empty.
   */
  lemma SkillsQueryRoundTrip(skills: seq<string>)
    requires |skills| >= 1 && forall i :: 0 <= i < |skills| ==> ',' !in skills[i]
    ensures Endpoint(SearchUsersBySkills(skills)) == "/users/search/skills?skills=" + SkillsParam(skills)
    ensures '&' !in SkillsParam(skills) && '#' !in SkillsParam(skills) && '+' !in SkillsParam(skills)
    ensures Decode(SkillsParam(skills)) == Some(Join(skills, ','))
    ensures Split(Decode(SkillsParam(skills)).value, ',') == skills
  {
    var v := SkillsParam(skills);
    QuerySafeExcludes(v, '&');
    QuerySafeExcludes(v, '#');
    QuerySafeExcludes(v, '+');
    DecodeEncode(Join(skills, ','));
    SplitJoin(skills, ',');
  }

  // ---------------------------------------------------------------------------
  // Responses
  // ---------------------------------------------------------------------------

  /**
   * The body of a response, as `response.json()` sees it: not JSON (the
   * parse rejects with that syntax error), or a JSON value holding the
   * operation's result and, possibly, a string `message` property.
   */
  datatype Json<T> = Unparseable(syntaxError: string) | Parsed(value: T, message: Option<string>)

  /** What `fetch` gives: a rejection (no response at all) or a response with a status and a body. */
  datatype Reply<T> = NetworkError(reason: string) | Response(status: nat, body: Json<T>)

  /** The result of an awaited call: its value, or the message of the error it threw. */
  datatype Remote<T> = Success(value: T) | Failure(message: string)

  /** `response.ok`: a status in the range 200-299. */
  predicate IsOk(status: nat) {
    200 <= status < 300
  }

  const StatusPrefix := "HTTP error! status: "

  /**
   * The message of the error thrown for a response that is not ok: the body's
   * `message` when it is a non-empty string, otherwise the status line. An
   * unparseable body counts as `{}`, which has no message.
   */
  function ErrorMessage<T>(status: nat, body: Json<T>): (message: string)
    ensures message != ""
    ensures body.Parsed? && Truthy(body.message) ==> message == body.message.value
    ensures !(body.Parsed? && Truthy(body.message)) ==> message == StatusPrefix + NatToString(status)
  {
    var errorData := if body.Parsed? then body.message else None;
    OrElse(errorData, StatusPrefix + NatToString(status))
  }

  /** When the body gives no message, the status can be read back out of the message. */
  lemma ErrorMessageStatus<T>(status: nat, body: Json<T>)
    requires !(body.Parsed? && Truthy(body.message))
    ensures var m := ErrorMessage(status, body);
      m[..|StatusPrefix|] == StatusPrefix
      && (forall i :: |StatusPrefix| <= i < |m| ==> IsDigit(m[i]))
      && ParseNat(m[|StatusPrefix|..]) == status
  {
    var m := ErrorMessage(status, body);
    var digits := NatToString(status);
    NatToStringRoundTrip(status);
    assert m[|StatusPrefix|..] == digits;
    forall i | |StatusPrefix| <= i < |m| ensures IsDigit(m[i]) {
      assert m[i] == digits[i - |StatusPrefix|];
    }
  }

  /**
   * How a reply settles the call: an ok response with a JSON body gives that
   * value unchanged, and every other reply throws. A rejected `fetch` and a
   * body that does not parse are rethrown with their own messages; a response
   * that is not ok throws with `ErrorMessage`.
   */
  function Outcome<T>(reply: Reply<T>): (r: Remote<T>)
    ensures r.Success? <==> reply.Response? && IsOk(reply.status) && reply.body.Parsed?
    ensures r.Success? ==> r.value == reply.body.value
    ensures reply.Response? && !IsOk(reply.status) ==> r == Failure(ErrorMessage(reply.status, reply.body))
    ensures reply.Response? && IsOk(reply.status) && reply.body.Unparseable? ==> r == Failure(reply.body.syntaxError)
    ensures reply.NetworkError? ==> r == Failure(reply.reason)
  {
    match reply
    case NetworkError(reason) => Failure(reason)
    case Response(status, body) =>
      if !IsOk(status) then Failure(ErrorMessage(status, body))
      else match body
        case Unparseable(e) => Failure(e)
        case Parsed(v, _) => Success(v)
  }

  // ---------------------------------------------------------------------------
  // The service
  // ---------------------------------------------------------------------------

  /** A `FormData` buffer: the fields appended so far, in order. */
  class FormData {
    var entries: seq<(string, FormValue)>

    constructor()
      ensures entries == []
    {
      entries := [];
    }

    method Append(name: string, value: FormValue)
      modifies this
      ensures entries == old(entries) + [(name, value)]
    {
      entries := entries + [(name, value)];
    }
  }

  const UploadPath := "/resume/upload"

  /** The body `uploadResume` sends: the file under `resume`, then the identity under `clerkUserId`. */
  function UploadFields(clerkUserId: string, file: File): (fields: seq<(string, FormValue)>)
    ensures |fields| == 2 && fields[0].0 == "resume" && fields[1].0 == "clerkUserId"
    ensures fields[0].1 == FileValue(file) && fields[1].1 == TextValue(clerkUserId)
  {
    [("resume", FileValue(file)), ("clerkUserId", TextValue(clerkUserId))]
  }

  class ApiService {
    const baseUrl: string
    /** The requests issued so far, oldest first. */
    var sent: seq<HttpRequest>

    constructor(setting: Option<string>)
      ensures baseUrl == BaseUrl(setting) && sent == []
    {
      baseUrl := BaseUrl(setting);
      sent := [];
    }

    /** Issues the request for `endpoint`: builds the URL and the configuration and hands them to `fetch`. */
    method Dispatch(endpoint: string, options: RequestInit)
      modifies this
      ensures sent == old(sent) + [HttpRequest(RequestUrl(baseUrl, endpoint), Config(options))]
    {
      var url := baseUrl + endpoint;
      var config := Config(options);
      sent := sent + [HttpRequest(url, config)];
    }

    /** `request`: issues one request and settles on the reply it gets. */
    method Request<T>(endpoint: string, options: RequestInit, reply: Reply<T>) returns (r: Remote<T>)
      modifies this
      ensures sent == old(sent) + [HttpRequest(RequestUrl(baseUrl, endpoint), Config(options))]
      ensures r == Outcome(reply)
    {
      Dispatch(endpoint, options);
      if reply.NetworkError? {
        return Failure(reply.reason);
      }
      if !IsOk(reply.status) {
        var errorData := if reply.body.Parsed? then reply.body.message else None;
        return Failure(OrElse(errorData, StatusPrefix + NatToString(reply.status)));
      }
      match reply.body
      case Unparseable(e) => r := Failure(e);
      case Parsed(v, _) => r := Success(v);
    }

    /** One of the service's operations, through `request`. */
    method Call<T>(op: Operation, reply: Reply<T>) returns (r: Remote<T>)
      modifies this
      ensures sent == old(sent) + [RequestFor(baseUrl, op)]
      ensures r == Outcome(reply)
    {
      r := Request(Endpoint(op), Options(op), reply);
    }

    /**
     * `uploadResume`: posts a form with the file and the identity to the
     * upload endpoint, with no headers of its own (so not the JSON content
     * type), and settles under the same rule as `request`.
     */
    method UploadResume<T>(clerkUserId: string, file: File, reply: Reply<T>) returns (r: Remote<T>)
      modifies this
      ensures sent == old(sent) + [HttpRequest(RequestUrl(baseUrl, UploadPath), RequestInit(Some(POST), None, Some(FormBody(UploadFields(clerkUserId, file)))))]
      ensures r == Outcome(reply)
    {
      var formData := new FormData();
      formData.Append("resume", FileValue(file));
      formData.Append("clerkUserId", TextValue(clerkUserId));
      assert formData.entries == UploadFields(clerkUserId, file);
      sent := sent + [HttpRequest(baseUrl + UploadPath, RequestInit(Some(POST), None, Some(FormBody(formData.entries))))];
      if reply.NetworkError? {
        return Failure(reply.reason);
      }
      if !IsOk(reply.status) {
        var errorData := if reply.body.Parsed? then reply.body.message else None;
        return Failure(OrElse(errorData, StatusPrefix + NatToString(reply.status)));
      }
      match reply.body
      case Unparseable(e) => r := Failure(e);
      case Parsed(v, _) => r := Success(v);
    }
  }
}
