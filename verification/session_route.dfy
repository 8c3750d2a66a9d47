/** The session-token API route (src/app/api/session/route.ts): checks the
    instructor, checks the avatar provider's key, then asks the provider for a
    session token, declaring the `log_error` client tool and the instructor's
    persona. The provider call is an input: a function from the request the
    route would send to the provider's reply. */
module SessionRoute {
  import opened Wrappers
  import opened Types
  import opened Instructors

  /** One parameter of a tool declaration, `{ type, description?, enum? }`. */
  datatype ToolParameter = ToolParameter(
    name: string,
    typeName: string,
    description: Option<string>,
    enumValues: Option<seq<string>>)

  /** A client tool the provider's model may call during the conversation. */
  datatype ClientTool = ClientTool(
    typeName: string,
    name: string,
    description: string,
    /** `parameters.type`: the JSON-schema type of the argument object. */
    parametersType: string,
    properties: seq<ToolParameter>,
    required: seq<string>)

  /** The body of the provider request: persona and tools. */
  datatype TokenRequest = TokenRequest(persona: PersonaConfig, tools: seq<ClientTool>)

  /** What the provider does: the `fetch` throws, or it answers with a status
      and a body. The body is `None` when it does not parse as JSON or parses
      as `null` (reading `data.sessionToken` then throws); a parsed object may
      lack `sessionToken`. */
  datatype TokenReply =
    | FetchThrew
    | Answered(status: int, json: Option<TokenJson>)

  datatype TokenJson = TokenJson(sessionToken: Option<string>)

  /** Request body `{ instructorId }`; the identifier may be absent. */
  datatype SessionRequest = SessionRequest(instructorId: Option<string>)

  /** The route's response and the provider request it made, if any. */
  datatype SessionExchange = SessionExchange(response: HttpResponse, sent: Option<TokenRequest>)

  const InvalidInstructorResponse: HttpResponse :=
    HttpResponse(400, ErrorBody("Invalid instructor ID"))

  const SessionFailedResponse: HttpResponse :=
    HttpResponse(500, ErrorBody("Failed to create session"))

  function StringParameter(name: string, description: string): ToolParameter {
    ToolParameter(name, "string", Some(description), None)
  }

  function CategoryNames(cs: seq<ErrorCategory>): (r: seq<string>)
    ensures |r| == |cs|
    ensures forall i :: 0 <= i < |cs| ==> r[i] == cs[i].Text()
  {
    seq(|cs|, i requires 0 <= i < |cs| => cs[i].Text())
  }

  /** The fixed `log_error` declaration: four string parameters, all required,
      the category limited to the error categories. */
  const LogErrorTool: ClientTool := ClientTool(
    "client",
    "log_error",
    "Log a grammar or expression error made by the user during conversation. Call this whenever you notice an error, but do NOT mention the error in your spoken response.",
    "object",
    [ StringParameter("original", "What the user actually said"),
      StringParameter("corrected", "Corrected version"),
      StringParameter("explanation", "Brief explanation in Japanese"),
      ToolParameter("category", "string", None,
                    Some(["grammar", "vocabulary", "expression", "pronunciation_hint"])) ],
    ["original", "corrected", "explanation", "category"])

  /** The persona block of the provider request, field by field. */
  function PersonaPayload(p: PersonaConfig): (r: PersonaConfig)
    ensures r == p
  {
    PersonaConfig(
      p.name, p.avatarId, p.voiceId, p.llmId, p.systemPrompt,
      p.maxSessionLengthSeconds, p.skipGreeting, p.voiceDetectionOptions)
  }

  /** `getInstructor(instructorId)` for a possibly absent identifier: no entry
      has an undefined `id`. */
  function LookUp(req: SessionRequest): Option<Instructor> {
    match req.instructorId
    case Some(id) => GetInstructor(id)
    case None => None
  }

  /** `response.ok`: a 2xx status. */
  predicate IsOk(status: int) {
    200 <= status <= 299
  }

  /** The response for the provider's reply. */
  function TokenResponse(reply: TokenReply): (r: HttpResponse)
    ensures r.status == 200 <==> reply.Answered? && IsOk(reply.status) && reply.json.Some?
    ensures r.status == 200 ==> r.body == TokenBody(reply.json.value.sessionToken)
    ensures r.status != 200 ==> r == SessionFailedResponse
  {
    match reply
    case FetchThrew => SessionFailedResponse
    case Answered(status, json) =>
      if !IsOk(status) then SessionFailedResponse
      else match json
        case None => SessionFailedResponse
        case Some(data) => HttpResponse(200, TokenBody(data.sessionToken))
  }

  /** `POST /api/session`. `body` is `None` when the request body does not
      parse as JSON (or is `null`), which throws into the catch-all. */
  function HandleSession(
    body: Option<SessionRequest>,
    apiKey: Option<string>,
    provider: TokenRequest -> TokenReply): (x: SessionExchange)
    ensures x.sent.Some? <==> body.Some? && LookUp(body.value).Some? && Configured(apiKey)
    ensures body.None? ==> x.response == SessionFailedResponse
    ensures body.Some? && LookUp(body.value).None? ==> x.response == InvalidInstructorResponse
    ensures body.Some? && LookUp(body.value).Some? && !Configured(apiKey) ==>
              x.response == MisconfiguredResponse
    ensures x.sent.Some? ==>
              x.sent.value == TokenRequest(LookUp(body.value).value.personaConfig, [LogErrorTool])
    ensures x.sent.Some? ==> x.response == TokenResponse(provider(x.sent.value))
    ensures x.response.status == 400 <==> body.Some? && LookUp(body.value).None?
  {
    match body
    case None => SessionExchange(SessionFailedResponse, None)
    case Some(req) =>
      match LookUp(req)
      case None => SessionExchange(InvalidInstructorResponse, None)
      case Some(instructor) =>
        if !Configured(apiKey) then SessionExchange(MisconfiguredResponse, None)
        else
          var request := TokenRequest(PersonaPayload(instructor.personaConfig), [LogErrorTool]);
          SessionExchange(TokenResponse(provider(request)), Some(request))
  }

  /** The tool declaration: one tool named `log_error` whose four string
      parameters are all required and whose category enumeration is exactly
      the error categories. */
  lemma LogErrorToolShape()
    ensures LogErrorTool.name == "log_error" && LogErrorTool.typeName == "client"
    ensures LogErrorTool.parametersType == "object"
    ensures |LogErrorTool.properties| == 4
    ensures forall i :: 0 <= i < 4 ==> LogErrorTool.properties[i].typeName == "string"
    ensures forall i :: 0 <= i < 4 ==> LogErrorTool.required[i] == LogErrorTool.properties[i].name
    ensures |LogErrorTool.required| == 4
    ensures LogErrorTool.properties[3].name == "category"
    ensures LogErrorTool.properties[3].enumValues == Some(CategoryNames(ErrorCategories))
  {
    var names := CategoryNames(ErrorCategories);
    assert |names| == 4;
    assert names[0] == "grammar" && names[1] == "vocabulary";
    assert names[2] == "expression" && names[3] == "pronunciation_hint";
    assert names == ["grammar", "vocabulary", "expression", "pronunciation_hint"];
  }

  /** Every request sent carries the same single tool, whatever the
      instructor. */
  lemma SameToolForEveryInstructor(
    b1: SessionRequest, b2: SessionRequest, k1: Option<string>, k2: Option<string>,
    p1: TokenRequest -> TokenReply, p2: TokenRequest -> TokenReply)
    requires HandleSession(Some(b1), k1, p1).sent.Some?
    requires HandleSession(Some(b2), k2, p2).sent.Some?
    ensures HandleSession(Some(b1), k1, p1).sent.value.tools
         == HandleSession(Some(b2), k2, p2).sent.value.tools
         == [LogErrorTool]
  {
  }

  /** Each known instructor gets its own persona sent, unchanged. */
  lemma PersonaSentUnchanged(iid: InstructorId, key: Option<string>, provider: TokenRequest -> TokenReply)
    requires Configured(key)
    ensures var x := HandleSession(Some(SessionRequest(Some(iid.Text()))), key, provider);
            && x.sent.Some?
            && x.sent.value.persona == GetInstructor(iid.Text()).value.personaConfig
            && GetInstructor(iid.Text()).value.id == iid
  {
    GetInstructorTotal(iid);
  }

  /** Unknown identifiers are refused with 400 before the key is looked at,
      and nothing is sent. */
  lemma UnknownInstructorRefused(id: string, key: Option<string>, provider: TokenRequest -> TokenReply)
    requires !KnownId(id)
    ensures HandleSession(Some(SessionRequest(Some(id))), key, provider)
         == SessionExchange(InvalidInstructorResponse, None)
  {
    GetInstructorSpec(id);
  }
}
