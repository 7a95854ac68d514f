/** Everything outside the agents, given up front: the language model's replies, JSON
    decoding, the operator's answers, builds, the server launch and HTTP status checks. */
module Environment {
  import opened Outcomes
  import opened AgentTraits

  /** The requests the agents send to the language model, with the context each carries. */
  datatype Request =
    | UserInputToGoal(userRequest: string)
    | ProjectScopeFor(description: string)
    | SiteUrlsFor(description: string)
    | BackendWebserverCode(template: string, description: string)
    | ImprovedWebserverCode(facts: Facts)
    | FixedCode(brokenCode: Option<string>, bugErrors: Option<string>)
    | RestApiEndpoints(code: Option<string>)

  /** The text of the model's answer, or `Unavailable` when the call and its one retry both failed. */
  datatype Reply = Answer(text: string) | Unavailable

  type StatusCode = x: int | 0 <= x < 0x1_0000

  /** An HTTP status check: the status returned, or an error (timeout, refused connection, ...). */
  datatype StatusCheck = Status(code: StatusCode) | CheckError

  /** `cargo build`: success, failure with its error output (`None` if it is not UTF-8),
      or the process could not be executed. */
  datatype BuildOutcome = Built | BuildFailed(stderr: Option<string>) | BuildNotStarted

  datatype World = World(
    reply: Request -> Reply,
    scopeOf: string -> Option<ProjectScope>,
    urlsOf: string -> Option<seq<string>>,
    routesOf: string -> Option<seq<RouteObject>>,
    codeTemplate: string,
    approves: nat -> bool,          // the operator's answer at the k-th safety prompt
    build: nat -> BuildOutcome,     // the k-th `cargo build` of one `execute`
    serverLaunches: bool,
    status: string -> StatusCheck)

  /** A request whose answer must decode as JSON: a failed call or a failed decode is fatal. */
  function DecodedReply<T>(reply: Reply, decode: string -> Option<T>): (r: Result<T>)
    ensures r.Ok? <==> reply.Answer? && decode(reply.text).Some?
    ensures r.Ok? ==> decode(reply.text) == Some(r.value)
    ensures reply.Unavailable? ==> r == Fail(OracleUnavailable)
    ensures reply.Answer? && decode(reply.text).None? ==> r == Fail(MalformedReply)
  {
    match reply
    case Unavailable => Fail(OracleUnavailable)
    case Answer(text) =>
      match decode(text)
      case None => Fail(MalformedReply)
      case Some(v) => Ok(v)
  }
}
