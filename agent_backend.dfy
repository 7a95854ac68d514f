/** The backend developer: generates server code, builds it, repairs failed builds at most
    twice, extracts the route schema and checks every static GET route of the running server. */
module AgentBackend {
  import opened Outcomes
  import opened Filters
  import opened BasicAgents
  import opened AgentTraits
  import opened Environment

  const Objective := "Develops the backend code for the webserver and mongodb database"
  const Position := "Backend Developer"
  /** Address of the generated server; a route is appended to it as it is. */
  const ServerAddress := "http://localhost:1337"

  type u8 = x: int | 0 <= x < 0x100

  /** The developer's part of a run; `builds` counts the `cargo build` invocations so far. */
  datatype DevConfig = DevConfig(
    state: AgentState,
    bugCount: u8,
    bugErrors: Option<string>,
    facts: Facts,
    builds: nat)

  /** The route filter: exact, case-sensitive string comparisons. */
  predicate IsCheckable(r: RouteObject) {
    r.httpMethod == "get" && r.isRouteDynamic == "false"
  }

  /** `check_endpoints`: the static GET routes, in their order and with their repeats. */
  function CheckableRoutes(routes: seq<RouteObject>): (r: seq<RouteObject>)
    ensures forall e :: e in r <==> e in routes && e.httpMethod == "get" && e.isRouteDynamic == "false"
    ensures forall e :: IsCheckable(e) ==> multiset(r)[e] == multiset(routes)[e]
    ensures Subsequence(r, routes)
  {
    Filter(routes, IsCheckable)
  }

  function EndpointUrl(route: RouteObject): string {
    ServerAddress + route.route
  }

  /** The URL of the first route that does not answer 200 (an error counts as not 200). */
  function FirstFailingEndpoint(routes: seq<RouteObject>, status: string -> StatusCheck): (r: Option<string>)
    ensures r.None? <==> forall i :: 0 <= i < |routes| ==> status(EndpointUrl(routes[i])) == Status(200)
    ensures r.Some? ==> exists i :: 0 <= i < |routes| && r.value == EndpointUrl(routes[i])
                                    && status(r.value) != Status(200)
                                    && forall j :: 0 <= j < i ==> status(EndpointUrl(routes[j])) == Status(200)
  {
    if routes == [] then None
    else if status(EndpointUrl(routes[0])) != Status(200) then Some(EndpointUrl(routes[0]))
    else
      var r := FirstFailingEndpoint(routes[1..], status);
      assert forall i :: 1 <= i < |routes| ==> routes[i] == routes[1..][i - 1];
      r
  }

  /** The request of the `Working` arm: an improvement while there is no bug, a fix otherwise. */
  function RewriteRequest(c: DevConfig): Request {
    if c.bugCount == 0 then ImprovedWebserverCode(c.facts)
    else FixedCode(c.facts.backendCode, c.bugErrors)
  }

  function Rank(s: AgentState): nat {
    match s
    case Discovery => 3
    case Working => 2
    case UnitTesting => 1
    case Finished => 0
  }

  /** Every failed build uses up one of the three allowed; inside a build cycle the state
      advances; `Finished` is terminal, whatever the counter says. */
  function Measure(c: DevConfig): nat
    requires c.bugCount <= 2
  {
    if c.state == Finished then 0 else 3 * (3 - c.bugCount) + Rank(c.state)
  }

  /** The `UnitTesting` arm after the operator agreed: build, then schema, launch and checks. */
  function BuildAndCheck(c: DevConfig, w: World): (r: Step<DevConfig>)
    requires c.state == UnitTesting && c.bugCount <= 2
    ensures r.config.builds == c.builds + 1
    ensures r.Done? ==> r.config.bugCount <= 2 && Measure(r.config) < Measure(c)
  {
    var built := c.(builds := c.builds + 1);
    match w.build(c.builds)
    case BuildNotStarted => Abort(built, BuildNotLaunched)
    case BuildFailed(stderr) =>
      (match stderr
       case None => Abort(built, BuildErrorsNotUtf8)
       case Some(text) =>
         var failed := built.(bugCount := c.bugCount + 1, bugErrors := Some(text));
         if failed.bugCount > 2 then Abort(failed, TooManyBugs)
         else Done(failed.(state := Working)))
    case Built =>
      var reset := built.(bugCount := 0);
      (match DecodedReply(w.reply(RestApiEndpoints(c.facts.backendCode)), w.routesOf)
       case Fail(e) => Abort(reset, e)
       case Ok(routes) =>
         var checked := CheckableRoutes(routes);
         var stored := reset.(facts := c.facts.(apiEndpointsSchema := Some(checked)));
         if !w.serverLaunches then Abort(stored, ServerNotLaunched)
         else
           match FirstFailingEndpoint(checked, w.status)
           case Some(url) => Abort(stored, EndpointFailed(url))
           case None => Done(stored.(state := Finished)))
  }

  /** One pass of the `while` loop of `execute`. */
  function DevTick(c: DevConfig, w: World): (r: Step<DevConfig>)
    requires c.state != Finished && c.bugCount <= 2
    ensures r.Done? ==> r.config.bugCount <= 2 && Measure(r.config) < Measure(c)
  {
    match c.state
    case Discovery =>
      (match w.reply(BackendWebserverCode(w.codeTemplate, c.facts.projectDescription))
       case Unavailable => Abort(c, OracleUnavailable)
       case Answer(code) => Done(c.(state := Working, facts := c.facts.(backendCode := Some(code)))))
    case Working =>
      (match w.reply(RewriteRequest(c))
       case Unavailable => Abort(c, OracleUnavailable)
       case Answer(code) => Done(c.(state := UnitTesting, facts := c.facts.(backendCode := Some(code)))))
    case UnitTesting =>
      if !w.approves(c.builds) then Abort(c, OperatorDeclined)
      else BuildAndCheck(c, w)
  }

  /** `execute`: ticks until `Finished` or a fatal error. */
  function DevRun(c: DevConfig, w: World): (r: Step<DevConfig>)
    requires c.bugCount <= 2
    decreases Measure(c)
    ensures r.Done? ==> r.config.state == Finished && r.config.bugCount <= 2
  {
    if c.state == Finished then Done(c)
    else
      match DevTick(c, w)
      case Abort(c', e) => Abort(c', e)
      case Done(c') => DevRun(c', w)
  }

  /** The `for` loop that checks the filtered routes on the running server. */
  method CheckEndpoints(routes: seq<RouteObject>, status: string -> StatusCheck) returns (failed: Option<string>)
    ensures failed == FirstFailingEndpoint(routes, status)
  {
    for i := 0 to |routes|
      invariant FirstFailingEndpoint(routes, status) == FirstFailingEndpoint(routes[i..], status)
    {
      assert routes[i..][1..] == routes[i + 1..];
      var url := ServerAddress + routes[i].route;
      match status(url) {
        case Status(code) =>
          if code != 200 {
            return Some(url);
          }
        case CheckError =>
          return Some(url);
      }
    }
    return None;
  }

  class BackendDeveloper {
    const attributes: BasicAgent
    var bugErrors: Option<string>
    var bugCount: u8

    /** Reachable states: at most two unrepaired failures are ever recorded. */
    ghost predicate Valid()
      reads this
    {
      bugCount <= 2
    }

    function Config(fs: FactSheet, builds: nat): DevConfig
      reads this, attributes, fs
    {
      DevConfig(attributes.state, bugCount, bugErrors, fs.Snapshot(), builds)
    }

    constructor ()
      ensures Valid() && fresh(attributes)
      ensures attributes.objective == Objective && attributes.position == Position
      ensures attributes.state == Discovery && attributes.memory == []
      ensures bugCount == 0 && bugErrors == None
    {
      attributes := new BasicAgent(Objective, Position);
      bugErrors := None;
      bugCount := 0;
    }

    method CallInitialBackendCode(fs: FactSheet, w: World) returns (r: Result<string>)
      modifies fs
      ensures r.Fail? <==> w.reply(BackendWebserverCode(w.codeTemplate, old(fs.projectDescription))).Unavailable?
      ensures r.Fail? ==> r.reason == OracleUnavailable && fs.Snapshot() == old(fs.Snapshot())
      ensures r.Ok? ==> w.reply(BackendWebserverCode(w.codeTemplate, old(fs.projectDescription))) == Answer(r.value)
      ensures r.Ok? ==> fs.Snapshot() == old(fs.Snapshot()).(backendCode := Some(r.value))
    {
      match w.reply(BackendWebserverCode(w.codeTemplate, fs.projectDescription)) {
        case Unavailable => return Fail(OracleUnavailable);
        case Answer(code) =>
          fs.backendCode := Some(code);
          return Ok(code);
      }
    }

    method CallImprovedBackendCode(fs: FactSheet, w: World) returns (r: Result<string>)
      modifies fs
      ensures r.Fail? <==> w.reply(ImprovedWebserverCode(old(fs.Snapshot()))).Unavailable?
      ensures r.Fail? ==> r.reason == OracleUnavailable && fs.Snapshot() == old(fs.Snapshot())
      ensures r.Ok? ==> w.reply(ImprovedWebserverCode(old(fs.Snapshot()))) == Answer(r.value)
      ensures r.Ok? ==> fs.Snapshot() == old(fs.Snapshot()).(backendCode := Some(r.value))
    {
      match w.reply(ImprovedWebserverCode(fs.Snapshot())) {
        case Unavailable => return Fail(OracleUnavailable);
        case Answer(code) =>
          fs.backendCode := Some(code);
          return Ok(code);
      }
    }

    method CallFixCodeBugs(fs: FactSheet, w: World) returns (r: Result<string>)
      modifies fs
      ensures r.Fail? <==> w.reply(FixedCode(old(fs.backendCode), bugErrors)).Unavailable?
      ensures r.Fail? ==> r.reason == OracleUnavailable && fs.Snapshot() == old(fs.Snapshot())
      ensures r.Ok? ==> w.reply(FixedCode(old(fs.backendCode), bugErrors)) == Answer(r.value)
      ensures r.Ok? ==> fs.Snapshot() == old(fs.Snapshot()).(backendCode := Some(r.value))
    {
      match w.reply(FixedCode(fs.backendCode, bugErrors)) {
        case Unavailable => return Fail(OracleUnavailable);
        case Answer(code) =>
          fs.backendCode := Some(code);
          return Ok(code);
      }
    }

    /** Asks for the route schema of the saved code, which is the fact sheet's code. */
    method CallExactRestApiEndpoints(fs: FactSheet, w: World) returns (r: Result<string>)
      ensures r.Fail? <==> w.reply(RestApiEndpoints(fs.backendCode)).Unavailable?
      ensures r.Fail? ==> r.reason == OracleUnavailable
      ensures r.Ok? ==> w.reply(RestApiEndpoints(fs.backendCode)) == Answer(r.value)
    {
      match w.reply(RestApiEndpoints(fs.backendCode)) {
        case Unavailable => return Fail(OracleUnavailable);
        case Answer(text) => return Ok(text);
      }
    }

    /** The `UnitTesting` arm once the operator has agreed; `builds` is the attempt number. */
    method RunBuildAndCheck(fs: FactSheet, w: World, builds: nat) returns (abort: Option<Fatal>)
      requires Valid() && attributes.state == UnitTesting
      modifies this, attributes, fs
      ensures var r := BuildAndCheck(old(Config(fs, builds)), w);
        Config(fs, builds + 1) == r.config && abort == (if r.Done? then None else Some(r.reason))
      ensures attributes.Identity() == old(attributes.Identity())
    {
      match w.build(builds) {
        case BuildNotStarted =>
          return Some(BuildNotLaunched);
        case BuildFailed(stderr) =>
          if stderr.None? {
            return Some(BuildErrorsNotUtf8);
          }
          bugCount := bugCount + 1;
          bugErrors := stderr;
          if bugCount > 2 {
            return Some(TooManyBugs);
          }
          attributes.state := Working;
          return None;
        case Built =>
          bugCount := 0;
          var text := CallExactRestApiEndpoints(fs, w);
          if text.Fail? {
            return Some(text.reason);
          }
          var routes := w.routesOf(text.value);
          if routes.None? {
            return Some(MalformedReply);
          }
          var checked := CheckableRoutes(routes.value);
          fs.apiEndpointsSchema := Some(checked);
          if !w.serverLaunches {
            return Some(ServerNotLaunched);
          }
          var failed := CheckEndpoints(checked, w.status);
          if failed.Some? {
            return Some(EndpointFailed(failed.value));
          }
          attributes.state := Finished;
          return None;
      }
    }

    /** One pass of the `while` loop; `builds` counts the builds run so far. */
    method Tick(fs: FactSheet, w: World, builds: nat) returns (abort: Option<Fatal>, builds': nat)
      requires Valid() && attributes.state != Finished
      modifies this, attributes, fs
      ensures var r := DevTick(old(Config(fs, builds)), w);
        Config(fs, builds') == r.config && abort == (if r.Done? then None else Some(r.reason))
      ensures attributes.Identity() == old(attributes.Identity())
    {
      builds' := builds;
      match attributes.state {
        case Discovery =>
          var code := CallInitialBackendCode(fs, w);
          if code.Fail? {
            return Some(code.reason), builds';
          }
          attributes.state := Working;
        case Working =>
          var code;
          if bugCount == 0 {
            code := CallImprovedBackendCode(fs, w);
          } else {
            code := CallFixCodeBugs(fs, w);
          }
          if code.Fail? {
            return Some(code.reason), builds';
          }
          attributes.state := UnitTesting;
        case UnitTesting =>
          if !w.approves(builds) {
            return Some(OperatorDeclined), builds';
          }
          abort := RunBuildAndCheck(fs, w, builds);
          builds' := builds + 1;
          return;
      }
      abort := None;
    }

    method Execute(fs: FactSheet, w: World) returns (outcome: Outcome, builds: nat)
      requires Valid()
      modifies this, attributes, fs
      ensures var r := DevRun(DevConfig(old(attributes.state), old(bugCount), old(bugErrors), old(fs.Snapshot()), 0), w);
        outcome == r.ToOutcome() && Config(fs, builds) == r.config
      ensures outcome.Completed? ==> Valid() && attributes.state == Finished
      ensures attributes.Identity() == old(attributes.Identity())
    {
      builds := 0;
      ghost var run := DevRun(Config(fs, builds), w);
      while attributes.state != Finished
        invariant Valid()
        invariant DevRun(Config(fs, builds), w) == run
        invariant attributes.Identity() == old(attributes.Identity())
        decreases Measure(Config(fs, builds))
      {
        var abort;
        abort, builds := Tick(fs, w, builds);
        if abort.Some? {
          return Aborted(abort.value), builds;
        }
      }
      outcome := Completed;
    }
  }
}
