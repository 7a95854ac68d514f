/** What the backend developer's state machine guarantees. */
module BackendProperties {
  import opened Outcomes
  import opened Filters
  import opened BasicAgents
  import opened AgentTraits
  import opened Environment
  import opened AgentBackend

  /** The configuration of a new developer about to run on `facts`. */
  function Fresh(facts: Facts): DevConfig {
    DevConfig(Discovery, 0, None, facts, 0)
  }

  /** `Discovery` stores the model's first code on the fact sheet and moves to `Working`. */
  lemma DiscoveryStoresInitialCode(c: DevConfig, w: World, code: string)
    requires c.state == Discovery && c.bugCount <= 2
    requires w.reply(BackendWebserverCode(w.codeTemplate, c.facts.projectDescription)) == Answer(code)
    ensures DevTick(c, w) == Done(c.(state := Working, facts := c.facts.(backendCode := Some(code))))
  {
  }

  /** `Working` overwrites the code and moves to `UnitTesting`; it asks for an improvement
      exactly when no build has failed, and for a fix of the code and its errors otherwise. */
  lemma WorkingRewritesCode(c: DevConfig, w: World, code: string)
    requires c.state == Working && c.bugCount <= 2
    requires w.reply(RewriteRequest(c)) == Answer(code)
    ensures DevTick(c, w) == Done(c.(state := UnitTesting, facts := c.facts.(backendCode := Some(code))))
    ensures RewriteRequest(c).ImprovedWebserverCode? <==> c.bugCount == 0
    ensures RewriteRequest(c).FixedCode? ==> RewriteRequest(c) == FixedCode(c.facts.backendCode, c.bugErrors)
  {
  }

  /** An operator "no" is fatal before the build is started. */
  lemma DeclineAbortsBeforeBuild(c: DevConfig, w: World)
    requires c.state == UnitTesting && c.bugCount <= 2
    requires !w.approves(c.builds)
    ensures DevTick(c, w) == Abort(c, OperatorDeclined)
  {
  }

  /** A failed build counts one more bug and keeps its errors; it goes back to `Working`
      while at most two are counted, and the third is fatal. */
  lemma FailedBuildCountsBug(c: DevConfig, w: World, errors: string)
    requires c.state == UnitTesting && c.bugCount <= 2
    requires w.approves(c.builds) && w.build(c.builds) == BuildFailed(Some(errors))
    ensures var failed := c.(bugCount := c.bugCount + 1, bugErrors := Some(errors), builds := c.builds + 1);
      DevTick(c, w) == if c.bugCount + 1 <= 2 then Done(failed.(state := Working)) else Abort(failed, TooManyBugs)
  {
  }

  /** A successful build resets the bug counter to exactly zero, whatever follows. */
  lemma SuccessfulBuildResetsCounter(c: DevConfig, w: World)
    requires c.state == UnitTesting && c.bugCount <= 2
    requires w.approves(c.builds) && w.build(c.builds) == Built
    ensures DevTick(c, w).config.bugCount == 0
    ensures DevTick(c, w).config.builds == c.builds + 1
  {
  }

  /** After a successful build the static GET routes are stored as the schema, and the tick
      finishes exactly when every one of them answers 200 at the server's address; otherwise
      it aborts naming the first route's URL that did not. */
  lemma {:induction false} EndpointChecksDecide(c: DevConfig, w: World, routes: seq<RouteObject>)
    requires c.state == UnitTesting && c.bugCount <= 2
    requires w.approves(c.builds) && w.build(c.builds) == Built
    requires DecodedReply(w.reply(RestApiEndpoints(c.facts.backendCode)), w.routesOf) == Ok(routes)
    requires w.serverLaunches
    ensures var t := DevTick(c, w);
      && t.config.facts == c.facts.(apiEndpointsSchema := Some(CheckableRoutes(routes)))
      && (t.Done? <==> forall e :: e in routes && IsCheckable(e) ==> w.status(ServerAddress + e.route) == Status(200))
      && (t.Done? ==> t.config.state == Finished)
      && (t.Abort? ==> exists e :: e in routes && IsCheckable(e) && t.reason == EndpointFailed(ServerAddress + e.route)
                                   && w.status(ServerAddress + e.route) != Status(200))
  {
    var checked := CheckableRoutes(routes);
    var t := DevTick(c, w);
    assert t == BuildAndCheck(c, w);
    if t.Done? {
      forall e | e in routes && IsCheckable(e)
        ensures w.status(ServerAddress + e.route) == Status(200)
      {
        var i :| 0 <= i < |checked| && checked[i] == e;
      }
    } else {
      var i :| 0 <= i < |checked| && FirstFailingEndpoint(checked, w.status).value == EndpointUrl(checked[i])
        && w.status(EndpointUrl(checked[i])) != Status(200);
      assert checked[i] in routes && IsCheckable(checked[i]);
    }
  }

  /** A run never builds more than three times, less what earlier failures used up. */
  lemma {:induction false} RunBuildsAtMostThree(c: DevConfig, w: World)
    requires c.bugCount <= 2
    decreases Measure(c)
    ensures DevRun(c, w).config.builds <= c.builds + 3 - c.bugCount
  {
    if c.state != Finished {
      var t := DevTick(c, w);
      if t.Done? {
        RunBuildsAtMostThree(t.config, w);
      }
    }
  }

  /** A completed run has reset the bug counter and checked every stored route with 200. */
  lemma {:induction false} CompletedRunCheckedEveryRoute(c: DevConfig, w: World)
    requires c.bugCount <= 2 && c.state != Finished
    decreases Measure(c)
    ensures var r := DevRun(c, w);
      r.Done? ==>
        && r.config.bugCount == 0
        && r.config.facts.apiEndpointsSchema.Some?
        && forall e :: e in r.config.facts.apiEndpointsSchema.value ==>
             IsCheckable(e) && w.status(ServerAddress + e.route) == Status(200)
  {
    var t := DevTick(c, w);
    if t.Done? && t.config.state != Finished {
      CompletedRunCheckedEveryRoute(t.config, w);
    } else if t.Done? {
      var checked := t.config.facts.apiEndpointsSchema.value;
      forall e | e in checked
        ensures IsCheckable(e) && w.status(ServerAddress + e.route) == Status(200)
      {
        var i :| 0 <= i < |checked| && checked[i] == e;
      }
    }
  }

  /** The developer reads the description, scope and URLs on the fact sheet but never changes them. */
  lemma {:induction false} RunKeepsArchitectFacts(c: DevConfig, w: World)
    requires c.bugCount <= 2
    decreases Measure(c)
    ensures var f := DevRun(c, w).config.facts;
      && f.projectDescription == c.facts.projectDescription
      && f.projectScope == c.facts.projectScope
      && f.externalUrls == c.facts.externalUrls
  {
    if c.state != Finished {
      var t := DevTick(c, w);
      assert t.config.facts.projectDescription == c.facts.projectDescription;
      if t.Done? {
        RunKeepsArchitectFacts(t.config, w);
      }
    }
  }

  /** The model answers every request. */
  ghost predicate Responsive(w: World) {
    forall q :: w.reply(q).Answer?
  }

  /** Three consecutive failed builds are fatal, on the third build. */
  lemma {:induction false} ThirdFailureAborts(facts: Facts, w: World)
    requires Responsive(w)
    requires w.approves(0) && w.approves(1) && w.approves(2)
    requires w.build(0).BuildFailed? && w.build(0).stderr.Some?
    requires w.build(1).BuildFailed? && w.build(1).stderr.Some?
    requires w.build(2).BuildFailed? && w.build(2).stderr.Some?
    ensures var r := DevRun(Fresh(facts), w);
      r.Abort? && r.reason == TooManyBugs && r.config.bugCount == 3 && r.config.builds == 3
      && r.config.bugErrors == w.build(2).stderr
  {
    var c0 := Fresh(facts);
    var c1 := DevTick(c0, w).config;     // Working
    var c2 := DevTick(c1, w).config;     // UnitTesting
    var c3 := DevTick(c2, w).config;     // first failure: Working
    var c4 := DevTick(c3, w).config;     // UnitTesting
    var c5 := DevTick(c4, w).config;     // second failure: Working
    var c6 := DevTick(c5, w).config;     // UnitTesting
    assert DevRun(c0, w) == DevRun(c1, w) == DevRun(c2, w);
    assert c3.bugCount == 1 && c3.state == Working && c3.builds == 1;
    assert DevRun(c2, w) == DevRun(c3, w) == DevRun(c4, w);
    assert c5.bugCount == 2 && c5.state == Working && c5.builds == 2;
    assert DevRun(c4, w) == DevRun(c5, w) == DevRun(c6, w);
    assert c6.state == UnitTesting && c6.builds == 2;
  }

  /** Two failed builds followed by a successful one are not fatal for the bug count: the
      counter is back at zero and exactly three builds ran. */
  lemma {:induction false} TwoFailuresThenSuccessContinue(facts: Facts, w: World)
    requires Responsive(w)
    requires w.approves(0) && w.approves(1) && w.approves(2)
    requires w.build(0).BuildFailed? && w.build(0).stderr.Some?
    requires w.build(1).BuildFailed? && w.build(1).stderr.Some?
    requires w.build(2) == Built
    ensures var r := DevRun(Fresh(facts), w);
      r.config.bugCount == 0 && r.config.builds == 3 && (r.Abort? ==> r.reason != TooManyBugs)
  {
    var c0 := Fresh(facts);
    var c1 := DevTick(c0, w).config;
    var c2 := DevTick(c1, w).config;
    var c3 := DevTick(c2, w).config;
    var c4 := DevTick(c3, w).config;
    var c5 := DevTick(c4, w).config;
    var c6 := DevTick(c5, w).config;
    assert DevRun(c0, w) == DevRun(c1, w) == DevRun(c2, w);
    assert c3.bugCount == 1 && c3.state == Working && c3.builds == 1;
    assert DevRun(c2, w) == DevRun(c3, w) == DevRun(c4, w);
    assert c5.bugCount == 2 && c5.state == Working && c5.builds == 2;
    assert DevRun(c4, w) == DevRun(c5, w) == DevRun(c6, w);
    assert c6.state == UnitTesting && c6.builds == 2;
    var t := DevTick(c6, w);
    assert t.config.bugCount == 0 && t.config.builds == 3;
    assert t.Done? ==> t.config.state == Finished;
    assert DevRun(c6, w) == t;
  }

  /** A first build that succeeds, with every static GET route answering 200, completes the
      run with one build and exactly those routes as the schema. */
  lemma {:induction false} FirstBuildSucceeds(facts: Facts, w: World, routes: seq<RouteObject>)
    requires Responsive(w) && w.approves(0) && w.build(0) == Built && w.serverLaunches
    requires forall t :: w.routesOf(t) == Some(routes)
    requires forall e :: e in routes && IsCheckable(e) ==> w.status(ServerAddress + e.route) == Status(200)
    ensures var r := DevRun(Fresh(facts), w);
      && r.Done? && r.config.state == Finished && r.config.bugCount == 0 && r.config.builds == 1
      && r.config.facts.apiEndpointsSchema == Some(CheckableRoutes(routes))
  {
    var c0 := Fresh(facts);
    var c1 := DevTick(c0, w).config;
    var c2 := DevTick(c1, w).config;
    assert DevRun(c0, w) == DevRun(c1, w) == DevRun(c2, w);
    assert c2.state == UnitTesting && c2.builds == 0 && c2.bugCount == 0;
    EndpointChecksDecide(c2, w, routes);
    var t := DevTick(c2, w);
    assert DevRun(c2, w) == DevRun(t.config, w) == t;
  }

  /** With the same first build, a static GET route that does not answer 200 is fatal. */
  lemma {:induction false} FailingRouteAborts(facts: Facts, w: World, routes: seq<RouteObject>, e: RouteObject)
    requires Responsive(w) && w.approves(0) && w.build(0) == Built && w.serverLaunches
    requires forall t :: w.routesOf(t) == Some(routes)
    requires e in routes && IsCheckable(e) && w.status(ServerAddress + e.route) != Status(200)
    ensures var r := DevRun(Fresh(facts), w);
      r.Abort? && r.reason.EndpointFailed? && r.config.state == UnitTesting
  {
    var c0 := Fresh(facts);
    var c1 := DevTick(c0, w).config;
    var c2 := DevTick(c1, w).config;
    assert DevRun(c0, w) == DevRun(c1, w) == DevRun(c2, w);
    assert c2.state == UnitTesting && c2.builds == 0 && c2.bugCount == 0;
    EndpointChecksDecide(c2, w, routes);
    assert DevRun(c2, w) == DevTick(c2, w);
  }

  /** The examples of the route filter: only a static "get" route is checked. */
  lemma RouteFilterExamples()
    ensures IsCheckable(RouteObject("/items", "get", "false"))
    ensures !IsCheckable(RouteObject("/items/:id", "get", "true"))
    ensures !IsCheckable(RouteObject("/items", "post", "false"))
    ensures !IsCheckable(RouteObject("/items", "GET", "false"))
  {
  }
}
