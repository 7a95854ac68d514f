/** What the solution architect's state machine guarantees. */
module ArchitectProperties {
  import opened Outcomes
  import opened Filters
  import opened BasicAgents
  import opened AgentTraits
  import opened Environment
  import opened AgentArchitect

  /** A scope that needs no external URLs ends the architect at once: it goes from
      `Discovery` straight to `Finished` and leaves `externalUrls` as it was. */
  lemma ScopeWithoutUrlsFinishes(c: ArchConfig, w: World, scope: ProjectScope)
    requires c.state == Discovery
    requires DecodedReply(w.reply(ProjectScopeFor(c.facts.projectDescription)), w.scopeOf) == Ok(scope)
    requires !scope.isExternalUrlsRequired
    ensures ArchitectTick(c, w) == Done(ArchConfig(Finished, c.facts.(projectScope := Some(scope))))
    ensures ArchitectRun(c, w) == ArchitectTick(c, w)
    ensures ArchitectRun(c, w).config.facts.externalUrls == c.facts.externalUrls
  {
  }

  /** A scope that needs external URLs stores the model's list and moves to `UnitTesting`. */
  lemma ScopeWithUrlsEntersTesting(c: ArchConfig, w: World, scope: ProjectScope, urls: seq<string>)
    requires c.state == Discovery
    requires DecodedReply(w.reply(ProjectScopeFor(c.facts.projectDescription)), w.scopeOf) == Ok(scope)
    requires scope.isExternalUrlsRequired
    requires DecodedReply(w.reply(SiteUrlsFor(c.facts.projectDescription)), w.urlsOf) == Ok(urls)
    ensures ArchitectTick(c, w)
         == Done(ArchConfig(UnitTesting, c.facts.(projectScope := Some(scope), externalUrls := Some(urls))))
  {
  }

  /** `UnitTesting` keeps exactly the URLs that answered 200 or whose check failed, in their
      order and with all their repeats, and then finishes. */
  lemma {:induction false} UnitTestingKeepsReachableUrls(c: ArchConfig, w: World, urls: seq<string>)
    requires c.state == UnitTesting && c.facts.externalUrls == Some(urls)
    ensures var t := ArchitectTick(c, w);
      && t.Done? && t.config.state == Finished
      && t.config.facts == c.facts.(externalUrls := t.config.facts.externalUrls)
      && t.config.facts.externalUrls.Some?
      && var kept := t.config.facts.externalUrls.value;
      && Subsequence(kept, urls)
      && (forall u :: u in kept <==> u in urls && (w.status(u) == Status(200) || w.status(u) == CheckError))
      && (forall u :: !Excludes(w.status(u)) ==> multiset(kept)[u] == multiset(urls)[u])
  {
    var excluded := ExcludedUrls(urls, w.status);
    if |excluded| == 0 {
      assert forall i :: 0 <= i < |urls| ==> NotIn(excluded)(urls[i]);
      FilterKeepsAll(urls, NotIn(excluded));
    }
    assert ArchitectTick(c, w).config.facts.externalUrls == Some(KeptUrls(urls, excluded));
  }

  /** When no URL is excluded the list is left exactly as it was. */
  lemma NothingExcludedLeavesUrls(c: ArchConfig, w: World, urls: seq<string>)
    requires c.state == UnitTesting && c.facts.externalUrls == Some(urls)
    requires forall i :: 0 <= i < |urls| ==> !Excludes(w.status(urls[i]))
    ensures ArchitectTick(c, w) == Done(ArchConfig(Finished, c.facts))
  {
    assert ExcludedUrls(urls, w.status) == [];
  }

  /** `UnitTesting` with no URL list on the fact sheet is fatal. */
  lemma UnitTestingWithoutUrlsAborts(c: ArchConfig, w: World)
    requires c.state == UnitTesting && c.facts.externalUrls.None?
    ensures ArchitectRun(c, w) == Abort(c, NoUrlsOnFactSheet)
  {
  }

  /** Any other state goes straight to `Finished` and changes nothing else. */
  lemma WorkingFinishes(c: ArchConfig, w: World)
    requires c.state == Working
    ensures ArchitectRun(c, w) == Done(ArchConfig(Finished, c.facts))
  {
  }

  /** A whole run from `Discovery`: it can only fail on the model's replies (never for a
      missing URL list), touches only the scope and the URL list, and on completion has
      stored the scope and kept, of the URLs the model named, exactly the reachable ones. */
  lemma {:induction false} RunFromDiscovery(facts: Facts, w: World)
    ensures var r := ArchitectRun(ArchConfig(Discovery, facts), w);
      && (r.Abort? ==> r.reason == OracleUnavailable || r.reason == MalformedReply)
      && r.config.facts.projectDescription == facts.projectDescription
      && r.config.facts.backendCode == facts.backendCode
      && r.config.facts.apiEndpointsSchema == facts.apiEndpointsSchema
      && (r.Done? ==> r.config.state == Finished && r.config.facts.projectScope.Some?)
      && (r.Done? && !r.config.facts.projectScope.value.isExternalUrlsRequired ==>
            r.config.facts.externalUrls == facts.externalUrls)
      && (r.Done? && r.config.facts.projectScope.value.isExternalUrlsRequired ==>
            exists urls :: DecodedReply(w.reply(SiteUrlsFor(facts.projectDescription)), w.urlsOf) == Ok(urls)
              && r.config.facts.externalUrls.Some?
              && forall u :: u in r.config.facts.externalUrls.value <==>
                   u in urls && (w.status(u) == Status(200) || w.status(u) == CheckError))
  {
    var c := ArchConfig(Discovery, facts);
    var t := ArchitectTick(c, w);
    if t.Done? && t.config.state == UnitTesting {
      var urls := t.config.facts.externalUrls.value;
      UnitTestingKeepsReachableUrls(t.config, w, urls);
      assert ArchitectRun(c, w) == ArchitectRun(t.config, w);
      var t2 := ArchitectTick(t.config, w);
      assert t2.Done? && t2.config.state == Finished;
      assert ArchitectRun(t2.config, w) == t2;
    }
  }
}
