/** The solution architect: decides the project scope and, when external URLs are needed,
    gathers them and drops the ones that answer with a status other than 200. */
module AgentArchitect {
  import opened Outcomes
  import opened Filters
  import opened BasicAgents
  import opened AgentTraits
  import opened Environment

  const Objective := "Gathers information and design solutions for software development"
  const Position := "Solutions Architect"

  /** The architect's part of a run: its state and the fact sheet it works on. */
  datatype ArchConfig = ArchConfig(state: AgentState, facts: Facts)

  /** Only an explicit status other than 200 excludes a URL; a failed check does not. */
  predicate Excludes(check: StatusCheck) {
    check.Status? && check.code != 200
  }

  function IsExcluded(status: string -> StatusCheck): string -> bool {
    u => Excludes(status(u))
  }

  /** `excluded_urls`: the URLs, in list order and with their repeats, that the check excludes. */
  function ExcludedUrls(urls: seq<string>, status: string -> StatusCheck): (r: seq<string>)
    ensures forall u :: u in r <==> u in urls && Excludes(status(u))
    ensures Subsequence(r, urls)
  {
    Filter(urls, IsExcluded(status))
  }

  function NotIn(excluded: seq<string>): string -> bool {
    u => u !in excluded
  }

  /** The replacement list: every URL not in `excluded`, in order, repeats kept. */
  function KeptUrls(urls: seq<string>, excluded: seq<string>): (r: seq<string>)
    ensures forall u :: u in r <==> u in urls && u !in excluded
    ensures forall u :: u !in excluded ==> multiset(r)[u] == multiset(urls)[u]
    ensures Subsequence(r, urls)
  {
    Filter(urls, NotIn(excluded))
  }

  function Rank(s: AgentState): nat {
    match s
    case Discovery => 2
    case Finished => 0
    case _ => 1
  }

  /** One pass of the `while` loop of `execute`. */
  function ArchitectTick(c: ArchConfig, w: World): (r: Step<ArchConfig>)
    requires c.state != Finished
    ensures r.Done? ==> Rank(r.config.state) < Rank(c.state)
  {
    match c.state
    case Discovery =>
      (match DecodedReply(w.reply(ProjectScopeFor(c.facts.projectDescription)), w.scopeOf)
       case Fail(e) => Abort(c, e)
       case Ok(scope) =>
         // call_project_scope stores the scope and already moves to Finished
         var scoped := ArchConfig(Finished, c.facts.(projectScope := Some(scope)));
         if !scope.isExternalUrlsRequired then Done(scoped)
         else
           match DecodedReply(w.reply(SiteUrlsFor(c.facts.projectDescription)), w.urlsOf)
           case Fail(e) => Abort(scoped, e)
           case Ok(urls) => Done(ArchConfig(UnitTesting, scoped.facts.(externalUrls := Some(urls)))))
    case UnitTesting =>
      (match c.facts.externalUrls
       case None => Abort(c, NoUrlsOnFactSheet)
       case Some(urls) =>
         var excluded := ExcludedUrls(urls, w.status);
         var facts := if |excluded| > 0 then c.facts.(externalUrls := Some(KeptUrls(urls, excluded))) else c.facts;
         Done(ArchConfig(Finished, facts)))
    case _ => Done(ArchConfig(Finished, c.facts))
  }

  /** `execute`: ticks until `Finished` or a fatal error. */
  function ArchitectRun(c: ArchConfig, w: World): (r: Step<ArchConfig>)
    decreases Rank(c.state)
    ensures r.Done? ==> r.config.state == Finished
  {
    if c.state == Finished then Done(c)
    else
      match ArchitectTick(c, w)
      case Abort(c', e) => Abort(c', e)
      case Done(c') => ArchitectRun(c', w)
  }

  lemma ExcludedUrlsSnoc(urls: seq<string>, u: string, status: string -> StatusCheck)
    ensures ExcludedUrls(urls + [u], status)
         == ExcludedUrls(urls, status) + if Excludes(status(u)) then [u] else []
  {
    FilterConcat(urls, [u], IsExcluded(status));
    assert Filter([u], IsExcluded(status)) == if Excludes(status(u)) then [u] else [] by {
      assert [u][1..] == [];
    }
  }

  /** The `for` loop of the `UnitTesting` arm. */
  method CollectExcludedUrls(urls: seq<string>, status: string -> StatusCheck) returns (excluded: seq<string>)
    ensures excluded == ExcludedUrls(urls, status)
  {
    excluded := [];
    for i := 0 to |urls|
      invariant excluded == ExcludedUrls(urls[..i], status)
    {
      var url := urls[i];
      assert urls[..i + 1] == urls[..i] + [url];
      ExcludedUrlsSnoc(urls[..i], url, status);
      match status(url) {
        case Status(code) =>
          if code != 200 {
            excluded := excluded + [url];
          }
        case CheckError =>
          // the failure is only logged: the URL stays
      }
    }
    assert urls[..|urls|] == urls;
  }

  class SolutionArchitect {
    const attributes: BasicAgent

    constructor ()
      ensures fresh(attributes)
      ensures attributes.objective == Objective && attributes.position == Position
      ensures attributes.state == Discovery && attributes.memory == []
    {
      attributes := new BasicAgent(Objective, Position);
    }

    method CallProjectScope(fs: FactSheet, w: World) returns (r: Result<ProjectScope>)
      modifies fs, attributes
      ensures r == DecodedReply(w.reply(ProjectScopeFor(old(fs.projectDescription))), w.scopeOf)
      ensures r.Ok? ==> fs.Snapshot() == old(fs.Snapshot()).(projectScope := Some(r.value))
      ensures r.Ok? ==> attributes.state == Finished
      ensures r.Fail? ==> fs.Snapshot() == old(fs.Snapshot()) && attributes.state == old(attributes.state)
      ensures attributes.Identity() == old(attributes.Identity())
    {
      r := DecodedReply(w.reply(ProjectScopeFor(fs.projectDescription)), w.scopeOf);
      if r.Fail? {
        return;
      }
      fs.projectScope := Some(r.value);
      attributes.UpdateState(Finished);
    }

    method CallDetermineExternalUrls(fs: FactSheet, w: World) returns (r: Result<seq<string>>)
      modifies fs, attributes
      ensures r == DecodedReply(w.reply(SiteUrlsFor(old(fs.projectDescription))), w.urlsOf)
      ensures r.Ok? ==> fs.Snapshot() == old(fs.Snapshot()).(externalUrls := Some(r.value))
      ensures r.Ok? ==> attributes.state == UnitTesting
      ensures r.Fail? ==> fs.Snapshot() == old(fs.Snapshot()) && attributes.state == old(attributes.state)
      ensures attributes.Identity() == old(attributes.Identity())
    {
      r := DecodedReply(w.reply(SiteUrlsFor(fs.projectDescription)), w.urlsOf);
      if r.Fail? {
        return;
      }
      fs.externalUrls := Some(r.value);
      attributes.state := UnitTesting;
    }

    method Execute(fs: FactSheet, w: World) returns (outcome: Outcome)
      modifies fs, attributes
      ensures var r := ArchitectRun(ArchConfig(old(attributes.state), old(fs.Snapshot())), w);
        outcome == r.ToOutcome() && attributes.state == r.config.state && fs.Snapshot() == r.config.facts
      ensures attributes.Identity() == old(attributes.Identity())
    {
      ghost var run := ArchitectRun(ArchConfig(attributes.state, fs.Snapshot()), w);
      while attributes.state != Finished
        invariant ArchitectRun(ArchConfig(attributes.state, fs.Snapshot()), w) == run
        invariant attributes.Identity() == old(attributes.Identity())
        decreases Rank(attributes.state)
      {
        ghost var before := ArchConfig(attributes.state, fs.Snapshot());
        match attributes.state {
          case Discovery =>
            var scope := CallProjectScope(fs, w);
            if scope.Fail? {
              return Aborted(scope.reason);
            }
            if scope.value.isExternalUrlsRequired {
              var urls := CallDetermineExternalUrls(fs, w);
              if urls.Fail? {
                return Aborted(urls.reason);
              }
              attributes.state := UnitTesting;
            }
          case UnitTesting =>
            if fs.externalUrls.None? {
              return Aborted(NoUrlsOnFactSheet);
            }
            var urls := fs.externalUrls.value;
            var excluded := CollectExcludedUrls(urls, w.status);
            if |excluded| > 0 {
              fs.externalUrls := Some(KeptUrls(urls, excluded));
            }
            attributes.state := Finished;
          case Working =>
            attributes.state := Finished;
        }
        assert ArchitectTick(before, w) == Done(ArchConfig(attributes.state, fs.Snapshot()));
      }
      outcome := Completed;
    }
  }
}
