# hannah_code agent orchestration, modelled in Dafny

This project models the core of the hannah_code agent system. A managing agent turns a user's
request into a project description, which it stores on a shared **fact sheet**. It then runs two
role agents in order on that one fact sheet:

- the **solution architect** asks the language model for the project scope. When the scope
  needs external URLs, it also asks for a URL list and drops every URL that answers with an
  explicit non-200 status;
- the **backend developer** asks the model for webserver code and has the operator approve a
  `cargo build`. It repairs failed builds at most twice and aborts on the third failure. After a
  successful build it extracts the REST routes, keeps the static `get` routes, starts the server
  and requires every kept route to answer 200 on `http://localhost:1337`.

Every agent shares the four-state machine `Discovery`, `Working`, `UnitTesting`, `Finished` of
`BasicAgent`.

Modules and files:

- `outcomes.dfy`: `Option`, `Result`, `Fatal` and `Step`. `Fatal` names the source's `panic!`
  and `expect` paths. A `Step` is either `Done` or `Abort`; an `Abort` carries the state as it
  was when the program stopped.
- `filters.dfy`: the order-preserving `Filter` used by both route filters, with its
  multiplicity and subsequence properties.
- `basic_agent.dfy`: `AgentState`, `Message`, and the `BasicAgent` class with its setter and
  getters.
- `agent_traits.dfy`: `ProjectScope`, `RouteObject`, and the `FactSheet` class with its `Facts`
  snapshot. The file that defines these, `src/models/agents/agent_traits.rs`, is not part of this
  model. They are rebuilt from their uses.
- `environment.dfy`: the `World`. It holds every outside effect as given data: the model's reply
  to each request, JSON decoding, the operator's answers, the build results, the server launch
  and the HTTP status checks.
- `agent_architect.dfy` and `agent_backend.dfy`: each role has a pure one-iteration function
  (`ArchitectTick`, `DevTick`) and a run function (`ArchitectRun`, `DevRun`). A run repeats the
  tick until `Finished` and terminates by a decreasing measure. The role's class has the fields
  the source mutates, and its `Execute` method, with a `while` loop, is proved equal to the run
  function of its old state.
- `agents_manager.dfy`: the `ManagingAgent` class. Its list of agents holds the closed set of
  roles of an `Agent` datatype and carries a ghost view of each agent. `ExecuteProject` is proved
  equal to `RunFrom`, the sequential run over that list.
- `architect_properties.dfy`, `backend_properties.dfy`, `manager_properties.dfy`: lemmas about
  the run functions.

## Model

| member | source | states |
|---|---|---|
| BasicAgents.BasicAgent.constructor | src/models/agent_basic/basic_agent.rs:22-29 | a new agent has the given objective and position, starts in `Discovery` and has empty memory |
| BasicAgents.BasicAgent.UpdateState | src/models/agent_basic/basic_agent.rs:30-32 | the state becomes the argument; objective, position and memory are unchanged |
| BasicAgents.BasicAgent.GetObjective | src/models/agent_basic/basic_agent.rs:33-35 | returns the objective and changes nothing |
| BasicAgents.BasicAgent.GetPosition | src/models/agent_basic/basic_agent.rs:36-38 | returns the position and changes nothing |
| BasicAgents.BasicAgent.GetState | src/models/agent_basic/basic_agent.rs:39-41 | returns the state and changes nothing |
| BasicAgents.BasicAgent.GetMemory | src/models/agent_basic/basic_agent.rs:42-44 | returns the memory and changes nothing |
| AgentTraits.FactSheet.constructor | src/models/agents_manager/mod.rs:20-26 | a new fact sheet holds the description, and scope, URLs, code and endpoint schema are all absent |
| Environment.DecodedReply | src/helpers/general.rs:30-34 | a decoded reply fails with `OracleUnavailable` when the model gives no answer and with `MalformedReply` when the answer does not decode; otherwise it is the decoded value |
| Filters.Filter | src/models/agents/agent_architect.rs:99 | the result holds exactly the kept elements, each as often as in the input, in input order (a subsequence) |
| Filters.FilterConcat | src/models/agents/agent_architect.rs:99 | filtering a concatenation is the concatenation of the filtered parts |
| Filters.FilterKeepsAll | src/models/agents/agent_architect.rs:98-101 | a filter that keeps every element returns its input unchanged |
| AgentArchitect.ExcludedUrls | src/models/agents/agent_architect.rs:82-97 | a URL is excluded exactly when its check returned a status other than 200; the excluded list is a subsequence of the URLs |
| AgentArchitect.KeptUrls | src/models/agents/agent_architect.rs:99 | the replacement list holds exactly the URLs not excluded, each with its original multiplicity, in order |
| AgentArchitect.ArchitectTick | src/models/agents/agent_architect.rs:72-107 | every completed iteration strictly lowers the state's rank, so the loop terminates |
| AgentArchitect.ArchitectRun | src/models/agents/agent_architect.rs:71-110 | a completed `execute` ends in `Finished` |
| AgentArchitect.ExcludedUrlsSnoc | src/models/agents/agent_architect.rs:84-97 | one more URL extends the excluded list by that URL exactly when its check is non-200 |
| AgentArchitect.CollectExcludedUrls | src/models/agents/agent_architect.rs:82-97 | the `for` loop's `excluded_urls` equals `ExcludedUrls` of the list |
| AgentArchitect.SolutionArchitect.constructor | src/models/agents/agent_architect.rs:23-33 | a new architect has the architect's objective and position, is in `Discovery` and has empty memory |
| AgentArchitect.SolutionArchitect.CallProjectScope | src/models/agents/agent_architect.rs:35-47 | on a decoded scope it stores the scope alone on the fact sheet and sets `Finished`; on failure nothing changes; identity is kept |
| AgentArchitect.SolutionArchitect.CallDetermineExternalUrls | src/models/agents/agent_architect.rs:48-63 | on a decoded list it stores the list alone on the fact sheet and sets `UnitTesting`; on failure nothing changes |
| AgentArchitect.SolutionArchitect.Execute | src/models/agents/agent_architect.rs:71-110 | the outcome, final state and fact sheet are those of `ArchitectRun` from the old state and fact sheet; identity is kept |
| ArchitectProperties.ScopeWithoutUrlsFinishes | src/models/agents/agent_architect.rs:74-79 | a scope without external URLs ends `Discovery` in `Finished`, with the scope stored and the URLs unchanged |
| ArchitectProperties.ScopeWithUrlsEntersTesting | src/models/agents/agent_architect.rs:74-79 | a scope needing URLs stores the scope and the model's URL list and moves to `UnitTesting` |
| ArchitectProperties.UnitTestingKeepsReachableUrls | src/models/agents/agent_architect.rs:82-102 | after `UnitTesting`, a URL remains exactly when it was listed and its check returned 200 or an error; repeats are kept and order is preserved; the state is `Finished` |
| ArchitectProperties.NothingExcludedLeavesUrls | src/models/agents/agent_architect.rs:98-101 | when no URL is excluded the URL list is left exactly as it was |
| ArchitectProperties.UnitTestingWithoutUrlsAborts | src/models/agents/agent_architect.rs:83 | `UnitTesting` with no URL list aborts with `NoUrlsOnFactSheet` and changes nothing |
| ArchitectProperties.WorkingFinishes | src/models/agents/agent_architect.rs:104-106 | any other state goes straight to `Finished`, changing nothing else |
| ArchitectProperties.RunFromDiscovery | src/models/agents/agent_architect.rs:71-110 | a run from `Discovery` aborts only on a failed model call, never touches description, code or schema, and when completed has stored the scope and either kept the URLs or kept exactly the reachable ones |
| AgentBackend.CheckableRoutes | src/models/agents/agent_backend.rs:176-182 | a route is kept exactly when its method is `"get"` and its dynamic flag is `"false"`, as exact strings; multiplicity and order are preserved |
| AgentBackend.FirstFailingEndpoint | src/models/agents/agent_backend.rs:203-221 | the check passes exactly when every route answers 200 at `http://localhost:1337` plus its route; otherwise it names the first route that did not, with all earlier routes at 200 |
| AgentBackend.CheckEndpoints | src/models/agents/agent_backend.rs:203-221 | the `for` loop's verdict equals `FirstFailingEndpoint` |
| AgentBackend.BuildAndCheck | src/models/agents/agent_backend.rs:147-223 | one build is counted; a completed step keeps the bug count at most 2 and lowers the measure |
| AgentBackend.DevTick | src/models/agents/agent_backend.rs:118-227 | each completed iteration keeps the bug count at most 2 and lowers the measure, so the loop terminates and `bug_count` cannot overflow |
| AgentBackend.DevRun | src/models/agents/agent_backend.rs:114-229 | a completed `execute` ends in `Finished` |
| AgentBackend.BackendDeveloper.constructor | src/models/agents/agent_backend.rs:31-44 | a new developer has the developer's objective and position, is in `Discovery`, has empty memory, no bug errors and a bug count of 0 |
| AgentBackend.BackendDeveloper.CallInitialBackendCode | src/models/agents/agent_backend.rs:45-60 | on an answer, the code from the template and description is stored as the backend code, and nothing else changes |
| AgentBackend.BackendDeveloper.CallImprovedBackendCode | src/models/agents/agent_backend.rs:61-76 | on an answer, the improved code for the fact sheet is stored as the backend code |
| AgentBackend.BackendDeveloper.CallFixCodeBugs | src/models/agents/agent_backend.rs:78-94 | on an answer, the fix of the code and its bug errors is stored as the backend code |
| AgentBackend.BackendDeveloper.CallExactRestApiEndpoints | src/models/agents/agent_backend.rs:95-106 | returns the model's route list for the stored code and changes nothing |
| AgentBackend.BackendDeveloper.RunBuildAndCheck | src/models/agents/agent_backend.rs:147-223 | the new fields and fact sheet are those of `BuildAndCheck`, and the abort reported matches it |
| AgentBackend.BackendDeveloper.Tick | src/models/agents/agent_backend.rs:119-225 | one loop iteration has the effect of `DevTick` |
| AgentBackend.BackendDeveloper.Execute | src/models/agents/agent_backend.rs:114-229 | the outcome, fields and fact sheet are those of `DevRun` from the old state; a completed run leaves the developer `Finished` with a valid bug count |
| BackendProperties.DiscoveryStoresInitialCode | src/models/agents/agent_backend.rs:120-124 | `Discovery` stores the model's code and moves to `Working` |
| BackendProperties.WorkingRewritesCode | src/models/agents/agent_backend.rs:125-132 | `Working` stores new code and moves to `UnitTesting`; it asks for an improvement exactly when the bug count is 0, and for a fix of the code and its errors otherwise |
| BackendProperties.DeclineAbortsBeforeBuild | src/models/agents/agent_backend.rs:139-142 | an operator "no" aborts with nothing changed and no build counted |
| BackendProperties.FailedBuildCountsBug | src/models/agents/agent_backend.rs:161-171 | a failed build adds one bug and stores its errors; it returns to `Working` while the count is at most 2 and aborts with `TooManyBugs` on the third |
| BackendProperties.SuccessfulBuildResetsCounter | src/models/agents/agent_backend.rs:155-156 | a successful build resets the bug count to exactly 0 |
| BackendProperties.EndpointChecksDecide | src/models/agents/agent_backend.rs:173-223 | after a successful build, the kept routes are stored as the schema, and the run finishes exactly when every kept route answers 200; otherwise it aborts naming a kept route's URL that did not |
| BackendProperties.RunBuildsAtMostThree | src/models/agents/agent_backend.rs:118-227 | a run performs at most three builds, fewer by the bugs already counted |
| BackendProperties.CompletedRunCheckedEveryRoute | src/models/agents/agent_backend.rs:155-223 | a completed run has a bug count of 0 and a stored schema whose every route is a static `get` route that answered 200 |
| BackendProperties.RunKeepsArchitectFacts | src/models/agents/agent_backend.rs:114-229 | the developer never changes the description, scope or URLs on the fact sheet |
| BackendProperties.ThirdFailureAborts | src/models/agents/agent_backend.rs:161-168 | three failed builds in a row abort with `TooManyBugs` on the third build, with the last errors stored |
| BackendProperties.TwoFailuresThenSuccessContinue | src/models/agents/agent_backend.rs:155-171 | two failed builds and then a successful one do not abort for too many bugs; the count is 0 after three builds |
| BackendProperties.FirstBuildSucceeds | src/models/agents/agent_backend.rs:114-229 | a first successful build whose kept routes all answer 200 completes after one build with those routes as the schema |
| BackendProperties.FailingRouteAborts | src/models/agents/agent_backend.rs:211-219 | a kept route that does not answer 200 aborts the run in `UnitTesting` |
| BackendProperties.RouteFilterExamples | src/models/agents/agent_backend.rs:179 | a static `"get"` route is kept; a dynamic one, a `"post"` one and an upper-case `"GET"` one are not |
| AgentsManager.RunAgent | src/models/agents_manager/mod.rs:44 | one agent's `execute` keeps its role and, when completed, leaves it `Finished` |
| AgentsManager.RunFrom | src/models/agents_manager/mod.rs:43-47 | the run over the list keeps the list's length |
| AgentsManager.ManagingAgent.constructor | src/models/agents_manager/mod.rs:12-31 | the manager has its own objective and position, an empty agent list, and a fact sheet with only the description |
| AgentsManager.ManagingAgent.New | src/models/agents_manager/mod.rs:11-31 | fails exactly when the model gives no description; otherwise the fact sheet holds the model's description with everything else absent, and the list is empty |
| AgentsManager.ManagingAgent.AddAgent | src/models/agents_manager/mod.rs:33-35 | the agent is appended at the end and earlier agents are unchanged |
| AgentsManager.ManagingAgent.CreateAgent | src/models/agents_manager/mod.rs:36-39 | exactly two agents are appended, a new architect and then a new developer, both in `Discovery` |
| AgentsManager.ManagingAgent.RunTurn | src/models/agents_manager/mod.rs:43-44 | the `i`-th agent's `execute` changes that agent and the fact sheet as `RunAgent` says, and no other agent |
| AgentsManager.ManagingAgent.ExecuteProject | src/models/agents_manager/mod.rs:41-47 | after appending the two agents, the outcome, agents and fact sheet are those of `RunFrom` over the list from the old fact sheet |
| ManagerProperties.CompletedRunFinishesEveryAgent | src/models/agents_manager/mod.rs:43-44 | with no abort, every agent the run reached is `Finished` and earlier ones are untouched |
| ManagerProperties.AbortStopsTheRun | src/models/agents_manager/mod.rs:43-44 | an abort stops the run at one agent: those before it finished and no later agent was run |
| ManagerProperties.CreatedTeamRunsInOrder | src/models/agents_manager/mod.rs:36-47 | the architect runs first on the manager's fact sheet; the developer runs only after it completes, on the fact sheet it left, and the outcome is the developer's |
| ManagerProperties.CompletedProjectIsChecked | src/models/agents_manager/mod.rs:41-47 | a completed project keeps the description, holds the scope and the schema, leaves both agents `Finished` with no bugs, and every stored route answered 200 |

## Left out

- The HTTPS call to the language model is left out: the request, environment variables, headers and response types. Each reply is `World.reply` of a `Request` that names what is asked. `Unavailable` stands for both attempts of the one retry in `ai_task_request` failing. The prompt texts, including the ignored message context of `call_determine_external_urls`, are not modelled.
- JSON decoding is a `World` function from text to an optional value. The serde message types and their floating-point temperature are left out.
- Only the `is_external_urls_required` flag of `ProjectScope` is modelled; no other field of it is read by the core.
- Filesystem reads and writes are left out: the code template, saving `main.rs` and reading it back. The template is `World.codeTemplate`. The saved `main.rs` is taken to be the fact sheet's backend code, since the two are always written together. Failures of these reads and writes are not modelled.
- `cargo build` and `cargo run` are given outcomes. The k-th build of an `execute` call and the operator's answer at the gate before it are `World.build(k)` and `World.approves(k)`, so answers and builds restart at index 0 for each call. A `cargo build` that cannot start is `BuildNotStarted`. The server process that `cargo run` starts is never stopped, and the model does not track it.
- The coloured terminal output and the stdin loop are left out; only `confirm_safe_to_proceed`'s answer is kept.
- The 5-second sleep, `async`/`await` and the 5-second HTTP timeout are left out. A status check is a deterministic function of the URL, so a URL listed twice gets the same answer both times.
- `panic!` and `expect` stop the whole program. The model returns them as `Aborted`, with the state at that moment; the manager then runs no further agent.
- `execute` never returns `Err`, so the result that `execute_project` ignores is always `Ok`. `Outcome` therefore has no error case besides an abort.
- `BasicAgent.memory` is never written by the core, so no operation changes it.
- Trait objects on the manager's list are modelled as the closed set of the two roles: the `Agent` datatype.
- `get_attributes_from_agents` returns the agent's `attributes`. There is no separate member for it; the classes expose `attributes` directly.
