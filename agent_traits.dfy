/** The shared work record and the records the agents decode from the language model. */
module AgentTraits {
  import opened Outcomes

  /** The architect's scope decision; only the flag the agents read is modelled. */
  datatype ProjectScope = ProjectScope(isExternalUrlsRequired: bool)

  /** One route of the generated server, as decoded from the model's JSON answer.
      `isRouteDynamic` is the string "true" or "false", not a boolean. */
  datatype RouteObject = RouteObject(route: string, httpMethod: string, isRouteDynamic: string)

  /** The value of a fact sheet at one moment. */
  datatype Facts = Facts(
    projectDescription: string,
    projectScope: Option<ProjectScope>,
    externalUrls: Option<seq<string>>,
    backendCode: Option<string>,
    apiEndpointsSchema: Option<seq<RouteObject>>)

  /** The one work record of a run, lent to one agent at a time. */
  class FactSheet {
    var projectDescription: string
    var projectScope: Option<ProjectScope>
    var externalUrls: Option<seq<string>>
    var backendCode: Option<string>
    var apiEndpointsSchema: Option<seq<RouteObject>>

    function Snapshot(): Facts
      reads this
    {
      Facts(projectDescription, projectScope, externalUrls, backendCode, apiEndpointsSchema)
    }

    /** A fact sheet with only the project description set. */
    constructor (projectDescription: string)
      ensures Snapshot() == Facts(projectDescription, None, None, None, None)
    {
      this.projectDescription := projectDescription;
      projectScope := None;
      externalUrls := None;
      backendCode := None;
      apiEndpointsSchema := None;
    }
  }
}
