/** The remote issue tracker as the synchronisation sees it: the shapes of
    the objects its REST client returns, and the two calls the core makes,
    `projects()->get($idOrKey)` and `issues()->search(...)`, modelled as a
    fixed map of projects and a fixed result sequence per query. */
module Remote {
  import opened Common

  /** An issue as returned by a search restricted to the reconciled fields. */
  datatype RemoteIssue = RemoteIssue(key: string, summary: string, description: string, created: string, updated: string)

  /** A project component; `project` and `projectId` are the two properties
      the synchronisation writes onto it before reconciling it. */
  datatype RemoteComponent = RemoteComponent(id: string, name: string, project: Value, projectId: Value)

  datatype RemoteIssueType = RemoteIssueType(id: string, name: string)

  datatype RemoteVersion = RemoteVersion(id: string, name: string)

  /** A project snapshot: the REST client gives `id` as a string and `lead`
      as an associative array. */
  datatype RemoteProject = RemoteProject(
    id: string,
    key: string,
    name: string,
    lead: Attributes,
    components: seq<RemoteComponent>,
    issueTypes: seq<RemoteIssueType>,
    versions: seq<RemoteVersion>)

  /** The remote service: the projects it knows by id and by key, and for
      each query text the complete ordered list of matching issues. */
  datatype Service = Service(projects: map<string, RemoteProject>, search: string -> seq<RemoteIssue>)

  /** `Jira::projects()->get($idOrKey)`: the project addressed by the path
      segment, or the client's exception when the service has none. */
  function GetProject(remote: Service, idOrKey: string): (r: Result<RemoteProject, Error>)
    ensures r.Success? <==> idOrKey in remote.projects
    ensures r.Success? ==> r.value == remote.projects[idOrKey]
    ensures r.Failure? ==> r.error == RemoteNotFound(idOrKey)
  {
    if idOrKey in remote.projects then Success(remote.projects[idOrKey]) else Failure(RemoteNotFound(idOrKey))
  }
}
