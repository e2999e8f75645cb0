/** `GET /api/project/logs?projectId=…`: a signed-in user's error logs for
    one of their own projects, newest first. The signed-in user (the auth
    provider's `userId`, absent when signed out) is an input. */
module ProjectLogs {
  import opened Wrappers
  import opened Js
  import opened Schema
  import opened Http
  import opened Ordering

  /** `{ logs, project }`. */
  datatype ProjectLogsView = ProjectLogsView(logs: seq<ErrorLog>, project: Project)

  const UNAUTHORIZED := "Unauthorized"
  const PROJECT_REQUIRED := "projectId is required"
  const NOT_OWNED := "Project not found or unauthorized"

  function Timestamp(l: ErrorLog): int { l.timestamp }

  /** `project.findFirst({ where: { id, user_id } })`. */
  function FindOwned(projects: seq<Project>, projectId: string, userId: string): (r: Option<nat>)
    ensures r.Some? ==> r.value < |projects| && projects[r.value].id == projectId && projects[r.value].userId == userId
    ensures r.Some? ==> forall i :: 0 <= i < r.value ==> !(projects[i].id == projectId && projects[i].userId == userId)
    ensures r.None? <==> forall p :: p in projects ==> !(p.id == projectId && p.userId == userId)
  {
    if projects == [] then None
    else if projects[0].id == projectId && projects[0].userId == userId then Some(0)
    else
      match FindOwned(projects[1..], projectId, userId)
      case None =>
        assert forall p :: p in projects ==> p == projects[0] || p in projects[1..];
        None
      case Some(i) => Some(i + 1)
  }

  /** `errorLog.findMany({ where: { projectId } })`, in table order. */
  function LogsOf(logs: seq<ErrorLog>, projectId: string): (r: seq<ErrorLog>)
    ensures forall l :: l in r <==> l in logs && l.projectId == projectId
    ensures forall l :: multiset(r)[l] == if l.projectId == projectId then multiset(logs)[l] else 0
  {
    if logs == [] then []
    else
      assert logs == [logs[0]] + logs[1..];
      (if logs[0].projectId == projectId then [logs[0]] else []) + LogsOf(logs[1..], projectId)
  }

  /** The handler. */
  function GetLogs(projects: seq<Project>, logs: seq<ErrorLog>, userId: Option<string>, projectId: Option<string>): (r: Response<ProjectLogsView>)
    ensures !Truthy(userId) ==> r == Err(401, UNAUTHORIZED)
    ensures Truthy(userId) && !Truthy(projectId) ==> r == Err(400, PROJECT_REQUIRED)
    ensures r.Ok? ==>
      && r.status == 200 && r.payload.project in projects
      && r.payload.project.id == projectId.value && r.payload.project.userId == userId.value
  {
    if !Truthy(userId) then Err(401, UNAUTHORIZED)
    else if !Truthy(projectId) then Err(400, PROJECT_REQUIRED)
    else
      match FindOwned(projects, projectId.value, userId.value)
      case None => Err(404, NOT_OWNED)
      case Some(i) => Ok(200, ProjectLogsView(SortDesc(LogsOf(logs, projectId.value), Timestamp), projects[i]))
  }

  /** A signed-in request with a project id is refused with 404 exactly when
      the user owns no project with that id: a project that does not exist
      and one owned by someone else get the same answer. */
  lemma NotFoundIffNotOwned(projects: seq<Project>, logs: seq<ErrorLog>, userId: string, projectId: string)
    requires userId != "" && projectId != ""
    ensures var r := GetLogs(projects, logs, Some(userId), Some(projectId));
      && (r.Err? <==> forall p :: p in projects ==> !(p.id == projectId && p.userId == userId))
      && (r.Err? ==> r == Err(404, NOT_OWNED))
  {
  }

  /** On success the logs are exactly the project's own, each as often as
      stored, newest first. */
  lemma LogsExactAndNewestFirst(projects: seq<Project>, logs: seq<ErrorLog>, userId: string, projectId: string)
    requires userId != "" && projectId != ""
    requires exists p :: p in projects && p.id == projectId && p.userId == userId
    ensures var r := GetLogs(projects, logs, Some(userId), Some(projectId));
      && r.Ok?
      && multiset(r.payload.logs) == multiset(LogsOf(logs, projectId))
      && (forall l :: multiset(r.payload.logs)[l] == if l.projectId == projectId then multiset(logs)[l] else 0)
      && (forall l :: l in r.payload.logs <==> l in logs && l.projectId == projectId)
      && SortedDesc(r.payload.logs, Timestamp)
  {
    var mine := LogsOf(logs, projectId);
    SortDescCorrect(mine, Timestamp);
    var sorted := SortDesc(mine, Timestamp);
    var found := FindOwned(projects, projectId, userId);
    assert found.Some?;
    assert GetLogs(projects, logs, Some(userId), Some(projectId)) == Ok(200, ProjectLogsView(sorted, projects[found.value]));
    forall l
      ensures l in sorted <==> l in mine
    {
      assert l in sorted <==> multiset(sorted)[l] > 0;
      assert l in mine <==> multiset(mine)[l] > 0;
    }
  }
}
