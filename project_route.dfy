/** `/api/project`: list, create, update and delete a user's projects.

    `GET` is a read-only query; `POST`, `PUT` and `DELETE` check the request
    and then change the project table. The error bodies here are `{ error }`.
    The database's generated id and creation time (or the create's throw),
    and the error the database throws for a missing row, are inputs. */
module ProjectRoute {
  import opened Wrappers
  import opened Js
  import opened Schema
  import opened Http
  import opened Ordering

  /** The body fields `POST` and `PUT` read (`id` only by `PUT`, `user_id`
      only by `POST`); absent fields are `undefined`. */
  datatype ProjectBody = ProjectBody(
    id: Option<string>,
    userId: Option<string>,
    name: Option<string>,
    description: Option<string>,
    projectName: Option<string>,
    llmType: Option<string>,
    llmApiKey: Option<string>,
    llmApiModel: Option<string>,
    smtpUser: Option<string>,
    smtpPass: Option<string>,
    emailFrom: Option<string>,
    emailTo: Option<string>,
    notaifyApiKey: Option<string>,
    notaifyApiKeyId: Option<string>)

  const USER_REQUIRED := "userId is required"
  const FIELDS_REQUIRED := "user_id, name, and projectName are required"
  const ID_REQUIRED := "Project id is required"
  const CREATE_FAILED := "Failed to create project: "
  const UPDATE_FAILED := "Failed to update project: "
  const DELETE_FAILED := "Failed to delete project: "
  const DELETED := "Project deleted successfully"

  function CreatedAt(p: Project): int { p.createdAt }

  function Ids(projects: seq<Project>): set<string> {
    set p | p in projects :: p.id
  }

  /** `where: { user_id: userId }`, in table order. */
  function OwnedBy(projects: seq<Project>, userId: string): (r: seq<Project>)
    ensures forall p :: p in r <==> p in projects && p.userId == userId
    ensures multiset(r) <= multiset(projects)
    ensures forall p :: multiset(r)[p] == if p.userId == userId then multiset(projects)[p] else 0
  {
    if projects == [] then []
    else
      assert projects == [projects[0]] + projects[1..];
      (if projects[0].userId == userId then [projects[0]] else []) + OwnedBy(projects[1..], userId)
  }

  /** The first row with the given id. */
  function IndexOfId(projects: seq<Project>, id: string): (r: Option<nat>)
    ensures r.Some? ==> r.value < |projects| && projects[r.value].id == id
    ensures r.None? <==> id !in Ids(projects)
  {
    if projects == [] then None
    else if projects[0].id == id then Some(0)
    else
      match IndexOfId(projects[1..], id)
      case None =>
        assert forall p :: p in projects ==> p == projects[0] || p in projects[1..];
        None
      case Some(i) => Some(i + 1)
  }

  // ---------------------------------------------------------------------
  // GET

  /** `GET /api/project?userId=…`: the user's projects, newest first. */
  function GetProjects(projects: seq<Project>, userId: Option<string>): (r: Response<seq<Project>>)
    ensures !Truthy(userId) ==> r == Err(400, USER_REQUIRED)
    ensures Truthy(userId) ==> r.Ok? && r.status == 200
  {
    if !Truthy(userId) then Err(400, USER_REQUIRED)
    else Ok(200, SortDesc(OwnedBy(projects, userId.value), CreatedAt))
  }

  /** The list holds exactly the user's projects, each as often as in the
      table, with the newest `createdAt` first. */
  lemma GetProjectsExact(projects: seq<Project>, userId: string)
    requires userId != ""
    ensures var r := GetProjects(projects, Some(userId));
      && multiset(r.payload) == multiset(OwnedBy(projects, userId))
      && (forall p :: multiset(r.payload)[p] == if p.userId == userId then multiset(projects)[p] else 0)
      && (forall p :: p in r.payload <==> p in projects && p.userId == userId)
      && SortedDesc(r.payload, CreatedAt)
  {
    var owned := OwnedBy(projects, userId);
    SortDescCorrect(owned, CreatedAt);
    var r := SortDesc(owned, CreatedAt);
    forall p
      ensures p in r <==> p in owned
    {
      assert p in r <==> multiset(r)[p] > 0;
      assert p in owned <==> multiset(owned)[p] > 0;
    }
  }

  // ---------------------------------------------------------------------
  // POST

  /** The row `project.create` is given: `description || ''`, every optional
      column `|| null`, credentials exactly as received. */
  function NewProject(body: ProjectBody, id: string, createdAt: int): Project
    requires Truthy(body.userId) && Truthy(body.name) && Truthy(body.projectName)
  {
    Project(id, body.userId.value, body.name.value, Or(body.description, ""), body.projectName.value,
      OrNull(body.llmType), OrNull(body.llmApiKey), OrNull(body.llmApiModel),
      OrNull(body.smtpUser), OrNull(body.smtpPass), OrNull(body.emailFrom), OrNull(body.emailTo),
      OrNull(body.notaifyApiKey), OrNull(body.notaifyApiKeyId), createdAt)
  }

  /** What a stored column holds: the value when it is a non-empty string,
      otherwise null. Secrets are stored in the clear. */
  lemma NewProjectNormalises(body: ProjectBody, id: string, createdAt: int)
    requires Truthy(body.userId) && Truthy(body.name) && Truthy(body.projectName)
    ensures var p := NewProject(body, id, createdAt);
      && p.id == id && p.createdAt == createdAt
      && p.userId == body.userId.value && p.name == body.name.value && p.projectName == body.projectName.value
      && (p.description == "" <==> !Truthy(body.description))
      && (Truthy(body.description) ==> p.description == body.description.value)
      && (p.llmApiKey.Some? <==> Truthy(body.llmApiKey)) && (p.llmApiKey.Some? ==> p.llmApiKey == body.llmApiKey)
      && (p.smtpPass.Some? <==> Truthy(body.smtpPass)) && (p.smtpPass.Some? ==> p.smtpPass == body.smtpPass)
      && (p.notaifyApiKey.Some? <==> Truthy(body.notaifyApiKey)) && (p.notaifyApiKey.Some? ==> p.notaifyApiKey == body.notaifyApiKey)
      && (p.llmType.Some? <==> Truthy(body.llmType)) && (p.llmType.Some? ==> p.llmType == body.llmType)
      && (p.llmApiModel.Some? <==> Truthy(body.llmApiModel)) && (p.llmApiModel.Some? ==> p.llmApiModel == body.llmApiModel)
      && (p.smtpUser.Some? <==> Truthy(body.smtpUser)) && (p.smtpUser.Some? ==> p.smtpUser == body.smtpUser)
      && (p.emailFrom.Some? <==> Truthy(body.emailFrom)) && (p.emailFrom.Some? ==> p.emailFrom == body.emailFrom)
      && (p.emailTo.Some? <==> Truthy(body.emailTo)) && (p.emailTo.Some? ==> p.emailTo == body.emailTo)
      && (p.notaifyApiKeyId.Some? <==> Truthy(body.notaifyApiKeyId)) && (p.notaifyApiKeyId.Some? ==> p.notaifyApiKeyId == body.notaifyApiKeyId)
  {
  }

  /** `POST /api/project`. The generated id is new to the table (the
      database's key generator guarantees it). */
  method Post(db: Database, body: ProjectBody, created: Insertion) returns (r: Response<Project>)
    requires db.Valid()
    requires created.Inserted? ==> created.id !in Ids(db.projects)
    modifies db
    ensures db.Valid()
    ensures db.logs == old(db.logs) && db.outbox == old(db.outbox)
    ensures !Truthy(body.userId) || !Truthy(body.name) || !Truthy(body.projectName) ==>
      r == Err(400, FIELDS_REQUIRED) && db.projects == old(db.projects)
    ensures Truthy(body.userId) && Truthy(body.name) && Truthy(body.projectName) ==>
      match created
      case InsertFailed(failure) =>
        r == Err(500, CREATE_FAILED + ErrorMessageOr(failure, "Unknown error")) && db.projects == old(db.projects)
      case Inserted(id, createdAt) =>
        r == Ok(201, NewProject(body, id, createdAt)) && db.projects == old(db.projects) + [NewProject(body, id, createdAt)]
  {
    if !Truthy(body.userId) || !Truthy(body.name) || !Truthy(body.projectName) {
      return Err(400, FIELDS_REQUIRED);
    }
    if created.InsertFailed? {
      return Err(500, CREATE_FAILED + ErrorMessageOr(created.thrown, "Unknown error"));
    }
    var project := NewProject(body, created.id, created.timestamp);
    db.projects := db.projects + [project];
    return Ok(201, project);
  }

  // ---------------------------------------------------------------------
  // PUT

  /** The row after `project.update`: `name`, `description` and
      `projectName` are written when given and left alone when `undefined`;
      every configuration column is written, `|| null`, given or not. */
  function Updated(p: Project, body: ProjectBody): Project {
    p.(name := if body.name.Some? then body.name.value else p.name,
       description := if body.description.Some? then body.description.value else p.description,
       projectName := if body.projectName.Some? then body.projectName.value else p.projectName,
       llmType := OrNull(body.llmType), llmApiKey := OrNull(body.llmApiKey), llmApiModel := OrNull(body.llmApiModel),
       smtpUser := OrNull(body.smtpUser), smtpPass := OrNull(body.smtpPass),
       emailFrom := OrNull(body.emailFrom), emailTo := OrNull(body.emailTo),
       notaifyApiKey := OrNull(body.notaifyApiKey), notaifyApiKeyId := OrNull(body.notaifyApiKeyId))
  }

  /** An update keeps the row's identity, owner and creation time, and a
      `PUT` that leaves out a configuration field erases it: a partial
      update wipes the stored secrets. */
  lemma UpdatedKeepsIdentity(p: Project, body: ProjectBody)
    ensures var q := Updated(p, body);
      && q.id == p.id && q.userId == p.userId && q.createdAt == p.createdAt
      && (body.name.None? ==> q.name == p.name)
      && (body.llmApiKey.None? ==> q.llmApiKey.None?)
      && (body.smtpPass.None? ==> q.smtpPass.None?)
      && (body.notaifyApiKey.None? ==> q.notaifyApiKey.None?)
      && (Truthy(body.llmApiKey) ==> q.llmApiKey == body.llmApiKey)
  {
  }

  /** Replacing a row by one with the same id keeps ids unique. */
  lemma ReplaceKeepsUnique(projects: seq<Project>, i: nat, q: Project)
    requires UniqueIds(projects) && i < |projects| && q.id == projects[i].id
    ensures UniqueIds(projects[i := q])
  {
  }

  /** `PUT /api/project`. A missing row makes the database throw `missing`. */
  method Put(db: Database, body: ProjectBody, missing: Thrown) returns (r: Response<Project>)
    requires db.Valid()
    modifies db
    ensures db.Valid()
    ensures db.logs == old(db.logs) && db.outbox == old(db.outbox)
    ensures !Truthy(body.id) ==> r == Err(400, ID_REQUIRED) && db.projects == old(db.projects)
    ensures Truthy(body.id) && body.id.value !in Ids(old(db.projects)) ==>
      r == Err(500, UPDATE_FAILED + ErrorMessageOr(missing, "Unknown error")) && db.projects == old(db.projects)
    ensures Truthy(body.id) && body.id.value in Ids(old(db.projects)) ==>
      var i := IndexOfId(old(db.projects), body.id.value).value;
      && r == Ok(200, Updated(old(db.projects)[i], body))
      && db.projects == old(db.projects)[i := Updated(old(db.projects)[i], body)]
  {
    if !Truthy(body.id) {
      return Err(400, ID_REQUIRED);
    }
    var found := IndexOfId(db.projects, body.id.value);
    if found.None? {
      return Err(500, UPDATE_FAILED + ErrorMessageOr(missing, "Unknown error"));
    }
    var project := Updated(db.projects[found.value], body);
    ReplaceKeepsUnique(db.projects, found.value, project);
    db.projects := db.projects[found.value := project];
    return Ok(200, project);
  }

  // ---------------------------------------------------------------------
  // DELETE

  /** The table without its row at i. */
  function Without(projects: seq<Project>, i: nat): seq<Project>
    requires i < |projects|
  {
    projects[..i] + projects[i + 1..]
  }

  /** Deleting a row removes exactly that id and keeps every other row, in
      order, with ids still unique. */
  lemma WithoutRemovesOnlyTheRow(projects: seq<Project>, i: nat)
    requires UniqueIds(projects) && i < |projects|
    ensures var rest := Without(projects, i);
      && UniqueIds(rest)
      && Ids(rest) == Ids(projects) - {projects[i].id}
      && |rest| == |projects| - 1
      && forall p :: p in projects && p.id != projects[i].id ==> p in rest
  {
    var rest := Without(projects, i);
    WithoutKeepsUnique(projects, i);
    WithoutKeepsOthers(projects, i);
    WithoutDropsTheId(projects, i);
    assert Ids(rest) == Ids(projects) - {projects[i].id} by {
      forall x | x in Ids(projects) - {projects[i].id}
        ensures x in Ids(rest)
      {
        var p :| p in projects && p.id == x;
      }
    }
  }

  lemma WithoutKeepsUnique(projects: seq<Project>, i: nat)
    requires UniqueIds(projects) && i < |projects|
    ensures UniqueIds(Without(projects, i))
  {
    var rest := Without(projects, i);
    forall a, b | 0 <= a < b < |rest|
      ensures rest[a].id != rest[b].id
    {
      var a', b' := if a < i then a else a + 1, if b < i then b else b + 1;
      assert rest[a] == projects[a'] && rest[b] == projects[b'];
    }
  }

  lemma WithoutKeepsOthers(projects: seq<Project>, i: nat)
    requires i < |projects|
    ensures forall p :: p in projects && p.id != projects[i].id ==> p in Without(projects, i)
  {
    var rest := Without(projects, i);
    forall p | p in projects && p.id != projects[i].id
      ensures p in rest
    {
      var k :| 0 <= k < |projects| && projects[k] == p;
      assert k != i;
      if k < i { assert rest[k] == p; } else { assert rest[k - 1] == p; }
    }
  }

  lemma WithoutDropsTheId(projects: seq<Project>, i: nat)
    requires UniqueIds(projects) && i < |projects|
    ensures forall x :: x in Ids(Without(projects, i)) ==> x in Ids(projects) && x != projects[i].id
  {
    var rest := Without(projects, i);
    forall x | x in Ids(rest)
      ensures x in Ids(projects) && x != projects[i].id
    {
      var p :| p in rest && p.id == x;
      var k :| 0 <= k < |rest| && rest[k] == p;
      var k' := if k < i then k else k + 1;
      assert projects[k'] == p && k' != i;
    }
  }

  /** `DELETE /api/project?id=…`. A missing row makes the database throw `missing`. */
  method Delete(db: Database, id: Option<string>, missing: Thrown) returns (r: Response<string>)
    requires db.Valid()
    modifies db
    ensures db.Valid()
    ensures db.logs == old(db.logs) && db.outbox == old(db.outbox)
    ensures !Truthy(id) ==> r == Err(400, ID_REQUIRED) && db.projects == old(db.projects)
    ensures Truthy(id) && id.value !in Ids(old(db.projects)) ==>
      r == Err(500, DELETE_FAILED + ErrorMessageOr(missing, "Unknown error")) && db.projects == old(db.projects)
    ensures Truthy(id) && id.value in Ids(old(db.projects)) ==>
      && r == Ok(200, DELETED)
      && db.projects == Without(old(db.projects), IndexOfId(old(db.projects), id.value).value)
      && id.value !in Ids(db.projects)
  {
    if !Truthy(id) {
      return Err(400, ID_REQUIRED);
    }
    var found := IndexOfId(db.projects, id.value);
    if found.None? {
      return Err(500, DELETE_FAILED + ErrorMessageOr(missing, "Unknown error"));
    }
    WithoutRemovesOnlyTheRow(db.projects, found.value);
    db.projects := Without(db.projects, found.value);
    return Ok(200, DELETED);
  }
}
