/** The two database tables the service uses (projects and error logs), the
    mail the service hands to an SMTP transport, and the database itself as
    one mutable object. */
module Schema {
  import opened Wrappers
  import opened Js

  /** A row of the `project` table. Optional columns are nullable. */
  datatype Project = Project(
    id: string,
    userId: string,
    name: string,
    description: string,
    projectName: string,
    llmType: Option<string>,
    llmApiKey: Option<string>,
    llmApiModel: Option<string>,
    smtpUser: Option<string>,
    smtpPass: Option<string>,
    emailFrom: Option<string>,
    emailTo: Option<string>,
    notaifyApiKey: Option<string>,
    notaifyApiKeyId: Option<string>,
    createdAt: int)

  /** A row of the `errorLog` table; `resolution` holds the analysis value
      that is stored in serialised form. */
  datatype ErrorLog = ErrorLog(
    id: string,
    projectId: string,
    error: string,
    llmType: string,
    llmApiModel: string,
    resolution: Json,
    isTrial: bool,
    timestamp: int)

  /** A message handed to an SMTP transport logged in as `user`/`pass`. */
  datatype Mail = Mail(user: string, pass: string, from: string, to: string, subject: string)

  /** What `errorLog.create` does: the new row's id and timestamp, or a throw. */
  datatype Insertion = Inserted(id: string, timestamp: int) | InsertFailed(thrown: Thrown)

  function Nullable(o: Option<string>): Value {
    if o.Some? then Str(o.value) else Null
  }

  /** The row as the plain object the database client returns. */
  function AsRecord(p: Project): Record {
    map[
      "id" := Str(p.id),
      "user_id" := Str(p.userId),
      "name" := Str(p.name),
      "description" := Str(p.description),
      "projectName" := Str(p.projectName),
      "llmType" := Nullable(p.llmType),
      "llmApiKey" := Nullable(p.llmApiKey),
      "llmApiModel" := Nullable(p.llmApiModel),
      "smtpUser" := Nullable(p.smtpUser),
      "smtpPass" := Nullable(p.smtpPass),
      "emailFrom" := Nullable(p.emailFrom),
      "emailTo" := Nullable(p.emailTo),
      "notaifyApiKey" := Nullable(p.notaifyApiKey),
      "notaifyApiKeyId" := Nullable(p.notaifyApiKeyId),
      "createdAt" := Stamp(p.createdAt)
    ]
  }

  /** Project ids are the table's primary key. */
  predicate UniqueIds(ps: seq<Project>) {
    forall i, j :: 0 <= i < j < |ps| ==> ps[i].id != ps[j].id
  }

  /** The database: both tables and the mail handed to SMTP transports. */
  class Database {
    var projects: seq<Project>
    var logs: seq<ErrorLog>
    var outbox: seq<Mail>

    ghost predicate Valid()
      reads this
    {
      UniqueIds(projects)
    }
  }
}
