/** `scripts/encrypt-existing-credentials.ts`: a one-off pass over the
    project table that seals every sensitive column still held in the clear.
    It reads the whole table, walks it in order, and writes back each row in
    which it sealed something. The first value it cannot seal aborts the run
    (`main().catch`); rows written before that stay written. The fresh IV of
    each sealing is an input, indexed by the row's position and the column. */
module Migration {
  import opened Wrappers
  import opened Js
  import opened Schema
  import opened Encryption

  /** A sensitive column of a row, by its name in `SENSITIVE_FIELDS` (the
      script lists the same three columns in the same order). */
  function Stored(p: Project, field: string): Option<string> {
    if field == "llmApiKey" then p.llmApiKey
    else if field == "smtpPass" then p.smtpPass
    else if field == "notaifyApiKey" then p.notaifyApiKey
    else None
  }

  /** One turn of the column loop: `None` when the column is skipped (empty,
      or a triple that `decrypt` accepts), otherwise the sealed value to
      store, or the throw of `encrypt`. */
  function FieldPlan(c: Cipher, env: Option<string>, iv: Block, value: Option<string>): (r: Result<Option<string>, Thrown>)
    ensures !Truthy(value) ==> r == Success(None)
    ensures Truthy(value) && IsTriple(value.value) && Truthy(env) ==> r == Success(None)
    ensures Truthy(value) && (!IsTriple(value.value) || !Truthy(env)) ==>
      && (r.Success? <==> Encrypt(c, env, iv, value.value).Success?)
      && (r.Success? ==> r.value == Some(Encrypt(c, env, iv, value.value).value))
      && (r.Failure? ==> r.error == Encrypt(c, env, iv, value.value).error)
  {
    if !Truthy(value) then Success(None)
    else if IsTriple(value.value) && Decrypt(c, env, value.value).Success? then Success(None)
    else
      var e :- Encrypt(c, env, iv, value.value);
      Success(Some(e))
  }

  /** The column loop of row `index`, accumulating `updateData`. */
  function Plan(c: Cipher, env: Option<string>, ivs: (nat, string) -> Block, index: nat, p: Project,
                fields: seq<string>, data: map<string, string>): Result<map<string, string>, Thrown>
  {
    if fields == [] then Success(data)
    else
      var step :- FieldPlan(c, env, ivs(index, fields[0]), Stored(p, fields[0]));
      Plan(c, env, ivs, index, p, fields[1..], if step.Some? then data[fields[0] := step.value] else data)
  }

  /** `project.update({ where: { id }, data: updateData })`. */
  function Apply(p: Project, data: map<string, string>): (q: Project)
    ensures q.id == p.id
  {
    p.(llmApiKey := if "llmApiKey" in data then Some(data["llmApiKey"]) else p.llmApiKey,
       smtpPass := if "smtpPass" in data then Some(data["smtpPass"]) else p.smtpPass,
       notaifyApiKey := if "notaifyApiKey" in data then Some(data["notaifyApiKey"]) else p.notaifyApiKey)
  }

  lemma StoredAfterApply(p: Project, data: map<string, string>, f: string)
    requires f in SENSITIVE_FIELDS
    ensures Stored(Apply(p, data), f) == if f in data then Some(data[f]) else Stored(p, f)
  {
  }

  /** The table, the two counters and the abort, if any. */
  datatype Run = Run(projects: seq<Project>, updated: nat, skipped: nat, failure: Option<Thrown>)

  /** The run after the first n rows of the table read at the start. */
  function MigrateUpTo(c: Cipher, env: Option<string>, ivs: (nat, string) -> Block, projects: seq<Project>, n: nat): (run: Run)
    requires n <= |projects|
    ensures |run.projects| == |projects|
  {
    if n == 0 then Run(projects, 0, 0, None)
    else
      var prev := MigrateUpTo(c, env, ivs, projects, n - 1);
      if prev.failure.Some? then prev
      else
        match Plan(c, env, ivs, n - 1, projects[n - 1], SENSITIVE_FIELDS, map[])
        case Failure(failure) => prev.(failure := Some(failure))
        case Success(data) =>
          if data == map[] then prev.(skipped := prev.skipped + 1)
          else prev.(projects := prev.projects[n - 1 := Apply(projects[n - 1], data)], updated := prev.updated + 1)
  }

  function Migrate(c: Cipher, env: Option<string>, ivs: (nat, string) -> Block, projects: seq<Project>): Run {
    MigrateUpTo(c, env, ivs, projects, |projects|)
  }

  /** The column loop of row `index`: the `updateData` it builds and its
      `needsUpdate` flag, or the throw of `encrypt`. */
  method PlanRow(c: Cipher, env: Option<string>, ivs: (nat, string) -> Block, index: nat, project: Project)
    returns (r: Result<map<string, string>, Thrown>, needsUpdate: bool)
    ensures r == Plan(c, env, ivs, index, project, SENSITIVE_FIELDS, map[])
    ensures needsUpdate <==> r.Success? && r.value != map[]
  {
    var updateData: map<string, string> := map[];
    needsUpdate := false;
    for j := 0 to |SENSITIVE_FIELDS|
      invariant Plan(c, env, ivs, index, project, SENSITIVE_FIELDS, map[]) == Plan(c, env, ivs, index, project, SENSITIVE_FIELDS[j..], updateData)
      invariant needsUpdate <==> updateData != map[]
    {
      var field := SENSITIVE_FIELDS[j];
      assert SENSITIVE_FIELDS[j..][0] == field && SENSITIVE_FIELDS[j..][1..] == SENSITIVE_FIELDS[j + 1..];
      var value := Stored(project, field);
      if !Truthy(value) {
        continue;
      }
      if IsTriple(value.value) {
        var d := Decrypt(c, env, value.value);
        if d.Success? {
          continue;
        }
      }
      var e := Encrypt(c, env, ivs(index, field), value.value);
      if e.Failure? {
        return Failure(e.error), false;
      }
      updateData := updateData[field := e.value];
      assert field in updateData;
      needsUpdate := true;
    }
    return Success(updateData), needsUpdate;
  }

  /** The script's `main`: `Success((updated, skipped))`, or the throw that
      aborted it. */
  method MigrateCredentials(db: Database, c: Cipher, env: Option<string>, ivs: (nat, string) -> Block)
    returns (r: Result<(nat, nat), Thrown>)
    requires db.Valid()
    modifies db
    ensures db.Valid()
    ensures db.logs == old(db.logs) && db.outbox == old(db.outbox)
    ensures var run := Migrate(c, env, ivs, old(db.projects));
      && db.projects == run.projects
      && (r.Success? <==> run.failure.None?)
      && (r.Success? ==> r.value == (run.updated, run.skipped))
      && (r.Failure? ==> run.failure == Some(r.error))
  {
    var projects := db.projects;
    var updated, skipped := 0, 0;
    for i := 0 to |projects|
      invariant MigrateUpTo(c, env, ivs, projects, i) == Run(db.projects, updated, skipped, None)
      invariant db.logs == old(db.logs) && db.outbox == old(db.outbox)
    {
      var project := projects[i];
      var updateData, needsUpdate := PlanRow(c, env, ivs, i, project);
      if updateData.Failure? {
        assert MigrateUpTo(c, env, ivs, projects, i + 1) == Run(db.projects, updated, skipped, Some(updateData.error));
        FailureIsFinal(c, env, ivs, projects, i + 1, |projects|);
        RowsInPlace(c, env, ivs, projects, i);
        SameIdsUnique(projects, db.projects);
        return Failure(updateData.error);
      }
      MigrateStep(c, env, ivs, projects, i, updateData.value);
      if needsUpdate {
        db.projects := db.projects[i := Apply(project, updateData.value)];
        updated := updated + 1;
      } else {
        skipped := skipped + 1;
      }
    }
    RowsInPlace(c, env, ivs, projects, |projects|);
    SameIdsUnique(projects, db.projects);
    return Success((updated, skipped));
  }

  /** One turn of the row loop, for a row whose column loop succeeded. */
  lemma MigrateStep(c: Cipher, env: Option<string>, ivs: (nat, string) -> Block, projects: seq<Project>, i: nat, data: map<string, string>)
    requires i < |projects|
    requires MigrateUpTo(c, env, ivs, projects, i).failure.None?
    requires Plan(c, env, ivs, i, projects[i], SENSITIVE_FIELDS, map[]) == Success(data)
    ensures var prev := MigrateUpTo(c, env, ivs, projects, i);
      MigrateUpTo(c, env, ivs, projects, i + 1) ==
        if data == map[] then prev.(skipped := prev.skipped + 1)
        else prev.(projects := prev.projects[i := Apply(projects[i], data)], updated := prev.updated + 1)
  {
  }

  /** The run rewrites rows in place, never changes an id, and has not
      touched the rows it has not reached. */
  lemma {:induction false} RowsInPlace(c: Cipher, env: Option<string>, ivs: (nat, string) -> Block, projects: seq<Project>, n: nat)
    requires n <= |projects|
    ensures var run := MigrateUpTo(c, env, ivs, projects, n);
      && (forall k :: 0 <= k < |projects| ==> run.projects[k].id == projects[k].id)
      && (forall k :: n <= k < |projects| ==> run.projects[k] == projects[k])
  {
    if n > 0 {
      RowsInPlace(c, env, ivs, projects, n - 1);
    }
  }

  /** Rewriting rows without touching their ids keeps the ids unique. */
  lemma SameIdsUnique(a: seq<Project>, b: seq<Project>)
    requires UniqueIds(a) && |a| == |b|
    requires forall k :: 0 <= k < |a| ==> b[k].id == a[k].id
    ensures UniqueIds(b)
  {
  }

  // ---------------------------------------------------------------------
  // Properties

  /** An abort ends the run: later rows are neither read nor written. */
  lemma {:induction false} FailureIsFinal(c: Cipher, env: Option<string>, ivs: (nat, string) -> Block, projects: seq<Project>, m: nat, n: nat)
    requires m <= n <= |projects|
    requires MigrateUpTo(c, env, ivs, projects, m).failure.Some?
    ensures MigrateUpTo(c, env, ivs, projects, n) == MigrateUpTo(c, env, ivs, projects, m)
    decreases n
  {
    if m < n {
      FailureIsFinal(c, env, ivs, projects, m, n - 1);
    }
  }

  /** Every row read is counted once, as updated or as skipped, unless the
      run aborted before it. */
  lemma {:induction false} CountsAddUp(c: Cipher, env: Option<string>, ivs: (nat, string) -> Block, projects: seq<Project>, n: nat)
    requires n <= |projects|
    ensures var run := MigrateUpTo(c, env, ivs, projects, n);
      && run.updated + run.skipped <= n
      && (run.failure.None? ==> run.updated + run.skipped == n)
  {
    if n > 0 {
      CountsAddUp(c, env, ivs, projects, n - 1);
    }
  }

  /** With a key set, the column loop seals exactly the non-empty values that
      are not `:`-separated triples, each with the IV drawn for it; a
      plaintext that happens to have the triple shape is left in the clear. */
  lemma {:induction false} PlanWithKey(c: Cipher, env: Option<string>, ivs: (nat, string) -> Block, index: nat, p: Project,
                                       fields: seq<string>, data: map<string, string>)
    requires Truthy(env) && Distinct(fields)
    requires forall f :: f in fields ==> f !in data
    requires Plan(c, env, ivs, index, p, fields, data).Success?
    ensures var out := Plan(c, env, ivs, index, p, fields, data).value;
      && (forall f :: f in fields ==>
            && (f in out <==> Truthy(Stored(p, f)) && !IsTriple(Stored(p, f).value))
            && (f in out ==> Encrypt(c, env, ivs(index, f), Stored(p, f).value) == Success(out[f])))
      && (forall k :: k !in fields ==> (k in out <==> k in data) && (k in data ==> out[k] == data[k]))
  {
    if fields != [] {
      var f := fields[0];
      var step := FieldPlan(c, env, ivs(index, f), Stored(p, f)).value;
      var next := if step.Some? then data[f := step.value] else data;
      assert Distinct(fields[1..]);
      forall g | g in fields[1..]
        ensures g !in next
      {
        var j :| 0 <= j < |fields[1..]| && fields[1..][j] == g;
        assert fields[j + 1] == g;
      }
      PlanWithKey(c, env, ivs, index, p, fields[1..], next);
    }
  }

  /** Without a key nothing can be sealed: the column loop fails with the
      missing-key error as soon as a column holds a non-empty value. */
  lemma {:induction false} PlanWithoutKey(c: Cipher, env: Option<string>, ivs: (nat, string) -> Block, index: nat, p: Project,
                                          fields: seq<string>, data: map<string, string>)
    requires !Truthy(env)
    ensures Plan(c, env, ivs, index, p, fields, data) ==
      if exists f :: f in fields && Truthy(Stored(p, f)) then Failure(Error(MISSING_KEY)) else Success(data)
  {
    if fields != [] {
      PlanWithoutKey(c, env, ivs, index, p, fields[1..], data);
      if !Truthy(Stored(p, fields[0])) && exists f :: f in fields && Truthy(Stored(p, f)) {
        var f :| f in fields && Truthy(Stored(p, f));
        assert f in fields[1..];
      }
    }
  }

  /** Every sensitive column is empty or has the sealed triple shape. */
  predicate AllSealed(p: Project) {
    forall f :: f in SENSITIVE_FIELDS && Truthy(Stored(p, f)) ==> IsTriple(Stored(p, f).value)
  }

  /** The row as readers see it: sensitive columns through `decryptIfPresent`. */
  predicate SameForReaders(c: Cipher, env: Option<string>, p: Project, q: Project) {
    && q.(llmApiKey := p.llmApiKey, smtpPass := p.smtpPass, notaifyApiKey := p.notaifyApiKey) == p
    && forall f :: f in SENSITIVE_FIELDS ==> DecryptIfPresent(c, env, Stored(q, f)) == DecryptIfPresent(c, env, Stored(p, f))
  }

  /** Under a sound cipher and a key, a migrated row is sealed and reads
      back, column by column, as the row did before. */
  lemma MigratedRow(c: Cipher, env: Option<string>, ivs: (nat, string) -> Block, index: nat, p: Project)
    requires Sound(c) && Truthy(env)
    requires Plan(c, env, ivs, index, p, SENSITIVE_FIELDS, map[]).Success?
    ensures var q := Apply(p, Plan(c, env, ivs, index, p, SENSITIVE_FIELDS, map[]).value);
      AllSealed(q) && SameForReaders(c, env, p, q)
  {
    var data := Plan(c, env, ivs, index, p, SENSITIVE_FIELDS, map[]).value;
    PlanWithKey(c, env, ivs, index, p, SENSITIVE_FIELDS, map[]);
    var q := Apply(p, data);
    forall f | f in SENSITIVE_FIELDS
      ensures Truthy(Stored(q, f)) ==> IsTriple(Stored(q, f).value)
      ensures DecryptIfPresent(c, env, Stored(q, f)) == DecryptIfPresent(c, env, Stored(p, f))
    {
      StoredAfterApply(p, data, f);
      if f in data {
        EncryptedShape(c, env, ivs(index, f), Stored(p, f).value);
        RoundTrip(c, env, ivs(index, f), Stored(p, f).value);
      }
    }
  }

  /** Under a sound cipher and a key, every row of the table reads the same
      after the run as before, whether or not the run aborted, and after a
      complete run every sensitive column is sealed. */
  lemma MigrationInvisibleToReaders(c: Cipher, env: Option<string>, ivs: (nat, string) -> Block, projects: seq<Project>, n: nat)
    requires Sound(c) && Truthy(env) && n <= |projects|
    ensures var run := MigrateUpTo(c, env, ivs, projects, n);
      && (forall k :: 0 <= k < |projects| ==> SameForReaders(c, env, projects[k], run.projects[k]))
      && (run.failure.None? ==> forall k :: 0 <= k < n ==> AllSealed(run.projects[k]))
  {
    MigrationKeepsReads(c, env, ivs, projects, n);
    MigrationSeals(c, env, ivs, projects, n);
  }

  lemma {:induction false} MigrationKeepsReads(c: Cipher, env: Option<string>, ivs: (nat, string) -> Block, projects: seq<Project>, n: nat)
    requires Sound(c) && Truthy(env) && n <= |projects|
    ensures ReadsLikeBefore(c, env, projects, MigrateUpTo(c, env, ivs, projects, n).projects)
  {
    var run := MigrateUpTo(c, env, ivs, projects, n);
    if n == 0 {
      forall k | 0 <= k < |projects|
        ensures SameForReaders(c, env, projects[k], run.projects[k])
      {
      }
    } else {
      MigrationKeepsReads(c, env, ivs, projects, n - 1);
      var prev := MigrateUpTo(c, env, ivs, projects, n - 1);
      var p := projects[n - 1];
      var plan := Plan(c, env, ivs, n - 1, p, SENSITIVE_FIELDS, map[]);
      StepTable(c, env, ivs, projects, n - 1);
      if prev.failure.None? && plan.Success? && plan.value != map[] {
        MigratedRow(c, env, ivs, n - 1, p);
        ReplacedReads(c, env, projects, prev.projects, n - 1, Apply(p, plan.value), run.projects);
      }
    }
  }

  /** The table after one more row: rewritten at that row only when the run
      has not aborted and the row's plan is a non-empty update. */
  lemma StepTable(c: Cipher, env: Option<string>, ivs: (nat, string) -> Block, projects: seq<Project>, i: nat)
    requires i < |projects|
    ensures var prev := MigrateUpTo(c, env, ivs, projects, i);
      var plan := Plan(c, env, ivs, i, projects[i], SENSITIVE_FIELDS, map[]);
      MigrateUpTo(c, env, ivs, projects, i + 1).projects ==
        if prev.failure.None? && plan.Success? && plan.value != map[] then prev.projects[i := Apply(projects[i], plan.value)]
        else prev.projects
  {
  }

  lemma {:induction false} MigrationSeals(c: Cipher, env: Option<string>, ivs: (nat, string) -> Block, projects: seq<Project>, n: nat)
    requires Sound(c) && Truthy(env) && n <= |projects|
    ensures var run := MigrateUpTo(c, env, ivs, projects, n);
      run.failure.None? ==> forall k :: 0 <= k < n ==> AllSealed(run.projects[k])
  {
    if n > 0 {
      MigrationSeals(c, env, ivs, projects, n - 1);
      var run := MigrateUpTo(c, env, ivs, projects, n);
      var prev := MigrateUpTo(c, env, ivs, projects, n - 1);
      var p := projects[n - 1];
      var plan := Plan(c, env, ivs, n - 1, p, SENSITIVE_FIELDS, map[]);
      if prev.failure.Some? {
        assert run == prev;
      } else if plan.Failure? {
        assert run.failure.Some?;
      } else if plan.value == map[] {
        MigrateStep(c, env, ivs, projects, n - 1, plan.value);
        PlanWithKey(c, env, ivs, n - 1, p, SENSITIVE_FIELDS, map[]);
        RowsInPlace(c, env, ivs, projects, n - 1);
        assert AllSealed(prev.projects[n - 1]);
        SealedPrefix(prev.projects, n - 1, prev.projects);
      } else {
        MigrateStep(c, env, ivs, projects, n - 1, plan.value);
        MigratedRow(c, env, ivs, n - 1, p);
        SealedPrefix(prev.projects, n - 1, run.projects);
      }
    }
  }

  /** Putting a sealed row at position i after i sealed rows gives i + 1. */
  lemma SealedPrefix(table: seq<Project>, i: nat, table': seq<Project>)
    requires i < |table| == |table'|
    requires forall k :: 0 <= k < i ==> AllSealed(table[k])
    requires forall k :: 0 <= k < i ==> table'[k] == table[k]
    requires AllSealed(table'[i])
    ensures forall k :: 0 <= k <= i ==> AllSealed(table'[k])
  {
  }

  lemma ReplacedReads(c: Cipher, env: Option<string>, projects: seq<Project>, table: seq<Project>, i: nat, q: Project, table': seq<Project>)
    requires ReadsLikeBefore(c, env, projects, table)
    requires i < |projects| && table' == table[i := q]
    requires SameForReaders(c, env, projects[i], q)
    ensures ReadsLikeBefore(c, env, projects, table')
  {
  }

  /** Every row of `table` reads as the same row of `projects`. */
  predicate ReadsLikeBefore(c: Cipher, env: Option<string>, projects: seq<Project>, table: seq<Project>) {
    |table| == |projects| && forall k :: 0 <= k < |projects| ==> SameForReaders(c, env, projects[k], table[k])
  }

  /** With a key set, the column loop over a sealed row plans nothing. */
  lemma {:induction false} PlanOfSealed(c: Cipher, env: Option<string>, ivs: (nat, string) -> Block, index: nat, p: Project,
                                        fields: seq<string>, data: map<string, string>)
    requires Truthy(env) && AllSealed(p)
    requires forall f :: f in fields ==> f in SENSITIVE_FIELDS
    ensures Plan(c, env, ivs, index, p, fields, data) == Success(data)
  {
    if fields != [] {
      PlanOfSealed(c, env, ivs, index, p, fields[1..], data);
    }
  }

  /** The script may be run again: with a key set, a second run over the
      table a complete first run left behind writes nothing and skips every
      row, whatever IVs it draws. */
  lemma SecondRunUpdatesNothing(c: Cipher, env: Option<string>, ivs: (nat, string) -> Block, ivs2: (nat, string) -> Block, projects: seq<Project>)
    requires Sound(c) && Truthy(env)
    requires Migrate(c, env, ivs, projects).failure.None?
    ensures var first := Migrate(c, env, ivs, projects);
      Migrate(c, env, ivs2, first.projects) == Run(first.projects, 0, |projects|, None)
  {
    var first := Migrate(c, env, ivs, projects);
    MigrationInvisibleToReaders(c, env, ivs, projects, |projects|);
    SealedTableUntouched(c, env, ivs2, first.projects, |projects|);
  }

  lemma {:induction false} SealedTableUntouched(c: Cipher, env: Option<string>, ivs: (nat, string) -> Block, projects: seq<Project>, n: nat)
    requires Truthy(env) && n <= |projects|
    requires forall k :: 0 <= k < |projects| ==> AllSealed(projects[k])
    ensures MigrateUpTo(c, env, ivs, projects, n) == Run(projects, 0, n, None)
  {
    if n > 0 {
      SealedTableUntouched(c, env, ivs, projects, n - 1);
      PlanOfSealed(c, env, ivs, n - 1, projects[n - 1], SENSITIVE_FIELDS, map[]);
    }
  }

  /** Without a key the run writes nothing: it skips the rows with no
      sensitive value and aborts with the missing-key error at the first row
      that has one. */
  lemma {:induction false} WithoutKeyWritesNothing(c: Cipher, env: Option<string>, ivs: (nat, string) -> Block, projects: seq<Project>, n: nat)
    requires !Truthy(env) && n <= |projects|
    ensures var run := MigrateUpTo(c, env, ivs, projects, n);
      && run.projects == projects && run.updated == 0
      && (run.failure.Some? <==> exists k, f :: 0 <= k < n && f in SENSITIVE_FIELDS && Truthy(Stored(projects[k], f)))
      && (run.failure.Some? ==> run.failure == Some(Error(MISSING_KEY)))
  {
    if n > 0 {
      WithoutKeyWritesNothing(c, env, ivs, projects, n - 1);
      PlanWithoutKey(c, env, ivs, n - 1, projects[n - 1], SENSITIVE_FIELDS, map[]);
    }
  }
}
