/** The `Project` model's synchronisation: `updateFromJira`, which inside one
    database transaction copies the remote project's scalar fields onto the
    model, saves it, and reconciles its lead, components, issue types and
    versions; and `syncIssuesFromJira`, which reconciles every issue the
    incremental fetch returns, outside any transaction.

    The child `createOrUpdateFromJira` operations are not part of this model:
    they are one abstract `Reconciler` that either returns a new database
    state or throws. The transaction is a snapshot of the database state,
    restored when any stage throws. */
module ProjectSync {
  import opened Common
  import opened Remote
  import JiraCache
  import IssueFetcher

  /** The columns of a `projects` row that the synchronisation touches. */
  datatype ProjectRow = ProjectRow(jiraId: Value, jiraKey: Value, displayName: Value, issuesSynchedAt: Option<string>)

  /** The database: the projects table by primary key, the next
      auto-increment key, and the tables the child reconcilers own. */
  datatype Store<C> = Store(projects: map<nat, ProjectRow>, nextId: nat, children: C)

  /** `['project' => $this]`: the project as a child reconciler is given it. */
  datatype ProjectContext = ProjectContext(rowId: Option<nat>, row: ProjectRow)

  /** One `createOrUpdateFromJira` call, with its arguments. */
  datatype Call =
    | UserCall(attributes: Attributes)
    | ComponentCall(component: RemoteComponent, context: ProjectContext)
    | IssueTypeCall(issueType: RemoteIssueType)
    | VersionCall(version: RemoteVersion, context: ProjectContext)
    | IssueCall(issue: RemoteIssue, context: ProjectContext)

  /** The child reconcilers: each call either yields the new database state
      or throws. */
  type Reconciler<!C> = (Store<C>, Call) -> Result<Store<C>, Error>

  /** The state after a sequence of calls, and the position and error of the
      call that threw, if one did. */
  datatype Run<C> = Run(store: Store<C>, failure: Option<(nat, Error)>)

  /** Making `calls` one after the other, stopping at the first that throws. */
  function Replay<C>(reconcile: Reconciler<C>, s: Store<C>, calls: seq<Call>): Run<C>
  {
    if |calls| == 0 then Run(s, None)
    else
      var prev := Replay(reconcile, s, calls[..|calls| - 1]);
      if prev.failure.Some? then prev
      else match reconcile(prev.store, calls[|calls| - 1])
        case Success(next) => Run(next, None)
        case Failure(e) => Run(prev.store, Some((|calls| - 1, e)))
  }

  function Shift(failure: Option<(nat, Error)>, k: nat): Option<(nat, Error)>
  {
    match failure
    case None => None
    case Some((i, e)) => Some((i + k, e))
  }

  /** Making `a` then `b` is making `a`, and, if no call of `a` threw,
      making `b` from where `a` left the database. */
  lemma {:induction false} ReplayAppend<C>(reconcile: Reconciler<C>, s: Store<C>, a: seq<Call>, b: seq<Call>)
    ensures Replay(reconcile, s, a).failure.Some? ==> Replay(reconcile, s, a + b) == Replay(reconcile, s, a)
    ensures Replay(reconcile, s, a).failure.None? ==>
      var rest := Replay(reconcile, Replay(reconcile, s, a).store, b);
      Replay(reconcile, s, a + b) == Run(rest.store, Shift(rest.failure, |a|))
    decreases |b|
  {
    if |b| == 0 {
      assert a + b == a;
    } else {
      var b' := b[..|b| - 1];
      assert (a + b)[..|a + b| - 1] == a + b';
      assert (a + b)[|a + b| - 1] == b[|b| - 1];
      ReplayAppend(reconcile, s, a, b');
    }
  }

  /** When a call throws, the database holds exactly the effect of the
      calls before it, and that call is the one that threw. */
  lemma {:induction false} ReplayFailure<C>(reconcile: Reconciler<C>, s: Store<C>, calls: seq<Call>)
    ensures Replay(reconcile, s, calls).failure.Some? ==>
      var (k, e) := Replay(reconcile, s, calls).failure.value;
      k < |calls| &&
      Replay(reconcile, s, calls[..k]) == Run(Replay(reconcile, s, calls).store, None) &&
      reconcile(Replay(reconcile, s, calls).store, calls[k]) == Failure(e)
  {
    if |calls| > 0 {
      var prefix := calls[..|calls| - 1];
      ReplayFailure(reconcile, s, prefix);
      var prev := Replay(reconcile, s, prefix);
      if prev.failure.Some? {
        var k := prev.failure.value.0;
        assert calls[..k] == prefix[..k];
        assert calls[k] == prefix[k];
      } else {
        assert calls[..|calls| - 1] == prefix;
      }
    }
  }

  /** A run in which nothing threw made every call, in order: each call,
      applied to the state the calls before it left, succeeded. */
  lemma {:induction false} ReplaySuccess<C>(reconcile: Reconciler<C>, s: Store<C>, calls: seq<Call>, k: nat)
    requires Replay(reconcile, s, calls).failure.None?
    requires k < |calls|
    ensures Replay(reconcile, s, calls[..k]).failure.None?
    ensures reconcile(Replay(reconcile, s, calls[..k]).store, calls[k]) == Success(Replay(reconcile, s, calls[..k + 1]).store)
  {
    var prefix := calls[..|calls| - 1];
    if k < |calls| - 1 {
      assert Replay(reconcile, s, prefix).failure.None?;
      ReplaySuccess(reconcile, s, prefix, k);
      assert prefix[..k] == calls[..k];
      assert prefix[..k + 1] == calls[..k + 1];
      assert prefix[k] == calls[k];
    } else {
      assert calls[..k + 1] == calls;
      assert calls[..k] == prefix;
    }
  }

  /** `compact('accountId')` for the lead. */
  function LeadCalls(accountId: Value): seq<Call>
  {
    [UserCall([("accountId", accountId)])]
  }

  /** Each component, with `project` set to the project's key and
      `projectId` set to `$this->jiraId`: the model has no such attribute,
      so PHP reads null there. */
  function ComponentCalls(components: seq<RemoteComponent>, jiraKey: Value, context: ProjectContext): seq<Call>
  {
    seq(|components|, i requires 0 <= i < |components| =>
      ComponentCall(components[i].(project := jiraKey, projectId := Null), context))
  }

  function IssueTypeCalls(issueTypes: seq<RemoteIssueType>): seq<Call>
  {
    seq(|issueTypes|, i requires 0 <= i < |issueTypes| => IssueTypeCall(issueTypes[i]))
  }

  function VersionCalls(versions: seq<RemoteVersion>, context: ProjectContext): seq<Call>
  {
    seq(|versions|, i requires 0 <= i < |versions| => VersionCall(versions[i], context))
  }

  function IssueCalls(issues: seq<RemoteIssue>, context: ProjectContext): (r: seq<Call>)
    ensures |r| == |issues|
    ensures forall i :: 0 <= i < |issues| ==> r[i] == IssueCall(issues[i], context)
  {
    seq(|issues|, i requires 0 <= i < |issues| => IssueCall(issues[i], context))
  }

  /** The stage a call belongs to: lead, components, issue types, versions. */
  function Stage(c: Call): nat
  {
    match c
    case UserCall(_) => 0
    case ComponentCall(_, _) => 1
    case IssueTypeCall(_) => 2
    case VersionCall(_, _) => 3
    case IssueCall(_, _) => 4
  }

  /** The child calls of one aggregate synchronisation: the lead first, then
      every component, every issue type and every version, each group in
      the snapshot's order. */
  function AggregateCalls(j: RemoteProject, accountId: Value, context: ProjectContext): (r: seq<Call>)
    ensures |r| == 1 + |j.components| + |j.issueTypes| + |j.versions|
    ensures r[0] == UserCall([("accountId", accountId)])
    ensures forall i :: 0 <= i < |j.components| ==>
      r[1 + i] == ComponentCall(j.components[i].(project := Str(j.key), projectId := Null), context)
    ensures forall i :: 0 <= i < |j.issueTypes| ==>
      r[1 + |j.components| + i] == IssueTypeCall(j.issueTypes[i])
    ensures forall i :: 0 <= i < |j.versions| ==>
      r[1 + |j.components| + |j.issueTypes| + i] == VersionCall(j.versions[i], context)
    ensures forall i, k :: 0 <= i < k < |r| ==> Stage(r[i]) <= Stage(r[k])
  {
    LeadCalls(accountId) + ComponentCalls(j.components, Str(j.key), context)
      + IssueTypeCalls(j.issueTypes) + VersionCalls(j.versions, context)
  }

  /** The row `syncAttributesFromJira` gives the model. */
  function AssignedRow(j: RemoteProject, watermark: Option<string>): ProjectRow
  {
    ProjectRow(Str(j.id), Str(j.key), Str(j.name), watermark)
  }

  /** The primary key a save writes: the model's own, or the next one. */
  function SaveTarget<C>(s: Store<C>, rowId: Option<nat>): nat
  {
    if rowId.Some? then rowId.value else s.nextId
  }

  /** Saving `row` would break the uniqueness of the remote id or of the
      remote key among projects. */
  predicate Conflicts(projects: map<nat, ProjectRow>, rowId: Option<nat>, row: ProjectRow)
  {
    exists id :: id in projects && Some(id) != rowId &&
      ((row.jiraId != Null && projects[id].jiraId == row.jiraId) ||
       (row.jiraKey != Null && projects[id].jiraKey == row.jiraKey))
  }

  /** The database after a save that passed the constraints: an insert takes
      the next key; an update rewrites the row if it is still there. */
  function Saved<C>(s: Store<C>, rowId: Option<nat>, row: ProjectRow): Store<C>
  {
    match rowId
    case None => s.(projects := s.projects[s.nextId := row], nextId := s.nextId + 1)
    case Some(id) => if id in s.projects then s.(projects := s.projects[id := row]) else s
  }

  /** The snapshot `updateFromJira` works from: the one passed in, else the
      result of `jira()`, which must not be null. */
  function Snapshot(given: Option<RemoteProject>, lookup: JiraCache.Lookup): Result<RemoteProject, Error>
  {
    match given
    case Some(j) => Success(j)
    case None =>
      match lookup.result
      case Failure(e) => Failure(e)
      case Success(None) => Failure(MissingSnapshot)
      case Success(Some(j)) => Success(j)
  }

  /** A run as the code sees it: the state it reached, or the exception. */
  function Outcome<C>(run: Run<C>): Result<Store<C>, Error>
  {
    match run.failure
    case Some((_, e)) => Failure(e)
    case None => Success(run.store)
  }

  /** The next stage of a sequence of statements: skipped once one threw. */
  function Then<C>(r: Result<Store<C>, Error>, reconcile: Reconciler<C>, calls: seq<Call>): Result<Store<C>, Error>
  {
    match r
    case Failure(e) => Failure(e)
    case Success(s) => Outcome(Replay(reconcile, s, calls))
  }

  /** A method's answer as a `Result`: its error, or the state it left. */
  function Reported<C>(failure: Option<Error>, s: Store<C>): Result<Store<C>, Error>
  {
    match failure
    case Some(e) => Failure(e)
    case None => Success(s)
  }

  /** Running `a` and then `b` as two stages is running `a + b`. */
  lemma ThenAppend<C>(reconcile: Reconciler<C>, s: Store<C>, a: seq<Call>, b: seq<Call>)
    ensures Then(Outcome(Replay(reconcile, s, a)), reconcile, b) == Outcome(Replay(reconcile, s, a + b))
  {
    ReplayAppend(reconcile, s, a, b);
  }

  /** Lines 64 to 73 of the transaction as a function of the database: what
      it commits, or the error that makes it roll back. */
  function AggregateTransaction<C>(s: Store<C>, rowId: Option<nat>, j: RemoteProject, watermark: Option<string>, reconcile: Reconciler<C>): Result<Store<C>, Error>
  {
    var row := AssignedRow(j, watermark);
    if Conflicts(s.projects, rowId, row) then Failure(UniqueViolation("jira_id, jira_key"))
    else
      var saved := Saved(s, rowId, row);
      var context := ProjectContext(Some(SaveTarget(s, rowId)), row);
      match Element(j.lead, "accountId")
      case None => Failure(UndefinedIndex("accountId"))
      case Some(accountId) =>
        Outcome(Replay(reconcile, saved, AggregateCalls(j, accountId, context)))
  }

  /** A committed aggregate synchronisation saved the project row before
      the first child call ran, and then made every child call in stage
      order, each one succeeding on the state the previous ones left. */
  lemma CommittedTransaction<C>(s: Store<C>, rowId: Option<nat>, j: RemoteProject, watermark: Option<string>, reconcile: Reconciler<C>)
    requires AggregateTransaction(s, rowId, j, watermark, reconcile).Success?
    ensures !Conflicts(s.projects, rowId, AssignedRow(j, watermark))
    ensures Element(j.lead, "accountId").Some?
    ensures
      var row := AssignedRow(j, watermark);
      var saved := Saved(s, rowId, row);
      var calls := AggregateCalls(j, Element(j.lead, "accountId").value, ProjectContext(Some(SaveTarget(s, rowId)), row));
      (rowId.None? || rowId.value in s.projects ==> SaveTarget(s, rowId) in saved.projects && saved.projects[SaveTarget(s, rowId)] == row) &&
      Replay(reconcile, saved, calls).failure.None? &&
      AggregateTransaction(s, rowId, j, watermark, reconcile).value == Replay(reconcile, saved, calls).store &&
      forall k :: 0 <= k < |calls| ==>
        reconcile(Replay(reconcile, saved, calls[..k]).store, calls[k]).Success?
  {
    var row := AssignedRow(j, watermark);
    var saved := Saved(s, rowId, row);
    var calls := AggregateCalls(j, Element(j.lead, "accountId").value, ProjectContext(Some(SaveTarget(s, rowId)), row));
    forall k | 0 <= k < |calls|
      ensures reconcile(Replay(reconcile, saved, calls[..k]).store, calls[k]).Success?
    {
      ReplaySuccess(reconcile, saved, calls, k);
    }
  }

  /** The transaction's child calls, made as the four stages the code
      makes them in, one after the other, each skipped once one threw. */
  lemma AggregateInStages<C>(s: Store<C>, rowId: Option<nat>, j: RemoteProject, watermark: Option<string>, reconcile: Reconciler<C>)
    requires !Conflicts(s.projects, rowId, AssignedRow(j, watermark))
    requires Element(j.lead, "accountId").Some?
    ensures
      var row := AssignedRow(j, watermark);
      var saved := Saved(s, rowId, row);
      var context := ProjectContext(Some(SaveTarget(s, rowId)), row);
      var lead := Outcome(Replay(reconcile, saved, LeadCalls(Element(j.lead, "accountId").value)));
      var components := Then(lead, reconcile, ComponentCalls(j.components, Str(j.key), context));
      var issueTypes := Then(components, reconcile, IssueTypeCalls(j.issueTypes));
      AggregateTransaction(s, rowId, j, watermark, reconcile) == Then(issueTypes, reconcile, VersionCalls(j.versions, context))
  {
    var row := AssignedRow(j, watermark);
    var saved := Saved(s, rowId, row);
    var context := ProjectContext(Some(SaveTarget(s, rowId)), row);
    var accountId := Element(j.lead, "accountId").value;
    var a := LeadCalls(accountId);
    var b := ComponentCalls(j.components, Str(j.key), context);
    var c := IssueTypeCalls(j.issueTypes);
    var d := VersionCalls(j.versions, context);
    assert AggregateCalls(j, accountId, context) == a + b + c + d;
    ThenAppend(reconcile, saved, a, b);
    ThenAppend(reconcile, saved, a + b, c);
    ThenAppend(reconcile, saved, a + b + c, d);
  }

  /** The database connection: its state is what a transaction snapshots. */
  class Database<C> {
    var store: Store<C>

    constructor (initial: Store<C>)
      ensures store == initial
    {
      store := initial;
    }
  }

  /** Makes `calls` in order against the database, stopping at the first that
      throws; the database is left as the calls that ran left it. */
  method ReconcileAll<C>(db: Database<C>, calls: seq<Call>, reconcile: Reconciler<C>) returns (failure: Option<(nat, Error)>)
    modifies db
    ensures db.store == Replay(reconcile, old(db.store), calls).store
    ensures failure == Replay(reconcile, old(db.store), calls).failure
  {
    var i := 0;
    while i < |calls|
      invariant 0 <= i <= |calls|
      invariant Replay(reconcile, old(db.store), calls[..i]) == Run(db.store, None)
    {
      assert calls[..i + 1][..i] == calls[..i];
      match reconcile(db.store, calls[i]) {
        case Success(next) =>
          db.store := next;
        case Failure(e) =>
          ReplayAppend(reconcile, old(db.store), calls[..i + 1], calls[i + 1..]);
          assert calls[..i + 1] + calls[i + 1..] == calls;
          return Some((i, e));
      }
      i := i + 1;
    }
    assert calls[..i] == calls;
    return None;
  }

  /** A project row as an Eloquent model: its attributes and whether (under
      which key) it has been saved. */
  class Project {
    var jiraId: Value
    var jiraKey: Value
    var displayName: Value
    var issuesSynchedAt: Option<string>
    var rowId: Option<nat>

    /** `new Project(['jira_id' => ..., 'jira_key' => ...])`: the two
        mass-assignable attributes, nothing saved yet. */
    constructor (jiraId: Value, jiraKey: Value)
      ensures this.jiraId == jiraId && this.jiraKey == jiraKey
      ensures displayName == Null && issuesSynchedAt.None? && rowId.None?
    {
      this.jiraId := jiraId;
      this.jiraKey := jiraKey;
      displayName := Null;
      issuesSynchedAt := None;
      rowId := None;
    }

    function Row(): ProjectRow
      reads this
    {
      ProjectRow(jiraId, jiraKey, displayName, issuesSynchedAt)
    }

    function Context(): ProjectContext
      reads this
    {
      ProjectContext(rowId, Row())
    }

    /** `jira()`: the remote project looked up by this project's id, or by
        its key when the id is null; nothing is looked up when both are null. */
    function Jira(cache: JiraCache.Store, now: int, remote: Service): (r: JiraCache.Lookup)
      reads this
      ensures JiraCache.Remembered(cache, now, JiraCache.CacheKey(JiraCache.ProjectAttributes(jiraId, jiraKey))).None? ==>
        (jiraId != Null ==> r.requests == [ToStr(jiraId)]) &&
        (jiraId == Null && jiraKey != Null ==> r.requests == [ToStr(jiraKey)]) &&
        (jiraId == Null && jiraKey == Null ==> r.result == Success(None) && r.requests == [])
      ensures JiraCache.Remembered(cache, now, JiraCache.CacheKey(JiraCache.ProjectAttributes(jiraId, jiraKey))).Some? ==>
        r.requests == [] && r.cache == cache
    {
      JiraCache.ProjectLookupDispatch(remote, jiraId, jiraKey);
      JiraCache.FindJira(cache, now, remote, JiraCache.ProjectAttributes(jiraId, jiraKey))
    }

    /** `newUpdatedJiraIssuesExpression()`: never synchronised, every issue
        of the local key; otherwise the issues of the remote snapshot's key
        updated since the watermark, which needs `jira()` to find a project.
        Returns the query text and the cache afterwards. */
    function NewUpdatedJiraIssuesExpression(cache: JiraCache.Store, now: int, remote: Service): (r: (Result<string, Error>, JiraCache.Store))
      reads this
      ensures issuesSynchedAt.None? ==>
        r == (Success("project = " + ToStr(jiraKey)), cache)
      ensures issuesSynchedAt.Some? ==>
        var lookup := Jira(cache, now, remote);
        r.1 == lookup.cache &&
        (r.0.Success? <==> lookup.result.Success? && lookup.result.value.Some?) &&
        (r.0.Success? ==> r.0.value == "project = " + lookup.result.value.value.key + " and updated >= " + issuesSynchedAt.value) &&
        (lookup.result.Failure? ==> r.0 == Failure(lookup.result.error)) &&
        (lookup.result == Success(None) ==> r.0 == Failure(MissingSnapshot))
    {
      match issuesSynchedAt
      case None => (Success(IssueFetcher.UpdatedIssuesExpression(ToStr(jiraKey), None)), cache)
      case Some(_) =>
        var lookup := Jira(cache, now, remote);
        match lookup.result
        case Failure(e) => (Failure(e), lookup.cache)
        case Success(None) => (Failure(MissingSnapshot), lookup.cache)
        case Success(Some(j)) => (Success(IssueFetcher.UpdatedIssuesExpression(j.key, issuesSynchedAt)), lookup.cache)
    }

    /** `syncAttributesFromJira($jira)`. */
    method SyncAttributesFromJira(j: RemoteProject)
      modifies this
      ensures Row() == AssignedRow(j, old(issuesSynchedAt))
      ensures rowId == old(rowId)
    {
      jiraId := Str(j.id);
      jiraKey := Str(j.key);
      displayName := Str(j.name);
    }

    /** `save()`: insert or update this model's row, unless the database's
        uniqueness constraints refuse it. */
    method Save<C>(db: Database<C>) returns (failure: Option<Error>)
      modifies this, db
      ensures Row() == old(Row())
      ensures failure == if Conflicts(old(db.store.projects), old(rowId), old(Row())) then Some(UniqueViolation("jira_id, jira_key")) else None
      ensures failure.Some? ==> db.store == old(db.store) && rowId == old(rowId)
      ensures failure.None? ==>
        db.store == Saved(old(db.store), old(rowId), old(Row())) &&
        rowId == Some(SaveTarget(old(db.store), old(rowId)))
    {
      if Conflicts(db.store.projects, rowId, Row()) {
        return Some(UniqueViolation("jira_id, jira_key"));
      }
      var id := SaveTarget(db.store, rowId);
      db.store := Saved(db.store, rowId, Row());
      rowId := Some(id);
      return None;
    }

    /** `syncLeadFromJira($jira)`: reads the lead's account id (a missing
        one throws) and reconciles that user. */
    method SyncLeadFromJira<C>(db: Database<C>, j: RemoteProject, reconcile: Reconciler<C>) returns (failure: Option<Error>)
      modifies db
      ensures Element(j.lead, "accountId").None? ==>
        failure == Some(UndefinedIndex("accountId")) && db.store == old(db.store)
      ensures Element(j.lead, "accountId").Some? ==>
        var run := Replay(reconcile, old(db.store), LeadCalls(Element(j.lead, "accountId").value));
        db.store == run.store && Reported(failure, db.store) == Outcome(run)
    {
      match Element(j.lead, "accountId")
      case None =>
        return Some(UndefinedIndex("accountId"));
      case Some(accountId) =>
        var f := ReconcileAll(db, LeadCalls(accountId), reconcile);
        return if f.Some? then Some(f.value.1) else None;
    }

    /** `syncComponentsFromJira($jira)`. */
    method SyncComponentsFromJira<C>(db: Database<C>, j: RemoteProject, reconcile: Reconciler<C>) returns (failure: Option<Error>)
      modifies db
      ensures
        var run := Replay(reconcile, old(db.store), ComponentCalls(j.components, jiraKey, Context()));
        db.store == run.store && Reported(failure, db.store) == Outcome(run)
    {
      var f := ReconcileAll(db, ComponentCalls(j.components, jiraKey, Context()), reconcile);
      return if f.Some? then Some(f.value.1) else None;
    }

    /** `syncIssueTypesFromJira($jira)`: issue types get no project context. */
    method SyncIssueTypesFromJira<C>(db: Database<C>, j: RemoteProject, reconcile: Reconciler<C>) returns (failure: Option<Error>)
      modifies db
      ensures
        var run := Replay(reconcile, old(db.store), IssueTypeCalls(j.issueTypes));
        db.store == run.store && Reported(failure, db.store) == Outcome(run)
    {
      var f := ReconcileAll(db, IssueTypeCalls(j.issueTypes), reconcile);
      return if f.Some? then Some(f.value.1) else None;
    }

    /** `syncVersionsFromJira($jira)`. */
    method SyncVersionsFromJira<C>(db: Database<C>, j: RemoteProject, reconcile: Reconciler<C>) returns (failure: Option<Error>)
      modifies db
      ensures
        var run := Replay(reconcile, old(db.store), VersionCalls(j.versions, Context()));
        db.store == run.store && Reported(failure, db.store) == Outcome(run)
    {
      var f := ReconcileAll(db, VersionCalls(j.versions, Context()), reconcile);
      return if f.Some? then Some(f.value.1) else None;
    }

    /** The body of the transaction once the snapshot is known: assign,
        save, then the four child stages, stopping at the first that throws.
        What it reports is exactly `AggregateTransaction`. */
    method SyncAggregateFromJira<C>(db: Database<C>, j: RemoteProject, reconcile: Reconciler<C>) returns (failure: Option<Error>)
      modifies this, db
      ensures Row() == AssignedRow(j, old(issuesSynchedAt))
      ensures Reported(failure, db.store) == AggregateTransaction(old(db.store), old(rowId), j, old(issuesSynchedAt), reconcile)
      ensures Conflicts(old(db.store.projects), old(rowId), AssignedRow(j, old(issuesSynchedAt))) ==> rowId == old(rowId)
      ensures !Conflicts(old(db.store.projects), old(rowId), AssignedRow(j, old(issuesSynchedAt))) ==>
        rowId == Some(SaveTarget(old(db.store), old(rowId)))
    {
      SyncAttributesFromJira(j);
      failure := Save(db);
      if failure.Some? {
        return;
      }
      ghost var saved := db.store;
      ghost var context := Context();
      assert ComponentCalls(j.components, jiraKey, Context()) == ComponentCalls(j.components, Str(j.key), context);

      failure := SyncLeadFromJira(db, j, reconcile);
      if Element(j.lead, "accountId").Some? {
        AggregateInStages(old(db.store), old(rowId), j, old(issuesSynchedAt), reconcile);
      }
      if failure.Some? {
        return;
      }
      ghost var a := LeadCalls(Element(j.lead, "accountId").value);
      ghost var progress := Outcome(Replay(reconcile, saved, a));
      assert progress == Success(db.store);

      failure := SyncComponentsFromJira(db, j, reconcile);
      progress := Then(progress, reconcile, ComponentCalls(j.components, Str(j.key), context));
      assert Reported(failure, db.store) == progress;
      if failure.Some? {
        return;
      }
      failure := SyncIssueTypesFromJira(db, j, reconcile);
      progress := Then(progress, reconcile, IssueTypeCalls(j.issueTypes));
      assert Reported(failure, db.store) == progress;
      if failure.Some? {
        return;
      }
      failure := SyncVersionsFromJira(db, j, reconcile);
      progress := Then(progress, reconcile, VersionCalls(j.versions, context));
      assert Reported(failure, db.store) == progress;
    }

    /** `$jira ?: $this->jira()`: the snapshot given, or else the one
        `jira()` finds, which must not be null. */
    method ResolveSnapshot(cache: JiraCache.Store, now: int, remote: Service, given: Option<RemoteProject>)
      returns (j: Result<RemoteProject, Error>, cache': JiraCache.Store)
      ensures j == Snapshot(given, Jira(cache, now, remote))
      ensures cache' == if given.Some? then cache else Jira(cache, now, remote).cache
    {
      if given.Some? {
        return Success(given.value), cache;
      }
      var lookup := Jira(cache, now, remote);
      j := Snapshot(None, lookup);
      cache' := lookup.cache;
    }

    /** `updateFromJira($jira)`. The snapshot is the one given or else
        `jira()`'s, and everything after it runs in one transaction: the
        database ends as `AggregateTransaction` commits it, or exactly as it
        was when any stage throws. The model's attributes are not part of
        the rollback, and neither is the cache. */
    method UpdateFromJira<C>(db: Database<C>, remote: Service, cache: JiraCache.Store, now: int, given: Option<RemoteProject>, reconcile: Reconciler<C>)
      returns (r: Result<Project, Error>, cache': JiraCache.Store)
      modifies this, db
      ensures given.Some? ==> cache' == cache
      ensures given.None? ==> cache' == old(Jira(cache, now, remote)).cache
      ensures r.Success? ==> r.value == this
      ensures r.Failure? ==> db.store == old(db.store)
      ensures issuesSynchedAt == old(issuesSynchedAt)
      ensures
        match Snapshot(given, old(Jira(cache, now, remote)))
        case Failure(e) => r == Failure(e) && Row() == old(Row()) && rowId == old(rowId)
        case Success(j) =>
          var t := AggregateTransaction(old(db.store), old(rowId), j, old(issuesSynchedAt), reconcile);
          Row() == AssignedRow(j, old(issuesSynchedAt)) &&
          (r.Success? <==> t.Success?) &&
          (r.Success? ==> db.store == t.value) &&
          (r.Failure? ==> r.error == t.error) &&
          (Conflicts(old(db.store.projects), old(rowId), AssignedRow(j, old(issuesSynchedAt))) ==> rowId == old(rowId)) &&
          (!Conflicts(old(db.store.projects), old(rowId), AssignedRow(j, old(issuesSynchedAt))) ==>
            rowId == Some(SaveTarget(old(db.store), old(rowId))))
    {
      var snapshot := db.store;
      var found;
      found, cache' := ResolveSnapshot(cache, now, remote, given);
      if found.Failure? {
        return Failure(found.error), cache';
      }
      var j := found.value;
      var failure := SyncAggregateFromJira(db, j, reconcile);
      if failure.Some? {
        db.store := snapshot;
        return Failure(failure.value), cache';
      }
      return Success(this), cache';
    }

    /** `syncIssuesFromJira()`: fetches the issues updated since the
        watermark and reconciles each one, in fetch order, with this project
        as context. There is no transaction: when one throws, the issues
        before it stay reconciled. The watermark is left as it was. */
    method SyncIssuesFromJira<C>(db: Database<C>, remote: Service, cache: JiraCache.Store, now: int, reconcile: Reconciler<C>)
      returns (failure: Option<Error>, cache': JiraCache.Store)
      modifies db
      ensures issuesSynchedAt == old(issuesSynchedAt)
      ensures
        var (jql, c) := old(NewUpdatedJiraIssuesExpression(cache, now, remote));
        cache' == c &&
        (jql.Failure? ==> failure == Some(jql.error) && db.store == old(db.store)) &&
        (jql.Success? ==>
          var run := Replay(reconcile, old(db.store), IssueCalls(remote.search(jql.value), old(Context())));
          db.store == run.store && (failure.None? <==> run.failure.None?) &&
          (failure.Some? ==> failure.value == run.failure.value.1))
    {
      var expression := NewUpdatedJiraIssuesExpression(cache, now, remote);
      var jql := expression.0;
      cache' := expression.1;
      if jql.Failure? {
        return Some(jql.error), cache';
      }
      var issues, requests := IssueFetcher.GetUpdatedJiraIssues(jql.value, remote.search(jql.value));
      var f := ReconcileAll(db, IssueCalls(issues, Context()), reconcile);
      failure := if f.Some? then Some(f.value.1) else None;
    }
  }

  /** The creation hook reduced to its effect: a new model with the given
      id and key, synchronised at once from `jira()`. */
  method CreateProject<C>(jiraId: Value, jiraKey: Value, db: Database<C>, remote: Service, cache: JiraCache.Store, now: int, reconcile: Reconciler<C>)
    returns (p: Project, r: Result<Project, Error>, cache': JiraCache.Store)
    modifies db
    ensures fresh(p)
    ensures
      var lookup := JiraCache.FindJira(cache, now, remote, JiraCache.ProjectAttributes(jiraId, jiraKey));
      var j := Snapshot(None, lookup);
      cache' == lookup.cache &&
      (j.Failure? ==> r == Failure(j.error) && db.store == old(db.store)) &&
      (j.Success? ==>
        var t := AggregateTransaction(old(db.store), None, j.value, None, reconcile);
        (r.Success? <==> t.Success?) &&
        (r.Success? ==> r.value == p && db.store == t.value) &&
        (r.Failure? ==> db.store == old(db.store)))
    ensures
      var j := Snapshot(None, JiraCache.FindJira(cache, now, remote, JiraCache.ProjectAttributes(jiraId, jiraKey)));
      (j.Failure? ==> p.Row() == ProjectRow(jiraId, jiraKey, Null, None) && p.rowId.None?) &&
      (j.Success? ==>
        p.Row() == AssignedRow(j.value, None) &&
        (Conflicts(old(db.store.projects), None, AssignedRow(j.value, None)) ==> p.rowId.None?) &&
        (!Conflicts(old(db.store.projects), None, AssignedRow(j.value, None)) ==> p.rowId == Some(old(db.store.nextId))))
  {
    p := new Project(jiraId, jiraKey);
    r, cache' := p.UpdateFromJira(db, remote, cache, now, None, reconcile);
  }
}
