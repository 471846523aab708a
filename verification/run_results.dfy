/** Where the contents of an entry come from (api_server/src/routes.rs): over every schedule, a run's task is
    that of its admission, and its report or error that of its own investigation. */
module RunResults {
  import opened Wrappers
  import opened DataStoring
  import opened ServerState
  import opened RunProtocol

  /** The last admission, return, store and stamp of a run in a schedule. */
  datatype Told = Told(admit: Option<Action>, returned: Option<Action>, store: Option<Action>, stamp: Option<Action>)

  const NOTHING_TOLD := Told(None, None, None, None)

  function Next(told: Told, a: Action, id: RunId): Told {
    if a.id != id then told
    else if a.Admit? then told.(admit := Some(a))
    else if a.Return? then told.(returned := Some(a))
    else if a.Store? then told.(store := Some(a))
    else if a.Stamp? then told.(stamp := Some(a))
    else told
  }

  function ToldBy(told: Told, actions: seq<Action>, id: RunId): Told
    decreases |actions|
  {
    if actions == [] then told else ToldBy(Next(told, actions[0], id), actions[1..], id)
  }

  /** The entry has the task, the case and the creation time of the admission. */
  predicate IsAdmitted(entry: RunEntry, admit: Option<Action>) {
    && admit.Some? && admit.value.Admit? && admit.value.id == entry.id
    && entry.task == admit.value.task && entry.caseId == admit.value.caseId && entry.createdAt == admit.value.now
  }

  predicate IsReturned(result: RunResult, returned: Option<Action>) {
    returned.Some? && returned.value.Return? && returned.value.result == result
  }

  /** A completed entry has the report of the return, a failed one its message and the time of the store. */
  predicate HasResult(entry: RunEntry, told: Told) {
    && (entry.status.Completed? ==> entry.report.Some? && IsReturned(Ok(entry.report.value), told.returned))
    && (entry.status.Failed? ==>
          && entry.error.Some? && IsReturned(Err(entry.error.value), told.returned)
          && told.store.Some? && told.store.value.Store? && entry.completedAt == Some(told.store.value.now))
  }

  predicate TaskTells(pc: TaskPc, entry: RunEntry, told: Told) {
    match pc
    case Starting | Counting | Investigating => told.returned == None && told.store == None && told.stamp == None
    case Uncounting(result) => IsReturned(result, told.returned) && told.store == None && told.stamp == None
    case Storing(result) => IsReturned(result, told.returned) && told.store == None && told.stamp == None
    case AnnouncingCompleted | Stamping => told.store.Some? && told.stamp == None
    case AnnouncingFailed => told.store.Some? && told.stamp == None
    case Done =>
      && told.store.Some? && told.returned.Some?
      && (entry.status.Completed? ==> told.stamp.Some? && told.stamp.value.Stamp? && entry.completedAt == Some(told.stamp.value.now))
    case Panicked => true
  }

  /** The state of a run says what its actions told. */
  predicate Tells(s: State, id: RunId, told: Told) {
    && (id !in s.creators ==> told == NOTHING_TOLD)
    && (id in s.creators && (s.creators[id].Admitted? || s.creators[id].Persisted?) ==> IsAdmitted(s.creators[id].entry, told.admit))
    && (id !in s.tasks ==> told.returned == None && told.store == None && told.stamp == None)
    && (id in s.runs ==> IsAdmitted(s.runs[id], told.admit) && HasResult(s.runs[id], told))
    && (id in s.tasks && id in s.runs ==> TaskTells(s.tasks[id], s.runs[id], told))
  }

  lemma CreatorStepTells(s: State, a: Action, told: Told)
    requires Enabled(s, a) && RunOk(s, a.id) && Tells(s, a.id, told)
    requires a.Admit? || a.Persist? || a.Publish? || a.Announce?
    ensures Tells(Apply(s, a), a.id, Next(told, a, a.id))
  {
    hide TablesOk, EventsOk, Pending, AfterInsert;
  }

  lemma TaskStepTells(s: State, a: Action, told: Told)
    requires Enabled(s, a) && RunOk(s, a.id) && Tells(s, a.id, told)
    requires a.Start? || a.Count? || a.Return? || a.Uncount?
    ensures Tells(Apply(s, a), a.id, Next(told, a, a.id))
  {
    hide TablesOk, EventsOk;
  }

  lemma EventStepTells(s: State, a: Action, told: Told)
    requires Enabled(s, a) && RunOk(s, a.id) && Tells(s, a.id, told)
    requires a.AnnounceCompleted? || a.AnnounceFailed? || a.Cancel? || a.AnnounceCancel?
    ensures Tells(Apply(s, a), a.id, Next(told, a, a.id))
  {
    hide TablesOk, EventsOk;
  }

  lemma StoreStepTells(s: State, a: Action, told: Told)
    requires Enabled(s, a) && RunOk(s, a.id) && Tells(s, a.id, told)
    requires a.Store?
    ensures Tells(Apply(s, a), a.id, Next(told, a, a.id))
  {
    var s' := Apply(s, a);
    StoreLeavesCreators(s, a);
    var outcome := OutcomeOfStore(s.runs, a.id, s.tasks[a.id].result);
    assert a.id in s.runs && s.runs[a.id].id == a.id && IsAdmitted(s.runs[a.id], told.admit);
    hide RunOk, Apply, AfterStore, StatusAt, FindingsOf, Emitted;
    StoreOutcomeTells(s.runs[a.id], s'.runs[a.id], s.tasks[a.id].result, outcome, a, told);
  }

  /** The entry and the task after a store, by its outcome. */
  lemma StoreLeavesCreators(s: State, a: Action)
    requires Enabled(s, a) && RunOk(s, a.id) && a.Store?
    ensures var s' := Apply(s, a);
      && a.id in s.runs && a.id in s'.runs && s'.creators == s.creators && a.id in s'.tasks
      && !(a.id in s.creators && (s.creators[a.id].Admitted? || s.creators[a.id].Persisted?)) && a.id in s.creators
      && match OutcomeOfStore(s.runs, a.id, s.tasks[a.id].result)
         case StoredReport =>
           s.tasks[a.id].result.Ok? && s'.tasks[a.id] == AnnouncingCompleted
           && s'.runs[a.id] == s.runs[a.id].(status := Completed, report := Some(s.tasks[a.id].result.report))
         case StoredError =>
           s.tasks[a.id].result.Err? && s'.tasks[a.id] == AnnouncingFailed
           && s'.runs[a.id] == s.runs[a.id].(status := Failed, error := Some(s.tasks[a.id].result.message), completedAt := Some(a.now))
         case _ => s.runs[a.id].status.Cancelled? && s'.tasks[a.id] == Done && s'.runs[a.id] == s.runs[a.id]
  {
    hide TablesOk, EventsOk, Updated, Emitted, FindingsOf;
  }

  lemma StoreOutcomeTells(before: RunEntry, after: RunEntry, result: RunResult, outcome: StoreOutcome, a: Action, told: Told)
    requires a.Store? && IsAdmitted(before, told.admit) && HasResult(before, told) && TaskTells(Storing(result), before, told)
    requires match outcome
      case StoredReport => result.Ok? && after == before.(status := Completed, report := Some(result.report))
      case StoredError =>
        result.Err? && after == before.(status := Failed, error := Some(result.message), completedAt := Some(a.now))
      case _ => before.status.Cancelled? && after == before
    ensures var now := told.(store := Some(a));
      && IsAdmitted(after, now.admit) && HasResult(after, now)
      && match outcome
         case StoredReport => TaskTells(AnnouncingCompleted, after, now)
         case StoredError => TaskTells(AnnouncingFailed, after, now)
         case _ => TaskTells(Done, after, now)
  {
  }

  lemma StampStepTells(s: State, a: Action, told: Told)
    requires Enabled(s, a) && RunOk(s, a.id) && Tells(s, a.id, told)
    requires a.Stamp?
    ensures Tells(Apply(s, a), a.id, Next(told, a, a.id))
  {
    hide TablesOk, EventsOk, Updated, Emitted, FindingsOf;
  }

  lemma StepTells(s: State, a: Action, id: RunId, told: Told)
    requires Enabled(s, a) && RunOk(s, a.id) && Tells(s, id, told)
    ensures Tells(Apply(s, a), id, Next(told, a, id))
  {
    if a.id != id {
      StepFrames(s, a, id);
      SameViewTells(s, Apply(s, a), id, told);
    } else {
      hide Apply, Tells, RunOk, Next;
      match a
      case Admit(_, _, _, _) | Persist(_, _) | Publish(_) | Announce(_) => CreatorStepTells(s, a, told);
      case Start(_) | Count(_) | Return(_, _) | Uncount(_) => TaskStepTells(s, a, told);
      case Store(_, _, _) => StoreStepTells(s, a, told);
      case Stamp(_, _, _) => StampStepTells(s, a, told);
      case AnnounceCompleted(_) | AnnounceFailed(_) | Cancel(_, _) | AnnounceCancel(_) => EventStepTells(s, a, told);
    }
  }

  lemma SameViewTells(s: State, s': State, id: RunId, told: Told)
    requires View(s', id) == View(s, id) && Tells(s, id, told)
    ensures Tells(s', id, told)
  {
    assert View(s, id).entry == View(s', id).entry && View(s, id).task == View(s', id).task;
    assert View(s, id).creator == View(s', id).creator;
  }

  // ---- whole schedules ----

  lemma {:induction false} RunTells(s: State, actions: seq<Action>, id: RunId, told: Told)
    requires Inv(s) && Runs(s, actions) && Tells(s, id, told)
    ensures Inv(After(s, actions)) && Tells(After(s, actions), id, ToldBy(told, actions, id))
    decreases |actions|
  {
    if actions != [] {
      hide Tells, Next, Apply, Enabled;
      assert RunOk(s, actions[0].id);
      StepTells(s, actions[0], id, told);
      StepKeepsInv(s, actions[0]);
      RunTells(Apply(s, actions[0]), actions[1..], id, Next(told, actions[0], id));
    }
  }

  /** What was told before stays; else it was told by an action of the run, and there was no other of its
      kind. */
  ghost predicate IsFrom(fact: Option<Action>, before: Option<Action>, actions: seq<Action>, id: RunId, kind: Action -> bool) {
    && (before.Some? ==> fact == before)
    && (before.None? && fact.Some? ==> fact.value in actions && fact.value.id == id && kind(fact.value))
    && (forall a | a in actions && a.id == id && kind(a) :: before.None? && fact == Some(a))
  }

  lemma FromNext(fact: Option<Action>, before: Option<Action>, a: Action, rest: seq<Action>, id: RunId, kind: Action -> bool)
    requires IsFrom(fact, if a.id == id && kind(a) then Some(a) else before, rest, id, kind)
    requires a.id == id && kind(a) ==> before.None?
    ensures IsFrom(fact, before, [a] + rest, id, kind)
  {
  }

  ghost predicate AllFrom(all: Told, before: Told, actions: seq<Action>, id: RunId) {
    && IsFrom(all.admit, before.admit, actions, id, (a: Action) => a.Admit?)
    && IsFrom(all.returned, before.returned, actions, id, (a: Action) => a.Return?)
    && IsFrom(all.store, before.store, actions, id, (a: Action) => a.Store?)
    && IsFrom(all.stamp, before.stamp, actions, id, (a: Action) => a.Stamp?)
  }

  lemma {:induction false} ToldOnce(s: State, actions: seq<Action>, id: RunId, told: Told)
    requires Inv(s) && Runs(s, actions) && Tells(s, id, told)
    ensures AllFrom(ToldBy(told, actions, id), told, actions, id)
    decreases |actions|
  {
    hide Apply, Enabled, Tells, RunOk, Next;
    if actions != [] {
      var a, rest := actions[0], actions[1..];
      assert RunOk(s, a.id);
      StepTells(s, a, id, told);
      StepKeepsInv(s, a);
      hide Inv;
      ToldOnce(Apply(s, a), rest, id, Next(told, a, id));
      if a.id == id {
        OnlyOnce(s, a, id, told);
      }
      assert actions == [a] + rest;
      AllFromNext(ToldBy(told, actions, id), told, a, rest, id);
    }
  }

  lemma AllFromNext(all: Told, told: Told, a: Action, rest: seq<Action>, id: RunId)
    requires AllFrom(all, Next(told, a, id), rest, id)
    requires a.id == id ==>
      && (a.Admit? ==> told.admit == None) && (a.Return? ==> told.returned == None)
      && (a.Store? ==> told.store == None) && (a.Stamp? ==> told.stamp == None)
    ensures AllFrom(all, told, [a] + rest, id)
  {
    hide IsFrom;
    FromNext(all.admit, told.admit, a, rest, id, (a: Action) => a.Admit?);
    FromNext(all.returned, told.returned, a, rest, id, (a: Action) => a.Return?);
    FromNext(all.store, told.store, a, rest, id, (a: Action) => a.Store?);
    FromNext(all.stamp, told.stamp, a, rest, id, (a: Action) => a.Stamp?);
  }

  /** An action of which the run has been told is not enabled again. */
  lemma OnlyOnce(s: State, a: Action, id: RunId, told: Told)
    requires Enabled(s, a) && RunOk(s, id) && Tells(s, id, told) && a.id == id
    ensures a.Admit? ==> told.admit == None
    ensures a.Return? ==> told.returned == None
    ensures a.Store? ==> told.store == None
    ensures a.Stamp? ==> told.stamp == None
  {
    hide TablesOk, EventsOk;
  }

  /** What a run's entry says at the end of a schedule was told by that run's own actions, and each of these
      was taken once: task, case and creation time by its admission, report or error by the return of its
      investigation, the completion time by its store if it failed, and by its stamp if it completed. */
  lemma EntriesTellTheirRun(limit: nat, hasDb: bool, stored: Tables, actions: seq<Action>, id: RunId)
    requires Runs(Init(limit, hasDb, stored), actions) && id in After(Init(limit, hasDb, stored), actions).runs
    ensures var s := After(Init(limit, hasDb, stored), actions);
            var entry := s.runs[id];
      && (exists a :: a in actions && a.Admit? && a.id == id)
      && (forall a | a in actions && a.Admit? && a.id == id ::
            entry.id == id && entry.task == a.task && entry.caseId == a.caseId && entry.createdAt == a.now)
      && (IsSettled(entry.status) ==> exists a :: a in actions && a.Return? && a.id == id)
      && (forall a | a in actions && a.Return? && a.id == id && IsSettled(entry.status) ::
            if entry.status.Completed? then entry.report.Some? && a.result == Ok(entry.report.value)
            else entry.error.Some? && a.result == Err(entry.error.value))
      && (forall a | a in actions && a.Store? && a.id == id && entry.status.Failed? :: entry.completedAt == Some(a.now))
      && (forall a | a in actions && a.Stamp? && a.id == id && entry.status.Completed? :: entry.completedAt == Some(a.now))
  {
    var init := Init(limit, hasDb, stored);
    InitInv(limit, hasDb, stored);
    assert Tells(init, id, NOTHING_TOLD);
    RunTells(init, actions, id, NOTHING_TOLD);
    ToldOnce(init, actions, id, NOTHING_TOLD);
    var told := ToldBy(NOTHING_TOLD, actions, id);
    var s := After(init, actions);
    assert RunOk(s, id);
    hide Inv, Runs, After, Init, TablesOk, EventsOk, Emitted, FindingsOf;
    assert id in s.tasks && TaskTells(s.tasks[id], s.runs[id], told);
  }

  /** The same of the row in the database, once it is that of a settled run. */
  lemma RowsTellTheirRun(limit: nat, hasDb: bool, stored: Tables, actions: seq<Action>, id: RunId)
    requires Runs(Init(limit, hasDb, stored), actions)
    requires var s := After(Init(limit, hasDb, stored), actions);
             id in s.creators && id in s.tables.runs && IsSettled(s.tables.runs[id].status)
    ensures var row := After(Init(limit, hasDb, stored), actions).tables.runs[id];
      && (forall a | a in actions && a.Admit? && a.id == id ::
            row.task == a.task && row.caseId == a.caseId && row.createdAt == a.now)
      && (exists a :: a in actions && a.Return? && a.id == id)
      && (forall a | a in actions && a.Return? && a.id == id ::
            if row.status.Completed? then row.report.Some? && a.result == Ok(row.report.value)
            else row.error.Some? && a.result == Err(row.error.value))
  {
    var init := Init(limit, hasDb, stored);
    var s := After(init, actions);
    ConstantsStay(init, actions);
    assert Reachable(s, limit, hasDb);
    hide Runs, After, Init, Reachable, KeptFindings, FindingsOf, LosesNothing, ReportFindings;
    StoredRowsAgree(s, limit, hasDb, id);
    EntriesTellTheirRun(limit, hasDb, stored, actions, id);
  }
}
