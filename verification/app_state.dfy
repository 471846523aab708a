/** The state the HTTP handlers share (api_server/src/state.rs) and the critical sections, database
    calls and audit emissions of `create_run`, `execute_run` and `cancel_run`
    (api_server/src/routes.rs). Each method is one step of the run protocol. */
module AppStates {
  import opened Wrappers
  import opened Text
  import opened DataStoring
  import opened ServerState
  import opened AuditLogging
  import opened RunProtocol

  datatype Refusal = BlankTask | LimitReached

  class AppState {
    var runs: RunMap
    var activeRunCount: nat
    const maxConcurrentRuns: nat
    const db: DataStore?
    const audit: AuditLog
    /** The protocol's view: the fields above, and where every handler and task stands. */
    ghost var model: State

    ghost predicate Valid()
      reads this, db, audit
    {
      && runs == model.runs && activeRunCount == model.active && maxConcurrentRuns == model.limit
      && model.hasDb == (db != null) && (db != null ==> db.Contents() == model.tables)
      && audit.Valid() && audit.maxBuffer >= 1 && audit.history == model.log
      && Inv(model)
    }

    constructor (maxConcurrentRuns: nat, db: DataStore?, audit: AuditLog)
      requires audit.Valid() && audit.maxBuffer >= 1 && audit.history == []
      ensures Valid() && model == Init(maxConcurrentRuns, db != null, if db == null then NO_ROWS else db.Contents())
      ensures this.db == db && this.audit == audit
    {
      ghost var stored := if db == null then NO_ROWS else db.Contents();
      InitInv(maxConcurrentRuns, db != null, stored);
      this.runs, this.activeRunCount := map[], 0;
      this.maxConcurrentRuns, this.db, this.audit := maxConcurrentRuns, db, audit;
      this.model := Init(maxConcurrentRuns, db != null, stored);
    }

    // ---- create_run ----

    /** The checks before a run is made, under the counter's lock. `id` is a fresh identifier. The entry
        is made, and the run admitted, exactly when the protocol can take the step. */
    method Admit(body: string, caseId: Option<nat>, id: RunId, now: string) returns (r: Result<RunEntry, Refusal>)
      requires Valid() && IsFresh(model, id)
      modifies this`model
      ensures Valid()
      ensures var step := Action.Admit(id, Trim(body), caseId, now);
        && (r.Success? <==> Enabled(old(model), step))
        && (r.Success? ==> model == Apply(old(model), step) && AtCreator(id, Admitted(r.value)))
        && (r.Failure? ==> model == old(model) && (r.error.BlankTask? <==> Trim(body) == ""))
    {
      var task := Trim(body);
      if task == "" {
        return Failure(BlankTask);
      }
      if activeRunCount >= maxConcurrentRuns {
        return Failure(LimitReached);
      }
      r := Success(RunEntry(id, task, Queued, None, None, now, None, caseId));
      Advance(Action.Admit(id, task, caseId, now));
    }

    ghost predicate AtCreator(id: RunId, pc: CreatorPc)
      reads this
    {
      id in model.creators && model.creators[id] == pc
    }

    /** The model takes a step. */
    ghost method Advance(a: Action)
      requires Inv(model) && Enabled(model, a)
      modifies this`model
      ensures model == Apply(old(model), a) && Inv(model)
    {
      StepKeepsInv(model, a);
      model := Apply(model, a);
    }

    /** The insert, whose error is dropped. */
    method Persist(entry: RunEntry, fault: Fault)
      requires Valid() && AtCreator(entry.id, Admitted(entry))
      modifies this`model, db
      ensures Valid() && model == Apply(old(model), Action.Persist(entry.id, fault)) && AtCreator(entry.id, Persisted(entry))
    {
      hide Inv;
      if db != null {
        var _ := db.InsertRun(entry, fault);
      }
      Advance(Action.Persist(entry.id, fault));
    }

    /** The insertion into the run map, after which the task is spawned. */
    method Publish(entry: RunEntry)
      requires Valid() && AtCreator(entry.id, Persisted(entry))
      modifies this`runs, this`model
      ensures Valid() && model == Apply(old(model), Action.Publish(entry.id))
      ensures AtCreator(entry.id, Published) && AtTask(model, entry.id, Starting) && runs == old(runs)[entry.id := entry]
    {
      hide Inv;
      runs := runs[entry.id := entry];
      Advance(Action.Publish(entry.id));
    }

    // ---- execute_run ----

    /** First section: the status is overwritten whatever it was. */
    method MarkRunning(id: RunId)
      requires Valid() && AtTask(model, id, Starting)
      modifies this`runs, this`model
      ensures Valid() && model == Apply(old(model), Start(id))
    {
      hide Inv;
      if id in runs {
        runs := runs[id := runs[id].(status := Running)];
      }
      Advance(Start(id));
    }

    method IncrementActive(id: RunId)
      requires Valid() && AtTask(model, id, Counting)
      modifies this`activeRunCount, this`model
      ensures Valid() && model == Apply(old(model), Count(id))
    {
      hide Inv;
      activeRunCount := activeRunCount + 1;
      Advance(Count(id));
    }

    /** The saturating decrement, which never saturates. */
    method DecrementActive(id: RunId)
      requires Valid() && id in model.tasks && model.tasks[id].Uncounting?
      modifies this`activeRunCount, this`model
      ensures Valid() && model == Apply(old(model), Uncount(id))
      ensures activeRunCount == old(activeRunCount) - 1
    {
      assert id in Counted(model) && activeRunCount == |Counted(model)|;
      hide Inv;
      if activeRunCount > 0 {
        activeRunCount := activeRunCount - 1;
      }
      Advance(Uncount(id));
    }

    /** Stores the result unless the run was cancelled; a failure also goes to the database in this
        section. */
    method StoreResult(id: RunId, result: RunResult, now: string, fault: Fault) returns (outcome: StoreOutcome)
      requires Valid() && AtTask(model, id, Storing(result))
      modifies this`runs, this`model, db
      ensures Valid() && model == Apply(old(model), Store(id, now, fault))
      ensures outcome == OutcomeOfStore(old(runs), id, result) && !outcome.NoEntry? && id in runs
      ensures outcome.StoredReport? ==>
        && result.Ok? && runs[id] == old(runs)[id].(status := Completed, report := Some(result.report))
        && AtTask(model, id, AnnouncingCompleted)
      ensures outcome.StoredError? ==>
        && result.Err? && runs[id] == old(runs)[id].(status := Failed, error := Some(result.message), completedAt := Some(now))
        && AtTask(model, id, AnnouncingFailed)
    {
      RunIsThere(id);
      hide Inv;
      var entry := runs[id];
      if entry.status == Cancelled {
        outcome := KeptCancelled;
      } else {
        match result {
          case Ok(report) =>
            runs := runs[id := entry.(status := Completed, report := Some(report))];
            outcome := StoredReport;
          case Err(message) =>
            runs := runs[id := entry.(status := Failed, error := Some(message), completedAt := Some(now))];
            if db != null {
              var _ := db.UpdateRun(runs[id], fault);
            }
            outcome := StoredError;
        }
      }
      Advance(Store(id, now, fault));
    }

    /** A run whose task exists is in the map, under its own identifier. */
    lemma RunIsThere(id: RunId)
      requires Valid() && id in model.tasks
      ensures id in runs && runs[id].id == id
    {
      assert RunOk(model, id);
    }

    /** The last section of a completed run. The source unwraps its lookup, which cannot fail. */
    method StampCompletion(id: RunId, now: string, fault: Fault)
      requires Valid() && AtTask(model, id, Stamping)
      modifies this`runs, this`model, db
      ensures Valid() && model == Apply(old(model), Stamp(id, now, fault)) && AtTask(model, id, Done)
      ensures id in old(runs) && runs == Stamped(old(runs), id, now)
    {
      RunIsThere(id);
      hide Inv;
      runs := runs[id := runs[id].(completedAt := Some(now))];
      if db != null {
        var _ := db.UpdateRun(runs[id], fault);
      }
      Advance(Stamp(id, now, fault));
    }

    // ---- cancel_run ----

    /** `None` is the not-found response. A cancel request whose run was active still has its event to
        emit. */
    method Cancel(id: RunId, now: string) returns (answer: Option<RunEntry>, wasActive: bool)
      requires Valid()
      modifies this`runs, this`model
      ensures Valid()
      ensures model == if id in old(runs) then Apply(old(model), Action.Cancel(id, now)) else old(model)
      ensures answer == if id in old(runs) then Some(runs[id]) else None
      ensures wasActive <==> id in old(runs) && IsActive(old(runs)[id].status)
      ensures wasActive ==> CancellingOf(model, id) > 0
    {
      hide Inv;
      if id !in runs {
        return None, false;
      }
      wasActive := runs[id].status == Queued || runs[id].status == Running;
      if wasActive {
        runs := runs[id := runs[id].(status := Cancelled, completedAt := Some(now))];
      }
      answer := Some(runs[id]);
      Advance(Action.Cancel(id, now));
    }

    // ---- audit events ----

    /** The event a process still has to emit. */
    function EventOf(a: Action): AuditEventKind
      requires a.Announce? || a.AnnounceCompleted? || a.AnnounceFailed? || a.AnnounceCancel?
    {
      if a.Announce? then RunCreated else if a.AnnounceCompleted? then RunCompleted
      else if a.AnnounceFailed? then RunFailed else RunCancelled
    }

    method Announce(a: Action, written: bool)
      requires Valid() && Enabled(model, a)
      requires a.Announce? || a.AnnounceCompleted? || a.AnnounceFailed? || a.AnnounceCancel?
      modifies this`model, audit
      ensures Valid() && model == Apply(old(model), a)
      ensures audit.history == old(audit.history) + [AuditEvent(EventOf(a), a.id)]
      ensures a.Announce? ==> model.tasks == old(model.tasks)
      ensures a.AnnounceCompleted? ==> AtTask(model, a.id, Stamping)
      ensures a.AnnounceFailed? ==> AtTask(model, a.id, Done)
    {
      hide Inv;
      audit.Emit(AuditEvent(EventOf(a), a.id), written);
      Advance(a);
    }

    // ---- the handlers, when nothing comes between their sections ----

    method CreateRun(body: string, caseId: Option<nat>, id: RunId, now: string, fault: Fault, written: bool)
      returns (r: Result<RunEntry, Refusal>)
      requires Valid() && IsFresh(model, id)
      modifies this, db, audit
      ensures Valid()
      ensures r.Success? <==> Trim(body) != "" && old(activeRunCount) < maxConcurrentRuns
      ensures r.Success? ==>
        && AtTask(model, id, Starting) && runs == old(runs)[id := r.value] && r.value == NewEntry(id, Trim(body), caseId, now)
        && audit.history == old(audit.history) + [AuditEvent(RunCreated, id)]
      ensures r.Failure? ==> model == old(model)
    {
      r := Admit(body, caseId, id, now);
      hide Inv, Apply;
      if r.Success? {
        Persist(r.value, fault);
        Publish(r.value);
        Announce(Action.Announce(id), written);
      }
    }

    /** Even a run cancelled before its start is executed and settled; every execution gives its place
        in the counter back. */
    method ExecuteRun(id: RunId, result: RunResult, now: string, later: string, fault: Fault, written: bool)
      requires Valid() && AtTask(model, id, Starting)
      modifies this, db, audit
      ensures Valid() && AtTask(model, id, Done) && activeRunCount == old(activeRunCount)
      ensures id in runs && IsSettledWith(runs[id], result, now, later)
      ensures audit.history == old(audit.history) + [AuditEvent(if result.Ok? then RunCompleted else RunFailed, id)]
    {
      RunIsThere(id);
      hide Inv, Apply;
      Investigate(id, result);
      SettleRun(id, result, now, later, fault, written);
    }

    /** The sections up to the return of the investigation, and the decrement after it. */
    method Investigate(id: RunId, result: RunResult)
      requires Valid() && AtTask(model, id, Starting) && id in runs
      modifies this
      ensures Valid() && AtTask(model, id, Storing(result)) && activeRunCount == old(activeRunCount)
      ensures runs == old(runs)[id := old(runs)[id].(status := Running)]
    {
      hide Inv;
      StartAndCount(id);
      Advance(Return(id, result));
      DecrementActive(id);
    }

    lemma NoResultYet(id: RunId)
      requires Valid() && id in runs && !IsSettled(runs[id].status)
      ensures runs[id].report == None && runs[id].error == None
    {
      assert RunOk(model, id);
    }

    /** What is served of a run that has been executed. */
    predicate IsSettledWith(entry: RunEntry, result: RunResult, now: string, later: string) {
      match result
      case Ok(report) => entry.status == Completed && entry.report == Some(report) && entry.error == None && entry.completedAt == Some(later)
      case Err(message) => entry.status == Failed && entry.error == Some(message) && entry.report == None && entry.completedAt == Some(now)
    }

    method StartAndCount(id: RunId)
      requires Valid() && AtTask(model, id, Starting) && id in runs
      modifies this
      ensures Valid() && AtTask(model, id, Investigating) && activeRunCount == old(activeRunCount) + 1
      ensures runs == old(runs)[id := old(runs)[id].(status := Running)]
    {
      MarkRunning(id);
      hide Inv;
      IncrementActive(id);
    }

    /** The sections after the investigation. */
    method SettleRun(id: RunId, result: RunResult, now: string, later: string, fault: Fault, written: bool)
      requires Valid() && AtTask(model, id, Storing(result)) && id in runs && runs[id].status.Running?
      modifies this, db, audit
      ensures Valid() && AtTask(model, id, Done) && activeRunCount == old(activeRunCount)
      ensures id in runs && IsSettledWith(runs[id], result, now, later)
      ensures audit.history == old(audit.history) + [AuditEvent(if result.Ok? then RunCompleted else RunFailed, id)]
    {
      NoResultYet(id);
      hide Inv, Apply, ResultMatchesStatus;
      var outcome := StoreResult(id, result, now, fault);
      match outcome {
        case StoredReport =>
          Announce(AnnounceCompleted(id), written);
          StampCompletion(id, later, fault);
        case StoredError =>
          Announce(AnnounceFailed(id), written);
      }
    }
  }
}
