/** All interleavings of `create_run`, `execute_run` and `cancel_run` (api_server/src/routes.rs).
    A step is one critical section, one database call or one audit emission. Database calls may
    fail at any SQL statement. `run_investigation` is taken to return. */
module RunProtocol {
  import opened Wrappers
  import opened DataStoring
  import opened ServerState
  import opened AuditLogging

  /** Where the request handler that creates a run stands. */
  datatype CreatorPc = Admitted(entry: RunEntry) | Persisted(entry: RunEntry) | Published | Announced

  /** Where the background task of a run stands. */
  datatype TaskPc =
    | Starting | Counting | Investigating | Uncounting(result: RunResult) | Storing(result: RunResult)
    | AnnouncingCompleted | Stamping | AnnouncingFailed | Done | Panicked

  /** `cancelling[id]` counts cancel requests that still have to emit their event. Four fields are
      history: runs cancelled before their start step, admissions granted while the limit was already
      taken, and which statement failed, if any, in each run's insert and in its update. The last three
      are constants; `stored` is what the database held when the process opened it. */
  datatype State = State(
    runs: RunMap, active: nat, tables: Tables, log: seq<AuditEvent>,
    creators: map<RunId, CreatorPc>, tasks: map<RunId, TaskPc>, cancelling: map<RunId, nat>,
    early: set<RunId>, late: nat, inserts: map<RunId, Fault>, updates: map<RunId, Fault>,
    limit: nat, hasDb: bool, stored: Tables)

  datatype Action =
    | Admit(id: RunId, task: string, caseId: Option<nat>, now: string)
    | Persist(id: RunId, fault: Fault)
    | Publish(id: RunId)
    | Announce(id: RunId)
    | Start(id: RunId)
    | Count(id: RunId)
    | Return(id: RunId, result: RunResult)
    | Uncount(id: RunId)
    | Store(id: RunId, now: string, fault: Fault)
    | AnnounceCompleted(id: RunId)
    | Stamp(id: RunId, now: string, fault: Fault)
    | AnnounceFailed(id: RunId)
    | Cancel(id: RunId, now: string)
    | AnnounceCancel(id: RunId)

  const NO_ROWS := Tables(map[], map[])

  function Init(limit: nat, hasDb: bool, stored: Tables): State {
    State(map[], 0, stored, [], map[], map[], map[], {}, 0, map[], map[], limit, hasDb, stored)
  }

  function NewEntry(id: RunId, task: string, caseId: Option<nat>, now: string): RunEntry {
    RunEntry(id, task, Queued, None, None, now, None, caseId)
  }

  function CancellingOf(s: State, id: RunId): nat {
    if id in s.cancelling then s.cancelling[id] else 0
  }

  predicate AtTask(s: State, id: RunId, pc: TaskPc) {
    id in s.tasks && s.tasks[id] == pc
  }

  /** Not used in this process, and not in the database it opened. */
  predicate IsFresh(s: State, id: RunId) {
    id !in s.creators && id !in s.stored.runs && FindingsOf(s.stored, id) == []
  }

  /** Fresh identifiers for `Admit`; every other step needs its process to stand at it. A cancel
      request for an unknown run changes nothing and is not a step. */
  predicate Enabled(s: State, a: Action) {
    match a
    case Admit(id, task, _, _) => IsFresh(s, id) && task != "" && s.active < s.limit
    case Persist(id, _) => id in s.creators && s.creators[id].Admitted?
    case Publish(id) => id in s.creators && s.creators[id].Persisted?
    case Announce(id) => id in s.creators && s.creators[id].Published?
    case Start(id) => AtTask(s, id, Starting)
    case Count(id) => AtTask(s, id, Counting)
    case Return(id, _) => AtTask(s, id, Investigating)
    case Uncount(id) => id in s.tasks && s.tasks[id].Uncounting?
    case Store(id, _, _) => id in s.tasks && s.tasks[id].Storing?
    case AnnounceCompleted(id) => AtTask(s, id, AnnouncingCompleted)
    case Stamp(id, _, _) => AtTask(s, id, Stamping)
    case AnnounceFailed(id) => AtTask(s, id, AnnouncingFailed)
    case Cancel(id, _) => id in s.runs
    case AnnounceCancel(id) => CancellingOf(s, id) > 0
  }

  function Updated(s: State, entry: RunEntry, fault: Fault): (s': State)
    ensures s' == s.(tables := s'.tables, updates := s'.updates)
  {
    if !s.hasDb then s
    else s.(tables := AfterUpdate(s.tables, entry, fault), updates := s.updates[entry.id := fault])
  }

  function AfterAdmit(s: State, id: RunId, task: string, caseId: Option<nat>, now: string): State {
    s.(creators := s.creators[id := Admitted(NewEntry(id, task, caseId, now))],
       late := if |Pending(s)| + s.active >= s.limit then s.late + 1 else s.late)
  }

  function AfterPersist(s: State, id: RunId, fault: Fault): State
    requires Enabled(s, Persist(id, fault))
  {
    var entry := s.creators[id].entry;
    var s' := s.(creators := s.creators[id := Persisted(entry)]);
    if !s.hasDb then s'
    else s'.(tables := AfterInsert(s.tables, entry, fault), inserts := s.inserts[id := fault])
  }

  function AfterStart(s: State, id: RunId): State {
    s.(runs := MarkedRunning(s.runs, id), tasks := s.tasks[id := Counting],
       early := if id in s.runs && s.runs[id].status.Cancelled? then s.early + {id} else s.early)
  }

  function AfterStoreStep(s: State, id: RunId, now: string, fault: Fault): State
    requires Enabled(s, Store(id, now, fault))
  {
    var result := s.tasks[id].result;
    var s' := s.(runs := AfterStore(s.runs, id, result, now));
    match OutcomeOfStore(s.runs, id, result)
    case StoredReport => s'.(tasks := s.tasks[id := AnnouncingCompleted])
    case StoredError => Updated(s'.(tasks := s.tasks[id := AnnouncingFailed]), s'.runs[id], fault)
    case _ => s'.(tasks := s.tasks[id := Done])
  }

  function AfterStamp(s: State, id: RunId, now: string, fault: Fault): State {
    if id !in s.runs then s.(tasks := s.tasks[id := Panicked])
    else
      var s' := s.(runs := Stamped(s.runs, id, now), tasks := s.tasks[id := Done]);
      Updated(s', s'.runs[id], fault)
  }

  function AfterCancelStep(s: State, id: RunId, now: string): State
    requires id in s.runs
  {
    s.(runs := AfterCancel(s.runs, id, now),
       cancelling := if IsActive(s.runs[id].status) then s.cancelling[id := CancellingOf(s, id) + 1] else s.cancelling)
  }

  function Logged(s: State, kind: AuditEventKind, id: RunId): State {
    s.(log := s.log + [AuditEvent(kind, id)])
  }

  function At(s: State, id: RunId, pc: TaskPc): State {
    s.(tasks := s.tasks[id := pc])
  }

  function Apply(s: State, a: Action): State
    requires Enabled(s, a)
  {
    match a
    case Admit(id, task, caseId, now) => AfterAdmit(s, id, task, caseId, now)
    case Persist(id, fault) => AfterPersist(s, id, fault)
    case Publish(id) =>
      At(s, id, Starting).(runs := s.runs[id := s.creators[id].entry], creators := s.creators[id := Published])
    case Announce(id) => Logged(s, RunCreated, id).(creators := s.creators[id := Announced])
    case Start(id) => AfterStart(s, id)
    case Count(id) => At(s, id, Investigating).(active := s.active + 1)
    case Return(id, result) => At(s, id, Uncounting(result))
    case Uncount(id) => At(s, id, Storing(s.tasks[id].result)).(active := if s.active == 0 then 0 else s.active - 1)
    case Store(id, now, fault) => AfterStoreStep(s, id, now, fault)
    case AnnounceCompleted(id) => At(Logged(s, RunCompleted, id), id, Stamping)
    case Stamp(id, now, fault) => AfterStamp(s, id, now, fault)
    case AnnounceFailed(id) => At(Logged(s, RunFailed, id), id, Done)
    case Cancel(id, now) => AfterCancelStep(s, id, now)
    case AnnounceCancel(id) =>
      Logged(s, RunCancelled, id).(cancelling := s.cancelling[id := CancellingOf(s, id) - 1])
  }

  // ---- the two populations the concurrency limit speaks about ----

  predicate IsCounted(pc: TaskPc) {
    pc.Investigating? || pc.Uncounting?
  }

  predicate NotYetCounted(pc: TaskPc) {
    pc.Starting? || pc.Counting?
  }

  /** Tasks between the increment and the decrement of the counter. */
  function Counted(s: State): set<RunId> {
    set id | id in s.tasks && IsCounted(s.tasks[id])
  }

  /** Runs admitted by the limit check and not counted yet. */
  function Pending(s: State): set<RunId> {
    set id | id in s.creators && (id in s.tasks ==> NotYetCounted(s.tasks[id]))
  }

  // ---- the invariant, one run at a time ----

  /** Everything in the state that concerns one run. */
  datatype RunView = RunView(
    entry: Option<RunEntry>, creator: Option<CreatorPc>, task: Option<TaskPc>,
    row: Option<RunEntry>, findings: seq<FindingRow>,
    cancelling: nat, early: bool, inserted: Option<Fault>, updated: Option<Fault>, hasDb: bool,
    stored: Option<RunEntry>, storedFindings: seq<FindingRow>,
    created: nat, completed: nat, failed: nat, cancelled: nat)

  function Get<K, V>(m: map<K, V>, k: K): Option<V> {
    if k in m then Some(m[k]) else None
  }

  function Emitted(s: State, kind: AuditEventKind, id: RunId): nat {
    multiset(s.log)[AuditEvent(kind, id)]
  }

  function View(s: State, id: RunId): RunView {
    RunView(Get(s.runs, id), Get(s.creators, id), Get(s.tasks, id),
            Get(s.tables.runs, id), FindingsOf(s.tables, id),
            CancellingOf(s, id), id in s.early, Get(s.inserts, id), Get(s.updates, id), s.hasDb,
            Get(s.stored.runs, id), FindingsOf(s.stored, id),
            Emitted(s, RunCreated, id), Emitted(s, RunCompleted, id),
            Emitted(s, RunFailed, id), Emitted(s, RunCancelled, id))
  }

  function Initial(entry: RunEntry): RunEntry {
    entry.(status := Queued, report := None, error := None, completedAt := None)
  }

  predicate IsSettled(status: RunStatus) {
    status.Completed? || status.Failed?
  }

  /** A report exactly when completed, an error exactly when failed. */
  predicate ResultMatchesStatus(entry: RunEntry) {
    && (entry.report.Some? <==> entry.status.Completed?)
    && (entry.error.Some? <==> entry.status.Failed?)
  }

  predicate StatusAt(pc: TaskPc, status: RunStatus) {
    match pc
    case Starting => status.Queued? || status.Cancelled?
    case Counting | Investigating | Uncounting(_) | Storing(_) => status.Running? || status.Cancelled?
    case AnnouncingCompleted | Stamping => status.Completed?
    case AnnouncingFailed => status.Failed?
    case Done => IsSettled(status) || status.Cancelled?
    case Panicked => false
  }

  predicate ProgressOk(v: RunView, id: RunId) {
    && (v.task.Some? <==> v.entry.Some?)
    && (v.task.Some? <==> v.creator.Some? && (v.creator.value.Published? || v.creator.value.Announced?))
    && (v.creator.Some? && (v.creator.value.Admitted? || v.creator.value.Persisted?) ==>
          v.creator.value.entry.id == id && v.creator.value.entry == Initial(v.creator.value.entry))
    && (v.entry.Some? ==>
          && v.entry.value.id == id
          && StatusAt(v.task.value, v.entry.value.status)
          && ResultMatchesStatus(v.entry.value))
    && (v.early ==> v.task.Some? && !v.task.value.Starting?)
    && (v.entry.None? ==> v.cancelling == 0)
  }

  /** Has the database call that ends a settled run been made? */
  predicate WasUpdated(v: RunView) {
    && v.task.Some? && (v.task.value.AnnouncingFailed? || v.task.value.Done?)
    && v.entry.Some? && IsSettled(v.entry.value.status)
  }

  /** The row as it was first inserted. */
  predicate RowIsOriginal(v: RunView) {
    && v.row.Some? && v.findings == []
    && (if v.entry.Some? then v.row.value == Initial(v.entry.value) else v.creator == Some(Persisted(v.row.value)))
  }

  /** The row of a settled run, with the findings that the failing statement left. */
  predicate RowIsFinal(v: RunView) {
    && v.row.Some? && v.row == v.entry && v.updated.Some?
    && v.findings == KeptFindings(ReportFindings(v.entry.value), v.updated.value)
  }

  predicate TablesOk(v: RunView) {
    && (v.inserted.Some? <==> v.hasDb && v.creator.Some? && !v.creator.value.Admitted?)
    && (v.updated.Some? <==> v.hasDb && WasUpdated(v))
    && (v.creator.None? ==> v.row == v.stored && v.findings == v.storedFindings)
    && (v.creator.Some? ==>
          && v.stored.None? && v.storedFindings == []
          && (v.row.Some? <==> v.inserted.Some? && v.inserted.value != Some(0))
          && (v.row.None? ==> v.findings == [])
          && (v.row.Some? ==> if v.updated.Some? && v.updated.value != Some(0) then RowIsFinal(v) else RowIsOriginal(v)))
  }

  function Bit(b: bool): nat {
    if b then 1 else 0
  }

  predicate EventsOk(v: RunView) {
    && v.cancelled + v.cancelling
       == Bit(v.early) + Bit(v.entry.Some? && v.entry.value.status.Cancelled?)
    && v.completed
       == Bit(v.entry.Some? && v.entry.value.status.Completed? && v.task != Some(AnnouncingCompleted))
    && v.failed
       == Bit(v.entry.Some? && v.entry.value.status.Failed? && v.task != Some(AnnouncingFailed))
    && v.created == Bit(v.creator == Some(Announced))
  }

  predicate ViewOk(v: RunView, id: RunId) {
    ProgressOk(v, id) && TablesOk(v) && EventsOk(v)
  }

  predicate RunOk(s: State, id: RunId) {
    ViewOk(View(s, id), id)
  }

  predicate CountersOk(s: State) {
    && s.active == |Counted(s)|
    && |Pending(s)| + s.active <= s.limit + s.late
  }

  ghost predicate Inv(s: State) {
    (forall id: RunId :: RunOk(s, id)) && CountersOk(s)
  }

  // ---- preservation ----

  predicate PendingAt(s: State, id: RunId) {
    id in s.creators && (id in s.tasks ==> NotYetCounted(s.tasks[id]))
  }

  predicate CountedAt(s: State, id: RunId) {
    id in s.tasks && IsCounted(s.tasks[id])
  }

  /** Which populations a step moves its run between. */
  predicate Moves(s: State, a: Action, s': State) {
    && PendingAt(s', a.id) == (a.Admit? || (PendingAt(s, a.id) && !a.Count?))
    && CountedAt(s', a.id) == (a.Count? || (CountedAt(s, a.id) && !a.Uncount?))
    && (a.Admit? ==> !PendingAt(s, a.id))
    && (a.Count? ==> PendingAt(s, a.id) && !CountedAt(s, a.id))
    && (a.Uncount? ==> CountedAt(s, a.id))
  }

  lemma SameLog(s: State, s': State)
    requires s'.log == s.log
    ensures forall kind, id :: Emitted(s', kind, id) == Emitted(s, kind, id)
  {
  }

  lemma LogGrows(s: State, kind: AuditEventKind, id: RunId)
    ensures forall k, i :: Emitted(Logged(s, kind, id), k, i) == Emitted(s, k, i) + Bit(k == kind && i == id)
  {
  }

  /** What an update of a run's row does to the tables part of its view. */
  lemma UpdateOfRow(s: State, entry: RunEntry, fault: Fault)
    requires FindingsOf(s.tables, entry.id) == []
    ensures var t := AfterUpdate(s.tables, entry, fault);
      && Get(t.runs, entry.id)
         == (if entry.id !in s.tables.runs || fault == Some(0) then Get(s.tables.runs, entry.id)
             else Some(Overwrite(s.tables.runs[entry.id], entry)))
      && FindingsOf(t, entry.id)
         == if entry.id in s.tables.runs then KeptFindings(ReportFindings(entry), fault) else []
  {
    hide AfterUpdate, KeptFindings;
    if entry.id in s.tables.runs {
      UpdatedFindings(s.tables, entry, fault);
    } else {
      UpdateWithoutRow(s.tables, entry, fault);
    }
  }

  lemma CreationKeepsRun(s: State, a: Action)
    requires a.Admit? || a.Persist? || a.Publish?
    requires Enabled(s, a) && RunOk(s, a.id)
    ensures RunOk(Apply(s, a), a.id) && Moves(s, a, Apply(s, a))
  {
  }

  lemma AnnounceKeepsRun(s: State, a: Action)
    requires a.Announce?
    requires Enabled(s, a) && RunOk(s, a.id)
    ensures RunOk(Apply(s, a), a.id) && Moves(s, a, Apply(s, a))
  {
    hide KeptFindings, FindingsOf;
  }

  lemma AnnounceCompletedKeepsRun(s: State, a: Action)
    requires a.AnnounceCompleted?
    requires Enabled(s, a) && RunOk(s, a.id)
    ensures RunOk(Apply(s, a), a.id) && Moves(s, a, Apply(s, a))
  {
    hide Emitted, KeptFindings, FindingsOf;
    LogGrows(s, RunCompleted, a.id);
    SameLog(Logged(s, RunCompleted, a.id), Apply(s, a));
  }

  lemma AnnounceFailedKeepsRun(s: State, a: Action)
    requires a.AnnounceFailed?
    requires Enabled(s, a) && RunOk(s, a.id)
    ensures RunOk(Apply(s, a), a.id) && Moves(s, a, Apply(s, a))
  {
    hide Emitted, KeptFindings, FindingsOf;
    LogGrows(s, RunFailed, a.id);
    SameLog(Logged(s, RunFailed, a.id), Apply(s, a));
  }

  lemma AnnounceCancelKeepsRun(s: State, a: Action)
    requires a.AnnounceCancel?
    requires Enabled(s, a) && RunOk(s, a.id)
    ensures RunOk(Apply(s, a), a.id) && Moves(s, a, Apply(s, a))
  {
  }

  lemma StartKeepsRun(s: State, a: Action)
    requires a.Start? || a.Count?
    requires Enabled(s, a) && RunOk(s, a.id)
    ensures RunOk(Apply(s, a), a.id) && Moves(s, a, Apply(s, a))
  {
  }

  lemma ReturnKeepsRun(s: State, a: Action)
    requires a.Return? || a.Uncount?
    requires Enabled(s, a) && RunOk(s, a.id)
    ensures RunOk(Apply(s, a), a.id) && Moves(s, a, Apply(s, a))
  {
    hide KeptFindings, FindingsOf;
  }

  lemma CancellationKeepsRun(s: State, a: Action)
    requires a.Cancel?
    requires Enabled(s, a) && RunOk(s, a.id)
    ensures RunOk(Apply(s, a), a.id) && Moves(s, a, Apply(s, a))
  {
    hide KeptFindings, FindingsOf;
  }

  lemma StoreReportKeepsRun(s: State, a: Action)
    requires a.Store?
    requires Enabled(s, a) && RunOk(s, a.id)
    requires OutcomeOfStore(s.runs, a.id, s.tasks[a.id].result).StoredReport?
    ensures RunOk(Apply(s, a), a.id) && Moves(s, a, Apply(s, a))
  {
    hide Emitted, KeptFindings, AfterUpdate;
    SameLog(s, Apply(s, a));
  }

  lemma StoreErrorKeepsRun(s: State, a: Action)
    requires a.Store?
    requires Enabled(s, a) && RunOk(s, a.id)
    requires OutcomeOfStore(s.runs, a.id, s.tasks[a.id].result).StoredError?
    ensures RunOk(Apply(s, a), a.id) && Moves(s, a, Apply(s, a))
  {
    hide Emitted, KeptFindings, AfterUpdate;
    SameLog(s, Apply(s, a));
    UpdateOfRow(s, AfterStore(s.runs, a.id, s.tasks[a.id].result, a.now)[a.id], a.fault);
    assert KeptFindings([], a.fault) == [];
  }

  lemma StoreNothingKeepsRun(s: State, a: Action)
    requires a.Store?
    requires Enabled(s, a) && RunOk(s, a.id)
    requires var o := OutcomeOfStore(s.runs, a.id, s.tasks[a.id].result); o.NoEntry? || o.KeptCancelled?
    ensures RunOk(Apply(s, a), a.id) && Moves(s, a, Apply(s, a))
  {
  }

  lemma StampKeepsRun(s: State, a: Action)
    requires a.Stamp?
    requires Enabled(s, a) && RunOk(s, a.id)
    ensures RunOk(Apply(s, a), a.id) && Moves(s, a, Apply(s, a))
  {
    hide Emitted, KeptFindings, AfterUpdate;
    SameLog(s, Apply(s, a));
    UpdateOfRow(s, Stamped(s.runs, a.id, a.now)[a.id], a.fault);
  }

  lemma CreatorStepFrames(s: State, a: Action, id: RunId)
    requires a.Admit? || a.Persist? || a.Publish? || a.Announce?
    requires Enabled(s, a) && RunOk(s, a.id) && id != a.id
    ensures View(Apply(s, a), id) == View(s, id)
  {
    hide TablesOk, EventsOk;
  }

  lemma TaskStepFrames(s: State, a: Action, id: RunId)
    requires a.Start? || a.Count? || a.Return? || a.Uncount?
    requires Enabled(s, a) && RunOk(s, a.id) && id != a.id
    ensures View(Apply(s, a), id) == View(s, id)
  {
    hide ViewOk;
  }

  lemma EmissionStepFrames(s: State, a: Action, id: RunId)
    requires a.AnnounceCompleted? || a.AnnounceFailed?
    requires Enabled(s, a) && RunOk(s, a.id) && id != a.id
    ensures View(Apply(s, a), id) == View(s, id)
  {
    hide ViewOk;
  }

  lemma CancelStepFrames(s: State, a: Action, id: RunId)
    requires a.AnnounceCancel? || a.Cancel?
    requires Enabled(s, a) && RunOk(s, a.id) && id != a.id
    ensures View(Apply(s, a), id) == View(s, id)
  {
    hide ViewOk;
  }

  lemma StoreErrorStepFrames(s: State, a: Action, id: RunId)
    requires a.Store?
    requires Enabled(s, a) && RunOk(s, a.id) && id != a.id
    requires OutcomeOfStore(s.runs, a.id, s.tasks[a.id].result).StoredError?
    ensures View(Apply(s, a), id) == View(s, id)
  {
    hide Emitted, AfterUpdate, TablesOk, EventsOk;
    SameLog(s, Apply(s, a));
    UpdateFrames(s.tables, AfterStore(s.runs, a.id, s.tasks[a.id].result, a.now)[a.id], a.fault, id);
  }

  lemma StoreOtherStepFrames(s: State, a: Action, id: RunId)
    requires a.Store?
    requires Enabled(s, a) && RunOk(s, a.id) && id != a.id
    requires !OutcomeOfStore(s.runs, a.id, s.tasks[a.id].result).StoredError?
    ensures View(Apply(s, a), id) == View(s, id)
  {
    hide Emitted, AfterUpdate, FindingsOf, TablesOk, EventsOk;
    SameLog(s, Apply(s, a));
  }

  lemma StampStepFrames(s: State, a: Action, id: RunId)
    requires a.Stamp?
    requires Enabled(s, a) && RunOk(s, a.id) && id != a.id
    ensures View(Apply(s, a), id) == View(s, id)
  {
    hide Emitted, AfterUpdate;
    SameLog(s, Apply(s, a));
    hide TablesOk, EventsOk;
    if a.id in s.runs {
      UpdateFrames(s.tables, Stamped(s.runs, a.id, a.now)[a.id], a.fault, id);
    }
  }

  /** A step leaves every other run alone. */
  lemma StepFrames(s: State, a: Action, id: RunId)
    requires Enabled(s, a) && RunOk(s, a.id) && id != a.id
    ensures View(Apply(s, a), id) == View(s, id)
  {
    match a
    case Admit(_, _, _, _) | Persist(_, _) | Publish(_) | Announce(_) => CreatorStepFrames(s, a, id);
    case Start(_) | Count(_) | Return(_, _) | Uncount(_) => TaskStepFrames(s, a, id);
    case AnnounceCompleted(_) | AnnounceFailed(_) => EmissionStepFrames(s, a, id);
    case Cancel(_, _) | AnnounceCancel(_) => CancelStepFrames(s, a, id);
    case Stamp(_, _, _) => StampStepFrames(s, a, id);
    case Store(_, _, _) =>
      if OutcomeOfStore(s.runs, a.id, s.tasks[a.id].result).StoredError? {
        StoreErrorStepFrames(s, a, id);
      } else {
        StoreOtherStepFrames(s, a, id);
      }
  }

  lemma StepKeepsRun(s: State, a: Action)
    requires Enabled(s, a) && RunOk(s, a.id)
    ensures RunOk(Apply(s, a), a.id) && Moves(s, a, Apply(s, a))
  {
    match a
    case Admit(_, _, _, _) | Persist(_, _) | Publish(_) => CreationKeepsRun(s, a);
    case Announce(_) => AnnounceKeepsRun(s, a);
    case Start(_) | Count(_) => StartKeepsRun(s, a);
    case Return(_, _) | Uncount(_) => ReturnKeepsRun(s, a);
    case AnnounceCompleted(_) => AnnounceCompletedKeepsRun(s, a);
    case AnnounceFailed(_) => AnnounceFailedKeepsRun(s, a);
    case AnnounceCancel(_) => AnnounceCancelKeepsRun(s, a);
    case Cancel(_, _) => CancellationKeepsRun(s, a);
    case Stamp(_, _, _) => StampKeepsRun(s, a);
    case Store(_, _, _) =>
      match OutcomeOfStore(s.runs, a.id, s.tasks[a.id].result)
      case StoredReport => StoreReportKeepsRun(s, a);
      case StoredError => StoreErrorKeepsRun(s, a);
      case _ => StoreNothingKeepsRun(s, a);
  }

  /** Two sets that differ at most at `id`. */
  lemma CountsFollow(p: set<RunId>, p': set<RunId>, id: RunId, gains: bool, loses: bool)
    requires gains ==> id !in p && !loses
    requires loses ==> id in p
    requires forall x :: x != id ==> (x in p' <==> x in p)
    requires id in p' <==> gains || (id in p && !loses)
    ensures |p'| == |p| + Bit(gains) - Bit(loses)
  {
    assert p' == if gains then p + {id} else if loses then p - {id} else p;
  }

  /** A view shows which populations its run belongs to. */
  lemma PopulationsByView(s: State, s': State, id: RunId)
    requires View(s', id) == View(s, id)
    ensures PendingAt(s', id) == PendingAt(s, id) && CountedAt(s', id) == CountedAt(s, id)
  {
    var v, v' := View(s, id), View(s', id);
    assert v.creator == v'.creator && v.task == v'.task;
  }

  lemma StepMovesPopulations(s: State, a: Action)
    requires Enabled(s, a) && RunOk(s, a.id)
    ensures var s' := Apply(s, a);
            && |Pending(s')| == |Pending(s)| + Bit(a.Admit?) - Bit(a.Count?)
            && |Counted(s')| == |Counted(s)| + Bit(a.Count?) - Bit(a.Uncount?)
  {
    var s' := Apply(s, a);
    StepKeepsRun(s, a);
    forall id: RunId | id != a.id
      ensures id in Pending(s') <==> id in Pending(s)
      ensures id in Counted(s') <==> id in Counted(s)
    {
      StepFrames(s, a, id);
      PopulationsByView(s, s', id);
    }
    CountsFollow(Pending(s), Pending(s'), a.id, a.Admit?, a.Count?);
    CountsFollow(Counted(s), Counted(s'), a.id, a.Count?, a.Uncount?);
  }

  /** The counter itself, and the admissions granted over the limit. */
  predicate MovesCounters(s: State, a: Action, s': State) {
    && s'.limit == s.limit && s'.hasDb == s.hasDb && s'.stored == s.stored
    && (s.active > 0 || !a.Uncount? ==> s'.active == s.active + Bit(a.Count?) - Bit(a.Uncount?))
    && s'.late == s.late + Bit(a.Admit? && |Pending(s)| + s.active >= s.limit)
  }

  lemma PersistMovesCounters(s: State, a: Action)
    requires Enabled(s, a) && a.Persist?
    ensures MovesCounters(s, a, Apply(s, a))
  {
    hide AfterInsert, Pending;
  }

  lemma StoreMovesCounters(s: State, a: Action)
    requires Enabled(s, a) && a.Store?
    ensures MovesCounters(s, a, Apply(s, a))
  {
    hide Updated, Pending, AfterStore;
  }

  lemma StampMovesCounters(s: State, a: Action)
    requires Enabled(s, a) && a.Stamp?
    ensures MovesCounters(s, a, Apply(s, a))
  {
    hide Updated, Pending, Stamped;
  }

  lemma StepMovesCounters(s: State, a: Action)
    requires Enabled(s, a)
    ensures MovesCounters(s, a, Apply(s, a))
  {
    if a.Persist? {
      PersistMovesCounters(s, a);
    } else if a.Store? {
      StoreMovesCounters(s, a);
    } else if a.Stamp? {
      StampMovesCounters(s, a);
    } else {
      hide Pending, AfterPersist, AfterStoreStep, AfterStamp, MarkedRunning, AfterCancel;
    }
  }

  lemma StepKeepsCounters(s: State, a: Action)
    requires Enabled(s, a) && CountersOk(s) && RunOk(s, a.id)
    ensures CountersOk(Apply(s, a))
  {
    StepMovesPopulations(s, a);
    StepMovesCounters(s, a);
  }

  lemma StepKeepsInv(s: State, a: Action)
    requires Inv(s) && Enabled(s, a)
    ensures Inv(Apply(s, a))
  {
    assert RunOk(s, a.id);
    forall id: RunId
      ensures RunOk(Apply(s, a), id)
    {
      if id == a.id {
        StepKeepsRun(s, a);
      } else {
        StepFrames(s, a, id);
        assert RunOk(s, id);
      }
    }
    StepKeepsCounters(s, a);
  }

  // ---- whole runs ----

  /** The actions can be taken one after the other. */
  ghost predicate Runs(s: State, actions: seq<Action>)
    decreases |actions|
  {
    actions == [] || (Enabled(s, actions[0]) && Runs(Apply(s, actions[0]), actions[1..]))
  }

  ghost function After(s: State, actions: seq<Action>): State
    requires Runs(s, actions)
    decreases |actions|
  {
    if actions == [] then s else After(Apply(s, actions[0]), actions[1..])
  }

  lemma InitInv(limit: nat, hasDb: bool, stored: Tables)
    ensures Inv(Init(limit, hasDb, stored))
  {
    var s := Init(limit, hasDb, stored);
    assert Pending(s) == {} && Counted(s) == {};
  }

  lemma {:induction false} RunKeepsInv(s: State, actions: seq<Action>)
    requires Inv(s) && Runs(s, actions)
    ensures Inv(After(s, actions))
    decreases |actions|
  {
    if actions == [] {
    } else {
      StepKeepsInv(s, actions[0]);
      RunKeepsInv(Apply(s, actions[0]), actions[1..]);
    }
  }

  /** What every reachable state guarantees about a run. */
  ghost predicate Reachable(s: State, limit: nat, hasDb: bool) {
    exists actions :: Runs(Init(limit, hasDb, s.stored), actions) && s == After(Init(limit, hasDb, s.stored), actions)
  }

  lemma ReachableInv(s: State, limit: nat, hasDb: bool)
    requires Reachable(s, limit, hasDb)
    ensures Inv(s)
  {
    var actions :| Runs(Init(limit, hasDb, s.stored), actions) && s == After(Init(limit, hasDb, s.stored), actions);
    InitInv(limit, hasDb, s.stored);
    RunKeepsInv(Init(limit, hasDb, s.stored), actions);
  }

  /** Report iff Completed, error iff Failed; a finished task leaves its run terminal; and the
      lookup before the completion stamp always finds the run. */
  lemma LookupNeverFails(s: State, limit: nat, hasDb: bool, id: RunId)
    requires Reachable(s, limit, hasDb)
    ensures id in s.runs ==> ResultMatchesStatus(s.runs[id])
    ensures AtTask(s, id, Done) ==> id in s.runs && !IsActive(s.runs[id].status)
    ensures AtTask(s, id, Stamping) ==> id in s.runs && s.runs[id].status.Completed?
    ensures !AtTask(s, id, Panicked)
  {
    ReachableInv(s, limit, hasDb);
    assert RunOk(s, id);
  }

  predicate WasStarted(s: State, id: RunId) {
    id in s.tasks && !s.tasks[id].Starting?
  }

  /** Completed and Failed are never left, and keep their report or error. */
  ghost predicate SettledStays(s: State, s': State, id: RunId) {
    id in s.runs && IsSettled(s.runs[id].status) ==>
      && id in s'.runs && s'.runs[id].status == s.runs[id].status
      && s'.runs[id].report == s.runs[id].report && s'.runs[id].error == s.runs[id].error
  }

  /** A run cancelled after its start keeps its cancelled entry. */
  ghost predicate LateCancelStays(s: State, s': State, id: RunId) {
    id in s.runs && s.runs[id].status.Cancelled? && WasStarted(s, id) ==>
      id in s'.runs && s'.runs[id] == s.runs[id] && WasStarted(s', id)
  }

  lemma StoreKeepsOutcome(s: State, a: Action)
    requires Enabled(s, a) && RunOk(s, a.id) && (a.Store? || a.Stamp?)
    ensures SettledStays(s, Apply(s, a), a.id) && LateCancelStays(s, Apply(s, a), a.id)
  {
    hide Emitted, Updated, FindingsOf, TablesOk, EventsOk;
  }

  lemma OtherStepKeepsOutcome(s: State, a: Action)
    requires Enabled(s, a) && RunOk(s, a.id) && !a.Store? && !a.Stamp?
    ensures SettledStays(s, Apply(s, a), a.id) && LateCancelStays(s, Apply(s, a), a.id)
  {
    hide Emitted, AfterStoreStep, AfterStamp, AfterInsert, FindingsOf, TablesOk, EventsOk;
  }

  lemma StepKeepsOutcome(s: State, a: Action, id: RunId)
    requires Enabled(s, a) && RunOk(s, a.id)
    ensures SettledStays(s, Apply(s, a), id) && LateCancelStays(s, Apply(s, a), id)
  {
    hide Apply, Enabled, RunOk;
    if id != a.id {
      StepFrames(s, a, id);
      assert View(s, id).entry == View(Apply(s, a), id).entry && View(s, id).task == View(Apply(s, a), id).task;
    } else if a.Store? || a.Stamp? {
      StoreKeepsOutcome(s, a);
    } else {
      OtherStepKeepsOutcome(s, a);
    }
  }

  lemma {:induction false} OutcomesAreFinal(s: State, actions: seq<Action>, id: RunId)
    requires Inv(s) && Runs(s, actions)
    ensures SettledStays(s, After(s, actions), id)
    ensures LateCancelStays(s, After(s, actions), id)
    decreases |actions|
  {
    if actions == [] {
    } else {
      assert RunOk(s, actions[0].id);
      StepKeepsOutcome(s, actions[0], id);
      StepKeepsInv(s, actions[0]);
      OutcomesAreFinal(Apply(s, actions[0]), actions[1..], id);
    }
  }

  /** A cancelled run stops being cancelled at exactly one step: its own start. */
  lemma CancelIsLostOnlyAtStart(s: State, a: Action, id: RunId)
    requires Enabled(s, a) && RunOk(s, a.id)
    requires id in s.runs && s.runs[id].status.Cancelled?
    ensures id in Apply(s, a).runs
    ensures Apply(s, a).runs[id].status.Cancelled? <==> a != Start(id)
    ensures a == Start(id) ==> Apply(s, a).runs[id].status.Running?
  {
    hide Emitted, Updated, AfterInsert, FindingsOf, TablesOk, EventsOk;
    if id != a.id {
      StepFrames(s, a, id);
      assert View(s, id).entry == View(Apply(s, a), id).entry;
    }
  }

  /** Audit events of one run, in every reachable state. */
  lemma EventBounds(s: State, limit: nat, hasDb: bool, id: RunId)
    requires Reachable(s, limit, hasDb)
    ensures Emitted(s, RunCompleted, id) + Emitted(s, RunFailed, id) <= 1
    ensures Emitted(s, RunCancelled, id) <= 2
    ensures var terminal := Emitted(s, RunCompleted, id) + Emitted(s, RunFailed, id) + Emitted(s, RunCancelled, id);
            terminal <= if id in s.early then 2 else 1
    ensures Emitted(s, RunCompleted, id) > 0 ==> id in s.runs && s.runs[id].status.Completed?
    ensures Emitted(s, RunFailed, id) > 0 ==> id in s.runs && s.runs[id].status.Failed?
  {
    ReachableInv(s, limit, hasDb);
    assert RunOk(s, id);
  }

  /** A run of this process has a row exactly if the first statement of its insert did not fail. The row is
      untouched since, or equal to the settled entry in memory, the latter exactly if the run was updated
      and the first statement of the update did not fail. Of a settled row's findings all are stored, in
      order, exactly if no statement up to the last of their inserts failed. */
  lemma StoredRowsAgree(s: State, limit: nat, hasDb: bool, id: RunId)
    requires Reachable(s, limit, hasDb) && id in s.creators
    ensures id in s.tables.runs <==> id in s.inserts && s.inserts[id] != Some(0)
    ensures id in s.tables.runs ==>
      var row := s.tables.runs[id];
      if id in s.updates && s.updates[id] != Some(0)
      then id in s.runs && row == s.runs[id] && IsSettled(row.status)
           && FindingsOf(s.tables, id) == KeptFindings(ReportFindings(row), s.updates[id])
           && (FindingsOf(s.tables, id) == ReportFindings(row) <==> LosesNothing(|ReportFindings(row)|, s.updates[id]))
      else row == Initial(row) && FindingsOf(s.tables, id) == [] && (id in s.runs ==> row == Initial(s.runs[id]))
    ensures id in s.updates <==>
      hasDb && id in s.runs && IsSettled(s.runs[id].status) && (AtTask(s, id, AnnouncingFailed) || AtTask(s, id, Done))
  {
    ReachableInv(s, limit, hasDb);
    RunKeepsDb(s, limit, hasDb);
    assert RunOk(s, id);
    var v := View(s, id);
    if RowIsFinal(v) {
      KeptExactly(ReportFindings(v.entry.value), v.updated.value);
    }
    if RowIsOriginal(v) {
      assert ProgressOk(v, id);
    }
  }

  /** Rows of an earlier process stay as they were found, and are never loaded: no entry, task or cancel
      request is about them, and no run of this process takes their identifier. */
  lemma EarlierRowsStay(s: State, limit: nat, hasDb: bool, id: RunId)
    requires Reachable(s, limit, hasDb)
    ensures id !in s.creators ==>
      && Get(s.tables.runs, id) == Get(s.stored.runs, id) && FindingsOf(s.tables, id) == FindingsOf(s.stored, id)
      && id !in s.runs && id !in s.tasks && CancellingOf(s, id) == 0
    ensures id in s.stored.runs || FindingsOf(s.stored, id) != [] ==> id !in s.creators
  {
    ReachableInv(s, limit, hasDb);
    assert RunOk(s, id);
  }

  /** A finished run is on disk as it is in memory exactly if it was inserted, updated, and not
      cancelled: a cancellation is never written and leaves the row queued. */
  lemma FinishedRunsArePersisted(s: State, limit: nat, id: RunId)
    requires Reachable(s, limit, true) && AtTask(s, id, Done)
    ensures id in s.runs && id in s.inserts
    ensures id in s.updates <==> !s.runs[id].status.Cancelled?
    ensures id in s.tables.runs && s.tables.runs[id] == s.runs[id]
      <==> s.inserts[id] != Some(0) && !s.runs[id].status.Cancelled? && s.updates[id] != Some(0)
    ensures id in s.tables.runs && s.runs[id].status.Cancelled? ==> s.tables.runs[id].status.Queued?
  {
    ReachableInv(s, limit, true);
    assert RunOk(s, id);
    RunKeepsDb(s, limit, true);
  }

  lemma RunKeepsDb(s: State, limit: nat, hasDb: bool)
    requires Reachable(s, limit, hasDb)
    ensures s.limit == limit && s.hasDb == hasDb
  {
    var actions :| Runs(Init(limit, hasDb, s.stored), actions) && s == After(Init(limit, hasDb, s.stored), actions);
    ConstantsStay(Init(limit, hasDb, s.stored), actions);
  }

  lemma {:induction false} ConstantsStay(s: State, actions: seq<Action>)
    requires Runs(s, actions)
    ensures After(s, actions).limit == s.limit && After(s, actions).hasDb == s.hasDb && After(s, actions).stored == s.stored
    decreases |actions|
  {
    if actions == [] {
    } else {
      StepMovesCounters(s, actions[0]);
      ConstantsStay(Apply(s, actions[0]), actions[1..]);
    }
  }

  // ---- the concurrency limit ----

  /** The counter is exact, so its saturating decrement never saturates. */
  lemma CounterIsExact(s: State, limit: nat, hasDb: bool, id: RunId)
    requires Reachable(s, limit, hasDb)
    ensures s.active == |Counted(s)|
    ensures id in s.tasks && s.tasks[id].Uncounting? ==> s.active > 0
  {
    ReachableInv(s, limit, hasDb);
    if id in s.tasks && s.tasks[id].Uncounting? {
      assert id in Counted(s);
    }
  }

  /** Admissions granted while counted and pending runs already filled the limit. */
  ghost function OverAdmissions(s: State, actions: seq<Action>): nat
    requires Runs(s, actions)
    decreases |actions|
  {
    if actions == [] then 0
    else Bit(actions[0].Admit? && |Pending(s)| + s.active >= s.limit)
         + OverAdmissions(Apply(s, actions[0]), actions[1..])
  }

  lemma {:induction false} LateCountsOverAdmissions(s: State, actions: seq<Action>)
    requires Runs(s, actions)
    ensures After(s, actions).late == s.late + OverAdmissions(s, actions)
    decreases |actions|
  {
    if actions == [] {
    } else {
      StepMovesCounters(s, actions[0]);
      LateCountsOverAdmissions(Apply(s, actions[0]), actions[1..]);
    }
  }

  lemma LimitUpToOverAdmissions(limit: nat, hasDb: bool, stored: Tables, actions: seq<Action>)
    requires Runs(Init(limit, hasDb, stored), actions)
    ensures var s := After(Init(limit, hasDb, stored), actions);
            |Pending(s)| + s.active <= limit + OverAdmissions(Init(limit, hasDb, stored), actions)
  {
    InitInv(limit, hasDb, stored);
    RunKeepsInv(Init(limit, hasDb, stored), actions);
    ConstantsStay(Init(limit, hasDb, stored), actions);
    LateCountsOverAdmissions(Init(limit, hasDb, stored), actions);
  }

  /** Every admitted run is counted before the next limit check. */
  ghost predicate Serialized(s: State, actions: seq<Action>)
    requires Runs(s, actions)
    decreases |actions|
  {
    actions == []
    || ((actions[0].Admit? ==> Pending(s) == {}) && Serialized(Apply(s, actions[0]), actions[1..]))
  }

  lemma {:induction false} SerializedNeverOver(s: State, actions: seq<Action>)
    requires Runs(s, actions) && Serialized(s, actions)
    ensures OverAdmissions(s, actions) == 0
    decreases |actions|
  {
    if actions == [] {
    } else {
      SerializedNeverOver(Apply(s, actions[0]), actions[1..]);
    }
  }

  lemma LimitHoldsWhenSerialized(limit: nat, hasDb: bool, stored: Tables, actions: seq<Action>)
    requires Runs(Init(limit, hasDb, stored), actions) && Serialized(Init(limit, hasDb, stored), actions)
    ensures After(Init(limit, hasDb, stored), actions).active <= limit
  {
    SerializedNeverOver(Init(limit, hasDb, stored), actions);
    LimitUpToOverAdmissions(limit, hasDb, stored, actions);
  }

  lemma {:induction false} RunsAppend(s: State, actions: seq<Action>, a: Action)
    requires Runs(s, actions) && Enabled(After(s, actions), a)
    ensures Runs(s, actions + [a]) && After(s, actions + [a]) == Apply(After(s, actions), a)
    decreases |actions|
  {
    if actions == [] {
      assert actions + [a] == [a] && [a][1..] == [];
    } else {
      RunsAppend(Apply(s, actions[0]), actions[1..], a);
      assert (actions + [a])[1..] == actions[1..] + [a];
    }
  }

  lemma ReachableStep(s: State, limit: nat, hasDb: bool, a: Action)
    requires Reachable(s, limit, hasDb) && Enabled(s, a)
    ensures Reachable(Apply(s, a), limit, hasDb)
  {
    StepMovesCounters(s, a);
    hide Apply, Enabled, Init;
    var actions :| Runs(Init(limit, hasDb, s.stored), actions) && s == After(Init(limit, hasDb, s.stored), actions);
    RunsAppend(Init(limit, hasDb, s.stored), actions, a);
  }
}
