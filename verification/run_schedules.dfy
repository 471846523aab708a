/** Which schedules of the run protocol lead where: how far the limit can be exceeded, when a cancel is
    lost, and which findings a faulty update loses. */
module RunSchedules {
  import opened Wrappers
  import opened DataStoring
  import opened ServerState
  import opened AuditLogging
  import opened RunProtocol

  // ---- how far the limit can be exceeded ----

  ghost predicate NoAdmissions(actions: seq<Action>) {
    forall a | a in actions :: !a.Admit?
  }

  /** The step that takes a pending run on towards being counted. */
  function Onward(s: State, id: RunId): Action {
    if id in s.tasks then (if s.tasks[id].Starting? then Start(id) else Count(id))
    else if id in s.creators && s.creators[id].Admitted? then Persist(id, None)
    else Publish(id)
  }

  function Distance(s: State, id: RunId): nat {
    if id in s.tasks then (if s.tasks[id].Starting? then 1 else 0)
    else if id in s.creators && s.creators[id].Admitted? then 3 else 2
  }

  lemma OnwardIsEnabled(s: State, id: RunId)
    requires RunOk(s, id) && PendingAt(s, id)
    ensures Enabled(s, Onward(s, id)) && Onward(s, id).id == id && !Onward(s, id).Admit? && !Onward(s, id).Uncount?
    ensures !Onward(s, id).Count? ==> Distance(Apply(s, Onward(s, id)), id) < Distance(s, id)
  {
    hide TablesOk, EventsOk, AfterInsert;
  }

  /** Any one pending run can be counted, without a further admission. */
  lemma {:induction false} PendingCanBeCounted(s: State, id: RunId) returns (actions: seq<Action>)
    requires Inv(s) && id in Pending(s)
    ensures Runs(s, actions) && NoAdmissions(actions) && Inv(After(s, actions))
    ensures |Pending(After(s, actions))| == |Pending(s)| - 1 && After(s, actions).active == s.active + 1
    ensures After(s, actions).limit == s.limit
    decreases Distance(s, id)
  {
    var a := Onward(s, id);
    assert RunOk(s, id);
    OnwardIsEnabled(s, id);
    StepKeepsInv(s, a);
    StepKeepsRun(s, a);
    StepMovesPopulations(s, a);
    StepMovesCounters(s, a);
    var s' := Apply(s, a);
    hide Inv, Apply, Enabled, RunOk;
    if a.Count? {
      actions := [a];
      assert [a][1..] == [];
    } else {
      var rest := PendingCanBeCounted(s', id);
      actions := [a] + rest;
      assert actions[1..] == rest;
    }
  }

  lemma {:induction false} RunsConcat(s: State, a: seq<Action>, b: seq<Action>)
    requires Runs(s, a) && Runs(After(s, a), b)
    ensures Runs(s, a + b) && After(s, a + b) == After(After(s, a), b)
    decreases |a|
  {
    hide Apply, Enabled;
    if a == [] {
      assert a + b == b;
    } else {
      RunsConcat(Apply(s, a[0]), a[1..], b);
      assert (a + b)[1..] == a[1..] + b;
    }
  }

  /** All pending runs can be running at once. */
  lemma {:induction false} AllPendingCanBeCounted(s: State) returns (actions: seq<Action>)
    requires Inv(s)
    ensures Runs(s, actions) && NoAdmissions(actions)
    ensures After(s, actions).active == s.active + |Pending(s)|
    decreases |Pending(s)|
  {
    hide Inv, Pending, Apply, Enabled;
    if Pending(s) == {} {
      actions := [];
    } else {
      var id :| id in Pending(s);
      var first := PendingCanBeCounted(s, id);
      var rest := AllPendingCanBeCounted(After(s, first));
      RunsConcat(s, first, rest);
      actions := first + rest;
    }
  }

  lemma {:induction false} SumNeverGrows(s: State, actions: seq<Action>)
    requires Inv(s) && Runs(s, actions) && NoAdmissions(actions)
    ensures |Pending(After(s, actions))| + After(s, actions).active <= |Pending(s)| + s.active
    decreases |actions|
  {
    if actions != [] {
      var a := actions[0];
      assert RunOk(s, a.id);
      StepKeepsInv(s, a);
      StepMovesPopulations(s, a);
      SumNeverGrows(Apply(s, a), actions[1..]);
    }
  }

  /** Without a further admission the limit will be exceeded, on some schedule, exactly if the runs
      counted and pending are too many. */
  lemma LimitExceededExactly(s: State)
    requires Inv(s)
    ensures (exists actions :: Runs(s, actions) && NoAdmissions(actions) && After(s, actions).active > s.limit)
      <==> |Pending(s)| + s.active > s.limit
  {
    hide Inv, Pending, Apply, Enabled;
    if actions :| Runs(s, actions) && NoAdmissions(actions) && After(s, actions).active > s.limit {
      SumNeverGrows(s, actions);
    }
    if |Pending(s)| + s.active > s.limit {
      var actions := AllPendingCanBeCounted(s);
      assert After(s, actions).active > s.limit;
    }
  }

  /** Nothing counts a run between two admissions, so any number can be pending. */
  lemma {:induction false} PileUpAdmissions(limit: nat, admitted: nat, task: string, now: string) returns (s: State)
    requires limit >= 1 && task != ""
    ensures Reachable(s, limit, false) && s.active == 0 && s.limit == limit && |Pending(s)| == admitted && s.stored == NO_ROWS
    ensures forall id: RunId :: id in s.creators <==> id < admitted
  {
    if admitted == 0 {
      s := Init(limit, false, NO_ROWS);
      assert Runs(s, []) && After(s, []) == s;
      assert Pending(s) == {};
    } else {
      var before := PileUpAdmissions(limit, admitted - 1, task, now);
      var a := Admit(admitted - 1, task, None, now);
      ReachableInv(before, limit, false);
      ReachableStep(before, limit, false, a);
      assert RunOk(before, a.id);
      StepMovesPopulations(before, a);
      hide Inv, Reachable, Pending;
      s := Apply(before, a);
    }
  }

  /** The limit is no bound on its own: whatever it is, some schedule runs any number at once. */
  lemma LimitCanBeExceeded(limit: nat, excess: nat, task: string, now: string) returns (s: State)
    requires limit >= 1 && task != ""
    ensures Reachable(s, limit, false) && s.active == limit + excess
  {
    hide Inv, Pending, Apply, Enabled, Init;
    var piled := PileUpAdmissions(limit, limit + excess, task, now);
    ReachableInv(piled, limit, false);
    var actions := AllPendingCanBeCounted(piled);
    s := After(piled, actions);
    ReachableRun(piled, limit, false, actions);
  }

  lemma ReachableRun(s: State, limit: nat, hasDb: bool, actions: seq<Action>)
    requires Reachable(s, limit, hasDb) && Runs(s, actions)
    ensures Reachable(After(s, actions), limit, hasDb)
  {
    ConstantsStay(s, actions);
    hide Apply, Enabled, Init;
    var before :| Runs(Init(limit, hasDb, s.stored), before) && s == After(Init(limit, hasDb, s.stored), before);
    RunsConcat(Init(limit, hasDb, s.stored), before, actions);
  }

  // ---- a cancel that is lost ----

  /** The run is cancelled in every state of the schedule. */
  ghost predicate StaysCancelled(s: State, actions: seq<Action>, id: RunId)
    requires Runs(s, actions)
    decreases |actions|
  {
    && id in s.runs && s.runs[id].status.Cancelled?
    && (actions != [] ==> StaysCancelled(Apply(s, actions[0]), actions[1..], id))
  }

  /** Over any schedule a cancelled run stays cancelled exactly if its start is not in it. */
  lemma {:induction false} StaysCancelledExactly(s: State, actions: seq<Action>, id: RunId)
    requires Inv(s) && Runs(s, actions) && id in s.runs && s.runs[id].status.Cancelled?
    ensures StaysCancelled(s, actions, id) <==> Start(id) !in actions
    decreases |actions|
  {
    if actions != [] {
      var a := actions[0];
      assert RunOk(s, a.id);
      StepKeepsInv(s, a);
      CancelIsLostOnlyAtStart(s, a, id);
      hide Inv, Apply, Enabled, RunOk;
      assert actions == [a] + actions[1..];
      if a != Start(id) {
        StaysCancelledExactly(Apply(s, a), actions[1..], id);
      }
    }
  }

  /** After its start a run is cancelled for good by the first cancel before its result is stored. */
  predicate CancelsInTime(actions: seq<Action>, id: RunId)
    decreases |actions|
  {
    actions != []
    && if actions[0].Cancel? && actions[0].id == id then true
       else if actions[0].Store? && actions[0].id == id then false
       else CancelsInTime(actions[1..], id)
  }

  /** The start is not in the schedule, or a cancel follows it in time. */
  predicate EndsCancelled(actions: seq<Action>, id: RunId)
    decreases |actions|
  {
    actions != [] ==>
      if actions[0] == Start(id) then CancelsInTime(actions[1..], id) else EndsCancelled(actions[1..], id)
  }

  predicate IsRunning(s: State, id: RunId) {
    id in s.runs && s.runs[id].status.Running? && WasStarted(s, id)
  }

  ghost predicate RunsOn(a: Action, s': State)
  {
    && a.id in s'.runs && WasStarted(s', a.id)
    && var status := s'.runs[a.id].status;
       if a.Cancel? then status.Cancelled? else if a.Store? then IsSettled(status) else status.Running?
  }

  lemma RunningStores(s: State, a: Action)
    requires Enabled(s, a) && RunOk(s, a.id) && IsRunning(s, a.id) && (a.Store? || a.Stamp?)
    ensures RunsOn(a, Apply(s, a))
  {
    hide Emitted, Updated, FindingsOf, TablesOk, EventsOk;
  }

  lemma RunningGoesOn(s: State, a: Action)
    requires Enabled(s, a) && RunOk(s, a.id) && IsRunning(s, a.id) && !a.Store? && !a.Stamp?
    ensures RunsOn(a, Apply(s, a))
  {
    hide Emitted, AfterStoreStep, AfterStamp, AfterInsert, FindingsOf, TablesOk, EventsOk;
  }

  lemma RunningStep(s: State, a: Action)
    requires Enabled(s, a) && RunOk(s, a.id) && IsRunning(s, a.id)
    ensures RunsOn(a, Apply(s, a))
  {
    hide Enabled, Apply, RunOk, IsRunning, RunsOn;
    if a.Store? || a.Stamp? {
      RunningStores(s, a);
    } else {
      RunningGoesOn(s, a);
    }
  }

  lemma OthersKeepRunning(s: State, a: Action, id: RunId)
    requires Enabled(s, a) && RunOk(s, a.id) && IsRunning(s, id) && id != a.id
    ensures IsRunning(Apply(s, a), id)
  {
    StepFrames(s, a, id);
    hide Apply, Enabled, RunOk;
    assert View(s, id).entry == View(Apply(s, a), id).entry && View(s, id).task == View(Apply(s, a), id).task;
  }

  lemma {:induction false} RunningEndsCancelledExactly(s: State, actions: seq<Action>, id: RunId)
    requires Inv(s) && Runs(s, actions) && IsRunning(s, id)
    ensures id in After(s, actions).runs
    ensures After(s, actions).runs[id].status.Cancelled? <==> CancelsInTime(actions, id)
    decreases |actions|
  {
    if actions != [] {
      var a := actions[0];
      assert RunOk(s, a.id);
      StepKeepsInv(s, a);
      var s' := Apply(s, a);
      if a.id == id {
        RunningStep(s, a);
      } else {
        OthersKeepRunning(s, a, id);
      }
      hide Inv, Apply, Enabled, RunOk;
      OutcomesAreFinal(s', actions[1..], id);
      if IsRunning(s', id) {
        RunningEndsCancelledExactly(s', actions[1..], id);
      }
    }
  }

  lemma StartOfCancelled(s: State, id: RunId)
    requires Enabled(s, Start(id)) && id in s.runs
    ensures IsRunning(Apply(s, Start(id)), id)
  {
  }

  /** Whether a cancelled run ends a schedule cancelled, for every schedule. */
  lemma {:induction false} EndsCancelledExactly(s: State, actions: seq<Action>, id: RunId)
    requires Inv(s) && Runs(s, actions) && id in s.runs && s.runs[id].status.Cancelled?
    ensures id in After(s, actions).runs
    ensures After(s, actions).runs[id].status.Cancelled? <==> EndsCancelled(actions, id)
    decreases |actions|
  {
    if actions != [] {
      var a := actions[0];
      assert RunOk(s, a.id);
      StepKeepsInv(s, a);
      CancelIsLostOnlyAtStart(s, a, id);
      if a == Start(id) {
        StartOfCancelled(s, id);
      }
      hide Inv, Apply, Enabled, RunOk;
      if a == Start(id) {
        RunningEndsCancelledExactly(Apply(s, a), actions[1..], id);
      } else {
        EndsCancelledExactly(Apply(s, a), actions[1..], id);
      }
    }
  }

  /** A first run, created and not started. */
  lemma QueuedRun(limit: nat, hasDb: bool, task: string, now: string) returns (s: State)
    requires limit >= 1 && task != ""
    ensures Reachable(s, limit, hasDb) && s.hasDb == hasDb && s.cancelling == map[]
    ensures var entry := NewEntry(0, task, None, now);
            s.runs == map[0 := entry] && s.tasks == map[0 := Starting]
            && s.tables == Tables(if hasDb then map[0 := entry] else map[], map[])
  {
    var s0 := Init(limit, hasDb, NO_ROWS);
    assert Runs(s0, []) && After(s0, []) == s0;
    hide Reachable, Pending;
    ReachableStep(s0, limit, hasDb, Admit(0, task, None, now));
    var s1 := Apply(s0, Admit(0, task, None, now));
    ReachableStep(s1, limit, hasDb, Persist(0, None));
    var s2 := Apply(s1, Persist(0, None));
    ReachableStep(s2, limit, hasDb, Publish(0));
    s := Apply(s2, Publish(0));
  }

  lemma CanBeInvestigated(before: State, limit: nat, hasDb: bool, id: RunId) returns (s: State)
    requires Reachable(before, limit, hasDb) && AtTask(before, id, Starting) && id in before.runs
    ensures Reachable(s, limit, hasDb) && AtTask(s, id, Investigating)
    ensures s.runs == before.runs[id := before.runs[id].(status := Running)]
    ensures s.tables == before.tables && s.cancelling == before.cancelling && s.hasDb == before.hasDb
  {
    hide Reachable, Pending;
    ReachableStep(before, limit, hasDb, Start(id));
    var s1 := Apply(before, Start(id));
    ReachableStep(s1, limit, hasDb, Count(id));
    s := Apply(s1, Count(id));
  }

  /** A run that was not started, cancelled or not, can be started and completed. */
  lemma CanBeCompleted(before: State, limit: nat, hasDb: bool, id: RunId, report: Report, now: string) returns (s: State)
    requires Reachable(before, limit, hasDb) && AtTask(before, id, Starting) && id in before.runs
    ensures Reachable(s, limit, hasDb) && AtTask(s, id, AnnouncingCompleted)
    ensures s.runs == before.runs[id := before.runs[id].(status := Completed, report := Some(report))]
    ensures s.tables == before.tables && s.cancelling == before.cancelling && s.hasDb == before.hasDb
  {
    hide Reachable, Pending, Updated;
    var s2 := CanBeInvestigated(before, limit, hasDb, id);
    ReachableStep(s2, limit, hasDb, Return(id, Ok(report)));
    var s3 := Apply(s2, Return(id, Ok(report)));
    ReachableStep(s3, limit, hasDb, Uncount(id));
    var s4 := Apply(s3, Uncount(id));
    ReachableStep(s4, limit, hasDb, Store(id, now, None));
    s := Apply(s4, Store(id, now, None));
  }

  /** A run is cancelled while queued and completes all the same, before its cancel event is out. */
  lemma CancelCanBeLost(task: string, now: string, report: Report) returns (cancelled: State, s: State)
    requires task != ""
    ensures Reachable(cancelled, 1, false) && 0 in cancelled.runs && cancelled.runs[0].status.Cancelled?
    ensures Reachable(s, 1, false) && 0 in s.runs && s.runs[0].status.Completed? && CancellingOf(s, 0) == 1
  {
    hide Reachable;
    var queued := QueuedRun(1, false, task, now);
    ReachableStep(queued, 1, false, Cancel(0, now));
    cancelled := Apply(queued, Cancel(0, now));
    s := CanBeCompleted(cancelled, 1, false, 0, report, now);
  }

  /** An update that fails at the insert of finding `k` leaves a settled row with the findings before
      it, for every report and every `k`. */
  lemma FindingsCanBeLost(task: string, now: string, report: Report, k: nat) returns (s: State)
    requires task != "" && k < |report.findings|
    ensures Reachable(s, 1, true) && AtTask(s, 0, Done) && 0 in s.runs && 0 in s.tables.runs
    ensures s.tables.runs[0] == s.runs[0] && s.runs[0].status.Completed? && s.runs[0].report == Some(report)
    ensures FindingsOf(s.tables, 0) == report.findings[..k] != report.findings
  {
    hide Reachable, AfterUpdate, Enabled, Apply;
    var announced := AnnouncedRun(task, now, report);
    s := StampLoses(announced, now, report, k);
  }

  /** A completed run whose event is out, before its update. */
  lemma AnnouncedRun(task: string, now: string, report: Report) returns (s: State)
    requires task != ""
    ensures Reachable(s, 1, true) && s.hasDb && AtTask(s, 0, Stamping)
    ensures var entry := NewEntry(0, task, None, now);
            s.runs == map[0 := entry.(status := Completed, report := Some(report))] && s.tables == Tables(map[0 := entry], map[])
  {
    hide Reachable, AfterUpdate;
    var queued := QueuedRun(1, true, task, now);
    var stored := CanBeCompleted(queued, 1, true, 0, report, now);
    ReachableStep(stored, 1, true, AnnounceCompleted(0));
    s := Apply(stored, AnnounceCompleted(0));
  }

  lemma StampLoses(before: State, now: string, report: Report, k: nat) returns (s: State)
    requires Reachable(before, 1, true) && before.hasDb && AtTask(before, 0, Stamping) && k < |report.findings|
    requires 0 in before.runs && before.runs[0].id == 0 && before.runs[0].status.Completed? && before.runs[0].report == Some(report)
    requires 0 in before.tables.runs && FindingsOf(before.tables, 0) == []
    requires Overwrite(before.tables.runs[0], before.runs[0]) == before.runs[0]
    ensures Reachable(s, 1, true) && AtTask(s, 0, Done) && 0 in s.runs && 0 in s.tables.runs
    ensures s.tables.runs[0] == s.runs[0] && s.runs[0].status.Completed? && s.runs[0].report == Some(report)
    ensures FindingsOf(s.tables, 0) == report.findings[..k] != report.findings
  {
    hide Reachable, AfterUpdate;
    var fault := Some(k + 2);
    UpdatedFindings(before.tables, Stamped(before.runs, 0, now)[0], fault);
    KeptExactly(report.findings, fault);
    ReachableStep(before, 1, true, Stamp(0, now, fault));
    s := Apply(before, Stamp(0, now, fault));
  }
}
