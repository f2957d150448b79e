/** What a row tells: every value in it is that of the step that put it there, and how it
    ended is what that step said. */
module Records {
  import opened Clock
  import opened Jobs
  import opened Protocol
  import opened Safety
  import opened Registry
  import opened Execution
  import opened Clients
  import opened Agent
  import opened History
  import opened Restart

  // ---- one step ----------------------------------------------------------------------

  /** A new row holds the job it was created for and nothing else yet. */
  predicate Creates(s: State, step: Step, id: JobId, r: Row) {
    match step
    case S(t, q) =>
      q.Make? && q.ok && q.id == id && r == Row(Job(t, "", "", Scheduled), Queued, 0, q.now, None, None, "")
    case R(c) =>
      && c.Create? && c.ok && c.id == id && s.net.req.Clear? && s.net.req.m in s.net.msgs
      && r == Row(s.net.msgs[s.net.req.m].job, Queued, 0, c.now, None, None, "")
    case _ => false
  }

  /** The dispatcher records the process it has in hand. */
  predicate Begins(s: State, step: Step, id: JobId, r: Row, r': Row) {
    && step.D? && step.d.Mark? && step.d.ok && s.svc.disp.Spawned? && s.svc.disp.item.id == id && r.status == Queued
    && r' == Row(r.job, Running, s.svc.disp.pid, r.createdAt, Some(step.d.now), r.completedAt, r.error)
  }

  /** A worker of the job, past its check, writes what came of the work. */
  predicate Finishes(s: State, step: Step, id: JobId, r: Row, r': Row) {
    && step.W? && step.w.Finish? && step.w.ok && step.w.to in {Completed, Failed} && r.status == Running
    && step.pid in s.procs && s.procs[step.pid].id == id && s.procs[step.pid].phase == Working && s.procs[step.pid].ran
    && r' == Row(r.job, step.w.to, r.pid, r.createdAt, r.startedAt, Some(step.w.now), step.w.error)
  }

  /** The monitor fails the row of a process that has gone. */
  predicate FailsUnexpectedly(s: State, step: Step, id: JobId, r: Row, r': Row) {
    && step.M? && step.m.Fail? && step.m.ok && s.svc.mon == Failing(id) && r.status == Running && !Alive(s.procs, r.pid)
    && r' == Row(r.job, Failed, r.pid, r.createdAt, r.startedAt, Some(step.m.now), "unexpected worker termination")
  }

  /** Recovery fails it. */
  predicate FailsOrphaned(s: State, step: Step, id: JobId, r: Row, r': Row) {
    && step.B? && step.b.Condemn? && step.b.ok && s.svc.boot.Condemning? && s.svc.boot.id == id && r.status == Running
    && r' == Row(r.job, Failed, r.pid, r.createdAt, r.startedAt, Some(step.b.now), "orphaned job")
  }

  predicate Changes(s: State, step: Step, id: JobId, r: Row, r': Row) {
    Begins(s, step, id, r, r') || Finishes(s, step, id, r, r') || FailsUnexpectedly(s, step, id, r, r') || FailsOrphaned(s, step, id, r, r')
  }

  /** Every row after a step is new, as it was, or changed in one of four ways. */
  lemma RowChanges(s: State, step: Step, id: JobId)
    requires Inv(s) && Enabled(s, step) && id in Exec(s, step).rows
    ensures var r' := Exec(s, step).rows[id];
            if id in s.rows then r' == s.rows[id] || Changes(s, step, id, s.rows[id], r') else Creates(s, step, id, r')
  {
    if Inserts(step) {
      InsertRecords(s, step, id);
    } else {
      NoInsertSettles(s, step);
      OldRecords(s, step, id);
    }
  }

  lemma InsertRecords(s: State, step: Step, id: JobId)
    requires Enabled(s, step) && Inserts(step) && id in Exec(s, step).rows
    ensures var r' := Exec(s, step).rows[id]; if id in s.rows then r' == s.rows[id] else Creates(s, step, id, r')
  {
    var i, job, now := InsertShape(s, step);
  }

  lemma OldRecords(s: State, step: Step, id: JobId)
    requires Inv(s) && Enabled(s, step) && !Inserts(step) && id in s.rows && id in Exec(s, step).rows
    ensures var r' := Exec(s, step).rows[id]; r' == s.rows[id] || Changes(s, step, id, s.rows[id], r')
  {
    match step
    case D(d) => DispRecords(s, d, id);
    case W(pid, w) => WorkerRecords(s, pid, w, id);
    case M(m) => MonitorRecords(s, m, id);
    case B(b) => BootRecords(s, b, id);
    case Purge(cutoff) =>
    case Crash =>
    case _ => OtherRowsKept(s, step);
  }

  lemma DispRecords(s: State, d: DispStep, id: JobId)
    requires EnabledD(s, d) && id in s.rows && id in ExecD(s, d).rows
    ensures var r' := ExecD(s, d).rows[id]; r' == s.rows[id] || Begins(s, D(d), id, s.rows[id], r')
  {
    DispRows(s, d);
  }

  lemma WorkerRecords(s: State, pid: Pid, w: WorkerStep, id: JobId)
    requires LiveOkIn(s) && EnabledW(s, pid, w) && id in s.rows && id in ExecW(s, pid, w).rows
    ensures var r' := ExecW(s, pid, w).rows[id]; r' == s.rows[id] || Finishes(s, W(pid, w), id, s.rows[id], r')
  {
  }

  lemma MonitorRecords(s: State, m: MonStep, id: JobId)
    requires WorkersOkIn(s) && MonOkIn(s) && EnabledM(s, m) && id in s.rows && id in ExecM(s, m).rows
    ensures var r' := ExecM(s, m).rows[id]; r' == s.rows[id] || FailsUnexpectedly(s, M(m), id, s.rows[id], r')
  {
    if m.Fail? {
      var gone := s.svc.mon.id;
      assert EntryOk(gone, s.svc.workers[gone], s.rows, s.procs, s.svc.life, s.svc.pass);
    }
  }

  lemma BootRecords(s: State, b: BootStep, id: JobId)
    requires EnabledB(s, b) && id in s.rows && id in ExecB(s, b).rows
    ensures var r' := ExecB(s, b).rows[id]; r' == s.rows[id] || FailsOrphaned(s, B(b), id, s.rows[id], r')
  {
  }

  // ---- whole runs --------------------------------------------------------------------

  datatype Event = Creation | Beginning | Ending

  /** The row has come that far. */
  predicate Has(e: Event, r: Row) {
    match e
    case Creation => true
    case Beginning => r.status != Queued
    case Ending => r.status in {Completed, Failed, TimedOut}
  }

  /** The step is that event in the life of the row, and the row says so. */
  predicate Tells(e: Event, s: State, step: Step, id: JobId, r: Row) {
    match e
    case Creation =>
      || (step.S? && step.q.Make? && step.q.ok && step.q.id == id && r.createdAt == step.q.now && r.job == Job(step.t, "", "", Scheduled))
      || (step.R? && step.r.Create? && step.r.ok && step.r.id == id && r.createdAt == step.r.now
          && s.net.req.Clear? && s.net.req.m in s.net.msgs && r.job == s.net.msgs[s.net.req.m].job)
    case Beginning =>
      && step.D? && step.d.Mark? && step.d.ok && s.svc.disp.Spawned? && s.svc.disp.item.id == id
      && r.startedAt == Some(step.d.now) && r.pid == s.svc.disp.pid
    case Ending =>
      || (WorkerWrites(s, step, id) && r.status == step.w.to && r.completedAt == Some(step.w.now) && r.error == step.w.error)
      || (step.M? && step.m.Fail? && step.m.ok && s.svc.mon == Failing(id) && r.status == Failed
          && r.completedAt == Some(step.m.now) && r.error == "unexpected worker termination")
      || (step.B? && step.b.Condemn? && step.b.ok && s.svc.boot.Condemning? && s.svc.boot.id == id && r.status == Failed
          && r.completedAt == Some(step.b.now) && r.error == "orphaned job")
  }

  /** A worker of the job that got to work writes its outcome. */
  predicate WorkerWrites(s: State, step: Step, id: JobId) {
    && step.W? && step.w.Finish? && step.w.ok && step.w.to in {Completed, Failed}
    && step.pid in s.procs && s.procs[step.pid].id == id && s.procs[step.pid].ran
  }

  ghost predicate Somewhere(e: Event, s: State, steps: seq<Step>, id: JobId, r: Row)
    requires Runs(s, steps)
    decreases |steps|
  {
    steps != [] && (Tells(e, s, steps[0], id, r) || Somewhere(e, Exec(s, steps[0]), steps[1..], id, r))
  }

  /** Later rows tell the same. */
  lemma TellsOn(e: Event, s: State, step: Step, id: JobId, r: Row, r': Row)
    requires Tells(e, s, step, id, r) && Has(e, r) && Follows(r, r') && RowOk(r)
    ensures Tells(e, s, step, id, r')
  {
  }

  lemma ChangeTells(e: Event, s: State, step: Step, id: JobId, r: Row, r': Row)
    requires Changes(s, step, id, r, r') && !Has(e, r) && Has(e, r')
    ensures Tells(e, s, step, id, r')
  {
  }

  lemma FirstTells(e: Event, s: State, step: Step, id: JobId)
    requires Inv(s) && Enabled(s, step) && id in Exec(s, step).rows && Has(e, Exec(s, step).rows[id])
    requires id in s.rows ==> !Has(e, s.rows[id])
    ensures Tells(e, s, step, id, Exec(s, step).rows[id])
  {
    RowChanges(s, step, id);
    if id in s.rows {
      ChangeTells(e, s, step, id, s.rows[id], Exec(s, step).rows[id]);
    } else {
      CreateTells(e, s, step, id, Exec(s, step).rows[id]);
    }
  }

  lemma CreateTells(e: Event, s: State, step: Step, id: JobId, r: Row)
    requires Creates(s, step, id, r) && Has(e, r)
    ensures Tells(e, s, step, id, r)
  {
  }

  /** Whatever a row has come to over a stretch of a run, a step of that stretch brought it
      there, and the row holds that step's time, process, status and message. */
  lemma {:induction false} RecordedBy(e: Event, s: State, steps: seq<Step>, id: JobId)
    requires Reachable(s) && Runs(s, steps) && id in Last(s, steps).rows && Has(e, Last(s, steps).rows[id])
    requires id in s.rows ==> !Has(e, s.rows[id])
    ensures Somewhere(e, s, steps, id, Last(s, steps).rows[id])
    decreases |steps|
  {
    if steps != [] {
      var m, rest := Exec(s, steps[0]), steps[1..];
      ReachableInv(s);
      ReachStep(s, steps[0]);
      if id in m.rows && Has(e, m.rows[id]) {
        FirstTells(e, s, steps[0], id);
        RowsForward(m, rest);
        ReachableInv(m);
        assert RowForward(id, m.rows[id], Last(m, rest).rows, Last(m, rest).purged);
        TellsOn(e, s, steps[0], id, m.rows[id], Last(m, rest).rows[id]);
      } else {
        RecordedBy(e, m, rest, id);
      }
    }
  }

  /** Every row of every run: created_at, the times, the PID, the status and the message are
      those of the steps that created it, began it and ended it. */
  lemma RowTellsItsRun(s0: State, steps: seq<Step>, id: JobId)
    requires Init(s0) && Runs(s0, steps) && id in Last(s0, steps).rows
    ensures var r := Last(s0, steps).rows[id];
            && Somewhere(Creation, s0, steps, id, r)
            && (r.status != Queued ==> Somewhere(Beginning, s0, steps, id, r))
            && (r.status in {Completed, Failed, TimedOut} ==> Somewhere(Ending, s0, steps, id, r))
  {
    assert Runs(s0, []) && Last(s0, []) == s0;
    forall e | Has(e, Last(s0, steps).rows[id]) ensures Somewhere(e, s0, steps, id, Last(s0, steps).rows[id]) {
      RecordedBy(e, s0, steps, id);
    }
  }

  /** A worker of the job that got to work wrote that it was completed. */
  ghost predicate FinishedWell(s: State, steps: seq<Step>, id: JobId)
    requires Runs(s, steps)
    decreases |steps|
  {
    steps != [] && ((WorkerWrites(s, steps[0], id) && steps[0].w.to == Completed) || FinishedWell(Exec(s, steps[0]), steps[1..], id))
  }

  lemma {:induction false} CompletedTold(s: State, steps: seq<Step>, id: JobId, r: Row)
    requires Runs(s, steps) && Somewhere(Ending, s, steps, id, r) && r.status == Completed
    ensures FinishedWell(s, steps, id)
    decreases |steps|
  {
    if !Tells(Ending, s, steps[0], id, r) { CompletedTold(Exec(s, steps[0]), steps[1..], id, r); }
  }

  /** A job becomes completed only by a worker of it that says so: not by the monitor, not by
      recovery, not by the dispatcher. */
  lemma CompletedByWorker(s: State, steps: seq<Step>, id: JobId)
    requires Reachable(s) && Runs(s, steps) && CanSwap(Last(s, steps).rows, id, Completed) && !CanSwap(s.rows, id, Completed)
    ensures FinishedWell(s, steps, id)
  {
    RowsForward(s, steps);
    assert id in s.rows ==> RowForward(id, s.rows[id], Last(s, steps).rows, Last(s, steps).purged);
    RecordedBy(Ending, s, steps, id);
    CompletedTold(s, steps, id, Last(s, steps).rows[id]);
  }

  // ---- after the end of a recorded process ---------------------------------------------

  predicate EndedUnexpectedly(r: Row) {
    r.status == Failed && r.error == "unexpected worker termination"
  }

  /** Where a row stands whose recorded process has gone while it ran. */
  ghost predicate Sealed(r: Row, procs: map<Pid, Proc>, id: JobId) {
    || (r.status == Running && !Alive(procs, r.pid))
    || EndedUnexpectedly(r)
    || (Terminal(r.status) && LeftBehind(procs, id))
  }

  lemma RanKept(s: State, step: Step)
    requires Enabled(s, step) && !step.Crash?
    ensures forall pid :: pid in s.procs && s.procs[pid].ran ==>
              pid in Exec(s, step).procs && Exec(s, step).procs[pid].ran && SameProc(s.procs[pid], Exec(s, step).procs[pid])
  {
    match step
    case D(d) => RanKeptD(s, d);
    case W(pid, w) => RanKeptW(s, pid, w);
    case _ => if Local(step) { SameProcs(s, step); }
  }

  lemma RanKeptW(s: State, p: Pid, w: WorkerStep)
    requires EnabledW(s, p, w)
    ensures forall pid :: pid in s.procs && s.procs[pid].ran ==>
              pid in ExecW(s, p, w).procs && ExecW(s, p, w).procs[pid].ran && SameProc(s.procs[pid], ExecW(s, p, w).procs[pid])
  {
  }

  lemma RanKeptD(s: State, d: DispStep)
    requires EnabledD(s, d)
    ensures forall pid :: pid in s.procs && s.procs[pid].ran ==>
              pid in ExecD(s, d).procs && ExecD(s, d).procs[pid].ran && SameProc(s.procs[pid], ExecD(s, d).procs[pid])
  {
  }

  lemma LeftBehindKept(s: State, step: Step, id: JobId)
    requires Enabled(s, step) && !step.Crash? && LeftBehind(s.procs, id)
    ensures LeftBehind(Exec(s, step).procs, id)
  {
    RanKept(s, step);
    var pid :| pid in s.procs && s.procs[pid].id == id && s.procs[pid].orphan && s.procs[pid].ran;
    assert pid in Exec(s, step).procs;
  }

  /** How such a row may go on, whoever else moves. */
  ghost predicate GoesOn(r: Row, r': Row, procs: map<Pid, Proc>, id: JobId) {
    r' == r || (r.status == Running && (EndedUnexpectedly(r') || (Terminal(r'.status) && LeftBehind(procs, id))))
  }

  lemma SealedChange(s: State, step: Step, id: JobId, r: Row, r': Row)
    requires LiveOkIn(s) && s.svc.boot.Serving? && id in s.rows && r == s.rows[id] && Sealed(r, s.procs, id)
    requires r' == r || Changes(s, step, id, r, r')
    ensures GoesOn(r, r', s.procs, id)
  {
    if r' != r && Finishes(s, step, id, r, r') { OnlyLeftBehind(s, step.pid); }
  }

  lemma SealedOn(r: Row, r': Row, procs: map<Pid, Proc>, procs': map<Pid, Proc>, id: JobId)
    requires Sealed(r, procs, id) && GoesOn(r, r', procs, id) && OnlyDie(procs, procs')
    requires (LeftBehind(procs, id) ==> LeftBehind(procs', id)) && (r.status == Running ==> r.pid in procs)
    ensures Sealed(r', procs', id)
  {
  }

  lemma SealedStep(s: State, step: Step, id: JobId)
    requires Inv(s) && Enabled(s, step) && !step.Crash? && s.svc.boot.Serving?
    requires id in s.rows && id in Exec(s, step).rows && Sealed(s.rows[id], s.procs, id)
    ensures Sealed(Exec(s, step).rows[id], Exec(s, step).procs, id)
  {
    RowChanges(s, step, id);
    SealedChange(s, step, id, s.rows[id], Exec(s, step).rows[id]);
    StepOnlyDies(s, step);
    if LeftBehind(s.procs, id) { LeftBehindKept(s, step, id); }
    assert s.rows[id].status == Running ==> Recorded(id, s.rows[id], s.procs);
    SealedOn(s.rows[id], Exec(s, step).rows[id], s.procs, Exec(s, step).procs, id);
  }

  /** While the service serves, a row whose recorded process has gone ends only as failed by
      the monitor, or by a worker of the job left behind unrecorded. */
  lemma {:induction false} GoneEnds(s: State, steps: seq<Step>, id: JobId)
    requires Reachable(s) && s.svc.boot.Serving? && Runs(s, steps) && forall i :: 0 <= i < |steps| ==> !steps[i].Crash?
    requires id in s.rows && Sealed(s.rows[id], s.procs, id) && id in Last(s, steps).rows
    ensures Sealed(Last(s, steps).rows[id], Last(s, steps).procs, id)
    decreases |steps|
  {
    if steps != [] {
      SealedGoes(s, steps[0], steps[1..], id);
      GoneEnds(Exec(s, steps[0]), steps[1..], id);
    }
  }

  lemma SealedGoes(s: State, step: Step, rest: seq<Step>, id: JobId)
    requires Reachable(s) && s.svc.boot.Serving? && Enabled(s, step) && !step.Crash? && Runs(Exec(s, step), rest)
    requires id in s.rows && Sealed(s.rows[id], s.procs, id) && id in Last(Exec(s, step), rest).rows
    ensures var m := Exec(s, step);
            Reachable(m) && m.svc.boot.Serving? && id in m.rows && Sealed(m.rows[id], m.procs, id)
  {
    RowStays(s, step, rest, id);
    ServingLasts(s, step);
    ReachableInv(s);
    SealedStep(s, step, id);
  }

  /** A row there now and at the end is there all the time. */
  lemma RowStays(s: State, step: Step, rest: seq<Step>, id: JobId)
    requires Reachable(s) && Enabled(s, step) && Runs(Exec(s, step), rest) && id in s.rows && id in Last(Exec(s, step), rest).rows
    ensures Reachable(Exec(s, step)) && id in Exec(s, step).rows
  {
    StepEvolves(s, step);
    RowsForward(Exec(s, step), rest);
    assert RowForward(id, s.rows[id], Exec(s, step).rows, Exec(s, step).purged);
  }
}
