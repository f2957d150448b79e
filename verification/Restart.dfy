/** Startup recovery: what the rows look like when the service begins to serve again,
    with workers of the previous lifetime still finishing their own rows. */
module Restart {
  import opened Clock
  import opened Jobs
  import opened Protocol
  import opened Safety
  import opened Registry
  import opened Execution
  import opened Clients
  import opened Agent

  /** Nothing of the service but recovery itself is at work yet. */
  predicate Quiescent(s: State) {
    && !s.svc.boot.Serving?
    && s.svc.disp.Idle? && s.svc.mon.Free? && s.svc.workers == map[] && s.net.req.Waiting?
    && s.gate.waiters == map[] && s.gate.owed == 0
  }

  /** Every store call of the recovery loop succeeds; the service does not die again. */
  predicate RecoverySteps(step: Step) {
    && !step.Crash?
    && !(step.B? && ((step.b.ListRunning? && !step.b.ok) || (step.b.Condemn? && !step.b.ok)))
  }

  predicate Pending(todo: seq<(JobId, Pid)>, id: JobId) {
    exists i :: 0 <= i < |todo| && todo[i].0 == id
  }

  ghost predicate TodoOk(rows0: Table, todo: seq<(JobId, Pid)>) {
    forall i :: 0 <= i < |todo| ==> todo[i].0 in rows0 && rows0[todo[i].0].pid == todo[i].1
  }

  /** Where the loop stands with respect to the rows and processes it began with. */
  ghost predicate RecOk(rows0: Table, procs0: map<Pid, Proc>, s: State) {
    && s.rows.Keys == rows0.Keys
    && (forall id :: id in rows0 ==> Recovered(rows0[id], s.rows[id]))
    && Ebbs(procs0, s.procs)
    && match s.svc.boot
       case Booting => true
       case Recovering(todo) =>
         TodoOk(rows0, todo) && forall id :: DeadRunning(s.rows, procs0, id) ==> Pending(todo, id)
       case Condemning(c, todo) =>
         && c in rows0 && !Alive(s.procs, rows0[c].pid)
         && TodoOk(rows0, todo) && forall id :: DeadRunning(s.rows, procs0, id) ==> id == c || Pending(todo, id)
       case Serving => true
  }

  /** Whoever lives now lived then. */
  ghost predicate Ebbs(procs0: map<Pid, Proc>, procs: map<Pid, Proc>) {
    forall pid :: Alive(procs, pid) ==> Alive(procs0, pid)
  }

  ghost predicate Recovered(r: Row, r': Row) {
    Follows(r, r') && (r.status == Queued ==> r' == r)
  }

  /** A worker of the job got to work although no row names it. */
  ghost predicate LeftBehind(procs: map<Pid, Proc>, id: JobId) {
    exists pid :: pid in procs && procs[pid].id == id && procs[pid].orphan && procs[pid].ran
  }

  /** Where a row that ran under a dead process stands: only a worker left behind can have
      ended it otherwise than recovery. */
  ghost predicate Fated(r: Row, procs: map<Pid, Proc>, id: JobId) {
    r.status == Running || Condemned(r) || LeftBehind(procs, id)
  }

  predicate Condemned(r: Row) {
    r.status == Failed && r.error == "orphaned job"
  }

  ghost predicate FatesOk(rows0: Table, procs0: map<Pid, Proc>, s: State) {
    forall id :: DeadRunning(rows0, procs0, id) && id in s.rows ==> Fated(s.rows[id], s.procs, id)
  }

  predicate DeadRunning(rows: Table, procs0: map<Pid, Proc>, id: JobId) {
    id in rows && rows[id].status == Running && !Alive(procs0, rows[id].pid)
  }

  lemma QuiescentStep(s: State, step: Step)
    requires Quiescent(s) && Enabled(s, step) && !step.Crash?
    ensures step.W? || step.B? || (step.R? && (step.r.Publish? || step.r.ChannelLost?))
    ensures Exec(s, step).svc.boot.Serving? || Quiescent(Exec(s, step))
  {
    if step.D? { QuietD(s, step.d); }
    if step.R? { QuietR(s, step.r); }
  }

  lemma QuietD(s: State, d: DispStep)
    requires Quiescent(s)
    ensures !EnabledD(s, d)
  {
  }

  lemma QuietR(s: State, r: ReqStep)
    requires Quiescent(s) && EnabledR(s, r)
    ensures r.Publish? || r.ChannelLost?
    ensures Quiescent(ExecR(s, r)) && ExecR(s, r).rows == s.rows && ExecR(s, r).procs == s.procs
  {
  }

  /** A worker, or recovery, ends a row. */
  lemma RecRows(rows0: Table, rows: Table, rows': Table, procs0: map<Pid, Proc>)
    requires rows.Keys == rows0.Keys && forall id :: id in rows0 ==> RowOk(rows0[id]) && Recovered(rows0[id], rows[id])
    requires RowsMoved(rows, rows') && forall id :: id in rows ==> RowOk(rows[id]) && Follows(rows[id], rows'[id])
    ensures rows'.Keys == rows0.Keys && forall id :: id in rows0 ==> Recovered(rows0[id], rows'[id])
    ensures forall id :: DeadRunning(rows', procs0, id) ==> DeadRunning(rows, procs0, id)
  {
    forall id | id in rows0 ensures Recovered(rows0[id], rows'[id]) {
      assert Recovered(rows0[id], rows[id]) && RowMoved(rows[id], rows'[id]);
    }
    forall id | DeadRunning(rows', procs0, id) ensures DeadRunning(rows, procs0, id) {
      assert RowMoved(rows[id], rows'[id]);
    }
  }

  lemma RecWorker(rows0: Table, procs0: map<Pid, Proc>, s: State, pid: Pid, w: WorkerStep)
    requires Base(s) && RecOk(rows0, procs0, s) && EnabledW(s, pid, w)
    requires forall id :: id in rows0 ==> RowOk(rows0[id])
    ensures RecOk(rows0, procs0, ExecW(s, pid, w))
  {
    var s' := ExecW(s, pid, w);
    WorkerEvolves(s, pid, w);
    WorkerLeaves(s, pid, w);
    RecRows(rows0, s.rows, s'.rows, procs0);
    assert s'.svc == s.svc;
    assert Ebbs(s.procs, s'.procs);
    assert Ebbs(procs0, s'.procs);
  }

  lemma RecList(rows0: Table, procs0: map<Pid, Proc>, s: State, ids: seq<JobId>)
    requires Base(s) && RecOk(rows0, procs0, s) && EnabledB(s, ListRunning(true, ids))
    requires forall id :: id in rows0 ==> RowOk(rows0[id])
    ensures RecOk(rows0, procs0, ExecB(s, ListRunning(true, ids)))
  {
    var todo := Pids(s.rows, ids);
    ListCovers(s.rows, ids);
    forall i | 0 <= i < |todo| ensures todo[i].0 in rows0 && rows0[todo[i].0].pid == todo[i].1 {
      assert Recovered(rows0[ids[i]], s.rows[ids[i]]) && RowOk(rows0[ids[i]]);
    }
  }

  lemma ListCovers(rows: Table, ids: seq<JobId>)
    requires Matching(rows, Running, ids)
    ensures forall id :: id in rows && rows[id].status == Running ==> Pending(Pids(rows, ids), id)
  {
    forall id | id in rows && rows[id].status == Running ensures Pending(Pids(rows, ids), id) {
      var i :| 0 <= i < |ids| && ids[i] == id;
      assert Pids(rows, ids)[i].0 == id;
    }
  }

  lemma PendingTail(todo: seq<(JobId, Pid)>, id: JobId)
    requires todo != [] && Pending(todo, id) && todo[0].0 != id
    ensures Pending(todo[1..], id)
  {
    var i :| 0 <= i < |todo| && todo[i].0 == id;
    assert todo[1..][i - 1].0 == id;
  }

  lemma RecExamine(rows0: Table, procs0: map<Pid, Proc>, s: State)
    requires Base(s) && RecOk(rows0, procs0, s) && EnabledB(s, Examine)
    ensures RecOk(rows0, procs0, ExecB(s, Examine))
  {
    var todo := s.svc.boot.todo;
    var (c, pid) := todo[0];
    assert c in rows0 && Recovered(rows0[c], s.rows[c]);
    forall id | DeadRunning(s.rows, procs0, id) && id != c ensures Pending(todo[1..], id) {
      PendingTail(todo, id);
    }
    if DeadRunning(s.rows, procs0, c) { RunningKeepsPid(rows0[c], s.rows[c]); }
  }

  lemma RunningKeepsPid(r: Row, r': Row)
    requires Recovered(r, r') && r'.status == Running
    ensures r'.pid == r.pid
  {
  }

  lemma RecCondemn(rows0: Table, procs0: map<Pid, Proc>, s: State, now: Time)
    requires Base(s) && RecOk(rows0, procs0, s) && EnabledB(s, Condemn(true, now))
    requires forall id :: id in rows0 ==> RowOk(rows0[id])
    ensures RecOk(rows0, procs0, ExecB(s, Condemn(true, now)))
  {
    var s' := ExecB(s, Condemn(true, now));
    BootEvolves(s, Condemn(true, now));
    BootLeaves(s, Condemn(true, now));
    RecRows(rows0, s.rows, s'.rows, procs0);
    forall id | DeadRunning(s'.rows, procs0, id) ensures Pending(s.svc.boot.todo, id) {
      assert DeadRunning(s.rows, procs0, id);
      assert id != s.svc.boot.id;
    }
  }

  lemma FateKept(r: Row, procs: map<Pid, Proc>, procs': map<Pid, Proc>, id: JobId)
    requires Fated(r, procs, id)
    requires forall pid :: pid in procs && procs[pid].ran ==> pid in procs' && procs'[pid].ran && SameProc(procs[pid], procs'[pid])
    ensures Fated(r, procs', id)
  {
    if LeftBehind(procs, id) {
      var pid :| pid in procs && procs[pid].id == id && procs[pid].orphan && procs[pid].ran;
      assert pid in procs';
    }
  }

  lemma FateWorker(rows0: Table, procs0: map<Pid, Proc>, s: State, pid: Pid, w: WorkerStep)
    requires LiveOkIn(s) && RecOk(rows0, procs0, s) && FatesOk(rows0, procs0, s) && EnabledW(s, pid, w)
    ensures FatesOk(rows0, procs0, ExecW(s, pid, w))
  {
    var s', own := ExecW(s, pid, w), s.procs[pid].id;
    forall id | DeadRunning(rows0, procs0, id) && id in s'.rows ensures Fated(s'.rows[id], s'.procs, id) {
      if id == own && w.Finish? && s.rows[id].status == Running {
        RunningKeepsPid(rows0[id], s.rows[id]);
        OnlyLeftBehind(s, pid);
        assert s'.procs[pid].id == id && s'.procs[pid].orphan && s'.procs[pid].ran;
      } else {
        assert s'.rows[id] == s.rows[id];
        FateKept(s.rows[id], s.procs, s'.procs, id);
      }
    }
  }

  /** Who works on a row whose recorded process is dead was left behind. */
  lemma OnlyLeftBehind(s: State, pid: Pid)
    requires LiveOkIn(s) && pid in s.procs && s.procs[pid].phase == Working
    requires var id := s.procs[pid].id; CanSwap(s.rows, id, Running) && !Alive(s.procs, s.rows[id].pid)
    ensures s.procs[pid].orphan && s.procs[pid].ran
  {
    assert Alive(s.procs, pid);
    assert !Named(pid, s.procs[pid], s.rows);
  }

  lemma FateBoot(rows0: Table, procs0: map<Pid, Proc>, s: State, b: BootStep)
    requires FatesOk(rows0, procs0, s) && EnabledB(s, b)
    ensures FatesOk(rows0, procs0, ExecB(s, b))
  {
    var s' := ExecB(s, b);
    forall id | DeadRunning(rows0, procs0, id) && id in s'.rows ensures Fated(s'.rows[id], s'.procs, id) {
      assert Fated(s.rows[id], s.procs, id);
    }
  }

  lemma FateStep(rows0: Table, procs0: map<Pid, Proc>, s: State, step: Step)
    requires Inv(s) && Quiescent(s) && RecOk(rows0, procs0, s) && FatesOk(rows0, procs0, s)
    requires Enabled(s, step) && !step.Crash?
    ensures FatesOk(rows0, procs0, Exec(s, step))
  {
    QuiescentStep(s, step);
    match step
    case W(pid, w) => FateWorker(rows0, procs0, s, pid, w);
    case R(r) => QuietR(s, r);
    case B(b) => FateBoot(rows0, procs0, s, b);
  }

  lemma RecStep(rows0: Table, procs0: map<Pid, Proc>, s: State, step: Step)
    requires Inv(s) && Quiescent(s) && RecOk(rows0, procs0, s) && Enabled(s, step) && RecoverySteps(step)
    requires forall id :: id in rows0 ==> RowOk(rows0[id])
    requires !Exec(s, step).svc.boot.Serving?
    ensures Quiescent(Exec(s, step)) && RecOk(rows0, procs0, Exec(s, step))
  {
    QuiescentStep(s, step);
    if step.W? {
      RecWorker(rows0, procs0, s, step.pid, step.w);
    } else if step.R? {
      QuietR(s, step.r);
      RequestFrame(s, step.r);
    } else {
      match step.b
      case ListRunning(ok, ids) => RecList(rows0, procs0, s, ids);
      case Examine => RecExamine(rows0, procs0, s);
      case Condemn(ok, now) => RecCondemn(rows0, procs0, s, now);
    }
  }

  lemma ServingLasts(s: State, step: Step)
    requires Enabled(s, step) && !step.Crash? && s.svc.boot.Serving?
    ensures Exec(s, step).svc.boot.Serving?
  {
    match step
    case R(r) => RequestFrame(s, r);
    case D(d) => DispFrame(s, d);
    case _ =>
  }

  lemma {:induction false} ServingAtLast(s: State, steps: seq<Step>)
    requires s.svc.boot.Serving? && Runs(s, steps) && forall i :: 0 <= i < |steps| ==> !steps[i].Crash?
    ensures Last(s, steps).svc.boot.Serving?
    decreases |steps|
  {
    if steps != [] {
      ServingLasts(s, steps[0]);
      ServingAtLast(Exec(s, steps[0]), steps[1..]);
    }
  }

  lemma {:induction false} RecRun(rows0: Table, procs0: map<Pid, Proc>, s: State, steps: seq<Step>)
    requires Inv(s) && Quiescent(s) && RecOk(rows0, procs0, s) && FatesOk(rows0, procs0, s) && Runs(s, steps)
    requires forall id :: id in rows0 ==> RowOk(rows0[id])
    requires forall i :: 0 <= i < |steps| ==> RecoverySteps(steps[i])
    requires !Last(s, steps).svc.boot.Serving?
    ensures Quiescent(Last(s, steps)) && RecOk(rows0, procs0, Last(s, steps)) && FatesOk(rows0, procs0, Last(s, steps))
    decreases |steps|
  {
    if steps != [] {
      var m := Exec(s, steps[0]);
      if m.svc.boot.Serving? { ServingAtLast(m, steps[1..]); }
      RecStep(rows0, procs0, s, steps[0]);
      FateStep(rows0, procs0, s, steps[0]);
      InvStep(s, steps[0]);
      RecRun(rows0, procs0, m, steps[1..]);
    }
  }

  /** The table and the processes after recovery, against those before it. */
  ghost predicate Restored(rows0: Table, procs0: map<Pid, Proc>, rows: Table, procs: map<Pid, Proc>) {
    rows.Keys == rows0.Keys && forall id :: id in rows ==> RestoredRow(id, rows0[id], procs0, rows[id], procs)
  }

  /** A row still running names a process that was alive; one that was running under a dead
      process has been failed as orphaned, or a worker of the job left behind unrecorded got
      to work on it, and it is terminal; a queued or terminal row is as it was. */
  ghost predicate RestoredRow(id: JobId, r: Row, procs0: map<Pid, Proc>, r': Row, procs: map<Pid, Proc>) {
    && (r'.status == Running ==> r.status == Running && r'.pid == r.pid && Alive(procs0, r.pid))
    && (r.status == Running && !Alive(procs0, r.pid) ==> Condemned(r') || (Terminal(r'.status) && LeftBehind(procs, id)))
    && (r.status != Running ==> r' == r)
  }

  lemma RecDone(rows0: Table, procs0: map<Pid, Proc>, s: State)
    requires RecOk(rows0, procs0, s) && FatesOk(rows0, procs0, s) && s.svc.boot == Recovering([])
    ensures Restored(rows0, procs0, s.rows, s.procs)
  {
    forall id | id in s.rows ensures RestoredRow(id, rows0[id], procs0, s.rows[id], s.procs) {
      assert Recovered(rows0[id], s.rows[id]) && !DeadRunning(s.rows, procs0, id);
      assert DeadRunning(rows0, procs0, id) ==> Fated(s.rows[id], s.procs, id);
    }
  }

  lemma RecHere(c: State)
    requires Inv(c) && c.svc.boot.Booting?
    ensures RecOk(c.rows, c.procs, c) && FatesOk(c.rows, c.procs, c) && forall id :: id in c.rows ==> RowOk(c.rows[id])
  {
    forall id | id in c.rows ensures Recovered(c.rows[id], c.rows[id]) {}
  }

  // ---- a service that does not serve yet is quiescent ----------------------------

  predicate BootOk(s: State) {
    s.svc.boot.Serving? || Quiescent(s)
  }

  lemma BootOkStep(s: State, step: Step)
    requires BootOk(s) && Enabled(s, step)
    ensures BootOk(Exec(s, step))
  {
    if !step.Crash? {
      if s.svc.boot.Serving? { ServingLasts(s, step); } else { QuiescentStep(s, step); }
    }
  }

  lemma {:induction false} BootOkRun(s: State, steps: seq<Step>)
    requires BootOk(s) && Runs(s, steps)
    ensures BootOk(Last(s, steps))
    decreases |steps|
  {
    if steps != [] {
      BootOkStep(s, steps[0]);
      BootOkRun(Exec(s, steps[0]), steps[1..]);
    }
  }

  /** Whatever crash came before: until it serves, nothing of the service but recovery is
      at work. */
  lemma QuietUntilServing(s: State)
    requires Reachable(s)
    ensures s.svc.boot.Serving? || Quiescent(s)
  {
    var s0, steps :| Init(s0) && Runs(s0, steps) && Last(s0, steps) == s;
    BootOkRun(s0, steps);
  }

  /** From any moment before recovery lists the rows, with workers of earlier lifetimes
      ending or finishing their own rows all the while: what the table holds when the loop
      is done, against the rows and processes of that moment. */
  lemma RecoveryRestores(s: State, steps: seq<Step>)
    requires Reachable(s) && s.svc.boot.Booting? && Runs(s, steps)
    requires forall i :: 0 <= i < |steps| ==> RecoverySteps(steps[i])
    requires EnabledB(Last(s, steps), Serve)
    ensures Restored(s.rows, s.procs, Last(s, steps).rows, Last(s, steps).procs)
  {
    ReachableInv(s);
    QuietUntilServing(s);
    RecHere(s);
    RecRun(s.rows, s.procs, s, steps);
    RecDone(s.rows, s.procs, Last(s, steps));
  }

  /** Recovery itself fails no row whose worker is alive at that moment. */
  lemma CondemnsOnlyDead(s: State, steps: seq<Step>, id: JobId)
    requires Reachable(s) && s.svc.boot.Booting? && Runs(s, steps)
    requires forall i :: 0 <= i < |steps| ==> RecoverySteps(steps[i])
    requires var t := Last(s, steps);
             t.svc.boot.Condemning? && t.svc.boot.id == id && id in t.rows && t.rows[id].status == Running
    ensures !Alive(Last(s, steps).procs, Last(s, steps).rows[id].pid)
  {
    ReachableInv(s);
    QuietUntilServing(s);
    RecHere(s);
    RecRun(s.rows, s.procs, s, steps);
    RunningKeepsPid(s.rows[id], Last(s, steps).rows[id]);
  }
}
