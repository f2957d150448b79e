/** Which worker processes live, which of them run which job, and what becomes of the
    row when a worker ends. */
module Execution {
  import opened Clock
  import opened Jobs
  import opened Protocol
  import opened Safety
  import opened Registry

  // ---- live processes --------------------------------------------------------

  /** A live process of this lifetime is registered or in the dispatcher's hand. */
  ghost predicate Tracked(pid: Pid, p: Proc, workers: Workers, pc: DispPc) {
    (p.id in workers && workers[p.id].pid == pid) || (HasPid(pc) && pc.pid == pid)
  }

  /** The row of p's job, while there is one, names p. */
  ghost predicate Named(pid: Pid, p: Proc, rows: Table) {
    p.id in rows ==> rows[p.id].pid == pid
  }

  ghost predicate LiveOk(procs: map<Pid, Proc>, rows: Table, workers: Workers, pc: DispPc, life: nat) {
    && (forall pid :: pid in procs && procs[pid].phase != Exited && procs[pid].life == life
          ==> Tracked(pid, procs[pid], workers, pc))
    && (forall pid :: pid in procs && procs[pid].phase != Exited && !procs[pid].orphan && !Unrecorded(pc, pid)
          ==> Named(pid, procs[pid], rows))
    && (forall pid :: pid in procs && procs[pid].ran && !procs[pid].orphan ==> Named(pid, procs[pid], rows))
    && (forall pid :: pid in procs && procs[pid].phase in {Working, Finished} ==> procs[pid].ran)
  }

  /** No job is run by two processes that were recorded for it. */
  ghost predicate RanOnce(procs: map<Pid, Proc>) {
    forall p, q :: Executed(procs, p) && Executed(procs, q) && procs[p].id == procs[q].id ==> p == q
  }

  ghost predicate Executed(procs: map<Pid, Proc>, p: Pid) {
    p in procs && procs[p].ran && !procs[p].orphan
  }

  ghost predicate LiveOkIn(s: State) {
    LiveOk(s.procs, s.rows, s.svc.workers, s.svc.disp, s.svc.life) && RanOnce(s.procs)
  }

  ghost predicate Ready(s: State) {
    Base(s) && WorkersOkIn(s) && MonOkIn(s) && LiveOkIn(s)
  }

  /** How one process may change in a step of an actor other than the dispatcher. */
  ghost predicate ProcStep(pid: Pid, p: Proc, p': Proc, rows: Table) {
    && SameProc(p, p')
    && (p'.phase != Exited ==> p.phase != Exited)
    && (p.ran ==> p'.ran) && (p'.phase in {Working, Finished} ==> p'.ran)
    && (p'.ran && !p.ran && !p.orphan ==> p.id in rows && rows[p.id].pid == pid)
  }

  ghost predicate ProcsStep(procs: map<Pid, Proc>, procs': map<Pid, Proc>, rows: Table) {
    && procs.Keys == procs'.Keys
    && forall pid :: pid in procs ==> ProcStep(pid, procs[pid], procs'[pid], rows)
  }

  ghost predicate PidsKept(rows: Table, rows': Table) {
    forall id :: id in rows' ==> id in rows && rows'[id].pid == rows[id].pid
  }

  /** Entries go only after their process has gone. */
  ghost predicate OnlyDeadLeave(workers: Workers, workers': Workers, procs: map<Pid, Proc>) {
    forall id :: id in workers ==>
      (id in workers' && workers'[id] == workers[id]) || !Alive(procs, workers[id].pid)
  }

  lemma LiveFrame(procs: map<Pid, Proc>, procs': map<Pid, Proc>, rows: Table, rows': Table,
                  workers: Workers, workers': Workers, pc: DispPc, life: nat)
    requires LiveOk(procs, rows, workers, pc, life) && RanOnce(procs)
    requires ProcsStep(procs, procs', rows) && PidsKept(rows, rows') && OnlyDeadLeave(workers, workers', procs)
    ensures LiveOk(procs', rows', workers', pc, life) && RanOnce(procs')
  {
    forall p, q | Executed(procs', p) && Executed(procs', q) && procs'[p].id == procs'[q].id
      ensures p == q
    {
      assert ProcStep(p, procs[p], procs'[p], rows) && ProcStep(q, procs[q], procs'[q], rows);
      assert Executed(procs, p) || rows[procs[p].id].pid == p;
      assert Executed(procs, q) || rows[procs[q].id].pid == q;
      assert Executed(procs, p) ==> Named(p, procs[p], rows);
    }
    forall pid | pid in procs'
      ensures procs'[pid].ran && !procs'[pid].orphan ==> Named(pid, procs'[pid], rows')
      ensures procs'[pid].phase != Exited && !procs'[pid].orphan && !Unrecorded(pc, pid) ==> Named(pid, procs'[pid], rows')
      ensures procs'[pid].phase != Exited && procs'[pid].life == life ==> Tracked(pid, procs'[pid], workers', pc)
      ensures procs'[pid].phase in {Working, Finished} ==> procs'[pid].ran
    {
      assert ProcStep(pid, procs[pid], procs'[pid], rows);
      assert procs[pid].ran && !procs[pid].orphan ==> Named(pid, procs[pid], rows);
    }
  }

  lemma LiveSpawn(s: State, pid: Pid)
    requires Ready(s) && EnabledD(s, Spawn(true, pid))
    ensures LiveOkIn(ExecD(s, Spawn(true, pid)))
  {
    var s', p := ExecD(s, Spawn(true, pid)), Proc(s.svc.disp.item.id, s.svc.disp.item.job, s.svc.life, Starting, false, false);
    assert s'.procs == s.procs[pid := p];
  }

  lemma LiveMark(s: State, ok: bool, now: Time)
    requires Ready(s) && EnabledD(s, Mark(ok, now))
    ensures LiveOkIn(ExecD(s, Mark(ok, now)))
  {
    var s', pc := ExecD(s, Mark(ok, now)), s.svc.disp;
    assert Waits(s.rows, pc.item);
    if ok {
      forall p | p in s.procs && p != pc.pid && s.procs[p].id == pc.item.id && !s.procs[p].orphan
        ensures s.procs[p].phase == Exited && !s.procs[p].ran
      {
        assert RowOk(s.rows[pc.item.id]);
        assert !Named(p, s.procs[p], s.rows);
      }
    }
  }

  lemma LiveKill(s: State)
    requires Ready(s) && EnabledD(s, Kill)
    ensures LiveOkIn(ExecD(s, Kill))
  {
  }

  lemma LiveRegister(s: State)
    requires Ready(s) && EnabledD(s, Register)
    ensures LiveOkIn(ExecD(s, Register))
  {
    var s', pc := ExecD(s, Register), s.svc.disp;
    assert s'.svc.workers == s.svc.workers[pc.item.id := Entry(pc.pid, pc.item.job, s.svc.pass)];
  }

  lemma LiveMoves(s: State, d: DispStep)
    requires Ready(s) && EnabledD(s, d) && !HasPid(s.svc.disp) && !(d.Spawn? && d.ok)
    ensures LiveOkIn(ExecD(s, d))
  {
    var s' := ExecD(s, d);
    MovesTouchNothing(s, d);
    LiveUnhanded(s.procs, s.rows, s.svc.workers, s.svc.disp, s'.svc.disp, s.svc.life);
  }

  lemma MovesTouchNothing(s: State, d: DispStep)
    requires EnabledD(s, d) && !HasPid(s.svc.disp) && !(d.Spawn? && d.ok)
    ensures var s' := ExecD(s, d);
            s'.procs == s.procs && s'.rows == s.rows && s'.svc.workers == s.svc.workers && s'.svc.life == s.svc.life
            && !HasPid(s'.svc.disp)
  {
  }

  lemma LiveUnhanded(procs: map<Pid, Proc>, rows: Table, workers: Workers, pc: DispPc, pc': DispPc, life: nat)
    requires LiveOk(procs, rows, workers, pc, life) && !HasPid(pc) && !HasPid(pc')
    ensures LiveOk(procs, rows, workers, pc', life)
  {
  }

  lemma LiveStepD(s: State, d: DispStep)
    requires Ready(s) && EnabledD(s, d)
    ensures LiveOkIn(ExecD(s, d))
  {
    match d
    case Mark(ok, now) => LiveMark(s, ok, now);
    case Kill => LiveKill(s);
    case Register => LiveRegister(s);
    case Spawn(ok, pid) => if ok { LiveSpawn(s, pid); } else { LiveMoves(s, d); }
    case _ => LiveMoves(s, d);
  }

  /** A worker that finds its row running and was not left behind by a dying service is
      the one the row names. */
  lemma CheckFindsItself(s: State, pid: Pid)
    requires Base(s) && LiveOkIn(s) && pid in s.procs && s.procs[pid].phase == Starting
    requires CanSwap(s.rows, s.procs[pid].id, Running)
    ensures s.rows[s.procs[pid].id].pid == pid <==> !s.procs[pid].orphan
  {
    assert Recorded(s.procs[pid].id, s.rows[s.procs[pid].id], s.procs);
    if !s.procs[pid].orphan {
      assert Named(pid, s.procs[pid], s.rows);
    }
  }

  lemma WorkerStepShape(s: State, pid: Pid, w: WorkerStep)
    requires Base(s) && LiveOkIn(s) && EnabledW(s, pid, w)
    ensures ProcsStep(s.procs, ExecW(s, pid, w).procs, s.rows)
  {
    if w.Check? && CanSwap(s.rows, s.procs[pid].id, Running) { CheckFindsItself(s, pid); }
  }

  lemma MonitorStepShape(s: State, m: MonStep)
    requires MonOkIn(s) && EnabledM(s, m)
    ensures ExecM(s, m).procs == s.procs && OnlyDeadLeave(s.svc.workers, ExecM(s, m).svc.workers, s.procs)
  {
  }

  lemma LocalShape(s: State, step: Step)
    requires Ready(s) && Enabled(s, step) && Local(step)
    ensures ProcsStep(s.procs, Exec(s, step).procs, s.rows)
    ensures OnlyDeadLeave(s.svc.workers, Exec(s, step).svc.workers, s.procs)
  {
    if step.W? {
      WorkerStepShape(s, step.pid, step.w);
      MonOthers(s, step);
    } else if step.M? {
      MonitorStepShape(s, step.m);
    } else {
      MonOthers(s, step);
      SameProcs(s, step);
    }
  }

  lemma LiveCrash(s: State)
    requires Ready(s)
    ensures LiveOkIn(ExecCrash(s))
  {
    var s' := ExecCrash(s);
    forall pid | pid in s'.procs
      ensures s'.procs[pid].life < s'.svc.life
    {
      assert ProcOk(s.rows, s.purged, s.procs[pid], s.svc.life);
    }
    forall p | Executed(s'.procs, p) ensures Executed(s.procs, p) {}
  }

  lemma LivePurge(s: State, cutoff: Time)
    requires Ready(s)
    ensures LiveOkIn(ExecPurge(s, cutoff))
  {
    LiveFrame(s.procs, s.procs, s.rows, s.rows - Expired(s.rows, cutoff), s.svc.workers, s.svc.workers, s.svc.disp, s.svc.life);
  }

  lemma LiveInsert(s: State, step: Step)
    requires Ready(s) && Enabled(s, step) && Inserts(step)
    ensures LiveOkIn(Exec(s, step))
  {
    var id, job, now := InsertShape(s, step);
    forall pid | pid in s.procs ensures s.procs[pid].id != id {
      assert ProcOk(s.rows, s.purged, s.procs[pid], s.svc.life);
    }
  }

  lemma LiveStep(s: State, step: Step)
    requires Ready(s) && Enabled(s, step)
    ensures LiveOkIn(Exec(s, step))
  {
    if Local(step) {
      var s' := Exec(s, step);
      LocalLeaves(s, step);
      LocalShape(s, step);
      LiveFrame(s.procs, s'.procs, s.rows, s'.rows, s.svc.workers, s'.svc.workers, s.svc.disp, s.svc.life);
    } else if Inserts(step) {
      LiveInsert(s, step);
    } else {
      match step
      case D(d) => LiveStepD(s, d);
      case Purge(cutoff) => LivePurge(s, cutoff);
      case Crash => LiveCrash(s);
    }
  }

  lemma SameProcs(s: State, step: Step)
    requires Enabled(s, step) && Local(step) && !step.W?
    ensures Exec(s, step).procs == s.procs
  {
    if step.R? { RequestFrame(s, step.r); }
  }

  // ---- rows of this lifetime -------------------------------------------------

  /** A running row recorded in this lifetime is registered, about to be registered,
      or `lost`: its worker's end was handled while the store did not answer. */
  ghost predicate AgreeOk(rows: Table, purged: set<JobId>, procs: map<Pid, Proc>, workers: Workers, pc: DispPc,
                          lost: set<JobId>, life: nat) {
    && (forall id :: id in rows && rows[id].status == Running && OfLife(rows[id], procs, life)
          ==> id in workers || InWriting(pc, id) || id in lost)
    && (forall id :: id in lost ==> Abandoned(id, rows, purged, procs, workers, pc))
  }

  ghost predicate OfLife(r: Row, procs: map<Pid, Proc>, life: nat) {
    r.pid in procs && procs[r.pid].life == life
  }

  predicate InWriting(pc: DispPc, id: JobId) {
    pc.Written? && pc.item.id == id
  }

  ghost predicate Abandoned(id: JobId, rows: Table, purged: set<JobId>, procs: map<Pid, Proc>, workers: Workers, pc: DispPc) {
    && id !in workers && !InWriting(pc, id) && (id in rows || id in purged)
    && (id in rows ==> rows[id].pid != 0 && !Alive(procs, rows[id].pid))
  }

  ghost predicate AgreeOkIn(s: State) {
    AgreeOk(s.rows, s.purged, s.procs, s.svc.workers, s.svc.disp, s.svc.lost, s.svc.life)
  }

  lemma AgreeFrame(s: State, s': State)
    requires AgreeOkIn(s) && Leaves(s, s') && OnlyDie(s.procs, s'.procs)
    requires s'.svc.workers == s.svc.workers && s'.svc.lost == s.svc.lost
    ensures AgreeOkIn(s')
  {
    forall id | id in s'.svc.lost
      ensures Abandoned(id, s'.rows, s'.purged, s'.procs, s'.svc.workers, s'.svc.disp)
    {
      assert Abandoned(id, s.rows, s.purged, s.procs, s.svc.workers, s.svc.disp);
    }
    forall id | id in s'.rows && s'.rows[id].status == Running && OfLife(s'.rows[id], s'.procs, s'.svc.life)
      ensures id in s'.svc.workers || InWriting(s'.svc.disp, id) || id in s'.svc.lost
    {
      assert OfLife(s.rows[id], s.procs, s.svc.life);
    }
  }

  lemma LostOnlyByRemove(s: State, step: Step)
    requires Enabled(s, step) && Local(step) && !(step.M? && step.m.Remove?)
    ensures Exec(s, step).svc.workers == s.svc.workers && Exec(s, step).svc.lost == s.svc.lost
  {
    if step.R? { RequestFrame(s, step.r); }
  }

  lemma AgreeRemove(s: State)
    requires Ready(s) && AgreeOkIn(s) && EnabledM(s, Remove)
    ensures AgreeOkIn(ExecM(s, Remove))
  {
    var s', gone := ExecM(s, Remove), s.svc.mon.id;
    assert EntryOk(gone, s.svc.workers[gone], s.rows, s.procs, s.svc.life, s.svc.pass);
    RegisteredNotQueued(s, gone);
    forall id | id in s'.svc.lost
      ensures Abandoned(id, s'.rows, s'.purged, s'.procs, s'.svc.workers, s'.svc.disp)
    {
      assert id in s.svc.lost ==> Abandoned(id, s.rows, s.purged, s.procs, s.svc.workers, s.svc.disp);
    }
  }

  lemma AgreeMark(s: State, ok: bool, now: Time)
    requires Ready(s) && AgreeOkIn(s) && EnabledD(s, Mark(ok, now))
    ensures AgreeOkIn(ExecD(s, Mark(ok, now)))
  {
    var s', item := ExecD(s, Mark(ok, now)), s.svc.disp.item;
    assert Waits(s.rows, item) && RowOk(s.rows[item.id]);
    forall id | id in s'.svc.lost
      ensures Abandoned(id, s'.rows, s'.purged, s'.procs, s'.svc.workers, s'.svc.disp)
    {
      assert Abandoned(id, s.rows, s.purged, s.procs, s.svc.workers, s.svc.disp);
    }
    forall id | id in s'.rows && s'.rows[id].status == Running && OfLife(s'.rows[id], s'.procs, s'.svc.life)
      ensures id in s'.svc.workers || InWriting(s'.svc.disp, id) || id in s'.svc.lost
    {
      assert id != item.id ==> OfLife(s.rows[id], s.procs, s.svc.life);
    }
  }

  lemma AgreeRegister(s: State)
    requires Ready(s) && AgreeOkIn(s) && EnabledD(s, Register)
    ensures AgreeOkIn(ExecD(s, Register))
  {
    var s' := ExecD(s, Register);
    forall id | id in s'.svc.lost
      ensures Abandoned(id, s'.rows, s'.purged, s'.procs, s'.svc.workers, s'.svc.disp)
    {
      assert Abandoned(id, s.rows, s.purged, s.procs, s.svc.workers, s.svc.disp);
    }
  }

  lemma AgreeMoves(s: State, d: DispStep)
    requires Ready(s) && AgreeOkIn(s) && EnabledD(s, d) && !d.Mark? && !d.Register?
    ensures AgreeOkIn(ExecD(s, d))
  {
    var s' := ExecD(s, d);
    DispOnlyKills(s, d);
    MovesKeepRows(s, d);
    forall id | id in s'.svc.lost
      ensures Abandoned(id, s'.rows, s'.purged, s'.procs, s'.svc.workers, s'.svc.disp)
    {
      assert Abandoned(id, s.rows, s.purged, s.procs, s.svc.workers, s.svc.disp);
      assert id in s.rows ==> Recorded(id, s.rows[id], s.procs);
    }
    forall id | id in s'.rows && s'.rows[id].status == Running && OfLife(s'.rows[id], s'.procs, s'.svc.life)
      ensures id in s'.svc.workers || InWriting(s'.svc.disp, id) || id in s'.svc.lost
    {
      assert RowOk(s.rows[id]) && Recorded(id, s.rows[id], s.procs);
      assert OfLife(s.rows[id], s.procs, s.svc.life);
    }
  }

  lemma MovesKeepRows(s: State, d: DispStep)
    requires EnabledD(s, d) && !d.Mark? && !d.Register?
    ensures var s' := ExecD(s, d);
            && s'.rows == s.rows && s'.purged == s.purged
            && s'.svc.workers == s.svc.workers && s'.svc.lost == s.svc.lost && s'.svc.life == s.svc.life
            && !s.svc.disp.Written? && !s'.svc.disp.Written?
            && forall pid :: pid in s.procs && s'.procs[pid].life == s.svc.life ==> s.procs[pid].life == s.svc.life
  {
  }

  lemma AgreeInsert(s: State, step: Step)
    requires Ready(s) && AgreeOkIn(s) && Enabled(s, step) && Inserts(step)
    ensures AgreeOkIn(Exec(s, step))
  {
    var id0, job, now := InsertShape(s, step);
    var s' := Exec(s, step);
    forall id | id in s'.svc.lost
      ensures Abandoned(id, s'.rows, s'.purged, s'.procs, s'.svc.workers, s'.svc.disp)
    {
      assert Abandoned(id, s.rows, s.purged, s.procs, s.svc.workers, s.svc.disp);
    }
  }

  lemma AgreePurge(s: State, cutoff: Time)
    requires AgreeOkIn(s)
    ensures AgreeOkIn(ExecPurge(s, cutoff))
  {
    var s' := ExecPurge(s, cutoff);
    forall id | id in s'.svc.lost
      ensures Abandoned(id, s'.rows, s'.purged, s'.procs, s'.svc.workers, s'.svc.disp)
    {
      assert Abandoned(id, s.rows, s.purged, s.procs, s.svc.workers, s.svc.disp);
    }
  }

  lemma AgreeCrash(s: State)
    requires Base(s)
    ensures AgreeOkIn(ExecCrash(s))
  {
    var s' := ExecCrash(s);
    forall pid | pid in s'.procs ensures s'.procs[pid].life != s'.svc.life {
      assert ProcOk(s.rows, s.purged, s.procs[pid], s.svc.life);
    }
  }

  lemma AgreeStep(s: State, step: Step)
    requires Ready(s) && AgreeOkIn(s) && Enabled(s, step)
    ensures AgreeOkIn(Exec(s, step))
  {
    if step.M? && step.m.Remove? {
      AgreeRemove(s);
    } else if Local(step) {
      LocalLeaves(s, step);
      StepOnlyDies(s, step);
      LostOnlyByRemove(s, step);
      AgreeFrame(s, Exec(s, step));
    } else if Inserts(step) {
      AgreeInsert(s, step);
    } else {
      match step
      case D(d) => if d.Mark? { AgreeMark(s, d.ok, d.now); } else if d.Register? { AgreeRegister(s); } else { AgreeMoves(s, d); }
      case Purge(cutoff) => AgreePurge(s, cutoff);
      case Crash => AgreeCrash(s);
    }
  }
}
