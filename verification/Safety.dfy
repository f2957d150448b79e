/** What every step keeps: the table, the processes, the dispatcher's bookkeeping and
    the registry. */
module Safety {
  import opened Clock
  import opened Jobs
  import opened Protocol

  predicate InScan(pc: DispPc) {
    pc.Scanning? || InHand(pc)
  }

  predicate InHand(pc: DispPc) {
    pc.Chosen? || HasPid(pc)
  }

  predicate HasPid(pc: DispPc) {
    pc.Spawned? || pc.Refused? || pc.Written?
  }

  // ---- rows and processes ----------------------------------------------------

  ghost predicate RowsOk(rows: Table, purged: set<JobId>, procs: map<Pid, Proc>) {
    forall id :: id in rows ==> RowOk(rows[id]) && id !in purged && Recorded(id, rows[id], procs)
  }

  /** A recorded PID is that of a process spawned for the row. */
  ghost predicate Recorded(id: JobId, r: Row, procs: map<Pid, Proc>) {
    r.pid != 0 ==>
      r.pid in procs && procs[r.pid].id == id && procs[r.pid].job == r.job && !procs[r.pid].orphan
  }

  ghost predicate ProcsOk(rows: Table, purged: set<JobId>, procs: map<Pid, Proc>, life: nat) {
    && 0 !in procs
    && forall pid :: pid in procs ==> ProcOk(rows, purged, procs[pid], life)
  }

  ghost predicate ProcOk(rows: Table, purged: set<JobId>, p: Proc, life: nat) {
    p.life <= life && (p.orphan ==> p.life < life) && (p.id in rows || p.id in purged)
  }

  ghost predicate HandOk(procs: map<Pid, Proc>, pc: DispPc, life: nat) {
    HasPid(pc) ==>
      && pc.pid in procs && procs[pc.pid].id == pc.item.id && procs[pc.pid].job == pc.item.job
      && procs[pc.pid].life == life && !procs[pc.pid].orphan
  }

  /** The jobs the dispatcher still means to look at are queued, each once. */
  ghost predicate QueueOk(rows: Table, pc: DispPc) {
    && (InScan(pc) ==> AllWait(rows, pc.c.todo))
    && (InHand(pc) ==> NotListed(pc.c.todo, pc.item.id))
    && (pc.Chosen? || pc.Spawned? || pc.Refused? ==> Waits(rows, pc.item))
    && (pc.Written? ==> pc.item.id in rows ==> rows[pc.item.id].pid == pc.pid)
  }

  ghost predicate AllWait(rows: Table, todo: seq<Item>) {
    && (forall i :: 0 <= i < |todo| ==> Waits(rows, todo[i]))
    && (forall i, k :: 0 <= i < k < |todo| ==> todo[i].id != todo[k].id)
  }

  ghost predicate NotListed(todo: seq<Item>, id: JobId) {
    forall i :: 0 <= i < |todo| ==> todo[i].id != id
  }

  ghost predicate Waits(rows: Table, item: Item) {
    item.id in rows && rows[item.id].status == Queued && rows[item.id].job == item.job
  }

  ghost predicate Base(s: State) {
    && RowsOk(s.rows, s.purged, s.procs)
    && ProcsOk(s.rows, s.purged, s.procs, s.svc.life)
    && HandOk(s.procs, s.svc.disp, s.svc.life)
    && QueueOk(s.rows, s.svc.disp)
  }

  lemma ItemsWait(rows: Table, ids: seq<JobId>)
    requires Matching(rows, Queued, ids)
    ensures AllWait(rows, Items(rows, ids))
  {
  }

  // ---- Base is kept: one lemma for each kind of change -------------------------

  predicate PhasesOnly(procs: map<Pid, Proc>, procs': map<Pid, Proc>) {
    && procs'.Keys == procs.Keys
    && forall pid :: pid in procs ==> SameProc(procs[pid], procs'[pid])
  }

  predicate SameProc(p: Proc, p': Proc) {
    p'.id == p.id && p'.job == p.job && p'.life == p.life && p'.orphan == p.orphan
  }

  lemma RowsPhases(rows: Table, purged: set<JobId>, procs: map<Pid, Proc>, procs': map<Pid, Proc>, life: nat)
    requires RowsOk(rows, purged, procs) && ProcsOk(rows, purged, procs, life) && PhasesOnly(procs, procs')
    ensures RowsOk(rows, purged, procs') && ProcsOk(rows, purged, procs', life)
  {
  }

  /** Rows as they may change under a dispatcher that stays where it is. */
  ghost predicate RowsMoved(rows: Table, rows': Table) {
    && rows.Keys == rows'.Keys
    && forall id :: id in rows ==> RowMoved(rows[id], rows'[id])
  }

  ghost predicate RowMoved(r: Row, r': Row) {
    r' == r || (r.status == Running && Terminal(r'.status) && RowOk(r') && r'.pid == r.pid && r'.job == r.job)
  }

  lemma SwapMoves(rows: Table, id: JobId, to: Status, now: Time, error: string)
    requires forall j :: j in rows ==> RowOk(rows[j])
    requires Terminal(to)
    ensures RowsMoved(rows, Swap(rows, id, Running, to, Ended(now, error)))
  {
  }

  lemma BaseEnd(s: State, s': State)
    requires Base(s)
    requires RowsMoved(s.rows, s'.rows) && s'.purged == s.purged && PhasesOnly(s.procs, s'.procs)
    requires s'.svc.disp == s.svc.disp && s'.svc.life == s.svc.life
    ensures Base(s')
  {
    RowsPhases(s.rows, s.purged, s.procs, s'.procs, s.svc.life);
    RowsEnd(s.rows, s'.rows, s.purged, s'.procs, s.svc.life);
    QueueEnd(s.rows, s'.rows, s.svc.disp);
  }

  lemma RowsEnd(rows: Table, rows': Table, purged: set<JobId>, procs: map<Pid, Proc>, life: nat)
    requires RowsOk(rows, purged, procs) && ProcsOk(rows, purged, procs, life) && RowsMoved(rows, rows')
    ensures RowsOk(rows', purged, procs) && ProcsOk(rows', purged, procs, life)
  {
  }

  lemma QueueEnd(rows: Table, rows': Table, pc: DispPc)
    requires QueueOk(rows, pc) && RowsMoved(rows, rows')
    ensures QueueOk(rows', pc)
  {
    if InScan(pc) { AllWaitMoved(rows, rows', pc.c.todo); }
  }

  lemma AllWaitMoved(rows: Table, rows': Table, todo: seq<Item>)
    requires AllWait(rows, todo) && RowsMoved(rows, rows')
    ensures AllWait(rows', todo)
  {
    forall i | 0 <= i < |todo| ensures Waits(rows', todo[i]) { assert Waits(rows, todo[i]); }
  }

  /** A row is added. */
  lemma BaseInsert(s: State, s': State, id: JobId, job: Job, now: Time)
    requires Base(s) && FreshId(s, id)
    requires s'.rows == s.rows[id := NewRow(job, now)] && s'.purged == s.purged && s'.procs == s.procs
    requires s'.svc.disp == s.svc.disp && s'.svc.life == s.svc.life
    ensures Base(s')
  {
    RowsInsert(s.rows, s.purged, s.procs, s.svc.life, id, NewRow(job, now));
    QueueInsert(s.rows, s.svc.disp, id, NewRow(job, now));
    if s.svc.disp.Written? { assert ProcOk(s.rows, s.purged, s.procs[s.svc.disp.pid], s.svc.life); }
  }

  lemma RowsInsert(rows: Table, purged: set<JobId>, procs: map<Pid, Proc>, life: nat, id: JobId, r: Row)
    requires RowsOk(rows, purged, procs) && ProcsOk(rows, purged, procs, life)
    requires id !in rows && id !in purged && RowOk(r) && r.pid == 0
    ensures RowsOk(rows[id := r], purged, procs) && ProcsOk(rows[id := r], purged, procs, life)
  {
  }

  lemma QueueInsert(rows: Table, pc: DispPc, id: JobId, r: Row)
    requires QueueOk(rows, pc) && id !in rows
    requires pc.Written? ==> pc.item.id != id
    ensures QueueOk(rows[id := r], pc)
  {
    if InScan(pc) {
      forall i | 0 <= i < |pc.c.todo| ensures Waits(rows[id := r], pc.c.todo[i]) { assert Waits(rows, pc.c.todo[i]); }
    }
  }

  /** Terminal rows are deleted. */
  lemma BasePurge(s: State, s': State, gone: set<JobId>)
    requires Base(s)
    requires forall id :: id in gone ==> id in s.rows && Terminal(s.rows[id].status)
    requires s'.rows == s.rows - gone && s'.purged == s.purged + gone && s'.procs == s.procs
    requires s'.svc.disp == s.svc.disp && s'.svc.life == s.svc.life
    ensures Base(s')
  {
    RowsPurge(s.rows, s.purged, s.procs, s.svc.life, gone);
    var pc := s.svc.disp;
    if InScan(pc) {
      forall i | 0 <= i < |pc.c.todo| ensures Waits(s'.rows, pc.c.todo[i]) { assert Waits(s.rows, pc.c.todo[i]); }
    }
  }

  lemma RowsPurge(rows: Table, purged: set<JobId>, procs: map<Pid, Proc>, life: nat, gone: set<JobId>)
    requires RowsOk(rows, purged, procs) && ProcsOk(rows, purged, procs, life) && gone <= rows.Keys
    ensures RowsOk(rows - gone, purged + gone, procs) && ProcsOk(rows - gone, purged + gone, procs, life)
  {
  }

  lemma BaseCrash(s: State)
    requires Base(s)
    ensures Base(ExecCrash(s))
  {
    var s' := ExecCrash(s);
    forall id | id in s'.rows
      ensures Recorded(id, s'.rows[id], s'.procs)
    {
      assert Recorded(id, s.rows[id], s.procs);
      assert s.svc.disp.Spawned? || s.svc.disp.Refused? ==> Waits(s.rows, s.svc.disp.item);
    }
    forall pid | pid in s'.procs
      ensures ProcOk(s'.rows, s'.purged, s'.procs[pid], s'.svc.life)
    {
      assert ProcOk(s.rows, s.purged, s.procs[pid], s.svc.life);
    }
  }

  /** The dispatcher moves, touching no row and no more than phases. */
  lemma BaseMove(s: State, s': State)
    requires Base(s)
    requires s'.rows == s.rows && s'.purged == s.purged && PhasesOnly(s.procs, s'.procs) && s'.svc.life == s.svc.life
    requires HandOk(s'.procs, s'.svc.disp, s'.svc.life) && QueueOk(s'.rows, s'.svc.disp)
    ensures Base(s')
  {
    RowsPhases(s.rows, s.purged, s.procs, s'.procs, s.svc.life);
  }

  lemma BaseSpawn(s: State, pid: Pid)
    requires Base(s) && EnabledD(s, Spawn(true, pid))
    ensures Base(ExecD(s, Spawn(true, pid)))
  {
    var s', p := ExecD(s, Spawn(true, pid)), Proc(s.svc.disp.item.id, s.svc.disp.item.job, s.svc.life, Starting, false, false);
    assert s'.procs == s.procs[pid := p];
    RowsSpawn(s.rows, s.purged, s.procs, s.svc.life, pid, p);
  }

  lemma RowsSpawn(rows: Table, purged: set<JobId>, procs: map<Pid, Proc>, life: nat, pid: Pid, p: Proc)
    requires RowsOk(rows, purged, procs) && ProcsOk(rows, purged, procs, life)
    requires pid !in procs && pid != 0 && ProcOk(rows, purged, p, life)
    ensures RowsOk(rows, purged, procs[pid := p]) && ProcsOk(rows, purged, procs[pid := p], life)
  {
  }

  lemma BaseMark(s: State, ok: bool, now: Time)
    requires Base(s) && EnabledD(s, Mark(ok, now))
    ensures Base(ExecD(s, Mark(ok, now)))
  {
    var s', pc := ExecD(s, Mark(ok, now)), s.svc.disp;
    assert s'.procs == s.procs;
    if ok {
      var r := ApplyFields(s.rows[pc.item.id].(status := Running), Started(now, pc.pid));
      assert s'.rows == s.rows[pc.item.id := r];
      RowsMark(s.rows, s.purged, s.procs, s.svc.life, pc.item.id, r);
      forall i | 0 <= i < |pc.c.todo| ensures Waits(s'.rows, pc.c.todo[i]) { assert Waits(s.rows, pc.c.todo[i]); }
    }
  }

  lemma RowsMark(rows: Table, purged: set<JobId>, procs: map<Pid, Proc>, life: nat, id: JobId, r: Row)
    requires RowsOk(rows, purged, procs) && ProcsOk(rows, purged, procs, life)
    requires id in rows && RowOk(r) && Recorded(id, r, procs)
    ensures RowsOk(rows[id := r], purged, procs) && ProcsOk(rows[id := r], purged, procs, life)
  {
  }

  lemma BaseStepD(s: State, d: DispStep)
    requires Base(s) && EnabledD(s, d)
    ensures Base(ExecD(s, d))
  {
    match d
    case Spawn(ok, pid) => if ok { BaseSpawn(s, pid); } else { BaseQuiet(s, d); }
    case Mark(ok, now) => BaseMark(s, ok, now);
    case Next =>
      NextKeepsQueue(s);
      BaseMove(s, ExecD(s, d));
    case List(ok, ids) =>
      if ok { ItemsWait(s.rows, ids); }
      BaseMove(s, ExecD(s, d));
    case _ => BaseQuiet(s, d);
  }

  /** The dispatcher moves without choosing, spawning or writing. */
  lemma BaseQuiet(s: State, d: DispStep)
    requires Base(s) && EnabledD(s, d) && !d.Next? && !d.List? && !d.Mark? && !(d.Spawn? && d.ok)
    ensures Base(ExecD(s, d))
  {
    BaseMove(s, ExecD(s, d));
  }

  lemma TailWaits(rows: Table, todo: seq<Item>)
    requires AllWait(rows, todo) && todo != []
    ensures AllWait(rows, todo[1..]) && NotListed(todo[1..], todo[0].id) && Waits(rows, todo[0])
  {
    forall i | 0 <= i < |todo[1..]| ensures Waits(rows, todo[1..][i]) { assert Waits(rows, todo[i + 1]); }
  }

  lemma NextKeepsQueue(s: State)
    requires Base(s) && EnabledD(s, Next)
    ensures QueueOk(s.rows, ExecD(s, Next).svc.disp)
  {
    if s.svc.disp.c.todo != [] { TailWaits(s.rows, s.svc.disp.c.todo); }
  }

  // ---- the kinds of step -----------------------------------------------------

  /** Steps that add a row. */
  predicate Inserts(step: Step) {
    (step.S? && step.q.Make? && step.q.ok) || (step.R? && step.r.Create? && step.r.ok)
  }

  /** Steps of the other actors that neither add nor delete rows. */
  predicate Local(step: Step) {
    !step.D? && !step.Purge? && !step.Crash? && !Inserts(step)
  }

  /** What such a step may do to the state the dispatcher works on. */
  ghost predicate Leaves(s: State, s': State) {
    && s'.limit == s.limit && s'.purged == s.purged
    && s'.svc.disp == s.svc.disp && s'.svc.life == s.svc.life && s'.svc.pass == s.svc.pass
    && RowsMoved(s.rows, s'.rows) && PhasesOnly(s.procs, s'.procs)
    && (forall id :: id in s'.svc.workers ==> id in s.svc.workers && s'.svc.workers[id] == s.svc.workers[id])
  }

  lemma WorkerLeaves(s: State, pid: Pid, w: WorkerStep)
    requires Base(s) && EnabledW(s, pid, w)
    ensures Leaves(s, ExecW(s, pid, w))
  {
    if w.Finish? { SwapMoves(s.rows, s.procs[pid].id, w.to, w.now, w.error); }
  }

  lemma MonitorLeaves(s: State, m: MonStep)
    requires Base(s) && EnabledM(s, m)
    ensures Leaves(s, ExecM(s, m))
  {
    if m.Fail? { SwapMoves(s.rows, s.svc.mon.id, Failed, m.now, "unexpected worker termination"); }
  }

  lemma BootLeaves(s: State, b: BootStep)
    requires Base(s) && EnabledB(s, b)
    ensures Leaves(s, ExecB(s, b))
  {
    if b.Condemn? { SwapMoves(s.rows, s.svc.boot.id, Failed, b.now, "orphaned job"); }
  }

  /** The request loop touches neither the service nor a process. */
  lemma RequestFrame(s: State, r: ReqStep)
    requires EnabledR(s, r)
    ensures var s' := ExecR(s, r);
            && s'.limit == s.limit && s'.svc == s.svc && s'.procs == s.procs && s'.sched == s.sched && s'.purged == s.purged
            && s'.gate.waiters == s.gate.waiters && s'.gate.drain == s.gate.drain
  {
  }

  /** The dispatcher touches neither the other actors of the service nor the broker. */
  lemma DispFrame(s: State, d: DispStep)
    requires EnabledD(s, d)
    ensures var s' := ExecD(s, d);
            && s'.limit == s.limit && s'.net == s.net && s'.sched == s.sched && s'.purged == s.purged
            && s'.svc.mon == s.svc.mon && s'.svc.boot == s.svc.boot && s'.gate.waiters == s.gate.waiters
  {
  }

  lemma RequestLeaves(s: State, r: ReqStep)
    requires EnabledR(s, r) && Local(R(r))
    ensures Leaves(s, ExecR(s, r))
  {
  }

  lemma RefreshLeaves(s: State, t: TaskType, r: SchedStep)
    requires EnabledS(s, t, r) && Local(S(t, r))
    ensures Leaves(s, ExecS(s, t, r))
  {
  }

  lemma GateLeaves(s: State, g: GateStep)
    requires EnabledG(s, g)
    ensures Leaves(s, ExecG(s, g))
  {
  }

  lemma LocalLeaves(s: State, step: Step)
    requires Base(s) && Enabled(s, step) && Local(step)
    ensures Leaves(s, Exec(s, step))
  {
    match step
    case W(pid, w) => WorkerLeaves(s, pid, w);
    case M(m) => MonitorLeaves(s, m);
    case B(b) => BootLeaves(s, b);
    case R(r) => RequestLeaves(s, r);
    case S(t, r) => RefreshLeaves(s, t, r);
    case G(g) => GateLeaves(s, g);
  }

  /** What an inserting step does. */
  ghost predicate Inserted(s: State, s': State, id: JobId, job: Job, now: Time) {
    && FreshId(s, id)
    && s' == s.(rows := s.rows[id := NewRow(job, now)], sched := s'.sched, net := s'.net, gate := s'.gate)
  }

  lemma InsertShape(s: State, step: Step) returns (id: JobId, job: Job, now: Time)
    requires Enabled(s, step) && Inserts(step)
    ensures Inserted(s, Exec(s, step), id, job, now)
    ensures if step.S? then job == Job(step.t, "", "", Scheduled) && id == step.q.id
            else s.net.req.Clear? && s.net.req.m in s.net.msgs && job == s.net.msgs[s.net.req.m].job && id == step.r.id
  {
    if step.S? {
      id, job, now := step.q.id, Job(step.t, "", "", Scheduled), step.q.now;
    } else {
      id, job, now := step.r.id, s.net.msgs[s.net.req.m].job, step.r.now;
    }
  }

  lemma BaseStep(s: State, step: Step)
    requires Base(s) && Enabled(s, step)
    ensures Base(Exec(s, step))
  {
    if Local(step) {
      LocalLeaves(s, step);
      BaseEnd(s, Exec(s, step));
    } else if Inserts(step) {
      var id, job, now := InsertShape(s, step);
      BaseInsert(s, Exec(s, step), id, job, now);
    } else {
      match step
      case D(d) => BaseStepD(s, d);
      case Purge(cutoff) => BasePurge(s, Exec(s, step), Expired(s.rows, cutoff));
      case Crash => BaseCrash(s);
    }
  }
}
