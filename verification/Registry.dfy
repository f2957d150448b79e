/** What every step keeps of the registry of live workers: its size, its exclusion
    rules, its agreement with the table and with the processes. */
module Registry {
  import opened Clock
  import opened Jobs
  import opened Protocol
  import opened Safety

  type Workers = map<JobId, Entry>

  // ---- entries ---------------------------------------------------------------

  ghost predicate EntryOk(id: JobId, e: Entry, rows: Table, procs: map<Pid, Proc>, life: nat, pass: nat) {
    && e.pid in procs && procs[e.pid].id == id && procs[e.pid].job == e.job && procs[e.pid].life == life
    && e.pass <= pass
    && (id in rows ==> rows[id].pid == e.pid)
  }

  ghost predicate WorkersOk(workers: Workers, rows: Table, procs: map<Pid, Proc>, life: nat, pass: nat, pc: DispPc) {
    && (forall id :: id in workers ==> EntryOk(id, workers[id], rows, procs, life, pass))
    && (pc.Written? ==> pc.item.id !in workers)
  }

  ghost predicate WorkersOkIn(s: State) {
    WorkersOk(s.svc.workers, s.rows, s.procs, s.svc.life, s.svc.pass, s.svc.disp)
  }

  /** A registered job is never queued. */
  lemma RegisteredNotQueued(s: State, id: JobId)
    requires Base(s) && WorkersOkIn(s) && id in s.svc.workers
    ensures id in s.rows ==> s.rows[id].status != Queued
    ensures !FreshId(s, id)
  {
    assert EntryOk(id, s.svc.workers[id], s.rows, s.procs, s.svc.life, s.svc.pass);
    assert ProcOk(s.rows, s.purged, s.procs[s.svc.workers[id].pid], s.svc.life);
  }

  lemma QueuedNotRegistered(s: State, id: JobId)
    requires Base(s) && WorkersOkIn(s) && CanSwap(s.rows, id, Queued)
    ensures id !in s.svc.workers
  {
    assert RowOk(s.rows[id]);
    assert id in s.svc.workers ==> EntryOk(id, s.svc.workers[id], s.rows, s.procs, s.svc.life, s.svc.pass);
  }

  lemma WorkersStepD(s: State, d: DispStep)
    requires Base(s) && WorkersOkIn(s) && EnabledD(s, d)
    ensures WorkersOkIn(ExecD(s, d))
  {
    var s', pc := ExecD(s, d), s.svc.disp;
    if pc.Spawned? && pc.item.id in s.svc.workers {
      RegisteredNotQueued(s, pc.item.id);
    }
    forall id | id in s'.svc.workers
      ensures EntryOk(id, s'.svc.workers[id], s'.rows, s'.procs, s'.svc.life, s'.svc.pass)
    {
      if id in s.svc.workers {
        assert EntryOk(id, s.svc.workers[id], s.rows, s.procs, s.svc.life, s.svc.pass);
      }
    }
  }

  lemma WorkersStep(s: State, step: Step)
    requires Base(s) && WorkersOkIn(s) && Enabled(s, step)
    ensures WorkersOkIn(Exec(s, step))
  {
    if Local(step) {
      LocalLeaves(s, step);
    } else if Inserts(step) {
      var id, job, now := InsertShape(s, step);
      if id in s.svc.workers { RegisteredNotQueued(s, id); }
    } else if step.D? {
      WorkersStepD(s, step.d);
    }
  }

  // ---- size ------------------------------------------------------------------

  /** The dispatcher's count never falls behind the registry. */
  ghost predicate CountOk(size: nat, pc: DispPc, limit: nat) {
    && size <= limit
    && (pc.Counted? || pc.NoHost? || pc.HostBusy? || pc.WritesRead? ==> size <= pc.n < limit)
    && (InScan(pc) ==> size <= pc.c.count <= limit)
    && (InHand(pc) ==> pc.c.count < limit)
  }

  ghost predicate CountOkIn(s: State) {
    CountOk(|s.svc.workers|, s.svc.disp, s.limit)
  }

  lemma SubmapSize<K, V>(a: map<K, V>, b: map<K, V>)
    requires forall k :: k in a ==> k in b
    ensures |a| <= |b|
  {
    SubsetSize(a.Keys, b.Keys);
    assert |a| == |a.Keys| && |b| == |b.Keys|;
  }

  lemma SubsetSize<T>(a: set<T>, b: set<T>)
    requires a <= b
    ensures |a| <= |b|
  {
    assert b == a + (b - a);
  }

  lemma CountStep(s: State, step: Step)
    requires Base(s) && CountOkIn(s) && Enabled(s, step)
    ensures CountOkIn(Exec(s, step))
  {
    if Local(step) {
      LocalLeaves(s, step);
      SubmapSize(Exec(s, step).svc.workers, s.svc.workers);
    } else if Inserts(step) {
      var id, job, now := InsertShape(s, step);
    } else if step.D? {
      CountStepD(s, step.d);
    }
  }

  lemma CountStepD(s: State, d: DispStep)
    requires CountOkIn(s) && EnabledD(s, d)
    ensures CountOkIn(ExecD(s, d))
  {
    if InScan(s.svc.disp) { CountScan(s, d); }
  }

  lemma CountScan(s: State, d: DispStep)
    requires CountOkIn(s) && EnabledD(s, d) && InScan(s.svc.disp)
    ensures CountOkIn(ExecD(s, d))
  {
  }

  // ---- exclusion -------------------------------------------------------------

  predicate IsVmWrite(e: Entry) { Classify(e.job) == Write }
  predicate IsHostWrite(e: Entry) { Classify(e.job) == HostWrite }

  /** Which two registered workers may stand side by side. */
  predicate Compatible(e: Entry, f: Entry) {
    && (IsVmWrite(e) && IsVmWrite(f) ==> e.job.vm != f.job.vm)
    && !(IsHostWrite(e) && IsHostWrite(f))
    && ((IsHostWrite(e) && IsVmWrite(f)) || (IsVmWrite(e) && IsHostWrite(f)) ==> e.pass == f.pass)
  }

  ghost predicate NoHostWrites(workers: Workers) {
    forall id :: id in workers ==> !IsHostWrite(workers[id])
  }

  ghost predicate OfThisPass(workers: Workers, pass: nat) {
    forall id :: id in workers && (IsVmWrite(workers[id]) || IsHostWrite(workers[id])) ==> workers[id].pass == pass
  }

  /** What the position of the dispatcher says about the registry. */
  ghost predicate RuleOk(workers: Workers, pc: DispPc, pass: nat) {
    && (forall id, j :: id in workers && j in workers && id != j ==> Compatible(workers[id], workers[j]))
    && (pc.NoHost? || pc.WritesRead? ==> NoHostWrites(workers))
    && (pc.WritesRead? && !pc.blocked ==> OfThisPass(workers, pass))
    && (InScan(pc) && !pc.c.readOnly ==>
          && (forall id :: id in workers && IsHostWrite(workers[id]) ==> workers[id].pass == pass)
          && (!pc.c.blocked ==> NoHostWrites(workers) && OfThisPass(workers, pass)))
    && (InHand(pc) ==> MayJoin(workers, pc.c, pc.item.job))
  }

  ghost predicate MayJoin(workers: Workers, c: Scan, job: Job) {
    match Classify(job)
    case Read => true
    case Download => !c.readOnly
    case Write => !c.readOnly && forall id :: id in workers && IsVmWrite(workers[id]) ==> workers[id].job.vm != job.vm
    case HostWrite => !c.readOnly && !c.blocked
  }

  ghost predicate RuleOkIn(s: State) {
    RuleOk(s.svc.workers, s.svc.disp, s.svc.pass)
  }

  lemma RuleShrinks(workers: Workers, workers': Workers, pc: DispPc, pass: nat)
    requires RuleOk(workers, pc, pass)
    requires forall id :: id in workers' ==> id in workers && workers'[id] == workers[id]
    ensures RuleOk(workers', pc, pass)
  {
  }

  lemma RuleRegister(workers: Workers, pc: DispPc, pass: nat, e: Entry)
    requires RuleOk(workers, pc, pass) && InHand(pc) && e.job == pc.item.job && e.pass == pass
    ensures RuleOk(workers[pc.item.id := e], Scanning(After(pc.c, pc.item)), pass)
  {
    var workers', c' := workers[pc.item.id := e], After(pc.c, pc.item);
    forall id | id in workers && id != pc.item.id
      ensures Compatible(workers[id], e) && Compatible(e, workers[id])
    {
    }
  }

  lemma RuleNext(workers: Workers, pc: DispPc, pass: nat)
    requires RuleOk(workers, pc, pass) && pc.Scanning? && pc.c.todo != []
    requires Eligible(workers, pc.c, pc.c.todo[0].job)
    ensures RuleOk(workers, Chosen(pc.c.(todo := pc.c.todo[1..]), pc.c.todo[0]), pass)
  {
  }

  lemma RuleReads(s: State, d: DispStep)
    requires RuleOkIn(s) && EnabledD(s, d) && !InScan(s.svc.disp) && !d.List?
    ensures RuleOkIn(ExecD(s, d))
  {
    if d.ReadHostWrite? || d.ReadWrite? { RuleLooks(s, d); }
  }

  lemma RuleLooks(s: State, d: DispStep)
    requires RuleOkIn(s) && EnabledD(s, d) && (d.ReadHostWrite? || d.ReadWrite?)
    ensures RuleOkIn(ExecD(s, d))
  {
  }

  lemma RuleList(s: State, d: DispStep)
    requires RuleOkIn(s) && EnabledD(s, d) && d.List?
    ensures RuleOkIn(ExecD(s, d))
  {
  }

  lemma RuleStepD(s: State, d: DispStep)
    requires RuleOkIn(s) && EnabledD(s, d)
    ensures RuleOkIn(ExecD(s, d))
  {
    if d.List? {
      RuleList(s, d);
    } else if InScan(s.svc.disp) {
      RuleScan(s, d);
    } else {
      RuleReads(s, d);
    }
  }

  /** The scan goes on without choosing or registering, or stops. */
  lemma RuleKeeps(workers: Workers, pc: DispPc, pc': DispPc, pass: nat)
    requires RuleOk(workers, pc, pass) && InScan(pc)
    requires pc'.Idle? || (InScan(pc') && pc'.c.readOnly == pc.c.readOnly && (pc.c.blocked ==> pc'.c.blocked))
    requires InHand(pc') ==> InHand(pc) && pc'.item == pc.item && pc'.c == pc.c
    ensures RuleOk(workers, pc', pass)
  {
  }

  lemma RuleScan(s: State, d: DispStep)
    requires RuleOkIn(s) && EnabledD(s, d) && InScan(s.svc.disp)
    ensures RuleOkIn(ExecD(s, d))
  {
    var pc, s' := s.svc.disp, ExecD(s, d);
    if d.Register? {
      RuleRegister(s.svc.workers, pc, s.svc.pass, Entry(pc.pid, pc.item.job, s.svc.pass));
    } else if d.Next? && s'.svc.disp.Chosen? {
      RuleNext(s.svc.workers, pc, s.svc.pass);
    } else {
      ScanFrame(s, d);
      RuleKeeps(s.svc.workers, pc, s'.svc.disp, s.svc.pass);
    }
  }

  lemma ScanFrame(s: State, d: DispStep)
    requires EnabledD(s, d) && InScan(s.svc.disp) && !d.Register? && !(d.Next? && ExecD(s, d).svc.disp.Chosen?)
    ensures var s' := ExecD(s, d);
            && s'.svc.workers == s.svc.workers && s'.svc.pass == s.svc.pass
            && (s'.svc.disp.Idle? || (InScan(s'.svc.disp) && s'.svc.disp.c.readOnly == s.svc.disp.c.readOnly
                                      && (s.svc.disp.c.blocked ==> s'.svc.disp.c.blocked)))
            && (InHand(s'.svc.disp) ==> InHand(s.svc.disp) && s'.svc.disp.item == s.svc.disp.item && s'.svc.disp.c == s.svc.disp.c)
  {
  }

  lemma RuleStep(s: State, step: Step)
    requires Base(s) && RuleOkIn(s) && Enabled(s, step)
    ensures RuleOkIn(Exec(s, step))
  {
    if Local(step) {
      LocalLeaves(s, step);
      RuleShrinks(s.svc.workers, Exec(s, step).svc.workers, s.svc.disp, s.svc.pass);
    } else if Inserts(step) {
      var id, job, now := InsertShape(s, step);
    } else if step.D? {
      RuleStepD(s, step.d);
    }
  }

  // ---- the monitor's critical section ----------------------------------------

  ghost predicate MonOk(mon: MonPc, workers: Workers, rows: Table, procs: map<Pid, Proc>) {
    !mon.Free? ==>
      && mon.id in workers && !Alive(procs, workers[mon.id].pid)
      && (mon.Removing? && !mon.missed ==> !CanSwap(rows, mon.id, Running))
  }

  ghost predicate MonOkIn(s: State) {
    MonOk(s.svc.mon, s.svc.workers, s.rows, s.procs)
  }

  /** No process comes back to life. */
  ghost predicate OnlyDie(procs: map<Pid, Proc>, procs': map<Pid, Proc>) {
    forall pid :: pid in procs ==> pid in procs' && (Alive(procs', pid) ==> Alive(procs, pid))
  }

  lemma StepOnlyDies(s: State, step: Step)
    requires Enabled(s, step)
    ensures OnlyDie(s.procs, Exec(s, step).procs)
  {
    match step
    case D(d) => DispOnlyKills(s, d);
    case R(r) => if Inserts(step) { var id, job, now := InsertShape(s, step); } else { RequestFrame(s, r); }
    case _ =>
  }

  lemma DispOnlyKills(s: State, d: DispStep)
    requires EnabledD(s, d)
    ensures OnlyDie(s.procs, ExecD(s, d).procs)
  {
    if !d.Spawn? && !d.Kill? { assert ExecD(s, d).procs == s.procs; }
  }

  lemma MonStepM(s: State, m: MonStep)
    requires WorkersOkIn(s) && MonOkIn(s) && EnabledM(s, m)
    ensures MonOkIn(ExecM(s, m))
  {
  }

  lemma MonStepD(s: State, d: DispStep)
    requires Base(s) && WorkersOkIn(s) && MonOkIn(s) && EnabledD(s, d)
    ensures MonOkIn(ExecD(s, d))
  {
    DispOnlyKills(s, d);
    if !s.svc.mon.Free? {
      RegisteredNotQueued(s, s.svc.mon.id);
      assert EntryOk(s.svc.mon.id, s.svc.workers[s.svc.mon.id], s.rows, s.procs, s.svc.life, s.svc.pass);
    }
  }

  lemma MonOthers(s: State, step: Step)
    requires Enabled(s, step) && !step.M? && Local(step)
    ensures Exec(s, step).svc.mon == s.svc.mon && Exec(s, step).svc.workers == s.svc.workers
  {
    if step.R? { RequestFrame(s, step.r); }
  }

  lemma MonKept(s: State, step: Step)
    requires Base(s) && WorkersOkIn(s) && MonOkIn(s) && Enabled(s, step)
    ensures MonOkIn(Exec(s, step))
  {
    if step.M? {
      MonStepM(s, step.m);
    } else if Local(step) {
      LocalLeaves(s, step);
      MonOthers(s, step);
      StepOnlyDies(s, step);
      if !s.svc.mon.Free? {
        assert EntryOk(s.svc.mon.id, s.svc.workers[s.svc.mon.id], s.rows, s.procs, s.svc.life, s.svc.pass);
      }
    } else if Inserts(step) {
      var id, job, now := InsertShape(s, step);
      if !s.svc.mon.Free? { RegisteredNotQueued(s, s.svc.mon.id); }
    } else if step.D? {
      MonStepD(s, step.d);
    }
  }
}
