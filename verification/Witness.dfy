/** Runs that show where stronger promises fail: each reaches a state the code really
    allows. */
module Witness {
  import opened Clock
  import opened Jobs
  import opened Protocol
  import opened Safety
  import opened Registry
  import opened Execution
  import opened Clients
  import opened Agent
  import opened Delivery

  const NOON: Time := Time(2025, 1, 1, 12, 0, 0, 0)

  const VM_EDIT: Job := Job(VmEdit, "", "vm-a", Requested(0))
  const SUSPEND: Job := Job(HostManagement, "suspend", "", Requested(1))

  /** A service that serves, with an empty store. */
  function Fresh(limit: nat): State {
    State(limit, map[], {}, map[], Service(0, Serving, map[], 0, Idle, Free, {}), Sched(map[], {}),
          Net(Waiting, map[], 0, multiset{}, map[], {}, {}, {}, multiset{}, {}), Gate(false, true, 0, true, map[]))
  }

  lemma FreshReachable(limit: nat)
    ensures Reachable(Fresh(limit))
  {
    var s0 := State(limit, map[], {}, map[], Boot(0), Sched(map[], {}),
                    Net(Waiting, map[], 0, multiset{}, map[], {}, {}, {}, multiset{}, {}), Gate(false, false, 0, true, map[]));
    assert Init(s0) && Runs(s0, []) && Last(s0, []) == s0;
    ReachStep(s0, B(ListRunning(true, [])));
    var s1 := Exec(s0, B(ListRunning(true, [])));
    assert s1.svc.boot == Recovering([]);
    ReachStep(s1, B(Serve));
  }

  /** The state after request m has become row id. */
  function Accepted(s: State, m: MsgId, job: Job, id: JobId): State {
    s.(rows := s.rows[id := NewRow(job, NOON)],
       net := s.net.(msgs := s.net.msgs[m := Msg(job, true, Acked)], tags := s.net.tags + 1,
                     settled := s.net.settled + multiset{s.net.tags}, stored := s.net.stored[m := id],
                     made := s.net.made + multiset{m}),
       gate := s.gate.(token := true, stale := true))
  }

  /** The request in the loop's hand, past the conflict check. */
  function Unopposed(s: State, m: MsgId, job: Job): State {
    s.(net := s.net.(req := Clear(m, s.net.tags, true), msgs := s.net.msgs[m := Msg(job, true, InFlight(s.net.tags))],
                     tags := s.net.tags + 1))
  }

  lemma ClearRuns(s: State, m: MsgId, job: Job)
    requires Reachable(s) && s.svc.boot.Serving? && s.net.req.Waiting?
    requires m !in s.net.msgs && job.origin == Requested(m)
    requires !(IsWriteTask(job.taskType) && HasConflict(s.rows, job))
    ensures Reachable(Unopposed(s, m, job))
  {
    var s1 := Exec(s, R(Publish(m, job, true)));
    ReachStep(s, R(Publish(m, job, true)));
    var s2 := Exec(s1, R(Deliver(m)));
    ReachStep(s1, R(Deliver(m)));
    assert s2.net.msgs == s.net.msgs[m := Msg(job, true, InFlight(s.net.tags))];
    ReachStep(s2, R(CheckConflict(true)));
    assert Exec(s2, R(CheckConflict(true))).net == Unopposed(s, m, job).net;
  }

  /** The request as row id, not yet acked. */
  function Stored(s: State, m: MsgId, job: Job, id: JobId): State {
    var a := Unopposed(s, m, job);
    a.(rows := s.rows[id := NewRow(job, NOON)], gate := s.gate.(stale := true),
       net := a.net.(req := Saved(m, s.net.tags), stored := s.net.stored[m := id], made := s.net.made + multiset{m}))
  }

  lemma StoreRuns(s: State, m: MsgId, job: Job, id: JobId)
    requires Reachable(s) && s.svc.boot.Serving? && s.net.req.Waiting?
    requires m !in s.net.msgs && job.origin == Requested(m) && FreshId(s, id)
    requires !(IsWriteTask(job.taskType) && HasConflict(s.rows, job))
    ensures Reachable(Stored(s, m, job, id))
  {
    ClearRuns(s, m, job);
    var a := Unopposed(s, m, job);
    ReachStep(a, R(Create(true, id, NOON)));
    assert Overtaken(a.net, m, s.net.tags) == {} && a.net.astray + {} == a.net.astray;
  }

  lemma AckRuns(s: State, m: MsgId, tag: nat, job: Job)
    requires Reachable(s) && s.net.req == Saved(m, tag) && m in s.net.msgs && s.net.msgs[m] == Msg(job, true, InFlight(tag))
    ensures Reachable(s.(net := s.net.(req := Waiting, settled := s.net.settled + multiset{tag},
                                       msgs := s.net.msgs[m := Msg(job, true, Acked)]),
                         gate := s.gate.(token := true)))
  {
    ReachStep(s, R(AckSaved));
    ReachStep(Exec(s, R(AckSaved)), R(Trigger));
  }

  lemma RequestRuns(s: State, m: MsgId, job: Job, id: JobId)
    requires Reachable(s) && s.svc.boot.Serving? && s.net.req.Waiting?
    requires m !in s.net.msgs && job.origin == Requested(m) && FreshId(s, id)
    requires !(IsWriteTask(job.taskType) && HasConflict(s.rows, job))
    ensures Reachable(Accepted(s, m, job, id))
  {
    var b := Stored(s, m, job, id);
    StoreRuns(s, m, job, id);
    AckRuns(b, m, s.net.tags, job);
    assert b.net.msgs[m := Msg(job, true, Acked)] == s.net.msgs[m := Msg(job, true, Acked)];
  }

  /** The dispatcher listing `ids` in a normal pass over an empty registry. */
  function PassListed(s: State, ids: seq<JobId>): State
    requires forall i :: 0 <= i < |ids| ==> ids[i] in s.rows
  {
    s.(gate := s.gate.(token := false, stale := false),
       svc := s.svc.(pass := s.svc.pass + 1, disp := Scanning(Scan(false, 0, false, Items(s.rows, ids), []))))
  }

  /** The dispatcher, once woken by the token, after it has counted an empty registry. */
  function PassCounted(s: State): State {
    s.(gate := s.gate.(token := false, stale := false), svc := s.svc.(pass := s.svc.pass + 1, disp := Counted(0)))
  }

  lemma PassCounts(s: State)
    requires Reachable(s) && s.svc.boot.Serving? && s.svc.disp.Idle? && s.svc.mon.Free? && s.svc.workers == map[]
    requires s.gate.token && !s.gate.drain && s.limit > 0
    ensures Reachable(PassCounted(s))
  {
    var s1 := Exec(s, D(Wake(true)));
    ReachStep(s, D(Wake(true)));
    var s2 := Exec(s1, D(ReadDrain));
    ReachStep(s1, D(ReadDrain));
    ReachStep(s2, D(ReadCount));
  }

  lemma PassBegins(s: State, ids: seq<JobId>)
    requires Reachable(s) && s.svc.boot.Serving? && s.svc.disp.Idle? && s.svc.mon.Free? && s.svc.workers == map[]
    requires s.gate.token && !s.gate.drain && s.limit > 0 && Listing(s.rows, Queued, ids)
    ensures Reachable(PassListed(s, ids))
  {
    PassCounts(s);
    var s3 := PassCounted(s);
    var s4 := Exec(s3, D(ReadHostWrite));
    ReachStep(s3, D(ReadHostWrite));
    var s5 := Exec(s4, D(ReadWrite));
    ReachStep(s4, D(ReadWrite));
    assert s5.svc.disp == WritesRead(0, false) && s5.rows == s.rows;
    ReachStep(s5, D(List(true, ids)));
  }

  /** The job at the head of the list, spawned. */
  function HeadSpawned(s: State, pid: Pid): State
    requires s.svc.disp.Scanning? && s.svc.disp.c.todo != []
  {
    var c := s.svc.disp.c;
    s.(procs := s.procs[pid := Proc(c.todo[0].id, c.todo[0].job, s.svc.life, Starting, false, false)],
       svc := s.svc.(disp := Spawned(c.(todo := c.todo[1..]), c.todo[0], pid)))
  }

  lemma SpawnRuns(s: State, pid: Pid)
    requires Reachable(s) && s.svc.disp.Scanning? && s.svc.mon.Free?
    requires s.svc.disp.c.todo != [] && s.svc.disp.c.count < s.limit
    requires Eligible(s.svc.workers, s.svc.disp.c, s.svc.disp.c.todo[0].job) && pid != 0 && pid !in s.procs
    ensures Reachable(HeadSpawned(s, pid))
  {
    var s1 := Exec(s, D(Next));
    ReachStep(s, D(Next));
    ReachStep(s1, D(Spawn(true, pid)));
  }

  /** The job in hand, written and registered. */
  function HandStarted(s: State): State
    requires s.svc.disp.Spawned?
  {
    var pc := s.svc.disp;
    s.(rows := Swap(s.rows, pc.item.id, Queued, Running, Jobs.Started(NOON, pc.pid)),
       svc := s.svc.(workers := s.svc.workers[pc.item.id := Entry(pc.pid, pc.item.job, s.svc.pass)],
                     disp := Scanning(After(pc.c, pc.item))))
  }

  lemma StartRuns(s: State)
    requires Reachable(s) && s.svc.disp.Spawned? && CanSwap(s.rows, s.svc.disp.item.id, Queued) && s.svc.mon.Free?
    ensures Reachable(HandStarted(s))
  {
    var s1 := Exec(s, D(Mark(true, NOON)));
    ReachStep(s, D(Mark(true, NOON)));
    ReachStep(s1, D(Register));
  }

  const TWO_QUEUED: Table := map[1 := NewRow(VM_EDIT, NOON), 2 := NewRow(SUSPEND, NOON)]

  lemma TwoQueued() returns (s: State)
    ensures Reachable(s) && s.limit == 5 && s.svc == Boot(0).(boot := Serving) && s.rows == TWO_QUEUED && s.procs == map[]
    ensures s.gate.token && !s.gate.drain && s.gate.waiters == map[]
  {
    FreshReachable(5);
    var f := Fresh(5);
    RequestRuns(f, 0, VM_EDIT, 1);
    var g := Accepted(f, 0, VM_EDIT, 1);
    RequestRuns(g, 1, SUSPEND, 2);
    s := Accepted(g, 1, SUSPEND, 2);
  }

  lemma TwoListed()
    ensures Listing(TWO_QUEUED, Queued, [1, 2])
    ensures Items(TWO_QUEUED, [1, 2]) == [Item(1, VM_EDIT), Item(2, SUSPEND)]
  {
    assert [1, 2][1..] == [2];
    assert Sorted(TWO_QUEUED, [1, 2]);
  }

  /** A pass that has listed a VM write and a host write. */
  lemma Scanned2() returns (s: State)
    ensures Reachable(s) && s.limit == 5 && s.svc.mon.Free? && s.svc.workers == map[] && s.procs == map[] && s.svc.life == 0
    ensures s.svc.pass == 1 && s.svc.boot.Serving? && !s.gate.drain && s.gate.waiters == map[]
    ensures s.rows == TWO_QUEUED
    ensures s.svc.disp == Scanning(Scan(false, 0, false, [Item(1, VM_EDIT), Item(2, SUSPEND)], []))
  {
    var h := TwoQueued();
    TwoListed();
    PassBegins(h, [1, 2]);
    s := PassListed(h, [1, 2]);
  }

  // ---- the two kinds of write in one pass --------------------------------------

  predicate SideBySide(s: State, id: JobId, j: JobId) {
    id in s.svc.workers && j in s.svc.workers && IsVmWrite(s.svc.workers[id]) && IsHostWrite(s.svc.workers[j])
  }

  lemma VmWriteStarted() returns (s: State)
    ensures Reachable(s) && s.limit == 5 && s.svc.mon.Free? && s.svc.workers == map[1 := Entry(11, VM_EDIT, 1)]
    ensures s.svc.pass == 1 && s.procs.Keys == {11}
    ensures 2 in s.rows && s.rows[2].status == Queued
    ensures s.svc.disp == Scanning(Scan(false, 1, false, [Item(2, SUSPEND)], [Item(1, VM_EDIT)]))
  {
    var a := Scanned2();
    SpawnRuns(a, 11);
    StartRuns(HeadSpawned(a, 11));
    s := HandStarted(HeadSpawned(a, 11));
  }

  lemma HostWriteSpawned() returns (s: State)
    ensures Reachable(s) && s.svc.disp.Spawned? && s.svc.mon.Free? && s.svc.workers == map[1 := Entry(11, VM_EDIT, 1)]
    ensures s.svc.disp.item == Item(2, SUSPEND) && CanSwap(s.rows, 2, Queued)
  {
    var b := VmWriteStarted();
    SpawnRuns(b, 12);
    s := HeadSpawned(b, 12);
  }

  /** One pass starts a VM write and then a host write: the documented rule that a host
      write blocks everything does not hold inside a pass. */
  lemma HostWriteBesideVmWrite()
    ensures exists s :: Reachable(s) && SideBySide(s, 1, 2)
  {
    var c := HostWriteSpawned();
    StartRuns(c);
    assert SideBySide(HandStarted(c), 1, 2);
  }

  // ---- a worker left behind by a crash -----------------------------------------

  predicate BothWork(s: State, p: Pid, q: Pid) {
    && p in s.procs && q in s.procs && p != q && s.procs[p].id == s.procs[q].id
    && s.procs[p].phase == Working && s.procs[q].phase == Working
  }

  lemma RestartRuns(s: State)
    requires Reachable(s) && Listing(s.rows, Running, [])
    ensures Reachable(ExecCrash(s).(svc := Boot(s.svc.life + 1).(boot := Serving), gate := Gate(false, true, 0, true, map[])))
  {
    ReachStep(s, Crash);
    var c := Exec(s, Crash);
    ReachStep(c, B(ListRunning(true, [])));
    ReachStep(Exec(c, B(ListRunning(true, []))), B(Serve));
  }

  lemma DiesSpawned() returns (s: State)
    ensures Reachable(s) && s.limit == 5 && s.svc.life == 0 && s.rows == TWO_QUEUED && s.svc.disp.Spawned? && s.svc.disp.pid == 11
    ensures s.procs == map[11 := Proc(1, VM_EDIT, 0, Starting, false, false)]
  {
    var a := Scanned2();
    SpawnRuns(a, 11);
    s := HeadSpawned(a, 11);
  }

  lemma ServesAgain() returns (s: State)
    ensures Reachable(s) && s.limit == 5 && s.svc == Boot(1).(boot := Serving)
    ensures s.gate == Gate(false, true, 0, true, map[])
    ensures s.rows == TWO_QUEUED && s.procs == map[11 := Proc(1, VM_EDIT, 0, Starting, false, true)]
  {
    var b := DiesSpawned();
    RestartRuns(b);
    s := ExecCrash(b).(svc := Boot(1).(boot := Serving), gate := Gate(false, true, 0, true, map[]));
  }

  /** The first job spawned again, beside the worker of the lifetime before. */
  lemma SpawnedAgain() returns (s: State)
    ensures Reachable(s) && s.svc.mon.Free? && s.svc.disp.Spawned? && s.svc.disp.item == Item(1, VM_EDIT)
    ensures s.rows == TWO_QUEUED
    ensures s.procs == map[11 := Proc(1, VM_EDIT, 0, Starting, false, true), 12 := Proc(1, VM_EDIT, 1, Starting, false, false)]
  {
    var a := ServesAgain();
    TwoListed();
    PassBegins(a, [1, 2]);
    var b := PassListed(a, [1, 2]);
    SpawnRuns(b, 12);
    s := HeadSpawned(b, 12);
  }

  /** The service dies between spawning a worker and recording it; the next lifetime
      spawns another; the first one then finds the row running and works beside it. */
  lemma OneJobTwoWorkers()
    ensures exists s, p, q :: Reachable(s) && BothWork(s, p, q)
  {
    var s := SpawnedAgain();
    StartRuns(s);
    var steps := BothCheck(HandStarted(s), 11, 12);
    ReachRun(HandStarted(s), steps);
  }

  lemma BothCheck(s: State, p: Pid, q: Pid) returns (steps: seq<Step>)
    requires p in s.procs && q in s.procs && p != q && s.procs[p].id == s.procs[q].id
    requires s.procs[p].phase == Starting && s.procs[q].phase == Starting && CanSwap(s.rows, s.procs[p].id, Running)
    ensures Runs(s, steps) && BothWork(Last(s, steps), p, q)
  {
    var check, check' := W(p, Check(true)), W(q, Check(true));
    RunAppend(s, [], check);
    RunAppend(s, [] + [check], check');
    steps := [] + [check] + [check'];
  }

  /** And this is so everywhere: wherever a worker left behind unrecorded has yet to check a
      running row, and so has the worker recorded for it, both can get to work from there. */
  lemma OrphanWorksBeside(s: State, p: Pid) returns (steps: seq<Step>)
    requires Reachable(s) && p in s.procs && s.procs[p].orphan && s.procs[p].phase == Starting
    requires var id := s.procs[p].id;
             CanSwap(s.rows, id, Running) && s.rows[id].pid in s.procs && s.procs[s.rows[id].pid].phase == Starting
    ensures Runs(s, steps) && BothWork(Last(s, steps), p, s.rows[s.procs[p].id].pid)
  {
    ReachableInv(s);
    var id := s.procs[p].id;
    assert RowOk(s.rows[id]) && Recorded(id, s.rows[id], s.procs);
    steps := BothCheck(s, p, s.rows[id].pid);
  }

  // ---- a survivor of the lifetime before ----------------------------------------

  const VM_START: Job := Job(VmManagement, "start", "vm-a", Requested(0))

  const EDIT_AGAIN: Job := Job(VmEdit, "", "vm-a", Requested(1))

  function Start11(): Proc {
    Proc(1, VM_START, 0, Working, true, false)
  }

  /** Two recorded workers of one VM at work, one more than the limit allows. */
  ghost predicate BesideSurvivor(s: State, p: Pid, q: Pid) {
    && Rivals(s.procs, p, q) && s.procs[p].phase == Working && s.procs[q].phase == Working
    && RecordedAs(s, p) && RecordedAs(s, q)
    && s.limit == 1 && |LiveBefore(s.procs, s.svc.life + 1)| > s.limit
  }

  predicate RecordedAs(s: State, p: Pid)
    requires p in s.procs
  {
    !s.procs[p].orphan && CanSwap(s.rows, s.procs[p].id, Running) && s.rows[s.procs[p].id].pid == p
  }

  lemma OneListed(rows: Table, id: JobId)
    requires CanSwap(rows, id, Queued) && forall j :: CanSwap(rows, j, Queued) ==> j == id
    ensures Listing(rows, Queued, [id])
  {
    forall j | j in rows && rows[j].status == Queued ensures j in [id] { assert CanSwap(rows, j, Queued); }
  }

  lemma FirstStarted() returns (s: State)
    ensures Reachable(s) && s.limit == 1 && s.svc.life == 0 && CanSwap(s.rows, 1, Running) && s.rows.Keys == {1}
    ensures s.rows[1].pid == 11 && s.rows[1].job == VM_START && s.purged == {}
    ensures s.procs == map[11 := Proc(1, VM_START, 0, Starting, false, false)]
    ensures s.net.req.Waiting? && s.net.msgs.Keys == {0} && s.svc.disp.Scanning?
  {
    FreshReachable(1);
    RequestRuns(Fresh(1), 0, VM_START, 1);
    var g := Accepted(Fresh(1), 0, VM_START, 1);
    OneListed(g.rows, 1);
    PassBegins(g, [1]);
    var a := PassListed(g, [1]);
    SpawnRuns(a, 11);
    var b := HeadSpawned(a, 11);
    StartRuns(b);
    s := HandStarted(b);
  }

  lemma FirstAtWork() returns (s: State)
    ensures Reachable(s) && s.limit == 1 && s.svc.life == 0 && s.svc.disp.Scanning?
    ensures s.rows.Keys == {1} && CanSwap(s.rows, 1, Running) && s.rows[1].pid == 11 && s.rows[1].job == VM_START
    ensures s.procs == map[11 := Start11()] && s.purged == {} && s.net.req.Waiting? && s.net.msgs.Keys == {0}
  {
    var a := FirstStarted();
    ReachStep(a, W(11, Check(true)));
    s := Exec(a, W(11, Check(true)));
    assert s.procs == map[11 := Start11()] && s.rows == a.rows && s.svc == a.svc && s.net == a.net;
  }

  /** The worker is at work when the service dies. */
  lemma FirstSurvives() returns (s: State)
    ensures Reachable(s) && s.limit == 1 && s.svc == Boot(1) && s.gate == Gate(false, false, 0, true, map[])
    ensures s.rows.Keys == {1} && CanSwap(s.rows, 1, Running) && s.rows[1].pid == 11 && s.rows[1].job == VM_START
    ensures s.procs == map[11 := Start11()] && s.purged == {} && s.net.req.Waiting? && s.net.msgs.Keys == {0}
  {
    var b := FirstAtWork();
    ReachStep(b, Crash);
    s := Exec(b, Crash);
    assert s.procs == map[11 := Start11()];
  }

  lemma SurvivorServes() returns (s: State)
    ensures Reachable(s) && s.limit == 1 && s.svc == Boot(1).(boot := Serving) && s.gate == Gate(false, true, 0, true, map[])
    ensures s.rows.Keys == {1} && CanSwap(s.rows, 1, Running) && s.rows[1].pid == 11 && s.rows[1].job == VM_START
    ensures s.procs == map[11 := Start11()] && s.purged == {} && s.net.req.Waiting? && s.net.msgs.Keys == {0}
  {
    var c := FirstSurvives();
    s := RecoveredWith(c);
  }

  /** Recovery leaves alone a running row whose worker lives. */
  lemma RecoveredWith(c: State) returns (s: State)
    requires Reachable(c) && c.svc.boot.Booting? && c.rows.Keys == {1} && CanSwap(c.rows, 1, Running)
    requires c.rows[1].pid == 11 && Alive(c.procs, 11)
    ensures Reachable(s) && s == c.(svc := c.svc.(boot := Serving), gate := c.gate.(token := true))
  {
    assert Listing(c.rows, Running, [1]);
    var l := B(ListRunning(true, [1]));
    ReachStep(c, l);
    var d := Exec(c, l);
    assert d.svc.boot == Recovering([(1, 11)]);
    ReachStep(d, B(Examine));
    var e := Exec(d, B(Examine));
    assert [(1, 11)][1..] == [];
    ReachStep(e, B(Serve));
    s := Exec(e, B(Serve));
  }

  lemma SecondSpawned() returns (s: State)
    ensures Reachable(s) && s.limit == 1 && s.svc.life == 1 && s.svc.disp.Spawned? && s.svc.mon.Free?
    ensures s.svc.disp.item == Item(2, EDIT_AGAIN) && s.svc.disp.pid == 12 && CanSwap(s.rows, 2, Queued)
    ensures CanSwap(s.rows, 1, Running) && s.rows[1].pid == 11
    ensures s.procs == map[11 := Start11(), 12 := Proc(2, EDIT_AGAIN, 1, Starting, false, false)]
  {
    var a := SurvivorServes();
    RequestRuns(a, 1, EDIT_AGAIN, 2);
    var b := Accepted(a, 1, EDIT_AGAIN, 2);
    OneListed(b.rows, 2);
    PassBegins(b, [2]);
    var c := PassListed(b, [2]);
    SpawnRuns(c, 12);
    s := HeadSpawned(c, 12);
  }

  lemma BothAtWork() returns (s: State)
    ensures Reachable(s) && s.limit == 1 && s.svc.life == 1
    ensures CanSwap(s.rows, 1, Running) && s.rows[1].pid == 11 && CanSwap(s.rows, 2, Running) && s.rows[2].pid == 12
    ensures s.procs == map[11 := Start11(), 12 := Proc(2, EDIT_AGAIN, 1, Working, true, false)]
  {
    var a := SecondSpawned();
    StartRuns(a);
    var b := HandStarted(a);
    ReachStep(b, W(12, Check(true)));
    s := Exec(b, W(12, Check(true)));
    assert s.procs == map[11 := Start11(), 12 := Proc(2, EDIT_AGAIN, 1, Working, true, false)];
  }

  /** A worker survives a crash and goes on; the new service does not know it, and starts
      another write of the same VM, with the configured number of workers at one. */
  lemma SurvivorClash()
    ensures exists s, p, q :: Reachable(s) && BesideSurvivor(s, p, q)
  {
    var c := BothAtWork();
    SubsetSize({11, 12}, LiveBefore(c.procs, 2));
    assert BesideSurvivor(c, 11, 12);
  }

  // ---- a refresh job made twice ------------------------------------------------

  /** One failed list call is enough for a second active refresh job of a type. */
  lemma RefreshTwice()
    ensures exists s, t :: Reachable(s) && ActiveRefresh(s.rows, 1, t) && ActiveRefresh(s.rows, 2, t)
  {
    var t := VmInventory;
    FreshReachable(5);
    var a := MakeRefresh(Fresh(5), t, true, 1);
    var b := MakeRefresh(a, t, false, 2);
    assert ActiveRefresh(b.rows, 1, t) && ActiveRefresh(b.rows, 2, t);
  }

  lemma MakeRefresh(s: State, t: TaskType, ok: bool, id: JobId) returns (r: State)
    requires Reachable(s) && s.svc.boot.Serving? && RefreshType(t) && SchedAt(s, t).Resting? && FreshId(s, id)
    requires (ok ==> !AnyOfType(s.rows, t, Queued)) && !AnyOfType(s.rows, t, Running)
    ensures Reachable(r) && r.svc == s.svc && r.rows == s.rows[id := NewRow(Job(t, "", "", Scheduled), NOON)]
    ensures r.purged == s.purged && SchedAt(r, t).Resting?
  {
    ReachStep(s, S(t, ReadQueued(ok)));
    var a := Exec(s, S(t, ReadQueued(ok)));
    ReachStep(a, S(t, ReadRunning(true)));
    var b := Exec(a, S(t, ReadRunning(true)));
    ReachStep(b, S(t, Make(true, id, NOON)));
    r := Exec(b, S(t, Make(true, id, NOON)));
  }

  /** The loop goes through its check, wherever in it it stands, and every call fails. */
  lemma ChecksFail(s: State, t: TaskType) returns (steps: seq<Step>)
    requires s.svc.boot.Serving? && RefreshType(t)
    ensures Runs(s, steps) && forall i :: 0 <= i < |steps| ==> steps[i].S? && steps[i].t == t
    ensures var b := Last(s, steps);
            b.svc == s.svc && b.rows == s.rows && b.purged == s.purged && SchedAt(b, t).NoneActive?
  {
    steps := [];
    if SchedAt(s, t).Resting? {
      RunAppend(s, steps, S(t, ReadQueued(false)));
      steps := steps + [S(t, ReadQueued(false))];
    }
    if SchedAt(Last(s, steps), t).NoneQueued? {
      RunAppend(s, steps, S(t, ReadRunning(false)));
      steps := steps + [S(t, ReadRunning(false))];
    }
  }

  /** And it is enough everywhere: wherever an active refresh job of the type is there, its
      loop alone, if its list calls fail, makes a second one from there. */
  lemma FaultsMakeTwo(s: State, t: TaskType, id: JobId) returns (steps: seq<Step>, j: JobId)
    requires Reachable(s) && s.svc.boot.Serving? && RefreshType(t) && ActiveRefresh(s.rows, id, t)
    ensures Runs(s, steps) && forall i :: 0 <= i < |steps| ==> steps[i].S? && steps[i].t == t
    ensures TwoRefreshes(Last(s, steps).rows, id, j, t)
  {
    steps := ChecksFail(s, t);
    j := UnusedNat(s.rows.Keys + s.purged);
    assert FreshId(Last(s, steps), j);
    var make := S(t, Make(true, j, NOON));
    RunAppend(s, steps, make);
    steps := steps + [make];
    assert Last(s, steps).rows == s.rows[j := NewRow(Job(t, "", "", Scheduled), NOON)];
  }

  // ---- a write accepted twice ----------------------------------------------------

  /** Wherever an active row has a duplicate key and the request loop has not stopped, one
      conflict query that fails leads from there to a second active row of that key. */
  lemma BlindMakesTwo(s: State, id: JobId) returns (steps: seq<Step>, j: JobId)
    requires Reachable(s) && s.svc.boot.Serving? && !s.net.req.Halted?
    requires ActiveIn(s.rows, id) && IsWriteTask(s.rows[id].job.taskType) && s.rows[id].job.vm != ""
    ensures Runs(s, steps) && TwoOfKey(Last(s, steps).rows, id, j)
  {
    ReachableInv(s);
    steps := TurnEnds(s);
    var a := Last(s, steps);
    assert RowsStay(s.rows, a.rows);
    var more;
    more, j := BlindlyMade(a, id);
    RunsConcat(s, steps, more);
    steps := steps + more;
  }

  lemma BlindlyMade(s: State, id: JobId) returns (steps: seq<Step>, j: JobId)
    requires s.svc.boot.Serving? && s.net.req.Waiting?
    requires ActiveIn(s.rows, id) && IsWriteTask(s.rows[id].job.taskType) && s.rows[id].job.vm != ""
    ensures Runs(s, steps) && TwoOfKey(Last(s, steps).rows, id, j)
  {
    var m := UnusedNat(s.net.msgs.Keys);
    var job := s.rows[id].job.(origin := Requested(m));
    steps := BlindlyCleared(s, m, job);
    j := UnusedNat(s.rows.Keys + s.purged);
    assert FreshId(Last(s, steps), j);
    var make := R(Create(true, j, NOON));
    RunAppend(s, steps, make);
    steps := steps + [make];
    assert Last(s, steps).rows == s.rows[j := NewRow(job, NOON)];
  }

  lemma BlindlyCleared(s: State, m: MsgId, job: Job) returns (steps: seq<Step>)
    requires s.svc.boot.Serving? && s.net.req.Waiting? && m !in s.net.msgs
    requires job.origin == Requested(m) && IsWriteTask(job.taskType)
    ensures Runs(s, steps)
    ensures var c := Last(s, steps);
            && c.rows == s.rows && c.purged == s.purged && c.net.req.Clear? && c.net.req.m == m
            && m in c.net.msgs && c.net.msgs[m].job == job
  {
    var sent, got, check := R(Publish(m, job, true)), R(Deliver(m)), R(CheckConflict(false));
    RunAppend(s, [], sent);
    RunAppend(s, [] + [sent], got);
    RunAppend(s, [] + [sent] + [got], check);
    steps := [] + [sent] + [got] + [check];
  }

  // ---- a delivery lost before its ack ------------------------------------------------

  /** A request stored as row 1, whose delivery is then lost. */
  lemma StoredThenLost(job: Job) returns (s: State)
    requires job.origin == Requested(0)
    ensures Reachable(s) && s.svc.boot.Serving? && s.net.req == Saved(0, 0) && BackInQueue(s.net, 0) && s.net.msgs[0].job == job
    ensures 0 in s.net.stored && s.net.stored[0] == 1 && ActiveIn(s.rows, 1) && s.rows[1].job == job
  {
    FreshReachable(5);
    StoreRuns(Fresh(5), 0, job, 1);
    var a := Stored(Fresh(5), 0, job, 1);
    assert a.net.msgs[0] == Msg(job, true, InFlight(0));
    ReachStep(a, R(ChannelLost(0)));
    s := Exec(a, R(ChannelLost(0)));
  }

  predicate RejectedForItself(s: State, m: MsgId, id: JobId) {
    m in s.net.answered && ActiveIn(s.rows, id) && s.rows[id].job.origin == Requested(m)
  }

  /** The delivery of a write is lost between the row and the ack; delivered again, the
      request is answered as a duplicate while its own job is active. */
  lemma DuplicateOfItself()
    ensures exists s, m, id :: Reachable(s) && RejectedForItself(s, m, id)
  {
    var a := StoredThenLost(VM_EDIT);
    var steps := LostHandledAgain(a, 0);
    ReachRun(a, steps);
    assert RejectedForItself(Last(a, steps), 0, 1);
  }

  predicate TwoRows(s: State, m: MsgId, id: JobId, j: JobId) {
    && id != j && ActiveIn(s.rows, id) && ActiveIn(s.rows, j)
    && s.rows[id].job.origin == Requested(m) && s.rows[j].job.origin == Requested(m)
  }

  /** So is that of a host action, which is not checked: it becomes two active rows. */
  lemma RequestStoredTwice()
    ensures exists s, m, id, j :: Reachable(s) && TwoRows(s, m, id, j)
  {
    var a := StoredThenLost(SUSPEND.(origin := Requested(0)));
    var steps := LostHandledAgain(a, 0);
    ReachRun(a, steps);
    var t := Last(a, steps);
    var j :| j in t.rows && Active(t.rows[j]) && j !in a.rows && t.rows[j].job == a.net.msgs[0].job;
    assert TwoRows(t, 0, 1, j);
  }

  // ---- an upgrade beside a worker ----------------------------------------------

  predicate UpgradesBesideWorker(s: State) {
    EnabledG(s, Launch(0, true)) && !s.gate.waiters[0].timedOut && s.svc.workers != map[]
  }

  lemma DrainRuns(s: State)
    requires Reachable(s) && s.svc.boot.Serving? && s.gate.waiters == map[] && s.svc.mon.Free? && s.svc.workers == map[]
    ensures Reachable(s.(gate := s.gate.(drain := true, waiters := map[0 := Launching(false)])))
  {
    ReachStep(s, G(EnterDrain(0)));
    var a := Exec(s, G(EnterDrain(0)));
    ReachStep(a, G(Tick(0)));
    assert Exec(a, G(Tick(0))).gate.waiters == map[0 := Launching(false)];
  }

  /** With a pass in flight, drain mode can find the registry empty and launch the
      upgrade after that pass has registered a worker. */
  lemma UpgradeBesideWorker()
    ensures exists s :: Reachable(s) && UpgradesBesideWorker(s)
  {
    var a := Scanned2();
    SpawnRuns(a, 11);
    var b := HeadSpawned(a, 11);
    DrainRuns(b);
    var c := b.(gate := b.gate.(drain := true, waiters := map[0 := Launching(false)]));
    assert c.svc.disp.item.id == 1;
    StartRuns(c);
    assert 1 in HandStarted(c).svc.workers;
    assert UpgradesBesideWorker(HandStarted(c));
  }

  // ---- a request that vanishes -------------------------------------------------

  predicate Vanished(s: State, m: MsgId) {
    && m in s.net.msgs && s.net.msgs[m].place.Dropped? && s.net.msgs[m].ok
    && m !in s.net.stored && m !in s.net.answered
  }

  /** When its row cannot be created a request is dropped without row or response. */
  lemma RequestVanishes()
    ensures exists s, m :: Reachable(s) && Vanished(s, m)
  {
    FreshReachable(5);
    ClearRuns(Fresh(5), 0, VM_EDIT);
    var a := Unopposed(Fresh(5), 0, VM_EDIT);
    ReachStep(a, R(Create(false, 1, NOON)));
    var b := Exec(a, R(Create(false, 1, NOON)));
    ReachStep(b, R(NackUnsaved));
    var c := Exec(b, R(NackUnsaved));
    assert c.net.msgs[0] == Msg(VM_EDIT, true, Dropped);
    assert Vanished(c, 0);
  }
}
