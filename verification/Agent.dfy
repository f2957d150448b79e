/** Main results about every run of the agent: any interleaving of dispatcher,
    monitor, workers, scheduler, request loop, drain waiters, retention, crashes and
    restarts. */
module Agent {
  import opened Clock
  import opened Jobs
  import opened Protocol
  import opened Safety
  import opened Registry
  import opened Execution
  import opened Clients

  ghost predicate Inv(s: State) {
    && Ready(s) && CountOkIn(s) && RuleOkIn(s) && AgreeOkIn(s)
    && SchedOk(s) && NetOk(s) && KeyOk(s) && GateOk(s)
  }

  lemma InvInit(s: State)
    requires Init(s)
    ensures Inv(s)
  {
  }

  lemma InvStep(s: State, step: Step)
    requires Inv(s) && Enabled(s, step)
    ensures Inv(Exec(s, step))
  {
    BaseStep(s, step);
    WorkersStep(s, step);
    MonKept(s, step);
    LiveStep(s, step);
    CountStep(s, step);
    RuleStep(s, step);
    AgreeStep(s, step);
    SchedStepKept(s, step);
    NetStep(s, step);
    KeyStep(s, step);
    GateKept(s, step);
  }

  lemma {:induction false} InvRun(s: State, steps: seq<Step>)
    requires Inv(s) && Runs(s, steps)
    ensures Inv(Last(s, steps))
    decreases |steps|
  {
    if steps != [] {
      InvStep(s, steps[0]);
      InvRun(Exec(s, steps[0]), steps[1..]);
    }
  }

  ghost predicate Reachable(s: State) {
    exists s0, steps :: Init(s0) && Runs(s0, steps) && Last(s0, steps) == s
  }

  lemma ReachableInv(s: State)
    requires Reachable(s)
    ensures Inv(s)
  {
    var s0, steps :| Init(s0) && Runs(s0, steps) && Last(s0, steps) == s;
    InvInit(s0);
    InvRun(s0, steps);
  }

  lemma {:induction false} RunAppend(s: State, steps: seq<Step>, step: Step)
    requires Runs(s, steps) && Enabled(Last(s, steps), step)
    ensures Runs(s, steps + [step]) && Last(s, steps + [step]) == Exec(Last(s, steps), step)
    decreases |steps|
  {
    var all := steps + [step];
    if steps == [] {
      assert all[1..] == [];
    } else {
      assert all[1..] == steps[1..] + [step];
      RunAppend(Exec(s, steps[0]), steps[1..], step);
    }
  }

  lemma TailOfSum<T>(a: seq<T>, b: seq<T>)
    requires a != []
    ensures (a + b)[0] == a[0] && (a + b)[1..] == a[1..] + b
  {
  }

  lemma {:induction false} RunsConcat(s: State, a: seq<Step>, b: seq<Step>)
    requires Runs(s, a) && Runs(Last(s, a), b)
    ensures Runs(s, a + b) && Last(s, a + b) == Last(Last(s, a), b)
    decreases |a|
  {
    if a == [] {
      assert a + b == b;
    } else {
      TailOfSum(a, b);
      RunsConcat(Exec(s, a[0]), a[1..], b);
    }
  }

  const SOME_TIME: Time := Time(1, 1, 1, 0, 0, 0, 0)

  lemma {:induction false} UnusedNat(taken: set<nat>) returns (n: nat)
    ensures n != 0 && forall k :: k in taken ==> k < n
    decreases |taken|
  {
    if taken == {} {
      n := 1;
    } else {
      var k :| k in taken;
      var n0 := UnusedNat(taken - {k});
      n := if n0 <= k then k + 1 else n0;
      assert taken == (taken - {k}) + {k};
    }
  }

  lemma ReachRun(s: State, steps: seq<Step>)
    requires Reachable(s) && Runs(s, steps)
    ensures Reachable(Last(s, steps))
  {
    var s0, before :| Init(s0) && Runs(s0, before) && Last(s0, before) == s;
    RunsConcat(s0, before, steps);
  }

  lemma ReachStep(s: State, step: Step)
    requires Reachable(s) && Enabled(s, step)
    ensures Reachable(Exec(s, step))
  {
    var s0, steps :| Init(s0) && Runs(s0, steps) && Last(s0, steps) == s;
    RunAppend(s0, steps, step);
  }

  // ---- exclusion of writes ---------------------------------------------------

  /** Registered workers never break the exclusion rules; a host write and a VM write
      stand side by side only when one pass started both. */
  lemma RegisteredCompatible(s: State, id: JobId, j: JobId)
    requires Reachable(s) && id in s.svc.workers && j in s.svc.workers && id != j
    ensures Compatible(s.svc.workers[id], s.svc.workers[j])
  {
    ReachableInv(s);
  }

  /** When a worker joins the registry, every registered write of the other kind was
      started by the same pass. */
  lemma JoinsOwnPass(s: State, id: JobId)
    requires Reachable(s) && EnabledD(s, Register) && id in s.svc.workers
    requires var job := s.svc.disp.item.job;
             (Classify(job) == Write && IsHostWrite(s.svc.workers[id])) || (Classify(job) == HostWrite && IsVmWrite(s.svc.workers[id]))
    ensures s.svc.workers[id].pass == s.svc.pass
  {
    ReachableInv(s);
    JoinRule(s.svc.workers, s.svc.disp, s.svc.pass, id);
  }

  lemma JoinRule(workers: Workers, pc: DispPc, pass: nat, id: JobId)
    requires RuleOk(workers, pc, pass) && InHand(pc) && id in workers
    requires (Classify(pc.item.job) == Write && IsHostWrite(workers[id])) || (Classify(pc.item.job) == HostWrite && IsVmWrite(workers[id]))
    ensures workers[id].pass == pass
  {
  }

  predicate LiveNow(s: State, pid: Pid) {
    Alive(s.procs, pid) && s.procs[pid].life == s.svc.life
  }

  predicate Listed(s: State, pid: Pid)
    requires pid in s.procs
  {
    s.procs[pid].id in s.svc.workers && s.svc.workers[s.procs[pid].id].pid == pid
  }

  /** A live process of this lifetime has its entry, or is in the dispatcher's hand
      under the rule that let it in. */
  lemma LiveEntry(s: State, pid: Pid)
    requires Inv(s) && LiveNow(s, pid)
    ensures Listed(s, pid) ==> s.svc.workers[s.procs[pid].id].job == s.procs[pid].job
    ensures !Listed(s, pid) ==>
      && HasPid(s.svc.disp) && s.svc.disp.pid == pid && s.svc.disp.item.job == s.procs[pid].job
      && MayJoin(s.svc.workers, s.svc.disp.c, s.procs[pid].job)
      && (Classify(s.procs[pid].job) == HostWrite ==> NoHostWrites(s.svc.workers))
  {
    assert Tracked(pid, s.procs[pid], s.svc.workers, s.svc.disp);
    if Listed(s, pid) {
      assert EntryOk(s.procs[pid].id, s.svc.workers[s.procs[pid].id], s.rows, s.procs, s.svc.life, s.svc.pass);
    }
  }

  /** Two jobs that must not run side by side: writes of one VM, or two host writes. */
  predicate Clash(a: Job, b: Job) {
    || (Classify(a) == Write && Classify(b) == Write && a.vm == b.vm)
    || (Classify(a) == HostWrite && Classify(b) == HostWrite)
  }

  /** Live processes of this lifetime do not clash, from the moment of their spawn. */
  lemma CurrentExclude(s: State, p: Pid, q: Pid)
    requires Inv(s) && LiveNow(s, p) && LiveNow(s, q) && p != q
    ensures !Clash(s.procs[p].job, s.procs[q].job)
  {
    LiveEntry(s, p);
    LiveEntry(s, q);
    var workers := s.svc.workers;
    if Listed(s, p) && Listed(s, q) {
      assert Compatible(workers[s.procs[p].id], workers[s.procs[q].id]);
    }
  }

  // ---- number of live workers ------------------------------------------------

  /** The live processes that one service lifetime spawned. */
  function LiveOf(procs: map<Pid, Proc>, life: nat): set<Pid> {
    set pid | pid in procs && Alive(procs, pid) && procs[pid].life == life
  }

  function LiveSet(s: State): set<Pid> {
    LiveOf(s.procs, s.svc.life)
  }

  lemma {:induction false} EntriesCover(pids: set<Pid>, workers: map<JobId, Entry>)
    requires forall pid :: pid in pids ==> exists id :: id in workers && workers[id].pid == pid
    ensures |pids| <= |workers|
    decreases |pids|
  {
    if pids != {} {
      var pid :| pid in pids;
      var id :| id in workers && workers[id].pid == pid;
      var rest := workers - {id};
      forall p | p in pids - {pid} ensures exists j :: j in rest && rest[j].pid == p {
        var j :| j in workers && workers[j].pid == p;
        assert j in rest && rest[j].pid == p;
      }
      EntriesCover(pids - {pid}, rest);
      assert rest.Keys == workers.Keys - {id};
      assert |rest| == |rest.Keys| && |workers| == |workers.Keys|;
    }
  }

  lemma CurrentBounded(s: State)
    requires Inv(s)
    ensures |LiveSet(s)| <= s.limit && |s.svc.workers| <= s.limit
  {
    var hand := if HasPid(s.svc.disp) then {s.svc.disp.pid} else {};
    var listed := LiveSet(s) - hand;
    forall pid | pid in listed ensures exists id :: id in s.svc.workers && s.svc.workers[id].pid == pid {
      LiveEntry(s, pid);
      assert s.procs[pid].id in s.svc.workers;
    }
    EntriesCover(listed, s.svc.workers);
    assert LiveSet(s) <= listed + hand;
    SubsetSize(LiveSet(s), listed + hand);
    assert |listed + hand| == |listed| + |hand|;
    assert |hand| <= 1;
  }

  // ---- earlier lifetimes -------------------------------------------------------

  /** What holds of the live processes of every lifetime, this one and those before. */
  ghost predicate LivesOk(procs: map<Pid, Proc>, limit: nat) {
    && (forall p, q :: Alive(procs, p) && Alive(procs, q) && p != q && procs[p].life == procs[q].life ==>
          !Clash(procs[p].job, procs[q].job))
    && (forall life :: |LiveOf(procs, life)| <= limit)
  }

  /** Whoever lives after a step and is of another lifetime lived before it, as the same. */
  ghost predicate Survivors(procs: map<Pid, Proc>, procs': map<Pid, Proc>, life: nat) {
    forall pid :: Alive(procs', pid) && procs'[pid].life != life ==>
      Alive(procs, pid) && procs'[pid].life == procs[pid].life && procs'[pid].job == procs[pid].job
  }

  lemma SurvivorsD(s: State, d: DispStep)
    requires EnabledD(s, d)
    ensures Survivors(s.procs, ExecD(s, d).procs, s.svc.life) && ExecD(s, d).svc.life == s.svc.life && ExecD(s, d).limit == s.limit
  {
  }

  lemma SurvivorsStep(s: State, step: Step)
    requires Inv(s) && Enabled(s, step)
    ensures Survivors(s.procs, Exec(s, step).procs, Exec(s, step).svc.life) && Exec(s, step).limit == s.limit
  {
    if step.D? {
      SurvivorsD(s, step.d);
    } else if step.W? {
      SurvivorsW(s, step.pid, step.w);
    } else if Local(step) {
      LocalLeaves(s, step);
      SameProcs(s, step);
    } else if Inserts(step) {
      var id, job, now := InsertShape(s, step);
    } else {
      SurvivorsRest(s, step);
    }
  }

  lemma SurvivorsW(s: State, pid: Pid, w: WorkerStep)
    requires EnabledW(s, pid, w)
    ensures Survivors(s.procs, ExecW(s, pid, w).procs, s.svc.life)
    ensures ExecW(s, pid, w).svc.life == s.svc.life && ExecW(s, pid, w).limit == s.limit
  {
  }

  lemma SurvivorsRest(s: State, step: Step)
    requires step.Purge? || step.Crash?
    requires Enabled(s, step)
    ensures Survivors(s.procs, Exec(s, step).procs, Exec(s, step).svc.life) && Exec(s, step).limit == s.limit
  {
  }

  lemma LivesStep(s: State, step: Step)
    requires Inv(s) && LivesOk(s.procs, s.limit) && Enabled(s, step)
    ensures LivesOk(Exec(s, step).procs, s.limit)
  {
    var s' := Exec(s, step);
    InvStep(s, step);
    SurvivorsStep(s, step);
    LivesFrom(s, s');
  }

  lemma LivesFrom(s: State, s': State)
    requires LivesOk(s.procs, s.limit) && Inv(s') && s'.limit == s.limit && Survivors(s.procs, s'.procs, s'.svc.life)
    ensures LivesOk(s'.procs, s.limit)
  {
    forall p, q | Alive(s'.procs, p) && Alive(s'.procs, q) && p != q && s'.procs[p].life == s'.procs[q].life
      ensures !Clash(s'.procs[p].job, s'.procs[q].job)
    {
      if s'.procs[p].life == s'.svc.life { CurrentExclude(s', p, q); }
    }
    forall life ensures |LiveOf(s'.procs, life)| <= s.limit {
      if life == s'.svc.life {
        CurrentBounded(s');
      } else {
        assert LiveOf(s'.procs, life) <= LiveOf(s.procs, life);
        SubsetSize(LiveOf(s'.procs, life), LiveOf(s.procs, life));
      }
    }
  }

  lemma {:induction false} LivesRun(s: State, steps: seq<Step>)
    requires Inv(s) && LivesOk(s.procs, s.limit) && Runs(s, steps)
    ensures LivesOk(Last(s, steps).procs, Last(s, steps).limit)
    decreases |steps|
  {
    if steps != [] {
      LivesStep(s, steps[0]);
      SurvivorsStep(s, steps[0]);
      InvStep(s, steps[0]);
      LivesRun(Exec(s, steps[0]), steps[1..]);
    }
  }

  lemma ReachableLives(s: State)
    requires Reachable(s)
    ensures LivesOk(s.procs, s.limit)
  {
    var s0, steps :| Init(s0) && Runs(s0, steps) && Last(s0, steps) == s;
    InvInit(s0);
    forall life ensures |LiveOf(s0.procs, life)| <= s0.limit { assert LiveOf(s0.procs, life) == {}; }
    LivesRun(s0, steps);
  }

  /** Live processes of one service lifetime, this one or an earlier one, never clash: no
      two write one VM, and no two are host writes. */
  lemma LiveWritersExclude(s: State, p: Pid, q: Pid)
    requires Reachable(s) && Alive(s.procs, p) && Alive(s.procs, q) && p != q
    requires s.procs[p].life == s.procs[q].life
    ensures !Clash(s.procs[p].job, s.procs[q].job)
  {
    ReachableLives(s);
  }

  /** In terms of task types: of two such processes with one VM identifier, one is a read, a
      host action or a download. */
  lemma OneChangePerVm(s: State, p: Pid, q: Pid)
    requires Reachable(s) && Alive(s.procs, p) && Alive(s.procs, q) && p != q && s.procs[p].life == s.procs[q].life
    requires s.procs[p].job.vm == s.procs[q].job.vm
    ensures var safe := {VmInventory, HardwareInventory, VmStatus, TemplateInventory, IsoInventory, AgentStatus,
                         HostManagement, ArtifactDownload};
            s.procs[p].job.taskType in safe || s.procs[q].job.taskType in safe
  {
    LiveWritersExclude(s, p, q);
  }

  /** Of two that are host actions, one is one of the two refresh actions. */
  lemma OneHostAction(s: State, p: Pid, q: Pid)
    requires Reachable(s) && Alive(s.procs, p) && Alive(s.procs, q) && p != q && s.procs[p].life == s.procs[q].life
    requires s.procs[p].job.taskType == HostManagement && s.procs[q].job.taskType == HostManagement
    ensures s.procs[p].job.action in {"refresh_hardware", "refresh_inventory"}
         || s.procs[q].job.action in {"refresh_hardware", "refresh_inventory"}
  {
    LiveWritersExclude(s, p, q);
  }

  /** The two tables agree: a type subject to duplicate rejection is one of the four that
      change a VM, and every one of the four excludes its like on one VM. */
  lemma RejectedTypesExclude(s: State, p: Pid, q: Pid)
    requires Reachable(s) && Alive(s.procs, p) && Alive(s.procs, q) && p != q && s.procs[p].life == s.procs[q].life
    requires IsWriteTask(s.procs[p].job.taskType) && IsWriteTask(s.procs[q].job.taskType)
    ensures s.procs[p].job.vm != s.procs[q].job.vm
    ensures forall t :: IsWriteTask(t) <==> t in {VmCreate, VmClone, VmEdit, VmManagement}
  {
    LiveWritersExclude(s, p, q);
  }

  /** So a new worker clashes with a live one exactly when a survivor of an earlier
      lifetime does: the registry, empty after a restart, does not know it. */
  lemma SpawnClashes(s: State, pid: Pid)
    requires Reachable(s) && EnabledD(s, Spawn(true, pid))
    ensures var t := ExecD(s, Spawn(true, pid));
            (exists q :: Rivals(t.procs, pid, q)) <==> (exists q :: OldRival(s, q, s.svc.disp.item.job))
  {
    var t := ExecD(s, Spawn(true, pid));
    ReachStep(s, D(Spawn(true, pid)));
    forall q | Rivals(t.procs, pid, q) ensures OldRival(s, q, s.svc.disp.item.job) {
      if t.procs[q].life == t.procs[pid].life { LiveWritersExclude(t, pid, q); }
      ReachableInv(s);
      assert ProcOk(s.rows, s.purged, s.procs[q], s.svc.life);
    }
    forall q | OldRival(s, q, s.svc.disp.item.job) ensures Rivals(t.procs, pid, q) {}
  }

  predicate Rivals(procs: map<Pid, Proc>, p: Pid, q: Pid) {
    Alive(procs, p) && Alive(procs, q) && p != q && Clash(procs[p].job, procs[q].job)
  }

  predicate OldRival(s: State, q: Pid, job: Job) {
    Alive(s.procs, q) && s.procs[q].life < s.svc.life && Clash(job, s.procs[q].job)
  }

  /** The live processes of one service lifetime, this one or an earlier one, never exceed
      the configured number, whatever spawns, status writes or exits happen, in either
      kind of pass. */
  lemma LiveBounded(s: State, life: nat)
    requires Reachable(s)
    ensures |LiveOf(s.procs, life)| <= s.limit && |s.svc.workers| <= s.limit
  {
    ReachableLives(s);
    ReachableInv(s);
  }

  function LiveBefore(procs: map<Pid, Proc>, life: nat): set<Pid> {
    set pid | pid in procs && Alive(procs, pid) && procs[pid].life < life
  }

  /** All live processes together: at most the configured number for each lifetime so far,
      and more than that number only beside survivors. */
  lemma LiveTotal(s: State)
    requires Reachable(s)
    ensures |LiveBefore(s.procs, s.svc.life)| <= s.limit * s.svc.life
    ensures |LiveBefore(s.procs, s.svc.life + 1)| <= s.limit + |LiveBefore(s.procs, s.svc.life)|
    ensures forall pid :: Alive(s.procs, pid) ==> pid in LiveBefore(s.procs, s.svc.life + 1)
  {
    ReachableLives(s);
    LivesAdd(s.procs, s.limit, s.svc.life);
    OneLifeMore(s.procs, s.limit, s.svc.life);
    NobodyLater(s);
  }

  lemma NobodyLater(s: State)
    requires Reachable(s)
    ensures forall pid :: Alive(s.procs, pid) ==> pid in LiveBefore(s.procs, s.svc.life + 1)
  {
    ReachableInv(s);
    NobodyFromLater(s.rows, s.purged, s.procs, s.svc.life);
  }

  lemma NobodyFromLater(rows: Table, purged: set<JobId>, procs: map<Pid, Proc>, life: nat)
    requires ProcsOk(rows, purged, procs, life)
    ensures forall pid :: Alive(procs, pid) ==> pid in LiveBefore(procs, life + 1)
  {
    forall pid | Alive(procs, pid) ensures pid in LiveBefore(procs, life + 1) {
      assert ProcOk(rows, purged, procs[pid], life);
    }
  }

  lemma OneLifeMore(procs: map<Pid, Proc>, limit: nat, life: nat)
    requires LivesOk(procs, limit)
    ensures |LiveBefore(procs, life + 1)| <= limit + |LiveBefore(procs, life)|
  {
    assert LiveBefore(procs, life + 1) == LiveBefore(procs, life) + LiveOf(procs, life);
    assert |LiveOf(procs, life)| <= limit;
  }

  lemma {:induction false} LivesAdd(procs: map<Pid, Proc>, limit: nat, life: nat)
    requires LivesOk(procs, limit)
    ensures |LiveBefore(procs, life)| <= limit * life
  {
    if life == 0 {
      assert LiveBefore(procs, 0) == {};
    } else {
      LivesAdd(procs, limit, life - 1);
      OneLifeMore(procs, limit, life - 1);
      assert limit * life == limit * (life - 1) + limit;
    }
  }

  // ---- who runs a job --------------------------------------------------------

  /** A worker that passes its status check is the one its row names, unless its
      service died between spawning and recording it; then it never is. */
  lemma CheckedWorkerIsRecorded(s: State, pid: Pid)
    requires Reachable(s) && EnabledW(s, pid, Check(true))
    requires ExecW(s, pid, Check(true)).procs[pid].phase == Working
    ensures s.rows[s.procs[pid].id].pid == pid <==> !s.procs[pid].orphan
    ensures s.procs[pid].orphan ==> s.procs[pid].life < s.svc.life
  {
    ReachableInv(s);
    CheckFindsItself(s, pid);
    assert ProcOk(s.rows, s.purged, s.procs[pid], s.svc.life);
  }

  /** In the history of the store no job is executed by two workers of which neither
      was left behind unrecorded: across restarts, failed status writes and kills. */
  lemma ExecutedOnce(s: State, p: Pid, q: Pid)
    requires Reachable(s) && Executed(s.procs, p) && Executed(s.procs, q) && s.procs[p].id == s.procs[q].id
    ensures p == q
  {
    ReachableInv(s);
  }

  // ---- registry and table ----------------------------------------------------

  /** A running row recorded in this lifetime is registered under the recorded PID, or
      its registration is the dispatcher's next act, or a store call failed while its
      worker's end was handled. */
  lemma RunningIsRegistered(s: State, id: JobId)
    requires Reachable(s) && id in s.rows && s.rows[id].status == Running && OfLife(s.rows[id], s.procs, s.svc.life)
    ensures id in s.svc.workers || InWriting(s.svc.disp, id) || id in s.svc.lost
    ensures id in s.svc.workers ==> s.svc.workers[id].pid == s.rows[id].pid
    ensures id in s.svc.lost ==> id !in s.svc.workers && !InWriting(s.svc.disp, id) && !Alive(s.procs, s.rows[id].pid)
  {
    ReachableInv(s);
    if id in s.svc.workers { assert EntryOk(id, s.svc.workers[id], s.rows, s.procs, s.svc.life, s.svc.pass); }
    if id in s.svc.lost { assert Abandoned(id, s.rows, s.purged, s.procs, s.svc.workers, s.svc.disp); }
  }

  lemma RegisteredIsNotQueued(s: State, id: JobId)
    requires Reachable(s) && id in s.svc.workers && id in s.rows
    ensures s.rows[id].status != Queued && s.rows[id].pid == s.svc.workers[id].pid
  {
    ReachableInv(s);
    RegisteredNotQueued(s, id);
    assert EntryOk(id, s.svc.workers[id], s.rows, s.procs, s.svc.life, s.svc.pass);
  }

  /** When an entry is removed and the store answered, its row is terminal or purged;
      its process is dead in any case. */
  lemma RemovedIsEnded(s: State)
    requires Reachable(s) && EnabledM(s, Remove)
    ensures s.svc.mon.id in s.svc.workers && !Alive(s.procs, s.svc.workers[s.svc.mon.id].pid)
    ensures var id := s.svc.mon.id;
            !s.svc.mon.missed ==> (if id in s.rows then Terminal(s.rows[id].status) else id in s.purged)
    ensures ExecM(s, Remove).svc.lost != s.svc.lost ==> s.svc.mon.missed
  {
    ReachableInv(s);
    RegisteredNotQueued(s, s.svc.mon.id);
  }

  // ---- duplicates ------------------------------------------------------------

  /** When a check whose own two list calls succeeded is about to make a refresh job, no
      active one of the type exists, whatever everyone did between and after the calls. */
  lemma CheckedRefresh(s: State, t: TaskType)
    requires Reachable(s) && SchedAt(s, t) == NoneActive(true)
    ensures forall id :: !ActiveRefresh(s.rows, id, t)
  {
    ReachableInv(s);
    assert TypeOk(s.rows, SchedAt(s, t), t, s.sched.unchecked);
  }

  predicate TwoRefreshes(rows: Table, id: JobId, j: JobId, t: TaskType) {
    id != j && ActiveRefresh(rows, id, t) && ActiveRefresh(rows, j, t)
  }

  /** So two active refresh jobs of a type come about only by an insertion whose own check
      had a list call that failed. */
  lemma SecondRefreshUnchecked(s: State, step: Step, t: TaskType, id: JobId, j: JobId)
    requires Reachable(s) && Enabled(s, step)
    requires TwoRefreshes(Exec(s, step).rows, id, j, t) && !TwoRefreshes(s.rows, id, j, t)
    ensures step.S? && step.t == t && step.q.Make? && step.q.ok && SchedAt(s, t) == NoneActive(false)
  {
    ReachableInv(s);
    RowsEvolve(s, step);
    if Inserts(step) { NewRefresh(s, step, t, id, j); } else { TwoSettle(s.rows, Exec(s, step).rows, id, j, t); }
  }

  lemma TwoSettle(rows: Table, rows': Table, id: JobId, j: JobId, t: TaskType)
    requires Settles(rows, rows') && TwoRefreshes(rows', id, j, t)
    ensures TwoRefreshes(rows, id, j, t)
  {
    RefreshSettles(rows, rows', t, id);
    RefreshSettles(rows, rows', t, j);
  }

  lemma NewRefresh(s: State, step: Step, t: TaskType, id: JobId, j: JobId)
    requires Reachable(s) && NetOk(s) && Enabled(s, step) && Inserts(step)
    requires TwoRefreshes(Exec(s, step).rows, id, j, t) && !TwoRefreshes(s.rows, id, j, t)
    ensures step.S? && step.t == t && SchedAt(s, t) == NoneActive(false)
  {
    var i, job, now := InsertShape(s, step);
    if step.R? { assert MsgOk(s.net.req.m, s.net.msgs[s.net.req.m], s.net); }
    OneNewRefresh(s.rows, i, NewRow(job, now), id, j, t);
    if SchedAt(s, t) == NoneActive(true) { CheckedRefresh(s, t); }
  }

  lemma OneNewRefresh(rows: Table, i: JobId, r: Row, id: JobId, j: JobId, t: TaskType)
    requires TwoRefreshes(rows[i := r], id, j, t) && !TwoRefreshes(rows, id, j, t) && i !in rows
    ensures Refresh(r, t) && (ActiveRefresh(rows, id, t) || ActiveRefresh(rows, j, t))
  {
  }

  /** So, whatever calls ever failed: of two active scheduler jobs of a type, one was inserted
      after a check with a failed call. */
  lemma OneRefreshPerType(s: State, t: TaskType, id: JobId, j: JobId)
    requires Reachable(s) && ActiveRefresh(s.rows, id, t) && ActiveRefresh(s.rows, j, t)
    ensures id == j || id in s.sched.unchecked || j in s.sched.unchecked
  {
    ReachableInv(s);
    assert TypeOk(s.rows, SchedAt(s, t), t, s.sched.unchecked);
  }

  /** When a request whose own query succeeded, or whose type is not checked, is about to
      become a row, no active row shares its duplicate key. */
  lemma CheckedRequest(s: State)
    requires Reachable(s) && s.net.req.Clear? && s.net.req.sure && s.net.req.m in s.net.msgs
    ensures NoRival(s.rows, s.net.msgs[s.net.req.m].job)
  {
    ReachableInv(s);
  }

  predicate TwoOfKey(rows: Table, id: JobId, j: JobId) {
    id != j && ActiveIn(rows, id) && ActiveIn(rows, j) && SameKey(rows[id].job, rows[j].job)
  }

  /** So two active rows of a duplicate key come about only by an insertion whose own query
      failed. */
  lemma SecondOfKeyUnchecked(s: State, step: Step, id: JobId, j: JobId)
    requires Reachable(s) && Enabled(s, step)
    requires TwoOfKey(Exec(s, step).rows, id, j) && !TwoOfKey(s.rows, id, j)
    ensures step.R? && step.r.Create? && step.r.ok && s.net.req.Clear? && !s.net.req.sure
  {
    ReachableInv(s);
    RowsEvolve(s, step);
    if Inserts(step) { NewOfKey(s, step, id, j); } else { KeySettles(s.rows, Exec(s, step).rows, id, j); }
  }

  lemma KeySettles(rows: Table, rows': Table, id: JobId, j: JobId)
    requires Settles(rows, rows') && TwoOfKey(rows', id, j)
    ensures TwoOfKey(rows, id, j)
  {
    assert Follows(rows[id], rows'[id]) && Follows(rows[j], rows'[j]);
  }

  lemma NewOfKey(s: State, step: Step, id: JobId, j: JobId)
    requires Reachable(s) && Enabled(s, step) && Inserts(step)
    requires TwoOfKey(Exec(s, step).rows, id, j) && !TwoOfKey(s.rows, id, j)
    ensures step.R? && s.net.req.Clear? && !s.net.req.sure
  {
    var i, job, now := InsertShape(s, step);
    if step.S? { RefreshHasNoRival(s.rows, step.t); }
    OneNewOfKey(s.rows, i, NewRow(job, now), id, j);
    if step.R? && s.net.req.sure { CheckedRequest(s); }
  }

  lemma OneNewOfKey(rows: Table, i: JobId, r: Row, id: JobId, j: JobId)
    requires TwoOfKey(rows[i := r], id, j) && !TwoOfKey(rows, id, j) && i !in rows
    ensures (ActiveIn(rows, id) && SameKey(rows[id].job, r.job) && SameKey(r.job, rows[id].job))
         || (ActiveIn(rows, j) && SameKey(rows[j].job, r.job) && SameKey(r.job, rows[j].job))
  {
  }

  /** So, whatever queries ever failed: of two active rows that share a conflict key, one was
      inserted after a query that failed. */
  lemma OneActivePerKey(s: State, id: JobId, j: JobId)
    requires Reachable(s) && ActiveIn(s.rows, id) && ActiveIn(s.rows, j)
    requires var a, b := s.rows[id].job, s.rows[j].job;
             && a.taskType in {VmCreate, VmClone, VmEdit, VmManagement} && b.taskType == a.taskType
             && a.vm == b.vm && a.vm != "" && (a.taskType == VmManagement ==> a.action == b.action)
    ensures id == j || id in s.net.unchecked || j in s.net.unchecked
  {
    ReachableInv(s);
  }

  // ---- requests --------------------------------------------------------------

  /** An acked request was answered as a conflict, or its row was created: the row is
      still there for that very job, or was terminal when it was purged. */
  lemma AckedIsStoredOrAnswered(s: State, m: MsgId)
    requires Reachable(s) && m in s.net.msgs && s.net.msgs[m].place.Acked?
    ensures m in s.net.answered
         || (m in s.net.stored && (if s.net.stored[m] in s.rows then s.rows[s.net.stored[m]].job == s.net.msgs[m].job
                                   else s.net.stored[m] in s.purged))
  {
    ReachableInv(s);
    assert MsgOk(m, s.net.msgs[m], s.net);
    if m in s.net.stored { assert StoredOk(m, s.net, s.rows, s.purged); }
  }

  /** No delivery is settled twice, and no request is forgotten: it is queued in the
      broker, in the loop's hand, or settled; it is dropped only when it does not parse
      or its row could not be created. */
  lemma DeliveriesSettleOnce(s: State, tag: nat, m: MsgId)
    requires Reachable(s) && m in s.net.msgs
    ensures s.net.settled[tag] <= 1
    ensures s.net.msgs[m].place == InFlight(tag) ==> Holds(s.net.req) && s.net.req.m == m && s.net.settled[tag] == 0
    ensures s.net.msgs[m].place.Dropped? ==> !s.net.msgs[m].ok || m in s.net.unsaved
  {
    ReachableInv(s);
    assert MsgOk(m, s.net.msgs[m], s.net);
  }

  // ---- wakeups ---------------------------------------------------------------

  /** Whenever a row was added, an entry removed or drain mode left since the last pass
      began, a token is pending or some goroutine is about to send it, or a pass is
      about to begin, or drain mode is on. */
  lemma NoLostWakeup(s: State)
    requires Reachable(s) && s.gate.stale && s.svc.boot.Serving? && !s.gate.drain
    ensures s.gate.token || s.svc.disp.Woken? || EnabledG(s, Fire) || s.net.req.Saved? || s.net.req.Notify?
  {
    ReachableInv(s);
  }
}
