/** The dispatcher's code over shared memory that others change between any two of its
    accesses. Every run of it is a run of the dispatcher's steps. */
module Dispatching {
  import opened Clock
  import opened Jobs
  import opened Protocol
  import opened Agent
  import opened Pass
  import opened Shared

  // ---- triggers and drain mode -----------------------------------------------

  /** A non-blocking send on the one-slot channel. */
  method TriggerEvaluation(m: Machine)
    modifies m
    ensures m.triggerCh && m.Now() == old(m.Now()).(gate := old(m.Now()).gate.(token := true))
  {
    if !m.triggerCh { m.triggerCh := true; }
  }

  /** Sets drain mode and registers the waiter that will launch the upgrade. */
  method EnterDrainMode(m: Machine, waiter: nat)
    requires EnabledG(m.Now(), EnterDrain(waiter))
    modifies m
    ensures m.Now() == Exec(old(m.Now()), G(EnterDrain(waiter)))
  {
    m.drainMode := true;
    m.rest := m.rest.(gate := m.rest.gate.(waiters := m.rest.gate.waiters[waiter := Ticking(0)]));
  }

  /** The upgrade could not be launched: the waiter leaves, dispatching resumes, and the
      trigger is sent. */
  method ExitDrainMode(m: Machine, ghost w: World, waiter: nat)
    requires w.self == Drainer(waiter)
    requires EnabledG(m.Now(), Launch(waiter, false)) && (w.still ==> m.Now().svc.mon.Free?)
    modifies m
    ensures !m.drainMode && m.triggerCh
    ensures m.From(w, old(m.Now()))
  {
    ghost var s := m.Now();
    ReachesSelf(w, s);
    m.drainMode := false;
    var gate := m.rest.gate;
    m.rest := m.rest.(gate := gate.(waiters := gate.waiters - {waiter}, stale := true));
    TriggerEvaluation(m);
    ReachesOne(w, s, G(Launch(waiter, false)));
    var t := Exec(s, G(Launch(waiter, false)));
    ReachesThen(w, s, t, G(Fire));
    assert m.Now() == Exec(t, G(Fire));
  }

  const DRAIN_TICKS: nat := 1800   // seconds in the thirty-minute limit

  /** The waiting goroutine: looks once a second, gives up waiting at the limit. */
  method WaitForDrain(m: Machine, w: World, waiter: nat) returns (timedOut: bool)
    requires w.self == Drainer(waiter)
    requires waiter in m.Now().gate.waiters && m.Now().gate.waiters[waiter] == Ticking(0)
    requires w.still ==> m.Now().svc.mon.Free?
    modifies m, m.store, m.monitor
    ensures m.From(w, old(m.Now()))
    ensures waiter in m.Now().gate.waiters && m.Now().gate.waiters[waiter] == Launching(timedOut)
    ensures !timedOut ==> m.Now().svc.workers == map[]
    ensures timedOut ==> m.moment == old(m.moment) + 1800
  {
    ghost var start := m.Now();
    ReachesSelf(w, start);
    var ticks := 0;
    while ticks < DRAIN_TICKS
      invariant ticks <= DRAIN_TICKS && m.moment == old(m.moment) + ticks
      invariant m.From(w, start)
      invariant waiter in m.Now().gate.waiters && m.Now().gate.waiters[waiter] == Ticking(ticks)
      decreases DRAIN_TICKS - ticks
    {
      m.Pause(w, start);
      var empty := LookForWorkers(m, w, waiter, ticks, start);
      if empty { return false; }
      ticks := ticks + 1;
    }
    ghost var s := m.Now();
    SetWaiter(m, waiter, Launching(true));
    ReachesThen(w, start, s, G(TimeOut(waiter)));
    return true;
  }

  /** One tick of the wait. */
  method LookForWorkers(m: Machine, w: World, waiter: nat, ticks: nat, ghost start: State) returns (empty: bool)
    requires w.self == Drainer(waiter)
    requires m.From(w, start) && m.Now().svc.mon.Free?
    requires waiter in m.Now().gate.waiters && m.Now().gate.waiters[waiter] == Ticking(ticks)
    modifies m
    ensures m.From(w, start) && m.moment == old(m.moment) && empty == (m.Now().svc.workers == map[])
    ensures waiter in m.Now().gate.waiters
    ensures m.Now().gate.waiters[waiter] == if empty then Launching(false) else Ticking(ticks + 1)
  {
    ghost var s := m.Now();
    var n := m.monitor.RunningCount();
    empty := n == 0;
    SetWaiter(m, waiter, if empty then Launching(false) else Ticking(ticks + 1));
    ReachesThen(w, start, s, G(Tick(waiter)));
  }

  method SetWaiter(m: Machine, waiter: nat, state: Waiter)
    modifies m
    ensures m.Now() == old(m.Now()).(gate := old(m.Now()).gate.(waiters := old(m.Now()).gate.waiters[waiter := state]))
    ensures m.moment == old(m.moment)
  {
    m.rest := m.rest.(gate := m.rest.gate.(waiters := m.rest.gate.waiters[waiter := state]));
  }

  // ---- one dispatch ----------------------------------------------------------

  /** Spawn, record, register; a spawn or a status write that fails leaves the job
      queued, and a process that could not be recorded is killed. */
  method Dispatch(m: Machine, w: World, c: Scan, item: Item, ghost start: State) returns (registered: bool)
    requires w.self == Dispatcher
    requires m.From(w, start) && m.Now().svc.disp == Chosen(c, item)
    modifies m, m.store, m.monitor
    ensures m.From(w, start) && m.Now().svc.disp == Scanning(After(c, item)) && m.Now().svc.mon.Free?
    ensures m.Now().svc.pass == old(m.Now()).svc.pass
    ensures !w.Up(old(m.moment)) ==> !registered
    ensures w.calm && Reachable(start) ==> registered
    ensures registered && w.still ==> item.id in m.monitor.workers && m.monitor.workers[item.id].job == item.job
  {
    ghost var s := m.Now();
    registered := false;
    if !w.Up(m.moment) {
      m.Goto(Scanning(After(c, item)));
      ReachesThen(w, start, s, D(Spawn(false, 0)));
      m.Pause(w, start);
    } else {
      var pid := m.StartProcess(item);
      m.Goto(Spawned(c, item, pid));
      ReachesThen(w, start, s, D(Spawn(true, pid)));
      m.Pause(w, start);
      if w.calm && Reachable(start) { SpawnedWaits(w, start, m.Now()); }
      registered := Record(m, w, c, item, pid, start);
      Conclude(m, w, c, item, pid, registered, start);
    }
  }

  /** The job of a process just spawned is still queued. */
  lemma SpawnedWaits(w: World, start: State, s: State)
    requires Reachable(start) && Reaches(w, start, s) && s.svc.disp.Spawned?
    ensures CanSwap(s.rows, s.svc.disp.item.id, Queued)
  {
    StaysReachable(w, start, s);
    ReachableInv(s);
  }

  /** The status write that follows a spawn. */
  method Record(m: Machine, w: World, c: Scan, item: Item, pid: Pid, ghost start: State) returns (recorded: bool)
    requires w.self == Dispatcher
    requires m.From(w, start) && m.Now().svc.disp == Spawned(c, item, pid)
    modifies m, m.store, m.monitor
    ensures m.From(w, start) && m.Now().svc.mon.Free?
    ensures recorded == (w.Up(old(m.moment)) && CanSwap(old(m.Now()).rows, item.id, Queued))
    ensures m.Now().svc.disp == if recorded then Written(c, item, pid) else Refused(c, item, pid)
    ensures m.Now().svc.pass == old(m.Now()).svc.pass
  {
    ghost var s := m.Now();
    var up, now := w.Up(m.moment), w.now(m.moment);
    recorded := false;
    if up { recorded := m.store.UpdateStatus(item.id, Queued, Running, Started(now, pid)); }
    m.Goto(if recorded then Written(c, item, pid) else Refused(c, item, pid));
    ReachesThen(w, start, s, D(Mark(up, now)));
    m.Pause(w, start);
  }

  /** Registration of a recorded worker, or the end of one that is not. */
  method Conclude(m: Machine, w: World, c: Scan, item: Item, pid: Pid, recorded: bool, ghost start: State)
    requires w.self == Dispatcher
    requires m.From(w, start) && m.Now().svc.mon.Free?
    requires m.Now().svc.disp == if recorded then Written(c, item, pid) else Refused(c, item, pid)
    modifies m, m.store, m.monitor
    ensures m.From(w, start) && m.Now().svc.disp == Scanning(After(c, item)) && m.Now().svc.mon.Free?
    ensures m.Now().svc.pass == old(m.Now()).svc.pass
    ensures recorded && w.still ==> item.id in m.monitor.workers && m.monitor.workers[item.id].job == item.job
  {
    ghost var s := m.Now();
    if recorded {
      m.monitor.Register(item.id, Entry(pid, item.job, m.rest.svc.pass));
      m.Goto(Scanning(After(c, item)));
      ReachesThen(w, start, s, D(Protocol.Register));
    } else {
      m.KillProcess(pid);
      m.Goto(Scanning(After(c, item)));
      ReachesThen(w, start, s, D(Kill));
    }
    m.Pause(w, start);
  }

  // ---- one evaluation pass ---------------------------------------------------

  predicate HostActionRuns(m: Machine)
    reads m, m.monitor
  {
    exists id :: (
      && id in m.monitor.workers && m.monitor.workers[id].job.taskType == HostManagement
      && m.monitor.workers[id].job.action !in {"refresh_hardware", "refresh_inventory"})
  }

  predicate VmChangeRuns(m: Machine, vm: string)
    reads m, m.monitor
  {
    exists id :: (
      && id in m.monitor.workers && m.monitor.workers[id].job.vm == vm
      && m.monitor.workers[id].job.taskType !in {VmInventory, HardwareInventory, VmStatus, TemplateInventory, IsoInventory,
                                                 AgentStatus, HostManagement, ArtifactDownload})
  }

  /** Whether the class of a job, the loop's flags and the registry let it start; task type
      by task type, what that comes to. */
  method MayDispatch(m: Machine, readOnly: bool, hasRunningWrite: bool, job: Job) returns (may: bool)
    ensures forall c: Scan :: c.readOnly == readOnly && c.blocked == hasRunningWrite ==>
              may == Eligible(m.Now().svc.workers, c, job)
    ensures match job.taskType
            case VmInventory | HardwareInventory | VmStatus | TemplateInventory | IsoInventory | AgentStatus => may
            case ArtifactDownload => may == !readOnly
            case HostManagement =>
              may == (job.action in {"refresh_hardware", "refresh_inventory"} || (!readOnly && !hasRunningWrite && !HostActionRuns(m)))
            case _ => may == (!readOnly && !VmChangeRuns(m, job.vm))
  {
    may := false;
    match Classify(job) {
      case Read =>
        may := true;
      case Write =>
        if !readOnly {
          var busy := m.monitor.HasRunningWriteForVM(job.vm);
          may := !busy;
        }
      case HostWrite =>
        if !readOnly && !hasRunningWrite {
          var busy := m.monitor.HasRunningHostWrite();
          may := !busy;
        }
      case Download =>
        may := !readOnly;
    }
  }

  /** The job at the head of the list: dispatched if its class and the registry allow. */
  method Consider(m: Machine, w: World, c: Scan, ghost start: State) returns (dispatched: bool)
    requires w.self == Dispatcher
    requires m.From(w, start) && m.Now().svc.disp == Scanning(c) && m.Now().svc.mon.Free?
    requires c.todo != [] && c.count < m.limit
    modifies m, m.store, m.monitor
    ensures m.From(w, start) && m.Now().svc.mon.Free? && m.Now().svc.pass == old(m.Now()).svc.pass
    ensures dispatched == Eligible(old(m.Now()).svc.workers, c, c.todo[0].job)
    ensures var rest := c.(todo := c.todo[1..]);
            m.Now().svc.disp == Scanning(if dispatched then After(rest, c.todo[0]) else rest.(done := c.done + [c.todo[0]]))
  {
    var item, rest := c.todo[0], c.(todo := c.todo[1..]);
    dispatched := MayDispatch(m, c.readOnly, c.blocked, item.job);
    TakeNext(m, w, c, dispatched, start);
    if dispatched { var registered := Dispatch(m, w, rest, item, start); }
  }

  method TakeNext(m: Machine, w: World, c: Scan, dispatched: bool, ghost start: State)
    requires w.self == Dispatcher
    requires m.From(w, start) && m.Now().svc.disp == Scanning(c) && m.Now().svc.mon.Free?
    requires c.todo != [] && c.count < m.limit && dispatched == Eligible(m.Now().svc.workers, c, c.todo[0].job)
    modifies m, m.store, m.monitor
    ensures m.From(w, start) && m.Now().svc.mon.Free? && m.Now().svc.pass == old(m.Now()).svc.pass
    ensures var item, rest := c.todo[0], c.(todo := c.todo[1..]);
            m.Now().svc.disp == if dispatched then Chosen(rest, item) else Scanning(rest.(done := c.done + [item]))
  {
    var item, rest := c.todo[0], c.(todo := c.todo[1..]);
    ghost var s := m.Now();
    m.Goto(if dispatched then Chosen(rest, item) else Scanning(rest.(done := c.done + [item])));
    ReachesThen(w, start, s, D(Next));
    m.Pause(w, start);
  }

  /** The loop over the listed jobs, in either kind of pass. */
  method ScanQueue(m: Machine, w: World, readOnly: bool, count: nat, blocked: bool, queued: seq<Item>, ghost start: State)
    requires w.self == Dispatcher
    requires m.From(w, start) && m.Now().svc.mon.Free?
    requires m.Now().svc.disp == Scanning(Scan(readOnly, count, blocked, queued, []))
    modifies m, m.store, m.monitor
    ensures m.From(w, start) && m.Now().svc.mon.Free? && m.Now().svc.pass == old(m.Now()).svc.pass
    ensures var pc := m.Now().svc.disp;
            && pc.Scanning? && pc.c.done + pc.c.todo == queued && (pc.c.todo == [] || pc.c.count >= m.limit)
  {
    var runningCount: nat, hasRunningWrite, i := count, blocked, 0;
    while i < |queued| && runningCount < m.limit
      invariant i <= |queued|
      invariant m.From(w, start) && m.Now().svc.mon.Free? && m.Now().svc.pass == old(m.Now()).svc.pass
      invariant m.Now().svc.disp == Scanning(Scan(readOnly, runningCount, hasRunningWrite, queued[i..], queued[..i]))
    {
      runningCount, hasRunningWrite := TryJob(m, w, readOnly, runningCount, hasRunningWrite, queued, i, start);
      i := i + 1;
    }
    assert queued[..i] + queued[i..] == queued;
  }

  /** One turn of the loop: the job at index i is looked at, and counted if dispatched. */
  method TryJob(m: Machine, w: World, readOnly: bool, count: nat, blocked: bool, queued: seq<Item>, i: nat, ghost start: State)
    returns (count': nat, blocked': bool)
    requires w.self == Dispatcher
    requires m.From(w, start) && m.Now().svc.mon.Free? && i < |queued| && count < m.limit
    requires m.Now().svc.disp == Scanning(Scan(readOnly, count, blocked, queued[i..], queued[..i]))
    modifies m, m.store, m.monitor
    ensures m.From(w, start) && m.Now().svc.mon.Free? && m.Now().svc.pass == old(m.Now()).svc.pass
    ensures m.Now().svc.disp == Scanning(Scan(readOnly, count', blocked', queued[i + 1..], queued[..i + 1]))
  {
    count', blocked' := count, blocked;
    assert queued[i..][1..] == queued[i + 1..] && queued[..i] + [queued[i]] == queued[..i + 1];
    var dispatched := Consider(m, w, Scan(readOnly, count, blocked, queued[i..], queued[..i]), start);
    if dispatched {
      count' := count + 1;
      if Classify(queued[i].job) == HostWrite { blocked' := true; }
    }
  }

  /** A pass from its wake-up on in which nothing fails and nothing ends. */
  ghost predicate Quietly(w: World, start: State, now: State) {
    w.calm && w.still && Reachable(start) && start.svc.disp.Woken? && now.svc.pass == start.svc.pass + 1
  }

  /** The end of the pass. */
  method EndScan(m: Machine, w: World, ghost start: State)
    requires w.self == Dispatcher
    requires m.From(w, start) && m.Now().svc.mon.Free? && m.Now().svc.disp.Scanning?
    requires m.Now().svc.disp.c.todo == [] || m.Now().svc.disp.c.count >= m.limit
    modifies m
    ensures m.From(w, start) && m.Now() == At(old(m.Now()), Idle)
    ensures Quietly(w, start, m.Now()) ==> Conserved(start, m.Now())
  {
    ghost var s := m.Now();
    m.Goto(Idle);
    ReachesThen(w, start, s, D(Next));
    if Quietly(w, start, s) { CalmPass(w, start, s); }
  }

  lemma QuietSteps(w: World, start: State, s: State) returns (steps: seq<Step>)
    requires Quietly(w, start, s) && Reaches(w, start, s)
    ensures Runs(start, steps) && Last(start, steps) == s && forall i :: 0 <= i < |steps| ==> Undisturbed(steps[i])
  {
    steps :| Runs(start, steps) && Last(start, steps) == s && forall i :: 0 <= i < |steps| ==> Admits(w, steps[i]);
    forall i | 0 <= i < |steps| ensures Undisturbed(steps[i]) { assert Admits(w, steps[i]); }
  }

  /** The scan of a calm and still pass stops where the pass is work-conserving. */
  lemma CalmPass(w: World, start: State, s: State)
    requires Quietly(w, start, s) && Reaches(w, start, s)
    requires EnabledD(s, Next) && ExecD(s, Next).svc.disp.Idle?
    ensures Conserved(start, At(s, Idle))
  {
    var steps := QuietSteps(w, start, s);
    WorkConserving(start, steps);
    ConservedAt(start, s);
  }

  lemma CalmFullPass(w: World, start: State, s: State)
    requires Quietly(w, start, s) && Reaches(w, start, s) && s.svc.disp.Begun? && |s.svc.workers| >= s.limit
    ensures Conserved(start, At(s, Idle))
  {
    var steps := QuietSteps(w, start, s);
    FullPassConserves(start, steps);
    ConservedAt(start, s);
  }

  lemma ConservedAt(start: State, s: State)
    requires Conserved(start, s)
    ensures Conserved(start, At(s, Idle))
  {
    var t := At(s, Idle);
    assert t.svc.workers == s.svc.workers && t.limit == s.limit;
  }

  /** The drain flag and the first look at the registry. */
  method BeginPass(m: Machine, w: World, ghost start: State) returns (goOn: bool, runningCount: nat)
    requires w.self == Dispatcher
    requires m.From(w, start) && m.Now().svc.disp.Woken?
    modifies m, m.store, m.monitor
    ensures m.From(w, start) && (goOn ==> m.Now().svc.mon.Free? && runningCount < m.limit)
    ensures m.Now().svc.disp == if goOn then Counted(runningCount) else Idle
    ensures if old(m.Now()).gate.drain then !goOn && m.Now() == At(old(m.Now()), Idle)
            else m.Now().svc.pass == old(m.Now()).svc.pass + 1
    ensures !goOn && Quietly(w, start, m.Now()) && !old(m.Now()).gate.drain ==> Conserved(start, m.Now())
  {
    goOn, runningCount := false, 0;
    var draining := ReadDrainFlag(m, w, start);
    if draining { return; }
    m.Pause(w, start);
    goOn, runningCount := CountRunning(m, w, start);
    if goOn { m.Pause(w, start); }
  }

  method ReadDrainFlag(m: Machine, w: World, ghost start: State) returns (draining: bool)
    requires w.self == Dispatcher
    requires m.From(w, start) && m.Now().svc.disp.Woken?
    modifies m
    ensures m.From(w, start) && draining == old(m.Now()).gate.drain
    ensures draining ==> m.Now() == At(old(m.Now()), Idle)
    ensures !draining ==> m.Now().svc.disp.Begun? && m.Now().svc.pass == old(m.Now()).svc.pass + 1
  {
    ghost var s := m.Now();
    draining := m.drainMode;
    if draining {
      m.Goto(Idle);
    } else {
      m.rest := m.rest.(gate := m.rest.gate.(stale := false), svc := m.rest.svc.(disp := Begun, pass := m.rest.svc.pass + 1));
    }
    ReachesThen(w, start, s, D(ReadDrain));
  }

  method CountRunning(m: Machine, w: World, ghost start: State) returns (goOn: bool, runningCount: nat)
    requires w.self == Dispatcher
    requires m.From(w, start) && m.Now().svc.disp.Begun? && m.Now().svc.mon.Free?
    modifies m
    ensures m.From(w, start) && runningCount == |m.Now().svc.workers| && goOn == (runningCount < m.limit)
    ensures m.Now() == At(old(m.Now()), if goOn then Counted(runningCount) else Idle) && m.moment == old(m.moment)
    ensures !goOn && Quietly(w, start, m.Now()) ==> Conserved(start, m.Now())
  {
    ghost var s := m.Now();
    runningCount := m.monitor.RunningCount();
    goOn := runningCount < m.limit;
    m.Goto(if goOn then Counted(runningCount) else Idle);
    ReachesThen(w, start, s, D(ReadCount));
    if !goOn && Quietly(w, start, s) { CalmFullPass(w, start, s); }
  }

  /** Whether a host write runs, and if not whether any write does, `looked` being the
      state at that second look. */
  method LookAtWrites(m: Machine, w: World, runningCount: nat, ghost start: State)
    returns (readOnly: bool, hasRunningWrite: bool, ghost looked: State)
    requires w.self == Dispatcher
    requires m.From(w, start) && m.Now().svc.disp == Counted(runningCount) && m.Now().svc.mon.Free?
    modifies m, m.store, m.monitor
    ensures m.From(w, start) && m.Now().svc.pass == old(m.Now()).svc.pass
    ensures readOnly == HasRunningHostWrite(old(m.Now()).svc.workers)
    ensures Reaches(w, start, looked) && Reaches(w, looked, m.Now())
    ensures hasRunningWrite == (!readOnly && HasRunningWrite(looked.svc.workers))
    ensures m.Now().svc.disp == if readOnly then HostBusy(runningCount) else WritesRead(runningCount, hasRunningWrite)
  {
    hasRunningWrite := false;
    ghost var s := m.Now();
    readOnly := m.monitor.HasRunningHostWrite();
    m.Goto(if readOnly then HostBusy(runningCount) else NoHost(runningCount));
    ReachesThen(w, start, s, D(ReadHostWrite));
    m.Pause(w, start);
    looked := m.Now();
    ReachesSelf(w, looked);
    if !readOnly { hasRunningWrite := LookAtAnyWrite(m, w, runningCount, start); }
  }

  method LookAtAnyWrite(m: Machine, w: World, runningCount: nat, ghost start: State) returns (found: bool)
    requires w.self == Dispatcher
    requires m.From(w, start) && m.Now().svc.disp == NoHost(runningCount) && m.Now().svc.mon.Free?
    modifies m, m.store, m.monitor
    ensures m.From(w, start) && Reaches(w, old(m.Now()), m.Now()) && m.Now().svc.pass == old(m.Now()).svc.pass
    ensures found == HasRunningWrite(old(m.Now()).svc.workers) && m.Now().svc.disp == WritesRead(runningCount, found)
  {
    ghost var s := m.Now();
    ReachesSelf(w, s);
    found := m.monitor.HasRunningWrite();
    m.Goto(WritesRead(runningCount, found));
    ReachesThen(w, s, s, D(ReadWrite));
    m.Pause(w, s);
    ReachesTrans(w, start, s, m.Now());
  }

  /** The list of queued jobs, if the store answers. */
  method ListQueued(m: Machine, w: World, readOnly: bool, runningCount: nat, hasRunningWrite: bool, ghost start: State)
    returns (ok: bool, queued: seq<Item>)
    requires w.self == Dispatcher
    requires m.From(w, start)
    requires m.Now().svc.disp == if readOnly then HostBusy(runningCount) else WritesRead(runningCount, hasRunningWrite)
    modifies m, m.store, m.monitor
    ensures m.From(w, start) && m.Now().svc.mon.Free? && m.Now().svc.pass == old(m.Now()).svc.pass
    ensures ok == w.Up(old(m.moment))
    ensures ok ==> exists ids :: (Listing(old(m.Now()).rows, Queued, ids) && queued == Items(old(m.Now()).rows, ids))
    ensures m.Now().svc.disp == if ok then Scanning(Scan(readOnly, runningCount, !readOnly && hasRunningWrite, queued, [])) else Idle
  {
    ghost var s := m.Now();
    ok, queued := w.Up(m.moment), [];
    if ok {
      var ids := m.store.ListByStatus(Queued);
      queued := Items(m.store.rows, ids);
      m.Goto(Scanning(Scan(readOnly, runningCount, !readOnly && hasRunningWrite, queued, [])));
      ReachesThen(w, start, s, D(List(true, ids)));
    } else {
      m.Goto(Idle);
      ReachesThen(w, start, s, D(List(false, [])));
    }
    m.Pause(w, start);
  }

  /** One evaluation, from the moment the loop has received a signal. Whatever moves the
      world offers the others meanwhile, the code adds the dispatcher's steps and no
      others, and returns. In drain mode it does nothing; otherwise it makes one pass; and
      a pass in which no call fails and no worker ends serves the jobs in list order and is
      work-conserving. */
  method EvaluateAndDispatch(m: Machine, w: World)
    requires w.self == Dispatcher
    requires m.Now().svc.disp.Woken? && (w.still ==> m.Now().svc.mon.Free?)
    modifies m, m.store, m.monitor
    ensures m.From(w, old(m.Now())) && m.Now().svc.disp.Idle?
    ensures if old(m.Now()).gate.drain then m.Now() == At(old(m.Now()), Idle)
            else m.Now().svc.pass == old(m.Now()).svc.pass + 1
    ensures Quietly(w, old(m.Now()), m.Now()) && !old(m.Now()).gate.drain ==> Conserved(old(m.Now()), m.Now())
  {
    ghost var start := m.Now();
    ReachesSelf(w, start);
    var goOn, runningCount := BeginPass(m, w, start);
    if !goOn { return; }
    var readOnly, hasRunningWrite, looked := LookAtWrites(m, w, runningCount, start);
    var ok, queued := ListQueued(m, w, readOnly, runningCount, hasRunningWrite, start);
    if !ok { return; }
    ScanQueue(m, w, readOnly, runningCount, !readOnly && hasRunningWrite, queued, start);
    EndScan(m, w, start);
  }
}
