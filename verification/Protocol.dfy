/** The agent as a state machine. One step is one access to shared state by one
    actor: a store call, a registry operation under the monitor's mutex, a process
    event or a broker event. Every actor's position is part of the state. */
module Protocol {
  import opened Clock
  import opened Jobs

  // ---- worker processes ------------------------------------------------------

  datatype Phase =
    | Starting      // before the status check
    | Working       // past the check
    | Finished      // past its own status write
    | Exited

  /** `ran`: passed the status check. `orphan`: its service died between spawning it
      and recording it. `life` is the service lifetime that spawned it. */
  datatype Proc = Proc(id: JobId, job: Job, life: nat, phase: Phase, ran: bool, orphan: bool)

  datatype WorkerStep =
    | Check(ok: bool)
    | Finish(ok: bool, to: Status, now: Time, error: string)
    | Exit

  // ---- dispatcher ------------------------------------------------------------

  /** A registered worker; `pass` is the evaluation pass that started it. */
  datatype Entry = Entry(pid: Pid, job: Job, pass: nat)

  datatype Item = Item(id: JobId, job: Job)

  /** One loop over the listed jobs: `count` is runningCount (or the slots used, in
      the read-only pass), `blocked` is hasRunningWrite. */
  datatype Scan = Scan(readOnly: bool, count: nat, blocked: bool, todo: seq<Item>, done: seq<Item>)

  datatype DispPc =
    | Idle
    | Woken
    | Begun                                       // drain flag read as off
    | Counted(n: nat)
    | NoHost(n: nat)                              // no host write registered
    | HostBusy(n: nat)                            // a host write registered
    | WritesRead(n: nat, blocked: bool)
    | Scanning(c: Scan)
    | Chosen(c: Scan, item: Item)                 // inside dispatch, nothing spawned
    | Spawned(c: Scan, item: Item, pid: Pid)
    | Refused(c: Scan, item: Item, pid: Pid)      // status write failed, kill pending
    | Written(c: Scan, item: Item, pid: Pid)      // status written, not registered

  datatype DispStep =
    | Wake(byToken: bool)
    | ReadDrain
    | ReadCount
    | ReadHostWrite
    | ReadWrite
    | List(ok: bool, ids: seq<JobId>)
    | Next
    | Spawn(ok: bool, pid: Pid)
    | Mark(ok: bool, now: Time)
    | Kill
    | Register

  // ---- monitor ---------------------------------------------------------------

  /** Who holds the monitor's mutex across several accesses. */
  datatype MonPc =
    | Free
    | Locked(id: JobId)
    | Failing(id: JobId)
    | Removing(id: JobId, missed: bool)   // missed: a store call of this handler failed

  datatype MonStep = Lock(id: JobId) | ReadRow(ok: bool) | Fail(ok: bool, now: Time) | Remove

  // ---- startup recovery ------------------------------------------------------

  datatype BootPc =
    | Booting
    | Recovering(todo: seq<(JobId, Pid)>)
    | Condemning(id: JobId, todo: seq<(JobId, Pid)>)
    | Serving

  datatype BootStep = ListRunning(ok: bool, ids: seq<JobId>) | Examine | Condemn(ok: bool, now: Time) | Serve

  // ---- scheduler -------------------------------------------------------------

  /** `sure`: no list call of this check has failed. */
  datatype SchedPc = Resting | NoneQueued(sure: bool) | NoneActive(sure: bool)

  datatype SchedStep = ReadQueued(ok: bool) | ReadRunning(ok: bool) | Make(ok: bool, id: JobId, now: Time)

  // ---- request loop ----------------------------------------------------------

  datatype Place = InQueue | InFlight(tag: nat) | Acked | Dropped

  /** A request in the broker; `ok` is false when it does not parse. */
  datatype Msg = Msg(job: Job, ok: bool, place: Place)

  datatype ReqPc =
    | Waiting
    | Got(m: MsgId, tag: nat)
    | Clear(m: MsgId, tag: nat, sure: bool)   // no conflict seen; sure: by a query that did not fail
    | Conflicting(m: MsgId, tag: nat)
    | Answered(m: MsgId, tag: nat)    // conflict response attempted
    | Saved(m: MsgId, tag: nat)
    | Unsaved(m: MsgId, tag: nat)     // create failed
    | Notify
    | Halted

  datatype ReqStep =
    | Publish(m: MsgId, job: Job, ok: bool)
    | Deliver(m: MsgId)
    | Discard
    | Requeue
    | CheckConflict(ok: bool)
    | Answer
    | AckConflict
    | Create(ok: bool, id: JobId, now: Time)
    | AckSaved
    | NackUnsaved
    | Trigger
    | ChannelLost(m: MsgId)

  // ---- drain mode ------------------------------------------------------------

  datatype Waiter = Ticking(ticks: nat) | Launching(timedOut: bool)

  datatype GateStep =
    | EnterDrain(w: nat)
    | Tick(w: nat)
    | TimeOut(w: nat)
    | Launch(w: nat, ok: bool)
    | Fire                           // a goroutine sends the trigger it owes

  // ---- the whole -------------------------------------------------------------

  datatype Step =
    | D(d: DispStep)
    | W(pid: Pid, w: WorkerStep)
    | M(m: MonStep)
    | B(b: BootStep)
    | S(t: TaskType, q: SchedStep)
    | R(r: ReqStep)
    | G(g: GateStep)
    | Purge(cutoff: Time)
    | Crash                          // the service dies and is started again

  /** The memory of the service process, lost at a crash. `lost`: jobs whose entry was
      removed while their row still said running. */
  datatype Service = Service(life: nat, boot: BootPc, workers: map<JobId, Entry>, pass: nat,
                             disp: DispPc, mon: MonPc, lost: set<JobId>)

  /** `unchecked`: rows inserted after a check in which a list call had failed. */
  datatype Sched = Sched(pcs: map<TaskType, SchedPc>, unchecked: set<JobId>)

  /** `settled` counts the settlements of every delivery tag; `stored`, `answered` and
      `unsaved` are histories; `unchecked`: rows created after a conflict query that had
      failed. `made` counts the rows ever created for each request; `astray`: requests stored
      or answered under a delivery that was lost before it could be acked. */
  datatype Net = Net(req: ReqPc, msgs: map<MsgId, Msg>, tags: nat, settled: multiset<nat>,
                     stored: map<MsgId, JobId>, answered: set<MsgId>, unsaved: set<MsgId>, unchecked: set<JobId>,
                     made: multiset<MsgId>, astray: set<MsgId>)

  /** `token`: the one-slot channel is full. `owed`: goroutines that changed something
      and have yet to send. `stale`: something changed since the last pass began. */
  datatype Gate = Gate(drain: bool, token: bool, owed: nat, stale: bool, waiters: map<nat, Waiter>)

  datatype State = State(limit: nat, rows: Table, purged: set<JobId>, procs: map<Pid, Proc>,
                         svc: Service, sched: Sched, net: Net, gate: Gate)

  function Boot(life: nat): Service {
    Service(life, Booting, map[], 0, Idle, Free, {})
  }

  predicate Init(s: State) {
    && s.rows == map[] && s.purged == {} && s.procs == map[]
    && s.svc == Boot(0)
    && s.sched == Sched(map[], {})
    && s.net == Net(Waiting, map[], 0, multiset{}, map[], {}, {}, {}, multiset{}, {})
    && s.gate == Gate(false, false, 0, true, map[])
  }

  // ---- what actors read ------------------------------------------------------

  predicate FreshId(s: State, id: JobId) {
    id !in s.rows && id !in s.purged
  }

  predicate Alive(procs: map<Pid, Proc>, pid: Pid) {
    pid in procs && procs[pid].phase != Exited
  }

  predicate HasRunningHostWrite(workers: map<JobId, Entry>) {
    exists id :: id in workers && Classify(workers[id].job) == HostWrite
  }

  predicate HasRunningWrite(workers: map<JobId, Entry>) {
    exists id :: id in workers && Classify(workers[id].job) in {Write, HostWrite}
  }

  predicate HasRunningWriteForVM(workers: map<JobId, Entry>, vm: string) {
    exists id :: id in workers && Classify(workers[id].job) == Write && workers[id].job.vm == vm
  }

  /** The rule the scan applies to the job at the head of its list. */
  predicate Eligible(workers: map<JobId, Entry>, c: Scan, job: Job) {
    match Classify(job)
    case Read => true
    case Write => !c.readOnly && !HasRunningWriteForVM(workers, job.vm)
    case HostWrite => !c.readOnly && !c.blocked && !HasRunningHostWrite(workers)
    case Download => !c.readOnly
  }

  /** Whether that rule asks the monitor. */
  predicate ReadsRegistry(c: Scan) {
    && c.todo != [] && !c.readOnly
    && (Classify(c.todo[0].job).Write? || (Classify(c.todo[0].job).HostWrite? && !c.blocked))
  }

  /** The loop after one call of dispatch, whatever came of it. */
  function After(c: Scan, item: Item): Scan {
    c.(count := c.count + 1,
       blocked := c.blocked || Classify(item.job) == HostWrite,
       done := c.done + [item])
  }

  function Items(rows: Table, ids: seq<JobId>): seq<Item>
    requires forall i :: 0 <= i < |ids| ==> ids[i] in rows
  {
    seq(|ids|, i requires 0 <= i < |ids| => Item(ids[i], rows[ids[i]].job))
  }

  predicate AnyOfType(rows: Table, t: TaskType, st: Status) {
    exists id :: id in rows && rows[id].status == st && rows[id].job.taskType == t
  }

  function SchedAt(s: State, t: TaskType): SchedPc {
    if t in s.sched.pcs then s.sched.pcs[t] else Resting
  }

  // ---- dispatcher steps ------------------------------------------------------

  predicate EnabledD(s: State, d: DispStep) {
    var pc := s.svc.disp;
    match d
    case Wake(byToken) => pc.Idle? && s.svc.boot.Serving? && (byToken ==> s.gate.token)
    case ReadDrain => pc.Woken?
    case ReadCount => pc.Begun? && s.svc.mon.Free?
    case ReadHostWrite => pc.Counted? && s.svc.mon.Free?
    case ReadWrite => pc.NoHost? && s.svc.mon.Free?
    case List(ok, ids) => (pc.WritesRead? || pc.HostBusy?) && (ok ==> Listing(s.rows, Queued, ids))
    case Next => pc.Scanning? && (ReadsRegistry(pc.c) ==> s.svc.mon.Free?)
    case Spawn(ok, pid) => pc.Chosen? && (ok ==> pid != 0 && pid !in s.procs)
    case Mark(ok, now) => pc.Spawned?
    case Kill => pc.Refused?
    case Register => pc.Written? && s.svc.mon.Free?
  }

  function At(s: State, pc: DispPc): State {
    s.(svc := s.svc.(disp := pc))
  }

  function ExecD(s: State, d: DispStep): State
    requires EnabledD(s, d)
  {
    var pc := s.svc.disp;
    match d
    case Wake(byToken) =>
      At(s.(gate := s.gate.(token := s.gate.token && !byToken)), Woken)
    case ReadDrain =>
      if s.gate.drain then At(s, Idle)
      else s.(gate := s.gate.(stale := false), svc := s.svc.(disp := Begun, pass := s.svc.pass + 1))
    case ReadCount =>
      At(s, if |s.svc.workers| >= s.limit then Idle else Counted(|s.svc.workers|))
    case ReadHostWrite =>
      At(s, if HasRunningHostWrite(s.svc.workers) then HostBusy(pc.n) else NoHost(pc.n))
    case ReadWrite =>
      At(s, WritesRead(pc.n, HasRunningWrite(s.svc.workers)))
    case List(ok, ids) =>
      if !ok then At(s, Idle)
      else if pc.HostBusy? then At(s, Scanning(Scan(true, pc.n, false, Items(s.rows, ids), [])))
      else At(s, Scanning(Scan(false, pc.n, pc.blocked, Items(s.rows, ids), [])))
    case Next =>
      var c := pc.c;
      if c.todo == [] || c.count >= s.limit then At(s, Idle)
      else
        var item, rest := c.todo[0], c.(todo := c.todo[1..]);
        if Eligible(s.svc.workers, c, item.job) then At(s, Chosen(rest, item))
        else At(s, Scanning(rest.(done := c.done + [item])))
    case Spawn(ok, pid) =>
      if !ok then At(s, Scanning(After(pc.c, pc.item)))
      else At(s.(procs := s.procs[pid := Proc(pc.item.id, pc.item.job, s.svc.life, Starting, false, false)]),
              Spawned(pc.c, pc.item, pid))
    case Mark(ok, now) =>
      if ok && CanSwap(s.rows, pc.item.id, Queued) then
        At(s.(rows := Swap(s.rows, pc.item.id, Queued, Running, Started(now, pc.pid))), Written(pc.c, pc.item, pc.pid))
      else At(s, Refused(pc.c, pc.item, pc.pid))
    case Kill =>
      At(s.(procs := Dead(s.procs, pc.pid)), Scanning(After(pc.c, pc.item)))
    case Register =>
      s.(svc := s.svc.(workers := s.svc.workers[pc.item.id := Entry(pc.pid, pc.item.job, s.svc.pass)],
                       disp := Scanning(After(pc.c, pc.item))))
  }

  function Dead(procs: map<Pid, Proc>, pid: Pid): map<Pid, Proc> {
    if pid in procs then procs[pid := procs[pid].(phase := Exited)] else procs
  }

  // ---- worker steps ----------------------------------------------------------

  predicate EnabledW(s: State, pid: Pid, w: WorkerStep) {
    && pid in s.procs
    && match w
       case Check(ok) => s.procs[pid].phase == Starting
       case Finish(ok, to, now, error) => s.procs[pid].phase == Working && to in {Completed, Failed}
       case Exit => s.procs[pid].phase != Exited
  }

  function ExecW(s: State, pid: Pid, w: WorkerStep): State
    requires EnabledW(s, pid, w)
  {
    var p := s.procs[pid];
    match w
    case Check(ok) =>
      s.(procs := s.procs[pid := if ok && CanSwap(s.rows, p.id, Running) then p.(phase := Working, ran := true)
                                 else p.(phase := Exited)])
    case Finish(ok, to, now, error) =>
      s.(procs := s.procs[pid := p.(phase := Finished)],
         rows := if ok then Swap(s.rows, p.id, Running, to, Ended(now, error)) else s.rows)
    case Exit =>
      s.(procs := Dead(s.procs, pid))
  }

  // ---- monitor steps ---------------------------------------------------------

  predicate EnabledM(s: State, m: MonStep) {
    var mon := s.svc.mon;
    match m
    case Lock(id) => mon.Free? && id in s.svc.workers && !Alive(s.procs, s.svc.workers[id].pid)
    case ReadRow(ok) => mon.Locked?
    case Fail(ok, now) => mon.Failing?
    case Remove => mon.Removing?
  }

  function MonAt(s: State, pc: MonPc): State {
    s.(svc := s.svc.(mon := pc))
  }

  function ExecM(s: State, m: MonStep): State
    requires EnabledM(s, m)
  {
    var mon := s.svc.mon;
    match m
    case Lock(id) => MonAt(s, Locked(id))
    case ReadRow(ok) =>
      if !ok then MonAt(s, Removing(mon.id, true))
      else if CanSwap(s.rows, mon.id, Running) then MonAt(s, Failing(mon.id))
      else MonAt(s, Removing(mon.id, false))
    case Fail(ok, now) =>
      if !ok then MonAt(s, Removing(mon.id, true))
      else MonAt(s.(rows := Swap(s.rows, mon.id, Running, Failed, Ended(now, "unexpected worker termination"))),
                 Removing(mon.id, false))
    case Remove =>
      s.(svc := s.svc.(workers := s.svc.workers - {mon.id}, mon := Free,
                       lost := if CanSwap(s.rows, mon.id, Running) then s.svc.lost + {mon.id} else s.svc.lost),
         gate := s.gate.(owed := s.gate.owed + 1, stale := true))
  }

  // ---- recovery steps --------------------------------------------------------

  predicate EnabledB(s: State, b: BootStep) {
    var boot := s.svc.boot;
    match b
    case ListRunning(ok, ids) => boot.Booting? && (ok ==> Listing(s.rows, Running, ids))
    case Examine => boot.Recovering? && boot.todo != []
    case Condemn(ok, now) => boot.Condemning?
    case Serve => boot.Recovering? && boot.todo == []
  }

  function Pids(rows: Table, ids: seq<JobId>): seq<(JobId, Pid)>
    requires forall i :: 0 <= i < |ids| ==> ids[i] in rows
  {
    seq(|ids|, i requires 0 <= i < |ids| => (ids[i], rows[ids[i]].pid))
  }

  function BootAt(s: State, pc: BootPc): State {
    s.(svc := s.svc.(boot := pc))
  }

  function ExecB(s: State, b: BootStep): State
    requires EnabledB(s, b)
  {
    var boot := s.svc.boot;
    match b
    case ListRunning(ok, ids) => BootAt(s, Recovering(if ok then Pids(s.rows, ids) else []))
    case Examine =>
      var (id, pid) := boot.todo[0];
      BootAt(s, if pid != 0 && Alive(s.procs, pid) then Recovering(boot.todo[1..]) else Condemning(id, boot.todo[1..]))
    case Condemn(ok, now) =>
      BootAt(s.(rows := if ok then Swap(s.rows, boot.id, Running, Failed, Ended(now, "orphaned job")) else s.rows),
             Recovering(boot.todo))
    case Serve =>
      BootAt(s.(gate := s.gate.(token := true)), Serving)
  }

  // ---- scheduler steps -------------------------------------------------------

  predicate EnabledS(s: State, t: TaskType, q: SchedStep) {
    && RefreshType(t) && s.svc.boot.Serving?
    && match q
       case ReadQueued(ok) => SchedAt(s, t).Resting?
       case ReadRunning(ok) => SchedAt(s, t).NoneQueued?
       case Make(ok, id, now) => SchedAt(s, t).NoneActive? && FreshId(s, id)
  }

  function SchedTo(s: State, t: TaskType, pc: SchedPc): State {
    s.(sched := s.sched.(pcs := s.sched.pcs[t := pc]))
  }

  /** The row, if the check before it had a call that failed. */
  function IfUnsure(sure: bool, id: JobId): set<JobId> {
    if sure then {} else {id}
  }

  function Insert(s: State, id: JobId, job: Job, now: Time): State {
    s.(rows := s.rows[id := NewRow(job, now)], gate := s.gate.(stale := true))
  }

  function ExecS(s: State, t: TaskType, q: SchedStep): State
    requires EnabledS(s, t, q)
  {
    match q
    case ReadQueued(ok) =>
      SchedTo(s, t, if ok && AnyOfType(s.rows, t, Queued) then Resting else NoneQueued(ok))
    case ReadRunning(ok) =>
      SchedTo(s, t, if ok && AnyOfType(s.rows, t, Running) then Resting else NoneActive(ok && SchedAt(s, t).sure))
    case Make(ok, id, now) =>
      var s1 := SchedTo(s, t, Resting);
      if !ok then s1
      else
        var s2 := Insert(s1, id, Job(t, "", "", Scheduled), now);
        s2.(gate := s2.gate.(owed := s2.gate.owed + 1),
            sched := s1.sched.(unchecked := s1.sched.unchecked + IfUnsure(SchedAt(s, t).sure, id)))
  }

  // ---- request steps ---------------------------------------------------------

  predicate EnabledR(s: State, r: ReqStep) {
    var req, msgs := s.net.req, s.net.msgs;
    match r
    case Publish(m, job, ok) => m !in msgs && job.origin == Requested(m)
    case Deliver(m) => req.Waiting? && s.svc.boot.Serving? && m in msgs && msgs[m].place.InQueue?
    case Discard => req.Got? && req.m in msgs && !msgs[req.m].ok
    case Requeue => req.Got? && req.m in msgs && msgs[req.m].ok
    case CheckConflict(ok) => req.Got? && req.m in msgs && msgs[req.m].ok
    case Answer => req.Conflicting?
    case AckConflict => req.Answered?
    case Create(ok, id, now) => req.Clear? && req.m in msgs && FreshId(s, id)
    case AckSaved => req.Saved?
    case NackUnsaved => req.Unsaved?
    case Trigger => req.Notify?
    case ChannelLost(m) => m in msgs && msgs[m].place.InFlight?
  }

  function ReqAt(s: State, pc: ReqPc): State {
    s.(net := s.net.(req := pc))
  }

  /** Settling a delivery: the broker moves the message only if that delivery is still
      the current one. */
  function Settle(s: State, m: MsgId, tag: nat, place: Place, next: ReqPc): State {
    var net := s.net;
    s.(net := net.(req := next, settled := net.settled + multiset{tag},
                   msgs := if m in net.msgs && net.msgs[m].place == InFlight(tag)
                           then net.msgs[m := net.msgs[m].(place := place)] else net.msgs))
  }

  /** The request, if the delivery in hand is no longer the broker's. */
  function Overtaken(net: Net, m: MsgId, tag: nat): set<MsgId> {
    if m in net.msgs && net.msgs[m].place == InFlight(tag) then {} else {m}
  }

  /** The request stored or answered under the delivery in hand, not yet acked. */
  function Unacked(net: Net): set<MsgId> {
    if (net.req.Saved? || net.req.Answered?) && net.req.m in net.msgs && net.msgs[net.req.m].place == InFlight(net.req.tag)
    then {net.req.m} else {}
  }

  function ExecR(s: State, r: ReqStep): State
    requires EnabledR(s, r)
  {
    var net := s.net;
    var req := net.req;
    match r
    case Publish(m, job, ok) => s.(net := net.(msgs := net.msgs[m := Msg(job, ok, InQueue)]))
    case Deliver(m) =>
      s.(net := net.(req := Got(m, net.tags), tags := net.tags + 1,
                     msgs := net.msgs[m := net.msgs[m].(place := InFlight(net.tags))]))
    case Discard => Settle(s, req.m, req.tag, Dropped, Waiting)
    case Requeue => Settle(s, req.m, req.tag, InQueue, Halted)
    case CheckConflict(ok) =>
      var job := net.msgs[req.m].job;
      if !IsWriteTask(job.taskType) then ReqAt(s, Clear(req.m, req.tag, true))
      else if ok && HasConflict(s.rows, job) then ReqAt(s, Conflicting(req.m, req.tag))
      else ReqAt(s, Clear(req.m, req.tag, ok))
    case Answer =>
      s.(net := net.(req := Answered(req.m, req.tag), answered := net.answered + {req.m},
                     astray := net.astray + Overtaken(net, req.m, req.tag)))
    case AckConflict => Settle(s, req.m, req.tag, Acked, Waiting)
    case Create(ok, id, now) =>
      if !ok then s.(net := net.(req := Unsaved(req.m, req.tag), unsaved := net.unsaved + {req.m}))
      else Insert(s, id, net.msgs[req.m].job, now).(
             net := net.(req := Saved(req.m, req.tag), stored := net.stored[req.m := id], made := net.made + multiset{req.m},
                         unchecked := net.unchecked + IfUnsure(req.sure, id),
                         astray := net.astray + Overtaken(net, req.m, req.tag)))
    case AckSaved => Settle(s, req.m, req.tag, Acked, Notify)
    case NackUnsaved => Settle(s, req.m, req.tag, Dropped, Waiting)
    case Trigger => ReqAt(s.(gate := s.gate.(token := true)), Waiting)
    case ChannelLost(m) =>
      s.(net := net.(msgs := net.msgs[m := net.msgs[m].(place := InQueue)], astray := net.astray + Unacked(net) * {m}))
  }

  // ---- drain steps -----------------------------------------------------------

  predicate EnabledG(s: State, g: GateStep) {
    var waiters := s.gate.waiters;
    match g
    case EnterDrain(w) => s.svc.boot.Serving? && w !in waiters
    case Tick(w) => w in waiters && waiters[w].Ticking? && s.svc.mon.Free?
    case TimeOut(w) => w in waiters && waiters[w].Ticking?
    case Launch(w, ok) => w in waiters && waiters[w].Launching?
    case Fire => s.gate.owed > 0
  }

  function ExecG(s: State, g: GateStep): State
    requires EnabledG(s, g)
  {
    var gate := s.gate;
    match g
    case EnterDrain(w) => s.(gate := gate.(drain := true, waiters := gate.waiters[w := Ticking(0)]))
    case Tick(w) =>
      s.(gate := gate.(waiters := gate.waiters[w := if |s.svc.workers| == 0 then Launching(false)
                                                   else Ticking(gate.waiters[w].ticks + 1)]))
    case TimeOut(w) => s.(gate := gate.(waiters := gate.waiters[w := Launching(true)]))
    case Launch(w, ok) =>
      var g1 := gate.(waiters := gate.waiters - {w});
      s.(gate := if ok then g1 else g1.(drain := false, owed := gate.owed + 1, stale := true))
    case Fire => s.(gate := gate.(token := true, owed := gate.owed - 1))
  }

  // ---- all steps -------------------------------------------------------------

  predicate Enabled(s: State, step: Step) {
    match step
    case D(d) => EnabledD(s, d)
    case W(pid, w) => EnabledW(s, pid, w)
    case M(m) => EnabledM(s, m)
    case B(b) => EnabledB(s, b)
    case S(t, q) => EnabledS(s, t, q)
    case R(r) => EnabledR(s, r)
    case G(g) => EnabledG(s, g)
    case Purge(cutoff) => s.svc.boot.Serving?
    case Crash => true
  }

  function ExecPurge(s: State, cutoff: Time): State {
    s.(rows := s.rows - Expired(s.rows, cutoff), purged := s.purged + Expired(s.rows, cutoff))
  }

  /** The process in the dispatcher's hand whose row does not name it yet. */
  predicate Unrecorded(pc: DispPc, pid: Pid) {
    (pc.Spawned? || pc.Refused?) && pc.pid == pid
  }

  function ExecCrash(s: State): State {
    s.(svc := Boot(s.svc.life + 1),
       procs := map pid | pid in s.procs :: s.procs[pid].(orphan := s.procs[pid].orphan || Unrecorded(s.svc.disp, pid)),
       sched := s.sched.(pcs := map[]),
       net := s.net.(req := Waiting, astray := s.net.astray + Unacked(s.net),
                     msgs := map m | m in s.net.msgs :: if s.net.msgs[m].place.InFlight? then s.net.msgs[m].(place := InQueue) else s.net.msgs[m]),
       gate := Gate(false, false, 0, true, map[]))
  }

  function Exec(s: State, step: Step): State
    requires Enabled(s, step)
  {
    match step
    case D(d) => ExecD(s, d)
    case W(pid, w) => ExecW(s, pid, w)
    case M(m) => ExecM(s, m)
    case B(b) => ExecB(s, b)
    case S(t, q) => ExecS(s, t, q)
    case R(r) => ExecR(s, r)
    case G(g) => ExecG(s, g)
    case Purge(cutoff) => ExecPurge(s, cutoff)
    case Crash => ExecCrash(s)
  }

  // ---- runs ------------------------------------------------------------------

  predicate Runs(s: State, steps: seq<Step>)
    decreases |steps|
  {
    steps == [] || (Enabled(s, steps[0]) && Runs(Exec(s, steps[0]), steps[1..]))
  }

  function Last(s: State, steps: seq<Step>): State
    requires Runs(s, steps)
    decreases |steps|
  {
    if steps == [] then s else Last(Exec(s, steps[0]), steps[1..])
  }
}
