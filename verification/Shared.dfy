/** The shared memory the actors' code works on, and what the other actors may do to it
    between two accesses. */
module Shared {
  import opened Clock
  import opened Jobs
  import opened Protocol
  import opened Safety
  import opened Agent
  import opened Clients
  import opened History
  import JobStore
  import Monitor

  // ---- the world around the code ------------------------------------------------

  datatype Actor = Dispatcher | Handler | Refresher(t: TaskType) | Requests | Worker(pid: Pid) | Recovery | Drainer(w: nat)

  /** What the code of one actor cannot decide, one value for each moment: the moves of the
      others, whether a call succeeds, and the clock. In a calm world no call fails; in a
      still one no worker's end is handled. */
  datatype World = World(self: Actor, env: nat -> seq<Step>, up: nat -> bool, now: nat -> Time, calm: bool, still: bool) {
    predicate Up(moment: nat) {
      calm || up(moment)
    }
  }

  /** A call that failed. */
  predicate Fails(step: Step) {
    match step
    case D(d) => (d.Spawn? && !d.ok) || (d.Mark? && !d.ok) || (d.List? && !d.ok)
    case W(pid, x) => (x.Check? && !x.ok) || (x.Finish? && !x.ok)
    case M(m) => (m.ReadRow? && !m.ok) || (m.Fail? && !m.ok)
    case B(b) => (b.ListRunning? && !b.ok) || (b.Condemn? && !b.ok)
    case S(t, q) => !q.ok
    case R(r) => (r.CheckConflict? && !r.ok) || (r.Create? && !r.ok)
    case _ => false
  }

  /** The service does not die while its code runs. */
  predicate Tolerates(w: World, step: Step) {
    !step.Crash? && (w.calm ==> !Fails(step)) && (w.still ==> !step.M?)
  }

  /** The steps of the actor whose code runs. Whoever owes a trigger may send it. */
  predicate Own(self: Actor, step: Step) {
    match self
    case Dispatcher => step.D?
    case Handler => step.M? || step == G(Fire)
    case Refresher(t) => (step.S? && step.t == t) || step == G(Fire)
    case Requests => step.R? && !step.r.Publish? && !step.r.ChannelLost?
    case Worker(pid) => step.W? && step.pid == pid
    case Recovery => step.B?
    case Drainer(waiter) => step.G? && (step.g.Fire? || step.g.w == waiter)
  }

  /** The moves the world gives the others, and those by which the holder of the monitor's
      mutex gets to its end. */
  ghost predicate Offered(w: World, step: Step) {
    (exists k :: step in w.env(k)) || (step.M? && !step.m.Lock?)
  }

  /** What may happen while an actor's code runs in this world: its own steps, and what the
      world offers. */
  ghost predicate Admits(w: World, step: Step) {
    Tolerates(w, step) && (Own(w.self, step) || Offered(w, step))
  }

  // ---- reachability ----------------------------------------------------------

  /** Some interleaving of the actor's own steps with offered ones leads from one state to
      the other. */
  ghost predicate Reaches(w: World, s: State, t: State) {
    exists steps :: Runs(s, steps) && Last(s, steps) == t && forall i :: 0 <= i < |steps| ==> Admits(w, steps[i])
  }

  lemma ReachesSelf(w: World, s: State)
    ensures Reaches(w, s, s)
  {
    assert Runs(s, []) && Last(s, []) == s;
  }

  lemma ReachesTrans(w: World, s: State, t: State, u: State)
    requires Reaches(w, s, t) && Reaches(w, t, u)
    ensures Reaches(w, s, u)
  {
    var a :| Runs(s, a) && Last(s, a) == t && forall i :: 0 <= i < |a| ==> Admits(w, a[i]);
    var b :| Runs(t, b) && Last(t, b) == u && forall i :: 0 <= i < |b| ==> Admits(w, b[i]);
    RunsConcat(s, a, b);
    forall i | 0 <= i < |a + b| ensures Admits(w, (a + b)[i]) {}
  }

  lemma ReachesOne(w: World, s: State, step: Step)
    requires Enabled(s, step) && Admits(w, step)
    ensures Reaches(w, s, Exec(s, step))
  {
    assert [step][1..] == [];
    assert Runs(Exec(s, step), []);
    assert Runs(s, [step]) && Last(s, [step]) == Exec(s, step);
  }

  /** One more step of one's own. */
  lemma ReachesThen(w: World, s: State, t: State, step: Step)
    requires Reaches(w, s, t) && Enabled(t, step) && Admits(w, step)
    ensures Reaches(w, s, Exec(t, step))
  {
    ReachesOne(w, t, step);
    ReachesTrans(w, s, t, Exec(t, step));
  }

  /** What the code reaches from a state of a run is a state of a run, so every result
      about all runs holds between any two of its statements. */
  lemma StaysReachable(w: World, s: State, t: State)
    requires Reachable(s) && Reaches(w, s, t)
    ensures Reachable(t)
  {
    var steps :| Runs(s, steps) && Last(s, steps) == t && forall i :: 0 <= i < |steps| ==> Admits(w, steps[i]);
    ReachRun(s, steps);
  }

  lemma Onward(w: World, s: State, t: State)
    requires Reachable(s) && Reaches(w, s, t)
    ensures Reachable(t) && Forward(s.rows, s.purged, t.rows, t.purged)
  {
    StaysReachable(w, s, t);
    var steps :| Runs(s, steps) && Last(s, steps) == t && forall i :: 0 <= i < |steps| ==> Admits(w, steps[i]);
    RowsForward(s, steps);
  }

  /** In a still world nobody takes the monitor's mutex. */
  lemma StillKeepsMutex(w: World, s: State, step: Step)
    requires Enabled(s, step) && Admits(w, step) && w.still
    ensures Exec(s, step).svc.mon == s.svc.mon
  {
    ForeignKeeps(Handler, s, step);
  }

  // ---- actors and what they leave each other -----------------------------------

  /** The steps of everyone else in the same lifetime that leave the actor alive. */
  predicate Foreign(self: Actor, s: State, step: Step) {
    && !step.Crash?
    && match self
       case Dispatcher => !step.D?
       case Handler => !step.M?
       case Refresher(t) => !(step.S? && step.t == t)
       case Requests => step.R? ==> step.r.Publish? || step.r.ChannelLost?
       case Worker(pid) => !(step.W? && step.pid == pid) && !(step.D? && step.d.Kill? && HasPidInHand(s.svc.disp, pid))
       case Recovery => !step.B?
       case Drainer(w) => step.G? ==> step.g.Fire? || step.g.w != w
  }

  predicate HasPidInHand(pc: DispPc, pid: Pid) {
    pc.Refused? && pc.pid == pid
  }

  /** What an actor finds again after the others have moved. */
  ghost predicate Kept(self: Actor, s: State, s': State) {
    && s'.limit == s.limit
    && match self
       case Dispatcher => s'.svc.disp == s.svc.disp && s'.svc.pass == s.svc.pass
       case Handler => s'.svc.mon == s.svc.mon
       case Refresher(t) => SchedAt(s', t) == SchedAt(s, t) && (s.svc.boot.Serving? ==> s'.svc.boot.Serving?)
       case Requests =>
         && s'.net.req == s.net.req && (s.svc.boot.Serving? ==> s'.svc.boot.Serving?)
         && s'.net.settled == s.net.settled && s'.net.stored == s.net.stored
         && s'.net.answered == s.net.answered && s'.net.unsaved == s.net.unsaved && s'.net.made == s.net.made
         && forall m :: m in s.net.msgs ==> m in s'.net.msgs && SameMsg(s.net.msgs[m], s'.net.msgs[m])
       case Worker(pid) => pid in s.procs ==> pid in s'.procs && s'.procs[pid] == s.procs[pid]
       case Recovery => s'.svc.boot == s.svc.boot
       case Drainer(w) => w in s.gate.waiters ==> w in s'.gate.waiters && s'.gate.waiters[w] == s.gate.waiters[w]
  }

  predicate SameMsg(a: Msg, b: Msg) {
    b.job == a.job && b.ok == a.ok
  }

  lemma LimitKept(s: State, step: Step)
    requires Enabled(s, step)
    ensures Exec(s, step).limit == s.limit
  {
    match step
    case D(d) => DispFrame(s, d);
    case R(r) => RequestFrame(s, r);
    case _ =>
  }

  /** The dispatcher spawns a new process or ends the one in its hand. */
  lemma WorkerSeesDisp(s: State, pid: Pid, d: DispStep)
    requires EnabledD(s, d) && pid in s.procs
    requires d.Kill? ==> s.svc.disp.pid != pid
    ensures pid in ExecD(s, d).procs && ExecD(s, d).procs[pid] == s.procs[pid]
  {
  }

  lemma TouchedW(s: State, pid: Pid, w: WorkerStep)
    requires EnabledW(s, pid, w)
    ensures var s' := ExecW(s, pid, w); s'.svc == s.svc && s'.net == s.net && s'.sched == s.sched && s'.gate == s.gate
    ensures forall p :: p in s.procs && p != pid ==> p in ExecW(s, pid, w).procs && ExecW(s, pid, w).procs[p] == s.procs[p]
  {
  }

  lemma TouchedM(s: State, m: MonStep)
    requires EnabledM(s, m)
    ensures var s' := ExecM(s, m); s'.procs == s.procs && s'.net == s.net && s'.sched == s.sched && s'.gate.waiters == s.gate.waiters
    ensures var s' := ExecM(s, m); s'.svc.disp == s.svc.disp && s'.svc.pass == s.svc.pass && s'.svc.boot == s.svc.boot
  {
  }

  lemma TouchedB(s: State, b: BootStep)
    requires EnabledB(s, b)
    ensures var s' := ExecB(s, b); s'.procs == s.procs && s'.net == s.net && s'.sched == s.sched && s'.gate.waiters == s.gate.waiters
    ensures ExecB(s, b).svc == s.svc.(boot := ExecB(s, b).svc.boot) && (s.svc.boot.Serving? ==> ExecB(s, b).svc.boot.Serving?)
  {
  }

  lemma TouchedS(s: State, t: TaskType, q: SchedStep)
    requires EnabledS(s, t, q)
    ensures var s' := ExecS(s, t, q); s'.procs == s.procs && s'.net == s.net && s'.svc == s.svc && s'.gate.waiters == s.gate.waiters
    ensures forall u :: u != t ==> SchedAt(ExecS(s, t, q), u) == SchedAt(s, u)
  {
  }

  lemma TouchedG(s: State, g: GateStep)
    requires EnabledG(s, g)
    ensures ExecG(s, g) == s.(gate := ExecG(s, g).gate)
    ensures forall w :: w in s.gate.waiters && (g.Fire? || g.w != w) ==>
              w in ExecG(s, g).gate.waiters && ExecG(s, g).gate.waiters[w] == s.gate.waiters[w]
  {
  }

  lemma ForeignKeeps(self: Actor, s: State, step: Step)
    requires Enabled(s, step) && Foreign(self, s, step)
    ensures Kept(self, s, Exec(s, step))
  {
    LimitKept(s, step);
    match step
    case D(d) =>
      DispFrame(s, d);
      if self.Worker? && self.pid in s.procs { WorkerSeesDisp(s, self.pid, d); }
    case R(r) =>
      RequestFrame(s, r);
      if self.Requests? { RequestsSee(s, r); }
    case W(p, x) => TouchedW(s, p, x);
    case M(m) => TouchedM(s, m);
    case B(b) => TouchedB(s, b);
    case S(t, q) => TouchedS(s, t, q);
    case G(g) => TouchedG(s, g);
    case Purge(cutoff) =>
  }

  lemma RequestsSee(s: State, r: ReqStep)
    requires EnabledR(s, r) && (r.Publish? || r.ChannelLost?)
    ensures Kept(Requests, s, ExecR(s, r))
  {
  }

  lemma StillKeepsWorkers(w: World, s: State, step: Step)
    requires Enabled(s, step) && Tolerates(w, step) && w.still && !step.D?
    ensures Exec(s, step).svc.workers == s.svc.workers
  {
    match step
    case R(r) => RequestFrame(s, r);
    case _ =>
  }

  /** No refresh job of the type was added. */
  ghost predicate NoNewRefresh(s: State, s': State, t: TaskType) {
    forall id :: id in s'.rows && id !in s.rows ==> !Refresh(s'.rows[id], t)
  }

  /** Only a type's own loop makes its refresh jobs. */
  lemma OthersMakeNone(s: State, step: Step, t: TaskType)
    requires Reachable(s) && Enabled(s, step) && !step.Crash? && !(step.S? && step.t == t)
    ensures NoNewRefresh(s, Exec(s, step), t)
  {
    ReachableInv(s);
    RowsEvolve(s, step);
    if Inserts(step) {
      var id, job, now := InsertShape(s, step);
      if step.R? { assert MsgOk(s.net.req.m, s.net.msgs[s.net.req.m], s.net); }
    }
  }

  /** What holds for a refresh loop while the others move, from a state of a run. */
  ghost predicate OnlyOneMakes(w: World, s: State, s': State) {
    w.self.Refresher? && Reachable(s) ==> NoNewRefresh(s, s', w.self.t)
  }

  lemma OnlyOneTrans(w: World, a: State, b: State, c: State)
    requires Reaches(w, a, b) && Reaches(w, b, c) && OnlyOneMakes(w, a, b) && OnlyOneMakes(w, b, c)
    ensures OnlyOneMakes(w, a, c)
  {
    if w.self.Refresher? && Reachable(a) {
      StaysReachable(w, a, b);
      Onward(w, b, c);
      forall id | id in c.rows && id !in a.rows ensures !Refresh(c.rows[id], w.self.t) {
        if id in b.rows { assert RowForward(id, b.rows[id], c.rows, c.purged); }
      }
    }
  }

  // ---- the machine -----------------------------------------------------------

  /** A number above all of a set. */
  method Unused(taken: set<nat>) returns (n: nat)
    ensures n != 0 && n !in taken
  {
    n := 1;
    var todo := taken;
    while todo != {}
      invariant todo <= taken && 0 < n
      invariant forall k :: k in taken && k !in todo ==> k < n
      decreases |todo|
    {
      var k :| k in todo;
      if n <= k { n := k + 1; }
      todo := todo - {k};
    }
  }

  /** What a still world leaves as it is: the mutex, and for the dispatcher the registry. */
  predicate StillFor(w: World, s: State, t: State) {
    w.still ==> t.svc.mon == s.svc.mon && (w.self == Dispatcher ==> t.svc.workers == s.svc.workers)
  }

  class Machine {
    const limit: nat
    const store: JobStore.JobStore
    const monitor: Monitor.Monitor
    var drainMode: bool
    var triggerCh: bool      // the one-slot channel
    var rest: State          // processes, broker and the positions of all actors
    var moment: nat

    constructor (limit: nat, s: State)
      requires s.limit == limit
      ensures Now() == s
      ensures fresh(store) && fresh(monitor)
    {
      this.limit := limit;
      store := new JobStore.JobStore();
      monitor := new Monitor.Monitor();
      drainMode, triggerCh, rest, moment := s.gate.drain, s.gate.token, s, 0;
      new;
      store.rows := s.rows;
      monitor.workers := s.svc.workers;
    }

    /** The protocol state the machine is in. */
    function Now(): State
      reads this, store, monitor
    {
      rest.(limit := limit, rows := store.rows,
            svc := rest.svc.(workers := monitor.workers),
            gate := rest.gate.(drain := drainMode, token := triggerCh))
    }

    method Become(s: State)
      requires s.limit == limit
      modifies this, store, monitor
      ensures Now() == s && moment == old(moment)
    {
      store.rows := s.rows;
      monitor.workers := s.svc.workers;
      drainMode, triggerCh, rest := s.gate.drain, s.gate.token, s;
    }

    /** Records where the dispatcher stands. */
    method Goto(pc: DispPc)
      modifies this
      ensures Now() == At(old(Now()), pc) && moment == old(moment)
    {
      rest := At(rest, pc);
    }

    /** The operating system starts a process under a PID not seen before. */
    method StartProcess(item: Item) returns (pid: Pid)
      modifies this
      ensures pid != 0 && pid !in old(Now()).procs && moment == old(moment)
      ensures Now() == old(Now()).(procs := old(Now()).procs[pid := Proc(item.id, item.job, old(Now()).svc.life, Starting, false, false)])
    {
      pid := Unused(rest.procs.Keys);
      rest := rest.(procs := rest.procs[pid := Proc(item.id, item.job, rest.svc.life, Starting, false, false)]);
    }

    method KillProcess(pid: Pid)
      modifies this
      ensures Now() == old(Now()).(procs := Dead(old(Now()).procs, pid)) && moment == old(moment)
    {
      rest := rest.(procs := Dead(rest.procs, pid));
    }

    /** The machine has come here from there; in a still world the mutex is free. */
    ghost predicate From(w: World, start: State)
      reads this, store, monitor
    {
      Reaches(w, start, Now()) && (w.still ==> Now().svc.mon.Free?)
    }

    /** One step of another actor, if it can happen now. */
    method Suffer(w: World, step: Step)
      requires Offered(w, step)
      modifies this, store, monitor
      ensures Reaches(w, old(Now()), Now()) && Kept(w.self, old(Now()), Now()) && moment == old(moment)
      ensures StillFor(w, old(Now()), Now()) && OnlyOneMakes(w, old(Now()), Now())
      ensures Foreign(w.self, old(Now()), step) && Enabled(old(Now()), step) && Tolerates(w, step) ==> Now() == Exec(old(Now()), step)
    {
      ghost var s := Now();
      ReachesSelf(w, s);
      if Foreign(w.self, Now(), step) && Enabled(Now(), step) && Tolerates(w, step) {
        LimitKept(s, step);
        ReachesOne(w, s, step);
        ForeignKeeps(w.self, s, step);
        if w.still {
          StillKeepsMutex(w, s, step);
          if w.self == Dispatcher { StillKeepsWorkers(w, s, step); }
        }
        if w.self.Refresher? && Reachable(s) { OthersMakeNone(s, step, w.self.t); }
        Become(Exec(Now(), step));
      }
    }

    /** Yield in the middle of a longer piece of code, begun at `start`. */
    method Pause(w: World, ghost start: State)
      requires From(w, start)
      modifies this, store, monitor
      ensures From(w, start) && Kept(w.self, old(Now()), Now()) && moment == old(moment) + 1
      ensures StillFor(w, old(Now()), Now()) && OnlyOneMakes(w, old(Now()), Now())
      ensures w.self != Handler ==> Now().svc.mon.Free?
    {
      ghost var t := Now();
      Yield(w);
      ReachesTrans(w, start, t, Now());
    }

    /** Lets the others move; then waits until the monitor's mutex is free, which takes
        its holder at most three more steps. */
    method Yield(w: World)
      requires w.still ==> Now().svc.mon.Free?
      modifies this, store, monitor
      ensures Reaches(w, old(Now()), Now()) && Kept(w.self, old(Now()), Now()) && moment == old(moment) + 1
      ensures w.self != Handler || w.still ==> Now().svc.mon.Free?
      ensures StillFor(w, old(Now()), Now()) && OnlyOneMakes(w, old(Now()), Now())
    {
      ghost var s := Now();
      Others(w);
      if w.self != Handler {
        ghost var t := Now();
        Release(w);
        OnlyOneTrans(w, s, t, Now());
        ReachesTrans(w, s, t, Now());
      }
      moment := moment + 1;
    }

    method Others(w: World)
      modifies this, store, monitor
      ensures Reaches(w, old(Now()), Now()) && Kept(w.self, old(Now()), Now()) && moment == old(moment)
      ensures StillFor(w, old(Now()), Now()) && OnlyOneMakes(w, old(Now()), Now())
    {
      ghost var s := Now();
      var steps := w.env(moment);
      ReachesSelf(w, s);
      for i := 0 to |steps|
        invariant Reaches(w, s, Now()) && Kept(w.self, s, Now()) && moment == old(moment)
        invariant StillFor(w, s, Now()) && OnlyOneMakes(w, s, Now())
      {
        ghost var t := Now();
        Suffer(w, steps[i]);
        OnlyOneTrans(w, s, t, Now());
        ReachesTrans(w, s, t, Now());
      }
    }

    method Release(w: World)
      requires w.self != Handler && (w.still ==> Now().svc.mon.Free?)
      modifies this, store, monitor
      ensures Reaches(w, old(Now()), Now()) && Kept(w.self, old(Now()), Now()) && moment == old(moment)
      ensures Now().svc.mon.Free? && (w.still ==> Now() == old(Now())) && OnlyOneMakes(w, old(Now()), Now())
    {
      ghost var s := Now();
      ReachesSelf(w, s);
      while !Now().svc.mon.Free?
        invariant Reaches(w, s, Now()) && Kept(w.self, s, Now()) && moment == old(moment)
        invariant (w.still ==> Now().svc.mon.Free? && Now() == s) && OnlyOneMakes(w, s, Now())
        decreases HandlerSteps(Now().svc.mon)
      {
        ghost var t := Now();
        HandlerMoves(w);
        OnlyOneTrans(w, s, t, Now());
        ReachesTrans(w, s, t, Now());
      }
    }

    /** One step of the handler that holds the mutex. */
    method HandlerMoves(w: World)
      requires w.self != Handler && !w.still && !Now().svc.mon.Free?
      modifies this, store, monitor
      ensures Reaches(w, old(Now()), Now()) && Kept(w.self, old(Now()), Now()) && moment == old(moment)
      ensures HandlerSteps(Now().svc.mon) < HandlerSteps(old(Now()).svc.mon) && OnlyOneMakes(w, old(Now()), Now())
    {
      var m := HandlerStep(Now().svc.mon, w.Up(moment), w.now(moment));
      HandlerAdvances(Now(), m);
      Suffer(w, M(m));
    }
  }

  /** How far the holder of the monitor's mutex is from releasing it. */
  function HandlerSteps(mon: MonPc): nat {
    match mon
    case Free => 0
    case Removing(id, missed) => 1
    case Failing(id) => 2
    case Locked(id) => 3
  }

  function HandlerStep(mon: MonPc, ok: bool, now: Time): MonStep
    requires !mon.Free?
  {
    match mon
    case Locked(id) => ReadRow(ok)
    case Failing(id) => Fail(ok, now)
    case Removing(id, missed) => Protocol.Remove
  }

  lemma HandlerAdvances(s: State, m: MonStep)
    requires EnabledM(s, m) && !m.Lock?
    ensures HandlerSteps(Exec(s, M(m)).svc.mon) < HandlerSteps(s.svc.mon)
  {
  }
}
