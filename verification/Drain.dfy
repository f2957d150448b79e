/** Drain mode: when the registry only shrinks, and exactly when an upgrade whose waiter
    saw it empty can be launched beside a worker after all. */
module Drain {
  import opened Clock
  import opened Jobs
  import opened Protocol
  import opened Safety
  import opened Registry
  import opened Execution
  import opened Clients
  import opened Agent
  import opened Restart
  import JobStore

  // ---- what a pass in flight can still start --------------------------------------

  /** The scan would start the job if the registry were empty. */
  predicate Startable(c: Scan, job: Job) {
    match Classify(job)
    case Read => true
    case Write => !c.readOnly
    case HostWrite => !c.readOnly && !c.blocked
    case Download => !c.readOnly
  }

  predicate ScanMayStart(c: Scan, limit: nat) {
    c.count < limit && exists i :: 0 <= i < |c.todo| && Startable(c, c.todo[i].job)
  }

  /** Read off the dispatcher's position: past the drain flag and not yet at its list, a
      job in hand, or a startable one still in the list and a slot for it. */
  predicate MayStart(pc: DispPc, limit: nat) {
    match pc
    case Idle => false
    case Woken => false
    case Begun => limit > 0
    case Scanning(c) => ScanMayStart(c, limit)
    case Refused(c, item, pid) => ScanMayStart(After(c, item), limit)
    case _ => true
  }

  predicate Drained(s: State) {
    s.gate.drain && !MayStart(s.svc.disp, s.limit)
  }

  /** Steps that end a drain. */
  predicate EndsDrain(step: Step) {
    step.Crash? || (step.G? && step.g.Launch? && !step.g.ok)
  }

  predicate NoneEnds(steps: seq<Step>) {
    forall i :: 0 <= i < |steps| ==> !EndsDrain(steps[i])
  }

  ghost predicate Shrinks(a: Workers, b: Workers) {
    forall id :: id in b ==> id in a && b[id] == a[id]
  }

  // ---- nothing more can be started -------------------------------------------------

  lemma DrainedNext(s: State)
    requires Drained(s) && EnabledD(s, Next)
    ensures Drained(ExecD(s, Next)) && ExecD(s, Next).svc.workers == s.svc.workers
  {
    var c, s' := s.svc.disp.c, ExecD(s, Next);
    if c.todo != [] && c.count < s.limit {
      assert !Startable(c, c.todo[0].job);
      var c' := s'.svc.disp.c;
      assert forall i :: 0 <= i < |c'.todo| ==> c'.todo[i] == c.todo[i + 1];
    }
  }

  lemma DrainedD(s: State, d: DispStep)
    requires Drained(s) && EnabledD(s, d)
    ensures Drained(ExecD(s, d)) && ExecD(s, d).svc.workers == s.svc.workers
  {
    if d.Next? { DrainedNext(s); } else { assert d.Wake? || d.ReadDrain? || d.ReadCount? || d.Kill?; }
  }

  lemma DrainFlagKept(s: State, step: Step)
    requires Enabled(s, step) && !step.D? && !EndsDrain(step) && s.gate.drain
    ensures Exec(s, step).gate.drain
  {
    if step.R? { RequestFrame(s, step.r); }
  }

  lemma DrainStep(s: State, step: Step)
    requires Inv(s) && Drained(s) && Enabled(s, step) && !EndsDrain(step)
    ensures Drained(Exec(s, step)) && Shrinks(s.svc.workers, Exec(s, step).svc.workers)
  {
    if step.D? {
      DrainedD(s, step.d);
    } else {
      DrainFlagKept(s, step);
      if Local(step) {
        LocalLeaves(s, step);
      } else if Inserts(step) {
        var id, job, now := InsertShape(s, step);
      }
    }
  }

  lemma {:induction false} DrainRun(s: State, steps: seq<Step>)
    requires Inv(s) && Drained(s) && Runs(s, steps) && NoneEnds(steps)
    ensures Drained(Last(s, steps)) && Shrinks(s.svc.workers, Last(s, steps).svc.workers)
    decreases |steps|
  {
    if steps != [] {
      InvStep(s, steps[0]);
      DrainStep(s, steps[0]);
      DrainRun(Exec(s, steps[0]), steps[1..]);
    }
  }

  /** Once drain mode is on and a pass in flight can start nothing more, the registry only
      shrinks until drain mode is left. */
  lemma DrainShrinks(s: State, steps: seq<Step>)
    requires Reachable(s) && Drained(s) && Runs(s, steps) && NoneEnds(steps)
    ensures Drained(Last(s, steps)) && Shrinks(s.svc.workers, Last(s, steps).svc.workers)
  {
    ReachableInv(s);
    DrainRun(s, steps);
  }

  // ---- something more can be started -------------------------------------------------

  /** The service lives on, and no further upgrade enters drain mode. */
  predicate Ordinary(step: Step) {
    !step.Crash? && !(step.G? && step.g.EnterDrain?)
  }

  ghost predicate Onto(m: State, s: State) {
    exists steps :: Runs(m, steps) && Last(m, steps) == s && forall i :: 0 <= i < |steps| ==> Ordinary(steps[i])
  }

  lemma OntoThen(m: State, s: State, step: Step)
    requires Onto(m, s) && Enabled(s, step) && Ordinary(step)
    ensures Onto(m, Exec(s, step))
  {
    var steps :| Runs(m, steps) && Last(m, steps) == s && forall i :: 0 <= i < |steps| ==> Ordinary(steps[i]);
    RunAppend(m, steps, step);
  }

  /** The waiter has seen the registry empty and has yet to launch. */
  predicate AboutToLaunch(s: State, w: nat) {
    w in s.gate.waiters && s.gate.waiters[w] == Launching(false)
  }

  /** The waiter is about to launch the upgrade, beside a registered worker. */
  ghost predicate FindsWorker(m: State, w: nat) {
    exists s :: Onto(m, s) && AboutToLaunch(s, w) && s.svc.workers != map[]
  }

  /** On the way from m to a registration. */
  ghost predicate Bound(m: State, w: nat, s: State) {
    && Onto(m, s) && Reachable(s)
    && s.svc.workers == map[] && s.svc.mon.Free? && s.svc.boot.Serving? && AboutToLaunch(s, w)
  }

  /** Steps of the dispatcher, of the refresh loops and of other waiters. */
  predicate Aside(w: nat, step: Step) {
    step.D? || step.S? || (step.G? && (step.g.TimeOut? || step.g.Launch?) && step.g.w != w)
  }

  lemma BoundThen(m: State, w: nat, s: State, step: Step)
    requires Bound(m, w, s) && Enabled(s, step) && Aside(w, step) && Exec(s, step).svc.workers == map[]
    ensures Bound(m, w, Exec(s, step))
  {
    OntoThen(m, s, step);
    ReachStep(s, step);
    match step
    case D(d) => DispFrame(s, d);
    case S(t, q) => RefreshKeepsRest(s, t, q);
    case G(g) => GateKeepsRest(s, g, w);
  }

  lemma RefreshKeepsRest(s: State, t: TaskType, q: SchedStep)
    requires EnabledS(s, t, q)
    ensures var s' := ExecS(s, t, q); s'.svc == s.svc && s'.gate.waiters == s.gate.waiters
  {
  }

  lemma GateKeepsRest(s: State, g: GateStep, w: nat)
    requires EnabledG(s, g) && w in s.gate.waiters && (g.TimeOut? || g.Launch?) && g.w != w
    ensures var s' := ExecG(s, g);
            && s'.svc == s.svc && w in s'.gate.waiters && s'.gate.waiters[w] == s.gate.waiters[w]
  {
  }

  lemma FromWritten(m: State, w: nat, s: State)
    requires Bound(m, w, s) && s.svc.disp.Written?
    ensures FindsWorker(m, w)
  {
    OntoThen(m, s, D(Register));
    DispFrame(s, Register);
    assert s.svc.disp.item.id in ExecD(s, Register).svc.workers;
  }

  lemma FromSpawned(m: State, w: nat, s: State)
    requires Bound(m, w, s) && s.svc.disp.Spawned?
    ensures FindsWorker(m, w)
  {
    ReachableInv(s);
    assert Waits(s.rows, s.svc.disp.item);
    var mark := Mark(true, SOME_TIME);
    BoundThen(m, w, s, D(mark));
    FromWritten(m, w, ExecD(s, mark));
  }

  lemma FromChosen(m: State, w: nat, s: State)
    requires Bound(m, w, s) && s.svc.disp.Chosen?
    ensures FindsWorker(m, w)
  {
    var pid := UnusedNat(s.procs.Keys);
    BoundThen(m, w, s, D(Spawn(true, pid)));
    FromSpawned(m, w, ExecD(s, Spawn(true, pid)));
  }

  lemma {:induction false} FromScan(m: State, w: nat, s: State)
    requires Bound(m, w, s) && s.svc.disp.Scanning? && ScanMayStart(s.svc.disp.c, s.limit)
    ensures FindsWorker(m, w)
    decreases |s.svc.disp.c.todo|
  {
    var c, t := s.svc.disp.c, ExecD(s, Next);
    BoundThen(m, w, s, D(Next));
    if t.svc.disp.Chosen? {
      FromChosen(m, w, t);
    } else {
      var i :| 0 <= i < |c.todo| && Startable(c, c.todo[i].job);
      assert i != 0;
      assert t.svc.disp.c.todo[i - 1] == c.todo[i];
      FromScan(m, w, t);
    }
  }

  lemma FromRefused(m: State, w: nat, s: State)
    requires Bound(m, w, s) && s.svc.disp.Refused? && ScanMayStart(After(s.svc.disp.c, s.svc.disp.item), s.limit)
    ensures FindsWorker(m, w)
  {
    BoundThen(m, w, s, D(Kill));
    FromScan(m, w, ExecD(s, Kill));
  }

  // ---- ... from before the list: a refresh job can always come in time --------------

  predicate HasRead(rows: Table, id: JobId) {
    CanSwap(rows, id, Queued) && Classify(rows[id].job) == Read
  }

  lemma SchedAdvances(m: State, w: nat, s: State, q: SchedStep)
    requires Bound(m, w, s) && EnabledS(s, AgentStatus, q)
    ensures Bound(m, w, ExecS(s, AgentStatus, q)) && ExecS(s, AgentStatus, q).svc == s.svc
  {
    BoundThen(m, w, s, S(AgentStatus, q));
  }

  lemma SchedReaches(m: State, w: nat, s: State) returns (t: State)
    requires Bound(m, w, s)
    ensures Bound(m, w, t) && t.svc == s.svc && SchedAt(t, AgentStatus).NoneActive?
  {
    t := s;
    if SchedAt(t, AgentStatus).Resting? {
      SchedAdvances(m, w, t, ReadQueued(false));
      t := ExecS(t, AgentStatus, ReadQueued(false));
    }
    if SchedAt(t, AgentStatus).NoneQueued? {
      SchedAdvances(m, w, t, ReadRunning(false));
      t := ExecS(t, AgentStatus, ReadRunning(false));
    }
  }

  lemma ReadArrives(m: State, w: nat, s: State) returns (t: State, id: JobId)
    requires Bound(m, w, s)
    ensures Bound(m, w, t) && t.svc == s.svc && HasRead(t.rows, id)
  {
    t := SchedReaches(m, w, s);
    id := UnusedNat(t.rows.Keys + t.purged);
    var make := Make(true, id, SOME_TIME);
    SchedAdvances(m, w, t, make);
    t := ExecS(t, AgentStatus, make);
  }

  /** A listing of the matching rows among some of them. */
  ghost predicate ListsFrom(rows: Table, st: Status, from: set<JobId>, ids: seq<JobId>) {
    && (forall i :: 0 <= i < |ids| ==> ids[i] in rows && ids[i] in from && rows[ids[i]].status == st)
    && (forall i, k :: 0 <= i < k < |ids| ==> ids[i] != ids[k])
    && (forall id :: id in from && id in rows && rows[id].status == st ==> id in ids)
    && Sorted(rows, ids)
  }

  lemma ListOneMore(rows: Table, st: Status, from: set<JobId>, ids: seq<JobId>, id: JobId)
    requires id in from && id in rows && rows[id].status == st && ListsFrom(rows, st, from - {id}, ids)
    ensures ListsFrom(rows, st, from, JobStore.Place(rows, ids, id))
  {
    JobStore.InsertKeepsOrder(rows, ids, id);
    var r := JobStore.Place(rows, ids, id);
    forall i | 0 <= i < |r| ensures r[i] in from && rows[r[i]].status == st { assert r[i] in r; }
  }

  lemma {:induction false} SomeListing(rows: Table, st: Status, from: set<JobId>) returns (ids: seq<JobId>)
    requires from <= rows.Keys
    ensures ListsFrom(rows, st, from, ids)
    decreases |from|
  {
    ids := [];
    if from != {} {
      var id :| id in from;
      ids := SomeListing(rows, st, from - {id});
      if rows[id].status == st {
        ListOneMore(rows, st, from, ids, id);
        ids := JobStore.Place(rows, ids, id);
      }
    }
  }

  lemma FromList(m: State, w: nat, s: State)
    requires Bound(m, w, s) && (s.svc.disp.HostBusy? || s.svc.disp.WritesRead?)
    ensures FindsWorker(m, w)
  {
    var t, id := ReadArrives(m, w, s);
    var ids := SomeListing(t.rows, Queued, t.rows.Keys);
    var list := List(true, ids);
    BoundThen(m, w, t, D(list));
    var u := ExecD(t, list);
    var i :| 0 <= i < |ids| && ids[i] == id;
    assert u.svc.disp.c.todo[i] == Item(id, t.rows[id].job);
    ReachableInv(t);
    FromScan(m, w, u);
  }

  lemma FromLook(m: State, w: nat, s: State)
    requires Bound(m, w, s) && (s.svc.disp.Counted? || s.svc.disp.NoHost?)
    ensures FindsWorker(m, w)
  {
    var t := s;
    if s.svc.disp.Counted? {
      BoundThen(m, w, s, D(ReadHostWrite));
      t := ExecD(s, ReadHostWrite);
    }
    BoundThen(m, w, t, D(ReadWrite));
    FromList(m, w, ExecD(t, ReadWrite));
  }

  lemma FromBegun(m: State, w: nat, s: State)
    requires Bound(m, w, s) && s.svc.disp.Begun? && s.limit > 0
    ensures FindsWorker(m, w)
  {
    BoundThen(m, w, s, D(ReadCount));
    FromLook(m, w, ExecD(s, ReadCount));
  }

  lemma FromAnywhere(m: State, w: nat, s: State)
    requires Bound(m, w, s) && MayStart(s.svc.disp, s.limit)
    ensures FindsWorker(m, w)
  {
    match s.svc.disp
    case Begun => FromBegun(m, w, s);
    case Counted(n) => FromLook(m, w, s);
    case NoHost(n) => FromLook(m, w, s);
    case HostBusy(n) => FromList(m, w, s);
    case WritesRead(n, blocked) => FromList(m, w, s);
    case Scanning(c) => FromScan(m, w, s);
    case Chosen(c, item) => FromChosen(m, w, s);
    case Spawned(c, item, pid) => FromSpawned(m, w, s);
    case Refused(c, item, pid) => FromRefused(m, w, s);
    case Written(c, item, pid) => FromWritten(m, w, s);
  }

  // ---- another waiter ends drain mode -------------------------------------------------

  /** A scan with nothing left to start runs to its end. */
  lemma {:induction false} ScanRunsOut(m: State, w: nat, s: State) returns (t: State)
    requires Bound(m, w, s) && s.svc.disp.Scanning? && !ScanMayStart(s.svc.disp.c, s.limit)
    ensures Bound(m, w, t) && t.svc.disp.Idle? && t.gate == s.gate && t.limit == s.limit
    decreases |s.svc.disp.c.todo|
  {
    var c := s.svc.disp.c;
    t := ExecD(s, Next);
    BoundThen(m, w, s, D(Next));
    if !t.svc.disp.Idle? {
      assert !Startable(c, c.todo[0].job);
      assert forall i :: 0 <= i < |t.svc.disp.c.todo| ==> t.svc.disp.c.todo[i] == c.todo[i + 1];
      t := ScanRunsOut(m, w, t);
    }
  }

  lemma PassRunsOut(m: State, w: nat, s: State) returns (t: State)
    requires Bound(m, w, s) && !MayStart(s.svc.disp, s.limit) && s.limit > 0
    ensures Bound(m, w, t) && (t.svc.disp.Idle? || t.svc.disp.Woken?) && t.gate == s.gate && t.limit == s.limit
  {
    t := s;
    if s.svc.disp.Refused? {
      BoundThen(m, w, s, D(Kill));
      t := ExecD(s, Kill);
    }
    if t.svc.disp.Scanning? { t := ScanRunsOut(m, w, t); }
  }

  /** The other waiter's launch fails. */
  lemma OtherGivesUp(m: State, w: nat, s: State, v: nat) returns (t: State)
    requires Bound(m, w, s) && v != w && v in s.gate.waiters
    ensures Bound(m, w, t) && !t.gate.drain && t.svc == s.svc && t.limit == s.limit
  {
    t := s;
    if s.gate.waiters[v].Ticking? {
      BoundThen(m, w, s, G(TimeOut(v)));
      t := ExecG(s, TimeOut(v));
    }
    BoundThen(m, w, t, G(Launch(v, false)));
    t := ExecG(t, Launch(v, false));
  }

  lemma FromOther(m: State, w: nat, s: State, v: nat)
    requires Bound(m, w, s) && !MayStart(s.svc.disp, s.limit) && s.limit > 0 && v != w && v in s.gate.waiters
    ensures FindsWorker(m, w)
  {
    var t := PassRunsOut(m, w, s);
    t := OtherGivesUp(m, w, t, v);
    FromIdle(m, w, t);
  }

  /** Drain mode has been left: the next pass can start something. */
  lemma FromLeft(m: State, w: nat, s: State)
    requires Bound(m, w, s) && !MayStart(s.svc.disp, s.limit) && s.limit > 0 && !s.gate.drain
    ensures FindsWorker(m, w)
  {
    var t := PassRunsOut(m, w, s);
    FromIdle(m, w, t);
  }

  lemma FromIdle(m: State, w: nat, s: State)
    requires Bound(m, w, s) && (s.svc.disp.Idle? || s.svc.disp.Woken?) && s.limit > 0 && !s.gate.drain
    ensures FindsWorker(m, w)
  {
    var t := s;
    if t.svc.disp.Idle? {
      BoundThen(m, w, t, D(Wake(false)));
      t := ExecD(t, Wake(false));
    }
    BoundThen(m, w, t, D(ReadDrain));
    FromBegun(m, w, ExecD(t, ReadDrain));
  }

  // ---- neither ---------------------------------------------------------------------

  /** Only this waiter is left; while it is, the drain goes on and the registry is empty. */
  ghost predicate Lonely(s: State, w: nat) {
    && (forall v :: v in s.gate.waiters ==> v == w)
    && (w in s.gate.waiters ==> Drained(s) && s.svc.workers == map[])
  }

  lemma WaitersOnlyLeave(s: State, step: Step)
    requires Enabled(s, step) && Ordinary(step)
    ensures forall v :: v in Exec(s, step).gate.waiters ==> v in s.gate.waiters
  {
    match step
    case D(d) => DispFrame(s, d);
    case R(r) => RequestFrame(s, r);
    case _ =>
  }

  lemma LonelyStep(s: State, w: nat, step: Step)
    requires Inv(s) && Lonely(s, w) && Enabled(s, step) && Ordinary(step)
    ensures Lonely(Exec(s, step), w)
  {
    WaitersOnlyLeave(s, step);
    if w in Exec(s, step).gate.waiters {
      assert !EndsDrain(step);
      DrainStep(s, step);
    }
  }

  lemma {:induction false} LonelyRun(s: State, w: nat, steps: seq<Step>)
    requires Inv(s) && Lonely(s, w) && Runs(s, steps) && forall i :: 0 <= i < |steps| ==> Ordinary(steps[i])
    ensures Lonely(Last(s, steps), w) && Inv(Last(s, steps))
    decreases |steps|
  {
    if steps != [] {
      InvStep(s, steps[0]);
      LonelyStep(s, w, steps[0]);
      LonelyRun(Exec(s, steps[0]), w, steps[1..]);
    }
  }

  // ---- exactly when -------------------------------------------------------------------

  /** The dispatcher, at the tick, can still start something, or drain mode is off because
      another upgrade's launch has failed, or can still end so. */
  predicate Reopens(s: State, w: nat) {
    MayStart(s.svc.disp, s.limit) || (s.limit > 0 && (!s.gate.drain || exists v :: v in s.gate.waiters && v != w))
  }

  /** A waiter that sees the registry empty can come to launch the upgrade beside a worker
      exactly when the drain can reopen, over all continuations in which the service lives
      on and no further upgrade enters drain mode. */
  lemma UpgradeFindsWorker(s: State, w: nat)
    requires Reachable(s) && EnabledG(s, Tick(w)) && s.svc.workers == map[]
    ensures FindsWorker(ExecG(s, Tick(w)), w) <==> Reopens(s, w)
  {
    var m := ExecG(s, Tick(w));
    ReachStep(s, G(Tick(w)));
    assert AboutToLaunch(m, w);
    if Reopens(s, w) {
      QuietUntilServing(s);
      assert Runs(m, []) && Last(m, []) == m;
      if MayStart(s.svc.disp, s.limit) {
        FromAnywhere(m, w, m);
      } else if !s.gate.drain {
        FromLeft(m, w, m);
      } else {
        var v :| v in s.gate.waiters && v != w;
        FromOther(m, w, m, v);
      }
    } else {
      forall t | Onto(m, t) && AboutToLaunch(t, w) ensures t.svc.workers == map[] {
        var steps :| Runs(m, steps) && Last(m, steps) == t && forall i :: 0 <= i < |steps| ==> Ordinary(steps[i]);
        UpgradeFindsNoWorker(s, w, steps);
      }
    }
  }

  /** If it cannot, then whenever the waiter is still about to launch, no worker is
      registered, and nothing of this lifetime is alive but a process that could not be
      recorded and is about to be killed. */
  lemma UpgradeFindsNoWorker(s: State, w: nat, steps: seq<Step>)
    requires Reachable(s) && EnabledG(s, Tick(w)) && s.svc.workers == map[] && !Reopens(s, w)
    requires Runs(ExecG(s, Tick(w)), steps) && forall i :: 0 <= i < |steps| ==> Ordinary(steps[i])
    ensures var t := Last(ExecG(s, Tick(w)), steps);
            w in t.gate.waiters ==>
              t.svc.workers == map[] && forall pid :: pid in LiveSet(t) ==> t.svc.disp.Refused? && t.svc.disp.pid == pid
  {
    var m := ExecG(s, Tick(w));
    ReachableInv(s);
    InvStep(s, G(Tick(w)));
    if s.limit == 0 {
      InvRun(m, steps);
      NoSlots(m, steps);
    } else {
      LonelyRun(m, w, steps);
      if w in Last(m, steps).gate.waiters { OnlyRefusedLives(Last(m, steps)); }
    }
  }

  lemma OnlyRefusedLives(t: State)
    requires Inv(t) && Drained(t) && t.svc.workers == map[]
    ensures forall pid :: pid in LiveSet(t) ==> t.svc.disp.Refused? && t.svc.disp.pid == pid
  {
    forall pid | pid in LiveSet(t) ensures t.svc.disp.Refused? && t.svc.disp.pid == pid { LiveEntry(t, pid); }
  }

  lemma {:induction false} LimitLasts(s: State, steps: seq<Step>)
    requires Inv(s) && Runs(s, steps)
    ensures Last(s, steps).limit == s.limit
    decreases |steps|
  {
    if steps != [] {
      SurvivorsStep(s, steps[0]);
      InvStep(s, steps[0]);
      LimitLasts(Exec(s, steps[0]), steps[1..]);
    }
  }

  lemma NoSlots(m: State, steps: seq<Step>)
    requires Inv(m) && Runs(m, steps) && m.limit == 0 && Inv(Last(m, steps))
    ensures Last(m, steps).svc.workers == map[] && LiveSet(Last(m, steps)) == {}
  {
    LimitLasts(m, steps);
    CurrentBounded(Last(m, steps));
  }
}
