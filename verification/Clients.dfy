/** The actors that only read and add rows: the refresh scheduler, the request loop
    and the senders of triggers. */
module Clients {
  import opened Clock
  import opened Jobs
  import opened Protocol
  import opened Safety
  import opened Registry

  // ---- how the table moves ---------------------------------------------------

  ghost predicate Evolves(rows: Table, purged: set<JobId>, rows': Table, purged': set<JobId>) {
    && purged <= purged'
    && (forall id :: id in rows && id in rows' ==> Follows(rows[id], rows'[id]))
    && (forall id :: id in rows && id !in rows' ==> id in purged' && Terminal(rows[id].status))
    && (forall id :: id in rows' && id !in rows ==> id !in purged && rows'[id].status == Queued)
  }

  /** As above, and nothing is added. */
  ghost predicate Settles(rows: Table, rows': Table) {
    forall id :: id in rows' ==> id in rows && Follows(rows[id], rows'[id])
  }

  lemma SwapEvolves(rows: Table, purged: set<JobId>, id: JobId, to: Status, now: Time, error: string)
    requires (forall j :: j in rows ==> RowOk(rows[j])) && Terminal(to)
    ensures Evolves(rows, purged, Swap(rows, id, Running, to, Ended(now, error)), purged)
  {
  }

  lemma SameEvolves(rows: Table, purged: set<JobId>)
    ensures Evolves(rows, purged, rows, purged)
  {
  }

  lemma WorkerEvolves(s: State, pid: Pid, w: WorkerStep)
    requires Base(s) && EnabledW(s, pid, w)
    ensures Evolves(s.rows, s.purged, ExecW(s, pid, w).rows, ExecW(s, pid, w).purged)
  {
    SameEvolves(s.rows, s.purged);
    if w.Finish? { SwapEvolves(s.rows, s.purged, s.procs[pid].id, w.to, w.now, w.error); }
  }

  lemma MonitorEvolves(s: State, m: MonStep)
    requires Base(s) && EnabledM(s, m)
    ensures Evolves(s.rows, s.purged, ExecM(s, m).rows, ExecM(s, m).purged)
  {
    SameEvolves(s.rows, s.purged);
    if m.Fail? { SwapEvolves(s.rows, s.purged, s.svc.mon.id, Failed, m.now, "unexpected worker termination"); }
  }

  lemma BootEvolves(s: State, b: BootStep)
    requires Base(s) && EnabledB(s, b)
    ensures Evolves(s.rows, s.purged, ExecB(s, b).rows, ExecB(s, b).purged)
  {
    SameEvolves(s.rows, s.purged);
    if b.Condemn? { SwapEvolves(s.rows, s.purged, s.svc.boot.id, Failed, b.now, "orphaned job"); }
  }

  lemma MarkEvolves(s: State, ok: bool, now: Time)
    requires Base(s) && EnabledD(s, Mark(ok, now))
    ensures Evolves(s.rows, s.purged, ExecD(s, Mark(ok, now)).rows, s.purged)
    ensures Settles(s.rows, ExecD(s, Mark(ok, now)).rows)
  {
  }

  lemma DispRows(s: State, d: DispStep)
    requires EnabledD(s, d)
    ensures ExecD(s, d).purged == s.purged && (d.Mark? || ExecD(s, d).rows == s.rows)
  {
  }

  lemma DispEvolves(s: State, d: DispStep)
    requires Base(s) && EnabledD(s, d)
    ensures Evolves(s.rows, s.purged, ExecD(s, d).rows, s.purged) && ExecD(s, d).purged == s.purged
    ensures Settles(s.rows, ExecD(s, d).rows)
  {
    DispRows(s, d);
    if d.Mark? { MarkEvolves(s, d.ok, d.now); } else { SameEvolves(s.rows, s.purged); }
  }

  lemma OtherRowsKept(s: State, step: Step)
    requires Enabled(s, step) && Local(step) && !step.W? && !step.M? && !step.B?
    ensures Exec(s, step).rows == s.rows && Exec(s, step).purged == s.purged
  {
    if step.R? { RequestKeepsRows(s, step.r); }
  }

  lemma RequestKeepsRows(s: State, r: ReqStep)
    requires EnabledR(s, r) && !(r.Create? && r.ok)
    ensures ExecR(s, r).rows == s.rows && ExecR(s, r).purged == s.purged
  {
  }

  lemma NoInsertSettles(s: State, step: Step)
    requires Base(s) && Enabled(s, step) && !Inserts(step)
    ensures Exec(s, step).rows.Keys <= s.rows.Keys
  {
    if Local(step) {
      LocalLeaves(s, step);
    } else if step.D? {
      DispEvolves(s, step.d);
    }
  }

  lemma InsertEvolves(s: State, step: Step)
    requires Enabled(s, step) && Inserts(step)
    ensures Evolves(s.rows, s.purged, Exec(s, step).rows, Exec(s, step).purged)
  {
    var id, job, now := InsertShape(s, step);
  }

  lemma PurgeEvolves(rows: Table, purged: set<JobId>, cutoff: Time)
    ensures Evolves(rows, purged, rows - Expired(rows, cutoff), purged + Expired(rows, cutoff))
  {
  }

  /** Rows only move queued, running, then terminal; terminal rows never change; only
      terminal rows are deleted; new rows are queued under new ids. */
  lemma RowsEvolve(s: State, step: Step)
    requires Base(s) && Enabled(s, step)
    ensures Evolves(s.rows, s.purged, Exec(s, step).rows, Exec(s, step).purged)
    ensures !Inserts(step) ==> Settles(s.rows, Exec(s, step).rows)
  {
    if !Inserts(step) { NoInsertSettles(s, step); }
    match step
    case D(d) => DispEvolves(s, d);
    case W(pid, w) => WorkerEvolves(s, pid, w);
    case M(m) => MonitorEvolves(s, m);
    case B(b) => BootEvolves(s, b);
    case Purge(cutoff) => PurgeEvolves(s.rows, s.purged, cutoff);
    case Crash =>
    case _ => if Inserts(step) { InsertEvolves(s, step); } else { OtherRowsKept(s, step); SameEvolves(s.rows, s.purged); }
  }

  // ---- the scheduler ---------------------------------------------------------

  predicate Refresh(r: Row, t: TaskType) {
    r.job.origin == Scheduled && r.job.taskType == t
  }

  /** What a check has found out, if its own calls succeeded. */
  ghost predicate CheckTells(rows: Table, pc: SchedPc, t: TaskType) {
    && (pc.NoneQueued? && pc.sure ==> forall id :: id in rows && Refresh(rows[id], t) ==> rows[id].status != Queued)
    && (pc.NoneActive? && pc.sure ==> forall id :: !ActiveRefresh(rows, id, t))
  }

  ghost predicate TypeOk(rows: Table, pc: SchedPc, t: TaskType, unchecked: set<JobId>) {
    CheckTells(rows, pc, t) && AtMostOne(rows, t, unchecked)
  }

  /** Of two active rows the scheduler made of the type, one was inserted unchecked. */
  ghost predicate AtMostOne(rows: Table, t: TaskType, unchecked: set<JobId>) {
    forall id, j :: ActiveRefresh(rows, id, t) && ActiveRefresh(rows, j, t) && id !in unchecked && j !in unchecked ==> id == j
  }

  predicate ActiveRefresh(rows: Table, id: JobId, t: TaskType) {
    id in rows && Refresh(rows[id], t) && Active(rows[id])
  }

  ghost predicate SchedOk(s: State) {
    forall t :: TypeOk(s.rows, SchedAt(s, t), t, s.sched.unchecked)
  }

  lemma RefreshSettles(rows: Table, rows': Table, t: TaskType, id: JobId)
    requires Settles(rows, rows') && ActiveRefresh(rows', id, t)
    ensures ActiveRefresh(rows, id, t)
  {
    assert Follows(rows[id], rows'[id]);
  }

  lemma TypeSettles(rows: Table, rows': Table, pc: SchedPc, pc': SchedPc, t: TaskType, unchecked: set<JobId>)
    requires TypeOk(rows, pc, t, unchecked) && Settles(rows, rows')
    requires pc' == pc || pc' == Resting
    ensures TypeOk(rows', pc', t, unchecked)
  {
    forall id | ActiveRefresh(rows', id, t) ensures ActiveRefresh(rows, id, t) { RefreshSettles(rows, rows', t, id); }
    forall id | id in rows' && Refresh(rows'[id], t) && rows'[id].status == Queued
      ensures id in rows && Refresh(rows[id], t) && rows[id].status == Queued
    {
      assert Follows(rows[id], rows'[id]);
    }
  }

  lemma SchedKeeps(s: State, s': State)
    requires SchedOk(s) && Settles(s.rows, s'.rows) && s'.sched.unchecked == s.sched.unchecked
    requires forall t :: SchedAt(s', t) == SchedAt(s, t) || SchedAt(s', t) == Resting
    ensures SchedOk(s')
  {
    forall t ensures TypeOk(s'.rows, SchedAt(s', t), t, s'.sched.unchecked) {
      TypeSettles(s.rows, s'.rows, SchedAt(s, t), SchedAt(s', t), t, s.sched.unchecked);
    }
  }

  lemma SchedRead(s: State, t: TaskType, q: SchedStep)
    requires SchedOk(s) && EnabledS(s, t, q) && !(q.Make? && q.ok)
    ensures SchedOk(ExecS(s, t, q))
  {
    var s' := ExecS(s, t, q);
    forall u ensures TypeOk(s'.rows, SchedAt(s', u), u, s'.sched.unchecked) {
      assert TypeOk(s.rows, SchedAt(s, u), u, s.sched.unchecked);
      assert u != t ==> SchedAt(s', u) == SchedAt(s, u);
    }
  }

  lemma TypeInsert(rows: Table, pc: SchedPc, id: JobId, r: Row, t: TaskType, unchecked: set<JobId>, more: set<JobId>)
    requires TypeOk(rows, pc, t, unchecked) && !Refresh(r, t) && id !in rows
    ensures TypeOk(rows[id := r], pc, t, unchecked + more)
  {
    var rows' := rows[id := r];
    forall i | ActiveRefresh(rows', i, t) ensures ActiveRefresh(rows, i, t) {}
  }

  /** An insertion after a check whose calls went through, or one that is noted as unchecked. */
  lemma OneMoreRefresh(rows: Table, id: JobId, r: Row, t: TaskType, sure: bool, unchecked: set<JobId>)
    requires AtMostOne(rows, t, unchecked) && (sure ==> forall i :: !ActiveRefresh(rows, i, t))
    ensures AtMostOne(rows[id := r], t, unchecked + IfUnsure(sure, id))
  {
    var rows' := rows[id := r];
    forall i | ActiveRefresh(rows', i, t) && i != id ensures ActiveRefresh(rows, i, t) {}
  }

  lemma SchedMake(s: State, t: TaskType, q: SchedStep)
    requires SchedOk(s) && EnabledS(s, t, q) && q.Make? && q.ok
    ensures SchedOk(ExecS(s, t, q))
  {
    var s', r, sure := ExecS(s, t, q), NewRow(Job(t, "", "", Scheduled), q.now), SchedAt(s, t).sure;
    assert s'.rows == s.rows[q.id := r];
    assert s'.sched == Sched(s.sched.pcs[t := Resting], s.sched.unchecked + IfUnsure(sure, q.id));
    forall u ensures TypeOk(s'.rows, SchedAt(s', u), u, s'.sched.unchecked) {
      assert TypeOk(s.rows, SchedAt(s, u), u, s.sched.unchecked);
      if u == t {
        OneMoreRefresh(s.rows, q.id, r, t, sure, s.sched.unchecked);
      } else {
        TypeInsert(s.rows, SchedAt(s, u), q.id, r, u, s.sched.unchecked, IfUnsure(sure, q.id));
      }
    }
  }

  /** A request never makes a scheduler row. */
  lemma SchedCreate(s: State, r: ReqStep)
    requires SchedOk(s) && NetOk(s) && EnabledR(s, r) && Inserts(R(r))
    ensures SchedOk(ExecR(s, r))
  {
    var s' := ExecR(s, r);
    assert s'.rows == s.rows[r.id := NewRow(s.net.msgs[s.net.req.m].job, r.now)] && s'.sched == s.sched;
    assert MsgOk(s.net.req.m, s.net.msgs[s.net.req.m], s.net);
    forall u ensures TypeOk(s'.rows, SchedAt(s', u), u, s'.sched.unchecked) {
      TypeInsert(s.rows, SchedAt(s, u), r.id, NewRow(s.net.msgs[s.net.req.m].job, r.now), u, s.sched.unchecked, {});
      assert s.sched.unchecked + {} == s'.sched.unchecked;
    }
  }

  lemma SchedUntouched(s: State, step: Step)
    requires Enabled(s, step) && !step.S? && !step.Crash?
    ensures Exec(s, step).sched == s.sched
  {
    match step
    case D(d) => DispFrame(s, d);
    case R(r) => RequestFrame(s, r);
    case _ =>
  }

  lemma SchedStepKept(s: State, step: Step)
    requires Base(s) && SchedOk(s) && NetOk(s) && Enabled(s, step)
    ensures SchedOk(Exec(s, step))
  {
    if step.S? {
      if Inserts(step) { SchedMake(s, step.t, step.q); } else { SchedRead(s, step.t, step.q); }
    } else if Inserts(step) {
      SchedCreate(s, step.r);
    } else {
      RowsEvolve(s, step);
      if !step.Crash? { SchedUntouched(s, step); }
      SchedKeeps(s, Exec(s, step));
    }
  }

  // ---- requests and their deliveries -----------------------------------------

  predicate Holds(req: ReqPc) {
    req.Got? || req.Clear? || req.Conflicting? || req.Answered? || req.Saved? || req.Unsaved?
  }

  ghost predicate NetOk(s: State) {
    NetOkFor(s.net, s.rows, s.purged)
  }

  ghost predicate NetOkFor(net: Net, rows: Table, purged: set<JobId>) {
    && (Holds(net.req) ==> net.req.m in net.msgs && net.req.tag < net.tags && net.req.tag !in net.settled)
    && (forall tag :: tag in net.settled ==> tag < net.tags && net.settled[tag] == 1)
    && (forall m :: m in net.msgs ==> MsgOk(m, net.msgs[m], net))
    && (net.req.Saved? ==> net.req.m in net.stored)
    && (net.req.Answered? ==> net.req.m in net.answered)
    && (net.req.Unsaved? ==> net.req.m in net.unsaved)
    && (forall m :: m in net.stored ==> StoredOk(m, net, rows, purged))
  }

  /** A request is queued, in the loop's hand under its current tag, or settled with cause. */
  ghost predicate MsgOk(m: MsgId, msg: Msg, net: Net) {
    && msg.job.origin == Requested(m)
    && match msg.place
       case InQueue => true
       case InFlight(tag) => Holds(net.req) && net.req.m == m && net.req.tag == tag
       case Acked => m in net.stored || m in net.answered
       case Dropped => !msg.ok || m in net.unsaved
  }

  ghost predicate StoredOk(m: MsgId, net: Net, rows: Table, purged: set<JobId>) {
    && m in net.msgs && m in net.stored
    && (net.stored[m] in rows || net.stored[m] in purged)
    && (net.stored[m] in rows ==> rows[net.stored[m]].job == net.msgs[m].job)
  }

  lemma NetRows(net: Net, rows: Table, purged: set<JobId>, rows': Table, purged': set<JobId>)
    requires NetOkFor(net, rows, purged) && Evolves(rows, purged, rows', purged')
    ensures NetOkFor(net, rows', purged')
  {
    forall m | m in net.stored ensures StoredOk(m, net, rows', purged') {
      assert StoredOk(m, net, rows, purged);
    }
  }

  /** Settling what is in hand. */
  lemma NetSettle(net: Net, rows: Table, purged: set<JobId>, place: Place, next: ReqPc)
    requires NetOkFor(net, rows, purged) && Holds(net.req) && !Holds(next)
    requires !place.InFlight?
    requires place.Acked? ==> net.req.m in net.stored || net.req.m in net.answered
    requires place.Dropped? ==> !net.msgs[net.req.m].ok || net.req.m in net.unsaved
    ensures var m, tag := net.req.m, net.req.tag;
            NetOkFor(net.(req := next, settled := net.settled + multiset{tag},
                          msgs := if net.msgs[m].place == InFlight(tag) then net.msgs[m := net.msgs[m].(place := place)]
                                  else net.msgs), rows, purged)
  {
    var m, tag := net.req.m, net.req.tag;
    var net' := net.(req := next, settled := net.settled + multiset{tag},
                     msgs := if net.msgs[m].place == InFlight(tag) then net.msgs[m := net.msgs[m].(place := place)] else net.msgs);
    forall k | k in net'.msgs ensures MsgOk(k, net'.msgs[k], net') {
      assert MsgOk(k, net.msgs[k], net);
    }
    forall k | k in net'.stored ensures StoredOk(k, net', rows, purged) {
      assert StoredOk(k, net, rows, purged);
    }
  }

  lemma NetKeepsStored(net: Net, net': Net, rows: Table, purged: set<JobId>)
    requires NetOkFor(net, rows, purged) && net'.stored == net.stored
    requires forall m :: m in net.msgs ==> m in net'.msgs && net'.msgs[m].job == net.msgs[m].job
    ensures forall m :: m in net'.stored ==> StoredOk(m, net', rows, purged)
  {
    forall m | m in net'.stored ensures StoredOk(m, net', rows, purged) { assert StoredOk(m, net, rows, purged); }
  }

  lemma NetReceive(s: State, r: ReqStep)
    requires NetOk(s) && EnabledR(s, r) && (r.Publish? || r.Deliver? || r.ChannelLost?)
    ensures NetOk(ExecR(s, r))
  {
    var net, net' := s.net, ExecR(s, r).net;
    NetKeepsStored(net, net', s.rows, s.purged);
    forall m | m in net'.msgs ensures MsgOk(m, net'.msgs[m], net') {
      assert m in net.msgs ==> MsgOk(m, net.msgs[m], net);
    }
  }

  /** The loop moves on with the same delivery in hand, or gives up nothing. */
  lemma NetMove(net: Net, net': Net, rows: Table, purged: set<JobId>)
    requires NetOkFor(net, rows, purged)
    requires net'.msgs == net.msgs && net'.tags == net.tags && net'.settled == net.settled && net'.stored == net.stored
    requires net.answered <= net'.answered && net.unsaved <= net'.unsaved
    requires if Holds(net.req) then Holds(net'.req) && net'.req.m == net.req.m && net'.req.tag == net.req.tag
             else !Holds(net'.req)
    requires net'.req.Saved? ==> net'.req.m in net'.stored
    requires net'.req.Answered? ==> net'.req.m in net'.answered
    requires net'.req.Unsaved? ==> net'.req.m in net'.unsaved
    ensures NetOkFor(net', rows, purged)
  {
    NetKeepsStored(net, net', rows, purged);
    forall m | m in net'.msgs ensures MsgOk(m, net'.msgs[m], net') {
      assert MsgOk(m, net.msgs[m], net);
    }
  }

  lemma NetDecide(s: State, r: ReqStep)
    requires NetOk(s) && EnabledR(s, r) && (r.CheckConflict? || r.Answer? || r.Trigger? || (r.Create? && !r.ok))
    ensures NetOk(ExecR(s, r))
  {
    NetMove(s.net, ExecR(s, r).net, s.rows, s.purged);
  }

  lemma NetCreate(s: State, r: ReqStep)
    requires NetOk(s) && EnabledR(s, r) && r.Create? && r.ok
    ensures NetOk(ExecR(s, r))
  {
    var s' := ExecR(s, r);
    var net, net', m0 := s.net, s'.net, s.net.req.m;
    assert s'.rows == s.rows[r.id := NewRow(net.msgs[m0].job, r.now)] && s'.purged == s.purged;
    forall m | m in net'.msgs ensures MsgOk(m, net'.msgs[m], net') {
      assert MsgOk(m, net.msgs[m], net);
    }
    forall m | m in net'.stored ensures StoredOk(m, net', s'.rows, s'.purged) {
      assert m != m0 ==> StoredOk(m, net, s.rows, s.purged);
    }
  }

  lemma NetStepR(s: State, r: ReqStep)
    requires NetOk(s) && EnabledR(s, r)
    ensures NetOk(ExecR(s, r))
  {
    match r
    case Discard => NetSettle(s.net, s.rows, s.purged, Dropped, Waiting);
    case Requeue => NetSettle(s.net, s.rows, s.purged, InQueue, Halted);
    case AckConflict => NetSettle(s.net, s.rows, s.purged, Acked, Waiting);
    case AckSaved => NetSettle(s.net, s.rows, s.purged, Acked, Notify);
    case NackUnsaved => NetSettle(s.net, s.rows, s.purged, Dropped, Waiting);
    case Create(ok, id, now) => if ok { NetCreate(s, r); } else { NetDecide(s, r); }
    case CheckConflict(ok) => NetDecide(s, r);
    case Answer => NetDecide(s, r);
    case Trigger => NetDecide(s, r);
    case _ => NetReceive(s, r);
  }

  lemma NetCrash(s: State)
    requires NetOk(s)
    ensures NetOk(ExecCrash(s))
  {
    var net, net' := s.net, ExecCrash(s).net;
    NetKeepsStored(net, net', s.rows, s.purged);
    forall m | m in net'.msgs ensures MsgOk(m, net'.msgs[m], net') {
      assert MsgOk(m, net.msgs[m], net);
    }
  }

  lemma NetUntouched(s: State, step: Step)
    requires Enabled(s, step) && !step.R? && !step.Crash?
    ensures Exec(s, step).net == s.net
  {
    if step.D? { DispFrame(s, step.d); }
  }

  lemma NetStep(s: State, step: Step)
    requires Base(s) && NetOk(s) && Enabled(s, step)
    ensures NetOk(Exec(s, step))
  {
    if step.R? {
      NetStepR(s, step.r);
    } else if step.Crash? {
      NetCrash(s);
    } else {
      RowsEvolve(s, step);
      NetUntouched(s, step);
      NetRows(s.net, s.rows, s.purged, Exec(s, step).rows, Exec(s, step).purged);
    }
  }

  // ---- duplicate rejection ---------------------------------------------------

  /** Of two active rows that share a conflict key, one was inserted unchecked. */
  ghost predicate KeysUnique(rows: Table, unchecked: set<JobId>) {
    forall id, j :: ActiveIn(rows, id) && ActiveIn(rows, j) && SameKey(rows[id].job, rows[j].job) ==>
      id == j || id in unchecked || j in unchecked
  }

  predicate ActiveIn(rows: Table, id: JobId) {
    id in rows && Active(rows[id])
  }

  ghost predicate NoRival(rows: Table, job: Job) {
    forall id :: ActiveIn(rows, id) ==> !SameKey(rows[id].job, job)
  }

  /** What a request's own query has found out, if it succeeded. */
  ghost predicate QueryTells(rows: Table, net: Net) {
    net.req.Clear? && net.req.sure && net.req.m in net.msgs ==> NoRival(rows, net.msgs[net.req.m].job)
  }

  ghost predicate KeyOk(s: State) {
    QueryTells(s.rows, s.net) && KeysUnique(s.rows, s.net.unchecked)
  }

  lemma KeysSettle(rows: Table, rows': Table, unchecked: set<JobId>)
    requires KeysUnique(rows, unchecked) && Settles(rows, rows')
    ensures KeysUnique(rows', unchecked)
  {
    forall id, j | ActiveIn(rows', id) && ActiveIn(rows', j) && SameKey(rows'[id].job, rows'[j].job)
                   && id !in unchecked && j !in unchecked
      ensures id == j
    {
      assert Follows(rows[id], rows'[id]) && Follows(rows[j], rows'[j]);
      assert ActiveIn(rows, id) && ActiveIn(rows, j);
    }
  }

  lemma RivalSettles(rows: Table, rows': Table, job: Job)
    requires NoRival(rows, job) && Settles(rows, rows')
    ensures NoRival(rows', job)
  {
    forall id | ActiveIn(rows', id) ensures !SameKey(rows'[id].job, job) {
      assert Follows(rows[id], rows'[id]) && ActiveIn(rows, id);
    }
  }

  lemma KeysInsert(rows: Table, id: JobId, r: Row, sure: bool, unchecked: set<JobId>)
    requires KeysUnique(rows, unchecked) && (sure ==> NoRival(rows, r.job))
    ensures KeysUnique(rows[id := r], unchecked + IfUnsure(sure, id))
  {
    var rows' := rows[id := r];
    forall i, j | ActiveIn(rows', i) && ActiveIn(rows', j) && SameKey(rows'[i].job, rows'[j].job)
                  && i !in unchecked + IfUnsure(sure, id) && j !in unchecked + IfUnsure(sure, id)
      ensures i == j
    {
      if i != id { assert ActiveIn(rows, i); }
      if j != id { assert ActiveIn(rows, j); }
    }
  }

  /** A refresh job is no write job: it collides with nothing. */
  lemma RefreshHasNoRival(rows: Table, t: TaskType)
    requires RefreshType(t)
    ensures NoRival(rows, Job(t, "", "", Scheduled))
    ensures forall job :: !SameKey(Job(t, "", "", Scheduled), job)
  {
  }

  lemma KeyMake(s: State, t: TaskType, q: SchedStep)
    requires KeyOk(s) && EnabledS(s, t, q) && q.Make? && q.ok
    ensures KeyOk(ExecS(s, t, q))
  {
    var s', r := ExecS(s, t, q), NewRow(Job(t, "", "", Scheduled), q.now);
    assert s'.rows == s.rows[q.id := r] && s'.net == s.net;
    RefreshHasNoRival(s.rows, t);
    KeysInsert(s.rows, q.id, r, true, s.net.unchecked);
    assert s.net.unchecked + {} == s.net.unchecked;
    if s.net.req.Clear? && s.net.req.sure && s.net.req.m in s.net.msgs {
      forall id | ActiveIn(s'.rows, id) ensures !SameKey(s'.rows[id].job, s.net.msgs[s.net.req.m].job) {
        if id != q.id { assert ActiveIn(s.rows, id); }
      }
    }
  }

  lemma KeyCreate(s: State, r: ReqStep)
    requires KeyOk(s) && EnabledR(s, r) && r.Create? && r.ok
    ensures KeyOk(ExecR(s, r))
  {
    var s', row := ExecR(s, r), NewRow(s.net.msgs[s.net.req.m].job, r.now);
    var sure := s.net.req.sure;
    assert s'.rows == s.rows[r.id := row] && s'.net.req.Saved? && s'.net.unchecked == s.net.unchecked + IfUnsure(sure, r.id);
    KeysInsert(s.rows, r.id, row, sure, s.net.unchecked);
  }

  /** A conflict query that finds nothing has found that there is no rival. */
  lemma NoConflictNoRival(rows: Table, job: Job)
    requires IsWriteTask(job.taskType)
    ensures HasConflict(rows, job) <==> !NoRival(rows, job)
  {
    if HasConflict(rows, job) {
      var id :| id in rows && Active(rows[id]) && rows[id].job.vm == job.vm && rows[id].job.taskType == job.taskType
        && (job.taskType == VmManagement ==> rows[id].job.action == job.action);
      assert ActiveIn(rows, id) && SameKey(rows[id].job, job);
    }
    if !NoRival(rows, job) {
      var id :| ActiveIn(rows, id) && SameKey(rows[id].job, job);
      assert id in rows && Active(rows[id]);
    }
  }

  lemma KeyStepR(s: State, r: ReqStep)
    requires NetOk(s) && KeyOk(s) && EnabledR(s, r) && !(r.Create? && r.ok)
    ensures KeyOk(ExecR(s, r))
  {
    RequestKeepsRows(s, r);
    if r.CheckConflict? {
      var job := s.net.msgs[s.net.req.m].job;
      if IsWriteTask(job.taskType) { NoConflictNoRival(s.rows, job); }
    } else {
      ClearStays(s, r);
    }
  }

  lemma ClearStays(s: State, r: ReqStep)
    requires NetOk(s) && EnabledR(s, r) && !(r.Create? && r.ok) && !r.CheckConflict?
    ensures var net, net' := s.net, ExecR(s, r).net;
            && net'.unchecked == net.unchecked
            && (net'.req.Clear? ==> net.req == net'.req && net'.msgs[net.req.m].job == net.msgs[net.req.m].job)
  {
  }

  lemma KeyStep(s: State, step: Step)
    requires Base(s) && NetOk(s) && KeyOk(s) && Enabled(s, step)
    ensures KeyOk(Exec(s, step))
  {
    if step.S? && Inserts(step) {
      KeyMake(s, step.t, step.q);
    } else if step.R? {
      if Inserts(step) { KeyCreate(s, step.r); } else { KeyStepR(s, step.r); }
    } else {
      var s' := Exec(s, step);
      RowsEvolve(s, step);
      if !step.Crash? { NetUntouched(s, step); }
      KeysSettle(s.rows, s'.rows, s.net.unchecked);
      if s'.net.req.Clear? && s'.net.req.sure && s.net.req.m in s.net.msgs {
        RivalSettles(s.rows, s'.rows, s.net.msgs[s.net.req.m].job);
      }
    }
  }

  // ---- wakeups ---------------------------------------------------------------

  /** Someone is going to start a pass, or to send, or drain mode holds passes back. */
  predicate WillWake(s: State) {
    || s.gate.token || s.gate.owed > 0 || s.svc.disp.Woken? || s.gate.drain
    || s.net.req.Saved? || s.net.req.Notify? || !s.svc.boot.Serving?
  }

  predicate GateOk(s: State) {
    s.gate.stale ==> WillWake(s)
  }

  lemma GateStepD(s: State, d: DispStep)
    requires GateOk(s) && EnabledD(s, d)
    ensures GateOk(ExecD(s, d))
  {
  }

  lemma GateStepR(s: State, r: ReqStep)
    requires GateOk(s) && EnabledR(s, r)
    ensures GateOk(ExecR(s, r))
  {
  }

  lemma GateStepG(s: State, g: GateStep)
    requires GateOk(s) && EnabledG(s, g)
    ensures GateOk(ExecG(s, g))
  {
  }

  lemma GateStepM(s: State, m: MonStep)
    requires GateOk(s) && EnabledM(s, m)
    ensures GateOk(ExecM(s, m))
  {
  }

  lemma GateStepOther(s: State, step: Step)
    requires GateOk(s) && Enabled(s, step) && (step.W? || step.B? || step.S? || step.Purge?)
    ensures GateOk(Exec(s, step))
  {
  }

  lemma GateKept(s: State, step: Step)
    requires GateOk(s) && Enabled(s, step)
    ensures GateOk(Exec(s, step))
  {
    match step
    case D(d) => GateStepD(s, d);
    case R(r) => GateStepR(s, r);
    case G(g) => GateStepG(s, g);
    case M(m) => GateStepM(s, m);
    case Crash =>
    case _ => GateStepOther(s, step);
  }
}
