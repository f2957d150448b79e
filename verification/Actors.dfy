/** The code of the other actors, each a run of its own steps among those of everyone
    else: the handler of a worker's end, the refresh scheduler, the request loop, the
    worker process and startup recovery. */
module Actors {
  import opened Clock
  import opened Jobs
  import opened Protocol
  import opened Safety
  import opened Registry
  import opened Clients
  import opened Agent
  import opened History
  import opened Restart
  import opened Records
  import opened Shared
  import opened Dispatching

  // ---- the monitor's handler of a worker's end ---------------------------------

  method HoldMutex(m: Machine, pc: MonPc)
    modifies m
    ensures m.Now() == MonAt(old(m.Now()), pc)
  {
    m.rest := MonAt(m.rest, pc);
  }

  /** Under the mutex: read the row, fail it if it still runs, remove the entry. If the
      store answered, the row no longer runs when the entry is gone; and a row that ran has
      been failed with the monitor's message, unless a worker of the job left behind
      unrecorded has ended it. */
  method HandleTermination(m: Machine, w: World, id: JobId)
    requires w.self == Handler
    requires EnabledM(m.Now(), Lock(id)) && !w.still
    modifies m, m.store, m.monitor
    ensures m.From(w, old(m.Now()))
    ensures id !in m.monitor.workers && m.Now().svc.mon.Free? && m.triggerCh
    ensures w.calm && Reachable(old(m.Now())) ==> !CanSwap(m.Now().rows, id, Running) && !CanSwap(m.Now().rows, id, Queued)
    ensures Reachable(old(m.Now())) && CanSwap(old(m.Now()).rows, id, Running) && id in m.Now().rows ==>
              var r := m.Now().rows[id];
              || (r.status == Failed && r.error == "unexpected worker termination")
              || (Terminal(r.status) && LeftBehind(m.Now().procs, id))
              || (r.status == Running && !w.calm)
  {
    ghost var start := m.Now();
    var missed := EndRow(m, w, id);
    if w.calm && Reachable(start) { EndedAtRemoval(w, start, m.Now()); }
    Unregister(m, w, id, missed, start);
    if Reachable(start) && CanSwap(start.rows, id, Running) && id in m.Now().rows { GoneIsSealed(w, start, m.Now(), id); }
  }

  lemma GoneIsSealed(w: World, start: State, t: State, id: JobId)
    requires Reachable(start) && EnabledM(start, Lock(id)) && CanSwap(start.rows, id, Running)
    requires Reaches(w, start, t) && id in t.rows
    ensures Sealed(t.rows[id], t.procs, id)
  {
    ReachableInv(start);
    QuietUntilServing(start);
    assert EntryOk(id, start.svc.workers[id], start.rows, start.procs, start.svc.life, start.svc.pass);
    var steps: seq<Step> :| Runs(start, steps) && Last(start, steps) == t && forall i :: 0 <= i < |steps| ==> Admits(w, steps[i]);
    forall i | 0 <= i < |steps| ensures !steps[i].Crash? { assert Admits(w, steps[i]); }
    GoneEnds(start, steps, id);
  }

  /** The end of the critical section, and the callback after it. */
  method Unregister(m: Machine, w: World, id: JobId, missed: bool, ghost start: State)
    requires w.self == Handler
    requires m.From(w, start) && m.Now().svc.mon == Removing(id, missed) && !w.still
    modifies m, m.monitor
    ensures m.From(w, start) && m.Now().rows == old(m.Now()).rows
    ensures id !in m.monitor.workers && m.Now().svc.mon.Free? && m.triggerCh
  {
    RemoveEntry(m, w, id, missed, start);
    SendOwedTrigger(m, w, start);
  }

  method EndRow(m: Machine, w: World, id: JobId) returns (missed: bool)
    requires w.self == Handler
    requires EnabledM(m.Now(), Lock(id)) && !w.still
    modifies m, m.store, m.monitor
    ensures m.From(w, old(m.Now())) && m.Now().svc.mon == Removing(id, missed) && (missed ==> !w.calm)
  {
    ghost var start := m.Now();
    HoldMutex(m, Locked(id));
    ReachesOne(w, start, M(Lock(id)));
    m.Pause(w, start);
    var failing, unread := ReadEndedRow(m, w, id, start);
    missed := unread;
    if failing { missed := FailEndedRow(m, w, id, start); }
  }

  lemma EndedAtRemoval(w: World, start: State, s: State)
    requires Reachable(start) && Reaches(w, start, s) && s.svc.mon.Removing? && !s.svc.mon.missed
    ensures !CanSwap(s.rows, s.svc.mon.id, Running) && !CanSwap(s.rows, s.svc.mon.id, Queued)
  {
    StaysReachable(w, start, s);
    ReachableInv(s);
    RegisteredNotQueued(s, s.svc.mon.id);
  }

  method RemoveEntry(m: Machine, w: World, id: JobId, missed: bool, ghost start: State)
    requires w.self == Handler
    requires m.From(w, start) && m.Now().svc.mon == Removing(id, missed) && !w.still
    modifies m, m.monitor
    ensures m.From(w, start) && m.Now() == Exec(old(m.Now()), M(Protocol.Remove))
  {
    ghost var s := m.Now();
    var stillRunning := CanSwap(m.store.rows, id, Running);
    m.monitor.Remove(id);
    var svc, gate := m.rest.svc, m.rest.gate;
    m.rest := m.rest.(svc := svc.(mon := Free, lost := if stillRunning then svc.lost + {id} else svc.lost),
                      gate := gate.(owed := gate.owed + 1, stale := true));
    ReachesThen(w, start, s, M(Protocol.Remove));
  }

  /** The callback after the mutex is released. */
  method SendOwedTrigger(m: Machine, ghost w: World, ghost start: State)
    requires w.self == Handler || w.self.Refresher?
    requires m.From(w, start) && m.rest.gate.owed > 0
    modifies m
    ensures m.From(w, start) && m.triggerCh && m.Now() == Exec(old(m.Now()), G(Fire))
  {
    ghost var s := m.Now();
    m.rest := m.rest.(gate := m.rest.gate.(owed := m.rest.gate.owed - 1));
    TriggerEvaluation(m);
    ReachesThen(w, start, s, G(Fire));
  }

  method ReadEndedRow(m: Machine, w: World, id: JobId, ghost start: State) returns (failing: bool, missed: bool)
    requires w.self == Handler
    requires m.From(w, start) && m.Now().svc.mon == Locked(id) && !w.still
    modifies m, m.store, m.monitor
    ensures failing == (w.Up(old(m.moment)) && CanSwap(old(m.Now()).rows, id, Running)) && (missed ==> !w.calm)
    ensures m.From(w, start) && m.Now().svc.mon == if failing then Failing(id) else Removing(id, missed)
  {
    ghost var s := m.Now();
    var up := w.Up(m.moment);
    failing, missed := false, !up;
    if up {
      var row := m.store.GetByID(id);
      failing := row.Some? && row.value.status == Running;
    }
    HoldMutex(m, if failing then Failing(id) else Removing(id, missed));
    ReachesThen(w, start, s, M(ReadRow(up)));
    m.Pause(w, start);
  }

  method FailEndedRow(m: Machine, w: World, id: JobId, ghost start: State) returns (missed: bool)
    requires w.self == Handler
    requires m.From(w, start) && m.Now().svc.mon == Failing(id) && !w.still
    modifies m, m.store, m.monitor
    ensures missed == !w.Up(old(m.moment))
    ensures m.From(w, start) && m.Now().svc.mon == Removing(id, missed)
  {
    ghost var s := m.Now();
    var up, now := w.Up(m.moment), w.now(m.moment);
    missed := !up;
    if up { var won := m.store.UpdateStatus(id, Running, Failed, Ended(now, "unexpected worker termination")); }
    HoldMutex(m, Removing(id, missed));
    ReachesThen(w, start, s, M(Fail(up, now)));
    m.Pause(w, start);
  }

  // ---- the refresh scheduler ---------------------------------------------------

  method SchedGoto(m: Machine, t: TaskType, pc: SchedPc)
    modifies m
    ensures m.Now() == SchedTo(old(m.Now()), t, pc) && m.moment == old(m.moment)
  {
    m.rest := SchedTo(m.rest, t, pc);
  }

  /** Whether a listed job has the type; a list call that fails counts as no. */
  method ListHasType(m: Machine, w: World, t: TaskType, st: Status) returns (found: bool)
    ensures found == (w.Up(m.moment) && AnyOfType(m.store.rows, t, st))
  {
    if !w.Up(m.moment) { return false; }
    var ids := m.store.ListByStatus(st);
    found := FindType(m.store.rows, ids, t, st);
  }

  method FindType(rows: Table, ids: seq<JobId>, t: TaskType, st: Status) returns (found: bool)
    requires Matching(rows, st, ids)
    ensures found == AnyOfType(rows, t, st)
  {
    for i := 0 to |ids|
      invariant forall k :: 0 <= k < i ==> rows[ids[k]].job.taskType != t
    {
      if rows[ids[i]].job.taskType == t { return true; }
    }
    return false;
  }

  method ReadQueuedJobs(m: Machine, w: World, t: TaskType, ghost start: State) returns (found: bool)
    requires w.self == Refresher(t)
    requires m.From(w, start) && RefreshType(t) && m.Now().svc.boot.Serving? && SchedAt(m.Now(), t).Resting?
    modifies m
    ensures m.From(w, start) && m.moment == old(m.moment)
    ensures found == (w.Up(old(m.moment)) && AnyOfType(old(m.Now()).rows, t, Queued))
    ensures m.Now() == SchedTo(old(m.Now()), t, if found then Resting else NoneQueued(w.Up(old(m.moment))))
  {
    ghost var s := m.Now();
    var up := w.Up(m.moment);
    found := ListHasType(m, w, t, Queued);
    SchedGoto(m, t, if found then Resting else NoneQueued(up));
    ReachesThen(w, start, s, S(t, ReadQueued(up)));
  }

  method ReadRunningJobs(m: Machine, w: World, t: TaskType, ghost start: State) returns (found: bool)
    requires w.self == Refresher(t)
    requires m.From(w, start) && RefreshType(t) && m.Now().svc.boot.Serving? && SchedAt(m.Now(), t).NoneQueued?
    modifies m
    ensures m.From(w, start) && m.moment == old(m.moment)
    ensures found == (w.Up(old(m.moment)) && AnyOfType(old(m.Now()).rows, t, Running))
    ensures var up, sure := w.Up(old(m.moment)), SchedAt(old(m.Now()), t).sure;
            m.Now() == SchedTo(old(m.Now()), t, if found then Resting else NoneActive(up && sure))
  {
    ghost var s := m.Now();
    var up := w.Up(m.moment);
    found := ListHasType(m, w, t, Running);
    SchedGoto(m, t, if found then Resting else NoneActive(up && SchedAt(m.rest, t).sure));
    ReachesThen(w, start, s, S(t, ReadRunning(up)));
  }

  /** At some state on the way an active row of the type was in the table. */
  ghost predicate TypeSeen(w: World, before: State, now: State, t: TaskType) {
    exists seen :: Reaches(w, before, seen) && Reaches(w, seen, now) && ActiveOfType(seen.rows, t)
  }

  predicate ActiveOfType(rows: Table, t: TaskType) {
    AnyOfType(rows, t, Queued) || AnyOfType(rows, t, Running)
  }

  /** Two separate list calls, queued first. What is found was in the table. */
  method HasExistingRefresh(m: Machine, w: World, t: TaskType, ghost start: State) returns (found: bool)
    requires w.self == Refresher(t)
    requires m.From(w, start) && RefreshType(t) && m.Now().svc.boot.Serving? && SchedAt(m.Now(), t).Resting?
    requires start == m.Now()
    modifies m, m.store, m.monitor
    ensures m.From(w, start) && m.Now().svc.boot.Serving?
    ensures if found then SchedAt(m.Now(), t).Resting? else SchedAt(m.Now(), t).NoneActive?
    ensures w.calm && !found ==> SchedAt(m.Now(), t).sure
    ensures w.Up(old(m.moment)) && AnyOfType(start.rows, t, Queued) ==> found
    ensures found ==> TypeSeen(w, start, m.Now(), t)
    ensures OnlyOneMakes(w, start, m.Now())
  {
    found := LookAndPause(m, w, t, Queued, start);
    if !found {
      ghost var s := m.Now();
      ReachesSelf(w, s);
      found := LookAndPause(m, w, t, Running, s);
      OnlyOneTrans(w, start, s, m.Now());
      ReachesTrans(w, start, s, m.Now());
      if found { SeenSince(w, start, s, m.Now(), t); }
    }
  }

  lemma SeenSince(w: World, before: State, mid: State, now: State, t: TaskType)
    requires Reaches(w, before, mid) && TypeSeen(w, mid, now, t)
    ensures TypeSeen(w, before, now, t)
  {
    var seen :| Reaches(w, mid, seen) && Reaches(w, seen, now) && ActiveOfType(seen.rows, t);
    ReachesTrans(w, before, mid, seen);
  }

  /** One of the two list calls. */
  method LookAndPause(m: Machine, w: World, t: TaskType, st: Status, ghost start: State) returns (found: bool)
    requires w.self == Refresher(t) && st in {Queued, Running}
    requires m.From(w, start) && start == m.Now() && RefreshType(t) && m.Now().svc.boot.Serving?
    requires if st == Queued then SchedAt(m.Now(), t).Resting? else SchedAt(m.Now(), t).NoneQueued?
    modifies m, m.store, m.monitor
    ensures m.From(w, start) && m.Now().svc.boot.Serving?
    ensures var pc, up := SchedAt(m.Now(), t), w.Up(old(m.moment));
            pc == if found then Resting else if st == Queued then NoneQueued(up) else NoneActive(up && SchedAt(start, t).sure)
    ensures found == (w.Up(old(m.moment)) && AnyOfType(start.rows, t, st))
    ensures found ==> TypeSeen(w, start, m.Now(), t)
    ensures OnlyOneMakes(w, start, m.Now())
  {
    ReachesSelf(w, start);
    if st == Queued { found := ReadQueuedJobs(m, w, t, start); } else { found := ReadRunningJobs(m, w, t, start); }
    ghost var looked := m.Now();
    m.Pause(w, start);
    if Reachable(start) { StaysReachable(w, start, looked); }
    if found { assert ActiveOfType(start.rows, t); }
  }

  /** One refresh job of the type, queued, has been added, and only one. */
  ghost predicate MadeOne(s: State, s': State, t: TaskType) {
    exists id :: (
      && id !in s.rows && CanSwap(s'.rows, id, Queued) && Refresh(s'.rows[id], t)
      && forall j :: j in s'.rows && j !in s.rows && Refresh(s'.rows[j], t) ==> j == id)
  }

  ghost predicate InsertsOne(s: State, s': State, t: TaskType) {
    exists id, now :: AddsRefresh(s, s', t, id, now)
  }

  predicate AddsRefresh(s: State, s': State, t: TaskType, id: JobId, now: Time) {
    FreshId(s, id) && s'.rows == s.rows[id := NewRow(Job(t, "", "", Scheduled), now)]
  }

  lemma MadeFrom(w: World, start: State, mid: State, now: State, t: TaskType)
    requires Reachable(start) && Reaches(w, start, mid) && NoNewRefresh(start, mid, t) && InsertsOne(mid, now, t)
    ensures MadeOne(start, now, t)
  {
    Onward(w, start, mid);
    var id, time :| AddsRefresh(mid, now, t, id, time);
    assert id in start.rows ==> RowForward(id, start.rows[id], mid.rows, mid.purged);
    assert id !in start.rows && CanSwap(now.rows, id, Queued) && Refresh(now.rows[id], t);
  }

  /** One tick of a refresh loop: exactly one job of the type is created, or none, and none
      only if one was there or a store call failed. */
  method MaybeCreateRefreshJob(m: Machine, w: World, t: TaskType) returns (created: bool)
    requires w.self == Refresher(t)
    requires RefreshType(t) && m.Now().svc.boot.Serving? && SchedAt(m.Now(), t).Resting?
    requires w.still ==> m.Now().svc.mon.Free?
    modifies m, m.store, m.monitor
    ensures m.From(w, old(m.Now())) && SchedAt(m.Now(), t).Resting?
    ensures w.Up(old(m.moment)) && AnyOfType(old(m.Now()).rows, t, Queued) ==> !created
    ensures Reachable(old(m.Now())) ==>
              if created then MadeOne(old(m.Now()), m.Now(), t) else NoNewRefresh(old(m.Now()), m.Now(), t)
    ensures !created && w.calm ==> TypeSeen(w, old(m.Now()), m.Now(), t)
  {
    ghost var start := m.Now();
    ReachesSelf(w, start);
    created := false;
    var found := HasExistingRefresh(m, w, t, start);
    if !found {
      ghost var mid := m.Now();
      created := MakeRefreshJob(m, w, t, start);
      if created && Reachable(start) { MadeFrom(w, start, mid, m.Now(), t); }
    }
  }

  method MakeRefreshJob(m: Machine, w: World, t: TaskType, ghost start: State) returns (made: bool)
    requires w.self == Refresher(t)
    requires m.From(w, start) && RefreshType(t) && m.Now().svc.boot.Serving? && SchedAt(m.Now(), t).NoneActive?
    modifies m, m.store
    ensures m.From(w, start) && SchedAt(m.Now(), t).Resting? && made == w.Up(old(m.moment))
    ensures if made then InsertsOne(old(m.Now()), m.Now(), t) else m.Now().rows == old(m.Now()).rows
  {
    made := TryInsert(m, w, t, start);
    if made {
      ghost var id, now :| AddsRefresh(old(m.Now()), m.Now(), t, id, now);
      SendOwedTrigger(m, w, start);
      assert AddsRefresh(old(m.Now()), m.Now(), t, id, now);
    }
  }

  method TryInsert(m: Machine, w: World, t: TaskType, ghost start: State) returns (made: bool)
    requires w.self == Refresher(t)
    requires m.From(w, start) && RefreshType(t) && m.Now().svc.boot.Serving? && SchedAt(m.Now(), t).NoneActive?
    modifies m, m.store
    ensures m.From(w, start) && SchedAt(m.Now(), t).Resting? && made == w.Up(old(m.moment))
    ensures made ==> m.rest.gate.owed > 0
    ensures if made then InsertsOne(old(m.Now()), m.Now(), t) else m.Now().rows == old(m.Now()).rows
  {
    ghost var s := m.Now();
    made := w.Up(m.moment);
    var id := Unused(m.store.rows.Keys + m.rest.purged);
    var now := w.now(m.moment);
    InsertJob(m, t, id, now, made);
    ReachesThen(w, start, s, S(t, Make(made, id, now)));
    if made { assert AddsRefresh(s, m.Now(), t, id, now); }
  }

  method InsertJob(m: Machine, t: TaskType, id: JobId, now: Time, up: bool)
    requires EnabledS(m.Now(), t, Make(up, id, now))
    modifies m, m.store
    ensures m.Now() == Exec(old(m.Now()), S(t, Make(up, id, now)))
  {
    var sure := SchedAt(m.rest, t).sure;
    SchedGoto(m, t, Resting);
    if up {
      var added := m.store.Create(id, NewRow(Job(t, "", "", Scheduled), now));
      m.rest := m.rest.(gate := m.rest.gate.(stale := true, owed := m.rest.gate.owed + 1),
                        sched := m.rest.sched.(unchecked := m.rest.sched.unchecked + IfUnsure(sure, id)));
    }
  }

  // ---- the request loop --------------------------------------------------------

  method ReqGoto(m: Machine, pc: ReqPc)
    modifies m
    ensures m.Now() == ReqAt(old(m.Now()), pc) && m.moment == old(m.moment)
  {
    m.rest := ReqAt(m.rest, pc);
  }

  /** Ack or nack of the delivery in hand. */
  method SettleDelivery(m: Machine, msg: MsgId, tag: nat, place: Place, next: ReqPc)
    modifies m
    ensures m.Now() == Settle(old(m.Now()), msg, tag, place, next) && m.moment == old(m.moment)
  {
    m.rest := Settle(m.rest, msg, tag, place, next);
  }

  predicate SameHistory(a: Net, b: Net) {
    b.settled == a.settled && SameFates(a, b)
  }

  predicate SameFates(a: Net, b: Net) {
    b.stored == a.stored && b.answered == a.answered && b.unsaved == a.unsaved && b.made == a.made
  }

  /** One of three things has come of a request: it was answered as a duplicate, or one row
      was made for it, or a store call failed. */
  predicate Decided(w: World, a: Net, b: Net, msg: MsgId) {
    || (b.answered == a.answered + {msg} && b.stored == a.stored && b.unsaved == a.unsaved && b.made == a.made)
    || (msg in b.stored && b.stored == a.stored[msg := b.stored[msg]] && b.made == a.made + multiset{msg}
        && b.answered == a.answered && b.unsaved == a.unsaved)
    || (!w.calm && b.unsaved == a.unsaved + {msg} && b.stored == a.stored && b.answered == a.answered && b.made == a.made)
  }

  /** One turn of the loop: reject what does not parse, requeue at shutdown, answer a
      duplicate, or persist and then acknowledge. It settles its delivery, once. */
  method HandleRequest(m: Machine, w: World, msg: MsgId, shutdown: bool)
    requires w.self == Requests
    requires EnabledR(m.Now(), Deliver(msg)) && (w.still ==> m.Now().svc.mon.Free?)
    modifies m, m.store, m.monitor
    ensures m.From(w, old(m.Now()))
    ensures var a, b := old(m.Now()).net, m.Now().net;
            && b.req == (if shutdown && a.msgs[msg].ok then Halted else Waiting)
            && b.settled == a.settled + multiset{a.tags}
            && (if a.msgs[msg].ok && !shutdown then Decided(w, a, b, msg) else SameFates(a, b))
  {
    ghost var start := m.Now();
    var net := m.rest.net;
    var tag, request := net.tags, net.msgs[msg];
    Receive(m, w, msg, start);
    if !request.ok || shutdown {
      ghost var s := m.Now();
      SettleDelivery(m, msg, tag, if request.ok then InQueue else Dropped, if request.ok then Halted else Waiting);
      ReachesThen(w, start, s, R(if request.ok then Requeue else Discard));
    } else {
      var conflict := CheckForConflict(m, w, msg, tag, request.job, start);
      if conflict {
        RejectDuplicate(m, w, msg, tag, start);
      } else {
        var saved, mid := Persist(m, w, msg, tag, request.job, start);
      }
    }
  }

  method Receive(m: Machine, w: World, msg: MsgId, ghost start: State)
    requires w.self == Requests
    requires EnabledR(m.Now(), Deliver(msg)) && start == m.Now() && (w.still ==> m.Now().svc.mon.Free?)
    modifies m, m.store, m.monitor
    ensures m.From(w, start) && m.Now().svc.boot.Serving? && m.Now().net.req == Got(msg, start.net.tags)
    ensures msg in m.Now().net.msgs && SameMsg(start.net.msgs[msg], m.Now().net.msgs[msg])
    ensures SameHistory(start.net, m.Now().net)
  {
    var net := m.rest.net;
    m.rest := m.rest.(net := net.(req := Got(msg, net.tags), tags := net.tags + 1,
                                  msgs := net.msgs[msg := net.msgs[msg].(place := InFlight(net.tags))]));
    ReachesOne(w, start, R(Deliver(msg)));
    m.Pause(w, start);
  }

  predicate Handling(s: State, msg: MsgId, job: Job) {
    s.svc.boot.Serving? && msg in s.net.msgs && s.net.msgs[msg].job == job && s.net.msgs[msg].ok
  }

  /** The query did not fail, or was not needed. */
  predicate QuerySure(w: World, job: Job, moment: nat) {
    IsWriteTask(job.taskType) ==> w.Up(moment)
  }

  /** Only write tasks are checked, and a query that fails counts as no conflict. */
  method CheckForConflict(m: Machine, w: World, msg: MsgId, tag: nat, job: Job, ghost start: State) returns (conflict: bool)
    requires w.self == Requests
    requires m.From(w, start) && Handling(m.Now(), msg, job) && m.Now().net.req == Got(msg, tag)
    modifies m, m.store, m.monitor
    ensures m.From(w, start) && Handling(m.Now(), msg, job) && SameHistory(old(m.Now()).net, m.Now().net)
    ensures conflict == (IsWriteTask(job.taskType) && w.Up(old(m.moment)) && HasConflict(old(m.Now()).rows, job))
    ensures m.Now().net.req == if conflict then Conflicting(msg, tag) else Clear(msg, tag, QuerySure(w, job, old(m.moment)))
  {
    ghost var s := m.Now();
    conflict := AskStore(m, w, job);
    ReqGoto(m, if conflict then Conflicting(msg, tag) else Clear(msg, tag, QuerySure(w, job, m.moment)));
    ReachesThen(w, start, s, R(CheckConflict(w.Up(old(m.moment)))));
    m.Pause(w, start);
  }

  method AskStore(m: Machine, w: World, job: Job) returns (conflict: bool)
    ensures conflict == (IsWriteTask(job.taskType) && w.Up(m.moment) && HasConflict(m.store.rows, job))
  {
    conflict := false;
    if IsWriteTask(job.taskType) {
      if w.Up(m.moment) { conflict := m.store.HasConflict(job); }
    }
  }

  method RejectDuplicate(m: Machine, w: World, msg: MsgId, tag: nat, ghost start: State)
    requires w.self == Requests
    requires m.From(w, start) && m.Now().net.req == Conflicting(msg, tag)
    modifies m, m.store, m.monitor
    ensures m.From(w, start) && m.Now().net.req == Waiting
    ensures var a, b := old(m.Now()).net, m.Now().net;
            && b.settled == a.settled + multiset{tag} && b.answered == a.answered + {msg}
            && b.stored == a.stored && b.unsaved == a.unsaved && b.made == a.made
  {
    ghost var s := m.Now();
    var net := m.rest.net;
    m.rest := m.rest.(net := net.(req := Answered(msg, tag), answered := net.answered + {msg},
                                  astray := net.astray + Overtaken(net, msg, tag)));
    ReachesThen(w, start, s, R(Answer));
    m.Pause(w, start);
    s := m.Now();
    SettleDelivery(m, msg, tag, Acked, Waiting);
    ReachesThen(w, start, s, R(AckConflict));
  }

  /** The row of the request is in the table, and its delivery is not settled yet. */
  ghost predicate StoredUnsettled(before: State, mid: State, msg: MsgId, job: Job) {
    && mid.net.settled == before.net.settled && msg in mid.net.stored && mid.net.stored[msg] in mid.rows
    && mid.rows[mid.net.stored[msg]].job == job && mid.rows[mid.net.stored[msg]].status == Queued
  }

  /** The row first, the acknowledgement after it, the trigger last: `mid` is the state
      right after the row was created. */
  method Persist(m: Machine, w: World, msg: MsgId, tag: nat, job: Job, ghost start: State)
    returns (saved: bool, ghost mid: State)
    requires w.self == Requests
    requires m.From(w, start) && Handling(m.Now(), msg, job) && m.Now().net.req.Clear? && m.Now().net.req.m == msg && m.Now().net.req.tag == tag
    modifies m, m.store, m.monitor
    ensures m.From(w, start) && m.Now().net.req == Waiting && saved == w.Up(old(m.moment))
    ensures m.Now().net.settled == old(m.Now()).net.settled + multiset{tag}
    ensures Decided(w, old(m.Now()).net, m.Now().net, msg) && m.Now().net.answered == old(m.Now()).net.answered
    ensures Reaches(w, old(m.Now()), mid) && Reaches(w, mid, m.Now())
    ensures saved ==> StoredUnsettled(old(m.Now()), mid, msg, job) && m.triggerCh
  {
    ghost var s := m.Now();
    ReachesSelf(w, s);
    saved, mid := CreateRow(m, w, msg, tag, job, s);
    ReachesSelf(w, mid);
    m.Pause(w, mid);
    SettleSaved(m, w, msg, tag, saved, mid);
    ReachesTrans(w, s, mid, m.Now());
    ReachesTrans(w, start, s, m.Now());
  }

  /** The insertion itself, before anyone else moves. */
  method CreateRow(m: Machine, w: World, msg: MsgId, tag: nat, job: Job, ghost start: State) returns (saved: bool, ghost mid: State)
    requires w.self == Requests
    requires m.From(w, start) && Handling(m.Now(), msg, job) && m.Now().net.req.Clear? && m.Now().net.req.m == msg && m.Now().net.req.tag == tag
    modifies m, m.store
    ensures m.From(w, start) && mid == m.Now() && mid.net.req == (if saved then Saved(msg, tag) else Unsaved(msg, tag))
    ensures saved == w.Up(old(m.moment)) && mid.net.settled == old(m.Now()).net.settled && mid.svc.boot.Serving?
    ensures Decided(w, old(m.Now()).net, mid.net, msg) && mid.net.answered == old(m.Now()).net.answered
    ensures saved ==> StoredUnsettled(old(m.Now()), mid, msg, job)
  {
    ghost var s := m.Now();
    var now := w.now(m.moment);
    saved := w.Up(m.moment);
    var id := Unused(m.store.rows.Keys + m.rest.purged);
    var net := m.rest.net;
    if saved {
      var added := m.store.Create(id, NewRow(job, now));
      m.rest := m.rest.(gate := m.rest.gate.(stale := true),
                        net := net.(req := Saved(msg, tag), stored := net.stored[msg := id],
                                    made := net.made + multiset{msg},
                                    unchecked := net.unchecked + IfUnsure(net.req.sure, id), astray := net.astray + Overtaken(net, msg, tag)));
    } else {
      m.rest := m.rest.(net := net.(req := Unsaved(msg, tag), unsaved := net.unsaved + {msg}));
    }
    ReachesThen(w, start, s, R(Create(saved, id, now)));
    mid := m.Now();
  }

  method SettleSaved(m: Machine, w: World, msg: MsgId, tag: nat, saved: bool, ghost start: State)
    requires w.self == Requests
    requires m.From(w, start) && m.Now().net.req == if saved then Saved(msg, tag) else Unsaved(msg, tag)
    modifies m, m.store, m.monitor
    ensures m.From(w, start) && m.Now().net.req == Waiting && (saved ==> m.triggerCh)
    ensures m.Now().net.settled == old(m.Now()).net.settled + multiset{tag} && SameFates(old(m.Now()).net, m.Now().net)
  {
    if saved {
      AckAndTrigger(m, w, msg, tag, start);
    } else {
      ghost var s := m.Now();
      SettleDelivery(m, msg, tag, Dropped, Waiting);
      ReachesThen(w, start, s, R(NackUnsaved));
    }
  }

  method AckAndTrigger(m: Machine, w: World, msg: MsgId, tag: nat, ghost start: State)
    requires w.self == Requests
    requires m.From(w, start) && m.Now().net.req == Saved(msg, tag)
    modifies m, m.store, m.monitor
    ensures m.From(w, start) && m.Now().net.req == Waiting && m.triggerCh
    ensures m.Now().net.settled == old(m.Now()).net.settled + multiset{tag} && SameFates(old(m.Now()).net, m.Now().net)
  {
    ghost var s := m.Now();
    SettleDelivery(m, msg, tag, Acked, Notify);
    ReachesThen(w, start, s, R(AckSaved));
    m.Pause(w, start);
    s := m.Now();
    TriggerEvaluation(m);
    ReqGoto(m, Waiting);
    ReachesThen(w, start, s, R(Trigger));
  }

  // ---- the worker process ------------------------------------------------------

  /** What came of the work: every failure ends in the same kind of status write. */
  datatype Outcome = Succeeded | NotConnected(error: string) | NotPublished(error: string) | TaskFailed(error: string)

  method SetPhase(m: Machine, pid: Pid, p: Proc)
    modifies m
    ensures m.Now() == old(m.Now()).(procs := old(m.Now()).procs[pid := p]) && m.moment == old(m.moment)
  {
    m.rest := m.rest.(procs := m.rest.procs[pid := p]);
  }

  function StatusOf(outcome: Outcome): Status {
    if outcome.Succeeded? then Completed else Failed
  }

  function ErrorOf(outcome: Outcome): string {
    if outcome.Succeeded? then "" else outcome.error
  }

  /** On the way the worker has written that status and message, and a calm store took it. */
  ghost predicate Wrote(w: World, start: State, t: State, pid: Pid, to: Status, error: string) {
    exists s, ok, now :: (
      && Reaches(w, start, s) && EnabledW(s, pid, Finish(ok, to, now, error)) && (w.calm ==> ok)
      && Reaches(w, Exec(s, W(pid, Finish(ok, to, now, error))), t))
  }

  /** A worker: refuse a row that does not say running; work; one status write of what came
      of the work; exit. It works exactly when the row says running, and if the store answers
      the row does not say so any more when it is gone. */
  method RunJob(m: Machine, w: World, pid: Pid, outcome: Outcome)
    requires w.self == Worker(pid)
    requires EnabledW(m.Now(), pid, Check(true)) && !m.Now().procs[pid].ran && (w.still ==> m.Now().svc.mon.Free?)
    modifies m, m.store, m.monitor
    ensures m.From(w, old(m.Now())) && pid in m.Now().procs && pid in old(m.Now()).procs
    ensures m.Now().procs[pid].phase == Exited && m.Now().procs[pid].id == old(m.Now()).procs[pid].id
    ensures m.Now().procs[pid].ran == (w.Up(old(m.moment)) && CanSwap(old(m.Now()).rows, m.Now().procs[pid].id, Running))
    ensures w.calm && Reachable(old(m.Now())) && m.Now().procs[pid].ran ==> !CanSwap(m.Now().rows, m.Now().procs[pid].id, Running)
    ensures m.Now().procs[pid].ran ==>
              Wrote(w, old(m.Now()), m.Now(), pid, if outcome.Succeeded? then Completed else Failed,
                    if outcome.Succeeded? then "" else outcome.error)
  {
    ghost var start := m.Now();
    var run := CheckStatus(m, w, pid);
    ghost var s := m.Now();
    if run {
      ReachesSelf(w, s);
      m.Pause(w, s);
      FinishJob(m, w, pid, outcome, s);
      WroteEarlier(w, start, s, m.Now(), pid, StatusOf(outcome), ErrorOf(outcome));
    }
  }

  method CheckStatus(m: Machine, w: World, pid: Pid) returns (run: bool)
    requires w.self == Worker(pid)
    requires EnabledW(m.Now(), pid, Check(true)) && (w.still ==> m.Now().svc.mon.Free?)
    modifies m
    ensures run == (w.Up(m.moment) && CanSwap(old(m.Now()).rows, old(m.Now()).procs[pid].id, Running)) && m.moment == old(m.moment)
    ensures m.From(w, old(m.Now())) && m.Now() == Exec(old(m.Now()), W(pid, Check(w.Up(m.moment))))
  {
    ghost var start := m.Now();
    var p, up := m.rest.procs[pid], w.Up(m.moment);
    run := false;
    if up {
      var row := m.store.GetByID(p.id);
      run := row.Some? && row.value.status == Running;
    }
    SetPhase(m, pid, if run then p.(phase := Working, ran := true) else p.(phase := Exited));
    ReachesOne(w, start, W(pid, Check(up)));
  }

  /** Whatever came of the work, one compare-and-swap from running. */
  method FinishJob(m: Machine, w: World, pid: Pid, outcome: Outcome, ghost start: State)
    requires w.self == Worker(pid)
    requires m.From(w, start) && pid in m.Now().procs && m.Now().procs[pid].phase == Working
    modifies m, m.store, m.monitor
    ensures m.From(w, start) && pid in old(m.Now()).procs
    ensures pid in m.Now().procs && m.Now().procs[pid] == old(m.Now()).procs[pid].(phase := Exited)
    ensures w.calm && Reachable(start) && CanSwap(start.rows, m.Now().procs[pid].id, Running) ==>
              !CanSwap(m.Now().rows, m.Now().procs[pid].id, Running)
    ensures Wrote(w, start, m.Now(), pid, StatusOf(outcome), ErrorOf(outcome))
  {
    ghost var s0, at := m.Now(), w.now(m.moment);
    ghost var ok := w.Up(m.moment);
    WriteOutcome(m, w, pid, outcome, start);
    ghost var t, id := m.Now(), m.rest.procs[pid].id;
    ReachesSelf(w, t);
    m.Pause(w, t);
    ghost var s := m.Now();
    SetPhase(m, pid, m.rest.procs[pid].(phase := Exited));
    ReachesThen(w, t, s, W(pid, Exit));
    ReachesTrans(w, start, t, m.Now());
    assert t == Exec(s0, W(pid, Finish(ok, StatusOf(outcome), at, ErrorOf(outcome))));
    if w.calm && Reachable(start) && CanSwap(start.rows, id, Running) { NeverRunsAgain(w, start, t, m.Now(), id); }
  }

  lemma WroteEarlier(w: World, start: State, s: State, t: State, pid: Pid, to: Status, error: string)
    requires Reaches(w, start, s) && Reaches(w, s, t) && Wrote(w, s, t, pid, to, error)
    ensures Reaches(w, start, t) && Wrote(w, start, t, pid, to, error) && (Reachable(start) ==> Reachable(s))
  {
    ReachesTrans(w, start, s, t);
    if Reachable(start) { StaysReachable(w, start, s); }
    var x, ok, now :| Reaches(w, s, x) && EnabledW(x, pid, Finish(ok, to, now, error)) && (w.calm ==> ok)
                      && Reaches(w, Exec(x, W(pid, Finish(ok, to, now, error))), t);
    ReachesTrans(w, start, s, x);
  }

  lemma NeverRunsAgain(w: World, start: State, t: State, u: State, id: JobId)
    requires Reachable(start) && Reaches(w, start, t) && Reaches(w, t, u)
    requires CanSwap(start.rows, id, Running) && !CanSwap(t.rows, id, Running)
    ensures !CanSwap(u.rows, id, Running)
  {
    Onward(w, start, t);
    Onward(w, t, u);
    assert RowForward(id, start.rows[id], t.rows, t.purged);
    if id in t.rows { assert RowForward(id, t.rows[id], u.rows, u.purged); }
  }

  method WriteOutcome(m: Machine, w: World, pid: Pid, outcome: Outcome, ghost start: State)
    requires w.self == Worker(pid)
    requires m.From(w, start) && pid in m.Now().procs && m.Now().procs[pid].phase == Working
    modifies m, m.store
    ensures m.From(w, start) && pid in old(m.Now()).procs && pid in m.Now().procs
    ensures m.Now().procs[pid] == old(m.Now()).procs[pid].(phase := Finished)
    ensures var id := m.Now().procs[pid].id;
            w.Up(m.moment) ==> !CanSwap(m.Now().rows, id, Running) && (CanSwap(old(m.Now()).rows, id, Running) ==>
              CanSwap(m.Now().rows, id, if outcome.Succeeded? then Completed else Failed))
    ensures m.moment == old(m.moment)
    ensures m.Now() == Exec(old(m.Now()), W(pid, Finish(w.Up(m.moment), StatusOf(outcome), w.now(m.moment), ErrorOf(outcome))))
  {
    ghost var s := m.Now();
    var p, up, now := m.rest.procs[pid], w.Up(m.moment), w.now(m.moment);
    var to, error := StatusOf(outcome), ErrorOf(outcome);
    if up { var won := m.store.UpdateStatus(p.id, Running, to, Ended(now, error)); }
    SetPhase(m, pid, p.(phase := Finished));
    ReachesThen(w, start, s, W(pid, Finish(up, to, now, error)));
  }

  // ---- startup recovery --------------------------------------------------------

  method BootGoto(m: Machine, pc: BootPc)
    modifies m
    ensures m.Now() == BootAt(old(m.Now()), pc) && m.moment == old(m.moment)
  {
    m.rest := BootAt(m.rest, pc);
  }

  method ListRunningJobs(m: Machine, w: World, ghost start: State) returns (running: seq<(JobId, Pid)>)
    requires w.self == Recovery
    requires m.From(w, start) && m.Now().svc.boot.Booting?
    modifies m, m.store, m.monitor
    ensures m.From(w, start) && m.Now().svc.boot == Recovering(running)
  {
    ghost var s := m.Now();
    var up := w.Up(m.moment);
    running := [];
    if up {
      var ids := m.store.ListByStatus(Running);
      running := Pids(m.store.rows, ids);
      BootGoto(m, Recovering(running));
      ReachesThen(w, start, s, B(ListRunning(true, ids)));
    } else {
      BootGoto(m, Recovering([]));
      ReachesThen(w, start, s, B(ListRunning(false, [])));
    }
  }

  /** Every row that says running: failed if no process is recorded for it or the
      recorded one is dead, left alone otherwise. If the store answers, the table is then
      restored, whatever the surviving workers did meanwhile. */
  method RecoverOrphanedJobs(m: Machine, w: World)
    requires w.self == Recovery
    requires m.Now().svc.boot.Booting? && (w.still ==> m.Now().svc.mon.Free?)
    modifies m, m.store, m.monitor
    ensures m.From(w, old(m.Now())) && m.Now().svc.boot == Recovering([])
    ensures w.calm && Reachable(old(m.Now())) ==>
              Restored(old(m.Now()).rows, old(m.Now()).procs, m.Now().rows, m.Now().procs)
  {
    ghost var start := m.Now();
    ReachesSelf(w, start);
    var running := ListRunningJobs(m, w, start);
    for i := 0 to |running|
      invariant m.From(w, start) && m.Now().svc.boot == Recovering(running[i..])
    {
      m.Pause(w, start);
      assert running[i..][1..] == running[i + 1..];
      ExamineJob(m, w, running[i], running[i + 1..], start);
    }
    if w.calm && Reachable(start) { CalmRecovery(w, start, m.Now()); }
  }

  lemma CalmRecovery(w: World, start: State, t: State)
    requires w.calm && Reachable(start) && start.svc.boot.Booting? && Reaches(w, start, t)
    requires t.svc.boot == Recovering([])
    ensures Restored(start.rows, start.procs, t.rows, t.procs)
  {
    var steps :| Runs(start, steps) && Last(start, steps) == t && forall i :: 0 <= i < |steps| ==> Admits(w, steps[i]);
    forall i | 0 <= i < |steps| ensures RecoverySteps(steps[i]) { assert Admits(w, steps[i]); }
    ReachableInv(start);
    QuietUntilServing(start);
    RecHere(start);
    RecRun(start.rows, start.procs, start, steps);
    RecDone(start.rows, start.procs, t);
  }

  method ExamineJob(m: Machine, w: World, job: (JobId, Pid), todo: seq<(JobId, Pid)>, ghost start: State)
    requires w.self == Recovery
    requires m.From(w, start) && m.Now().svc.boot.Recovering? && m.Now().svc.boot.todo != []
    requires m.Now().svc.boot.todo[0] == job && m.Now().svc.boot.todo[1..] == todo
    modifies m, m.store, m.monitor
    ensures m.From(w, start) && m.Now().svc.boot == Recovering(todo)
  {
    ghost var s := m.Now();
    var (id, pid) := job;
    var alive := pid != 0 && Alive(m.rest.procs, pid);
    BootGoto(m, if alive then Recovering(todo) else Condemning(id, todo));
    ReachesThen(w, start, s, B(Examine));
    if !alive {
      m.Pause(w, start);
      MarkJobFailed(m, w, id, todo, start);
    }
  }

  method MarkJobFailed(m: Machine, w: World, id: JobId, todo: seq<(JobId, Pid)>, ghost start: State)
    requires w.self == Recovery
    requires m.From(w, start) && m.Now().svc.boot == Condemning(id, todo)
    modifies m, m.store
    ensures m.From(w, start) && m.Now().svc.boot == Recovering(todo)
    ensures w.Up(m.moment) ==> !CanSwap(m.Now().rows, id, Running)
  {
    ghost var s := m.Now();
    var up, now := w.Up(m.moment), w.now(m.moment);
    if up { var won := m.store.UpdateStatus(id, Running, Failed, Ended(now, "orphaned job")); }
    BootGoto(m, Recovering(todo));
    ReachesThen(w, start, s, B(Condemn(up, now)));
  }

  /** Recovery, then the first trigger, then everyone starts. */
  method StartService(m: Machine, w: World)
    requires w.self == Recovery
    requires m.Now().svc.boot.Booting? && (w.still ==> m.Now().svc.mon.Free?)
    modifies m, m.store, m.monitor
    ensures w.calm && Reachable(old(m.Now())) ==>
              Restored(old(m.Now()).rows, old(m.Now()).procs, m.Now().rows, m.Now().procs)
    ensures m.From(w, old(m.Now())) && m.Now().svc.boot.Serving? && m.triggerCh
  {
    ghost var start := m.Now();
    RecoverOrphanedJobs(m, w);
    ghost var s := m.Now();
    TriggerEvaluation(m);
    BootGoto(m, Serving);
    ReachesThen(w, start, s, B(Serve));
  }
}
