/** Deliveries that get lost: a request makes one row or one answer as long as none of its
    deliveries is lost after the loop has stored or answered it, and may make more wherever
    one was. */
module Delivery {
  import opened Clock
  import opened Jobs
  import opened Protocol
  import opened Safety
  import opened Registry
  import opened Execution
  import opened Clients
  import opened Agent

  // ---- while no delivery is lost -----------------------------------------------------

  predicate Handled(net: Net, m: MsgId) {
    m in net.stored || m in net.answered
  }

  /** The request in hand is the broker's current delivery, or waits for the next one. */
  predicate HeldOk(net: Net) {
    Holds(net.req) && net.req.m in net.msgs ==>
      net.msgs[net.req.m].place == InFlight(net.req.tag) || net.msgs[net.req.m].place.InQueue?
  }

  /** A request handled once, and not astray, is acked or about to be. */
  predicate Once(net: Net, m: MsgId) {
    && (m in net.stored <==> net.made[m] > 0)
    && (m !in net.astray ==>
          && net.made[m] <= 1 && !(m in net.stored && m in net.answered)
          && (Handled(net, m) ==> m in net.msgs && (net.msgs[m].place.Acked? || m in Unacked(net))))
  }

  ghost predicate OnlyRow(net: Net, rows: Table, id: JobId) {
    id in rows && rows[id].job.origin.Requested? && rows[id].job.origin.msg !in net.astray ==>
      var m := rows[id].job.origin.msg; m in net.stored && net.stored[m] == id
  }

  ghost predicate OnceOk(s: State) {
    HeldOk(s.net) && (forall m :: Once(s.net, m)) && forall id :: OnlyRow(s.net, s.rows, id)
  }

  /** Nothing new is in hand that has been handled before. */
  lemma FirstTime(net: Net)
    requires HeldOk(net) && Holds(net.req) && net.req.m in net.msgs && Unacked(net) == {} && Once(net, net.req.m)
    ensures net.req.m in net.astray || !Handled(net, net.req.m)
  {
  }

  lemma OnceReceive(s: State, r: ReqStep)
    requires NetOk(s) && OnceOk(s) && EnabledR(s, r) && (r.Publish? || r.Deliver? || r.ChannelLost?)
    ensures HeldOk(ExecR(s, r).net) && forall m :: Once(ExecR(s, r).net, m)
  {
    var net, net' := s.net, ExecR(s, r).net;
    forall m ensures Once(net', m) { assert Once(net, m); }
  }

  lemma OnceSettle(s: State, place: Place, next: ReqPc)
    requires NetOk(s) && OnceOk(s) && Holds(s.net.req) && !Holds(next) && !place.InFlight?
    requires (s.net.req.Saved? || s.net.req.Answered?) ==> place.Acked?
    ensures var s' := Settle(s, s.net.req.m, s.net.req.tag, place, next); HeldOk(s'.net) && forall m :: Once(s'.net, m)
  {
    var net, net' := s.net, Settle(s, s.net.req.m, s.net.req.tag, place, next).net;
    assert Unacked(net') == {};
    forall m ensures Once(net', m) {
      assert Once(net, m);
      if m == net.req.m && !net.req.Saved? && !net.req.Answered? { FirstTime(net); }
    }
  }

  lemma OnceMove(s: State, r: ReqStep)
    requires OnceOk(s) && EnabledR(s, r) && (r.CheckConflict? || r.Trigger? || (r.Create? && !r.ok))
    ensures HeldOk(ExecR(s, r).net) && forall m :: Once(ExecR(s, r).net, m)
  {
    var net, net' := s.net, ExecR(s, r).net;
    assert Unacked(net) == Unacked(net') == {};
    forall m ensures Once(net', m) { assert Once(net, m); }
  }

  lemma OnceAnswer(s: State)
    requires NetOk(s) && OnceOk(s) && EnabledR(s, Answer)
    ensures HeldOk(ExecR(s, Answer).net) && forall m :: Once(ExecR(s, Answer).net, m)
  {
    var net, net' := s.net, ExecR(s, Answer).net;
    assert Once(net, net.req.m);
    FirstTime(net);
    forall m ensures Once(net', m) { assert Once(net, m); }
  }

  lemma OnceCreate(s: State, id: JobId, now: Time)
    requires NetOk(s) && OnceOk(s) && EnabledR(s, Create(true, id, now))
    ensures var s' := ExecR(s, Create(true, id, now)); HeldOk(s'.net) && forall m :: Once(s'.net, m)
  {
    var net, net' := s.net, ExecR(s, Create(true, id, now)).net;
    assert Once(net, net.req.m);
    FirstTime(net);
    forall m ensures Once(net', m) { assert Once(net, m); }
  }

  lemma OnceR(s: State, r: ReqStep)
    requires NetOk(s) && OnceOk(s) && EnabledR(s, r)
    ensures HeldOk(ExecR(s, r).net) && forall m :: Once(ExecR(s, r).net, m)
  {
    match r
    case Discard => OnceSettle(s, Dropped, Waiting);
    case Requeue => OnceSettle(s, InQueue, Halted);
    case AckConflict => OnceSettle(s, Acked, Waiting);
    case AckSaved => OnceSettle(s, Acked, Notify);
    case NackUnsaved => OnceSettle(s, Dropped, Waiting);
    case Publish(m, job, ok) => OnceReceive(s, r);
    case Deliver(m) => OnceReceive(s, r);
    case ChannelLost(m) => OnceReceive(s, r);
    case Answer => OnceAnswer(s);
    case Create(ok, id, now) => if ok { OnceCreate(s, id, now); } else { OnceMove(s, r); }
    case _ => OnceMove(s, r);
  }

  lemma OnceCrash(s: State)
    requires NetOk(s) && OnceOk(s)
    ensures HeldOk(ExecCrash(s).net) && forall m :: Once(ExecCrash(s).net, m)
  {
    var net, net' := s.net, ExecCrash(s).net;
    forall m ensures Once(net', m) { assert Once(net, m); }
  }

  lemma AstrayGrows(s: State, step: Step)
    requires Enabled(s, step)
    ensures s.net.astray <= Exec(s, step).net.astray
    ensures !Inserts(step) ==> Exec(s, step).net.stored == s.net.stored
  {
    match step
    case R(r) => AstrayGrowsR(s, r);
    case Crash =>
    case _ => NetUntouched(s, step);
  }

  lemma AstrayGrowsR(s: State, r: ReqStep)
    requires EnabledR(s, r)
    ensures s.net.astray <= ExecR(s, r).net.astray && (!(r.Create? && r.ok) ==> ExecR(s, r).net.stored == s.net.stored)
  {
  }

  lemma RowsOnce(s: State, step: Step)
    requires Base(s) && NetOk(s) && OnceOk(s) && Enabled(s, step)
    ensures forall id :: OnlyRow(Exec(s, step).net, Exec(s, step).rows, id)
  {
    var s' := Exec(s, step);
    AstrayGrows(s, step);
    if Inserts(step) {
      RowsOnceInsert(s, step);
    } else {
      RowsEvolve(s, step);
      forall id ensures OnlyRow(s'.net, s'.rows, id) {
        assert OnlyRow(s.net, s.rows, id);
        if id in s'.rows { assert Follows(s.rows[id], s'.rows[id]); }
      }
    }
  }

  lemma RowsOnceInsert(s: State, step: Step)
    requires NetOk(s) && OnceOk(s) && Enabled(s, step) && Inserts(step)
    ensures forall id :: OnlyRow(Exec(s, step).net, Exec(s, step).rows, id)
  {
    var s' := Exec(s, step);
    var i, job, now := InsertShape(s, step);
    AstrayGrows(s, step);
    if step.R? {
      var m := s.net.req.m;
      assert MsgOk(m, s.net.msgs[m], s.net) && Once(s.net, m);
      FirstTime(s.net);
      assert s'.net.stored == s.net.stored[m := i];
    } else {
      assert s'.net == s.net;
    }
    forall id ensures OnlyRow(s'.net, s'.rows, id) { assert OnlyRow(s.net, s.rows, id); }
  }

  lemma OnceStep(s: State, step: Step)
    requires Base(s) && NetOk(s) && OnceOk(s) && Enabled(s, step)
    ensures OnceOk(Exec(s, step))
  {
    RowsOnce(s, step);
    match step
    case R(r) => OnceR(s, r);
    case Crash => OnceCrash(s);
    case _ => NetUntouched(s, step);
  }

  lemma {:induction false} OnceRun(s: State, steps: seq<Step>)
    requires Inv(s) && OnceOk(s) && Runs(s, steps)
    ensures OnceOk(Last(s, steps))
    decreases |steps|
  {
    if steps != [] {
      OnceStep(s, steps[0]);
      InvStep(s, steps[0]);
      OnceRun(Exec(s, steps[0]), steps[1..]);
    }
  }

  lemma ReachableOnce(s: State)
    requires Reachable(s)
    ensures Inv(s) && OnceOk(s)
  {
    ReachableInv(s);
    var s0, steps :| Init(s0) && Runs(s0, steps) && Last(s0, steps) == s;
    InvInit(s0);
    OnceRun(s0, steps);
  }

  /** As long as no delivery of a request is lost between its row or its answer and the ack,
      the request makes one row or one answer, never two and never both, over all crashes:
      once handled, it is in the loop's hand only to be acked. */
  lemma HandledOnce(s: State, m: MsgId)
    requires Reachable(s) && m !in s.net.astray
    ensures s.net.made[m] <= 1 && !(m in s.net.stored && m in s.net.answered)
    ensures forall id :: id in s.rows && s.rows[id].job.origin == Requested(m) ==> m in s.net.stored && id == s.net.stored[m]
    ensures Handled(s.net, m) ==>
              && m in s.net.msgs && !s.net.msgs[m].place.InQueue?
              && (Holds(s.net.req) && s.net.req.m == m ==> s.net.req.Saved? || s.net.req.Answered?)
  {
    ReachableOnce(s);
    assert Once(s.net, m);
    forall id | id in s.rows && s.rows[id].job.origin == Requested(m) ensures m in s.net.stored && id == s.net.stored[m] {
      assert OnlyRow(s.net, s.rows, id);
    }
  }

  /** How a delivery ends: it is acked only once the request is stored or answered, dropped
      only if it does not parse or its row could not be created, and goes back to the queue
      only if it is lost or the loop stops; and a request in the queue, acked or dropped
      stays there until it is delivered again. */
  lemma HowDeliveriesEnd(s: State, step: Step, m: MsgId)
    requires Reachable(s) && Enabled(s, step) && m in s.net.msgs
    ensures m in Exec(s, step).net.msgs
    ensures var place, place', req := s.net.msgs[m].place, Exec(s, step).net.msgs[m].place, s.net.req;
            place' == place
            || (place.InQueue? && place'.InFlight? && step == R(Deliver(m)))
            || (place.InFlight? && place'.Acked? && (req.Saved? || req.Answered?) && req.m == m)
            || (place.InFlight? && place'.Dropped? && ((req.Got? && !s.net.msgs[m].ok) || req.Unsaved?) && req.m == m)
            || (place.InFlight? && place'.InQueue?
                && (step.Crash? || step == R(ChannelLost(m)) || (step == R(Requeue) && req.Got? && s.net.msgs[m].ok && req.m == m)))
  {
    ReachableInv(s);
    match step
    case R(r) => DeliveryEnds(s, r, m);
    case Crash =>
    case _ => NetUntouched(s, step);
  }

  lemma DeliveryEnds(s: State, r: ReqStep, m: MsgId)
    requires EnabledR(s, r) && m in s.net.msgs
    ensures m in ExecR(s, r).net.msgs
    ensures var place, place', req := s.net.msgs[m].place, ExecR(s, r).net.msgs[m].place, s.net.req;
            place' == place
            || (place.InQueue? && place'.InFlight? && r == Deliver(m))
            || (place.InFlight? && place'.Acked? && (req.Saved? || req.Answered?) && req.m == m)
            || (place.InFlight? && place'.Dropped? && ((req.Got? && !s.net.msgs[m].ok) || req.Unsaved?) && req.m == m)
            || (place.InFlight? && place'.InQueue?
                && (r == ChannelLost(m) || (r == Requeue && req.Got? && s.net.msgs[m].ok && req.m == m)))
  {
  }

  predicate Queueing(net: Net, m: MsgId) {
    m in net.msgs && net.msgs[m].place.InQueue?
  }

  /** A request goes astray only by a crash or a lost channel after its row or its answer and
      before the ack, or by a row or an answer made under a delivery lost already. Either way
      the broker has it in its queue again. */
  lemma AstrayIsLost(s: State, step: Step, m: MsgId)
    requires Reachable(s) && Enabled(s, step) && m !in s.net.astray && m in Exec(s, step).net.astray
    ensures Queueing(Exec(s, step).net, m)
    ensures if step.Crash? || step == R(ChannelLost(m)) then m in Unacked(s.net)
            else step.R? && (step.r.Create? || step.r.Answer?) && s.net.req.m == m && Queueing(s.net, m)
  {
    ReachableOnce(s);
    match step
    case R(r) => AstrayByRequest(s, r, m);
    case Crash =>
    case _ => NetUntouched(s, step);
  }

  lemma AstrayByRequest(s: State, r: ReqStep, m: MsgId)
    requires NetOk(s) && HeldOk(s.net) && EnabledR(s, r) && m !in s.net.astray && m in ExecR(s, r).net.astray
    ensures Queueing(ExecR(s, r).net, m)
    ensures if r == ChannelLost(m) then m in Unacked(s.net)
            else (r.Create? || r.Answer?) && s.net.req.m == m && Queueing(s.net, m)
  {
  }

  // ---- wherever one was lost ------------------------------------------------------------

  /** No call fails and no delivery is lost. */
  predicate Smooth(step: Step) {
    && step.R? && !step.r.ChannelLost?
    && (step.r.CheckConflict? ==> step.r.ok) && (step.r.Create? ==> step.r.ok)
  }

  /** What stays as the loop goes on: rows, requests in the queue, and what was handled. */
  ghost predicate Goes(s: State, t: State) {
    && t.svc == s.svc && RowsStay(s.rows, t.rows)
    && s.net.stored.Keys <= t.net.stored.Keys && s.net.answered <= t.net.answered
    && (forall m :: s.net.made[m] <= t.net.made[m])
    && (forall m :: m in s.net.msgs ==> m in t.net.msgs && Remains(s.net.msgs[m], t.net.msgs[m]))
  }

  predicate RowsStay(rows: Table, rows': Table) {
    forall id :: id in rows ==> id in rows' && rows'[id] == rows[id]
  }

  predicate Remains(a: Msg, b: Msg) {
    b.job == a.job && b.ok == a.ok && (a.place.InQueue? ==> b.place.InQueue?)
  }

  lemma GoesTrans(s: State, t: State, u: State)
    requires Goes(s, t) && Goes(t, u)
    ensures Goes(s, u)
  {
    forall m | m in s.net.msgs ensures m in u.net.msgs && Remains(s.net.msgs[m], u.net.msgs[m]) {
      assert Remains(s.net.msgs[m], t.net.msgs[m]);
    }
  }

  /** The loop is in the middle of a turn. */
  predicate InTurn(req: ReqPc) {
    Holds(req) || req.Notify?
  }

  function NextInTurn(net: Net, id: JobId): ReqStep
    requires InTurn(net.req) && (Holds(net.req) ==> net.req.m in net.msgs)
  {
    match net.req
    case Got(m, tag) => if net.msgs[m].ok then CheckConflict(true) else Discard
    case Clear(m, tag, sure) => Create(true, id, SOME_TIME)
    case Conflicting(m, tag) => Answer
    case Answered(m, tag) => AckConflict
    case Saved(m, tag) => AckSaved
    case Unsaved(m, tag) => NackUnsaved
    case _ => Trigger
  }

  function ToGo(req: ReqPc): nat {
    match req
    case Got(m, tag) => 5
    case Clear(m, tag, sure) => 4
    case Conflicting(m, tag) => 3
    case Saved(m, tag) => 2
    case Waiting => 0
    case Halted => 0
    case _ => 1
  }

  lemma TurnEnabled(s: State, id: JobId)
    requires InTurn(s.net.req) && (Holds(s.net.req) ==> s.net.req.m in s.net.msgs) && FreshId(s, id)
    ensures var r := NextInTurn(s.net, id);
            EnabledR(s, r) && Smooth(R(r)) && ToGo(ExecR(s, r).net.req) < ToGo(s.net.req) && !ExecR(s, r).net.req.Halted?
  {
  }

  /** A step of the turn keeps rows, and requests in the queue. */
  lemma TurnGoes(s: State, r: ReqStep)
    requires EnabledR(s, r) && Smooth(R(r)) && !r.Publish? && !r.Deliver?
    ensures Goes(s, ExecR(s, r))
  {
    RequestFrame(s, r);
    if r.Create? {
      var t := ExecR(s, r);
      assert t.net.msgs == s.net.msgs && t.rows == s.rows[r.id := NewRow(s.net.msgs[s.net.req.m].job, r.now)];
    } else {
      RequestKeepsRows(s, r);
      TurnKeepsNet(s, r);
    }
  }

  lemma TurnKeepsNet(s: State, r: ReqStep)
    requires EnabledR(s, r) && Smooth(R(r)) && !r.Publish? && !r.Deliver? && !r.Create?
    ensures var net, net' := s.net, ExecR(s, r).net;
            && net'.stored == net.stored && net.answered <= net'.answered && net'.made == net.made
            && (forall m :: m in net.msgs ==> m in net'.msgs && Remains(net.msgs[m], net'.msgs[m]))
  {
    if r.CheckConflict? || r.Answer? || r.Trigger? { assert ExecR(s, r).net.msgs == s.net.msgs; }
  }

  /** The loop finishes its turn, no call failing. */
  lemma {:induction false} TurnEnds(s: State) returns (steps: seq<Step>)
    requires NetOk(s) && !s.net.req.Halted?
    ensures Runs(s, steps) && forall i :: 0 <= i < |steps| ==> Smooth(steps[i])
    ensures var t := Last(s, steps); t.net.req.Waiting? && Goes(s, t) && NetOk(t)
    decreases ToGo(s.net.req)
  {
    steps := [];
    if InTurn(s.net.req) {
      var id := UnusedNat(s.rows.Keys + s.purged);
      var r := NextInTurn(s.net, id);
      TurnEnabled(s, id);
      TurnGoes(s, r);
      NetStepR(s, r);
      var rest := TurnEnds(ExecR(s, r));
      steps := [R(r)] + rest;
      assert steps[1..] == rest;
      GoesTrans(s, ExecR(s, r), Last(s, steps));
    }
  }

  predicate BackInQueue(net: Net, m: MsgId) {
    m in net.msgs && net.msgs[m].place.InQueue? && net.msgs[m].ok
  }

  predicate AnotherRow(rows: Table, rows': Table, job: Job) {
    exists id :: id in rows' && Active(rows'[id]) && id !in rows && rows'[id].job == job
  }

  /** The request delivered again, past the query. */
  lemma AskedAgain(s: State, m: MsgId) returns (steps: seq<Step>)
    requires s.svc.boot.Serving? && s.net.req.Waiting? && BackInQueue(s.net, m)
    ensures Runs(s, steps) && forall i :: 0 <= i < |steps| ==> Smooth(steps[i])
    ensures var t, job, tag := Last(s, steps), s.net.msgs[m].job, s.net.tags;
            && t.rows == s.rows && t.purged == s.purged && t.net.stored == s.net.stored && t.net.made == s.net.made
            && t.net.answered == s.net.answered && m in t.net.msgs && t.net.msgs[m].job == job
            && t.net.req == if IsWriteTask(job.taskType) && HasConflict(s.rows, job) then Conflicting(m, tag) else Clear(m, tag, true)
  {
    var d, c := R(Deliver(m)), R(CheckConflict(true));
    var a := Exec(s, d);
    assert a.net.req == Got(m, s.net.tags) && a.net.msgs[m].job == s.net.msgs[m].job && a.net.msgs[m].ok;
    RunAppend(s, [], d);
    RunAppend(s, [] + [d], c);
    steps := [] + [d] + [c];
  }

  /** The decision about it. */
  lemma Redelivered(s: State, m: MsgId) returns (steps: seq<Step>)
    requires s.svc.boot.Serving? && s.net.req.Waiting? && BackInQueue(s.net, m)
    ensures Runs(s, steps) && forall i :: 0 <= i < |steps| ==> Smooth(steps[i])
    ensures RowsStay(s.rows, Last(s, steps).rows)
    ensures var t, job := Last(s, steps), s.net.msgs[m].job;
            if IsWriteTask(job.taskType) && HasConflict(s.rows, job)
            then t.net.answered == s.net.answered + {m} && t.net.stored == s.net.stored
            else t.net.made == s.net.made + multiset{m} && AnotherRow(s.rows, t.rows, job)
  {
    steps := AskedAgain(s, m);
    var t := Last(s, steps);
    var id := UnusedNat(s.rows.Keys + s.purged);
    assert FreshId(t, id);
    var last := R(if t.net.req.Conflicting? then Answer else Create(true, id, SOME_TIME));
    RunAppend(s, steps, last);
    steps := steps + [last];
    if last.r.Create? { assert id !in s.rows && ActiveIn(Last(s, steps).rows, id) && Last(s, steps).rows[id].job == s.net.msgs[m].job; }
  }

  /** And wherever a stored request is back in the queue and the loop has not stopped, it can
      be handled again, no call failing: if its type is not checked it gets another row; if
      its row is active it is answered as a duplicate of itself. */
  lemma LostHandledAgain(s: State, m: MsgId) returns (steps: seq<Step>)
    requires Reachable(s) && s.svc.boot.Serving? && !s.net.req.Halted?
    requires m in s.net.stored && BackInQueue(s.net, m)
    ensures Runs(s, steps) && forall i :: 0 <= i < |steps| ==> Smooth(steps[i])
    ensures HandledAgain(s, Last(s, steps), m)
  {
    ReachableOnce(s);
    assert StoredOk(m, s.net, s.rows, s.purged) && Once(s.net, m);
    steps := TurnEnds(s);
    var a := Last(s, steps);
    assert Remains(s.net.msgs[m], a.net.msgs[m]);
    var more := Redelivered(a, m);
    RunsConcat(s, steps, more);
    AgainFrom(s, a, Last(a, more), m);
    steps := steps + more;
  }

  ghost predicate HandledAgain(s: State, t: State, m: MsgId)
    requires m in s.net.stored && m in s.net.msgs
  {
    var job, own := s.net.msgs[m].job, s.net.stored[m];
    && (t.net.made[m] >= 2 || (m in t.net.stored && m in t.net.answered))
    && (!IsWriteTask(job.taskType) ==> AnotherRow(s.rows, t.rows, job))
    && (own in s.rows ==> own in t.rows && t.rows[own] == s.rows[own])
    && (IsWriteTask(job.taskType) && job.vm != "" && ActiveIn(s.rows, own) ==> m in t.net.answered)
  }

  lemma AgainFrom(s: State, a: State, t: State, m: MsgId)
    requires m in s.net.stored && m in s.net.msgs && StoredOk(m, s.net, s.rows, s.purged) && s.net.made[m] > 0
    requires Goes(s, a) && RowsStay(a.rows, t.rows)
    requires var job := s.net.msgs[m].job;
             if IsWriteTask(job.taskType) && HasConflict(a.rows, job)
             then t.net.answered == a.net.answered + {m} && t.net.stored == a.net.stored
             else t.net.made == a.net.made + multiset{m} && AnotherRow(a.rows, t.rows, job)
    ensures HandledAgain(s, t, m)
  {
    var job, own := s.net.msgs[m].job, s.net.stored[m];
    assert s.net.made[m] <= a.net.made[m] && m in a.net.stored.Keys;
    if own in s.rows { assert own in a.rows && a.rows[own] == s.rows[own] && a.rows[own].job == job; }
  }
}
