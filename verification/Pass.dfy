/** One evaluation pass in which nothing fails and nothing ends: what has become of every
    job that was queued when it began. */
module Pass {
  import opened Clock
  import opened Jobs
  import opened Protocol
  import opened Safety
  import opened Registry
  import opened Execution
  import opened Clients
  import opened Agent

  /** Steps of a pass in which every call succeeds and nothing leaves the registry. */
  predicate Undisturbed(step: Step) {
    && !step.Crash?
    && !(step.M? && step.m.Remove?)
    && !(step.D? && ((step.d.Spawn? && !step.d.ok) || (step.d.Mark? && !step.d.ok) || (step.d.List? && !step.d.ok)))
  }

  /** A write the exclusion rules hold back, in terms of the registry alone. */
  predicate HeldBack(workers: Workers, job: Job) {
    || (Classify(job) == Write && HasRunningWriteForVM(workers, job.vm))
    || (Classify(job) == HostWrite && HasRunningWrite(workers))
  }

  /** What has become of a job the scan has passed. */
  predicate Settled(workers: Workers, c: Scan, item: Item) {
    item.id in workers || (if c.readOnly then Classify(item.job) != Read else HeldBack(workers, item.job))
  }

  ghost predicate PassOk(s: State) {
    var pc, workers := s.svc.disp, s.svc.workers;
    && (pc.Counted? || pc.NoHost? || pc.HostBusy? || pc.WritesRead? ==> pc.n == |workers|)
    && (pc.WritesRead? && pc.blocked ==> HasRunningWrite(workers))
    && (InScan(pc) ==> ScanOk(workers, pc.c))
    && !pc.Refused?
  }

  ghost predicate ScanOk(workers: Workers, c: Scan) {
    && c.count == |workers|
    && (c.blocked && !c.readOnly ==> HasRunningWrite(workers))
    && forall i :: 0 <= i < |c.done| ==> Settled(workers, c, c.done[i])
  }

  lemma PassNext(s: State)
    requires PassOk(s) && EnabledD(s, Next)
    ensures PassOk(ExecD(s, Next))
  {
    var c := s.svc.disp.c;
    if c.todo != [] {
      assert Settled(s.svc.workers, c, c.todo[0]) || Eligible(s.svc.workers, c, c.todo[0].job);
    }
  }

  lemma ScanGrows(workers: Workers, c: Scan, item: Item, e: Entry)
    requires ScanOk(workers, c) && item.id !in workers && e.job == item.job
    requires c.readOnly ==> Classify(item.job) != HostWrite
    ensures ScanOk(workers[item.id := e], After(c, item))
  {
    var workers', c' := workers[item.id := e], After(c, item);
    assert forall id :: id in workers ==> id in workers' && workers'[id] == workers[id];
    forall i | 0 <= i < |c'.done| ensures Settled(workers', c', c'.done[i]) {
      if i < |c.done| { assert Settled(workers, c, c.done[i]); }
    }
    if Classify(item.job) == HostWrite { assert item.id in workers' && Classify(workers'[item.id].job) == HostWrite; }
  }

  lemma PassRegister(s: State)
    requires Inv(s) && PassOk(s) && EnabledD(s, Register)
    ensures PassOk(ExecD(s, Register))
  {
    var pc := s.svc.disp;
    ScanGrows(s.svc.workers, pc.c, pc.item, Entry(pc.pid, pc.item.job, s.svc.pass));
  }

  lemma PassStepD(s: State, d: DispStep)
    requires Inv(s) && PassOk(s) && EnabledD(s, d) && Undisturbed(D(d))
    ensures PassOk(ExecD(s, d))
  {
    match d
    case Next => PassNext(s);
    case Register => PassRegister(s);
    case Mark(ok, now) => assert Waits(s.rows, s.svc.disp.item);
    case Kill =>
    case _ => PassMoves(s, d);
  }

  lemma PassMoves(s: State, d: DispStep)
    requires PassOk(s) && EnabledD(s, d) && Undisturbed(D(d)) && !d.Next? && !d.Register? && !d.Mark? && !d.Kill?
    ensures PassOk(ExecD(s, d))
  {
  }

  lemma PassStep(s: State, step: Step)
    requires Inv(s) && PassOk(s) && Enabled(s, step) && Undisturbed(step)
    ensures PassOk(Exec(s, step))
  {
    if step.D? {
      PassStepD(s, step.d);
    } else if Local(step) {
      LocalLeaves(s, step);
      LostOnlyByRemove(s, step);
    } else if Inserts(step) {
      var id, job, now := InsertShape(s, step);
    }
  }

  lemma {:induction false} PassRun(s: State, steps: seq<Step>)
    requires Inv(s) && PassOk(s) && Runs(s, steps)
    requires forall i :: 0 <= i < |steps| ==> Undisturbed(steps[i])
    ensures PassOk(Last(s, steps))
    decreases |steps|
  {
    if steps != [] {
      InvStep(s, steps[0]);
      PassStep(s, steps[0]);
      PassRun(Exec(s, steps[0]), steps[1..]);
    }
  }

  /** The list as the scan stands in it: looked at, in hand, still to come. */
  function ListOf(pc: DispPc): seq<Item>
    requires InScan(pc)
  {
    pc.c.done + (if InHand(pc) then [pc.item] else []) + pc.c.todo
  }

  /** The scan never reorders, drops or repeats what was listed. */
  lemma ListOrderKept(s: State, d: DispStep)
    requires EnabledD(s, d) && InScan(ExecD(s, d).svc.disp)
    ensures if d.List? then ListOf(ExecD(s, d).svc.disp) == Items(s.rows, d.ids)
            else InScan(s.svc.disp) && ListOf(ExecD(s, d).svc.disp) == ListOf(s.svc.disp)
  {
    if d.Next? { NextKeepsOrder(s.svc.workers, s.svc.disp.c); }
  }

  lemma NextKeepsOrder(workers: Workers, c: Scan)
    requires c.todo != []
    ensures var item, rest := c.todo[0], c.(todo := c.todo[1..]);
            && ListOf(Chosen(rest, item)) == ListOf(Scanning(c))
            && ListOf(Scanning(rest.(done := c.done + [item]))) == ListOf(Scanning(c))
  {
    assert c.todo == [c.todo[0]] + c.todo[1..];
  }

  lemma ScanStops(s: State)
    requires EnabledD(s, Next) && ExecD(s, Next).svc.disp.Idle?
    ensures s.svc.disp.Scanning? && (s.svc.disp.c.todo == [] || s.svc.disp.c.count >= s.limit)
  {
  }


  // ---- where the pass stands with respect to its start ---------------------------

  predicate BeforeLook(pc: DispPc) {
    pc.Begun? || pc.Counted?
  }

  predicate NothingListed(pc: DispPc) {
    pc.NoHost? || pc.HostBusy? || pc.WritesRead?
  }

  /** `workers0` and `pass0`: the registry and the pass number at the start. The first look
      decides the kind of the pass, and until its scan nothing is registered. */
  ghost predicate KindOk(workers0: Workers, pass0: nat, workers: Workers, pass: nat, pc: DispPc) {
    && pass0 <= pass
    && (pass == pass0 ==> (pc.Idle? || pc.Woken?) && workers == workers0)
    && (pass == pass0 + 1 ==>
          && (BeforeLook(pc) || NothingListed(pc) ==> workers == workers0)
          && (NothingListed(pc) ==> (pc.HostBusy? <==> HasRunningHostWrite(workers0)))
          && (InScan(pc) ==> (pc.c.readOnly <==> HasRunningHostWrite(workers0))))
  }

  predicate Unmoved(rows0: Table, id: JobId, rows: Table)
    requires id in rows0
  {
    id in rows && rows[id] == rows0[id]
  }

  /** A job queued at the start: registered by now, just written, or still queued and in
      the list the scan has in hand. */
  ghost predicate Accounted(rows0: Table, id: JobId, rows: Table, workers: Workers, pc: DispPc)
    requires id in rows0
  {
    || id in workers
    || (pc.Written? && pc.item.id == id)
    || (Unmoved(rows0, id, rows) && (InScan(pc) ==> Item(id, rows0[id].job) in ListOf(pc)))
  }

  ghost predicate AllAccounted(rows0: Table, rows: Table, workers: Workers, pc: DispPc) {
    forall id :: id in rows0 && rows0[id].status == Queued ==> Accounted(rows0, id, rows, workers, pc)
  }

  ghost predicate Within(s0: State, s: State) {
    && KindOk(s0.svc.workers, s0.svc.pass, s.svc.workers, s.svc.pass, s.svc.disp)
    && AllAccounted(s0.rows, s.rows, s.svc.workers, s.svc.disp)
    && ListOk(s0.rows, s0.svc.pass, s.svc.pass, s.svc.disp)
  }

  lemma KindScan(workers0: Workers, pass0: nat, s: State, d: DispStep)
    requires KindOk(workers0, pass0, s.svc.workers, s.svc.pass, s.svc.disp) && EnabledD(s, d) && InScan(s.svc.disp)
    requires !d.Register?
    ensures var s' := ExecD(s, d); KindOk(workers0, pass0, s'.svc.workers, s'.svc.pass, s'.svc.disp)
  {
  }

  lemma KindRegister(workers0: Workers, pass0: nat, s: State)
    requires KindOk(workers0, pass0, s.svc.workers, s.svc.pass, s.svc.disp) && EnabledD(s, Register)
    ensures var s' := ExecD(s, Register); KindOk(workers0, pass0, s'.svc.workers, s'.svc.pass, s'.svc.disp)
  {
  }

  lemma KindLook(workers0: Workers, pass0: nat, s: State, d: DispStep)
    requires KindOk(workers0, pass0, s.svc.workers, s.svc.pass, s.svc.disp) && EnabledD(s, d) && !InScan(s.svc.disp)
    ensures var s' := ExecD(s, d); KindOk(workers0, pass0, s'.svc.workers, s'.svc.pass, s'.svc.disp)
  {
  }

  lemma KindStep(workers0: Workers, pass0: nat, s: State, d: DispStep)
    requires KindOk(workers0, pass0, s.svc.workers, s.svc.pass, s.svc.disp) && EnabledD(s, d)
    ensures var s' := ExecD(s, d); KindOk(workers0, pass0, s'.svc.workers, s'.svc.pass, s'.svc.disp)
  {
    if d.Register? {
      KindRegister(workers0, pass0, s);
    } else if InScan(s.svc.disp) {
      KindScan(workers0, pass0, s, d);
    } else {
      KindLook(workers0, pass0, s, d);
    }
  }

  lemma AccountedList(rows0: Table, s: State, ids: seq<JobId>)
    requires AllAccounted(rows0, s.rows, s.svc.workers, s.svc.disp) && EnabledD(s, List(true, ids))
    ensures var s' := ExecD(s, List(true, ids)); AllAccounted(rows0, s'.rows, s'.svc.workers, s'.svc.disp)
  {
    var s', items := ExecD(s, List(true, ids)), Items(s.rows, ids);
    assert ListOf(s'.svc.disp) == items;
    forall id | id in rows0 && rows0[id].status == Queued ensures Accounted(rows0, id, s'.rows, s'.svc.workers, s'.svc.disp) {
      assert Accounted(rows0, id, s.rows, s.svc.workers, s.svc.disp);
      if Unmoved(rows0, id, s.rows) {
        var i :| 0 <= i < |ids| && ids[i] == id;
        assert items[i] == Item(id, rows0[id].job);
      }
    }
  }

  lemma AccountedMark(rows0: Table, s: State, now: Time)
    requires QueueOk(s.rows, s.svc.disp) && AllAccounted(rows0, s.rows, s.svc.workers, s.svc.disp)
    requires EnabledD(s, Mark(true, now))
    ensures var s' := ExecD(s, Mark(true, now)); AllAccounted(rows0, s'.rows, s'.svc.workers, s'.svc.disp)
  {
    var s', pc := ExecD(s, Mark(true, now)), s.svc.disp;
    ListOrderKept(s, Mark(true, now));
    forall id | id in rows0 && rows0[id].status == Queued ensures Accounted(rows0, id, s'.rows, s'.svc.workers, s'.svc.disp) {
      assert Accounted(rows0, id, s.rows, s.svc.workers, s.svc.disp);
    }
  }

  lemma AccountedRegister(rows0: Table, s: State)
    requires AllAccounted(rows0, s.rows, s.svc.workers, s.svc.disp) && EnabledD(s, Register)
    ensures var s' := ExecD(s, Register); AllAccounted(rows0, s'.rows, s'.svc.workers, s'.svc.disp)
  {
    var s' := ExecD(s, Register);
    ListOrderKept(s, Register);
    forall id | id in rows0 && rows0[id].status == Queued ensures Accounted(rows0, id, s'.rows, s'.svc.workers, s'.svc.disp) {
      assert Accounted(rows0, id, s.rows, s.svc.workers, s.svc.disp);
    }
  }

  lemma AccountedMove(rows0: Table, s: State, d: DispStep)
    requires AllAccounted(rows0, s.rows, s.svc.workers, s.svc.disp) && EnabledD(s, d)
    requires !d.List? && !d.Mark? && !d.Register?
    ensures var s' := ExecD(s, d); AllAccounted(rows0, s'.rows, s'.svc.workers, s'.svc.disp)
  {
    var s' := ExecD(s, d);
    assert s'.rows == s.rows && s'.svc.workers == s.svc.workers && !s.svc.disp.Written?;
    if InScan(s'.svc.disp) { ListOrderKept(s, d); }
    forall id | id in rows0 && rows0[id].status == Queued ensures Accounted(rows0, id, s'.rows, s'.svc.workers, s'.svc.disp) {
      assert Accounted(rows0, id, s.rows, s.svc.workers, s.svc.disp);
    }
  }

  lemma AccountedD(rows0: Table, s: State, d: DispStep)
    requires QueueOk(s.rows, s.svc.disp) && AllAccounted(rows0, s.rows, s.svc.workers, s.svc.disp) && EnabledD(s, d)
    requires Undisturbed(D(d))
    ensures var s' := ExecD(s, d); AllAccounted(rows0, s'.rows, s'.svc.workers, s'.svc.disp)
  {
    match d
    case List(ok, ids) => AccountedList(rows0, s, ids);
    case Mark(ok, now) => AccountedMark(rows0, s, now);
    case Register => AccountedRegister(rows0, s);
    case _ => AccountedMove(rows0, s, d);
  }

  /** The others neither start a queued job nor delete one. */
  lemma AccountedOthers(rows0: Table, s: State, step: Step)
    requires Base(s) && AllAccounted(rows0, s.rows, s.svc.workers, s.svc.disp) && Enabled(s, step)
    requires Undisturbed(step) && !step.D?
    ensures var s' := Exec(s, step); AllAccounted(rows0, s'.rows, s'.svc.workers, s'.svc.disp)
    ensures var s' := Exec(s, step); s'.svc.workers == s.svc.workers && s'.svc.pass == s.svc.pass && s'.svc.disp == s.svc.disp
  {
    var s' := Exec(s, step);
    if Local(step) {
      LocalLeaves(s, step);
      LostOnlyByRemove(s, step);
    } else if Inserts(step) {
      var id, job, now := InsertShape(s, step);
    }
    forall id | id in rows0 && rows0[id].status == Queued ensures Accounted(rows0, id, s'.rows, s'.svc.workers, s'.svc.disp) {
      assert Accounted(rows0, id, s.rows, s.svc.workers, s.svc.disp);
      if Unmoved(rows0, id, s.rows) { StillUnmoved(s, step, id); }
    }
  }

  lemma StillUnmoved(s: State, step: Step, id: JobId)
    requires Base(s) && Enabled(s, step) && !step.D? && !step.Crash? && CanSwap(s.rows, id, Queued)
    ensures Unmoved(s.rows, id, Exec(s, step).rows)
  {
    if Local(step) {
      LocalLeaves(s, step);
      assert RowMoved(s.rows[id], Exec(s, step).rows[id]);
    } else if Inserts(step) {
      var i, job, now := InsertShape(s, step);
    }
  }

  // ---- the order of the list ------------------------------------------------------

  function Created(rows: Table, id: JobId): string
    requires id in rows
  {
    FmtTime(rows[id].createdAt)
  }

  /** Every job queued at the start is in the list, and they stand in its order. */
  ghost predicate InOrder(rows0: Table, list: seq<Item>) {
    && (forall id :: CanSwap(rows0, id, Queued) ==> Item(id, rows0[id].job) in list)
    && (forall i, k :: 0 <= i < k < |list| ==> OrderedPair(rows0, list[i].id, list[k].id))
  }

  predicate OrderedPair(rows0: Table, id: JobId, j: JobId) {
    CanSwap(rows0, id, Queued) && CanSwap(rows0, j, Queued) ==> TextLeq(Created(rows0, id), Created(rows0, j))
  }

  ghost predicate ListOk(rows0: Table, pass0: nat, pass: nat, pc: DispPc) {
    pass == pass0 + 1 && InScan(pc) ==> InOrder(rows0, ListOf(pc))
  }

  predicate TextsSorted(texts: seq<string>) {
    |texts| < 2 || (TextLeq(texts[0], texts[1]) && TextsSorted(texts[1..]))
  }

  function Texts(rows: Table, ids: seq<JobId>): seq<string>
    requires forall i :: 0 <= i < |ids| ==> ids[i] in rows
  {
    seq(|ids|, i requires 0 <= i < |ids| => Created(rows, ids[i]))
  }

  lemma {:induction false} TextsPair(texts: seq<string>, i: nat, k: nat)
    requires TextsSorted(texts) && i < k < |texts|
    ensures TextLeq(texts[i], texts[k])
  {
    if i > 0 {
      TextsPair(texts[1..], i - 1, k - 1);
    } else if k > 1 {
      TextsPair(texts[1..], 0, k - 1);
      TextTransitive(texts[0], texts[1], texts[k]);
    }
  }

  lemma {:induction false} ListingTexts(rows: Table, ids: seq<JobId>)
    requires (forall j :: 0 <= j < |ids| ==> ids[j] in rows) && Sorted(rows, ids)
    ensures TextsSorted(Texts(rows, ids))
  {
    if |ids| >= 2 {
      ListingTexts(rows, ids[1..]);
      assert Texts(rows, ids)[1..] == Texts(rows, ids[1..]);
      assert NotAfter(rows[ids[0]], rows[ids[1]]);
    }
  }

  lemma ListingInOrder(rows0: Table, rows: Table, ids: seq<JobId>)
    requires Listing(rows, Queued, ids)
    requires forall id :: CanSwap(rows0, id, Queued) ==> Unmoved(rows0, id, rows)
    ensures InOrder(rows0, Items(rows, ids))
  {
    var list := Items(rows, ids);
    forall id | CanSwap(rows0, id, Queued) ensures Item(id, rows0[id].job) in list {
      assert Unmoved(rows0, id, rows);
      var i :| 0 <= i < |ids| && ids[i] == id;
      assert list[i] == Item(id, rows0[id].job);
    }
    ListingTexts(rows, ids);
    forall i, k | 0 <= i < k < |list| ensures OrderedPair(rows0, list[i].id, list[k].id) {
      TextsPair(Texts(rows, ids), i, k);
    }
  }

  /** The listing of this pass: whatever was queued at the start still is. */
  lemma ListOkList(s0: State, s: State, ids: seq<JobId>)
    requires Inv(s0) && EnabledD(s, List(true, ids)) && s.svc.pass == s0.svc.pass + 1
    requires KindOk(s0.svc.workers, s0.svc.pass, s.svc.workers, s.svc.pass, s.svc.disp)
    requires AllAccounted(s0.rows, s.rows, s.svc.workers, s.svc.disp)
    ensures InOrder(s0.rows, Items(s.rows, ids))
  {
    forall id | CanSwap(s0.rows, id, Queued) ensures Unmoved(s0.rows, id, s.rows) {
      QueuedNotRegistered(s0, id);
      assert Accounted(s0.rows, id, s.rows, s.svc.workers, s.svc.disp);
    }
    ListingInOrder(s0.rows, s.rows, ids);
  }

  /** Only a listing takes the dispatcher into a scan. */
  lemma PassKept(s: State, d: DispStep)
    requires EnabledD(s, d) && !d.List? && InScan(ExecD(s, d).svc.disp)
    ensures InScan(s.svc.disp) && ExecD(s, d).svc.pass == s.svc.pass
  {
  }

  lemma ListOkMove(rows0: Table, pass0: nat, s: State, d: DispStep)
    requires ListOk(rows0, pass0, s.svc.pass, s.svc.disp) && EnabledD(s, d) && !d.List?
    ensures ListOk(rows0, pass0, ExecD(s, d).svc.pass, ExecD(s, d).svc.disp)
  {
    if InScan(ExecD(s, d).svc.disp) {
      PassKept(s, d);
      ListOrderKept(s, d);
    }
  }

  lemma ListOkListed(s0: State, s: State, ids: seq<JobId>)
    requires Inv(s0) && Within(s0, s) && EnabledD(s, List(true, ids))
    ensures ListOk(s0.rows, s0.svc.pass, ExecD(s, List(true, ids)).svc.pass, ExecD(s, List(true, ids)).svc.disp)
  {
    ListOrderKept(s, List(true, ids));
    if s.svc.pass == s0.svc.pass + 1 { ListOkList(s0, s, ids); }
  }

  lemma ListOkStep(s0: State, s: State, d: DispStep)
    requires Inv(s0) && Within(s0, s) && EnabledD(s, d) && Undisturbed(D(d))
    ensures ListOk(s0.rows, s0.svc.pass, ExecD(s, d).svc.pass, ExecD(s, d).svc.disp)
  {
    if d.List? { ListOkListed(s0, s, d.ids); } else { ListOkMove(s0.rows, s0.svc.pass, s, d); }
  }

  lemma {:induction false} WithinRun(s0: State, s: State, steps: seq<Step>)
    requires Inv(s0) && Inv(s) && Within(s0, s) && Runs(s, steps)
    requires forall i :: 0 <= i < |steps| ==> Undisturbed(steps[i])
    ensures Within(s0, Last(s, steps))
    decreases |steps|
  {
    if steps != [] {
      InvStep(s, steps[0]);
      WithinStep(s0, s, steps[0]);
      WithinRun(s0, Exec(s, steps[0]), steps[1..]);
    }
  }

  lemma WithinStep(s0: State, s: State, step: Step)
    requires Inv(s0) && Inv(s) && Within(s0, s) && Enabled(s, step) && Undisturbed(step)
    ensures Within(s0, Exec(s, step))
  {
    if step.D? {
      KindStep(s0.svc.workers, s0.svc.pass, s, step.d);
      AccountedD(s0.rows, s, step.d);
      ListOkStep(s0, s, step.d);
    } else {
      AccountedOthers(s0.rows, s, step);
    }
  }

  // ---- the result ------------------------------------------------------------------

  /** Started, or a write that a registered one holds back; in a pass that met a host
      write, everything but a read. */
  predicate StartedOrHeld(s: State, workers: Workers, id: JobId)
    requires id in s.rows
  {
    || id in workers
    || (if HasRunningHostWrite(s.svc.workers) then Classify(s.rows[id].job) != Read else HeldBack(workers, s.rows[id].job))
  }

  /** If a queued job was started, every one with an earlier created_at text was started
      or held back. */
  ghost predicate NotOvertaken(s: State, t: State) {
    forall id, j :: CanSwap(s.rows, id, Queued) && CanSwap(s.rows, j, Queued) && j in t.svc.workers
                    && TextLess(Created(s.rows, id), Created(s.rows, j)) ==>
      StartedOrHeld(s, t.svc.workers, id)
  }

  /** The list order is kept; and every slot is used, or no queued job was passed over
      without reason. */
  ghost predicate Conserved(s: State, t: State) {
    && NotOvertaken(s, t)
    && (|t.svc.workers| >= t.limit || forall id :: CanSwap(s.rows, id, Queued) ==> StartedOrHeld(s, t.svc.workers, id))
  }

  /** Where the scan of a pass stops. */
  ghost predicate ScanEnds(s: State, t: State) {
    Inv(s) && Inv(t) && Within(s, t) && PassOk(t) && t.svc.disp.Scanning? && t.svc.pass == s.svc.pass + 1
  }

  lemma DoneIsSettled(s: State, t: State, id: JobId, i: nat)
    requires ScanEnds(s, t) && CanSwap(s.rows, id, Queued)
    requires i < |t.svc.disp.c.done| && t.svc.disp.c.done[i] == Item(id, s.rows[id].job)
    ensures StartedOrHeld(s, t.svc.workers, id)
  {
    assert Settled(t.svc.workers, t.svc.disp.c, t.svc.disp.c.done[i]);
  }

  lemma ListIndex(rows0: Table, c: Scan, id: JobId) returns (i: nat)
    requires InOrder(rows0, ListOf(Scanning(c))) && CanSwap(rows0, id, Queued)
    ensures i < |c.done + c.todo| && (c.done + c.todo)[i] == Item(id, rows0[id].job)
    ensures ListOf(Scanning(c)) == c.done + c.todo
  {
    assert ListOf(Scanning(c)) == c.done + c.todo;
    i :| 0 <= i < |c.done + c.todo| && (c.done + c.todo)[i] == Item(id, rows0[id].job);
  }

  /** A registered job is not in the rest of the list. */
  lemma StartedIsDone(t: State, i: nat)
    requires Inv(t) && t.svc.disp.Scanning? && i < |t.svc.disp.c.done + t.svc.disp.c.todo|
    requires (t.svc.disp.c.done + t.svc.disp.c.todo)[i].id in t.svc.workers
    ensures i < |t.svc.disp.c.done|
  {
    var c := t.svc.disp.c;
    forall k | 0 <= k < |c.todo| ensures c.todo[k].id !in t.svc.workers {
      assert Waits(t.rows, c.todo[k]);
      QueuedNotRegistered(t, c.todo[k].id);
    }
  }

  lemma TextAsymmetric(a: string, b: string)
    requires TextLess(a, b)
    ensures !TextLeq(b, a)
  {
    TextTotal(a, b);
    TextIrreflexive(a);
  }

  lemma EarlierFirst(rows0: Table, list: seq<Item>, i: nat, k: nat)
    requires InOrder(rows0, list) && i < |list| && k < |list|
    requires CanSwap(rows0, list[i].id, Queued) && CanSwap(rows0, list[k].id, Queued)
    requires TextLess(Created(rows0, list[i].id), Created(rows0, list[k].id))
    ensures i < k
  {
    assert k < i ==> OrderedPair(rows0, list[k].id, list[i].id);
    TextAsymmetric(Created(rows0, list[i].id), Created(rows0, list[k].id));
  }

  lemma NoneOvertaken(s: State, t: State, id: JobId, j: JobId)
    requires ScanEnds(s, t) && CanSwap(s.rows, id, Queued) && CanSwap(s.rows, j, Queued) && j in t.svc.workers
    requires TextLess(Created(s.rows, id), Created(s.rows, j))
    ensures StartedOrHeld(s, t.svc.workers, id)
  {
    var i := ListIndex(s.rows, t.svc.disp.c, id);
    var k := ListIndex(s.rows, t.svc.disp.c, j);
    StartedIsDone(t, k);
    EarlierFirst(s.rows, t.svc.disp.c.done + t.svc.disp.c.todo, i, k);
    DoneIsSettled(s, t, id, i);
  }

  lemma ScanConserves(s: State, t: State)
    requires ScanEnds(s, t) && (t.svc.disp.c.todo == [] || t.svc.disp.c.count >= t.limit)
    ensures Conserved(s, t)
  {
    forall id, j | CanSwap(s.rows, id, Queued) && CanSwap(s.rows, j, Queued) && j in t.svc.workers
                   && TextLess(Created(s.rows, id), Created(s.rows, j))
      ensures StartedOrHeld(s, t.svc.workers, id)
    {
      NoneOvertaken(s, t, id, j);
    }
    if |t.svc.workers| < t.limit {
      forall id | CanSwap(s.rows, id, Queued) ensures StartedOrHeld(s, t.svc.workers, id) {
        var i := ListIndex(s.rows, t.svc.disp.c, id);
        DoneIsSettled(s, t, id, i);
      }
    }
  }

  lemma WithinFrom(s: State, steps: seq<Step>)
    requires Inv(s) && (s.svc.disp.Idle? || s.svc.disp.Woken?) && Runs(s, steps)
    requires forall i :: 0 <= i < |steps| ==> Undisturbed(steps[i])
    ensures Within(s, Last(s, steps)) && PassOk(Last(s, steps)) && Inv(Last(s, steps))
  {
    PassRun(s, steps);
    assert Within(s, s);
    WithinRun(s, s, steps);
    InvRun(s, steps);
  }

  /** A pass in which no call fails and no entry is removed serves the jobs in list order
      and is work-conserving: when its scan stops, no job has been overtaken, and every slot
      is used, or each job that was queued when the pass was woken is registered or is held
      back by a write that is registered now. */
  lemma WorkConserving(s: State, steps: seq<Step>)
    requires Reachable(s) && (s.svc.disp.Idle? || s.svc.disp.Woken?) && Runs(s, steps)
    requires forall i :: 0 <= i < |steps| ==> Undisturbed(steps[i])
    requires EnabledD(Last(s, steps), Next) && ExecD(Last(s, steps), Next).svc.disp.Idle?
    requires Last(s, steps).svc.pass == s.svc.pass + 1
    ensures Conserved(s, Last(s, steps))
  {
    ReachableInv(s);
    WithinFrom(s, steps);
    ScanStops(Last(s, steps));
    ScanConserves(s, Last(s, steps));
  }

  /** Such a pass that ends with a slot free, task type by task type: what it can have left
      queued. Reads never; a download only if a host action was registered at the start; a
      host action only then or beside a write; anything else only then or beside a change of
      its VM. */
  lemma WhatIsLeftQueued(s: State, steps: seq<Step>, id: JobId)
    requires Reachable(s) && (s.svc.disp.Idle? || s.svc.disp.Woken?) && Runs(s, steps)
    requires forall i :: 0 <= i < |steps| ==> Undisturbed(steps[i])
    requires EnabledD(Last(s, steps), Next) && ExecD(Last(s, steps), Next).svc.disp.Idle?
    requires Last(s, steps).svc.pass == s.svc.pass + 1 && |Last(s, steps).svc.workers| < Last(s, steps).limit
    requires CanSwap(s.rows, id, Queued) && id !in Last(s, steps).svc.workers
    ensures var workers, job := Last(s, steps).svc.workers, s.rows[id].job;
            && job.taskType !in {VmInventory, HardwareInventory, VmStatus, TemplateInventory, IsoInventory, AgentStatus}
            && (job.taskType == HostManagement ==> job.action !in {"refresh_hardware", "refresh_inventory"})
            && (HostActionIn(s.svc.workers)
                || (job.taskType == HostManagement && (HostActionIn(workers) || exists j :: j in workers && VmChange(workers[j].job)))
                || (job.taskType !in {HostManagement, ArtifactDownload}
                    && exists j :: j in workers && VmChange(workers[j].job) && workers[j].job.vm == job.vm))
  {
    WorkConserving(s, steps);
    assert StartedOrHeld(s, Last(s, steps).svc.workers, id);
    ClassesByType();
  }

  predicate HostActionIn(workers: Workers) {
    exists j :: (
      && j in workers && workers[j].job.taskType == HostManagement
      && workers[j].job.action !in {"refresh_hardware", "refresh_inventory"})
  }

  /** Neither a read nor a host action nor a download. */
  predicate VmChange(job: Job) {
    job.taskType !in {VmInventory, HardwareInventory, VmStatus, TemplateInventory, IsoInventory, AgentStatus,
                      HostManagement, ArtifactDownload}
  }

  lemma ClassesByType()
    ensures forall job :: Classify(job) == Write <==> VmChange(job)
    ensures forall job :: Classify(job) == HostWrite <==>
              job.taskType == HostManagement && job.action !in {"refresh_hardware", "refresh_inventory"}
  {
  }

  /** Of the types the scheduler refreshes, all but the two metrics run beside whatever runs,
      in either kind of pass; those two wait for each other. */
  lemma RefreshesRunBesideWrites(workers: Workers, c: Scan, t: TaskType)
    requires t in {VmInventory, HardwareInventory, TemplateInventory, IsoInventory, AgentStatus, VmMetrics, HostMetrics}
    ensures RefreshType(t)
    ensures Eligible(workers, c, Job(t, "", "", Scheduled)) <==>
              t !in {VmMetrics, HostMetrics} || (!c.readOnly && !exists j :: j in workers && VmChange(workers[j].job) && workers[j].job.vm == "")
  {
    ClassesByType();
    assert Classify(Job(t, "", "", Scheduled)) == if t in {VmMetrics, HostMetrics} then Write else Read;
  }

  /** A pass that finds every slot used starts nothing. */
  lemma FullPassConserves(s: State, steps: seq<Step>)
    requires Reachable(s) && (s.svc.disp.Idle? || s.svc.disp.Woken?) && Runs(s, steps)
    requires forall i :: 0 <= i < |steps| ==> Undisturbed(steps[i])
    requires Last(s, steps).svc.disp.Begun? && Last(s, steps).svc.pass == s.svc.pass + 1
    requires |Last(s, steps).svc.workers| >= Last(s, steps).limit
    ensures Conserved(s, Last(s, steps))
  {
    ReachableInv(s);
    WithinFrom(s, steps);
    var t := Last(s, steps);
    forall j | CanSwap(s.rows, j, Queued) ensures j !in t.svc.workers {
      QueuedNotRegistered(s, j);
    }
  }
}
