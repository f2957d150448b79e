/** Replacing the agent's binary: the updater process, the service it stops and starts,
    and what a started agent does to the same directory. Every step is one operation on
    the directory or the service manager, so every state is a possible crash point. */
module Upgrade {
  datatype Path = Target | Backup | Staged | Rejected

  datatype Binary = Old | New | Older

  type Files = map<Path, Binary>

  /** What a started agent does next: three removals by Cleanup, the "starting" log line,
      the pending response, service. */
  datatype AgentPc = SweepsBackup | SweepsRejected | SweepsStaged | Announces | ReadsPending | Serves

  datatype Service = Down | Up(image: Binary, at: AgentPc)

  /** The undoing of a failed step 6, 7 or 8. */
  datatype Act = StopAgain | AwaitAgain | MoveAside | PutBack | Restart | Clear

  datatype UpdaterPc =
    | Query                     // step 1
    | Probe                     // step 2
    | Stop                      // step 3
    | Await                     // step 4
    | DropBackup | BackUp       // step 5
    | Install                   // step 6
    | Start                     // step 7
    | Mark | Confirm            // step 8
    | Undo(step: nat, act: Act)
    | Done
    | Failed(step: nat)
    | Killed                    // the updater itself died

  /** A "starting" line of the log: when, and by which binary. */
  datatype Line = Line(at: nat, image: Binary)

  /** The log and the clock; `since` and `marked`: the clock and the number of lines when
      the updater began to wait. */
  datatype Log = Log(lines: seq<Line>, clock: nat, since: nat, marked: nat)

  /** Histories. `swept`: Cleanup removed the backup of the old binary. `putBack`: nothing
      but a missing backup kept the restoring rename from succeeding. `cleared`: the undo
      got rid of the pending response. `operated`: the service was started by hand after
      the updater was gone. `claims`: which agents reported the upgrade completed. `before`:
      the directory when the backup was about to be made. `aside`: moving the new binary
      aside was not refused. `restarted`: the undo started the service. `fell`: an agent died
      after the undo's restart. */
  datatype Past = Past(swept: bool, putBack: bool, cleared: bool, operated: bool, claims: seq<Binary>,
                       before: Files, aside: bool, restarted: bool, fell: bool)

  datatype World = World(files: Files, pending: bool, service: Service, log: Log, up: UpdaterPc, past: Past)

  datatype AgentStep =
    | Sweep(ok: bool)
    | Announce
    | Read(read: bool, removed: bool)
    | Die

  datatype Step =
    | U(ok: bool)       // the updater's next call, and whether it succeeds
    | A(a: AgentStep)
    | Tick
    | Kill              // the updater dies where it stands
    | Operator          // the service is started by hand, after the updater is gone

  // ---- the directory ---------------------------------------------------------

  predicate Holds(files: Files, p: Path, b: Binary) {
    p in files && files[p] == b
  }

  /** Renaming replaces the destination. It fails when there is nothing to rename. */
  function Moved(files: Files, from: Path, to: Path): Files
    requires from in files
  {
    files[to := files[from]] - {from}
  }

  predicate CanMove(files: Files, from: Path, ok: bool) {
    ok && from in files
  }

  function TryMove(files: Files, from: Path, to: Path, ok: bool): Files {
    if CanMove(files, from, ok) then Moved(files, from, to) else files
  }

  // ---- a running agent ---------------------------------------------------------

  predicate Sweeping(at: AgentPc) {
    at.SweepsBackup? || at.SweepsRejected? || at.SweepsStaged?
  }

  function SweptPath(at: AgentPc): Path
    requires Sweeping(at)
  {
    match at
    case SweepsBackup => Backup
    case SweepsRejected => Rejected
    case SweepsStaged => Staged
  }

  function AfterSweep(at: AgentPc): AgentPc
    requires Sweeping(at)
  {
    match at
    case SweepsBackup => SweepsRejected
    case SweepsRejected => SweepsStaged
    case SweepsStaged => Announces
  }

  predicate EnabledA(w: World, a: AgentStep) {
    && w.service.Up?
    && match a
       case Sweep(ok) => Sweeping(w.service.at)
       case Announce => w.service.at.Announces?
       case Read(read, removed) => w.service.at.ReadsPending?
       case Die => true
  }

  function ExecA(w: World, a: AgentStep): World
    requires EnabledA(w, a)
  {
    match a
    case Sweep(ok) =>
      var p := SweptPath(w.service.at);
      w.(files := if ok then w.files - {p} else w.files,
         past := w.past.(swept := w.past.swept || (ok && p == Backup && Holds(w.files, Backup, Old))),
         service := w.service.(at := AfterSweep(w.service.at)))
    case Announce =>
      w.(log := w.log.(lines := w.log.lines + [Line(w.log.clock, w.service.image)]), service := w.service.(at := ReadsPending))
    case Read(read, removed) =>
      var found := w.pending && read;
      w.(past := w.past.(claims := if found then w.past.claims + [w.service.image] else w.past.claims),
         pending := w.pending && !(found && removed), service := w.service.(at := Serves))
    case Die => w.(service := Down, past := w.past.(fell := true))
  }

  // ---- the updater -------------------------------------------------------------

  predicate CanStart(w: World) {
    w.service.Down? && Target in w.files
  }

  function Started(w: World): World
    requires CanStart(w)
  {
    w.(service := Up(w.files[Target], SweepsBackup))
  }

  predicate Confirmed(log: seq<Line>, since: nat) {
    exists i :: 0 <= i < |log| && log[i].at > since
  }

  /** A call may always fail; this says when it may succeed. */
  predicate EnabledU(w: World, ok: bool) {
    match w.up
    case Query => ok ==> w.service.Up?
    case Stop => ok ==> w.service.Up?      // a stopped service refuses the control
    case Await => ok ==> w.service.Down?
    case Start => ok ==> CanStart(w)
    case Confirm => ok ==> Confirmed(w.log.lines, w.log.since)
    case Undo(n, act) => (act.Restart? && ok ==> CanStart(w)) && (act.AwaitAgain? && ok ==> w.service.Down?)
    case Done => false
    case Failed(n) => false
    case Killed => false
    case _ => true
  }

  function To(w: World, up: UpdaterPc): World {
    w.(up := up)
  }

  function ExecU(w: World, ok: bool): World
    requires EnabledU(w, ok)
  {
    match w.up
    case Query => To(w, if ok then Probe else Failed(1))
    case Probe => To(w, if ok then Stop else Failed(2))
    case Stop => To(w, if ok then Await else Failed(3))
    case Await => To(w, if ok then DropBackup else Failed(4))
    case DropBackup =>
      if Backup !in w.files then To(w, BackUp)
      else if ok then To(w.(files := w.files - {Backup}), BackUp)
      else To(w, Failed(5))
    case BackUp =>
      To(w.(files := TryMove(w.files, Target, Backup, ok), past := w.past.(before := w.files)), if CanMove(w.files, Target, ok) then Install else Failed(5))
    case Install =>
      To(w.(files := TryMove(w.files, Staged, Target, ok)),
         if CanMove(w.files, Staged, ok) then Start else Undo(6, PutBack))
    case Start => if ok then To(Started(w), Mark) else To(w, Undo(7, MoveAside))
    case Mark => To(w.(log := w.log.(since := w.log.clock, marked := |w.log.lines|)), Confirm)
    case Confirm => To(w, if ok then Done else Undo(8, StopAgain))
    case Undo(n, act) => ExecUndo(w, n, act, ok)
  }

  function ExecUndo(w: World, n: nat, act: Act, ok: bool): World
    requires act.Restart? && ok ==> CanStart(w)
  {
    match act
    case StopAgain => To(w, Undo(n, AwaitAgain))
    case AwaitAgain => To(w, Undo(n, MoveAside))
    case MoveAside =>
      To(w.(files := TryMove(w.files, Target, if n == 7 then Staged else Rejected, ok), past := w.past.(aside := ok)), Undo(n, PutBack))
    case PutBack =>
      To(w.(files := TryMove(w.files, Backup, Target, ok), past := w.past.(putBack := ok)), Undo(n, if n == 6 then Clear else Restart))
    case Restart => To((if ok then Started(w) else w).(past := w.past.(restarted := ok, fell := false)), Undo(n, Clear))
    case Clear => To(w.(pending := w.pending && !ok, past := w.past.(cleared := ok)), Failed(n))
  }

  /** The updater has ended, or was ended. */
  predicate Gone(up: UpdaterPc) {
    up.Done? || up.Failed? || up.Killed?
  }

  // ---- runs ------------------------------------------------------------------

  predicate Enabled(w: World, step: Step) {
    match step
    case U(ok) => EnabledU(w, ok)
    case A(a) => EnabledA(w, a)
    case Tick => true
    case Kill => !Gone(w.up)
    case Operator => Gone(w.up) && CanStart(w)
  }

  function Exec(w: World, step: Step): World
    requires Enabled(w, step)
  {
    match step
    case U(ok) => ExecU(w, ok)
    case A(a) => ExecA(w, a)
    case Tick => w.(log := w.log.(clock := w.log.clock + 1))
    case Kill => To(w, Killed)
    case Operator => Started(w).(past := w.past.(operated := true))
  }

  /** In a calm world a call of the updater fails only when it cannot succeed. */
  predicate Allowed(calm: bool, w: World, step: Step) {
    Enabled(w, step) && (calm && step == U(false) ==> !EnabledU(w, true))
  }

  predicate Runs(calm: bool, w: World, steps: seq<Step>)
    decreases |steps|
  {
    steps == [] || (Allowed(calm, w, steps[0]) && Runs(calm, Exec(w, steps[0]), steps[1..]))
  }

  function Last(calm: bool, w: World, steps: seq<Step>): World
    requires Runs(calm, w, steps)
    decreases |steps|
  {
    if steps == [] then w else Last(calm, Exec(w, steps[0]), steps[1..])
  }

  ghost predicate Reaches(calm: bool, w: World, v: World) {
    exists steps :: Runs(calm, w, steps) && Last(calm, w, steps) == v
  }

  lemma {:induction false} RunsOn(calm: bool, w: World, steps: seq<Step>, step: Step)
    requires Runs(calm, w, steps) && Allowed(calm, Last(calm, w, steps), step)
    ensures Runs(calm, w, steps + [step]) && Last(calm, w, steps + [step]) == Exec(Last(calm, w, steps), step)
    decreases |steps|
  {
    if steps == [] {
      assert [step][1..] == [];
      assert Runs(calm, Exec(w, step), []);
    } else {
      assert (steps + [step])[1..] == steps[1..] + [step];
      RunsOn(calm, Exec(w, steps[0]), steps[1..], step);
    }
  }

  lemma ReachesSelf(calm: bool, w: World)
    ensures Reaches(calm, w, w)
  {
    assert Runs(calm, w, []) && Last(calm, w, []) == w;
  }

  lemma ReachesThen(calm: bool, w: World, v: World, step: Step)
    requires Reaches(calm, w, v) && Allowed(calm, v, step)
    ensures Reaches(calm, w, Exec(v, step))
  {
    var steps :| Runs(calm, w, steps) && Last(calm, w, steps) == v;
    RunsOn(calm, w, steps, step);
  }

  /** The updater is launched: the old agent serves or has stopped, the new binary is
      staged, and the old one is nowhere but in place. */
  predicate Init(w: World) {
    && w.up == Query && !w.past.swept && !w.past.cleared && !w.past.putBack && !w.past.operated && w.past.claims == []
    && !w.past.aside && !w.past.restarted && !w.past.fell
    && w.log.marked == 0 && (forall i :: 0 <= i < |w.log.lines| ==> w.log.lines[i].at <= w.log.clock)
    && Holds(w.files, Target, Old)
    && (forall p :: p in w.files && p != Target ==> w.files[p] != Old)
    && (Staged in w.files ==> w.files[Staged] == New)
    && (w.service.Down? || w.service == Up(Old, Serves))
  }

  // ---- the invariant -----------------------------------------------------------

  /** The old binary is at the target or in the backup, never both, until Cleanup removes
      the backup; it is nowhere else. */
  predicate OneOld(w: World) {
    && !(Holds(w.files, Target, Old) && Holds(w.files, Backup, Old))
    && (w.past.swept <==> !Holds(w.files, Target, Old) && !Holds(w.files, Backup, Old))
    && !Holds(w.files, Rejected, Old) && !Holds(w.files, Staged, Old)
    && (Staged in w.files ==> w.files[Staged] == New)
  }

  predicate BeforeSwap(up: UpdaterPc) {
    || up.Query? || up.Probe? || up.Stop? || up.Await? || up.DropBackup? || up.BackUp?
    || (up.Failed? && up.step <= 5)
  }

  /** The service is down, or runs the given binary. */
  predicate OnlyRuns(w: World, b: Binary) {
    w.service.Up? ==> w.service.image == b
  }

  predicate OnlyClaims(w: World, b: Binary) {
    forall c :: c in w.past.claims ==> c == b
  }

  /** The old binary is kept in the backup until it is swept. */
  predicate BackedUp(w: World) {
    !Holds(w.files, Target, Old) && (Holds(w.files, Backup, Old) <==> !w.past.swept)
  }

  /** Where a restore has ended. */
  predicate Restored(w: World) {
    Holds(w.files, Target, Old) && Backup !in w.files && !w.past.swept
  }

  predicate At(w: World) {
    match w.up
    case Done => Holds(w.files, Target, New) && BackedUp(w) && OnlyRuns(w, New) && Confirmed(w.log.lines, w.log.since)
    case Install => BackedUp(w) && !w.past.swept && w.service.Down? && Target !in w.files
    case Start => BackedUp(w) && !w.past.swept && w.service.Down? && Holds(w.files, Target, New)
    case Mark => BackedUp(w) && OnlyRuns(w, New) && Holds(w.files, Target, New)
    case Confirm => BackedUp(w) && OnlyRuns(w, New) && Holds(w.files, Target, New)
    case Undo(n, act) => 6 <= n <= 8 && AtUndo(w, n, act)
    case Failed(n) => n <= 5 || (n <= 8 && Ended(w, n))
    case _ => true
  }

  predicate AtUndo(w: World, n: nat, act: Act) {
    && (n == 6 ==> w.service.Down? && (act.PutBack? || act.Clear?))
    && (act.StopAgain? || act.AwaitAgain? ==> n == 8)
    && match act
       case StopAgain => BackedUp(w) && OnlyRuns(w, New) && Holds(w.files, Target, New)
       case AwaitAgain => BackedUp(w) && OnlyRuns(w, New) && Holds(w.files, Target, New)
       case MoveAside =>
         BackedUp(w) && OnlyRuns(w, New) && Holds(w.files, Target, New) && (n == 7 ==> !w.past.swept && w.service.Down?)
       case PutBack => BackedUp(w) && OnlyRuns(w, New) && (n <= 7 ==> !w.past.swept && w.service.Down?)
         && (n == 6 ==> Target !in w.files)
       case Restart => Ended(w, n) && OnlyRuns(w, New) && (n == 7 ==> !w.past.swept && w.service.Down?)
       case Clear => Ended(w, n)
  }

  /** After the backup was put back, or could not be. */
  predicate Ended(w: World, n: nat) {
    && (w.past.putBack && !w.past.swept ==> Restored(w))
    && (w.past.putBack && w.past.swept ==> n == 8 && Backup !in w.files)
    && (!w.past.putBack ==> BackedUp(w))
    && (n == 6 && !w.past.putBack ==> Target !in w.files && !w.past.swept && w.service.Down?)
    && (n == 6 ==> OnlyRuns(w, Old) && (!w.past.operated ==> w.service.Down?))
  }

  /** What is left of the pending response and who may have read it. */
  predicate Claiming(pending0: bool, w: World) {
    && (w.pending ==> pending0)
    && (pending0 ==> w.pending || w.past.claims != [] || w.past.cleared)
    && (w.past.cleared ==> w.up.Failed? && 6 <= w.up.step && !w.pending)
    && match w.up
       case Done => OnlyClaims(w, New)
       case Mark => OnlyClaims(w, New)
       case Confirm => OnlyClaims(w, New)
       case Undo(n, act) =>
         (n <= 7 && !act.Clear? ==> w.past.claims == []) && (n == 6 ==> w.past.claims == []) && (!act.Clear? ==> OnlyClaims(w, New))
       case Failed(n) =>
         (n <= 6 ==> OnlyClaims(w, Old) && (!w.past.operated ==> w.past.claims == [])) && (n == 6 && w.past.cleared ==> w.past.claims == [])
       case Killed => true
       case _ => w.past.claims == []
  }

  predicate Quiet(w: World) {
    BeforeSwap(w.up) ==>
      && Holds(w.files, Target, Old) && !w.past.swept && OnlyRuns(w, Old) && (Backup in w.files ==> w.files[Backup] != Old)
      && (w.up.DropBackup? || w.up.BackUp? || (w.up == Failed(5) && !w.past.operated) ==> w.service.Down?)
      && (w.up.BackUp? ==> Backup !in w.files)
      && (w.past.operated || w.service.Down? || w.service.at.Serves?)
  }

  predicate Placed(w: World) {
    OneOld(w) && Quiet(w) && At(w) && (w.past.operated ==> Gone(w.up))
  }

  /** No line is from the future; once the updater waits, the lines written before are not
      newer than the start of the wait and the others are the new agent's. */
  predicate Logged(w: World) {
    && (forall i :: 0 <= i < |w.log.lines| ==> w.log.lines[i].at <= w.log.clock)
    && w.log.marked <= |w.log.lines|
    && (w.up.Confirm? || w.up.Done? ==>
          && (forall i :: 0 <= i < w.log.marked ==> w.log.lines[i].at <= w.log.since)
          && (forall i :: w.log.marked <= i < |w.log.lines| ==> w.log.lines[i].image == New))
  }

  predicate Inv(pending0: bool, w: World) {
    Placed(w) && Logged(w) && Claiming(pending0, w)
  }

  lemma InvInit(w: World)
    requires Init(w)
    ensures Inv(w.pending, w)
  {
  }

  lemma DropStep(w: World, ok: bool)
    requires Placed(w) && w.up.DropBackup?
    ensures Placed(ExecU(w, ok))
  {
  }

  lemma BackUpStep(w: World, ok: bool)
    requires Placed(w) && w.up.BackUp?
    ensures Placed(ExecU(w, ok))
  {
  }

  lemma InstallStep(w: World, ok: bool)
    requires Placed(w) && w.up.Install?
    ensures Placed(ExecU(w, ok))
  {
  }

  predicate Checking(up: UpdaterPc) {
    up.Query? || up.Probe? || up.Stop? || up.Await?
  }

  lemma CheckStep(w: World, ok: bool)
    requires Placed(w) && EnabledU(w, ok) && Checking(w.up)
    ensures Placed(ExecU(w, ok))
  {
    assert ExecU(w, ok) == To(w, ExecU(w, ok).up);
  }

  lemma StartStep(w: World, ok: bool)
    requires Placed(w) && EnabledU(w, ok) && w.up.Start?
    ensures Placed(ExecU(w, ok))
  {
  }

  lemma WaitStep(w: World, ok: bool)
    requires Placed(w) && EnabledU(w, ok) && (w.up.Mark? || w.up.Confirm?)
    ensures Placed(ExecU(w, ok))
  {
  }

  lemma MoveAsideStep(w: World, ok: bool)
    requires Placed(w) && w.up.Undo? && w.up.act.MoveAside?
    ensures Placed(ExecU(w, ok))
  {
  }

  lemma PutBackStep(w: World, ok: bool)
    requires Placed(w) && w.up.Undo? && w.up.act.PutBack?
    ensures Placed(ExecU(w, ok))
  {
  }

  lemma StopAgainStep(w: World, ok: bool)
    requires Placed(w) && EnabledU(w, ok) && w.up.Undo? && (w.up.act.StopAgain? || w.up.act.AwaitAgain?)
    ensures Placed(ExecU(w, ok))
  {
  }

  lemma RestartStep(w: World, ok: bool)
    requires Placed(w) && EnabledU(w, ok) && w.up.Undo? && w.up.act.Restart?
    ensures Placed(ExecU(w, ok))
  {
  }

  lemma ClearStep(w: World, ok: bool)
    requires Placed(w) && EnabledU(w, ok) && w.up.Undo? && w.up.act.Clear?
    ensures Placed(ExecU(w, ok))
  {
  }

  lemma UpdaterStep(w: World, ok: bool)
    requires Placed(w) && EnabledU(w, ok)
    ensures Placed(ExecU(w, ok))
  {
    match w.up
    case DropBackup => DropStep(w, ok);
    case BackUp => BackUpStep(w, ok);
    case Install => InstallStep(w, ok);
    case Undo(n, act) =>
      if act.MoveAside? { MoveAsideStep(w, ok); }
      else if act.PutBack? { PutBackStep(w, ok); }
      else if act.Restart? { RestartStep(w, ok); }
      else if act.Clear? { ClearStep(w, ok); }
      else { StopAgainStep(w, ok); }
    case Start => StartStep(w, ok);
    case Mark => WaitStep(w, ok);
    case Confirm => WaitStep(w, ok);
    case _ => CheckStep(w, ok);
  }

  /** An agent moves no binary: it only removes one of three. */
  lemma AgentKeepsOne(w: World, a: AgentStep)
    requires OneOld(w) && EnabledA(w, a)
    ensures OneOld(ExecA(w, a))
  {
  }

  lemma AgentKeepsQuiet(w: World, a: AgentStep)
    requires Quiet(w) && EnabledA(w, a)
    ensures Quiet(ExecA(w, a))
  {
  }

  lemma AgentKeepsAt(w: World, a: AgentStep)
    requires OneOld(w) && At(w) && !w.up.Undo? && !w.up.Failed? && EnabledA(w, a)
    ensures At(ExecA(w, a))
  {
    if w.up.Done? && a.Announce? {
      var i :| 0 <= i < |w.log.lines| && w.log.lines[i].at > w.log.since;
      assert ExecA(w, a).log.lines[i].at > w.log.since;
    }
  }

  lemma AgentKeepsEnded(w: World, n: nat, a: AgentStep)
    requires OneOld(w) && Ended(w, n) && n <= 8 && EnabledA(w, a)
    requires n == 7 && w.past.putBack ==> !w.past.swept
    ensures Ended(ExecA(w, a), n)
  {
  }

  lemma AgentKeepsUndo(w: World, a: AgentStep)
    requires OneOld(w) && At(w) && w.up.Undo? && EnabledA(w, a) && !w.up.act.Restart? && !w.up.act.Clear?
    ensures At(ExecA(w, a))
  {
  }

  lemma AgentKeepsRestart(w: World, a: AgentStep)
    requires OneOld(w) && At(w) && w.up.Undo? && EnabledA(w, a) && (w.up.act.Restart? || w.up.act.Clear?)
    ensures At(ExecA(w, a))
  {
    AgentKeepsEnded(w, w.up.step, a);
  }

  lemma AgentClaims(pending0: bool, w: World, a: AgentStep)
    requires Inv(pending0, w) && EnabledA(w, a)
    ensures Claiming(pending0, ExecA(w, a))
  {
    var w' := ExecA(w, a);
    assert a.Read? || (w'.past.claims == w.past.claims && w'.pending == w.pending);
  }

  lemma UpdaterClaims(pending0: bool, w: World, ok: bool)
    requires Claiming(pending0, w) && EnabledU(w, ok) && !w.up.Undo?
    ensures Claiming(pending0, ExecU(w, ok))
  {
    var w' := ExecU(w, ok);
    assert w'.past.claims == w.past.claims && w'.pending == w.pending && w'.past.cleared == w.past.cleared;
  }

  lemma UndoClaims(pending0: bool, w: World, ok: bool)
    requires Claiming(pending0, w) && EnabledU(w, ok) && w.up.Undo?
    requires 6 <= w.up.step <= 8 && (w.up.step == 6 ==> w.up.act.PutBack? || w.up.act.Clear?)
    ensures Claiming(pending0, ExecU(w, ok))
  {
    var w' := ExecU(w, ok);
    assert w'.past.claims == w.past.claims;
    assert w.up.act.Clear? || (w'.pending == w.pending && w'.past.cleared == w.past.cleared);
  }

  /** All that Logged depends on. */
  predicate SameLines(w: World, w': World) {
    && w'.log.lines == w.log.lines && w'.log.clock == w.log.clock && w'.log.marked == w.log.marked && w'.log.since == w.log.since
    && !w'.up.Confirm? && (w'.up.Done? ==> w.up.Confirm? || w.up.Done?)
  }

  lemma CheckKeepsLines(w: World, ok: bool)
    requires EnabledU(w, ok) && Checking(w.up)
    ensures SameLines(w, ExecU(w, ok))
  {
  }

  lemma SwapKeepsLines(w: World, ok: bool)
    requires EnabledU(w, ok) && (w.up.DropBackup? || w.up.BackUp? || w.up.Install?)
    ensures SameLines(w, ExecU(w, ok))
  {
  }

  lemma StartKeepsLines(w: World, ok: bool)
    requires EnabledU(w, ok) && (w.up.Start? || w.up.Confirm?)
    ensures SameLines(w, ExecU(w, ok))
  {
  }

  lemma UndoKeepsLines(w: World, ok: bool)
    requires EnabledU(w, ok) && w.up.Undo?
    ensures SameLines(w, ExecU(w, ok))
  {
  }

  lemma LoggedSame(w: World, w': World)
    requires Logged(w) && SameLines(w, w')
    ensures Logged(w')
  {
  }

  lemma LoggedU(w: World, ok: bool)
    requires Logged(w) && EnabledU(w, ok)
    ensures Logged(ExecU(w, ok))
  {
    var w' := ExecU(w, ok);
    match w.up
    case Mark => MarkLogs(w, ok);
    case Undo(n, act) =>
      UndoKeepsLines(w, ok);
      LoggedSame(w, w');
    case Start =>
      StartKeepsLines(w, ok);
      LoggedSame(w, w');
    case Confirm =>
      StartKeepsLines(w, ok);
      LoggedSame(w, w');
    case _ => LoggedEarly(w, ok);
  }

  lemma LoggedEarly(w: World, ok: bool)
    requires Logged(w) && EnabledU(w, ok) && !w.up.Mark? && !w.up.Undo? && !w.up.Start? && !w.up.Confirm?
    ensures Logged(ExecU(w, ok))
  {
    if Checking(w.up) { CheckKeepsLines(w, ok); } else { SwapKeepsLines(w, ok); }
    LoggedSame(w, ExecU(w, ok));
  }

  lemma MarkLogs(w: World, ok: bool)
    requires Logged(w) && w.up.Mark?
    ensures Logged(ExecU(w, ok))
  {
  }

  lemma LoggedA(w: World, a: AgentStep)
    requires Logged(w) && At(w) && EnabledA(w, a)
    ensures Logged(ExecA(w, a))
  {
    var w' := ExecA(w, a);
    assert w'.up == w.up && w'.log.since == w.log.since && w'.log.marked == w.log.marked && w'.log.clock == w.log.clock;
    if !a.Announce? { assert w'.log.lines == w.log.lines; }
  }

  lemma InvStep(pending0: bool, w: World, step: Step)
    requires Inv(pending0, w) && Enabled(w, step)
    ensures Inv(pending0, Exec(w, step))
  {
    match step
    case U(ok) => UpdaterInv(pending0, w, ok);
    case A(a) =>
      LoggedA(w, a);
      AgentInv(pending0, w, a);
    case Tick => TickInv(pending0, w);
    case Kill => KillInv(pending0, w);
    case Operator => OperatorInv(pending0, w);
  }

  lemma TickInv(pending0: bool, w: World)
    requires Inv(pending0, w)
    ensures Inv(pending0, Exec(w, Tick))
  {
  }

  lemma UpdaterInv(pending0: bool, w: World, ok: bool)
    requires Inv(pending0, w) && EnabledU(w, ok)
    ensures Inv(pending0, ExecU(w, ok))
  {
    LoggedU(w, ok);
    if w.up.Undo? { UndoClaims(pending0, w, ok); } else { UpdaterClaims(pending0, w, ok); }
    UpdaterStep(w, ok);
  }

  lemma KillInv(pending0: bool, w: World)
    requires Inv(pending0, w) && !Gone(w.up)
    ensures Inv(pending0, To(w, Killed))
  {
  }

  lemma OperatorInv(pending0: bool, w: World)
    requires Inv(pending0, w) && Gone(w.up) && CanStart(w)
    ensures Inv(pending0, Exec(w, Operator))
  {
  }

  lemma AgentInv(pending0: bool, w: World, a: AgentStep)
    requires Inv(pending0, w) && EnabledA(w, a) && Logged(ExecA(w, a))
    ensures Inv(pending0, ExecA(w, a))
  {
    AgentKeepsOne(w, a);
    AgentKeepsQuiet(w, a);
    AgentClaims(pending0, w, a);
    if w.up.Undo? {
      if w.up.act.Restart? || w.up.act.Clear? { AgentKeepsRestart(w, a); } else { AgentKeepsUndo(w, a); }
    } else if w.up.Failed? {
      if 6 <= w.up.step { AgentKeepsEnded(w, w.up.step, a); }
    } else {
      AgentKeepsAt(w, a);
    }
  }

  lemma {:induction false} InvRun(calm: bool, pending0: bool, w: World, steps: seq<Step>)
    requires Inv(pending0, w) && Runs(calm, w, steps)
    ensures Inv(pending0, Last(calm, w, steps))
    decreases |steps|
  {
    if steps == [] {
    } else {
      InvStep(pending0, w, steps[0]);
      InvRun(calm, pending0, Exec(w, steps[0]), steps[1..]);
    }
  }

  lemma ReachesInv(calm: bool, w0: World, w: World)
    requires Init(w0) && Reaches(calm, w0, w)
    ensures Inv(w0.pending, w)
  {
    InvInit(w0);
    var steps :| Runs(calm, w0, steps) && Last(calm, w0, steps) == w;
    InvRun(calm, w0.pending, w0, steps);
  }

  // ---- what holds at every crash point -------------------------------------------

  predicate InStepEight(up: UpdaterPc) {
    up.Mark? || up.Confirm? || up.Done? || ((up.Undo? || up.Failed?) && up.step == 8)
  }

  /** The old binary is at the target or in the backup, in exactly one of them, at every
      crash point: unless a started agent's Cleanup has removed the backup, which can
      happen only once the new binary runs, under the updater or after its death. */
  lemma OldBinaryKept(calm: bool, w0: World, w: World)
    requires Init(w0) && Reaches(calm, w0, w)
    ensures !w.past.swept <==> Holds(w.files, Target, Old) || Holds(w.files, Backup, Old)
    ensures !(Holds(w.files, Target, Old) && Holds(w.files, Backup, Old))
    ensures w.past.swept ==> InStepEight(w.up) || w.up.Killed? || (!w.past.putBack && (w.up == Undo(7, Clear) || w.up == Failed(7)))
  {
    ReachesInv(calm, w0, w);
  }

  /** Success: the new binary is in place, and it has logged a start of its own after the
      updater began to wait. */
  lemma SuccessInstalls(calm: bool, w0: World, w: World)
    requires Init(w0) && Reaches(calm, w0, w) && w.up.Done?
    ensures Holds(w.files, Target, New) && OnlyRuns(w, New) && OnlyClaims(w, New)
    ensures exists i :: w.log.marked <= i < |w.log.lines| && w.log.lines[i].image == New && w.log.lines[i].at > w.log.since
  {
    ReachesInv(calm, w0, w);
    var i :| 0 <= i < |w.log.lines| && w.log.lines[i].at > w.log.since;
    assert w.log.marked <= i;
  }

  /** An error at step 6 or later leaves the old binary in place exactly when the restoring
      rename did not fail and the backup was still there, which it always is except after
      step 8. An error before leaves it in place always. */
  lemma RollbackRestores(calm: bool, w0: World, w: World)
    requires Init(w0) && Reaches(calm, w0, w) && w.up.Failed?
    ensures w.up.step <= 8
    ensures w.up.step <= 5 ==> Holds(w.files, Target, Old)
    ensures 6 <= w.up.step ==> (Holds(w.files, Target, Old) <==> w.past.putBack && !w.past.swept)
    ensures 6 <= w.up.step <= 7 ==> (Holds(w.files, Target, Old) <==> w.past.putBack)
  {
    ReachesInv(calm, w0, w);
  }

  /** An error at step 5 or 6 leaves the service down until somebody starts it; an error
      before never leaves an agent behind that the updater started. */
  lemma ServiceAfterError(calm: bool, w0: World, w: World)
    requires Init(w0) && Reaches(calm, w0, w) && w.up.Failed? && w.up.step <= 6 && !w.past.operated
    ensures w.up.step in {5, 6} ==> w.service.Down?
    ensures w.service.Down? || w.service == Up(Old, Serves)
  {
    ReachesInv(calm, w0, w);
  }

  /** An error at step 6 or later removes the pending response, unless that removal fails.
      An earlier error leaves it where it is until an agent reads it. */
  lemma PendingAfterError(calm: bool, w0: World, w: World)
    requires Init(w0) && Reaches(calm, w0, w) && w.up.Failed?
    ensures 6 <= w.up.step && w.past.cleared ==> !w.pending
    ensures w.up.step <= 5 && w.past.claims == [] ==> w.pending == w0.pending
  {
    ReachesInv(calm, w0, w);
  }

  // ---- a calm world ----------------------------------------------------------------

  /** The backup, if there is one, is that of the old binary. */
  predicate OldBackup(w: World) {
    Backup in w.files ==> w.files[Backup] == Old
  }

  /** Where a calm world can be. */
  predicate CalmAt(w: World) {
    && (w.up.Undo? ==> w.up.step != 7)
    && (w.up.Failed? ==> w.up.step in {1, 3, 4, 6, 8} && (6 <= w.up.step ==> w.past.putBack && w.past.cleared))
    && (w.up.Undo? && (w.up.act.Restart? || w.up.act.Clear?) ==> w.past.putBack)
  }

  /** What the target holds there: nothing new is left once it was moved aside. */
  predicate CalmTarget(w: World) {
    && (AfterBackup(w.up) ==> OldBackup(w))
    && (w.up.Undo? && w.up.act.PutBack? ==> Target !in w.files)
    && (PutBackDone(w.up) && Target in w.files ==> w.files[Target] == Old)
  }

  predicate AfterBackup(up: UpdaterPc) {
    up.Install? || up.Start? || up.Mark? || up.Confirm? || up.Undo?
  }

  predicate PutBackDone(up: UpdaterPc) {
    (up.Undo? && (up.act.Restart? || up.act.Clear?)) || (up.Failed? && 6 <= up.step)
  }

  lemma CalmStepU(pending0: bool, w: World, ok: bool)
    requires Inv(pending0, w) && CalmAt(w) && Allowed(true, w, U(ok))
    ensures CalmAt(ExecU(w, ok))
  {
  }

  lemma CalmTargetU(pending0: bool, w: World, ok: bool)
    requires Inv(pending0, w) && CalmAt(w) && CalmTarget(w) && Allowed(true, w, U(ok))
    ensures CalmTarget(ExecU(w, ok))
  {
    if w.up.BackUp? {
      CalmBackUp(w, ok);
    } else if w.up.Install? {
      CalmInstall(w, ok);
    } else if w.up.Undo? {
      CalmUndo(w, ok);
    } else {
      CalmOther(w, ok);
    }
  }

  lemma CalmOther(w: World, ok: bool)
    requires Placed(w) && CalmTarget(w) && EnabledU(w, ok) && !w.up.BackUp? && !w.up.Install? && !w.up.Undo?
    ensures CalmTarget(ExecU(w, ok))
  {
    if Checking(w.up) { CalmCheck(w, ok); } else if w.up.DropBackup? { CalmDrop(w, ok); }
  }

  lemma CalmCheck(w: World, ok: bool)
    requires EnabledU(w, ok) && Checking(w.up)
    ensures CalmTarget(ExecU(w, ok))
  {
    assert ExecU(w, ok) == To(w, ExecU(w, ok).up);
  }

  lemma CalmDrop(w: World, ok: bool)
    requires w.up.DropBackup?
    ensures CalmTarget(ExecU(w, ok))
  {
  }

  lemma CalmBackUp(w: World, ok: bool)
    requires Placed(w) && w.up.BackUp?
    ensures CalmTarget(ExecU(w, ok))
  {
  }

  lemma CalmInstall(w: World, ok: bool)
    requires Placed(w) && CalmTarget(w) && w.up.Install?
    ensures CalmTarget(ExecU(w, ok))
  {
  }

  lemma CalmUndo(w: World, ok: bool)
    requires Placed(w) && CalmTarget(w) && w.up.Undo? && Allowed(true, w, U(ok))
    ensures CalmTarget(ExecU(w, ok))
  {
    if w.up.act.MoveAside? {
      assert ok;
    } else if !w.up.act.PutBack? {
      assert ExecU(w, ok).files == w.files;
    }
  }

  lemma CalmStep(pending0: bool, w: World, step: Step)
    requires Inv(pending0, w) && CalmAt(w) && CalmTarget(w) && Allowed(true, w, step)
    ensures CalmAt(Exec(w, step)) && CalmTarget(Exec(w, step))
  {
    if step.U? {
      CalmStepU(pending0, w, step.ok);
      CalmTargetU(pending0, w, step.ok);
    } else {
      var w' := Exec(w, step);
      assert w'.up == w.up || w'.up.Killed?;
      assert forall p :: p in w'.files ==> p in w.files && w'.files[p] == w.files[p];
    }
  }

  lemma {:induction false} CalmRun(pending0: bool, w: World, steps: seq<Step>)
    requires Inv(pending0, w) && CalmAt(w) && CalmTarget(w) && Runs(true, w, steps)
    ensures CalmAt(Last(true, w, steps)) && CalmTarget(Last(true, w, steps))
    decreases |steps|
  {
    if steps == [] {
    } else {
      CalmStep(pending0, w, steps[0]);
      InvStep(pending0, w, steps[0]);
      CalmRun(pending0, Exec(w, steps[0]), steps[1..]);
    }
  }

  /** When calls fail only where they cannot succeed, an upgrade ends in an error only at
      step 1 (not running), 3 (no longer running), 4 (does not stop), 6 (nothing staged) or
      8 (no start seen).
      Only the last can lose the old binary, to Cleanup, and it then leaves no binary at
      the target at all. */
  lemma CalmErrors(w0: World, w: World)
    requires Init(w0) && Reaches(true, w0, w) && w.up.Failed?
    ensures w.up.step in {1, 3, 4, 6, 8}
    ensures Holds(w.files, Target, Old) <==> !w.past.swept
    ensures Target in w.files <==> !w.past.swept
    ensures w.past.swept ==> w.up.step == 8
    ensures 6 <= w.up.step ==> !w.pending
  {
    InvInit(w0);
    var steps :| Runs(true, w0, steps) && Last(true, w0, steps) == w;
    CalmRun(w0.pending, w0, steps);
    ReachesInv(true, w0, w);
  }

  // ---- the restart after a rollback ----------------------------------------------------

  /** Once the undoing of step 7 or 8 has come past its restart: if that started the service
      it runs, the old binary if that was put back, or an agent has died since. */
  predicate Restarting(w: World) {
    (w.up.Undo? && w.up.act.Clear? && 7 <= w.up.step) || (w.up.Failed? && 7 <= w.up.step) ==>
      w.past.restarted && !w.past.fell ==>
        w.service.Up? && (w.past.putBack && !w.past.swept ==> w.service.image == Old)
  }

  /** And in a calm world it runs whenever there was a binary to start. */
  predicate CalmRestarting(w: World) {
    (w.up.Undo? && w.up.act.Clear? && 7 <= w.up.step) || (w.up.Failed? && 7 <= w.up.step) ==>
      w.service.Up? || w.past.fell || w.past.swept
  }

  lemma RestartingStep(pending0: bool, w: World, step: Step)
    requires Inv(pending0, w) && Restarting(w) && Enabled(w, step)
    ensures Restarting(Exec(w, step))
  {
    if step.U? { RestartingU(w, step.ok); }
  }

  lemma RestartingU(w: World, ok: bool)
    requires Placed(w) && Restarting(w) && EnabledU(w, ok)
    ensures Restarting(ExecU(w, ok))
  {
    if w.up.Undo? {
      RestartingUndo(w, ok);
    } else {
      EarlyEnds(w, ok);
    }
  }

  lemma EarlyEnds(w: World, ok: bool)
    requires EnabledU(w, ok) && !w.up.Undo?
    ensures var up := ExecU(w, ok).up; (up.Failed? ==> up.step <= 5) && (up.Undo? ==> !up.act.Clear?)
  {
  }

  lemma RestartingUndo(w: World, ok: bool)
    requires At(w) && Restarting(w) && EnabledU(w, ok) && w.up.Undo?
    ensures Restarting(ExecU(w, ok))
  {
  }

  lemma CalmRestartingStep(pending0: bool, w: World, step: Step)
    requires Inv(pending0, w) && CalmRestarting(w) && CalmAt(w) && CalmTarget(w) && Allowed(true, w, step)
    ensures CalmRestarting(Exec(w, step))
  {
    if step.U? { CalmRestartingU(w, step.ok); }
  }

  lemma CalmRestartingU(w: World, ok: bool)
    requires Placed(w) && CalmRestarting(w) && CalmAt(w) && CalmTarget(w) && Allowed(true, w, U(ok))
    ensures CalmRestarting(ExecU(w, ok))
  {
    if !w.up.Undo? { assert ExecU(w, ok).up.Failed? ==> ExecU(w, ok).up.step <= 5; }
  }

  lemma {:induction false} RestartingRun(calm: bool, pending0: bool, w: World, steps: seq<Step>)
    requires Inv(pending0, w) && Restarting(w) && Runs(calm, w, steps)
    ensures Restarting(Last(calm, w, steps))
    decreases |steps|
  {
    if steps != [] {
      RestartingStep(pending0, w, steps[0]);
      InvStep(pending0, w, steps[0]);
      RestartingRun(calm, pending0, Exec(w, steps[0]), steps[1..]);
    }
  }

  lemma {:induction false} CalmRestartingRun(pending0: bool, w: World, steps: seq<Step>)
    requires Inv(pending0, w) && CalmRestarting(w) && CalmAt(w) && CalmTarget(w) && Runs(true, w, steps)
    ensures CalmRestarting(Last(true, w, steps))
    decreases |steps|
  {
    if steps != [] {
      CalmRestartingStep(pending0, w, steps[0]);
      CalmStep(pending0, w, steps[0]);
      InvStep(pending0, w, steps[0]);
      CalmRestartingRun(pending0, Exec(w, steps[0]), steps[1..]);
    }
  }

  /** The restart of steps 7 and 8, whatever is left of the pending response: in a calm world,
      if the service is down and there is a binary at the target, it then runs that binary. */
  lemma RestartBrings(w: World, n: nat, ok: bool)
    requires w.up == Undo(n, Restart) && Allowed(true, w, U(ok)) && w.service.Down? && Target in w.files
    ensures ExecU(w, ok).service == Up(w.files[Target], SweepsBackup)
  {
    assert EnabledU(w, true);
  }

  /** After an error at step 7 or 8 whose undoing started the service, it still runs, the old
      binary if that was put back, unless an agent has died since. In a calm world it runs
      after step 8 unless an agent has died since or there was nothing left to start. */
  lemma RollbackRestarts(calm: bool, w0: World, w: World)
    requires Init(w0) && Reaches(calm, w0, w) && w.up.Failed? && 7 <= w.up.step && !w.past.fell
    ensures w.past.restarted ==> w.service.Up? && (w.past.putBack && !w.past.swept ==> w.service.image == Old)
    ensures calm && !w.past.swept ==> w.service.Up?
  {
    InvInit(w0);
    var steps :| Runs(calm, w0, steps) && Last(calm, w0, steps) == w;
    RestartingRun(calm, w0.pending, w0, steps);
    if calm { CalmRestartingRun(w0.pending, w0, steps); }
  }

  // ---- the directory after an undone swap ------------------------------------------------

  /** The directory on the way, against what it was when the backup was about to be made. */
  predicate Traced(w: World) {
    var before := w.past.before;
    match w.up
    case Install => Kept(before) && w.files == Moved(before, Target, Backup)
    case Start => Kept(before) && Staged in before && w.files == Swapped(before)
    case Undo(n, act) =>
      && (n == 6 && act.PutBack? ==> Kept(before) && w.files == Moved(before, Target, Backup))
      && (n == 7 && act.MoveAside? ==> Kept(before) && Staged in before && w.files == Swapped(before))
      && (n == 7 && act.PutBack? && w.past.aside ==>
            Kept(before) && Staged in before && w.files == Moved(Swapped(before), Target, Staged))
      && (n == 7 && act.Restart? && w.past.aside && w.past.putBack ==> w.files == before)
      && (n == 7 && act.Clear? && w.past.aside && w.past.putBack ==> Swept(before, w.files, !w.past.restarted))
      && (n == 7 && act.Clear? && !w.past.restarted ==> w.service.Down?)
      && (n == 6 && act.Clear? && w.past.putBack ==> w.files == before)
    case Failed(n) =>
      && (n == 7 && w.past.aside && w.past.putBack ==> Swept(before, w.files, !w.past.restarted && !w.past.operated))
      && (n == 7 && !w.past.restarted && !w.past.operated ==> w.service.Down?)
      && (n == 6 && w.past.putBack ==> Swept(before, w.files, !w.past.operated))
    case _ => true
  }

  predicate Kept(before: Files) {
    Target in before && Backup !in before
  }

  function Swapped(before: Files): Files
    requires Kept(before) && Staged in before
  {
    Moved(Moved(before, Target, Backup), Staged, Target)
  }

  /** As it was, but for what a started agent has removed. */
  predicate Swept(before: Files, files: Files, untouched: bool) {
    && (forall p :: p in files ==> p in before && files[p] == before[p])
    && (forall p :: p in before && p !in files ==> p in {Backup, Rejected, Staged})
    && (untouched ==> files == before)
  }

  lemma TracedA(w: World, a: AgentStep)
    requires At(w) && Traced(w) && EnabledA(w, a)
    ensures Traced(ExecA(w, a))
  {
  }

  lemma TracedU(w: World, ok: bool)
    requires Placed(w) && Traced(w) && EnabledU(w, ok)
    ensures Traced(ExecU(w, ok))
  {
    match w.up
    case BackUp =>
    case Install => if Staged in w.files { assert Staged in w.past.before; }
    case Start =>
    case Undo(n, act) => TracedUndo(w, n, act, ok);
    case _ =>
  }

  lemma TracedUndo(w: World, n: nat, act: Act, ok: bool)
    requires At(w) && Traced(w) && w.up == Undo(n, act) && EnabledU(w, ok)
    ensures Traced(ExecU(w, ok))
  {
    match act
    case MoveAside =>
    case PutBack => TracedPutBack(w, n, ok);
    case Restart =>
    case Clear =>
    case _ =>
  }

  lemma TracedPutBack(w: World, n: nat, ok: bool)
    requires At(w) && Traced(w) && w.up == Undo(n, PutBack)
    ensures Traced(ExecU(w, ok))
  {
    if ok {
      if n == 7 && w.past.aside { SwapUndone(w.past.before); }
      if n == 6 { BackUpUndone(w.past.before); }
    }
  }

  lemma BackUpUndone(files: Files)
    requires Kept(files)
    ensures Moved(Moved(files, Target, Backup), Backup, Target) == files
  {
  }

  lemma TracedStep(pending0: bool, w: World, step: Step)
    requires Inv(pending0, w) && Traced(w) && Enabled(w, step)
    ensures Traced(Exec(w, step))
  {
    match step
    case U(ok) => TracedU(w, ok);
    case A(a) => TracedA(w, a);
    case _ =>
  }

  lemma {:induction false} TracedRun(calm: bool, pending0: bool, w: World, steps: seq<Step>)
    requires Inv(pending0, w) && Traced(w) && Runs(calm, w, steps)
    ensures Traced(Last(calm, w, steps))
    decreases |steps|
  {
    if steps != [] {
      TracedStep(pending0, w, steps[0]);
      InvStep(pending0, w, steps[0]);
      TracedRun(calm, pending0, Exec(w, steps[0]), steps[1..]);
    }
  }

  /** The updater has come to its backup, for good. */
  predicate Past5(up: UpdaterPc) {
    up.Install? || up.Start? || up.Mark? || up.Confirm? || up.Undo? || up.Done? || up.Failed? || up.Killed?
  }

  lemma {:induction false} BeforeStays(calm: bool, w: World, steps: seq<Step>)
    requires Past5(w.up) && Runs(calm, w, steps)
    ensures Last(calm, w, steps).past.before == w.past.before
    decreases |steps|
  {
    if steps != [] {
      BeforeStep(w, steps[0]);
      BeforeStays(calm, Exec(w, steps[0]), steps[1..]);
    }
  }

  lemma BeforeStep(w: World, step: Step)
    requires Past5(w.up) && Enabled(w, step)
    ensures Past5(Exec(w, step).up) && Exec(w, step).past.before == w.past.before
  {
    match step
    case U(ok) => if w.up.Undo? { BeforeUndo(w, w.up.step, w.up.act, ok); } else { BeforeMove(w, ok); }
    case _ =>
  }

  lemma BeforeMove(w: World, ok: bool)
    requires Past5(w.up) && !w.up.Undo? && EnabledU(w, ok)
    ensures Past5(ExecU(w, ok).up) && ExecU(w, ok).past.before == w.past.before
  {
  }

  lemma BeforeUndo(w: World, n: nat, act: Act, ok: bool)
    requires act.Restart? && ok ==> CanStart(w)
    ensures var v := ExecUndo(w, n, act, ok); Past5(v.up) && v.past.before == w.past.before
  {
    match act
    case MoveAside =>
    case PutBack =>
    case _ =>
  }

  /** For every run from the moment before the backup is made: an error at step 7 whose two
      undoing renames are not refused, and one at step 6 whose one is not, leave the directory
      as it was then, until an agent is started again; and of that the agent removes only
      what Cleanup removes. */
  lemma DirectoryRestored(calm: bool, w0: World, v: World, ok: bool, steps: seq<Step>)
    requires Init(w0) && Reaches(calm, w0, v) && v.up.BackUp? && Allowed(calm, v, U(ok)) && Runs(calm, ExecU(v, ok), steps)
    requires var w := Last(calm, ExecU(v, ok), steps);
             w.up.Failed? && w.past.putBack && (w.up.step == 6 || (w.up.step == 7 && w.past.aside))
    ensures var w := Last(calm, ExecU(v, ok), steps);
            && (forall p :: p in w.files ==> p in v.files && w.files[p] == v.files[p])
            && (forall p :: p in v.files && p !in w.files ==> p in {Backup, Rejected, Staged})
            && (!w.past.operated && (w.up.step == 6 || !w.past.restarted) ==> w.files == v.files)
  {
    TracedFrom(calm, w0, v, ok, steps);
    BeforeStays(calm, ExecU(v, ok), steps);
  }

  lemma TracedFrom(calm: bool, w0: World, v: World, ok: bool, steps: seq<Step>)
    requires Init(w0) && Reaches(calm, w0, v) && v.up.BackUp? && EnabledU(v, ok) && Runs(calm, ExecU(v, ok), steps)
    ensures Traced(Last(calm, ExecU(v, ok), steps))
  {
    ReachesInv(calm, w0, v);
    InvStep(w0.pending, v, U(ok));
    TracedU(v, ok);
    TracedRun(calm, w0.pending, ExecU(v, ok), steps);
  }

  /** Moving aside: the new binary goes back to where it was staged after step 7, and to its
      own place after step 8; nothing else moves. */
  lemma MovesNewAside(calm: bool, w0: World, w: World)
    requires Init(w0) && Reaches(calm, w0, w) && w.up.Undo? && w.up.act.MoveAside?
    ensures var files := ExecU(w, true).files;
            && Target !in files && Holds(files, if w.up.step == 7 then Staged else Rejected, New)
            && forall p :: p !in {Target, Staged, Rejected} ==> (p in files <==> p in w.files) && (p in files ==> files[p] == w.files[p])
  {
    ReachesInv(calm, w0, w);
  }

  // ---- what each check is for ----------------------------------------------------------

  /** In a calm world each check passes exactly when what it checks is so: the service runs
      (steps 1 and 3), has stopped (step 4), the new binary is staged (step 6), a start newer
      than the wait is in the log (step 8). */
  lemma ChecksTell(w: World, ok: bool)
    requires Allowed(true, w, U(ok))
    ensures w.up.Query? ==> ExecU(w, ok).up == if w.service.Up? then Probe else Failed(1)
    ensures w.up.Stop? ==> ExecU(w, ok).up == if w.service.Up? then Await else Failed(3)
    ensures w.up.Await? ==> ExecU(w, ok).up == if w.service.Down? then DropBackup else Failed(4)
    ensures w.up.Install? ==> ExecU(w, ok).up == if Staged in w.files then Start else Undo(6, PutBack)
    ensures w.up.Confirm? ==>
              ExecU(w, ok).up == if exists i :: 0 <= i < |w.log.lines| && w.log.lines[i].at > w.log.since then Done else Undo(8, StopAgain)
  {
    assert ok <==> EnabledU(w, true);
  }

  // ---- renaming --------------------------------------------------------------------

  /** Undoing step 7 undoes steps 5 and 6: the four renames leave the directory exactly as
      it was before the backup was made. */
  lemma SwapUndone(files: Files)
    requires Target in files && Staged in files && Backup !in files
    ensures var swapped := Moved(Moved(files, Target, Backup), Staged, Target);
            Moved(Moved(swapped, Target, Staged), Backup, Target) == files
  {
    var backedUp := Moved(files, Target, Backup);
    var swapped := Moved(backedUp, Staged, Target);
    var aside := Moved(swapped, Target, Staged);
    assert aside[Backup] == files[Target] && aside[Staged] == files[Staged] && Target !in aside;
    forall p ensures p in Moved(aside, Backup, Target) <==> p in files {
      assert p == Target || p == Backup || p == Staged || (p in aside <==> p in files);
    }
  }
}
