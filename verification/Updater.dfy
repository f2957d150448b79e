/** The code of the updater process, over a directory and a service that a started agent
    changes between any two of its calls. Every run of it is a run of the steps of
    module Upgrade. */
module Updater {
  import opened Upgrade

  /** What the code cannot decide, for each moment: what the agent and the clock do before
      a call, and whether the call succeeds; in a calm world it does whenever it can. */
  datatype Env = Env(others: nat -> seq<Step>, ok: nat -> bool, calm: bool) {
    predicate Ok(moment: nat) {
      calm || ok(moment)
    }
  }

  const STOP_POLLS: nat := 45      // 90 seconds, one poll every two
  const STARTUP_POLLS: nat := 15   // 30 seconds

  /** Everything but the updater's own progress and what only it writes. */
  predicate SameUpdater(w: World, v: World) {
    && v.up == w.up && v.log.since == w.log.since && v.log.marked == w.log.marked
    && v.past.putBack == w.past.putBack && v.past.cleared == w.past.cleared && v.past.operated == w.past.operated
    && v.past.before == w.past.before && v.past.aside == w.past.aside && v.past.restarted == w.past.restarted
  }

  lemma OthersKeepUpdater(w: World, step: Step)
    requires Enabled(w, step) && (step.A? || step.Tick?)
    ensures SameUpdater(w, Exec(w, step))
  {
    if step.A? { AgentKeepsUpdater(w, step.a); }
  }

  lemma AgentKeepsUpdater(w: World, a: AgentStep)
    requires EnabledA(w, a)
    ensures SameUpdater(w, ExecA(w, a))
  {
  }

  lemma PutBackReached(calm: bool, w0: World, w: World, n: nat, ok: bool)
    requires Reaches(calm, w0, w) && w.up == Undo(n, PutBack) && (calm ==> ok)
    ensures Reaches(calm, w0, ExecUndo(w, n, PutBack, ok))
  {
    ReachesThen(calm, w0, w, U(ok));
  }

  class Run {
    var files: Files
    var pending: bool
    var service: Service
    var rest: World         // log, clock and histories
    var up: UpdaterPc
    var moment: nat

    constructor (w: World)
      ensures Now() == w
    {
      files, pending, service, rest, up, moment := w.files, w.pending, w.service, w, w.up, 0;
    }

    function Now(): World
      reads this
    {
      rest.(files := files, pending := pending, service := service, up := up)
    }

    /** The agent and the clock move. */
    method Others(e: Env, ghost w0: World)
      requires Reaches(e.calm, w0, Now())
      modifies this
      ensures rest.past.operated == old(rest.past.operated)
      ensures Reaches(e.calm, w0, Now()) && SameUpdater(old(Now()), Now()) && moment == old(moment) + 1
    {
      var steps := e.others(moment);
      for i := 0 to |steps|
        invariant Reaches(e.calm, w0, Now()) && SameUpdater(old(Now()), Now()) && moment == old(moment)
      {
        if (steps[i].A? || steps[i].Tick?) && Enabled(Now(), steps[i]) { OtherMoves(e, steps[i], w0); }
      }
      moment := moment + 1;
    }

    method OtherMoves(e: Env, step: Step, ghost w0: World)
      requires Reaches(e.calm, w0, Now()) && (step.A? || step.Tick?) && Enabled(Now(), step)
      modifies this
      ensures Reaches(e.calm, w0, Now()) && SameUpdater(old(Now()), Now()) && moment == old(moment)
    {
      ghost var w := Now();
      OthersKeepUpdater(w, step);
      ReachesThen(e.calm, w0, w, step);
      var v := Exec(Now(), step);
      files, pending, service, rest := v.files, v.pending, v.service, v;
    }

    // ---- calls of the operating system -------------------------------------------

    method Rename(from: Path, to: Path, ok: bool) returns (moved: bool)
      modifies this
      ensures moved == CanMove(old(files), from, ok) && moment == old(moment)
      ensures Now() == old(Now()).(files := TryMove(old(files), from, to, ok))
    {
      moved := ok && from in files;
      if moved { files := files[to := files[from]] - {from}; }
    }

    /** The service manager starts whatever binary is at the target. */
    method StartService(ok: bool) returns (started: bool)
      modifies this
      ensures started == (ok && CanStart(old(Now())))
      ensures Now() == if started then Started(old(Now())) else old(Now())
    {
      started := ok && service.Down? && Target in files;
      if started { service := Up(files[Target], SweepsBackup); }
    }

    // ---- steps 1 to 5 --------------------------------------------------------------

    method ValidateServiceRunning(e: Env, ghost w0: World) returns (ok: bool)
      requires Reaches(e.calm, w0, Now()) && up == Query
      modifies this
      ensures rest.past.operated == old(rest.past.operated)
      ensures Reaches(e.calm, w0, Now()) && up == if ok then Probe else Failed(1)
    {
      Others(e, w0);
      ghost var w := Now();
      ok := e.Ok(moment) && service.Up?;
      up := if ok then Probe else Failed(1);
      ReachesThen(e.calm, w0, w, U(ok));
    }

    method ValidateDirWritable(e: Env, ghost w0: World) returns (ok: bool)
      requires Reaches(e.calm, w0, Now()) && up == Probe
      modifies this
      ensures rest.past.operated == old(rest.past.operated)
      ensures Reaches(e.calm, w0, Now()) && up == if ok then Stop else Failed(2)
    {
      Others(e, w0);
      ghost var w := Now();
      ok := e.Ok(moment);
      up := if ok then Stop else Failed(2);
      ReachesThen(e.calm, w0, w, U(ok));
    }

    method StopService(e: Env, ghost w0: World) returns (ok: bool)
      requires Reaches(e.calm, w0, Now()) && up == Stop
      modifies this
      ensures rest.past.operated == old(rest.past.operated)
      ensures Reaches(e.calm, w0, Now()) && up == if ok then Await else Failed(3)
    {
      Others(e, w0);
      ghost var w := Now();
      ok := e.Ok(moment) && service.Up?;
      up := if ok then Await else Failed(3);
      ReachesThen(e.calm, w0, w, U(ok));
    }

    /** Polls until the service is down or the time is over. */
    method PollStopped(e: Env, polls: nat, ghost w0: World) returns (stopped: bool)
      requires Reaches(e.calm, w0, Now())
      modifies this
      ensures rest.past.operated == old(rest.past.operated)
      ensures Reaches(e.calm, w0, Now()) && SameUpdater(old(Now()), Now())
      ensures stopped ==> service.Down?
      ensures !stopped ==> moment == old(moment) + polls
      ensures !stopped && e.calm && polls > 0 ==> service.Up?
    {
      for poll := 0 to polls
        invariant Reaches(e.calm, w0, Now()) && SameUpdater(old(Now()), Now()) && moment == old(moment) + poll
        invariant e.calm && poll > 0 ==> service.Up?
      {
        Others(e, w0);
        if e.Ok(moment) && service.Down? { return true; }
      }
      return false;
    }

    method WaitForServiceStopped(e: Env, ghost w0: World) returns (ok: bool)
      requires Reaches(e.calm, w0, Now()) && up == Await
      modifies this
      ensures rest.past.operated == old(rest.past.operated)
      ensures Reaches(e.calm, w0, Now()) && up == if ok then DropBackup else Failed(4)
      ensures !ok ==> moment == old(moment) + 45
    {
      ok := PollStopped(e, STOP_POLLS, w0);
      ghost var w := Now();
      up := if ok then DropBackup else Failed(4);
      ReachesThen(e.calm, w0, w, U(ok));
    }

    method DropOldBackup(e: Env, ghost w0: World) returns (ok: bool)
      requires Reaches(e.calm, w0, Now()) && up == DropBackup
      modifies this
      ensures rest.past.operated == old(rest.past.operated)
      ensures Reaches(e.calm, w0, Now()) && up == if ok then BackUp else Failed(5)
    {
      Others(e, w0);
      ghost var w := Now();
      var removed := e.Ok(moment);
      if Backup in files && removed { files := files - {Backup}; }
      ok := Backup !in files;
      up := if ok then BackUp else Failed(5);
      ReachesThen(e.calm, w0, w, U(removed));
    }

    method MoveToBackup(e: Env, ghost w0: World) returns (ok: bool)
      requires Reaches(e.calm, w0, Now()) && up == BackUp
      modifies this
      ensures rest.past.operated == old(rest.past.operated)
      ensures Reaches(e.calm, w0, Now()) && up == if ok then Install else Failed(5)
    {
      Others(e, w0);
      ghost var w := Now();
      var allowed := e.Ok(moment);
      rest := rest.(past := rest.past.(before := files));
      ok := Rename(Target, Backup, allowed);
      up := if ok then Install else Failed(5);
      ReachesThen(e.calm, w0, w, U(allowed));
    }

    // ---- steps 6 to 8 and their undoing ----------------------------------------------

    method InstallStaged(e: Env, ghost w0: World) returns (ok: bool)
      requires Reaches(e.calm, w0, Now()) && up == Install
      modifies this
      ensures rest.past.operated == old(rest.past.operated)
      ensures Reaches(e.calm, w0, Now()) && up == if ok then Start else Undo(6, PutBack)
    {
      Others(e, w0);
      ghost var w := Now();
      var allowed := e.Ok(moment);
      ok := Rename(Staged, Target, allowed);
      up := if ok then Start else Undo(6, PutBack);
      ReachesThen(e.calm, w0, w, U(allowed));
    }

    method StartNew(e: Env, ghost w0: World) returns (ok: bool)
      requires Reaches(e.calm, w0, Now()) && up == Start
      modifies this
      ensures rest.past.operated == old(rest.past.operated)
      ensures Reaches(e.calm, w0, Now()) && up == if ok then Mark else Undo(7, MoveAside)
    {
      Others(e, w0);
      ghost var w := Now();
      var allowed := e.Ok(moment);
      ok := StartService(allowed);
      up := if ok then Mark else Undo(7, MoveAside);
      ReachesThen(e.calm, w0, w, U(ok));
    }

    /** Looks for a "starting" line newer than the start of the wait. */
    method CheckLogForStartup() returns (found: bool)
      ensures found == Confirmed(rest.log.lines, rest.log.since)
    {
      for i := 0 to |rest.log.lines|
        invariant forall k :: 0 <= k < i ==> rest.log.lines[k].at <= rest.log.since
      {
        if rest.log.lines[i].at > rest.log.since { return true; }
      }
      return false;
    }

    method WaitForStartupLog(e: Env, ghost w0: World) returns (ok: bool)
      requires Reaches(e.calm, w0, Now()) && up == Mark
      modifies this
      ensures rest.past.operated == old(rest.past.operated)
      ensures Reaches(e.calm, w0, Now()) && up == if ok then Done else Undo(8, StopAgain)
      ensures !ok ==> moment == old(moment) + 16
    {
      Others(e, w0);
      ghost var w := Now();
      rest := rest.(log := rest.log.(since := rest.log.clock, marked := |rest.log.lines|));
      up := Confirm;
      ReachesThen(e.calm, w0, w, U(true));
      ok := PollLog(e, w0);
      ghost var v := Now();
      up := if ok then Done else Undo(8, StopAgain);
      ReachesThen(e.calm, w0, v, U(ok));
    }

    method PollLog(e: Env, ghost w0: World) returns (found: bool)
      requires Reaches(e.calm, w0, Now()) && up == Confirm
      modifies this
      ensures rest.past.operated == old(rest.past.operated)
      ensures Reaches(e.calm, w0, Now()) && up == Confirm
      ensures found ==> Confirmed(rest.log.lines, rest.log.since)
      ensures !found && e.calm ==> !Confirmed(rest.log.lines, rest.log.since)
      ensures !found ==> moment == old(moment) + 15
    {
      for poll := 0 to STARTUP_POLLS
        invariant Reaches(e.calm, w0, Now()) && up == Confirm && rest.past.operated == old(rest.past.operated)
        invariant moment == old(moment) + poll
        invariant e.calm && poll > 0 ==> !Confirmed(rest.log.lines, rest.log.since)
      {
        Others(e, w0);
        if e.Ok(moment) {
          found := CheckLogForStartup();
          if found { return true; }
        }
      }
      return false;
    }

    method StopAgainAndWait(e: Env, ghost w0: World)
      requires Reaches(e.calm, w0, Now()) && up == Undo(8, StopAgain)
      modifies this
      ensures rest.past.operated == old(rest.past.operated)
      ensures Reaches(e.calm, w0, Now()) && up == Undo(8, MoveAside)
    {
      Others(e, w0);
      ghost var w := Now();
      var stopped := e.Ok(moment);
      up := Undo(8, AwaitAgain);
      ReachesThen(e.calm, w0, w, U(stopped));
      WaitAgain(e, w0);
    }

    method WaitAgain(e: Env, ghost w0: World)
      requires Reaches(e.calm, w0, Now()) && up == Undo(8, AwaitAgain)
      modifies this
      ensures rest.past.operated == old(rest.past.operated)
      ensures Reaches(e.calm, w0, Now()) && up == Undo(8, MoveAside)
    {
      var stopped := PollStopped(e, STARTUP_POLLS, w0);
      ghost var w := Now();
      up := Undo(8, MoveAside);
      ReachesThen(e.calm, w0, w, U(stopped));
    }

    method UndoMove(e: Env, step: nat, aside: Path, ghost w0: World)
      requires Reaches(e.calm, w0, Now()) && up == Undo(step, MoveAside)
      requires aside == if step == 7 then Staged else Rejected
      modifies this
      ensures rest.past.operated == old(rest.past.operated)
      ensures Reaches(e.calm, w0, Now()) && up == Undo(step, PutBack)
    {
      Others(e, w0);
      ghost var w := Now();
      var allowed := e.Ok(moment);
      rest := rest.(past := rest.past.(aside := allowed));
      var moved := Rename(Target, aside, allowed);
      up := Undo(step, PutBack);
      ReachesThen(e.calm, w0, w, U(allowed));
    }

    /** The restoring rename itself. */
    method PutBackNow(step: nat, allowed: bool)
      requires up == Undo(step, PutBack)
      modifies this
      ensures Now() == ExecUndo(old(Now()), step, PutBack, allowed) && moment == old(moment)
    {
      var moved := Rename(Backup, Target, allowed);
      rest := rest.(past := rest.past.(putBack := allowed));
      up := Undo(step, if step == 6 then Clear else Restart);
    }

    method RestoreBackup(e: Env, step: nat, ghost w0: World)
      requires Reaches(e.calm, w0, Now()) && up == Undo(step, PutBack)
      modifies this
      ensures rest.past.operated == old(rest.past.operated)
      ensures Reaches(e.calm, w0, Now()) && up == Undo(step, if step == 6 then Clear else Restart)
    {
      Others(e, w0);
      ghost var w := Now();
      var allowed := e.Ok(moment);
      PutBackNow(step, allowed);
      PutBackReached(e.calm, w0, w, step, allowed);
    }

    method RestartService(e: Env, step: nat, ghost w0: World)
      requires Reaches(e.calm, w0, Now()) && up == Undo(step, Restart)
      modifies this
      ensures rest.past.operated == old(rest.past.operated)
      ensures Reaches(e.calm, w0, Now()) && up == Undo(step, Clear)
    {
      Others(e, w0);
      ghost var w := Now();
      var allowed := e.Ok(moment);
      var started := StartService(allowed);
      rest := rest.(past := rest.past.(restarted := started, fell := false));
      up := Undo(step, Clear);
      ReachesThen(e.calm, w0, w, U(started));
    }

    method InvalidatePendingResponse(e: Env, step: nat, ghost w0: World)
      requires Reaches(e.calm, w0, Now()) && up == Undo(step, Clear)
      modifies this
      ensures rest.past.operated == old(rest.past.operated)
      ensures Reaches(e.calm, w0, Now()) && up == Failed(step)
    {
      Others(e, w0);
      ghost var w := Now();
      var removed := e.Ok(moment);
      if pending && removed { pending := false; }
      rest := rest.(past := rest.past.(cleared := removed));
      up := Failed(step);
      ReachesThen(e.calm, w0, w, U(removed));
    }

    // ---- the procedure ---------------------------------------------------------------

    /** Zero for success, else the number of the step that failed. */
    method Upgrade(e: Env) returns (err: nat)
      requires Init(Now())
      modifies this
      ensures Reaches(e.calm, old(Now()), Now()) && up == if err == 0 then Done else Failed(err)
      ensures err == 0 ==> Holds(files, Target, New)
      ensures 0 < err <= 5 ==> Holds(files, Target, Old)
      ensures err in {5, 6} ==> service.Down?
      ensures 6 <= err ==> (Holds(files, Target, Old) <==> rest.past.putBack && !rest.past.swept)
      ensures 6 <= err && rest.past.cleared ==> !pending
      ensures 7 <= err && !rest.past.fell && rest.past.restarted ==>
                service.Up? && (rest.past.putBack && !rest.past.swept ==> service.image == Old)
      ensures e.calm && err == 8 && !rest.past.fell && !rest.past.swept ==> service.Up?
      ensures e.calm ==> err in {0, 1, 3, 4, 6, 8} && (err != 0 ==> (Holds(files, Target, Old) <==> !rest.past.swept))
    {
      ghost var w0 := Now();
      ReachesSelf(e.calm, w0);
      err := Perform(e, w0);
      if err == 0 {
        SuccessInstalls(e.calm, w0, Now());
      } else {
        ServiceAtError(e, w0);
        RollbackRestores(e.calm, w0, Now());
        PendingAfterError(e.calm, w0, Now());
        if 7 <= err && !rest.past.fell { RollbackRestarts(e.calm, w0, Now()); }
      }
      if e.calm && err != 0 { CalmErrors(w0, Now()); }
    }

    lemma ServiceAtError(e: Env, w0: World)
      requires Init(w0) && Reaches(e.calm, w0, Now()) && up.Failed? && !rest.past.operated
      ensures up.step in {5, 6} ==> service.Down?
    {
      if up.step in {5, 6} { ServiceAfterError(e.calm, w0, Now()); }
    }

    method Perform(e: Env, ghost w0: World) returns (err: nat)
      requires Reaches(e.calm, w0, Now()) && up == Query
      modifies this
      ensures rest.past.operated == old(rest.past.operated)
      ensures Reaches(e.calm, w0, Now()) && up == (if err == 0 then Done else Failed(err))
    {
      var ok := ValidateServiceRunning(e, w0);
      if !ok { return 1; }
      ok := ValidateDirWritable(e, w0);
      if !ok { return 2; }
      ok := StopService(e, w0);
      if !ok { return 3; }
      ok := WaitForServiceStopped(e, w0);
      if !ok { return 4; }
      ok := DropOldBackup(e, w0);
      if !ok { return 5; }
      ok := MoveToBackup(e, w0);
      if !ok { return 5; }
      ok := InstallStaged(e, w0);
      if !ok {
        RestoreBackup(e, 6, w0);
        InvalidatePendingResponse(e, 6, w0);
        return 6;
      }
      ok := StartNew(e, w0);
      if !ok {
        UndoMove(e, 7, Staged, w0);
        RestoreBackup(e, 7, w0);
        RestartService(e, 7, w0);
        InvalidatePendingResponse(e, 7, w0);
        return 7;
      }
      ok := WaitForStartupLog(e, w0);
      if !ok {
        StopAgainAndWait(e, w0);
        UndoMove(e, 8, Rejected, w0);
        RestoreBackup(e, 8, w0);
        RestartService(e, 8, w0);
        InvalidatePendingResponse(e, 8, w0);
        return 8;
      }
      return 0;
    }
  }
}
