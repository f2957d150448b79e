/** Who reports an upgrade completed, and the runs in which that report or the rollback
    goes wrong. */
module Completion {
  import opened Upgrade

  // ---- what happens before the updater's next call -------------------------------

  /** The agent and the clock move, the updater does not. */
  predicate Idles(steps: seq<Step>) {
    forall i :: 0 <= i < |steps| ==> steps[i].A? || steps[i].Tick?
  }

  ghost predicate Meanwhile(w: World, v: World) {
    exists steps :: Runs(false, w, steps) && Last(false, w, steps) == v && Idles(steps)
  }

  lemma MeanwhileSelf(w: World)
    ensures Meanwhile(w, w)
  {
    assert Runs(false, w, []) && Last(false, w, []) == w && Idles([]);
  }

  lemma MeanwhileFirst(w: World, a: AgentStep, v: World)
    requires EnabledA(w, a) && Meanwhile(ExecA(w, a), v)
    ensures Meanwhile(w, v)
  {
    var rest :| Runs(false, ExecA(w, a), rest) && Last(false, ExecA(w, a), rest) == v && Idles(rest);
    var steps := [A(a)] + rest;
    assert steps[1..] == rest;
    assert Runs(false, w, steps) && Last(false, w, steps) == v && Idles(steps);
  }

  lemma {:induction false} MeanwhileReaches(calm: bool, w0: World, w: World, steps: seq<Step>)
    requires Reaches(calm, w0, w) && Runs(false, w, steps) && Idles(steps)
    ensures Reaches(calm, w0, Last(false, w, steps))
    decreases |steps|
  {
    if steps == [] {
    } else {
      ReachesThen(calm, w0, w, steps[0]);
      MeanwhileReaches(calm, w0, Exec(w, steps[0]), steps[1..]);
    }
  }

  // ---- a claim that can come --------------------------------------------------------

  /** An old agent runs and has not yet come past the pending response. */
  predicate OldStartsUp(w: World) {
    w.service.Up? && w.service.image == Old && !w.service.at.Serves?
  }

  function StartupLeft(at: AgentPc): nat {
    match at
    case SweepsBackup => 5
    case SweepsRejected => 4
    case SweepsStaged => 3
    case Announces => 2
    case ReadsPending => 1
    case Serves => 0
  }

  /** The rest of its start-up, with removals that fail. */
  lemma {:induction false} ClaimComes(w: World) returns (v: World)
    requires OldStartsUp(w) && w.pending
    ensures Meanwhile(w, v) && v.past.claims == w.past.claims + [Old] && v.up == w.up && v.files == w.files && !v.pending
    decreases StartupLeft(w.service.at)
  {
    if w.service.at.ReadsPending? {
      v := ExecA(w, Read(true, true));
      MeanwhileSelf(v);
      MeanwhileFirst(w, Read(true, true), v);
    } else {
      var a := if w.service.at.Announces? then Announce else Sweep(false);
      v := ClaimComes(ExecA(w, a));
      MeanwhileFirst(w, a, v);
    }
  }

  // ---- a claim that cannot ----------------------------------------------------------

  /** Nothing to report, or no old agent to report it now or after a start by hand. */
  predicate Closed(w: World) {
    !w.pending || (!OldStartsUp(w) && (Gone(w.up) ==> !Holds(w.files, Target, Old)))
  }

  predicate NoOldSince(before: seq<Binary>, after: seq<Binary>) {
    && |before| <= |after| && after[..|before|] == before
    && forall i :: |before| <= i < |after| ==> after[i] != Old
  }

  lemma ClosedStep(w: World, step: Step)
    requires Closed(w) && Enabled(w, step) && (Gone(w.up) || step.A? || step.Tick?)
    ensures Closed(Exec(w, step)) && Exec(w, step).up == w.up && NoOldSince(w.past.claims, Exec(w, step).past.claims)
  {
    if step.A? { ClosedAgent(w, step.a); }
  }

  lemma ClosedAgent(w: World, a: AgentStep)
    requires Closed(w) && EnabledA(w, a)
    ensures Closed(ExecA(w, a)) && ExecA(w, a).up == w.up && NoOldSince(w.past.claims, ExecA(w, a).past.claims)
  {
    assert a.Read? || ExecA(w, a).past.claims == w.past.claims;
  }

  lemma {:induction false} NothingToClaim(w: World, steps: seq<Step>)
    requires Closed(w) && Runs(false, w, steps) && (Gone(w.up) || Idles(steps))
    ensures NoOldSince(w.past.claims, Last(false, w, steps).past.claims)
    decreases |steps|
  {
    if steps == [] {
    } else {
      ClosedStep(w, steps[0]);
      NothingToClaim(Exec(w, steps[0]), steps[1..]);
      SinceTrans(w.past.claims, Exec(w, steps[0]).past.claims, Last(false, w, steps).past.claims);
    }
  }

  lemma SinceTrans(a: seq<Binary>, b: seq<Binary>, c: seq<Binary>)
    requires NoOldSince(a, b) && NoOldSince(b, c)
    ensures NoOldSince(a, c)
  {
    assert c[..|a|] == b[..|a|];
    forall i | |a| <= i < |c| ensures c[i] != Old {
      if i < |b| { assert c[..|b|][i] == b[i]; }
    }
  }

  lemma OldIsNew(before: seq<Binary>)
    ensures !NoOldSince(before, before + [Old])
  {
    assert (before + [Old])[|before|] == Old;
  }

  // ---- exactly when ------------------------------------------------------------------

  ghost predicate MayStillClaim(w: World) {
    exists v :: Reaches(false, w, v) && v.past.claims == w.past.claims + [Old]
  }

  lemma ClaimAhead(w: World)
    requires Gone(w.up) && w.pending && (Holds(w.files, Target, Old) || OldStartsUp(w))
    ensures MayStillClaim(w)
  {
    ReachesSelf(false, w);
    var s := w;
    if !OldStartsUp(w) {
      var d := w;
      if w.service.Up? {
        ReachesThen(false, w, w, A(Die));
        d := ExecA(w, Die);
      }
      ReachesThen(false, w, d, Operator);
      s := Exec(d, Operator);
    }
    var v := ClaimComes(s);
    var steps :| Runs(false, s, steps) && Last(false, s, steps) == v && Idles(steps);
    MeanwhileReaches(false, w, s, steps);
  }

  /** Once the updater is gone, an old agent can still report the upgrade completed
      exactly when the pending response is there, and the old binary is in place or an old
      agent is still starting up. */
  lemma FalseCompletion(w: World)
    requires Gone(w.up)
    ensures MayStillClaim(w) <==> w.pending && (Holds(w.files, Target, Old) || OldStartsUp(w))
  {
    if w.pending && (Holds(w.files, Target, Old) || OldStartsUp(w)) {
      ClaimAhead(w);
    } else {
      OldIsNew(w.past.claims);
      forall v | Reaches(false, w, v) ensures v.past.claims != w.past.claims + [Old] {
        var steps :| Runs(false, w, steps) && Last(false, w, steps) == v;
        NothingToClaim(w, steps);
      }
    }
  }

  ghost predicate MayClaimFirst(w: World) {
    exists v :: Meanwhile(w, v) && v.past.claims == w.past.claims + [Old]
  }

  /** Steps 7 and 8 start the old agent before they remove the pending response. In that
      window it can report the failed upgrade completed exactly when the response is there
      and it is still starting up. */
  lemma ClaimInWindow(w: World)
    requires w.up.Undo? && w.up.act.Clear?
    ensures MayClaimFirst(w) <==> w.pending && OldStartsUp(w)
  {
    if w.pending && OldStartsUp(w) {
      var v := ClaimComes(w);
    } else {
      OldIsNew(w.past.claims);
      forall v | Meanwhile(w, v) ensures v.past.claims != w.past.claims + [Old] {
        var steps :| Runs(false, w, steps) && Last(false, w, steps) == v && Idles(steps);
        NothingToClaim(w, steps);
      }
    }
  }

  /** After an error at step 6 nobody has reported the upgrade completed before somebody
      starts the service; and if the response was removed, nobody ever does. */
  lemma InstallFailureIsSilent(calm: bool, w0: World, w: World, v: World)
    requires Init(w0) && Reaches(calm, w0, w) && w.up == Failed(6)
    requires Reaches(false, w, v)
    ensures !w.past.operated ==> w.past.claims == []
    ensures w.past.cleared ==> v.past.claims == []
  {
    ReachesInv(calm, w0, w);
    if w.past.cleared {
      var steps :| Runs(false, w, steps) && Last(false, w, steps) == v;
      NothingLeft(w, steps);
    }
  }

  lemma {:induction false} NothingLeft(w: World, steps: seq<Step>)
    requires Runs(false, w, steps) && !w.pending && Gone(w.up)
    ensures Last(false, w, steps).past.claims == w.past.claims
    decreases |steps|
  {
    if steps == [] {
    } else {
      var w' := Exec(w, steps[0]);
      assert !w'.pending && w'.past.claims == w.past.claims;
      NothingLeft(w', steps[1..]);
    }
  }

  // ---- runs that go wrong ----------------------------------------------------------

  const EMPTY_LOG: Log := Log([], 0, 0, 0)

  const UNTOUCHED: Past := Past(false, false, false, false, [], map[], false, false, false)

  /** The old agent has stopped, and the backup is about to be made. */
  const TAKEN: Past := UNTOUCHED.(fell := true, before := map[Target := Old, Staged := New])

  const LAUNCHED: World :=
    World(map[Target := Old, Staged := New], true, Up(Old, Serves), EMPTY_LOG, Query, UNTOUCHED)

  const SWAPPED: World :=
    World(map[Target := New, Backup := Old], true, Down, EMPTY_LOG, Start, TAKEN)

  const STOPPED: World :=
    World(map[Target := Old, Staged := New], true, Down, EMPTY_LOG, DropBackup, UNTOUCHED.(fell := true))

  lemma StopReached(calm: bool)
    ensures Init(LAUNCHED) && Reaches(calm, LAUNCHED, STOPPED)
  {
    var w := LAUNCHED;
    ReachesSelf(calm, w);
    ReachesThen(calm, w, w, U(true));
    ReachesThen(calm, w, w.(up := Probe), U(true));
    ReachesThen(calm, w, w.(up := Stop), U(true));
    ReachesThen(calm, w, w.(up := Await), A(Die));
    ReachesThen(calm, w, w.(up := Await, service := Down, past := UNTOUCHED.(fell := true)), U(true));
  }

  const BACKED_UP: World :=
    World(map[Staged := New, Backup := Old], true, Down, EMPTY_LOG, Install, TAKEN)

  lemma BackupReached(calm: bool)
    ensures Reaches(calm, LAUNCHED, BACKED_UP)
  {
    StopReached(calm);
    var w, d := LAUNCHED, STOPPED;
    ReachesThen(calm, w, d, U(true));
    ReachesThen(calm, w, d.(up := BackUp), U(true));
    assert Exec(d.(up := BackUp), U(true)).files == BACKED_UP.files;
  }

  lemma SwapReached(calm: bool)
    ensures Reaches(calm, LAUNCHED, SWAPPED)
  {
    BackupReached(calm);
    ReachesThen(calm, LAUNCHED, BACKED_UP, U(true));
    assert Exec(BACKED_UP, U(true)).files == SWAPPED.files;
  }

  /** The new agent serves and has reported the upgrade completed; the updater is waiting
      for its "starting" line. */
  const WAITING: World :=
    World(map[Target := New], false, Up(New, Serves), Log([Line(0, New)], 0, 0, 1), Confirm,
          TAKEN.(swept := true, claims := [New]))

  const LOST: World :=
    World(map[Rejected := New], false, Down, Log([Line(0, New)], 0, 0, 1), Failed(8),
          TAKEN.(swept := true, claims := [New], aside := true, putBack := true, fell := false, cleared := true))

  const ANNOUNCING: World :=
    World(map[Target := New], true, Up(New, Announces), EMPTY_LOG, Mark, TAKEN.(swept := true))

  lemma NewAgentServes()
    ensures Reaches(true, LAUNCHED, WAITING)
  {
    NewAgentSweeps();
    var w := LAUNCHED;
    var s := ANNOUNCING;
    ReachesThen(true, w, s, A(Announce));
    ReachesThen(true, w, s.(service := Up(New, ReadsPending), log := Log([Line(0, New)], 0, 0, 0)), A(Read(true, true)));
    ReachesThen(true, w, WAITING.(log := Log([Line(0, New)], 0, 0, 0), up := Mark), U(true));
  }

  lemma NewAgentSweeps()
    ensures Reaches(true, LAUNCHED, ANNOUNCING)
  {
    SwapReached(true);
    var w := LAUNCHED;
    ReachesThen(true, w, SWAPPED, U(true));
    var s := SWAPPED.(service := Up(New, SweepsBackup), up := Mark);
    ReachesThen(true, w, s, A(Sweep(true)));
    var s1 := s.(service := Up(New, SweepsRejected), files := map[Target := New], past := TAKEN.(swept := true));
    assert Exec(s, A(Sweep(true))).files == s1.files;
    ReachesThen(true, w, s1, A(Sweep(false)));
    ReachesThen(true, w, s1.(service := Up(New, SweepsStaged)), A(Sweep(false)));
  }

  lemma RollbackStops()
    ensures Reaches(true, LAUNCHED, WAITING.(service := Down, up := Undo(8, MoveAside)))
  {
    NewAgentServes();
    var w, t := LAUNCHED, WAITING;
    ReachesThen(true, w, t, U(false));
    ReachesThen(true, w, t.(up := Undo(8, StopAgain)), U(true));
    ReachesThen(true, w, t.(up := Undo(8, AwaitAgain)), A(Die));
    ReachesThen(true, w, t.(up := Undo(8, AwaitAgain), service := Down), U(true));
  }

  /** The new binary is aside, and there was no backup to put back. */
  const EMPTIED: World :=
    WAITING.(service := Down, up := Undo(8, Restart), files := map[Rejected := New],
             past := WAITING.past.(aside := true, putBack := true))

  lemma RollbackMoves()
    ensures Reaches(true, LAUNCHED, EMPTIED)
  {
    RollbackStops();
    var w, m := LAUNCHED, WAITING.(service := Down, up := Undo(8, MoveAside));
    ReachesThen(true, w, m, U(true));
    var p := m.(files := map[Rejected := New], up := Undo(8, PutBack), past := m.past.(aside := true));
    assert Exec(m, U(true)).files == p.files;
    ReachesThen(true, w, p, U(true));
  }

  lemma RollbackFails()
    ensures Reaches(true, LAUNCHED, LOST)
  {
    RollbackMoves();
    var w, r := LAUNCHED, EMPTIED;
    ReachesThen(true, w, r, U(false));
    var c := r.(up := Undo(8, Clear), past := r.past.(fell := false));
    ReachesThen(true, w, c, U(true));
    assert Exec(c, U(true)) == LOST;
  }

  /** A new agent that logs its start before the updater begins to wait is never
      confirmed, however long it serves. Its Cleanup has removed the backup, so the
      rollback leaves no binary at the target and nothing to start, although every call
      that could succeed did. */
  lemma FastStartLosesAgent()
    ensures Init(LAUNCHED) && Reaches(true, LAUNCHED, WAITING) && !EnabledU(WAITING, true)
    ensures Reaches(true, LAUNCHED, LOST)
    ensures Target !in LOST.files && Backup !in LOST.files && LOST.past.claims == [New]
  {
    StopReached(true);
    NewAgentServes();
    RollbackFails();
  }

  /** Both renames of the undoing went through, and so did the restart. */
  const UNDONE: Past := TAKEN.(aside := true, putBack := true, restarted := true, fell := false)

  const STEP_SEVEN_UNDONE: World :=
    World(map[Target := Old, Staged := New], true, Up(Old, SweepsBackup), EMPTY_LOG, Undo(7, Clear), UNDONE)

  const STEP_SEVEN_ASIDE: World :=
    SWAPPED.(files := map[Backup := Old, Staged := New], up := Undo(7, PutBack), past := TAKEN.(aside := true))

  lemma StepSevenAside()
    ensures Reaches(false, LAUNCHED, STEP_SEVEN_ASIDE)
  {
    SwapReached(false);
    var w := LAUNCHED;
    ReachesThen(false, w, SWAPPED, U(false));
    var m := SWAPPED.(up := Undo(7, MoveAside));
    ReachesThen(false, w, m, U(true));
    assert Exec(m, U(true)).files == STEP_SEVEN_ASIDE.files;
  }

  lemma StepSevenUndone()
    ensures Reaches(false, LAUNCHED, STEP_SEVEN_UNDONE)
  {
    StepSevenAside();
    var w, p := LAUNCHED, STEP_SEVEN_ASIDE;
    ReachesThen(false, w, p, U(true));
    var r := p.(files := map[Target := Old, Staged := New], up := Undo(7, Restart), past := p.past.(putBack := true));
    assert Exec(p, U(true)).files == r.files;
    ReachesThen(false, w, r, U(true));
  }

  const STEP_EIGHT_UNDONE: World :=
    World(map[Target := Old, Rejected := New], true, Up(Old, SweepsBackup), EMPTY_LOG, Undo(8, Clear), UNDONE)

  /** The new agent dies before it has done anything. */
  lemma NewAgentDies()
    ensures Reaches(true, LAUNCHED, SWAPPED.(up := Confirm))
  {
    SwapReached(true);
    var w, d := LAUNCHED, SWAPPED;
    ReachesThen(true, w, d, U(true));
    ReachesThen(true, w, d.(service := Up(New, SweepsBackup), up := Mark), A(Die));
    ReachesThen(true, w, d.(up := Mark), U(true));
  }

  lemma NoStartSeen()
    ensures Reaches(true, LAUNCHED, SWAPPED.(up := Undo(8, MoveAside)))
  {
    NewAgentDies();
    var w, d := LAUNCHED, SWAPPED;
    ReachesThen(true, w, d.(up := Confirm), U(false));
    ReachesThen(true, w, d.(up := Undo(8, StopAgain)), U(true));
    ReachesThen(true, w, d.(up := Undo(8, AwaitAgain)), U(true));
  }

  lemma StepEightUndone()
    ensures Reaches(true, LAUNCHED, STEP_EIGHT_UNDONE)
  {
    NoStartSeen();
    var w, m := LAUNCHED, SWAPPED.(up := Undo(8, MoveAside));
    ReachesThen(true, w, m, U(true));
    var p := m.(files := map[Backup := Old, Rejected := New], up := Undo(8, PutBack), past := m.past.(aside := true));
    assert Exec(m, U(true)).files == p.files;
    ReachesThen(true, w, p, U(true));
    var r := p.(files := map[Target := Old, Rejected := New], up := Undo(8, Restart), past := p.past.(putBack := true));
    assert Exec(p, U(true)).files == r.files;
    ReachesThen(true, w, r, U(true));
  }

  /** The old binary is back in place, the upgrade has failed, and the old agent has
      reported it completed. */
  predicate Lied(w: World, n: nat) {
    w.up == Failed(n) && Holds(w.files, Target, Old) && w.past.claims == [Old]
  }

  lemma LieFollows(calm: bool, w: World, n: nat)
    requires Reaches(calm, LAUNCHED, w) && w.up == Undo(n, Clear) && w.pending && w.past.claims == []
    requires OldStartsUp(w) && Holds(w.files, Target, Old)
    ensures exists v :: Reaches(calm, LAUNCHED, v) && Lied(v, n)
  {
    var v := ClaimComes(w);
    var steps :| Runs(false, w, steps) && Last(false, w, steps) == v && Idles(steps);
    MeanwhileReaches(calm, LAUNCHED, w, steps);
    ReachesThen(calm, LAUNCHED, v, U(true));
    assert Lied(Exec(v, U(true)), n);
  }

  /** A fast old agent reports the failed upgrade completed, after step 7, and after step 8
      even in a world where every call that can succeed does. */
  lemma RestartBeforeClear()
    ensures Init(LAUNCHED)
    ensures exists v :: Reaches(false, LAUNCHED, v) && Lied(v, 7)
    ensures exists v :: Reaches(true, LAUNCHED, v) && Lied(v, 8)
  {
    StopReached(true);
    StepSevenUndone();
    LieFollows(false, STEP_SEVEN_UNDONE, 7);
    StepEightUndone();
    LieFollows(true, STEP_EIGHT_UNDONE, 8);
  }
}
