/** Results about stretches of a run: what becomes of a row. */
module History {
  import opened Clock
  import opened Jobs
  import opened Protocol
  import opened Safety
  import opened Registry
  import opened Execution
  import opened Clients
  import opened Agent

  // ---- rows ------------------------------------------------------------------

  /** The table now and later. */
  ghost predicate Forward(rows: Table, purged: set<JobId>, rows': Table, purged': set<JobId>) {
    && (forall id :: id in rows ==> RowForward(id, rows[id], rows', purged'))
    && (forall id :: id in purged ==> id in purged' && id !in rows')
  }

  ghost predicate RowForward(id: JobId, r: Row, rows': Table, purged': set<JobId>) {
    if id in rows' then Follows(r, rows'[id]) else id in purged'
  }

  lemma FollowsTrans(a: Row, b: Row, c: Row)
    requires Follows(a, b) && Follows(b, c) && RowOk(a) && RowOk(b)
    ensures Follows(a, c)
  {
  }

  lemma ForwardTrans(rows: Table, purged: set<JobId>, mid: Table, gone: set<JobId>, rows': Table, purged': set<JobId>)
    requires Evolves(rows, purged, mid, gone) && Forward(mid, gone, rows', purged')
    requires (forall id :: id in rows ==> RowOk(rows[id])) && (forall id :: id in mid ==> RowOk(mid[id]) && id !in gone)
    ensures Forward(rows, purged, rows', purged')
  {
    forall id | id in rows ensures RowForward(id, rows[id], rows', purged') {
      if id in mid {
        assert RowForward(id, mid[id], rows', purged');
        if id in rows' { FollowsTrans(rows[id], mid[id], rows'[id]); }
      }
    }
  }

  lemma ForwardHere(s: State)
    requires Base(s)
    ensures Forward(s.rows, s.purged, s.rows, s.purged)
  {
  }

  lemma {:induction false} ForwardRun(s: State, steps: seq<Step>)
    requires Inv(s) && Runs(s, steps)
    ensures Forward(s.rows, s.purged, Last(s, steps).rows, Last(s, steps).purged)
    decreases |steps|
  {
    if steps == [] {
      ForwardHere(s);
    } else {
      var m := Exec(s, steps[0]);
      InvStep(s, steps[0]);
      RowsEvolve(s, steps[0]);
      ForwardRun(m, steps[1..]);
      ForwardTrans(s.rows, s.purged, m.rows, m.purged, Last(m, steps[1..]).rows, Last(m, steps[1..]).purged);
    }
  }

  /** Over any stretch of any run, crashes included: a row keeps its job and moves only
      forward, a terminal row never changes, and a row that disappears was purged and
      never returns. (That only terminal rows are purged is RowsEvolve, step by step.) */
  lemma RowsForward(s: State, steps: seq<Step>)
    requires Reachable(s) && Runs(s, steps)
    ensures Forward(s.rows, s.purged, Last(s, steps).rows, Last(s, steps).purged)
  {
    ReachableInv(s);
    ForwardRun(s, steps);
  }

  lemma StepEvolves(s: State, step: Step)
    requires Reachable(s) && Enabled(s, step)
    ensures Reachable(Exec(s, step)) && Forward(s.rows, s.purged, Exec(s, step).rows, Exec(s, step).purged)
  {
    ReachableInv(s);
    RowsEvolve(s, step);
    ReachStep(s, step);
  }

  /** One winner: once a compare-and-swap has moved a row on, none with the same
      expected status can ever succeed again. */
  lemma SwapWonOnce(s: State, step: Step, steps: seq<Step>, id: JobId, from: Status)
    requires Reachable(s) && Enabled(s, step) && CanSwap(s.rows, id, from)
    requires !CanSwap(Exec(s, step).rows, id, from)
    requires Runs(Exec(s, step), steps)
    ensures !CanSwap(Last(Exec(s, step), steps).rows, id, from)
  {
    var m := Exec(s, step);
    StepEvolves(s, step);
    RowsForward(m, steps);
    var t := Last(m, steps);
    if id in m.rows {
      assert Follows(s.rows[id], m.rows[id]) && RowForward(id, m.rows[id], t.rows, t.purged);
    } else {
      assert id in m.purged;
    }
  }

  /** The timestamps of every row ever stored. */
  lemma TimestampsTell(s: State, id: JobId)
    requires Reachable(s) && id in s.rows
    ensures s.rows[id].startedAt.Some? <==> s.rows[id].status != Queued
    ensures s.rows[id].completedAt.Some? <==> Terminal(s.rows[id].status)
    ensures s.rows[id].pid != 0 <==> s.rows[id].status != Queued
  {
    ReachableInv(s);
    assert RowOk(s.rows[id]);
  }
}
