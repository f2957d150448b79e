/** The job store: its calls on the table of rows, the text its time columns hold, and
    what ordering and cutting off by that text means in time. */
module JobStore {
  import opened Clock
  import opened Jobs

  datatype TextRow = TextRow(job: Job, status: Status, pid: Pid, createdAt: string,
                             startedAt: Option<string>, completedAt: Option<string>, error: string)

  const ZERO_TIME: Time := Time(1, 1, 1, 0, 0, 0, 0)

  function FmtTimePtr(t: Option<Time>): Option<string> {
    match t
    case None => None
    case Some(v) => Some(FmtTime(v))
  }

  function ParseTimePtr(s: Option<string>): Option<Time> {
    match s
    case None => None
    case Some(v) => if v == "" then None else ParseTime(v)
  }

  function WriteRow(r: Row): TextRow {
    TextRow(r.job, r.status, r.pid, FmtTime(r.createdAt), FmtTimePtr(r.startedAt), FmtTimePtr(r.completedAt), r.error)
  }

  function ScanRow(t: TextRow): Row {
    var created := ParseTimePtr(Some(t.createdAt));
    Row(t.job, t.status, t.pid, if created.Some? then created.value else ZERO_TIME,
        ParseTimePtr(t.startedAt), ParseTimePtr(t.completedAt), t.error)
  }

  lemma PtrRoundTrip(t: Option<Time>)
    ensures ParseTimePtr(FmtTimePtr(t)) == t
  {
    if t.Some? {
      ParseFormat(t.value);
      assert |FmtTime(t.value)| > 0;
    }
  }

  /** What is written is read back, every field of it. */
  lemma RowRoundTrip(r: Row)
    ensures ScanRow(WriteRow(r)) == r
  {
    PtrRoundTrip(Some(r.createdAt));
    PtrRoundTrip(r.startedAt);
    PtrRoundTrip(r.completedAt);
  }

  /** Assigns the optional fields that are present, and touches nothing else. */
  method AssignFields(r: Row, f: Fields) returns (rec: Row)
    ensures rec == ApplyFields(r, f)
    ensures rec.job == r.job && rec.status == r.status && rec.createdAt == r.createdAt
  {
    rec := r;
    if f.startedAt.Some? { rec := rec.(startedAt := f.startedAt); }
    if f.completedAt.Some? { rec := rec.(completedAt := f.completedAt); }
    if f.pid.Some? { rec := rec.(pid := f.pid.value); }
    if f.error.Some? { rec := rec.(error := f.error.value); }
  }

  /** Which fields a status change must bring so that timestamps and PID go on telling how
      far the row has come: a start and a process when it begins to run, an end when it
      ends. These are the fields that dispatcher, worker, monitor and recovery pass. */
  lemma FieldsKeepRowOk(r: Row, to: Status, f: Fields)
    requires RowOk(r)
    ensures r.status == Queued && to == Running ==>
              (RowOk(ApplyFields(r.(status := to), f)) <==>
               f.startedAt.Some? && f.completedAt.None? && f.pid.Some? && f.pid.value != 0)
    ensures r.status == Running && Terminal(to) ==>
              (RowOk(ApplyFields(r.(status := to), f)) <==> f.completedAt.Some? && (f.pid.Some? ==> f.pid.value != 0))
    ensures Rank(r.status) < Rank(to) && (r.status == Running ==> f.pid.None? && f.startedAt.None?) ==>
              Follows(r, ApplyFields(r.(status := to), f))
  {
  }

  /** The row after a swap that went through: the new status, each optional field the value
      passed if one was passed and else what it was, and nothing else changed. */
  predicate Holds(r: Row, before: Row, to: Status, f: Fields) {
    && r.status == to && r.job == before.job && r.createdAt == before.createdAt
    && (f.startedAt.Some? ==> r.startedAt == f.startedAt) && (f.startedAt.None? ==> r.startedAt == before.startedAt)
    && (f.completedAt.Some? ==> r.completedAt == f.completedAt) && (f.completedAt.None? ==> r.completedAt == before.completedAt)
    && (f.pid.Some? ==> r.pid == f.pid.value) && (f.pid.None? ==> r.pid == before.pid)
    && (f.error.Some? ==> r.error == f.error.value) && (f.error.None? ==> r.error == before.error)
  }

  class JobStore {
    var rows: Table

    constructor ()
      ensures rows == map[]
    {
      rows := map[];
    }

    /** INSERT: refused when the id is taken. */
    method Create(id: JobId, r: Row) returns (ok: bool)
      modifies this
      ensures ok == (id !in old(rows))
      ensures rows == if ok then old(rows)[id := r] else old(rows)
    {
      ok := id !in rows;
      if ok { rows := rows[id := r]; }
    }

    method GetByID(id: JobId) returns (r: Option<Row>)
      ensures r == if id in rows then Some(rows[id]) else None
    {
      if id in rows { r := Some(rows[id]); } else { r := None; }
    }

    /** Compare-and-swap in one transaction: read the row, reject an unexpected status,
        change the record, write its status columns back. */
    method UpdateStatus(id: JobId, from: Status, to: Status, f: Fields) returns (ok: bool)
      modifies this
      ensures ok == (id in old(rows) && old(rows)[id].status == from)
      ensures rows == Swap(old(rows), id, from, to, f)
      ensures !ok ==> rows == old(rows)
      ensures ok ==>
                && rows.Keys == old(rows).Keys && (forall j :: j in rows && j != id ==> rows[j] == old(rows)[j])
                && Holds(rows[id], old(rows)[id], to, f)
    {
      if id !in rows { return false; }
      var rec := rows[id];
      if rec.status != from { return false; }
      rec := AssignFields(rec.(status := to), f);
      rows := rows[id := rows[id].(status := rec.status, pid := rec.pid, startedAt := rec.startedAt,
                                   completedAt := rec.completedAt, error := rec.error)];
      return true;
    }

    /** SELECT ... ORDER BY created_at: each matching row once, by its text. */
    method ListByStatus(st: Status) returns (ids: seq<JobId>)
      ensures Listing(rows, st, ids)
    {
      ids := [];
      var todo := rows.Keys;
      while todo != {}
        invariant todo <= rows.Keys
        invariant forall i :: 0 <= i < |ids| ==> ids[i] in rows && rows[ids[i]].status == st && ids[i] !in todo
        invariant forall id :: id in rows && rows[id].status == st ==> id in todo || id in ids
        invariant forall i, k :: 0 <= i < k < |ids| ==> ids[i] != ids[k]
        invariant Sorted(rows, ids)
        decreases |todo|
      {
        var id :| id in todo;
        todo := todo - {id};
        if rows[id].status == st {
          InsertKeepsOrder(rows, ids, id);
          ghost var before := ids;
          ids := Place(rows, ids, id);
          forall i | 0 <= i < |ids| ensures rows[ids[i]].status == st && ids[i] !in todo {
            assert ids[i] in before || ids[i] == id;
          }
        }
      }
    }

    /** Whether an active row has the same duplicate-rejection key. */
    method HasConflict(job: Job) returns (conflict: bool)
      ensures conflict == Jobs.HasConflict(rows, job)
      ensures conflict <==> job.vm != "" && exists id :: (
                && id in rows && (rows[id].status == Queued || rows[id].status == Running)
                && rows[id].job.vm == job.vm && rows[id].job.taskType == job.taskType
                && (job.taskType == VmManagement ==> rows[id].job.action == job.action))
    {
      if job.vm == "" { return false; }
      var todo := rows.Keys;
      while todo != {}
        invariant todo <= rows.Keys
        invariant forall id :: id in rows && id !in todo ==> !Collides(rows[id], job)
        decreases |todo|
      {
        var id :| id in todo;
        if Collides(rows[id], job) { return true; }
        todo := todo - {id};
      }
      return false;
    }

    /** DELETE ... WHERE status IN (completed, failed, timeout) AND created_at < cutoff,
        the comparison being one of texts. */
    method DeleteOlderThan(cutoff: Time) returns (count: nat)
      modifies this
      ensures rows == old(rows) - Expired(old(rows), cutoff) && count == |old(rows)| - |rows|
      ensures forall id :: id in old(rows) ==> (id !in rows <==>
                old(rows)[id].status in {Completed, Failed, TimedOut} && TextLess(FmtTime(old(rows)[id].createdAt), FmtTime(cutoff)))
      ensures forall id :: id in old(rows) && id !in rows ==>
                Terminal(old(rows)[id].status) && WholeSecond(old(rows)[id].createdAt) <= WholeSecond(cutoff)
      ensures forall id :: id in rows && Terminal(rows[id].status) ==>
                WholeSecond(rows[id].createdAt) >= WholeSecond(cutoff)
    {
      var gone := Expired(rows, cutoff);
      ExpiredBySecond(rows, cutoff);
      count := |gone|;
      CountRemoved(rows, gone);
      rows := rows - gone;
    }
  }

  lemma CountRemoved(rows: Table, gone: set<JobId>)
    requires gone <= rows.Keys
    ensures |rows - gone| == |rows| - |gone|
  {
    assert (rows - gone).Keys == rows.Keys - gone;
    assert |rows - gone| == |(rows - gone).Keys|;
  }

  /** A purge takes every terminal row of an earlier whole second than the cutoff, and
      none of a later one. */
  lemma ExpiredBySecond(rows: Table, cutoff: Time)
    ensures forall id :: id in Expired(rows, cutoff) ==>
              id in rows && Terminal(rows[id].status) && WholeSecond(rows[id].createdAt) <= WholeSecond(cutoff)
    ensures forall id :: id in rows && Terminal(rows[id].status) && id !in Expired(rows, cutoff) ==>
              WholeSecond(rows[id].createdAt) >= WholeSecond(cutoff)
  {
    forall id | id in rows
      ensures WholeSecond(rows[id].createdAt) < WholeSecond(cutoff) ==> TextLess(FmtTime(rows[id].createdAt), FmtTime(cutoff))
      ensures WholeSecond(rows[id].createdAt) > WholeSecond(cutoff) ==> !TextLess(FmtTime(rows[id].createdAt), FmtTime(cutoff))
    {
      PurgeBySecond(rows[id].createdAt, cutoff);
    }
  }

  /** A listing never puts a later whole second before an earlier one. */
  lemma {:induction false} ListingBySecond(rows: Table, ids: seq<JobId>, i: nat, k: nat)
    requires (forall j :: 0 <= j < |ids| ==> ids[j] in rows) && Sorted(rows, ids) && i < k < |ids|
    ensures WholeSecond(rows[ids[i]].createdAt) <= WholeSecond(rows[ids[k]].createdAt)
  {
    TextSortsSeconds(rows[ids[0]].createdAt, rows[ids[1]].createdAt);
    if i > 0 {
      ListingBySecond(rows, ids[1..], i - 1, k - 1);
    } else if k > 1 {
      ListingBySecond(rows, ids[1..], 0, k - 1);
    }
  }

  predicate Collides(r: Row, job: Job) {
    && Active(r) && r.job.vm == job.vm && r.job.taskType == job.taskType
    && (job.taskType == VmManagement ==> r.job.action == job.action)
  }

  /** Comparing stored text with a cutoff is right to the whole second. */
  lemma PurgeBySecond(created: Time, cutoff: Time)
    ensures WholeSecond(created) < WholeSecond(cutoff) ==> TextLess(FmtTime(created), FmtTime(cutoff))
    ensures WholeSecond(created) > WholeSecond(cutoff) ==> !TextLess(FmtTime(created), FmtTime(cutoff))
  {
    if WholeSecond(created) < WholeSecond(cutoff) { StoredOrder(created, cutoff); }
    if WholeSecond(created) > WholeSecond(cutoff) {
      StoredOrder(cutoff, created);
      TextTotal(FmtTime(cutoff), FmtTime(created));
    }
  }

  /** Puts an id in its place in a sorted list. */
  function Place(rows: Table, ids: seq<JobId>, id: JobId): seq<JobId>
    requires id in rows && forall i :: 0 <= i < |ids| ==> ids[i] in rows
  {
    if ids == [] then [id]
    else if NotAfter(rows[id], rows[ids[0]]) then [id] + ids
    else [ids[0]] + Place(rows, ids[1..], id)
  }

  lemma {:induction false} InsertKeepsOrder(rows: Table, ids: seq<JobId>, id: JobId)
    requires id in rows && (forall i :: 0 <= i < |ids| ==> ids[i] in rows && ids[i] != id) && Sorted(rows, ids)
    requires forall i, k :: 0 <= i < k < |ids| ==> ids[i] != ids[k]
    ensures var r := Place(rows, ids, id);
            && |r| == |ids| + 1
            && (forall j :: j in r <==> j in ids || j == id)
            && (forall i :: 0 <= i < |r| ==> r[i] in rows)
            && (forall i, k :: 0 <= i < k < |r| ==> r[i] != r[k])
            && Sorted(rows, r)
            && (r[0] == id || (ids != [] && r[0] == ids[0]))
  {
    if ids != [] {
      if NotAfter(rows[id], rows[ids[0]]) {
        assert ([id] + ids)[1..] == ids;
      } else {
        InsertKeepsOrder(rows, ids[1..], id);
        var rest := Place(rows, ids[1..], id);
        var r := [ids[0]] + rest;
        assert r[1..] == rest;
        TextTotal(FmtTime(rows[id].createdAt), FmtTime(rows[ids[0]].createdAt));
        assert NotAfter(rows[ids[0]], rows[rest[0]]);
        assert forall j :: j in ids <==> j == ids[0] || j in ids[1..];
        assert ids[0] !in rest by { assert ids[0] !in ids[1..]; }
      }
    }
  }
}
