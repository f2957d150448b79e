/** Job records, their concurrency classes, and the job table as a value: what each
    store call does to it, without the text columns of `JobStore`. */
module Jobs {
  import opened Clock

  type JobId = nat
  type Pid = nat      // 0 means that no process is recorded
  type MsgId = nat

  /** The task types the rules distinguish; any other name is `Other`. */
  datatype TaskType =
    | VmInventory | HardwareInventory | VmStatus | TemplateInventory | IsoInventory | AgentStatus
    | VmMetrics | HostMetrics
    | HostManagement | ArtifactDownload
    | VmCreate | VmClone | VmEdit | VmManagement
    | Other(name: string)

  datatype JobClass = Read | Write | HostWrite | Download

  /** Who created a record: a backend request or the refresh scheduler. */
  datatype Origin = Requested(msg: MsgId) | Scheduled

  /** The part of a record that is fixed at creation. */
  datatype Job = Job(taskType: TaskType, action: string, vm: string, origin: Origin)

  datatype Status = Queued | Running | Completed | Failed | TimedOut

  datatype Row = Row(job: Job, status: Status, pid: Pid, createdAt: Time,
                     startedAt: Option<Time>, completedAt: Option<Time>, error: string)

  type Table = map<JobId, Row>

  function Classify(job: Job): JobClass {
    match job.taskType
    case VmInventory | HardwareInventory | VmStatus | TemplateInventory | IsoInventory | AgentStatus => Read
    case HostManagement =>
      if job.action == "refresh_hardware" || job.action == "refresh_inventory" then Read else HostWrite
    case ArtifactDownload => Download
    case _ => Write
  }

  /** The types the scheduler refreshes. */
  predicate RefreshType(t: TaskType) {
    t in {VmInventory, HardwareInventory, TemplateInventory, IsoInventory, AgentStatus, VmMetrics, HostMetrics}
  }

  /** The types subject to duplicate rejection. */
  predicate IsWriteTask(t: TaskType) {
    t in {VmEdit, VmCreate, VmClone, VmManagement}
  }

  // ---- statuses --------------------------------------------------------------

  predicate Active(r: Row) {
    r.status in {Queued, Running}
  }

  predicate Terminal(st: Status) {
    st in {Completed, Failed, TimedOut}
  }

  function Rank(st: Status): nat {
    match st
    case Queued => 0
    case Running => 1
    case _ => 2
  }

  /** One row after another, as time passes: same job, status only forward, a
      terminal row unchanged, a recorded PID kept. */
  predicate Follows(r: Row, r': Row) {
    && r'.job == r.job && r'.createdAt == r.createdAt
    && Rank(r.status) <= Rank(r'.status)
    && (r.status == r'.status ==> r' == r)
    && (Terminal(r.status) ==> r' == r)
    && (r.pid != 0 ==> r'.pid == r.pid)
    && (r.startedAt.Some? ==> r'.startedAt == r.startedAt)
  }

  /** The timestamps and the PID say exactly how far a row has come. */
  predicate RowOk(r: Row) {
    && (r.pid != 0 <==> r.status != Queued)
    && (r.startedAt.Some? <==> r.status != Queued)
    && (r.completedAt.Some? <==> Terminal(r.status))
  }

  // ---- store calls -----------------------------------------------------------

  /** Optional fields that accompany a status change. */
  datatype Fields = Fields(startedAt: Option<Time>, completedAt: Option<Time>, pid: Option<Pid>, error: Option<string>)

  function ApplyFields(r: Row, f: Fields): Row {
    r.(startedAt := if f.startedAt.Some? then f.startedAt else r.startedAt,
       completedAt := if f.completedAt.Some? then f.completedAt else r.completedAt,
       pid := if f.pid.Some? then f.pid.value else r.pid,
       error := if f.error.Some? then f.error.value else r.error)
  }

  function Started(now: Time, pid: Pid): Fields {
    Fields(Some(now), None, Some(pid), None)
  }

  function Ended(now: Time, error: string): Fields {
    Fields(None, Some(now), None, Some(error))
  }

  predicate CanSwap(rows: Table, id: JobId, from: Status) {
    id in rows && rows[id].status == from
  }

  /** The compare-and-swap of UpdateStatus. */
  function Swap(rows: Table, id: JobId, from: Status, to: Status, f: Fields): Table {
    if CanSwap(rows, id, from) then rows[id := ApplyFields(rows[id].(status := to), f)] else rows
  }

  function NewRow(job: Job, now: Time): Row {
    Row(job, Queued, 0, now, None, None, "")
  }

  /** What ListByStatus may return: every matching row once, by stored text. */
  predicate Listing(rows: Table, st: Status, ids: seq<JobId>) {
    Matching(rows, st, ids) && Sorted(rows, ids)
  }

  predicate Matching(rows: Table, st: Status, ids: seq<JobId>) {
    && (forall i, k :: 0 <= i < k < |ids| ==> ids[i] != ids[k])
    && (forall i :: 0 <= i < |ids| ==> ids[i] in rows && rows[ids[i]].status == st)
    && (forall id :: id in rows && rows[id].status == st ==> id in ids)
  }

  predicate Sorted(rows: Table, ids: seq<JobId>)
    requires forall i :: 0 <= i < |ids| ==> ids[i] in rows
  {
    |ids| < 2 || (NotAfter(rows[ids[0]], rows[ids[1]]) && Sorted(rows, ids[1..]))
  }

  /** The order of the created_at column. */
  predicate NotAfter(r: Row, q: Row) {
    TextLeq(FmtTime(r.createdAt), FmtTime(q.createdAt))
  }

  /** Two jobs with one duplicate-rejection key. */
  predicate SameKey(a: Job, b: Job) {
    && IsWriteTask(a.taskType) && a.taskType == b.taskType
    && a.vm == b.vm && a.vm != ""
    && (a.taskType == VmManagement ==> a.action == b.action)
  }

  predicate HasConflict(rows: Table, job: Job) {
    && job.vm != ""
    && exists id :: (
         && id in rows && Active(rows[id])
         && rows[id].job.vm == job.vm && rows[id].job.taskType == job.taskType
         && (job.taskType == VmManagement ==> rows[id].job.action == job.action))
  }

  /** The rows DeleteOlderThan removes for the terminal statuses. */
  function Expired(rows: Table, cutoff: Time): set<JobId> {
    set id | id in rows && Terminal(rows[id].status) && TextLess(FmtTime(rows[id].createdAt), FmtTime(cutoff))
  }
}
