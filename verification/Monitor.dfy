/** The monitor's registry of worker entries, keyed by job. */
module Monitor {
  import opened Jobs
  import opened Protocol

  /** The types that only read. */
  const READS: set<TaskType> := {VmInventory, HardwareInventory, VmStatus, TemplateInventory, IsoInventory, AgentStatus}

  class Monitor {
    var workers: map<JobId, Entry>

    constructor ()
      ensures workers == map[]
    {
      workers := map[];
    }

    method Register(id: JobId, e: Entry)
      modifies this
      ensures workers == old(workers)[id := e]
    {
      workers := workers[id := e];
    }

    method Remove(id: JobId)
      modifies this
      ensures workers == old(workers) - {id}
    {
      workers := workers - {id};
    }

    method RunningCount() returns (n: nat)
      ensures n == |workers|
    {
      n := |workers|;
    }

    method HasRunningHostWrite() returns (found: bool)
      ensures found == Protocol.HasRunningHostWrite(workers)
      ensures found <==> exists id :: (
                && id in workers && workers[id].job.taskType == HostManagement
                && workers[id].job.action !in {"refresh_hardware", "refresh_inventory"})
    {
      var todo := workers.Keys;
      while todo != {}
        invariant todo <= workers.Keys
        invariant forall id :: id in workers && id !in todo ==> Classify(workers[id].job) != HostWrite
        decreases |todo|
      {
        var id :| id in todo;
        if Classify(workers[id].job) == HostWrite { return true; }
        todo := todo - {id};
      }
      return false;
    }

    method HasRunningWrite() returns (found: bool)
      ensures found == Protocol.HasRunningWrite(workers)
      ensures found <==> exists id :: (
                && id in workers && workers[id].job.taskType !in READS && workers[id].job.taskType != ArtifactDownload
                && (workers[id].job.taskType == HostManagement ==> workers[id].job.action !in {"refresh_hardware", "refresh_inventory"}))
    {
      var todo := workers.Keys;
      while todo != {}
        invariant todo <= workers.Keys
        invariant forall id :: id in workers && id !in todo ==> Classify(workers[id].job) !in {Write, HostWrite}
        decreases |todo|
      {
        var id :| id in todo;
        if Classify(workers[id].job) == Write || Classify(workers[id].job) == HostWrite { return true; }
        todo := todo - {id};
      }
      return false;
    }

    method HasRunningWriteForVM(vm: string) returns (found: bool)
      ensures found == Protocol.HasRunningWriteForVM(workers, vm)
      ensures found <==> exists id :: (
                && id in workers && workers[id].job.vm == vm
                && workers[id].job.taskType !in READS + {HostManagement, ArtifactDownload})
    {
      var todo := workers.Keys;
      while todo != {}
        invariant todo <= workers.Keys
        invariant forall id :: id in workers && id !in todo ==> !(Classify(workers[id].job) == Write && workers[id].job.vm == vm)
        decreases |todo|
      {
        var id :| id in todo;
        if Classify(workers[id].job) == Write && workers[id].job.vm == vm { return true; }
        todo := todo - {id};
      }
      return false;
    }
  }
}
