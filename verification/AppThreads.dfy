/** Forking on one host. */
module AppThreads {
  import opened Options

  /** The IS_LOCAL_LEADER a process sees in its environment when it runs the callback. */
  datatype Worker = Worker(isLocalLeaderVar: Option<string>)

  predicate IsLocalLeader(w: Worker) { w.isLocalLeaderVar == Some("true") }

  /** cluster.fork hands its environment on as strings. */
  function EnvString(b: bool): string { if b then "true" else "false" }

  /** The number of processes that go on to run the callback. cpuCount is
    * parseInt(CPU_COUNT || '1'), None where that is NaN. */
  function ThreadCount(cpuCount: Option<int>, maxCPUs: nat): nat {
    var n := if cpuCount.Some? && cpuCount.value < maxCPUs then cpuCount.value else maxCPUs;
    if cpuCount.Some? && n > 1 then n else 1
  }

  /** The first process is the local leader, and no other is. */
  function Workers(cpuCount: Option<int>, maxCPUs: nat): seq<Worker> {
    seq(ThreadCount(cpuCount, maxCPUs), i => Worker(Some(EnvString(i == 0))))
  }

  lemma FirstLeads(cpuCount: Option<int>, maxCPUs: nat, k: nat)
    requires k < |Workers(cpuCount, maxCPUs)|
    ensures IsLocalLeader(Workers(cpuCount, maxCPUs)[k]) <==> k == 0
  {
    assert Workers(cpuCount, maxCPUs)[k] == Worker(Some(EnvString(k == 0)));
    assert |"true"| != |"false"|;
  }

  /** parallelize in the primary process: the processes that go on to run the callback. */
  method Parallelize(cpuCount: Option<int>, maxCPUs: nat) returns (workers: seq<Worker>)
    ensures workers == Workers(cpuCount, maxCPUs)
    ensures workers != []
    ensures cpuCount.Some? && cpuCount.value > 1 && maxCPUs > 1 ==>
      && |workers| <= cpuCount.value && |workers| <= maxCPUs
      && (|workers| == cpuCount.value || |workers| == maxCPUs)
    ensures cpuCount == None || cpuCount.value <= 1 || maxCPUs <= 1 ==> |workers| == 1
    ensures forall i | 0 <= i < |workers| :: IsLocalLeader(workers[i]) <==> i == 0
  {
    var numThreads: Option<int> :=
      if cpuCount == None then None
      else if cpuCount.value < maxCPUs then cpuCount else Some(maxCPUs);
    if numThreads.Some? && numThreads.value > 1 {
      workers := [];
      for i := 0 to numThreads.value
        invariant |workers| == i
        invariant forall j | 0 <= j < i :: workers[j].isLocalLeaderVar == Some(EnvString(j == 0))
      {
        workers := workers + [Worker(Some(EnvString(i == 0)))];
      }
    } else {
      workers := [Worker(Some("true"))];
      assert Workers(cpuCount, maxCPUs)[0] == Worker(Some(EnvString(true)));
    }
    assert |workers| == ThreadCount(cpuCount, maxCPUs);
    assert forall j | 0 <= j < |workers| :: workers[j] == Worker(Some(EnvString(j == 0)));
  }
}
