/** Leaders and hosts: what the election and the forking of processes give together. */
module Hosts {
  import opened Options
  import AppThreads
  import ClusterService
  import Election

  /** A host: the settings it forks by, and the process that each of its workers is. */
  datatype Host = Host(cpuCount: Option<int>, maxCPUs: nat, pids: seq<nat>)

  ghost predicate Forked(h: Host) {
    |h.pids| == |AppThreads.Workers(h.cpuCount, h.maxCPUs)|
  }

  /** A process that starts takes its IS_LOCAL_LEADER from the host that forked it. */
  ghost predicate StartsAsForked(h: Host, step: Election.Step)
    requires Forked(h)
  {
    var workers := AppThreads.Workers(h.cpuCount, h.maxCPUs);
    step.Spawn? ==> forall k | 0 <= k < |h.pids| && h.pids[k] == step.p ::
        step.localLeader == AppThreads.IsLocalLeader(workers[k])
  }

  ghost predicate MembersAsForked(h: Host, s: Election.State)
    requires Forked(h)
  {
    forall k | 0 <= k < |h.pids| && h.pids[k] in s.members :: s.members[h.pids[k]].localLeader ==> k == 0
  }

  lemma StepKeepsForked(cfg: Election.Config, h: Host, s: Election.State, step: Election.Step)
    requires Forked(h) && MembersAsForked(h, s) && StartsAsForked(h, step)
    ensures MembersAsForked(h, Election.Apply(cfg, s, step))
  {
    forall k | 0 <= k < |h.pids| && h.pids[k] in Election.Apply(cfg, s, step).members
      ensures Election.Apply(cfg, s, step).members[h.pids[k]].localLeader ==> k == 0
    {
      if h.pids[k] !in s.members {
        assert step.Spawn? && step.p == h.pids[k];
        AppThreads.FirstLeads(h.cpuCount, h.maxCPUs, k);
      }
    }
  }

  lemma {:induction false} RunKeepsForked(
      cfg: Election.Config, h: Host, s: Election.State, steps: seq<Election.Step>)
    requires Forked(h) && MembersAsForked(h, s) && forall step | step in steps :: StartsAsForked(h, step)
    ensures MembersAsForked(h, Election.Run(cfg, s, steps))
    decreases |steps|
  {
    if steps != [] {
      StepKeepsForked(cfg, h, s, steps[0]);
      RunKeepsForked(cfg, h, Election.Apply(cfg, s, steps[0]), steps[1..]);
    }
  }

  /** In a cluster: of the processes of one host none but the first ever leads, in any run of the
    * election, so at most one passes isTheOne(). */
  lemma OnePerHost(cfg: Election.Config, h: Host, steps: seq<Election.Step>, k: nat)
    requires Forked(h) && forall step | step in steps :: StartsAsForked(h, step)
    requires k < |h.pids| && Election.Leads(Election.Run(cfg, Election.START, steps), h.pids[k])
    ensures k == 0 && Election.IsTheOne(Election.Run(cfg, Election.START, steps).members[h.pids[k]])
  {
    RunKeepsForked(cfg, h, Election.START, steps);
    Election.OnlyLocalLeadersLead(cfg, Election.START, steps, h.pids[k]);
  }

  lemma {:induction false} SingleNodeStaysFresh(localLeader: bool, events: seq<ClusterService.Event>)
    ensures var m := ClusterService.Fresh(ClusterService.SingleNode, localLeader);
      ClusterService.HandleAll(ClusterService.SingleNode, m, events) == m
    decreases |events|
  {
    if events != [] {
      SingleNodeStaysFresh(localLeader, events[1..]);
    }
  }

  /** In single-node mode every process believes that it leads, and yet on each host exactly the
    * first worker passes isTheOne(), whatever reaches the workers. */
  lemma OnePerSingleNode(cpuCount: Option<int>, maxCPUs: nat, k: nat, events: seq<ClusterService.Event>)
    requires k < |AppThreads.Workers(cpuCount, maxCPUs)|
    ensures var localLeader := AppThreads.IsLocalLeader(AppThreads.Workers(cpuCount, maxCPUs)[k]);
      var m := ClusterService.HandleAll(
          ClusterService.SingleNode, ClusterService.Fresh(ClusterService.SingleNode, localLeader), events);
      m.isLeader == Some(true) && (Election.IsTheOne(m) <==> k == 0)
  {
    AppThreads.FirstLeads(cpuCount, maxCPUs, k);
    SingleNodeStaysFresh(AppThreads.IsLocalLeader(AppThreads.Workers(cpuCount, maxCPUs)[k]), events);
  }
}
