/** ClusterService: the object whose fields the election updates in one process. */
module ClusterService {
  import opened Options
  import Election

  datatype Mode = SingleNode | Clustered | Refused

  /** The constructor's reading of the configuration; an empty host, port 0 and an empty name
    * count as missing. Refused: it throws. */
  function ModeOf(isLive: Option<string>, host: Option<string>, port: Option<nat>, serviceName: Option<string>): Mode {
    if isLive != Some("true") then SingleNode
    else if host == None || host == Some("") || port == None || port == Some(0) then SingleNode
    else if serviceName == None || serviceName == Some("") then Refused
    else Clustered
  }

  /** Single-node mode unless the service is live and Consul's host and port are both given; then a
    * cluster, which needs a name. */
  lemma ModeIff(isLive: Option<string>, host: Option<string>, port: Option<nat>, serviceName: Option<string>)
    ensures var consul := isLive == Some("true") && host.Some? && host != Some("") && port.Some? && port != Some(0);
      var named := serviceName.Some? && serviceName != Some("");
      && (ModeOf(isLive, host, port, serviceName) == SingleNode <==> !consul)
      && (ModeOf(isLive, host, port, serviceName) == Clustered <==> consul && named)
      && (ModeOf(isLive, host, port, serviceName) == Refused <==> consul && !named)
  {
  }

  /** What reaches the object. `session` is the id Consul answers bootstrap with (None: the create
    * call fails), `reply` its answer to an acquire: a grant, a refusal, or an error (None). */
  datatype Event =
    | Bootstrap(session: Option<string>, reply: Option<bool>)
    | Change(hasData: bool, reply: Option<bool>)
    | Shutdown

  function Fresh(mode: Mode, localLeader: bool): Election.Member {
    Election.Member(localLeader, false, Election.NotAsked, if mode == SingleNode then Some(true) else None)
  }

  function Answered(m: Election.Member, reply: Option<bool>): Election.Member {
    if reply.Some? then Election.OnReply(m, reply.value) else Election.OnError(m)
  }

  /** An event, in terms of what the election knows of the process. The key is watched only after
    * bootstrap, and only a change that leaves no data tries again; shutting down leaves isLeader. */
  function Handle(mode: Mode, m: Election.Member, e: Event): Election.Member {
    match e
    case Bootstrap(session, reply) =>
      if mode != Clustered || !m.localLeader || session == None then m
      else Answered(Election.OnSession(m), reply)
    case Change(hasData, reply) => if !m.stage.Watching? || hasData then m else Answered(m, reply)
    case Shutdown => m
  }

  function HandleAll(mode: Mode, m: Election.Member, events: seq<Event>): Election.Member
    decreases |events|
  {
    if events == [] then m else HandleAll(mode, Handle(mode, m, events[0]), events[1..])
  }

  /** An event that a process handles is a run of the election: bootstrap creates a session, and its
    * first acquire reaches Consul and is answered or lost. */
  lemma BootstrapIsElection(
      cfg: Election.Config, s: Election.State, p: nat, id: string, reply: Option<bool>)
    requires p in s.members && s.members[p].localLeader && !s.members[p].hasSession && s.members[p].stage.NotAsked?
    requires cfg.losses && p !in s.live && !Election.Awaits(s, p)
    requires var s1 := Election.AddSession(s, p); reply.Some? ==> reply.value == Election.Grants(s1, p)
    ensures var granted := Election.Grants(Election.AddSession(s, p), p);
      var answer := if reply.Some? then Election.Deliver(p, granted) else Election.Lose(p, granted);
      var s1 := Election.Apply(cfg, s, Election.CreateSession(p));
      var r := Election.Apply(cfg, Election.Apply(cfg, s1, Election.Acquire(p)), answer);
      p in r.members && r.members[p] == Handle(Clustered, s.members[p], Bootstrap(Some(id), reply))
  {
  }

  /** A change that leaves no data is what makes a process that watches the key send an acquire;
    * Consul's answer, or its loss, is the reply that it handles. */
  lemma ChangeIsElection(cfg: Election.Config, s: Election.State, p: nat, reply: Option<bool>)
    requires Election.MayAsk(cfg, s, p) && s.members[p].stage.Watching? && p in s.live && cfg.losses
    requires reply.Some? ==> reply.value == Election.Grants(s, p)
    ensures var granted := Election.Grants(s, p);
      var answer := if reply.Some? then Election.Deliver(p, granted) else Election.Lose(p, granted);
      var r := Election.Apply(cfg, Election.Apply(cfg, s, Election.Acquire(p)), answer);
      p in r.members && r.members[p] == Handle(Clustered, s.members[p], Change(false, reply))
    ensures Handle(Clustered, s.members[p], Change(true, reply)) == s.members[p]
  {
  }

  /** A process starts in a cluster as the election spawns it. */
  lemma FreshIsSpawned(s: Election.State, p: nat, localLeader: bool)
    requires p !in s.members
    ensures Election.AddMember(s, p, localLeader).members[p] == Fresh(Clustered, localLeader)
  {
  }

  class Cluster {
    const mode: Mode
    const localLeader: bool
    var isLeader: Option<bool>
    var sessionId: Option<string>
    var renewing: Option<string>  // the session that the interval timer renews
    var watching: bool  // the watch on the leader key is set up

    /** A constructor that throws leaves no object behind. */
    constructor (
        isLive: Option<string>, host: Option<string>, port: Option<nat>, serviceName: Option<string>, localLeader: bool)
      requires ModeOf(isLive, host, port, serviceName) != Refused
      ensures mode == ModeOf(isLive, host, port, serviceName) && this.localLeader == localLeader
      ensures Valid() && View() == Fresh(mode, localLeader) && renewing == None
      ensures isLeader == Some(true) <==>
        isLive != Some("true") || host == None || host == Some("") || port == None || port == Some(0)
      ensures isLeader.Some? ==> isLeader == Some(true)
    {
      mode, this.localLeader := ModeOf(isLive, host, port, serviceName), localLeader;
      isLeader := if ModeOf(isLive, host, port, serviceName) == SingleNode then Some(true) else None;
      sessionId, renewing, watching := None, None, false;
    }

    ghost predicate Valid()
      reads this
    {
      watching ==> sessionId.Some? && mode == Clustered
    }

    /** This process as the election sees it. */
    function View(): Election.Member
      reads this
    {
      Election.Member(localLeader, sessionId.Some?, if watching then Election.Watching else Election.NotAsked, isLeader)
    }

    predicate IsTheOne(): (b: bool)
      reads this
      ensures b == Election.IsTheOne(View())
    {
      isLeader == Some(true) && localLeader
    }

    /** One acquire; an error changes nothing. */
    method AcquireLock(reply: Option<bool>)
      modifies this`isLeader
      ensures isLeader == if sessionId == None || mode == SingleNode || reply == None then old(isLeader) else reply
    {
      if sessionId == None || mode == SingleNode {
        return;
      }
      if reply.Some? {
        isLeader := reply;
      }
    }

    /** The watch on the leader key fires. */
    method OnChange(hasData: bool, reply: Option<bool>)
      requires Valid() && watching
      modifies this`isLeader
      ensures Valid() && View() == Handle(mode, old(View()), Change(hasData, reply))
      ensures isLeader == if hasData || reply == None then old(isLeader) else reply
    {
      if !hasData {
        AcquireLock(reply);
      }
    }

    method CreateSession(id: string)
      modifies this`renewing
      ensures renewing == Some(id)
    {
      renewing := Some(id);
    }

    method OnApplicationBootstrap(session: Option<string>, reply: Option<bool>)
      requires Valid() && mode != Refused
      modifies this
      ensures Valid() && View() == Handle(mode, old(View()), Bootstrap(session, reply))
      ensures if mode == Clustered && localLeader && session.Some? then sessionId == renewing == session
              else sessionId == old(sessionId) && renewing == old(renewing)
      ensures mode == Clustered && localLeader && session.Some? ==>
        isLeader == (if reply.Some? then reply else old(isLeader)) && watching
      ensures !(mode == Clustered && localLeader && session.Some?) ==>
        isLeader == old(isLeader) && watching == old(watching)
    {
      if mode == SingleNode || !localLeader || session == None {
        return;
      }
      CreateSession(session.value);
      sessionId := session;
      AcquireLock(reply);
      watching := true;
    }

    /** Shutdown stops the renewals and hands the session over for destruction. */
    method BeforeApplicationShutdown() returns (destroyed: Option<string>)
      requires Valid()
      modifies this`renewing
      ensures Valid() && View() == Handle(mode, old(View()), Shutdown) && renewing == None
      ensures destroyed == if mode != SingleNode && localLeader then sessionId else None
    {
      renewing := None;
      destroyed := if mode != SingleNode && localLeader && sessionId.Some? then sessionId else None;
    }
  }
}
