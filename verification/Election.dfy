/** Leader election over Consul, as a machine: processes, sessions, the lock key, and the acquire
  * requests and replies in flight. Requests may overlap and replies may arrive in any order. */
module Election {
  import opened Options

  /** How far bootstrap has come: the first acquire is awaited before the key is watched. */
  datatype Stage = NotAsked | FirstAsked | Watching

  /** What a process knows: whether it is the local leader of its host, whether it has a session,
    * how far its bootstrap has come, and its isLeader flag. A process creates one session in its
    * life, so the session bears the name of its process. */
  datatype Member = Member(localLeader: bool, hasSession: bool, stage: Stage, isLeader: Option<bool>)

  /** `winners` are the sessions that ever got the lock, `ended` those that have ended. */
  datatype State = State(
    members: map<nat, Member>, live: set<nat>, ended: set<nat>, lock: Option<nat>,
    replies: multiset<(nat, bool)>, winners: set<nat>)

  datatype Step =
    | Spawn(p: nat, localLeader: bool)
    | CreateSession(p: nat)
    | Acquire(p: nat)  // an acquire, sent at any earlier time, reaches Consul
    | Deliver(p: nat, granted: bool)
    | Lose(p: nat, granted: bool)  // the request fails although Consul has served it
    | EndSession(p: nat)

  /** What can happen: sessions end, acquires that a process sends on watching the key overlap,
    * replies get lost. For the service all three are true. */
  datatype Config = Config(sessionsEnd: bool, overlaps: bool, losses: bool)

  const START := State(map[], {}, {}, None, multiset{}, {})

  function OnSession(m: Member): Member { m.(hasSession := true) }

  function OnReply(m: Member, granted: bool): Member { m.(isLeader := Some(granted), stage := Watching) }

  function OnError(m: Member): Member { m.(stage := Watching) }

  predicate IsTheOne(m: Member) { m.isLeader == Some(true) && m.localLeader }

  /** Consul grants the lock iff the session is live and the key is free or already its own. */
  predicate Grants(s: State, p: nat) {
    p in s.live && (s.lock == None || s.lock == Some(p))
  }

  function AddMember(s: State, p: nat, localLeader: bool): State {
    if p in s.members then s else s.(members := s.members[p := Member(localLeader, false, NotAsked, None)])
  }

  function AddSession(s: State, p: nat): State {
    if p in s.members && s.members[p].localLeader && !s.members[p].hasSession
    then s.(members := s.members[p := OnSession(s.members[p])], live := s.live + {p})
    else s
  }

  predicate Awaits(s: State, p: nat) { (p, true) in s.replies || (p, false) in s.replies }

  /** A process sends its first acquire once it has a session, and others once it watches the key. */
  predicate MayAsk(cfg: Config, s: State, p: nat) {
    && p in s.members && s.members[p].hasSession && !s.members[p].stage.FirstAsked?
    && (cfg.overlaps || !Awaits(s, p))
  }

  function Ask(m: Member): Member { if m.stage.NotAsked? then m.(stage := FirstAsked) else m }

  /** Consul serves an acquire; for a session that has ended it answers with an error. */
  function ServeAcquire(s: State, p: nat): State
    requires p in s.members
  {
    if p !in s.live then s.(members := s.members[p := OnError(s.members[p])])
    else
      var granted := Grants(s, p);
      s.(members := s.members[p := Ask(s.members[p])],
         replies := s.replies + multiset{(p, granted)},
         lock := if granted then Some(p) else s.lock,
         winners := if granted then s.winners + {p} else s.winners)
  }

  function DeliverReply(s: State, p: nat, granted: bool): State {
    if (p, granted) in s.replies && p in s.members
    then s.(replies := s.replies - multiset{(p, granted)}, members := s.members[p := OnReply(s.members[p], granted)])
    else s
  }

  function LoseReply(s: State, p: nat, granted: bool): State {
    if (p, granted) in s.replies && p in s.members
    then s.(replies := s.replies - multiset{(p, granted)}, members := s.members[p := OnError(s.members[p])])
    else s
  }

  /** A session expires or is destroyed; its behaviour is to delete the keys it holds. */
  function RemoveSession(s: State, p: nat): State {
    if p in s.live
    then s.(live := s.live - {p}, ended := s.ended + {p}, lock := if s.lock == Some(p) then None else s.lock)
    else s
  }

  function Apply(cfg: Config, s: State, step: Step): State {
    match step
    case Spawn(p, localLeader) => AddMember(s, p, localLeader)
    case CreateSession(p) => AddSession(s, p)
    case Acquire(p) => if MayAsk(cfg, s, p) then ServeAcquire(s, p) else s
    case Deliver(p, granted) => DeliverReply(s, p, granted)
    case Lose(p, granted) => if cfg.losses then LoseReply(s, p, granted) else s
    case EndSession(p) => if cfg.sessionsEnd then RemoveSession(s, p) else s
  }

  function Run(cfg: Config, s: State, steps: seq<Step>): State
    decreases |steps|
  {
    if steps == [] then s else Run(cfg, Apply(cfg, s, steps[0]), steps[1..])
  }

  predicate Leads(s: State, p: nat) {
    p in s.members && s.members[p].isLeader == Some(true)
  }

  // ----- Safety

  /** Sessions belong to processes that know of them; a session is never both live and ended. */
  ghost predicate SessionsKnown(s: State) {
    && s.live !! s.ended
    && (forall p :: p in s.live || p in s.ended ==> p in s.members && s.members[p].hasSession)
  }

  /** Whoever was told true, or will be, has won the lock at some time. */
  ghost predicate TrueMeansWon(s: State) {
    && (forall p :: (p, true) in s.replies ==> p in s.winners)
    && (forall p :: Leads(s, p) ==> p in s.winners)
  }

  /** A winner keeps the lock for as long as its session lives. */
  ghost predicate WinnersHold(s: State) {
    && s.winners <= s.live + s.ended
    && (forall p :: p in s.winners && p in s.live ==> s.lock == Some(p))
    && (s.lock.Some? ==> s.lock.value in s.live && s.lock.value in s.winners)
  }

  ghost predicate ElectionInv(s: State) {
    SessionsKnown(s) && TrueMeansWon(s) && WinnersHold(s)
  }

  lemma StepKeepsSessions(cfg: Config, s: State, step: Step)
    requires SessionsKnown(s)
    ensures SessionsKnown(Apply(cfg, s, step))
  {
  }

  lemma ServeKeepsTrue(s: State, p: nat)
    requires TrueMeansWon(s) && p in s.members
    ensures TrueMeansWon(ServeAcquire(s, p))
  {
    var s' := ServeAcquire(s, p);
    assert forall q | Leads(s', q) :: Leads(s, q);
    assert forall q | (q, true) in s'.replies :: (q, true) in s.replies || q in s'.winners;
  }

  lemma ReplyKeepsTrue(s: State, p: nat, granted: bool)
    requires TrueMeansWon(s)
    ensures TrueMeansWon(DeliverReply(s, p, granted)) && TrueMeansWon(LoseReply(s, p, granted))
  {
    var s', l := DeliverReply(s, p, granted), LoseReply(s, p, granted);
    assert forall q | Leads(l, q) :: Leads(s, q);
    forall q | Leads(s', q)
      ensures q in s'.winners
    {
      if q == p && s' != s {
        assert (p, true) in s.replies;
      } else {
        assert Leads(s, q);
      }
    }
  }

  lemma StepKeepsTrue(cfg: Config, s: State, step: Step)
    requires TrueMeansWon(s)
    ensures TrueMeansWon(Apply(cfg, s, step))
  {
    match step
    case Acquire(p) => if MayAsk(cfg, s, p) { ServeKeepsTrue(s, p); }
    case Deliver(p, granted) => ReplyKeepsTrue(s, p, granted);
    case Lose(p, granted) => ReplyKeepsTrue(s, p, granted);
    case Spawn(p, localLeader) => assert forall q | Leads(AddMember(s, p, localLeader), q) :: Leads(s, q);
    case CreateSession(p) => assert forall q | Leads(AddSession(s, p), q) :: Leads(s, q);
    case EndSession(p) => assert forall q | Leads(RemoveSession(s, p), q) :: Leads(s, q);
  }

  lemma StepKeepsWinners(cfg: Config, s: State, step: Step)
    requires SessionsKnown(s) && WinnersHold(s)
    ensures WinnersHold(Apply(cfg, s, step))
  {
  }

  lemma StepKeepsElection(cfg: Config, s: State, step: Step)
    requires ElectionInv(s)
    ensures ElectionInv(Apply(cfg, s, step))
  {
    StepKeepsSessions(cfg, s, step);
    StepKeepsTrue(cfg, s, step);
    StepKeepsWinners(cfg, s, step);
  }

  lemma {:induction false} RunKeepsElection(cfg: Config, s: State, steps: seq<Step>)
    requires ElectionInv(s)
    ensures ElectionInv(Run(cfg, s, steps))
    decreases |steps|
  {
    if steps != [] {
      StepKeepsElection(cfg, s, steps[0]);
      RunKeepsElection(cfg, Apply(cfg, s, steps[0]), steps[1..]);
    }
  }

  /** A process that believes it leads and whose session is still live holds the lock, whatever
    * overlapped and whatever the order of replies; so there is at most one such process. */
  lemma LiveLeaderHoldsTheLock(cfg: Config, steps: seq<Step>, p: nat)
    requires Leads(Run(cfg, START, steps), p)
    ensures var s := Run(cfg, START, steps);
      && (p in s.live || p in s.ended)
      && (p in s.live ==> s.lock == Some(p) && forall q | q in s.live && Leads(s, q) :: q == p)
  {
    RunKeepsElection(cfg, START, steps);
  }

  predicate IsLocal(s: State, p: nat) { p in s.members && s.members[p].localLeader }

  ghost predicate ActiveAreLocal(s: State) {
    forall p :: p in s.members && (s.members[p].hasSession || s.members[p].isLeader.Some?) ==> IsLocal(s, p)
  }

  ghost predicate MessagesAreLocal(s: State) {
    && (forall p :: (p, true) in s.replies ==> IsLocal(s, p))
    && (forall p :: (p, false) in s.replies ==> IsLocal(s, p))
  }

  ghost predicate LocalLeadersOnly(s: State) { ActiveAreLocal(s) && MessagesAreLocal(s) }

  lemma DeliverKeepsLocal(s: State, p: nat, granted: bool)
    requires LocalLeadersOnly(s)
    ensures LocalLeadersOnly(DeliverReply(s, p, granted))
  {
    var s' := DeliverReply(s, p, granted);
    if s' != s {
      if granted { assert (p, true) in s.replies; } else { assert (p, false) in s.replies; }
      assert IsLocal(s, p);
      forall q | IsLocal(s, q)
        ensures IsLocal(s', q)
      {
      }
      assert ActiveAreLocal(s');
      assert s'.replies == s.replies - multiset{(p, granted)};
      assert MessagesAreLocal(s');
    }
  }

  lemma LoseKeepsLocal(s: State, p: nat, granted: bool)
    requires LocalLeadersOnly(s)
    ensures LocalLeadersOnly(LoseReply(s, p, granted))
  {
    var s' := LoseReply(s, p, granted);
    if s' != s {
      assert forall q | IsLocal(s, q) :: IsLocal(s', q);
      assert s'.replies == s.replies - multiset{(p, granted)};
      assert MessagesAreLocal(s');
    }
  }

  lemma ServeKeepsLocal(s: State, p: nat)
    requires LocalLeadersOnly(s) && p in s.members && s.members[p].hasSession
    ensures LocalLeadersOnly(ServeAcquire(s, p))
  {
    var s' := ServeAcquire(s, p);
    assert IsLocal(s, p);
    assert forall q | IsLocal(s, q) :: IsLocal(s', q);
    assert ActiveAreLocal(s');
    if p in s.live {
      assert s'.replies == s.replies + multiset{(p, Grants(s, p))};
    }
  }

  lemma SpawnKeepsLocal(s: State, p: nat, localLeader: bool)
    requires LocalLeadersOnly(s)
    ensures LocalLeadersOnly(AddMember(s, p, localLeader))
  {
    assert forall q | IsLocal(s, q) :: IsLocal(AddMember(s, p, localLeader), q);
  }

  lemma SessionKeepsLocal(s: State, p: nat)
    requires LocalLeadersOnly(s)
    ensures LocalLeadersOnly(AddSession(s, p))
  {
    assert forall q | IsLocal(s, q) :: IsLocal(AddSession(s, p), q);
  }

  lemma EndKeepsLocal(s: State, p: nat)
    requires LocalLeadersOnly(s)
    ensures LocalLeadersOnly(RemoveSession(s, p))
  {
    assert forall q | IsLocal(s, q) :: IsLocal(RemoveSession(s, p), q);
  }

  lemma StepKeepsLocal(cfg: Config, s: State, step: Step)
    requires LocalLeadersOnly(s)
    ensures LocalLeadersOnly(Apply(cfg, s, step))
  {
    match step
    case Acquire(p) => if MayAsk(cfg, s, p) { ServeKeepsLocal(s, p); }
    case Deliver(p, granted) => DeliverKeepsLocal(s, p, granted);
    case Lose(p, granted) => LoseKeepsLocal(s, p, granted);
    case Spawn(p, localLeader) => SpawnKeepsLocal(s, p, localLeader);
    case CreateSession(p) => SessionKeepsLocal(s, p);
    case EndSession(p) => EndKeepsLocal(s, p);
  }

  /** A process that is not the local leader of its host takes no part and never leads: of the
    * processes of one host, only the local leader can pass isTheOne(). */
  lemma {:induction false} OnlyLocalLeadersLead(cfg: Config, s: State, steps: seq<Step>, p: nat)
    requires LocalLeadersOnly(s)
    ensures var r := Run(cfg, s, steps);
      LocalLeadersOnly(r) && (Leads(r, p) <==> p in r.members && IsTheOne(r.members[p]))
    decreases |steps|
  {
    if steps != [] {
      StepKeepsLocal(cfg, s, steps[0]);
      OnlyLocalLeadersLead(cfg, Apply(cfg, s, steps[0]), steps[1..], p);
    }
  }

  /** The lock is won by a new session only after the session of the last winner has ended. */
  lemma WinnersNeedEnds(s: State)
    requires ElectionInv(s)
    ensures |s.winners| <= |s.ended| + 1
  {
    if s.lock.Some? {
      assert s.winners <= s.ended + {s.lock.value};
      SubsetSize(s.winners, s.ended + {s.lock.value});
    } else {
      assert s.winners <= s.ended;
      SubsetSize(s.winners, s.ended);
    }
  }

  lemma SubsetSize<T>(xs: set<T>, ys: set<T>)
    requires xs <= ys
    ensures |xs| <= |ys|
  {
    assert ys == xs + (ys - xs);
  }

  ghost predicate OneLeader(cfg: Config, steps: seq<Step>) {
    var s := Run(cfg, START, steps);
    forall p, q :: Leads(s, p) && Leads(s, q) ==> p == q
  }

  lemma {:induction false} NoneEnds(cfg: Config, s: State, steps: seq<Step>)
    requires !cfg.sessionsEnd
    ensures Run(cfg, s, steps).ended == s.ended
    decreases |steps|
  {
    if steps != [] {
      NoneEnds(cfg, Apply(cfg, s, steps[0]), steps[1..]);
    }
  }

  lemma {:induction false} RunConcat(cfg: Config, s: State, xs: seq<Step>, ys: seq<Step>)
    ensures Run(cfg, s, xs + ys) == Run(cfg, Run(cfg, s, xs), ys)
    decreases |xs|
  {
    if xs == [] {
      assert xs + ys == ys;
    } else {
      assert (xs + ys)[1..] == xs[1..] + ys;
      RunConcat(cfg, Apply(cfg, s, xs[0]), xs[1..], ys);
    }
  }

  /** How process p becomes leader when the key is free. */
  function Elect(p: nat): seq<Step> {
    [Spawn(p, true), CreateSession(p), Acquire(p), Deliver(p, true)]
  }

  lemma RunFour(cfg: Config, s: State, a: Step, b: Step, c: Step, d: Step)
    ensures Run(cfg, s, [a, b, c, d]) == Apply(cfg, Apply(cfg, Apply(cfg, Apply(cfg, s, a), b), c), d)
  {
    var s1 := Apply(cfg, s, a);
    var s2 := Apply(cfg, s1, b);
    var s3 := Apply(cfg, s2, c);
    assert [c, d][1..] == [d] && [b, c, d][1..] == [c, d] && [a, b, c, d][1..] == [b, c, d];
    assert Run(cfg, s3, [d]) == Apply(cfg, s3, d);
    assert Run(cfg, s2, [c, d]) == Run(cfg, s3, [d]);
    assert Run(cfg, s1, [b, c, d]) == Run(cfg, s2, [c, d]);
  }

  function Elected(s: State, p: nat): State {
    s.(members := s.members[p := Member(true, true, Watching, Some(true))],
       live := s.live + {p}, lock := Some(p), winners := s.winners + {p})
  }

  /** A process that has a session and whose first acquire reaches Consul. */
  lemma AskWorks(cfg: Config, s: State, p: nat)
    requires p !in s.members && s.replies == multiset{} && s.lock != Some(p)
    ensures Apply(cfg, Apply(cfg, Apply(cfg, s, Spawn(p, true)), CreateSession(p)), Acquire(p))
         == s.(members := s.members[p := Member(true, true, FirstAsked, None)],
               live := s.live + {p}, replies := multiset{(p, s.lock == None)},
               lock := if s.lock == None then Some(p) else s.lock,
               winners := if s.lock == None then s.winners + {p} else s.winners)
  {
    var s2 := AddSession(AddMember(s, p, true), p);
    assert s2 == s.(members := s.members[p := Member(true, true, NotAsked, None)], live := s.live + {p});
    assert MayAsk(cfg, s2, p);
    var m := Member(true, true, FirstAsked, None);
    assert s2.members[p := m] == s.members[p := m];
  }

  lemma ElectWorks(cfg: Config, s: State, p: nat)
    requires p !in s.members && s.lock == None && s.replies == multiset{}
    ensures Run(cfg, s, Elect(p)) == Elected(s, p)
  {
    RunFour(cfg, s, Spawn(p, true), CreateSession(p), Acquire(p), Deliver(p, true));
    AskWorks(cfg, s, p);
  }

  /** The state once process 0, which led, has lost its session. */
  function OneEnded(): State {
    State(map[0 := Member(true, true, Watching, Some(true))], {}, {0}, None, multiset{}, {0})
  }

  lemma ReachOneEnded(cfg: Config)
    requires cfg.sessionsEnd
    ensures Run(cfg, START, Elect(0) + [EndSession(0)]) == OneEnded()
  {
    RunConcat(cfg, START, Elect(0), [EndSession(0)]);
    ElectWorks(cfg, START, 0);
    var s := Elected(START, 0);
    assert s.live == {0};
    assert Apply(cfg, s, EndSession(0)) == OneEnded();
    assert Run(cfg, s, [EndSession(0)]) == Apply(cfg, s, EndSession(0));
  }

  lemma TwoLeaders(cfg: Config)
    requires cfg.sessionsEnd
    ensures var s := Run(cfg, START, Elect(0) + [EndSession(0)] + Elect(1));
      Leads(s, 0) && Leads(s, 1)
  {
    RunConcat(cfg, START, Elect(0) + [EndSession(0)], Elect(1));
    ReachOneEnded(cfg);
    ElectWorks(cfg, OneEnded(), 1);
  }

  /** "At most one process has isLeader true" holds in all runs exactly when no session ever ends:
    * isLeader is not reset when a session is lost. */
  lemma OneLeaderIffSessionsLast(cfg: Config)
    ensures (forall steps :: OneLeader(cfg, steps)) <==> !cfg.sessionsEnd
  {
    if cfg.sessionsEnd {
      TwoLeaders(cfg);
      assert !OneLeader(cfg, Elect(0) + [EndSession(0)] + Elect(1));
    } else {
      forall steps
        ensures OneLeader(cfg, steps)
      {
        RunKeepsElection(cfg, START, steps);
        NoneEnds(cfg, START, steps);
      }
    }
  }

  // ----- Does the holder of the lock know that it leads?

  ghost predicate KnowsIt(s: State) {
    forall p :: s.lock == Some(p) && !Awaits(s, p) ==> Leads(s, p)
  }

  ghost predicate HolderKnows(cfg: Config, steps: seq<Step>) { KnowsIt(Run(cfg, START, steps)) }

  /** No refusal is on its way to the holder, and if sessions last none is on its way while the key
    * is free; a holder that has not been told yet will be. */
  ghost predicate KnowInv(cfg: Config, s: State) {
    && (forall p :: (p, false) in s.replies ==> s.lock != Some(p) && (!cfg.sessionsEnd ==> s.lock != None))
    && (forall p :: s.lock == Some(p) ==> (p, true) in s.replies || Leads(s, p))
  }

  lemma ServeKeepsKnow(cfg: Config, s: State, p: nat)
    requires cfg.overlaps ==> !cfg.sessionsEnd
    requires ElectionInv(s) && KnowInv(cfg, s) && MayAsk(cfg, s, p)
    ensures KnowInv(cfg, ServeAcquire(s, p))
  {
    var s' := ServeAcquire(s, p);
    assert forall q | Leads(s, q) :: Leads(s', q);
    if p in s.live {
      var granted := Grants(s, p);
      assert s'.replies == s.replies + multiset{(p, granted)};
      assert forall q, g | (q, g) in s.replies :: (q, g) in s'.replies;
      assert (p, granted) in s'.replies;
      forall q | (q, false) in s'.replies
        ensures s'.lock != Some(q) && (!cfg.sessionsEnd ==> s'.lock != None)
      {
        if (q, false) !in s.replies {
          assert q == p && !granted;
        }
      }
    }
  }

  lemma DeliverKeepsKnow(cfg: Config, s: State, p: nat, granted: bool)
    requires KnowInv(cfg, s)
    ensures KnowInv(cfg, DeliverReply(s, p, granted))
  {
    var s' := DeliverReply(s, p, granted);
    if s' != s {
      assert s'.replies == s.replies - multiset{(p, granted)};
      forall q | s'.lock == Some(q)
        ensures (q, true) in s'.replies || Leads(s', q)
      {
        if q != p && (q, true) in s.replies {
          assert (q, true) in s'.replies;
        }
      }
    }
  }

  lemma StepKeepsKnow(cfg: Config, s: State, step: Step)
    requires !cfg.losses && (cfg.overlaps ==> !cfg.sessionsEnd)
    requires ElectionInv(s) && KnowInv(cfg, s)
    ensures KnowInv(cfg, Apply(cfg, s, step))
  {
    match step
    case Acquire(p) => if MayAsk(cfg, s, p) { ServeKeepsKnow(cfg, s, p); }
    case Deliver(p, granted) => DeliverKeepsKnow(cfg, s, p, granted);
    case Lose(_, _) =>
    case Spawn(p, localLeader) => assert forall q | Leads(s, q) :: Leads(AddMember(s, p, localLeader), q);
    case CreateSession(p) => assert forall q | Leads(s, q) :: Leads(AddSession(s, p), q);
    case EndSession(_) =>
  }

  lemma {:induction false} RunKeepsKnow(cfg: Config, s: State, steps: seq<Step>)
    requires !cfg.losses && (cfg.overlaps ==> !cfg.sessionsEnd)
    requires ElectionInv(s) && KnowInv(cfg, s)
    ensures KnowInv(cfg, Run(cfg, s, steps))
    decreases |steps|
  {
    if steps != [] {
      StepKeepsElection(cfg, s, steps[0]);
      StepKeepsKnow(cfg, s, steps[0]);
      RunKeepsKnow(cfg, Apply(cfg, s, steps[0]), steps[1..]);
    }
  }

  /** The grant is lost: the holder has been told nothing. */
  lemma LostGrant(cfg: Config) returns (steps: seq<Step>)
    requires cfg.losses
    ensures !HolderKnows(cfg, steps)
  {
    steps := [Spawn(0, true), CreateSession(0), Acquire(0), Lose(0, true)];
    RunFour(cfg, START, Spawn(0, true), CreateSession(0), Acquire(0), Lose(0, true));
    AskWorks(cfg, START, 0);
    var s := Run(cfg, START, steps);
    assert s.lock == Some(0) && s.replies == multiset{} && !Leads(s, 0);
  }

  /** Process 0 leads and process 1 watches the key, told that it does not lead. */
  function OneWatches(): State {
    State(map[0 := Member(true, true, Watching, Some(true)), 1 := Member(true, true, Watching, Some(false))],
          {0, 1}, {}, Some(0), multiset{}, {0})
  }

  /** Process 0 has ended, and process 2 has won the key before process 1, which watches it. */
  function TwoHolds(): State {
    State(OneWatches().members[2 := Member(true, true, FirstAsked, None)],
          {1, 2}, {0}, Some(2), multiset{(2, true)}, {0, 2})
  }

  lemma ReachOneWatches(cfg: Config)
    ensures Run(cfg, START, Elect(0) + [Spawn(1, true), CreateSession(1), Acquire(1), Deliver(1, false)])
         == OneWatches()
  {
    RunConcat(cfg, START, Elect(0), [Spawn(1, true), CreateSession(1), Acquire(1), Deliver(1, false)]);
    ElectWorks(cfg, START, 0);
    OneIsRefused(cfg);
  }

  lemma OneIsRefused(cfg: Config)
    ensures Run(cfg, Elected(START, 0), [Spawn(1, true), CreateSession(1), Acquire(1), Deliver(1, false)])
         == OneWatches()
  {
    var s := Elected(START, 0);
    RunFour(cfg, s, Spawn(1, true), CreateSession(1), Acquire(1), Deliver(1, false));
    AskWorks(cfg, s, 1);
  }

  lemma ReachTwoHolds(cfg: Config)
    requires cfg.sessionsEnd
    ensures Run(cfg, OneWatches(), [EndSession(0), Spawn(2, true), CreateSession(2), Acquire(2)]) == TwoHolds()
  {
    RunFour(cfg, OneWatches(), EndSession(0), Spawn(2, true), CreateSession(2), Acquire(2));
    var s := RemoveSession(OneWatches(), 0);
    assert s == OneWatches().(live := {1}, ended := {0}, lock := None);
    AskWorks(cfg, s, 2);
  }

  lemma FirstRefusedThenGranted(cfg: Config)
    requires cfg.sessionsEnd && cfg.overlaps
    ensures var s := Apply(cfg, Apply(cfg, Apply(cfg, TwoHolds(), Acquire(1)), EndSession(2)), Acquire(1));
      s.replies == multiset{(2, true), (1, false), (1, true)} && s.lock == Some(1) && 1 in s.members
  {
    var s1 := Apply(cfg, TwoHolds(), Acquire(1));
    assert s1.replies == multiset{(2, true), (1, false)} && s1.lock == Some(2);
    var s2 := Apply(cfg, s1, EndSession(2));
    assert s2.lock == None && s2.live == {1};
    assert MayAsk(cfg, s2, 1);
  }

  /** Two acquires that process 1 sent on seeing the key deleted overlap: the first is refused, the
    * second granted, and the refusal is the reply that arrives last. */
  lemma RefusalArrivesLast(cfg: Config)
    requires cfg.sessionsEnd && cfg.overlaps
    ensures var steps := [Acquire(1), EndSession(2), Acquire(1), Deliver(1, true)] + [Deliver(1, false)];
      !KnowsIt(Run(cfg, TwoHolds(), steps))
  {
    var four := [Acquire(1), EndSession(2), Acquire(1), Deliver(1, true)];
    RunConcat(cfg, TwoHolds(), four, [Deliver(1, false)]);
    RunFour(cfg, TwoHolds(), Acquire(1), EndSession(2), Acquire(1), Deliver(1, true));
    FirstRefusedThenGranted(cfg);
    SwappedReplies(cfg, Apply(cfg, Apply(cfg, Apply(cfg, TwoHolds(), Acquire(1)), EndSession(2)), Acquire(1)));
    var s4 := Run(cfg, TwoHolds(), four);
    assert Run(cfg, s4, [Deliver(1, false)]) == Apply(cfg, s4, Deliver(1, false));
  }

  lemma SwappedReplies(cfg: Config, s: State)
    requires s.replies == multiset{(2, true), (1, false), (1, true)} && s.lock == Some(1) && 1 in s.members
    ensures !KnowsIt(Apply(cfg, Apply(cfg, s, Deliver(1, true)), Deliver(1, false)))
  {
    var s1 := Apply(cfg, s, Deliver(1, true));
    assert s1.replies == multiset{(2, true), (1, false)};
    var s2 := Apply(cfg, s1, Deliver(1, false));
    assert s2.replies == multiset{(2, true)};
    assert s2.lock == Some(1) && !Awaits(s2, 1) && !Leads(s2, 1);
  }

  /** The holder of the lock can believe that it does not lead. */
  lemma HolderMayNotKnow(cfg: Config) returns (steps: seq<Step>)
    requires cfg.losses || (cfg.overlaps && cfg.sessionsEnd)
    ensures !HolderKnows(cfg, steps)
  {
    if cfg.losses {
      steps := LostGrant(cfg);
    } else {
      var first := Elect(0) + [Spawn(1, true), CreateSession(1), Acquire(1), Deliver(1, false)];
      var second := [EndSession(0), Spawn(2, true), CreateSession(2), Acquire(2)];
      var third := [Acquire(1), EndSession(2), Acquire(1), Deliver(1, true)] + [Deliver(1, false)];
      steps := first + second + third;
      RunConcat(cfg, START, first + second, third);
      RunConcat(cfg, START, first, second);
      ReachOneWatches(cfg);
      ReachTwoHolds(cfg);
      RefusalArrivesLast(cfg);
    }
  }

  /** In all runs the holder of the lock leads once no reply to it is on its way, exactly when no
    * reply is lost and no acquires of one process overlap, unless no session ever ends. */
  lemma HolderKnowsIff(cfg: Config)
    ensures (forall steps :: HolderKnows(cfg, steps)) <==> !cfg.losses && (cfg.overlaps ==> !cfg.sessionsEnd)
  {
    if cfg.losses || (cfg.overlaps && cfg.sessionsEnd) {
      var steps := HolderMayNotKnow(cfg);
    } else {
      forall steps
        ensures HolderKnows(cfg, steps)
      {
        RunKeepsKnow(cfg, START, steps);
      }
    }
  }
}
