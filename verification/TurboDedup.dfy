/** De-duplication of Turbo top-ups: the query for recent transactions, the status loop, and the
  * race between checks, submissions, confirmations and time. */
module TurboDedup {
  import opened Options

  datatype Status = Pending | Confirmed | Failed

  /** A top-up transaction of the AR spender, tagged with its destination. `block` is the time of
    * its block in seconds, None while it has none. */
  datatype Tx = Tx(dest: string, block: Option<nat>, status: Status)

  // ----- The query and the status loop

  /** In the window: no block yet (a timestamp of 0 counts as none), or a block younger than the TTL. */
  predicate InWindow(block: Option<nat>, now: int, ttl: int) {
    block == None || block.value == 0 || block.value * 1000 > now - ttl
  }

  /** Newest first, each once. */
  predicate Descending(ids: seq<nat>) { forall j, k | 0 <= j < k < |ids| :: ids[j] > ids[k] }

  /** The newest `first` transactions tagged with dest, newest first; txs holds the oldest first. */
  function Newest(txs: seq<Tx>, dest: string, first: nat): (ids: seq<nat>)
    ensures forall k | 0 <= k < |ids| :: ids[k] < |txs| && txs[ids[k]].dest == dest
    ensures |ids| <= first && Descending(ids)
  {
    if txs == [] || first == 0 then []
    else
      var last := |txs| - 1;
      if txs[last].dest == dest then [last] + Newest(txs[..last], dest, first - 1)
      else Newest(txs[..last], dest, first)
  }

  const FIRST := 10

  function KeepInWindow(txs: seq<Tx>, ids: seq<nat>, now: int, ttl: int): (kept: seq<nat>)
    requires forall k | 0 <= k < |ids| :: ids[k] < |txs|
    ensures forall i :: i in kept <==> i in ids && InWindow(txs[i].block, now, ttl)
    ensures Descending(ids) ==> Descending(kept)
  {
    if ids == [] then []
    else
      var rest := KeepInWindow(txs, ids[1..], now, ttl);
      assert forall k | 0 <= k < |rest| :: rest[k] in rest;
      if InWindow(txs[ids[0]].block, now, ttl) then [ids[0]] + rest else rest
  }

  /** queryRecentRefillTransactions. */
  function Query(txs: seq<Tx>, dest: string, now: int, ttl: int): seq<nat> {
    KeepInWindow(txs, Newest(txs, dest, FIRST), now, ttl)
  }

  function Tagged(txs: seq<Tx>, dest: string): nat {
    if txs == [] then 0 else Tagged(txs[..|txs| - 1], dest) + if txs[|txs| - 1].dest == dest then 1 else 0
  }

  lemma {:induction false} NewestIff(txs: seq<Tx>, dest: string, first: nat, i: nat)
    ensures i in Newest(txs, dest, first)
       <==> i < |txs| && txs[i].dest == dest && Tagged(txs[i + 1..], dest) < first
  {
    if txs != [] && first > 0 && i < |txs| - 1 {
      var last := |txs| - 1;
      assert txs[i + 1..][..last - i - 1] == txs[..last][i + 1..];
      NewestIff(txs[..last], dest, if txs[last].dest == dest then first - 1 else first, i);
    }
  }

  /** The query's answer, newest first: a transaction is in it exactly when it is tagged with the
    * destination, lies in the window, and is among the ten newest of that tag, old ones included. */
  lemma QueryIff(txs: seq<Tx>, dest: string, now: int, ttl: int, i: nat)
    ensures var q := Query(txs, dest, now, ttl); forall j, k | 0 <= j < k < |q| :: q[j] > q[k]
    ensures i in Query(txs, dest, now, ttl)
       <==> i < |txs| && txs[i].dest == dest && InWindow(txs[i].block, now, ttl) && Tagged(txs[i + 1..], dest) < FIRST
  {
    NewestIff(txs, dest, FIRST, i);
  }

  lemma {:induction false} TaggedIsCount(txs: seq<Tx>, dest: string)
    ensures Tagged(txs, dest) == |set j | 0 <= j < |txs| && txs[j].dest == dest|
  {
    if txs != [] {
      var last := |txs| - 1;
      TaggedIsCount(txs[..last], dest);
      var before := set j | 0 <= j < last && txs[..last][j].dest == dest;
      var all := set j | 0 <= j < |txs| && txs[j].dest == dest;
      assert all == before + if txs[last].dest == dest then {last} else {};
    }
  }

  /** How old a block may be: its timestamp is in seconds, the clock and the TTL in milliseconds. Of
    * the transactions of one tag with fewer than ten newer ones, the query has those without a
    * block or a timestamp, and those whose block is less than the TTL old. */
  lemma QueryWindow(txs: seq<Tx>, dest: string, now: int, ttl: int, i: nat, newer: seq<Tx>)
    requires i < |txs| && txs[i].dest == dest && newer == txs[i + 1..]
    requires |set j | 0 <= j < |newer| && newer[j].dest == dest| < 10
    ensures txs[i].block == None || txs[i].block == Some(0) ==> i in Query(txs, dest, now, ttl)
    ensures txs[i].block.Some? && txs[i].block.value > 0 ==>
      (i in Query(txs, dest, now, ttl) <==> now - 1000 * txs[i].block.value < ttl)
  {
    TaggedIsCount(newer, dest);
    QueryIff(txs, dest, now, ttl, i);
  }

  /** The limit: a transaction with ten newer ones of its tag is not in the query. */
  lemma QueryLimit(txs: seq<Tx>, dest: string, now: int, ttl: int, i: nat, newer: seq<Tx>)
    requires i < |txs| && newer == txs[i + 1..]
    requires |set j | 0 <= j < |newer| && newer[j].dest == dest| >= 10
    ensures i !in Query(txs, dest, now, ttl)
  {
    TaggedIsCount(newer, dest);
    QueryIff(txs, dest, now, ttl, i);
  }

  /** hasPendingTurboRefill: `query` is None where the request fails, `statusOf` gives None where
    * the status cannot be read. False exactly when everything was read and nothing is pending. */
  method HasPendingTurboRefill(query: Option<seq<nat>>, statusOf: nat -> Option<Status>) returns (pending: bool)
    ensures !pending <==>
      query.Some? && forall i | i in query.value :: statusOf(i).Some? && statusOf(i).value != Pending
  {
    if query == None {
      return true;
    }
    var recentTxs := query.value;
    if |recentTxs| == 0 {
      return false;
    }
    for k := 0 to |recentTxs|
      invariant forall j | 0 <= j < k :: statusOf(recentTxs[j]).Some? && statusOf(recentTxs[j]).value != Pending
    {
      var status := statusOf(recentTxs[k]);
      if status == None || status.value == Pending {
        assert recentTxs[k] in recentTxs;
        return true;
      }
    }
    return false;
  }

  // ----- The machine

  /** A check of one wallet: the statuses it has still to read, then the refill in the queue. */
  datatype Phase = Reading(rest: seq<nat>) | Queued | Done

  datatype Check = Check(dest: string, phase: Phase)

  datatype State = State(now: nat, txs: seq<Tx>, checks: seq<Check>)

  datatype Step =
    | Tick(ms: nat)
    | Mine(tx: nat, timestamp: nat)
    | Decide(tx: nat, status: Status)
    | Start(dest: string)            // a check wants a refill and queries; a failed query starts nothing
    | Read(check: nat, readable: bool)
    | Submit(check: nat)
    | Drop(check: nat)

  /** serial: a wallet is checked again only when its last refill has been submitted or dropped. */
  datatype Config = Config(ttl: int, serial: bool)

  predicate Busy(s: State, dest: string) {
    exists k :: 0 <= k < |s.checks| && s.checks[k].dest == dest && !s.checks[k].phase.Done?
  }

  function SetPhase(s: State, k: nat, phase: Phase): State
    requires k < |s.checks|
  {
    s.(checks := s.checks[k := s.checks[k].(phase := phase)])
  }

  /** One turn of the status loop; when nothing is left to read the refill is queued. */
  function ReadStatus(s: State, k: nat, readable: bool): State
    requires k < |s.checks| && s.checks[k].phase.Reading?
  {
    var rest := s.checks[k].phase.rest;
    if rest == [] then SetPhase(s, k, Queued)
    else if !readable || rest[0] >= |s.txs| || s.txs[rest[0]].status == Pending then SetPhase(s, k, Done)
    else SetPhase(s, k, Reading(rest[1..]))
  }

  function Apply(cfg: Config, s: State, step: Step): State {
    match step
    case Tick(ms) => s.(now := s.now + ms)
    case Mine(i, timestamp) =>
      if i < |s.txs| && s.txs[i].block == None
      then s.(txs := s.txs[i := s.txs[i].(block := Some(timestamp))]) else s
    case Decide(i, status) =>
      if i < |s.txs| && s.txs[i].status == Pending then s.(txs := s.txs[i := s.txs[i].(status := status)]) else s
    case Start(dest) =>
      if cfg.serial && Busy(s, dest) then s
      else s.(checks := s.checks + [Check(dest, Reading(Query(s.txs, dest, s.now, cfg.ttl)))])
    case Read(k, readable) =>
      if k < |s.checks| && s.checks[k].phase.Reading? then ReadStatus(s, k, readable) else s
    case Submit(k) =>
      if k < |s.checks| && s.checks[k].phase.Queued?
      then SetPhase(s, k, Done).(txs := s.txs + [Tx(s.checks[k].dest, None, Pending)]) else s
    case Drop(k) =>
      if k < |s.checks| && s.checks[k].phase.Queued? then SetPhase(s, k, Done) else s
  }

  function Run(cfg: Config, s: State, steps: seq<Step>): State
    decreases |steps|
  {
    if steps == [] then s else Run(cfg, Apply(cfg, s, steps[0]), steps[1..])
  }

  const EMPTY := State(0, [], [])

  lemma RunConcat(cfg: Config, s: State, xs: seq<Step>, ys: seq<Step>)
    ensures Run(cfg, s, xs + ys) == Run(cfg, Run(cfg, s, xs), ys)
    decreases |xs|
  {
    if xs == [] {
      assert xs + ys == ys;
    } else {
      assert (xs + ys)[1..] == xs[1..] + ys;
      RunConcat(cfg, Apply(cfg, s, xs[0]), xs[1..], ys);
    }
  }

  lemma RunTwo(cfg: Config, s: State, x: Step, y: Step)
    ensures Run(cfg, s, [x, y]) == Apply(cfg, Apply(cfg, s, x), y)
  {
    assert [x, y][1..] == [y];
    assert Run(cfg, Apply(cfg, s, x), [y]) == Apply(cfg, Apply(cfg, s, x), y);
  }

  /** A refill that a new check must not duplicate: pending, and inside the window. */
  predicate Relevant(cfg: Config, s: State, i: nat)
    requires i < |s.txs|
  {
    s.txs[i].status == Pending && InWindow(s.txs[i].block, s.now, cfg.ttl)
  }

  function Reads(k: nat, readable: seq<bool>): seq<Step> {
    seq(|readable|, i requires 0 <= i < |readable| => Read(k, readable[i]))
  }

  lemma {:induction false} DoneStays(cfg: Config, s: State, k: nat, readable: seq<bool>)
    requires k < |s.checks| && !s.checks[k].phase.Reading?
    ensures Run(cfg, s, Reads(k, readable)) == s
    decreases |readable|
  {
    if readable != [] {
      assert Reads(k, readable)[1..] == Reads(k, readable[1..]);
      DoneStays(cfg, s, k, readable[1..]);
    }
  }

  /** The turns of a status loop that nothing interrupts queue the refill under the condition on
    * which hasPendingTurboRefill returns false. */
  lemma {:induction false} LoopVerdict(cfg: Config, s: State, k: nat, readable: seq<bool>)
    requires k < |s.checks| && s.checks[k].phase.Reading? && |readable| == |s.checks[k].phase.rest| + 1
    requires forall j | 0 <= j < |s.checks[k].phase.rest| :: s.checks[k].phase.rest[j] < |s.txs|
    ensures var rest := s.checks[k].phase.rest;
      var r := Run(cfg, s, Reads(k, readable));
      && |r.checks| == |s.checks| && r.txs == s.txs
      && r.checks[k].phase == if forall j | 0 <= j < |rest| :: readable[j] && s.txs[rest[j]].status != Pending
                              then Queued else Done
    decreases |readable|
  {
    var rest := s.checks[k].phase.rest;
    var s' := Apply(cfg, s, Read(k, readable[0]));
    assert Reads(k, readable)[1..] == Reads(k, readable[1..]);
    if s'.checks[k].phase.Reading? {
      LoopVerdict(cfg, s', k, readable[1..]);
      assert forall j | 0 < j < |rest| :: rest[j] == rest[1..][j - 1] && readable[j] == readable[1..][j - 1];
      assert forall j | 0 <= j < |rest[1..]| :: rest[1..][j] == rest[j + 1] && readable[1..][j] == readable[j + 1];
    } else {
      DoneStays(cfg, s', k, readable[1..]);
    }
  }

  /** Once its refill is submitted or dropped, a wallet may be checked again; submitting it makes one
    * transaction for it, pending and without a block, and dropping it none. */
  lemma RefillEnds(cfg: Config, s: State, k: nat)
    requires k < |s.checks| && s.checks[k].phase.Queued? && OneAtATime(s)
    ensures !Busy(Apply(cfg, s, Drop(k)), s.checks[k].dest) && !Busy(Apply(cfg, s, Submit(k)), s.checks[k].dest)
    ensures Apply(cfg, s, Drop(k)).txs == s.txs
    ensures Apply(cfg, s, Submit(k)).txs == s.txs + [Tx(s.checks[k].dest, None, Pending)]
  {
  }

  /** A top-up that stays pending is forgotten once its block is as old as the TTL, and not before. */
  lemma WindowCloses(cfg: Config, s: State, i: nat, timestamp: nat, ms: nat)
    requires i < |s.txs| && s.txs[i].status == Pending && s.txs[i].block == None && timestamp > 0
    ensures var r := Run(cfg, s, [Mine(i, timestamp), Tick(ms)]);
      && |r.txs| == |s.txs| && r.txs[i].status == Pending && r.txs[i].block == Some(timestamp)
      && (Relevant(cfg, r, i) <==> s.now + ms - 1000 * timestamp < cfg.ttl)
  {
    RunTwo(cfg, s, Mine(i, timestamp), Tick(ms));
  }

  // ----- Safety

  /** Only the newest transaction to a destination can be relevant. */
  ghost predicate OnlyNewest(cfg: Config, s: State) {
    forall i, j :: 0 <= i < j < |s.txs| && s.txs[i].dest == s.txs[j].dest ==> !Relevant(cfg, s, i)
  }

  /** Each check still has every relevant transaction to read; once queued there is none. */
  ghost predicate CheckCovers(cfg: Config, s: State, c: Check) {
    forall i: nat :: i < |s.txs| && s.txs[i].dest == c.dest && Relevant(cfg, s, i) ==>
      c.phase.Done? || (c.phase.Reading? && i in c.phase.rest)
  }

  ghost predicate ChecksCover(cfg: Config, s: State) {
    forall k :: 0 <= k < |s.checks| ==> CheckCovers(cfg, s, s.checks[k])
  }

  ghost predicate OneAtATime(s: State) {
    forall k, l | 0 <= k < l < |s.checks| && s.checks[k].dest == s.checks[l].dest ::
      s.checks[k].phase.Done? || s.checks[l].phase.Done?
  }

  ghost predicate DedupInv(cfg: Config, s: State) {
    OnlyNewest(cfg, s) && ChecksCover(cfg, s) && OneAtATime(s)
  }

  /** The window is one-way: as time passes, blocks are assigned and statuses leave pending, no
    * transaction becomes relevant again. */
  predicate Ages(s: State, s': State) {
    && s.now <= s'.now && |s.txs| == |s'.txs|
    && forall i | 0 <= i < |s.txs| ::
         && s'.txs[i].dest == s.txs[i].dest
         && (s.txs[i].block.Some? ==> s'.txs[i].block == s.txs[i].block)
         && (s'.txs[i].status == Pending ==> s.txs[i].status == Pending)
  }

  lemma WindowIsOneWay(cfg: Config, s: State, s': State, i: nat)
    requires Ages(s, s') && i < |s.txs|
    ensures Relevant(cfg, s', i) ==> Relevant(cfg, s, i)
  {
  }

  lemma AgingKeepsInv(cfg: Config, s: State, s': State)
    requires DedupInv(cfg, s) && Ages(s, s') && s'.checks == s.checks
    ensures DedupInv(cfg, s')
  {
    forall i: nat | i < |s.txs|
      ensures Relevant(cfg, s', i) ==> Relevant(cfg, s, i)
    {
      WindowIsOneWay(cfg, s, s', i);
    }
    forall k | 0 <= k < |s'.checks|
      ensures CheckCovers(cfg, s', s'.checks[k])
    {
      assert CheckCovers(cfg, s, s.checks[k]);
    }
  }

  /** The newest transaction to a destination heads the query: a limit of 10 never hides it. */
  lemma {:induction false} NewestHeads(txs: seq<Tx>, dest: string, first: nat, i: nat)
    requires first > 0 && i < |txs| && txs[i].dest == dest
    requires forall j | i < j < |txs| :: txs[j].dest != dest
    ensures Newest(txs, dest, first) != [] && Newest(txs, dest, first)[0] == i
    decreases |txs|
  {
    var last := |txs| - 1;
    if i < last {
      NewestHeads(txs[..last], dest, first, i);
    }
  }

  lemma QueryFindsRelevant(cfg: Config, s: State, dest: string, i: nat)
    requires OnlyNewest(cfg, s) && i < |s.txs| && s.txs[i].dest == dest && Relevant(cfg, s, i)
    ensures i in Query(s.txs, dest, s.now, cfg.ttl)
  {
    NewestHeads(s.txs, dest, FIRST, i);
  }

  lemma StartKeepsInv(cfg: Config, s: State, dest: string)
    requires DedupInv(cfg, s) && !Busy(s, dest)
    ensures DedupInv(cfg, Apply(cfg, s, Start(dest)))
  {
    var s' := s.(checks := s.checks + [Check(dest, Reading(Query(s.txs, dest, s.now, cfg.ttl)))]);
    forall i: nat | i < |s.txs| && s.txs[i].dest == dest && Relevant(cfg, s, i)
      ensures i in Query(s.txs, dest, s.now, cfg.ttl)
    {
      QueryFindsRelevant(cfg, s, dest, i);
    }
    forall k | 0 <= k < |s'.checks|
      ensures CheckCovers(cfg, s', s'.checks[k])
    {
      if k < |s.checks| { assert CheckCovers(cfg, s, s.checks[k]); }
    }
  }

  lemma PhaseKeepsInv(cfg: Config, s: State, k: nat, phase: Phase)
    requires DedupInv(cfg, s) && k < |s.checks| && !s.checks[k].phase.Done?
    requires CheckCovers(cfg, s, s.checks[k].(phase := phase))
    ensures DedupInv(cfg, SetPhase(s, k, phase))
  {
    var s' := SetPhase(s, k, phase);
    forall l | 0 <= l < |s'.checks|
      ensures CheckCovers(cfg, s', s'.checks[l])
    {
      assert CheckCovers(cfg, s, s.checks[l]);
    }
  }

  lemma ReadKeepsInv(cfg: Config, s: State, k: nat, readable: bool)
    requires DedupInv(cfg, s) && k < |s.checks| && s.checks[k].phase.Reading?
    ensures DedupInv(cfg, ReadStatus(s, k, readable))
  {
    assert CheckCovers(cfg, s, s.checks[k]);
    var rest := s.checks[k].phase.rest;
    if rest != [] {
      assert forall i | i in rest :: i == rest[0] || i in rest[1..];
    }
    PhaseKeepsInv(cfg, s, k, ReadStatus(s, k, readable).checks[k].phase);
  }

  lemma SubmitKeepsInv(cfg: Config, s: State, k: nat)
    requires DedupInv(cfg, s) && k < |s.checks| && s.checks[k].phase.Queued?
    ensures DedupInv(cfg, Apply(cfg, s, Submit(k)))
  {
    var s' := Apply(cfg, s, Submit(k));
    assert CheckCovers(cfg, s, s.checks[k]);
    forall i: nat | i < |s.txs|
      ensures Relevant(cfg, s', i) == Relevant(cfg, s, i) && s'.txs[i] == s.txs[i]
    {
    }
    forall l | 0 <= l < |s'.checks|
      ensures CheckCovers(cfg, s', s'.checks[l])
    {
      assert CheckCovers(cfg, s, s.checks[l]);
    }
  }

  lemma StepKeepsInv(cfg: Config, s: State, step: Step)
    requires cfg.serial && DedupInv(cfg, s)
    ensures DedupInv(cfg, Apply(cfg, s, step))
  {
    var s' := Apply(cfg, s, step);
    match step
    case Start(dest) => if !Busy(s, dest) { StartKeepsInv(cfg, s, dest); }
    case Read(k, readable) =>
      if k < |s.checks| && s.checks[k].phase.Reading? { ReadKeepsInv(cfg, s, k, readable); }
    case Submit(k) =>
      if k < |s.checks| && s.checks[k].phase.Queued? { SubmitKeepsInv(cfg, s, k); }
    case Drop(k) =>
      if k < |s.checks| && s.checks[k].phase.Queued? { PhaseKeepsInv(cfg, s, k, Done); }
    case _ => AgingKeepsInv(cfg, s, s');
  }

  lemma {:induction false} RunKeepsInv(cfg: Config, s: State, steps: seq<Step>)
    requires cfg.serial && DedupInv(cfg, s)
    ensures DedupInv(cfg, Run(cfg, s, steps))
    decreases |steps|
  {
    if steps != [] {
      StepKeepsInv(cfg, s, steps[0]);
      RunKeepsInv(cfg, Apply(cfg, s, steps[0]), steps[1..]);
    }
  }

  /** No destination has two refills underway: not two transactions that are pending and in the
    * window, not two refills in the queue, not one of each; and a query for the destination finds
    * the one such transaction there is. */
  ghost predicate Deduplicated(cfg: Config, s: State) {
    && (forall i: nat, j: nat | i < |s.txs| && j < |s.txs| && s.txs[i].dest == s.txs[j].dest ::
          Relevant(cfg, s, i) && Relevant(cfg, s, j) ==> i == j)
    && (forall k: nat, l: nat | k < |s.checks| && l < |s.checks| && s.checks[k].dest == s.checks[l].dest ::
          s.checks[k].phase.Queued? && s.checks[l].phase.Queued? ==> k == l)
    && (forall k: nat, i: nat | k < |s.checks| && i < |s.txs| && s.checks[k].dest == s.txs[i].dest ::
          s.checks[k].phase.Queued? ==> !Relevant(cfg, s, i))
    && (forall i: nat :: i < |s.txs| && Relevant(cfg, s, i) ==> i in Query(s.txs, s.txs[i].dest, s.now, cfg.ttl))
  }

  ghost predicate StaysDeduplicated(cfg: Config, steps: seq<Step>) {
    Deduplicated(cfg, Run(cfg, EMPTY, steps))
  }

  lemma InvDeduplicates(cfg: Config, s: State)
    requires DedupInv(cfg, s)
    ensures Deduplicated(cfg, s)
  {
    forall i: nat | i < |s.txs| && Relevant(cfg, s, i)
      ensures i in Query(s.txs, s.txs[i].dest, s.now, cfg.ttl)
    {
      QueryFindsRelevant(cfg, s, s.txs[i].dest, i);
    }
    forall k: nat, i: nat
      | k < |s.checks| && i < |s.txs| && s.checks[k].dest == s.txs[i].dest && s.checks[k].phase.Queued?
      ensures !Relevant(cfg, s, i)
    {
      assert CheckCovers(cfg, s, s.checks[k]);
    }
  }

  lemma TwoAtOnce(cfg: Config) returns (steps: seq<Step>)
    requires !cfg.serial
    ensures !StaysDeduplicated(cfg, steps)
  {
    var starts, statuses, submits := [Start("a"), Start("a")], [Read(0, true), Read(1, true)], [Submit(0), Submit(1)];
    steps := starts + statuses + submits;
    RunConcat(cfg, EMPTY, starts, statuses);
    RunConcat(cfg, EMPTY, starts + statuses, submits);
    RunTwo(cfg, EMPTY, Start("a"), Start("a"));
    var s2 := Run(cfg, EMPTY, starts);
    assert s2 == State(0, [], [Check("a", Reading([])), Check("a", Reading([]))]);
    RunTwo(cfg, s2, Read(0, true), Read(1, true));
    var s4 := Run(cfg, s2, statuses);
    assert s4 == State(0, [], [Check("a", Queued), Check("a", Queued)]);
    RunTwo(cfg, s4, Submit(0), Submit(1));
    var s6 := Run(cfg, s4, submits);
    assert s6.txs == [Tx("a", None, Pending), Tx("a", None, Pending)];
    assert Relevant(cfg, s6, 0) && Relevant(cfg, s6, 1);
  }

  /** De-duplication holds in all runs, with any number of old transactions behind the limit of
    * 10, exactly when each wallet's refill is submitted and visible before its next check. */
  lemma DedupIffSerial(cfg: Config)
    ensures (forall steps :: StaysDeduplicated(cfg, steps)) <==> cfg.serial
  {
    if cfg.serial {
      forall steps
        ensures StaysDeduplicated(cfg, steps)
      {
        RunKeepsInv(cfg, EMPTY, steps);
        InvDeduplicates(cfg, Run(cfg, EMPTY, steps));
      }
    } else {
      var steps := TwoAtOnce(cfg);
    }
  }
}
