# Operator Checks: a verified model

Operator Checks keeps a set of hot wallets funded. A `check-balances` job launches a flow of ten
balance checks and queues itself again; checks that find a wallet below its minimum enqueue a
refill; a leader elected over Consul seeds the first job. Several processes on several hosts run
this code against one Redis, one Consul and three chains, and almost none of its decisions are
atomic. This project models that behaviour in Dafny 4.11 and proves what it keeps over every run.

`dafny verify dfyconfig.toml` checks the whole project.

## How the model is built

Coordination is modelled as machines whose steps interleave freely. A step is one Redis operation,
one Consul request, reply or expiry, one status read, one submission, one balance read, or the
passing of time. A step that is not enabled leaves the state alone, so a theorem about "every list
of steps" is a theorem about every interleaving. Code that changes fields is a class, and each of
its methods is proved equal to a run of the machine, or to the function on states that the lemmas
speak about.

| File | What it models |
|---|---|
| `CheckLoop.dfy` | the check loop: tokens, queue counts, `queueCheckBalances` read by read, obliterate, time |
| `LoopSafety.dfy`, `LoopProgress.dfy`, `LoopRate.dfy` | what the loop keeps, that it goes on, how fast it can go |
| `AtomicQueue.dfy`, `Sweeps.dfy` | when its calls behave as if atomic; runs in which chains move side by side |
| `TasksService.dfy` | the code of one process, with all others running at each of its awaits |
| `Election.dfy`, `ClusterService.dfy` | leader election and the object it updates |
| `AppThreads.dfy`, `Hosts.dfy` | forking; leaders per host |
| `Units.dfy`, `Checks.dfy` | exact unit conversions; the threshold checks |
| `Wallet.dfy` | one wallet under checks, settlements, rejections and outflows |
| `TurboDedup.dfy` | the query for pending top-ups and the race it guards against |
| `TurboWallet.dfy` | a wallet of credits under checks, that query, and top-ups that land |
| `Refills.dfy`, `RefillRace.dfy` | the sends, their ledger and what they report; the balance check before mining |
| `RefillsQueue.dfy`, `BalanceChecksQueue.dfy` | payloads and dispatch; checks, enqueued refills, the review |
| `SendAos.dfy` | the retry loops |
| `System.dfy`, `Overshoot.dfy` | election, loop and wallet together; runs that reach the bounds |
| `Options.dfy`, `Products.dfy` | optional values; facts about products |

The main results: the loop never goes out, and this depends exactly on requeue calls leaving the
active count out (`LoopSafety.NeverGoesOut`); running on is unavoidable and the next flow is never
more than eight steps away (`LoopProgress`); the whole service, with lost sessions, late replies
and slow refills, started over any jobs left in the queue, cannot fund a wallet beyond
`(jobs left over + sessions ended + 1) * (settling time / recheckDelay + 1) * max`
(`System.ServiceOvershoot`), a bound at which balances of its runs end exactly, for each of those
quantities (`Overshoot.ServiceBoundIsReached`), so it never funds beyond `max` exactly when nothing
is left over, no session ends and refills settle before the next check
(`Overshoot.NeverAboveMaxIff`); Turbo refills are de-duplicated in all runs exactly when each is
visible before that wallet's next check, whatever the limit of ten hides
(`TurboDedup.DedupIffSerial`), and that keeps a wallet of credits within `max` exactly when, besides,
no credits land while it is being checked or after their top-up is out of sight
(`TurboWallet.WithinMaxIff`).

Some things one might expect of the code are false of it. Each is proved false by a run and
replaced by the exact condition:

| What one might expect | Holds in all runs exactly when | Lemma |
|---|---|---|
| at most one `isLeader` | no session ever ends | `Election.OneLeaderIffSessionsLast` |
| the lock holder knows that it leads once it awaits no reply | no reply is lost, and no two acquires of one process overlap unless sessions never end | `Election.HolderKnowsIff` |
| n seeds leave at most m jobs in the queue | n and the jobs left over at the start are at most m | `AtomicQueue.JobsWithinIff` |
| the first leader's token is the only one after its first step | nothing was left over at the start, even if it obliterates: a worker may have picked a job before | `LoopSafety.FirstSeedIsSoleIff` |
| no wallet stands above max because of refills | nothing was left over, no session ends and refills settle before the next check (or the wallet never asks) | `Overshoot.NeverAboveMaxIff` |
| the query for pending top-ups keeps a Turbo wallet within max | a wallet is checked again only after its last refill was submitted or dropped, no credits land between a check's balance read and its verdict, and none once their top-up has left pending or the window (or the wallet never asks) | `TurboWallet.WithinMaxIff` |
| the AR spender's balance covers every transaction posted | a send reads the balance only while no earlier one is between its read and its confirmation | `RefillRace.CoveredIffConfirmed` |
| the spenders pay what the sends report | the network loses no confirmation, drops nothing that it has confirmed, and shows no more than the spender has | `Refills.ReportedIsPaidIff` |
| the code's own balance check keeps the AR spender from being overdrawn | the gateway never shows more than the spender has | `Refills.OwnCheckSufficesIff` |
| a wallet below min asks for a refill | its check does not take `0n` for a failed fetch, or the balance is not zero | `Checks.RequestIff` |
| every request is positive and at most max | min <= max, or min is at most 0 (at most 1 where zero is a failed fetch) | `Checks.RequestsAreSoundIff` |
| the AR amount sent is exactly the shortfall of a whole-winston rule | max is whole in winston | `Checks.BundlerFollowsRule` |

The repository's own README says local forking uses `AppThreadsService`; `src/main.ts` does not
call it, and the job specifications set `IS_LOCAL_LEADER` themselves. The README also says the
service verifies that the spender has enough AR before sending; `RefillRace` says when that
verification holds good.

## Assumptions

- A started `queueCheckBalances` call finishes: no crash and no Redis error while it is in flight.
- `obliterate` removes all jobs in one step; a job already in a worker's hands runs on.
- Delayed jobs become waiting only when due. All hosts and Redis share one clock, which does not
  run backwards: with skewed clocks the rate and overshoot bounds would have to allow for the skew.
- At the start any jobs may be left in the tasks queue, waiting or delayed; no check or refill is in
  the other queues and none is outstanding. A redeployment is either such a start or, with the old
  processes still there, part of a run in which sessions end.
- A process creates one Consul session, so sessions are named by their processes. Consul grants an
  acquire exactly when the session is live and the key is free or already its own; a session's end
  deletes the key.
- Turbo's statuses only leave `pending`, blocks are assigned once, and the transaction query
  answers newest first. A top-up credits its wallet at most once, with at most what was asked for.
  Wallets have distinct addresses.
- Networks carry out only payments that the sender's balance covers; fees are not counted. The
  balance that the gateway shows may be stale, and the price Turbo quotes is arbitrary. A reply that
  is lost reads as a failure; a transfer is confirmed only once it is mined, a post or a top-up
  before that.

## Model

| member | source | states |
|---|---|---|
| LoopSafety.NeverGoesOut | src/tasks/processors/tasks-queue.ts:21-25 | for every start with leftover jobs and every interleaving: once a job has been added since the last obliterate there is an unprocessed job or a requeue call with partial sum 0, and until then a bootstrapper holds the token; this holds if and only if requeue calls skip the active count |
| LoopSafety.CountingActiveJobsKillsTheLoop | src/tasks/tasks.service.ts:159-165 | were the active count included, a single chain would see its own running job, decline, and leave a state without any live token |
| LoopSafety.DeadStaysDead | src/tasks/tasks.service.ts:144-177 | from a state without live tokens no run without a bootstrap ever launches another flow |
| LoopSafety.ChainsAreConserved | src/tasks/tasks.service.ts:121-176 | in every reachable state live tokens = leftover jobs + bootstraps - declined calls - obliterated jobs, so jobs in Redis never outnumber seeds |
| LoopSafety.ChainsAreBootstraps | src/tasks/tasks.service.ts:121-142 | each bootstrap adds one chain and no other step does |
| LoopSafety.OneSeedOneToken | src/tasks/tasks.service.ts:144-177 | once one chain is live and all others, any number, have ended, there is exactly one token in every later state without a bootstrap, and no call declines |
| LoopSafety.SeedIsSoleIff | src/tasks/tasks.service.ts:121-142 | from any state, a bootstrapper's obliterate leaves its token alone exactly when all others have ended or are waiting or delayed jobs; its seed call starts alone exactly when all others have ended and no job is running |
| LoopSafety.FirstSeedIsSoleIff | src/tasks/tasks.service.ts:121-142 | over all runs before the first bootstrap and between it and its first step: that step leaves its token alone if and only if nothing was left over at the start, however often it obliterates, since a picked job survives |
| LoopProgress.StepsArePaidFor | src/tasks/processors/tasks-queue.ts:16-31 | in any run the steps taken are bounded by the rank at the start, eight per launch, and a constant per bootstrap |
| LoopProgress.SteppingLaunches | src/tasks/processors/tasks-queue.ts:16-31 | so more steps than the rank, without a bootstrap, contain a launch |
| LoopProgress.MovingLaunches | src/tasks/processors/tasks-queue.ts:16-31 | workers that change something at every step cannot take more steps than the rank without launching a flow |
| LoopProgress.LaunchesAreRecorded | src/tasks/processors/tasks-queue.ts:21-21 | the launches counted in a run are the flows it records |
| LoopProgress.NextLaunch | src/tasks/processors/tasks-queue.ts:19-26 | from every live state at most eight steps, none of them a bootstrap, launch the next flow |
| LoopProgress.LoopGoesOn | src/tasks/processors/tasks-queue.ts:19-26 | every reachable state after a seed can go on in this way |
| LoopRate.LaunchesAreApart | src/tasks/processors/tasks-queue.ts:20-25 | in every run two launches of one chain are at least recheckDelay apart |
| LoopRate.RateBound | src/tasks/tasks.service.ts:115-118 | in every run a window of length T sees at most chains * (T / recheckDelay + 1) launches |
| AtomicQueue.AtMostOneJob | src/tasks/tasks.service.ts:156-176 | if calls were indivisible, waiting + delayed would stay at most 1 under any number of callers |
| AtomicQueue.UninterruptedCall | src/tasks/tasks.service.ts:156-176 | the reads and the add of a call, uninterrupted, have the effect of the indivisible call |
| AtomicQueue.SoleTokenRefines | src/tasks/tasks.service.ts:156-176 | while one token is left, whatever chains came before, every interleaved run is a run of the indivisible queue, obliterates included, so waiting + delayed is at most 1 |
| AtomicQueue.JobsWithinIff | src/tasks/tasks.service.ts:156-176 | from any jobs left over, in all runs and for any number of obliterates: at most n seeds keep waiting + delayed at most m if and only if n and the jobs left over are at most m |
| TasksService.RecheckDelay | src/tasks/tasks.service.ts:115-118 | the delay is never zero; unparsable and zero settings give five minutes, all others themselves |
| TasksService.Tasks.QueueCheckBalances | src/tasks/tasks.service.ts:144-177 | with any steps of other processes at its awaits, the call is the run of the machine that weaves its steps with theirs; it gives up exactly when the waiting count at its start, the delayed count one await later or, unless skipped, the active count two awaits later is positive, and otherwise adds a job with its delay |
| TasksService.PromotedJobIsMissed | src/tasks/tasks.service.ts:157-158 | a due job promoted between the two reads is in neither count: the requeue call adds a second job beside it |
| TasksService.ObliterationsAre | src/tasks/tasks.service.ts:124-135 | a live service without DO_CLEAN never obliterates; being not live and DO_CLEAN each add one obliterate to the steps of bootstrap |
| TasksService.Tasks.DecideOrAdd | src/tasks/tasks.service.ts:162-176 | a positive count gives up, a zero count adds the job with its delay |
| TasksService.Tasks.Process | src/tasks/processors/tasks-queue.ts:16-31 | processing launches one flow now and starts one requeue call with recheckDelay, skipping the active count |
| TasksService.Tasks.OnApplicationBootstrap | src/tasks/tasks.service.ts:121-142 | only the one leader acts: it obliterates once for a service that is not live and once for DO_CLEAN, then seeds without delay, again woven with all others |
| TasksService.Tasks.constructor | src/tasks/tasks.service.ts:98-119 | the configuration that the loop runs under |
| Election.LiveLeaderHoldsTheLock | src/cluster/cluster.service.ts:129-163 | in every run a process with isLeader true and a live session is the lock holder, so there is at most one, with overlapping acquires and replies in any order |
| Election.OneLeaderIffSessionsLast | src/cluster/cluster.service.ts:105-163 | at most one isLeader in all runs if and only if no session ever ends |
| Election.HolderKnowsIff | src/cluster/cluster.service.ts:129-162 | the lock holder has isLeader true in all runs once no reply to it is in flight, if and only if no reply is lost and acquires of one process do not overlap (or sessions never end); the first acquire is awaited before the watch is set up |
| Election.HolderMayNotKnow | src/cluster/cluster.service.ts:149-162 | otherwise a run ends with a holder that does not lead: a lost grant, or the refusal of a watch-triggered acquire that arrives after the grant of the next |
| Election.WinnersNeedEnds | src/cluster/cluster.service.ts:105-114 | the sessions that ever won the lock are at most one more than the sessions that have ended |
| Hosts.OnePerHost | src/cluster/cluster.service.ts:65-91 | in a cluster, of the processes that parallelize forks on one host none but the first ever leads, in any run, so at most one passes isTheOne |
| Hosts.OnePerSingleNode | src/cluster/cluster.service.ts:33-43 | in single-node mode every process leads, and exactly the first worker of a host passes isTheOne, whatever events reach the workers |
| ClusterService.Cluster.constructor | src/cluster/cluster.service.ts:22-63 | leads from the start exactly if it is not live or Consul's host or port is missing; in a cluster leadership is undecided |
| ClusterService.ModeIff | src/cluster/cluster.service.ts:33-52 | single-node unless live with host and port given; then clustered with a service name and refused without |
| ClusterService.Cluster.AcquireLock | src/cluster/cluster.service.ts:132-147 | a reply sets isLeader to itself; an error, or a missing session, changes nothing |
| ClusterService.Cluster.OnChange | src/cluster/cluster.service.ts:158-162 | a change with data, or an error, leaves isLeader as it is; a change without data sets it to the reply |
| ClusterService.ChangeIsElection | src/cluster/cluster.service.ts:158-162 | a change without data is an acquire of the election with its answer or loss, and a change with data is no step |
| ClusterService.BootstrapIsElection | src/cluster/cluster.service.ts:76-91 | so is bootstrap: a session created, the first acquire, its answer or loss, and then the watch |
| ClusterService.Cluster.OnApplicationBootstrap | src/cluster/cluster.service.ts:76-91 | only a local leader in a cluster gets a session, renews it, sets isLeader to the reply of its first acquire, and then watches the key |
| ClusterService.Cluster.BeforeApplicationShutdown | src/cluster/cluster.service.ts:93-103 | renewals stop and a local leader hands its session over for destruction |
| AppThreads.Parallelize | src/cluster/app-threads.service.ts:13-31 | for every CPU_COUNT, unparsable ones included, exactly one process that runs the callback is the local leader; there are as many as the smaller of the two counts if both exceed one, and else one |
| System.ChainsNeedLostSessions | src/cluster/cluster.service.ts:70-74 | in every run of a cluster the chains are the jobs left over and the processes that passed isTheOne, and these are at most one more than sessions have ended, and at most one while none ends |
| System.DecidesOnce | src/tasks/tasks.service.ts:121-142 | in every run a process that has bootstrapped stays a seeder or a non-seeder: one that did not lead then never seeds, even if elected later |
| System.OnceSeededNeverOut | src/tasks/tasks.service.ts:121-142 | once a leader has seeded, or from the start if jobs were left over, a token exists in every state of the whole service, whatever the election does |
| System.ServiceRate | src/tasks/processors/tasks-queue.ts:20-25 | flows of the whole service in any window are at most (jobs left over + sessions ended + 1) * (length / recheckDelay + 1) |
| System.ServiceOvershoot | src/tasks/processors/balance-checks-queue.ts:101-121 | over any jobs left over: if refills settle or fail within a given time of their flow's launch, balance plus all outstanding refills never exceeds the larger of the initial balance and (jobs left over + sessions ended + 1) * (time / recheckDelay + 1) * max |
| System.NeverAboveMax | src/tasks/processors/balance-checks-queue.ts:101-121 | with nothing left over, no session ended and refills faster than recheckDelay, never above max |
| Overshoot.ServiceBoundIsReached | src/tasks/processors/balance-checks-queue.ts:101-121 | for all jobs left over, every number of ended sessions and every settling time, a run of the whole service ends with all refills settled and the balance exactly at that bound; where a zero balance is taken for a failed fetch, from balance 1 with refills of max - 1 |
| Overshoot.NeverAboveMaxIff | src/tasks/processors/balance-checks-queue.ts:101-121 | for any min <= max and any jobs left over: never above max in all runs if and only if there are none, no session ends and refills settle before the next check, or min is at most the least balance that counts as fetched |
| System.FlowsAreLaunches | src/tasks/processors/tasks-queue.ts:21-21 | different flows launched in a window are no more than the launches counted in it |
| Wallet.OvershootBound | src/checks/bundler-checks.service.ts:59-68 | with at most k refills outstanding, balance plus all of them never exceeds the larger of the initial total and k * max, under any outflows, rejections and settlement orders |
| Wallet.OvershootIsReached | src/checks/bundler-checks.service.ts:59-68 | for every k a run reaches exactly k * max |
| Wallet.CheckAsksIff | src/checks/bundler-checks.service.ts:59-68 | each flow checks a wallet once, and asks for max less the balance exactly when it read one below min that does not count as a failed fetch |
| Wallet.EmptyPoolStaysEmpty | src/checks/hodler-checks.service.ts:136-140 | a wallet whose zero balance is taken for a failed fetch is never refilled again |
| Units.WincIsExact | src/checks/turbo-credits-checks.service.ts:171-173 | dividing winc by 10^12 at 20 places loses nothing, and converts back |
| Units.UnitsAre | src/checks/turbo-credits-checks.service.ts:171-173 | 10^12 winston to the AR and 10^12 winc to the credit, and winston convert there and back |
| Units.DividedByIsNearest | src/checks/turbo-credits-checks.service.ts:173-173 | division gives the nearest multiple of 10^-20, half up |
| Units.TurboRefillReachesMax | src/refills/refills.service.ts:239-239 | balance read plus winc requested is max rounded up to a whole winc |
| Units.ArRefillIsWhole | src/refills/refills.service.ts:176-182 | the AR request converts back to exactly max - balance in winston, a whole number if and only if max has at most 12 decimals |
| Checks.RequestsAreSoundIff | src/checks/bundler-checks.service.ts:59-68 | every request is positive and at most max for all balances if and only if min <= max, or no balance that counts as fetched lies below min |
| Checks.RequestIff | src/checks/hodler-checks.service.ts:137-156 | a balance below min asks for max - balance exactly unless it is a zero taken for a failed fetch; any other balance asks for nothing |
| Checks.TurboFollowsRule | src/checks/turbo-credits-checks.service.ts:147-200 | the credit check with the top-up's rounding behind it is the threshold rule on whole winc, both thresholds rounded up |
| Checks.BundlerFollowsRule | src/checks/bundler-checks.service.ts:50-81 | for all thresholds the AR check asks exactly when the rule on winston does, thresholds rounded up; the amount the send converts rounds up to the rule's, and equals it if and only if max has at most 12 decimals |
| Checks.HodlerFollowsRule | src/checks/hodler-checks.service.ts:125-176 | the token check is the threshold rule with zero taken for a failed fetch |
| Checks.ReadingsReport | src/checks/hodler-checks.service.ts:71-176 | all checks report the balance read, exactly, with the wallet's address; failed fetches report zero and ask for nothing |
| Checks.UnconfiguredReports | src/checks/turbo-credits-checks.service.ts:156-165 | a wallet without an address, or credits without thresholds, read zero and ask for nothing |
| TurboDedup.HasPendingTurboRefill | src/refills/refills.service.ts:357-401 | false if and only if the query succeeded and every result in the window has a status that was read and is not pending |
| TurboDedup.QueryIff | src/refills/refills.service.ts:302-348 | the query answers newest first, each once: exactly the transactions tagged with the destination, without a block or with one younger than the TTL, and with fewer than ten newer ones of that tag |
| TurboDedup.QueryWindow | src/refills/refills.service.ts:334-348 | with fewer than ten newer transactions of its tag, one with a timestamp in seconds is in the query exactly when now - 1000 * timestamp < TTL, and one without a block or timestamp always |
| TurboDedup.QueryLimit | src/refills/refills.service.ts:302-319 | one with ten newer transactions of its tag is never in it |
| TurboDedup.RefillEnds | src/tasks/processors/balance-checks-queue.ts:163-188 | submitting or dropping the refill frees the wallet for its next check; submitting makes one pending transaction, dropping none |
| TurboDedup.WindowCloses | src/refills/refills.service.ts:334-348 | a top-up that stays pending counts until its block is as old as the TTL, and no longer |
| TurboDedup.NewestHeads | src/refills/refills.service.ts:302-319 | the newest transaction to a destination heads the query, so the limit never hides it |
| TurboDedup.WindowIsOneWay | src/refills/refills.service.ts:334-348 | as time passes, blocks are assigned and statuses settle, no transaction becomes pending and in the window again |
| TurboDedup.LoopVerdict | src/refills/refills.service.ts:374-396 | the status loop, uninterrupted, queues the refill exactly when every status was read and none is pending |
| TurboDedup.DedupIffSerial | src/tasks/processors/balance-checks-queue.ts:163-188 | in every reachable state each destination has at most one refill underway (queued, or a transaction that is pending and in the window), and a query finds such a transaction, if and only if a wallet is checked again only after its last refill was submitted or dropped |
| TurboWallet.WithinMaxIff | src/tasks/processors/balance-checks-queue.ts:163-188 | with the balance read first, then the query, then the statuses: top-ups never take a wallet above max, in all runs and however many loops check it, if and only if its checks are serial, no credits land during a check, and none after their top-up has left pending or the window (or min is 0) |
| TurboWallet.CreditWhileChecking | src/checks/turbo-credits-checks.service.ts:167-199 | credits that land between the balance read and the query are refilled once more |
| TurboWallet.CreditTooLate | src/refills/refills.service.ts:374-396 | so are credits that land after their status has left pending |
| Refills.Service.SendArTo | src/refills/refills.service.ts:164-208 | on a live service that could read the balance, success means confirmed, whole in winston, not negative and at most the balance shown; a covered post that is carried out pays exactly the amount to the address; whatever balance is shown and whatever becomes of the reply |
| Refills.Service.TopUpTurboCredits | src/refills/refills.service.ts:221-295 | success means confirmed with a quote of at most the balance shown; a covered top-up that is carried out pays exactly the quote for the address |
| Refills.Service.SendTokensTo | src/refills/refills.service.ts:131-162 | success means mined and confirmed; a covered transfer that is carried out pays exactly the amount to the address |
| Refills.PostIsWithinShown | src/refills/refills.service.ts:166-191 | what is posted is at most the balance shown, and an AR post is exactly the amount asked for |
| Refills.CheckCoversIff | src/refills/refills.service.ts:166-257 | the code's own check covers everything it posts if and only if the gateway shows no more than the spender has |
| Refills.LiveLedger | src/refills/refills.service.ts:131-295 | over any mix of sends, shown balances and replies, the spenders lose exactly the payments carried out, in order; as networks refuse what is not covered, they stay non-negative |
| Refills.OwnCheckSufficesIff | src/refills/refills.service.ts:166-257 | over whole runs on an AR network that refuses nothing, the code's own check keeps the spender non-negative if and only if the gateway never shows more than there is |
| Refills.RefusalIsIdle | src/refills/refills.service.ts:166-257 | where no stale balance is shown the ledgers with and without the network's refusal are the same over whole runs |
| Refills.ReportedIsPaidIff | src/refills/refills.service.ts:131-295 | on a live service the payments are those whose sends reported success, in all runs from a solvent ledger, if and only if the network loses no confirmation, drops nothing it has confirmed and shows no stale balance |
| Refills.ReportsBalance | src/refills/refills.service.ts:131-295 | in every run, of each payment: carried out + reported in vain = reported + carried out unreported |
| Refills.TransferPaidTwice | src/refills/refills.service.ts:134-135 | a transfer whose receipt cannot be awaited reports failure and is paid again by the next refill |
| Refills.NotLiveLedger | src/refills/refills.service.ts:199-203 | unless IS_LIVE is "true" nothing moves in any run, and every send reports success |
| RefillRace.CoveredIffConfirmed | src/refills/refills.service.ts:166-191 | the balance check covers every post in all runs if and only if a send reads the balance only while no other is between its read and its confirmation |
| RefillRace.BooksBalance | src/refills/refills.service.ts:166-191 | in every run what is owed is what is posted and not mined, the balance shown covers it, and that balance changes by deposits and mined sends only |
| RefillRace.SendsMoveOn | src/refills/refills.service.ts:166-191 | a send goes on exactly if the balance it reads shows its amount, posts at most once, and never comes back |
| RefillRace.SerialSendsOverdraw | src/refills/refills.service.ts:166-191 | refills one at a time are not enough: the second reads a balance that the first has posted against |
| BalanceChecksQueue.Queue.ProcessCheck | src/tasks/processors/balance-checks-queue.ts:43-269 | what each check job adds to the refills queue and what it records, with hasPendingTurboRefill called in between |
| BalanceChecksQueue.EnqueuesIff | src/tasks/processors/balance-checks-queue.ts:101-188 | something is enqueued exactly when the queue is up, the reading asks for an amount that is not zero tokens and names a wallet, and the wallet is the bundler, the rewards pool, or one of the four Turbo wallets with every recent top-up read and none pending |
| BalanceChecksQueue.EnqueuedPayload | src/tasks/tasks.service.ts:179-217 | then it is one job with the name and the two fields of that wallet's refill |
| BalanceChecksQueue.RecordedIff | src/tasks/processors/balance-checks-queue.ts:43-269 | a check returns exactly its reading under its kind and the stamp, unless it throws, the name is unknown, or the queue throws as it enqueues |
| BalanceChecksQueue.KindsAre | src/tasks/processors/balance-checks-queue.ts:47-260 | the kind stored for each of the ten names |
| RefillsQueue.DispatchIs | src/tasks/processors/refills-queue.ts:24-84 | each job name calls the send of its own with its own two fields, and any other name none |
| BalanceChecksQueue.EnqueuedIsDispatched | src/tasks/processors/refills-queue.ts:21-85 | a refill is enqueued exactly when the reading asks for it and, for Turbo, none is pending; the processor decodes it to the matching send with the same address and amount |
| BalanceChecksQueue.CheckReadingsAreBounded | src/checks/turbo-credits-checks.service.ts:167-199 | with min <= max every request is positive, at most max, and completes the balance to max; failed fetches ask for nothing |
| BalanceChecksQueue.SpendFollowsReadings | src/tasks/processors/balance-checks-queue.ts:101-188 | n flows make the queue send a wallet at most n times its max, in at most n sends |
| BalanceChecksQueue.SendsAreOfTheRightSort | src/tasks/processors/refills-queue.ts:24-84 | every job that flows enqueue leads to the send its wallet is meant for, never ETH and never AO, with a positive amount up to max |
| BalanceChecksQueue.ReviewKeepsAll | src/tasks/processors/balance-checks-queue.ts:271-282 | the review is the children's blocks in reverse order and keeps the multiset of readings |
| BalanceChecksQueue.ChildrenHaveOwnKinds | src/tasks/tasks.service.ts:27-96 | the flow has ten children, each with a branch and a kind of its own |
| BalanceChecksQueue.ReviewStoresOneOfAKind | src/tasks/processors/balance-checks-queue.ts:271-282 | whatever the checks met and in whatever order, the review stores at most one reading of a kind, all with the flow's stamp |
| SendAos.Retried | src/util/send-aos-message.ts:29-66 | the number of attempts that fail with a 500 before one does not |
| SendAos.Includes500Iff | src/util/send-aos-message.ts:48-48 | a failure is retried exactly when "500" stands in its message |
| SendAos.CallsAreBounded | src/util/send-aos-message.ts:29-66 | without retries nothing is called and undefined is thrown; otherwise there is at least one call and at most `retries` |
| SendAos.SleepsDouble | src/util/send-aos-message.ts:55-55 | the first sleep is two seconds and each is twice the one before |
| SendAos.SubmittedIsCount | src/util/send-aos-message.ts:77-91 | messages submitted are the attempts whose message was taken in, even where the result failed |
| SendAos.SendAosDryRun | src/util/send-aos-message.ts:29-66 | for any outcomes and any retries: calls made, total backoff 2000 * (2^a - 1), and how the loop ends, in closed form |
| SendAos.SendAosMessage | src/util/send-aos-message.ts:68-113 | the same, and messages submitted are counted and never exceed retries |
| SendAos.ReturnedIsLast | src/util/send-aos-message.ts:77-91 | a returned result and its message id belong to the last attempt |

## Left out

- Crashes, Redis errors, stalled-job recovery and re-election after a lost session: the code does not guarantee them.
- How BullMQ obliterates in batches and pauses the queue meanwhile: one step here.
- The number and concurrency of workers: any number of jobs may be in workers' hands, which includes every real number of workers.
- Shutting down, apart from the session it destroys; the Consul watch, whose retries are allowed at any moment in `Election`.
- The AO checks (distribution and relay registry): the same threshold rule, without refills.
- `sendEthTo`, `sendAoTo` and the Raft types: not enqueued, a stub, and unused.
- Decimal strings: amounts keep their numbers; how BigNumber and ethers print and parse them is not part of this model.
- `BigNumber(winc)` and thresholds that do not parse.
- MongoDB, logging, HTTP, dependency injection and deployment: no logic to prove.
- System.ServiceOvershoot: speaks of the amounts requested; for Turbo, what a top-up credits depends on the quote, which is arbitrary.
- Refills.ReportsBalance: says nothing of how often replies are lost; whether a failed send is followed by another is for the next check to decide.
