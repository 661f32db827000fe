# Verified model of the mi coordinator

`mi` is a gateway with one coordinator: consumers send chat and embedding requests, provider nodes
serve them, and the coordinator reserves quota, picks a node, fails over, meters, charges, and keeps
two hash-chained ledgers. This project models that coordinator in Dafny 4.11 and proves what its
protocol guarantees, over every input, every interleaving and every run.

`dafny verify dfyconfig.toml` checks everything.

## How the model is built

- **Values and functions** describe what a component's calls do: `Quota`, `Idempotency`, `Metering`,
  `Settlement`, `Challenge`, `Privacy`, `Credentials`, `Persistence`, `Scheduler`, `Reputation`.
- **Classes and loops** follow the code where it works by changing things in place: the market object
  (`Market`), the node registry and its shared node records (`NodeRegistry`), the ledgers, the
  idempotency store, the node connection, the challenge cursor. Their methods are proved against the
  functions above.
- **Transition systems** put the atomic calls of many threads together: `Lifecycle` (HTTP requests
  against market, idempotency store and ledger, with storage faults and crashes), `Dispatch` (the
  failover loop among other threads' registry calls), `Capacity` (any number of dispatches at once),
  `Connection` (one WebSocket reader, many requests, a close).
- **Independent statements** say what these functions must do without using them, from what a caller
  sees: `Failover` from the messages a node sends, `Eligibility` from a node's registration,
  `LifecycleFailure` and `LifecycleDoor` from the runs, and the laws beside each value module.

Modelling choices: a mutex-protected method or a one-connection SQLite transaction is one atomic step;
time is an integer clock passed in; Go floats are reals; integers are unbounded (the code adds a
client-supplied `max_tokens`, so overflow is outside every claim); SHA-256 over JSON is a function
about which nothing is assumed, so tamper evidence always ends in "or these two records collide";
random secrets, store answers, clocks and what nodes send are parameters. Time zero stands for Go's
zero time.

## What is worth knowing

- The documentation says a key is charged at most once (docs/idempotency.md:73). The code hands a
  claim that is older than the TTL to the next request without telling it, so the exact bound is one
  charge more than takeovers (`LifecycleTheorems.ChargesBoundedByTakeovers`); `LifecycleLimits.ChargesAreAttained`
  gives for every n a run with n takeovers and n + 1 charges, in which the store fails to keep each reply
  and the client asks again. "At most once" holds as long as no claim finds a stale row
  (`LifecycleAtMostOnce.FreshClaimsChargeOnce`), a retry is charged exactly if the key's row is absent or
  stale (`LifecycleAtMostOnce.RetryChargesExactlyIfUnclaimedOrStale`), and a key is safe for exactly the
  TTL from when it is first used (`LifecycleAtMostOnce.AtMostOnceExactlyWithinTtl`).
- A completed key's stored response is what docs/idempotency.md:38 says a later request gets. An owner
  that lost the key to a takeover may still finish, though, and its response then replaces the stored one.
  The stored response is final if and only if no such owner is left
  (`LifecycleReplay.ReplayIsStableExactlyWithoutOwners`, `LifecycleReplay.DisplacedOwnerRemains`).
- ARCHITECTURE.md:107 says concurrent requests cannot overspend a limit. That holds for what is
  reserved; a node that produces more than the output estimate takes the account past its limit by
  exactly the excess (`LifecycleTheorems.NoOverspend`, `LifecycleTheorems.OvershootIsExcessOutput`,
  `LifecycleLimits.OverspendIsAttained`), and a limit is safe if and only if no excess is possible
  (`LifecycleLimits.LimitHoldsExactlyWithoutExcess`).
- ARCHITECTURE.md:159-160 describes metering as bytes divided by 4; the code counts characters and
  rounds up, and the model follows the code.
- A node's work in flight stays within its capacity through every heartbeat that reports at least that
  much, and a heartbeat is safe exactly then (`Capacity.CapacityHoldsThroughHeartbeats`,
  `Capacity.HeartbeatIsSafeExactlyIfHonest`).
- The failover loop ends if only finitely many node ids can turn up while it runs, and need not otherwise
  (`NodeRegistry.Registry.Dispatch`, `DispatchLimits.AnyNumberOfRounds`).
- Cutting events off the end of a ledger passes its verification; only the integrity anchor notices
  (`Integrity.TruncationNeedsTheAnchor`).

## Model

| member | source | states |
|---|---|---|
| LifecycleInvariants.ActKeepsSound | coordinator/cmd/coordinator/main.go:995-1041 | every handler call, in any stage, keeps a request's record honest: owner exactly when it may complete or abort, charged only once, covered by its whole budget while it holds a reservation |
| LifecycleInvariants.ReservedDelta | internal/city/market.go:412-450 | each handler call changes an account's reserved tokens by exactly what it changes in its own request's outstanding reservation |
| LifecycleInvariants.UsedDelta | internal/city/market.go:441-450 | each handler call changes usage, for either side and either figure, by exactly its own request's charge |
| LifecycleInvariants.LedgerDelta | internal/settlement/ledger.go:162-205 | each handler call changes a settlement balance by exactly the charge of the request it settles |
| LifecycleInvariants.LimitDelta | internal/city/market.go:452-469 | no handler call raises use plus reservations above the limit by more than the overshoot it adds |
| LifecycleInvariants.PotentialRises | internal/idempotency/store.go:55-122 | per key, charges plus live uncharged owners never grow by more than takeovers plus the row's own credit, whatever the store answers |
| LifecycleTheorems.StepKeepsInv | coordinator/cmd/coordinator/main.go:1159-1287 | arrival, every handler call, time passing and a crash with reload all keep the whole invariant |
| LifecycleTheorems.RunKeepsInv | coordinator/cmd/coordinator/main.go:934-1287 | the invariant holds after every sequence of events of unboundedly many interleaved requests |
| LifecycleDoor.ArrivalIsAdmitted | coordinator/cmd/coordinator/main.go:934-995 | on every run an arrival adds one request or none: one exactly if it names an account, has something to answer and brings a key only as a chat; it keeps its key exactly if the idempotency store is on, and owns, owes and holds nothing |
| LifecycleDoor.NoStoreNoKeys | coordinator/cmd/coordinator/main.go:995-1027 | without an idempotency store no key is claimed in any run |
| LifecycleFailure.ExhaustedAccountIsTurnedAway | coordinator/cmd/coordinator/main.go:197-210 | on every run a request of an account with nothing left ends at the door and changes nothing shared |
| LifecycleFailure.FailureFreesTheKey | coordinator/cmd/coordinator/main.go:1029-1041 | at every reachable state, an owner whose estimate is more than its account has left, or whose dispatch fails, aborts: its row in progress is gone, no other row and no other request has changed |
| LifecycleFailure.NextClaimIsFresh | coordinator/cmd/coordinator/main.go:1224-1239 | after such a failure the next request with the key owns it afresh, neither refused nor taking over |
| LifecycleTheorems.ReservationsAreExact | internal/city/market.go:908-918 | on every run an account's reserved tokens are the sum of its requests' outstanding reservations, so clamp-and-delete never loses tokens |
| LifecycleTheorems.QuietMeansUnreserved | coordinator/cmd/coordinator/main.go:1111-1122 | when no request is between reservation and bill the reservation map is empty: every exit path gave its reservation back exactly once |
| LifecycleTheorems.NoOverspend | internal/city/market.go:412-469 | recorded use plus reservations of a limited account stay within the limit plus what finished requests exceeded their reservations by |
| LifecycleTheorems.OvershootIsExcessOutput | coordinator/cmd/coordinator/main.go:1634-1714 | that excess is zero for embeddings and, for chat, exactly the output beyond the output estimate |
| LifecycleLimits.LimitHoldsExactlyWithoutExcess | coordinator/cmd/coordinator/main.go:1086-1122 | a limited account stays within its limit in every run in which its chat requests exceed their output estimates by at most a given slack, if and only if that slack is zero |
| LifecycleLimits.OverspendIsAttained | coordinator/cmd/coordinator/main.go:1634-1652 | for every limited account and every excess there is a run of one acceptable, fully reserved chat request that ends exactly that far past the limit |
| LifecycleTheorems.ChargesBoundedByTakeovers | internal/idempotency/store.go:55-122 | under any interleaving, aborts by stale owners, failed store calls and crashes included, a scoped key is charged at most once more than it was taken over |
| LifecycleReplay.ReplayIsStableExactlyWithoutOwners | internal/idempotency/store.go:105-114 | at every reachable state with a completed key, the stored reply survives every continuation if and only if no owner of the key is left that has yet to complete |
| LifecycleReplay.DisplacedOwnerRemains | internal/idempotency/store.go:90-114 | a run in which a key is completed after a takeover while the request it was taken from still has its work and its own completion before it |
| LifecycleTheorems.ReplayIsStable | internal/idempotency/store.go:55-122 | in runs in which a key was never taken over, no event changes what is replayed once it is completed |
| LifecycleLimits.ChargesAreAttained | internal/idempotency/store.go:90-98 | for every n a run with n takeovers and n + 1 charges of one key, in which each reply is lost and asked for again after the TTL: the bound is exact and the documented "at most once" fails |
| LifecycleAtMostOnce.FreshClaimsChargeOnce | internal/idempotency/store.go:90-98 | a key is charged at most once in every run in which no claim of it finds an in-progress row older than the TTL |
| LifecycleAtMostOnce.RetryChargesExactlyIfUnclaimedOrStale | internal/idempotency/store.go:55-103 | at every reachable state, any acceptable chat an unlimited account retries with a key can be charged if and only if the key has no row or a stale one in progress |
| LifecycleAtMostOnce.AtMostOnceExactlyWithinTtl | internal/idempotency/store.go:90-98 | from any reachable state in which a key is unused it is charged at most once within a given time, whatever happens, if and only if that time is within the TTL |
| LifecycleTheorems.LedgersDifferByName | coordinator/cmd/coordinator/main.go:1238-1254 | faults and crashes included, usage and settlement of an account differ by exactly the requests that only one of them holds |
| LifecycleTheorems.LedgersAgree | coordinator/cmd/coordinator/main.go:1184-1200 | without faults each account's usage total and request count equal its settlement balance plus the bills recorded but not yet settled, at every step |
| Idempotency.ClaimLastsItsTtl | internal/idempotency/store.go:25-98 | whatever TTL is configured, a granted claim refuses everybody else for exactly the effective TTL, after which it is handed over; the effective TTL is the configured one if positive and a day otherwise |
| Idempotency.CompletedIsReplayed | internal/idempotency/store.go:84-114 | a claim of a completed key is answered with exactly the reply it was completed with, however late, and changes nothing |
| Idempotency.CompleteThenAsk | internal/idempotency/store.go:84-114 | on the store itself: completing a claimed key and asking again returns that reply |
| Idempotency.AbortedIsFree | internal/idempotency/store.go:116-122 | an aborted key can be claimed at once |
| Idempotency.Store.Begin | internal/idempotency/store.go:55-103 | inserts, replays, conflicts or silently takes over exactly by row state and age, also when storage fails before or after the change |
| Idempotency.Store.Complete | internal/idempotency/store.go:105-114 | rewrites an existing row to the reply and never revives a deleted one |
| Idempotency.Store.Abort | internal/idempotency/store.go:116-122 | deletes a row only while it is in progress |
| Idempotency.ScopingSeparatesConsumers | coordinator/cmd/coordinator/main.go:668-671 | equal scoped keys come from the same consumer and key, or the digest collides on the two concatenations |
| Metering.ChargeBeyondBudget | coordinator/cmd/coordinator/main.go:1634-1714 | a charge differs from the reserved budget by the output beyond the estimate and by nothing else |
| Metering.EstimatePrompt | coordinator/cmd/coordinator/main.go:1646-1693 | the prompt loops count role and content characters, four to a token rounded up |
| Metering.TokensCover | coordinator/cmd/coordinator/main.go:1688-1693 | the estimate is the fewest tokens that cover the characters at four to a token |
| Metering.OutputIsReserved | coordinator/cmd/coordinator/main.go:1695-1714 | a chat reserves the output it asks for, 1024 tokens if it asks for none or for less than one; an embedding reserves no output |
| Metering.FinishReasonIsKept | coordinator/cmd/coordinator/main.go:1634-1644 | a chat is answered with the finish reason its node reports, a stop if it reports none; an embedding with a stop |
| Quota.RemainingIsExact | internal/city/market.go:536-559 | the remaining tokens a consumer reads are exactly the largest positive estimate that would be admitted, and exceeded means a zero probe is refused |
| Quota.ReleaseUndoesTake | internal/city/market.go:412-439 | releasing right after reserving restores the book |
| Quota.ReleaseDelta | internal/city/market.go:908-918 | a release takes off exactly its own reservation, also through the delete branch |
| Market.Market.CreateConsumer | internal/city/market.go:236-260 | creates under the normalized id with one key, refuses duplicates, rolls back when saving fails, keeps the market storable |
| Market.Market.RotateConsumerKey | internal/city/market.go:292-317 | replaces every key of the account by the new one, also when saving fails |
| Market.Market.DisableConsumer | internal/city/market.go:346-364 | disables the account and drops all of its keys |
| Market.Market.AuthenticateConsumer | internal/city/market.go:386-399 | plain keys before hashed keys, disabled accounts refused, the keyless local account only on an open market |
| Market.Market.CheckConsumerQuota | internal/city/market.go:452-469 | the quota check decides exactly the admission rule, with its zero-probe and beyond-limit branches |
| Market.Market.ReserveConsumerQuota | internal/city/market.go:412-430 | admits or refuses by the rule and adds exactly the granted tokens to the account's reservation |
| Market.Market.ReleaseReservation | internal/city/market.go:432-439 | gives back exactly the reservation, and nothing for an empty one |
| Market.Market.RecordReserved | internal/city/market.go:441-450 | releases, charges both sides and saves; usage stays charged when saving fails |
| LifecycleInvariants.AddUsageReads | internal/city/market.go:574-588 | charging an account adds one request and its tokens to that account and to nobody else, and a record's total stays the sum of its parts |
| Market.Market.ConsumerStatus | internal/city/market.go:536-559 | reports reserved, remaining clamped at zero, and exceeded, as the quota book defines them |
| Market.Market.CreateProvider | internal/city/market.go:262-290 | creates an account only with a usable policy, stored normalized with its mode, rolled back when saving fails; each refusal has its own error |
| Market.Market.EnforceProviderPrivacy | internal/city/market.go:489-524 | with provider tokens required a node gets the claimed tiers its active account allows, in claim order, or is refused; without them its own claim |
| Market.ValidMarketReturns | internal/city/market.go:735-808 | whatever the market's methods led to is saved and loaded back whole, up to the order of a provider's tiers |
| Credentials.RotatedKeyIsTheOnlyKey | internal/city/market.go:292-317 | after a rotation and any calls on other accounts, a key authenticates as the account if and only if it is the new key |
| Credentials.CreatedKeyIsTheOnlyKey | internal/city/market.go:236-260 | after a creation and any calls on other accounts a key authenticates as the account if and only if it is the new key; the account has the name and limit asked for; after a refused save the key authenticates as nobody |
| Credentials.DisabledNeverAuthenticates | internal/city/market.go:346-364 | once disabled, even unsaved, no later calls and no key ever yield the account |
| Credentials.LimitsAreFixed | internal/city/market.go:236-260 | no sequence of credential calls changes an account's token limit |
| Credentials.EffectKeepsCoherent | internal/city/market.go:974-985 | every credential call keeps accounts under their own ids and no hash without its account |
| Persistence.SaveAccounts | internal/city/market.go:879-906 | the saved records list accounts in order, each with its own hashes in order |
| Persistence.Load | internal/city/market.go:735-779 | the loading loops rebuild all maps, or fail on the first unusable policy |
| Persistence.RoundTrip | internal/city/market.go:735-808 | loading a saved state succeeds if and only if every policy is usable, and yields that state with normalized policies and owned hashes |
| Persistence.StandardStateReturns | internal/city/market.go:879-956 | accounts, policies up to order and usage come back, and both hash maps come back exactly if every hash points to an existing account |
| Persistence.LoadedPolicyIsStandard | internal/city/market.go:1042-1063 | whatever a snapshot holds, a provider that loads has a repeat-free list of known tiers and their most private one as its mode; a list of tiers keeps its members, and nothing else of the account changes |
| Persistence.SecondRoundTripIsExact | internal/city/market.go:1042-1063 | a second save and load changes nothing |
| HashChain.Verify | internal/settlement/ledger.go:235-246 | the walk accepts exactly the valid chains, and on a bad one reports the last hash of the longest valid prefix |
| HashChain.ExtendKeepsValid | internal/settlement/ledger.go:162-205 | recording an event keeps the chain valid |
| HashChain.FirstFollowsGenesis | internal/settlement/ledger.go:235-246 | a valid history begins with event number one after "genesis" |
| HashChain.PrefixIsValid | internal/challenge/ledger.go:148-159 | every prefix of a valid chain is valid: verification alone does not show truncation |
| HashChain.LastHashDeterminesChain | internal/settlement/ledger.go:426-432 | two valid chains with one last hash are equal event for event, or they exhibit a digest collision or a preimage of "genesis" |
| Integrity.MakeReport | coordinator/cmd/coordinator/main.go:621-648 | each section verifies its own ledger, the report is valid exactly if both are, and the anchor binds both counts and last hashes |
| Integrity.AnchorPinsHistories | coordinator/cmd/coordinator/main.go:621-648 | two valid reports with equal anchor hashes describe identical settlement and challenge histories, or some digest was broken on them |
| Integrity.TruncationNeedsTheAnchor | coordinator/cmd/coordinator/main.go:621-648 | truncated histories still verify, but their anchor hash differs unless the anchor digest collides |
| Settlement.Open | internal/settlement/ledger.go:104-153 | opens on exactly the valid stores and clamps the tariff |
| Settlement.Ledger.Record | internal/settlement/ledger.go:162-205 | appends exactly the priced, sealed event to store and memory, or changes neither; the chain stays valid and every recorded event has its price, share and, only if late, its penalty |
| Settlement.Ledger.Verify | internal/settlement/ledger.go:235-246 | a ledger that only ever recorded verifies, with its own last hash |
| Settlement.EventIsPriced | internal/settlement/ledger.go:248-263 | price is the rounded-down tariff; an event no later than a positive target, or under no target, keeps the full rounded-down share as reward; a later one forfeits exactly the rounded-down penalty part of the share and keeps the rest; all amounts are non-negative |
| Settlement.TariffIsNearest | internal/settlement/ledger.go:104-122 | a configured tariff counts as the nearest usable one: price at least zero, share and penalty within 0..10000, and one that is usable as it stands |
| Settlement.Balances | internal/settlement/ledger.go:434-463 | the loop's balances equal, column by column, sums over the history, for both sides and exactly the named parties |
| Settlement.BalanceValues | internal/settlement/ledger.go:465-472 | balances are listed by account in order whatever order the map had |
| Settlement.ReportedLatencyDrift | internal/settlement/ledger.go:434-463 | n times the reported average latency is below the true sum by between 0 and n(n-1)/2 |
| Settlement.MoneyIsConserved | internal/settlement/ledger.go:434-472 | in the balances reported for any history with named consumers, debits add up to exactly the prices charged, and rewards plus penalties of all providers to no more |
| Settlement.RewardsAndPenaltiesAddUp | internal/settlement/ledger.go:434-472 | over all reported provider balances, rewards add up to the rewards recorded for named providers, and penalties to their penalties |
| Settlement.DebitRounding | internal/settlement/ledger.go:248-253 | under one price an account with n events and T tokens is debited between floor(T*price/1000) - (n-1) and floor(T*price/1000) |
| RunningAverage.DriftBound | internal/settlement/ledger.go:434-463 | for any samples the truncating average loses or gains at most n(n-1)/2 against the true sum |
| RunningAverage.DriftOneSided | internal/settlement/ledger.go:434-463 | for non-negative samples it only ever loses |
| RunningAverage.DriftTight | internal/settlement/ledger.go:434-463 | for every n there are samples that lose exactly n(n-1)/2 |
| RunningAverage.AverageBetween | internal/challenge/ledger.go:209-242 | the average stays between the smallest and the largest sample |
| Challenge.Ledger.Record | internal/challenge/ledger.go:92-126 | appends the sealed result with its score clamped to 0..100, or changes nothing; refuses when disabled |
| Challenge.Summaries | internal/challenge/ledger.go:209-242 | per provider, counts, both running averages, latest time and pass rate of exactly its own results, listed in order |
| Challenge.SummaryInScale | internal/challenge/ledger.go:209-242 | average scores stay in 0..100 and pass rates in 0..10000 on every recorded history |
| Challenge.PassRateIsShareOfPasses | internal/challenge/ledger.go:209-242 | the reported rate is passes per ten thousand results rounded down: 10000 exactly if every result passed, zero if none did |
| Challenge.ResultsAreTheProviders | internal/challenge/ledger.go:209-242 | the results summarized for a provider are exactly those recorded under its id |
| Challenge.ScoreDrift | internal/challenge/ledger.go:209-242 | the reported score is never above the true mean and at most (n-1)/2 below it |
| Privacy.NormalizeTiers | internal/privacy/privacy.go:44-63 | the loop returns the sorted set of tiers, the private mode's list for none, or an error on the first unknown tier |
| Privacy.ModeForTiers | internal/privacy/privacy.go:78-102 | the most private tier that occurs |
| Privacy.ModeGrants | internal/privacy/privacy.go:28-42 | a mode grants exactly the tiers no more private than itself; no mode means private, and any other mode grants nothing |
| Privacy.ModeIsMostPrivate | internal/privacy/privacy.go:78-102 | the mode of a list is its most private member, and the mode of a mode's own tiers is that mode |
| Privacy.Accepts | internal/privacy/privacy.go:65-76 | true exactly if the requested tier, private by default, is known and listed |
| Privacy.NormalizeKeepsTiers | internal/privacy/privacy.go:44-102 | normalizing a repeat-free list keeps its tiers and its mode |
| Privacy.NormalizeIsIdempotent | internal/privacy/privacy.go:44-63 | normalizing twice is normalizing once |
| Privacy.RegistrationIsIntersection | internal/scheduler/registry.go:182-232 | what the registry stores for an admitted node is exactly the intersection of its claim and its account's policy |
| PrivacyRuns.RunStaysVetted | coordinator/cmd/coordinator/main.go:1315-1329 | over any registry calls whose registrations came through the register path, with what `Market.EnforceProviderPrivacy` returns, every record holds the intersection of its node's own claim and its account's policy |
| PrivacyRuns.AcceptanceIsIntersection | internal/scheduler/registry.go:717-726 | such a node is eligible for a tier if and only if both its claim and its account's policy contain it |
| PrivacyRuns.RequestsStayInTheirTier | internal/scheduler/registry.go:516-581 | every attempt of every dispatch, retried or targeted, reaches a node whose own registration claims the request's tier and whose account allows it |
| PrivacyRuns.RequestsStayWithinModes | internal/scheduler/registry.go:516-581 | in every attempt of every dispatch, a node that registered with a mode and no tiers gets only requests of a tier no more private than that mode, and likewise for its account's mode |
| Scheduler.CostOrder | internal/scheduler/registry.go:728-770 | a better provider score never makes a node dearer; the failure rate stays in 0..10000 |
| Scheduler.CallKeepsViewOk | internal/scheduler/registry.go:643-707 | each registry call keeps streak, cooldown and failure counters in agreement |
| Scheduler.ReachableNodesOk | internal/scheduler/registry.go:651-707 | on every reachable registry: streak zero iff no cooldown, streak at most pre-token failures, the two failure kinds add up, cooldown at most 60 s past the last failure |
| Scheduler.SmoothedBetween | internal/scheduler/registry.go:856-864 | the smoothed value is zero before the first positive sample and between the smallest and largest ever after |
| Scheduler.MetricIsSmoothed | internal/scheduler/registry.go:651-707 | over any calls that leave a node in place each of its three metrics is the smoothing of its own success samples alone |
| Scheduler.MetricStaysInRange | internal/scheduler/registry.go:822-864 | over any run, each of a node's latency, time to first token and throughput is zero until its first positive sample and within the range of those samples ever after |
| Scheduler.FailuresNeverCheapen | internal/scheduler/registry.go:728-749 | more failures or a longer error streak never make a node cheaper |
| Eligibility.RecordIsTheMessage | internal/scheduler/registry.go:182-232 | a registration's record has the message's capacity, or one if that is less than one, its provider, hardware and models, and no load or failures; no other record changes |
| Eligibility.NewNodeIsEligible | internal/scheduler/registry.go:555-581 | a node that has just registered is eligible if and only if its message names the targeted provider, the model and the hardware asked for, it takes the tier, and it was heard of less than 20 seconds ago |
| Eligibility.TiersDecide | internal/scheduler/registry.go:717-726 | a record takes exactly the known tiers it lists, private requests only if it lists none, and no tier means private |
| Eligibility.HeartbeatDecides | internal/scheduler/registry.go:234-255 | after a heartbeat a node serves only the models it listed, only while it reported a free slot, and only for 20 seconds |
| Eligibility.FailedNodeRests | internal/scheduler/registry.go:664-681 | after an early failure a node rests for ten seconds per failure in a row, at most a minute, and no request reaches it before; a success ends the rest |
| Eligibility.WorseNodeIsNeverCheaper | internal/scheduler/registry.go:728-749 | a node that is busier, slower, less reliable or less reputable than another of the same capacity is never the cheaper one |
| Eligibility.LoadWeighs | internal/scheduler/registry.go:728-749 | what one more active request, one more queued request and one unit of load average cost |
| Eligibility.RecordWeighs | internal/scheduler/registry.go:728-749 | what one more error in a row, five points of score, having completed nothing, and a failure rate cost |
| Eligibility.SpeedWeighs | internal/scheduler/registry.go:728-749 | what a second of latency, half a second to the first token and a token per second less cost, and up to where |
| Eligibility.ScoresAreNearest | internal/scheduler/registry.go:751-770 | a published score counts as the nearest value in 0..100, a missing one as 70 |
| Eligibility.SampleMovesAFifth | internal/scheduler/registry.go:856-864 | the first positive sample sets a metric, each later one moves it a fifth of the way, others do nothing |
| NodeRegistry.Registry.Register | internal/scheduler/registry.go:182-232 | a fresh record under the node's id, tiers by claim, mode or private fallback, capacity at least one, nothing else touched |
| NodeRegistry.Registry.Heartbeat | internal/scheduler/registry.go:234-255 | overwrites models and load of the one known node |
| NodeRegistry.Registry.Remove | internal/scheduler/registry.go:257-264 | forgets exactly that node |
| NodeRegistry.Registry.RemoveProvider | internal/scheduler/registry.go:266-281 | forgets exactly the provider's nodes and counts them |
| NodeRegistry.Registry.SetProviderScores | internal/scheduler/registry.go:173-180 | replaces all scores by the clamped ones |
| NodeRegistry.Registry.ReserveFiltered | internal/scheduler/registry.go:555-581 | reserves one slot on an untried eligible node than which no other is cheaper, and fails exactly when there is none |
| NodeRegistry.Registry.Release | internal/scheduler/registry.go:643-649 | one slot less, never below zero |
| NodeRegistry.Registry.RecordSuccess | internal/scheduler/registry.go:651-662 | resets streak and cooldown, counts and smooths |
| NodeRegistry.Registry.RecordPreTokenFailure | internal/scheduler/registry.go:664-681 | lengthens the streak and sets the capped cooldown |
| NodeRegistry.Registry.RecordPostTokenFailure | internal/scheduler/registry.go:683-694 | counts a broken stream without streak or cooldown |
| NodeRegistry.Registry.RecordPreTokenTerminalFailure | internal/scheduler/registry.go:696-707 | counts a final refusal without streak or cooldown |
| NodeRegistry.Registry.Conclude | internal/scheduler/registry.go:530-547 | picks the recording branch: success, broken stream, refusal, or retry |
| NodeRegistry.Registry.Dispatch | internal/scheduler/registry.go:516-549 | with finitely many node ids to turn up the loop terminates, and what it did is a trace of cheapest-eligible reservations in which only the last round may not be a retry; the sink gained exactly the trace's output and the registry is where the trace ends, other threads' calls included |
| DispatchLimits.AnyNumberOfRounds | internal/scheduler/registry.go:516-549 | one environment, in which a new node keeps connecting and breaking, makes any request's loop run for any number of retried rounds: without a bound on node ids it need not end |
| Dispatch.SendInference | coordinator/cmd/coordinator/main.go:1361-1400 | forwards every chunk before the first done or error, in order and no more, and returns that answer; the tracker knows whether and how much was sent |
| Dispatch.OutputIsPinned | internal/scheduler/registry.go:516-549 | all output of a dispatch comes from its last node: exactly that node's chunks on success, nothing at all without a node or on a refusal before the first chunk |
| Dispatch.ChargeIsServingNodes | coordinator/cmd/coordinator/main.go:1634-1644 | a served chat is charged for the serving node's characters alone |
| Dispatch.AttemptsAreDistinct | internal/scheduler/registry.go:516-549 | no node is tried twice in one dispatch |
| Dispatch.AttemptsAreBounded | internal/scheduler/registry.go:516-549 | attempts are at most the distinct node ids present at the start or registered during the dispatch |
| Dispatch.RoundAt | internal/scheduler/registry.go:555-581 | every round of a trace reserved a cheapest eligible untried node, and every round but the last failed retryably |
| Dispatch.RateTimesTime | internal/scheduler/registry.go:849-854 | an observed rate times its time is the tokens counted |
| Failover.VerdictFromMessages | coordinator/cmd/coordinator/main.go:1361-1400 | from the messages alone: served exactly if a done was read, else broken off exactly if a chunk was, else refused exactly if the context had ended or the node said not to retry, else tried again |
| Failover.RetriedExactly | internal/scheduler/registry.go:884-896 | in every dispatch a round is followed by another reservation attempt if and only if it brought neither answer nor chunk, its context had not ended, and the node did not say not to retry |
| Failover.RefusedExactly | internal/scheduler/registry.go:516-549 | a dispatch reports a refusal exactly if its last round was silent and its context had ended or its node forbade a retry, and success exactly if its last round brought an answer |
| Failover.AnswerIsTheDone | coordinator/cmd/coordinator/main.go:1361-1400 | the answer returned is the payload of the first done message of the last round, or a bare stop without one |
| Failover.OutcomeIsRecorded | internal/scheduler/registry.go:651-707 | a round adds one to exactly one of completed, broken-stream and early failures of its node, by what the node sent, lengthens the streak exactly if the round is retried, and touches no other node |
| Capacity.CapacityHolds | internal/scheduler/registry.go:516-581 | over any interleaving of dispatches, without heartbeats of the node, its load on record equals its work in flight and never exceeds its capacity |
| Capacity.ReservationsAreAccounted | internal/scheduler/registry.go:516-581 | whatever the node's heartbeats say, reservations made = in flight + unrecorded + completed + failed |
| Capacity.CapacityHoldsThroughHeartbeats | internal/scheduler/registry.go:234-255 | work in flight stays within capacity through any heartbeats that report at least what is in flight |
| Capacity.CapacityIsTheMessages | internal/scheduler/registry.go:182-232 | from a registration on, over any dispatches and honest heartbeats, a node never has more in flight than its message allowed, or one if it allowed less |
| Capacity.SettlingIsTheLoops | internal/scheduler/registry.go:530-547 | a dispatch of the capacity model records an attempt as the failover loop does and looks for another node exactly if the loop would |
| Capacity.HeartbeatIsSafeExactlyIfHonest | internal/scheduler/registry.go:234-255 | whatever dispatches and departures of other nodes follow a heartbeat keep the node within its capacity, if and only if it reported at least what was in flight |
| Capacity.StepStaysBalanced | internal/scheduler/registry.go:643-707 | each step of any dispatch keeps that balance |
| Capacity.RegistrationIsBalanced | internal/scheduler/registry.go:182-232 | a node registering with none of its work about starts balanced |
| Capacity.HeartbeatBreaksCapacity | internal/scheduler/registry.go:234-255 | a concrete run in which a heartbeat lets two requests onto a node that takes one |
| Connection.NodeConn.LookUp | coordinator/cmd/coordinator/main.go:1437-1445 | a message is routed to the channel waiting for its request id, or dropped |
| Connection.NodeConn.CloseAll | coordinator/cmd/coordinator/main.go:1453-1466 | every waiting request gets one disconnect notice and the table is emptied |
| Connection.StepKeepsInv | coordinator/cmd/coordinator/main.go:1361-1466 | opening, routing, sending, reading, returning and closing keep every channel's contents a prefix of what arrived for its id |
| Connection.RequestsReadTheirOwn | coordinator/cmd/coordinator/main.go:1361-1400 | on every run what a request reads, and the chunks it forwards, are prefixes of what the node sent under that request's own id |
| Connection.ClosedConnectionIsRetried | coordinator/cmd/coordinator/main.go:1453-1466 | a connection that closes under a request sends it to another node, unless a chunk has gone out or its context has ended |
| Reputation.ScoreItem | internal/reputation/reputation.go:145-193 | the branches of the score add up to its four parts, clamped |
| Reputation.ScoreIsMonotone | internal/reputation/reputation.go:145-193 | the score is in 0..100 and never falls when healthy nodes, events, tokens, pass rate or challenge score rise or when errors, penalties or cooldowns fall |
| Reputation.NodesWeigh | internal/reputation/reputation.go:145-193 | what a score starts from, and what healthy and resting nodes and being disabled weigh in it |
| Reputation.WorkWeighs | internal/reputation/reputation.go:145-193 | what a settled event and a thousand tokens weigh, and up to where |
| Reputation.FaultsWeigh | internal/reputation/reputation.go:145-193 | what an error in a row and a forfeited hundred micros weigh, and up to where |
| Reputation.ChallengesWeigh | internal/reputation/reputation.go:145-193 | what challenge points and a pass rate below four fifths weigh, and up to where |
| Reputation.GradesFollowScores | internal/reputation/reputation.go:195-208 | A from 90, B from 75, C from 60, D from 40, F below, and nothing else |
| Reputation.BetterProviderIsNeverDearer | internal/scheduler/registry.go:728-770 | through the published scores, a node's cost under the better provider is never higher |
| Reputation.ItemIsItsSources | internal/reputation/reputation.go:60-116 | every figure of a provider comes from its own account, last balance, last summary and own nodes, and a provider is reported exactly if one of them names it |
| Reputation.OwnerIsNamed | internal/reputation/reputation.go:84-89 | a node counts for its provider, for itself if it names none, for "unknown" if it has no id either |
| Reputation.Build | internal/reputation/reputation.go:60-131 | the report rates every provider once, ordered by score and then id |
| Reputation.BestComesFirst | internal/reputation/reputation.go:124-129 | scores fall along the report, and within one score the ids rise |
| Reputation.RankingIsUnique | internal/reputation/reputation.go:117-130 | there is only one such report, so map iteration order cannot show |
| RoundRobin.Candidates | coordinator/cmd/coordinator/main.go:848-865 | lists exactly the providers with a usable node, once each, in order |
| RoundRobin.Rotation.Pick | coordinator/cmd/coordinator/main.go:833-846 | picks at the cursor, wrapping first if the list has shrunk, and advances |
| RoundRobin.EveryProviderOnce | coordinator/cmd/coordinator/main.go:833-846 | from any cursor, as many picks as there are candidates visit every candidate exactly once |
| Ordering.ListingIsUnique | internal/settlement/ledger.go:465-472 | a sorted listing of map keys does not depend on the order they were visited in |

## Left out

- HTTP, SSE, WebSocket framing, TLS, dashboards, metrics output, CSV export, logging and configuration: input and output only.
- The embedding dispatch loop: it is the chat loop with no chunks; its own guarantees would repeat `Dispatch`.
- Provider token rotation and disabling: the same shape as the consumer key operations that are modelled.
- The SQLite variant of the market store and the JSON byte formats: a store keeps or refuses a whole snapshot, or a whole event. Crash atomicity across ledgers is not claimed, since docs/atomicity-design.md:3 says it is not implemented.
- A ledger write that fails half way: an append happens or does not.
- Account id normalization and Unicode case folding: the normalized id and the folding function are parameters.
- The legacy local account and configured keys that a restart adds back: credential claims cover one process.
- Blocking on a full request channel and deadlock of a connection: a step that would block is simply not taken; only order and routing are claimed.
- Re-registering or removing a node id while its older work is still out: excluded from the capacity claims, because it starts a new record.
- Reputation notes and the per-node lines of a report: presentation.
- The model catalog and its aliases: set and sort facts only.
- The node agent's own concurrency: its capacity check and its counter sit in different goroutines, so no bound holds there.
- NodeRegistry.Registry.Dispatch: its termination is relative to a finite set of node ids that can appear while it runs, because without one the code need not end, as `DispatchLimits.AnyNumberOfRounds` shows.
- Capacity.CapacityHolds: equates the load on record with the work in flight only between heartbeats, because a heartbeat overwrites the load; the bound itself is `Capacity.CapacityHoldsThroughHeartbeats`.
- Reputation.ScoreIsMonotone: compares providers with the same number of nodes and the same answer to whether any challenge was recorded, because the code divides by the node count and treats having no challenges as a case of its own.
