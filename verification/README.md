# GuardRail admission controls, in Dafny

GuardRail is a gateway between agents and language-model providers. What makes it hard to reason
about is the state its admission controls keep: token buckets per tenant, a spend ledger that is
checked before a provider is called and charged afterwards, schema migrations that several
processes may start at once, and a request handler that touches all of it concurrently. This
project models that state and proves what every run of it keeps.

## Layout

| file | what it models |
|---|---|
| `Wrappers.dfy`, `Sequences.dfy`, `Reals.dfy` | optional values; selecting part of a history, totals; a little real arithmetic |
| `Tenancy.dfy` | tenant normalisation: the empty id is the default tenant |
| `Config.dfy` | the part of the configuration that reaches the admission controls, and its validation |
| `TokenBucket.dfy` | one bucket over a whole call history: envelope, optimality, denied calls, retry hint, liveness |
| `Saturation.dfy` | the most calls a bucket can pass in a stretch of time |
| `Limiter.dfy` | the limiter object, effective limits, tenant non-interference |
| `Pricing.dfy` | the price table, its refreshes, the static pricer |
| `Ledger.dfy`, `LedgerOpening.dfy` | the spend table, its migration from the old layout, concurrent opening |
| `Tracker.dfy` | budget decisions and spend recording over the in-memory and the ledger back end |
| `BudgetProtocol.dfy`, `BudgetTracker.dfy` | the budget circuit breaker as a concurrent protocol, and as either tracker back end carries it out |
| `Migrator.dfy`, `MigrationRuns.dfy` | the migrator as a protocol of crashing, racing runners, and as code; reruns and repeated versions |
| `Router.dfy`, `Metrics.dfy` | candidates, failover, key rotation; process counters |
| `Gateway.dfy` | the chat handler as a step machine over all of the above; accounting and the audit log |
| `GatewaySteps.dfy` | what each step of the handler does: status, audit event, charge; and the audit log and ledger of every run |
| `GatewayAdmission.dfy`, `GatewayBudget.dfy`, `GatewayCosts.dfy` | over all runs of it: the gates and the envelope, the budget bound, audit against ledger |
| `GatewayDay.dfy`, `GatewayCeiling.dfy` | limiter and budget on one clock: what a day can cost, and when the budget's bound is reached |
| `GatewayScenarios.dfy` | building runs, for the results that say one exists |

`dafny verify dfyconfig.toml` checks the whole project.

## Main results

- **Limiter.** A choice of calls fits the envelope `burst + rpm * elapsed` on every window exactly
  when one bucket can pay for it (`EnvelopeIffNeverOverdrawn`, any clock). The limiter's own choice
  fits, and no other fitting choice admits more calls in any prefix (`GreedyIsOptimal`). How many
  calls can pass within a stretch of time, over all call patterns and clocks, is `MostPassed`, exactly
  (`CanPassExactlyWhen`).
- **Budget.** With at most `k` requests of a tenant between check and charge, a day's spend is at
  most `daily + (k - 1) * E` plus that day's overruns, `E` being the largest admissible estimate
  (`BudgetSafety`), and for every budget and `k` some run of the protocol reaches it
  (`CeilingIsReached`). The bound holds of what either tracker back end reports when its own answers
  decide (`TrackerBudgetSafety`), and of the whole gateway (`GatewayBudgetSafety`).
- **Both gates.** Limiter and ledger read one clock. A day's spend, overruns aside, is at most one
  largest estimate for each request unfinished when the day began and each the limiter can let in
  within a day (`BothGatesBoundTheDay`). The gateway can spend the whole budget bound on a day exactly
  when there is a provider and the limiter can let in the requests this takes
  (`CeilingIsReachedExactlyWhen`); a slow limit can rule that out (`LimiterMayCapSpend`).
- **Back ends.** Both tracker back ends answer every operation as a reference that knows only the
  charges recorded so far (`BackendMeetsReference`); restarts and other tenants are invisible.
- **Migrations.** Under any interleaving of runners and crashes the recorded versions are a prefix
  of the list and the schema is its in-order effect (`ExactlyOnce`). The code's runs are such
  behaviours (`RunIsBehaviour`), and reruns of any list, repeated versions or not, come to the
  in-order effect of the first occurrences (`RerunsApplyFirsts`).
- **Gateway.** At every moment of every interleaving: counters add up (`PipelineAccounting`), the
  audit log is, in order, what the steps owed it (`AuditLogIsWritten`), the ledger is the sum of the
  bills settled (`LedgerHoldsTheBills`), and upstream calls fit the limiter's envelope times the
  candidates (`UpstreamCallsFitEnvelope`). Audit and ledger agree throughout exactly when every
  settlement meets a condition on its fault, tokens and prices (`BooksAgreeExactlyWhen`).

## Idealisations

- Time is integer nanoseconds. Tokens are integers scaled so that one token is the nanoseconds in a
  minute; the refill is then exact. Costs are exact reals where the program uses `float64`.
- The limiter's clock may step backwards unless a lemma asks for `NonDecreasing`. The zero time never
  occurs, since it marks an unused bucket.
- Days are strings without a NUL character. In the protocols the clock never returns to a past day.
- Results about a day of the gateway ask for `OneClock`: a request arrives, by the limiter's clock, on
  the day the ledger is charging. A day is 24 hours, and different days have different names.
- Prices are non-negative where a lemma says so; the feed itself is not checked by the program.
- Transactions commit wholly or not at all and are serialised.

## Findings

- A rate limit with `enabled: false` and only one of its two values set passes validation, still
  produces an enabled limit, and can deny every call forever (`ValidatedLimitMayDenyForever`). The
  exact condition is `EffectiveLimitRecoversExactlyWhen`.
- The retry hint truncates and may be too short (`RetryHintMayFallShort`); it suffices exactly when
  truncation lost nothing (`RetryHintSufficesExactlyWhen`), and one more second always suffices.
- A migration whose version is listed twice is lost while the migrator reports success
  (`RepeatedVersionIsLost`). A successful run has every listed migration on record exactly when no
  version is listed twice (`SuccessMeansAllAppliedExactlyWhen`).
- Key rotation yields a negative index after the ticket counter passes 2^63 (`RotationGoesNegative`),
  except where the remainder happens to be zero (`IndexInRangeExactlyWhen`).
- When a charge succeeds but cannot be read back, the audit event shows the static price although
  the ledger holds the table's price (`ReadBackFailurePartsBooks`). `BooksAgreeExactlyWhen` says, for
  every run, exactly when audit and ledger stay together.
- Tenants authenticate under their trimmed id, while limits and budgets are filed under the id as
  written. A tenant whose configured id has white space around it passes validation and is held to
  neither (`PaddedIdLosesItsLimit`, `PaddedIdLosesItsBudget`); the exact conditions are
  `OwnLimitAppliesExactlyWhen` and `OwnBudgetAppliesExactlyWhen`.

## Model

| member | source | states |
|---|---|---|
| `Config.ValidateRateLimit` | internal/config/config.go:119-133 | accepted exactly when nothing is negative and an enabled limit sets both values; each error names its own fault |
| `Config.TrimSpaceStops` | internal/config/config.go:104-104 | exactly the white space before and after the id goes |
| `Config.WhiteSpaceByCodePoint` | internal/config/config.go:104-104 | white space is Unicode's, by code point |
| `Config.ValidateTenants` | internal/config/config.go:101-117 | accepts exactly tenants named and distinct once trimmed, with valid limits; the error is that of the first entry with a fault, all before it being valid |
| `TokenBucket.Refilled` | internal/ratelimit/limiter.go:73-81 | the refilled level never exceeds the burst |
| `TokenBucket.EnvelopeIffNeverOverdrawn` | internal/ratelimit/limiter.go:72-94 | any choice of calls meets the envelope on all windows iff the bucket driven by that choice never goes negative; any clock, any limit |
| `TokenBucket.WindowBoundAnyClock` | internal/ratelimit/limiter.go:17-87 | from any call to a later admitted call, admissions are at most burst plus rate times elapsed, even if the clock steps back |
| `TokenBucket.TokensStayInRange` | internal/ratelimit/limiter.go:77-87 | with a non-decreasing clock stored tokens stay within 0 and burst in every reachable state |
| `TokenBucket.GreedyMeetsEnvelope` | internal/ratelimit/limiter.go:72-94 | the limiter's admissions meet the envelope on every window |
| `TokenBucket.GreedyIsOptimal` | internal/ratelimit/limiter.go:72-94 | in every prefix the limiter admits at least as many calls as any choice meeting the envelope |
| `TokenBucket.GreedyDominates` | internal/ratelimit/limiter.go:77-87 | the greedy run on a larger limit leads any affordable choice on a smaller one, and its lead covers its shortage of tokens |
| `TokenBucket.RaisingNeverHurts` | internal/ratelimit/limiter.go:77-87 | larger rate and burst never lower the admissions of any prefix |
| `TokenBucket.RaisingMayDenyACall` | internal/ratelimit/limiter.go:77-87 | a larger limit may deny a call that the smaller one admits |
| `TokenBucket.RefillInPieces` | internal/ratelimit/limiter.go:77-82 | refilling in two pieces under the cap equals refilling once |
| `TokenBucket.DeniedCallsAreFree` | internal/ratelimit/limiter.go:77-94 | deleting any set of denied calls leaves every remaining decision and the later behaviour unchanged |
| `TokenBucket.RetryAfterSeconds` | internal/ratelimit/limiter.go:126-135 | the hint is at least one second, and sixty where nothing is earned |
| `TokenBucket.RetryHintNotTooLong` | internal/ratelimit/limiter.go:126-135 | the hint is one second or no longer than the time needed, and never a whole second shorter |
| `TokenBucket.RetryHintSufficesExactlyWhen` | internal/ratelimit/limiter.go:126-135 | waiting the hint is enough iff the missing tokens are a whole number of seconds' worth or under one second's |
| `TokenBucket.RetryHintMayFallShort` | internal/ratelimit/limiter.go:126-135 | a concrete history denied again after exactly the hinted wait |
| `TokenBucket.RetryHintPlusOneSuffices` | internal/ratelimit/limiter.go:77-94 | one second after the hint the next call is admitted, whatever denied calls lie between |
| `TokenBucket.RecoversIffLive` | internal/ratelimit/limiter.go:77-87 | every reachable state recovers after a finite wait iff rate and burst are at least one |
| `Saturation.WindowPassesAtMost` | internal/ratelimit/limiter.go:72-94 | of calls that all come within w nanoseconds, on any clock, at most `MostPassed` pass |
| `Saturation.CanPassExactlyWhen` | internal/ratelimit/limiter.go:72-94 | n calls can pass within w nanoseconds iff n is at most `MostPassed` |
| `Saturation.MostPassedFitsEnvelope` | internal/ratelimit/limiter.go:77-82 | `MostPassed` never exceeds the envelope, and uses all of it where the cap cuts no refill |
| `Saturation.MostPassedInTokens` | internal/ratelimit/limiter.go:77-82 | where the cap cuts no refill it is the burst plus the whole tokens earned |
| `Saturation.MostPassedOneAtATime` | internal/ratelimit/limiter.go:77-82 | with a burst of one it is one call for every token's time, rounded up to a nanosecond |
| `RateLimiter.AllowStepIsLocal` | internal/ratelimit/limiter.go:61-95 | a call moves only its own tenant's bucket, decides by that bucket, and hints from the level left; tenant and reason are reported |
| `RateLimiter.BucketsAreIndependent` | internal/ratelimit/limiter.go:61-95 | every bucket is that of its tenant's own call times, whatever other tenants do |
| `RateLimiter.TenantNonInterference` | internal/ratelimit/limiter.go:61-95 | a tenant's decisions, hints included, are those of the history projected to that tenant |
| `RateLimiter.TenantIsGreedy` | internal/ratelimit/limiter.go:61-95 | a tenant's decisions are the greedy ones on its own call times |
| `RateLimiter.EffectiveLimitIsFieldwise` | internal/ratelimit/limiter.go:104-124 | each effective value is the tenant's own if set, else the global one |
| `RateLimiter.EffectiveLimitRecoversExactlyWhen` | internal/ratelimit/limiter.go:104-124 | an enabled effective limit recovers iff rate and burst are each set for the tenant or globally |
| `RateLimiter.EnabledLimitsAreLive` | internal/ratelimit/limiter.go:47-59 | with the global limit switched on in a validated configuration every tenant's limit is live |
| `RateLimiter.ValidatedLimitMayDenyForever` | internal/config/config.go:119-133 | a validated configuration whose enabled limit denies every call |
| `RateLimiter.OwnLimitAppliesExactlyWhen` | internal/ratelimit/limiter.go:47-52 | a validated tenant is held to its own limit iff its id is written trimmed or its entry changes nothing |
| `RateLimiter.PaddedIdLosesItsLimit` | internal/authn/manager.go:66-75 | a validated tenant with a blank before its id and an enabled limit is not limited at all |
| `RateLimiter.Limiter.constructor` | internal/ratelimit/limiter.go:47-59 | the limits map gives every id its effective limit, named in the configuration or not |
| `RateLimiter.Limiter.Decide` | internal/ratelimit/limiter.go:62-94 | the critical section computes the value-level step |
| `RateLimiter.Limiter.Allow` | internal/ratelimit/limiter.go:61-95 | the answer is the next decision of the whole history; other tenants' buckets are untouched |
| `Pricing.CostIsLinear` | internal/cost/static_pricing.go:9-12 | the cost is linear in the tokens and a million tokens cost the listed price |
| `Pricing.PriceIsMonotone` | internal/cost/pricing.go:38-46 | with non-negative prices costs are non-negative and grow with the completion |
| `Pricing.BuiltInBills` | internal/cost/pricing.go:99-113 | what a million tokens of each kind cost for each built-in model, and for any other |
| `Pricing.CostsNothingExactlyWhen` | internal/cost/pricing.go:38-46 | at non-negative prices a bill is zero iff every kind of token used is free |
| `Pricing.CostsTheSameExactlyWhen` | internal/cost/pricing.go:38-46 | two prices make the same bill iff the prompt's difference is made up on the completion |
| `Pricing.LastUsableFeedWins` | internal/cost/pricing.go:48-79 | after any refreshes, prices are the last usable feed over the built-in ones |
| `Pricing.NoFeedMeansStaticPrices` | internal/cost/static_pricing.go:9-24 | without a usable feed the table prices like the static pricer |
| `Pricing.Override` | internal/cost/pricing.go:71-74 | every feed entry overwrites the base table, in any order |
| `Pricing.PriceTable.Refresh` | internal/cost/pricing.go:48-79 | succeeds iff the response is 2xx with a non-empty feed; then each model has the feed's price or else its built-in one, otherwise nothing changes |
| `Ledger.Upsert` | internal/cost/sqlite_ledger.go:34-48 | adds the amount to that tenant and day and changes no other reading |
| `Ledger.MigrationConservesSpend` | internal/cost/sqlite_ledger.go:83-107 | from any table, migrating and then charging reads back as old spend plus charges; migrating twice is migrating once |
| `Ledger.LegacySpendIsTheDefaultTenants` | internal/cost/sqlite_ledger.go:83-107 | old spend reads back day by day under the default tenant, by either of its ids, and under no other |
| `Ledger.SQLiteLedger.MigrateTenantCostSpend` | internal/cost/sqlite_ledger.go:83-143 | missing tables are created, old ones rewritten under the default tenant, new ones kept |
| `Ledger.SQLiteLedger.AddSpend` | internal/cost/sqlite_ledger.go:34-48 | the row grows by the amount, or nothing changes on failure |
| `Ledger.SQLiteLedger.ReadSpend` | internal/cost/sqlite_ledger.go:50-63 | reads the row, zero if there is none, or fails and reads nothing |
| `LedgerOpening.OpeningConservesSpend` | internal/cost/sqlite_ledger.go:69-81 | however many openers race and crash, a finished one leaves the new layout with all spend conserved |
| `CostTracker.Decide` | internal/cost/tracker.go:122-128 | which of the two budgets a denial names and with what numbers, the per-request one first; allowed iff both hold |
| `CostTracker.TenantBudgets` | internal/cost/tracker.go:214-228 | the map gives every id its merged budget |
| `CostTracker.EffectiveBudgetIsFieldwise` | internal/cost/tracker.go:214-228 | each budget value is the listed tenant's own if set, else the default; an unlisted tenant has the defaults |
| `CostTracker.OwnBudgetAppliesExactlyWhen` | internal/cost/tracker.go:214-228 | a validated tenant is held to its own budget iff its id is written trimmed or each value it sets repeats the default |
| `CostTracker.PaddedIdLosesItsBudget` | internal/authn/manager.go:66-75 | a validated tenant with a blank after its id has no daily budget |
| `CostTracker.SpendKeyIsInjective` | internal/cost/tracker.go:230-235 | keys are equal iff tenant and day are, whatever characters an id holds |
| `CostTracker.BackendMeetsReference` | internal/cost/tracker.go:135-202 | either back end answers every operation from the charges recorded before it, across restarts of the ledger-backed one |
| `CostTracker.AnswersAreTrue` | internal/cost/tracker.go:108-185 | in any history each decision, usage and snapshot of either back end is the true one on the charges recorded before it |
| `CostTracker.RestartKeepsOnlyTheLedger` | internal/cost/tracker.go:187-202 | a restart loses what was only in memory and nothing in the ledger |
| `CostTracker.BackendsAgree` | internal/cost/tracker.go:135-202 | ledger-backed and in-memory trackers give identical answers |
| `CostTracker.UnrelatedOperationsAreInvisible` | internal/cost/tracker.go:108-185 | dropping operations that charge no remaining operation's tenant changes no remaining answer |
| `CostTracker.TrackerNonInterference` | internal/cost/tracker.go:108-185 | a tenant's answers are those of the history projected to it |
| `CostTracker.RestartsAreInvisible` | internal/cost/tracker.go:187-202 | a ledger-backed tracker replaced at any points answers like an in-memory one that lived through it all |
| `CostTracker.Tracker.AllowTenant` | internal/cost/tracker.go:108-129 | decides from the recorded spend, reserves nothing, and decides nothing when the read fails |
| `CostTracker.Tracker.RecordTenant` | internal/cost/tracker.go:135-160 | charges the cost; an error after the upsert leaves the charge standing |
| `CostTracker.Tracker.SnapshotTenant` | internal/cost/tracker.go:166-185 | reports the day's spend and the tenant's budgets |
| `CostTracker.Tracker.ReadDay` | internal/cost/tracker.go:191-202 | reads the day's spend and refreshes the mirror |
| `BudgetProtocol.SettlementIsExact` | internal/cost/tracker.go:139-159 | a settlement adds the cost to its tenant's row for today and the excess over the estimate to the overruns, and changes nothing else |
| `BudgetProtocol.StepKeepsInv` | internal/cost/tracker.go:108-160 | every step of every tenant keeps each tenant within its ceiling even if all in flight is charged |
| `BudgetProtocol.BudgetSafety` | internal/cost/tracker.go:108-160 | with at most k in flight no day exceeds daily plus k-1 largest estimates plus that day's overruns, over any interleaving and across midnight |
| `BudgetProtocol.CeilingIsReached` | internal/gateway/chat.go:75-116 | for every budget and k some legal run of the protocol without overruns spends exactly that bound |
| `BudgetProtocol.FewerFallShort` | internal/cost/tracker.go:122-128 | n requests at the largest estimate come to the bound iff n is at least `RequestsNeeded` |
| `BudgetTracker.StepIsTrackerCall` | internal/cost/tracker.go:108-160 | on either back end the tracker's answer is the protocol's admission condition and its charge the protocol's charge |
| `BudgetTracker.TrackerBudgetSafety` | internal/cost/tracker.go:108-202 | what either back end reports for a day stays within the ceiling and overruns, with reads and restarts in between |
| `Migrations.StepKeepsPrefix` | internal/store/migrator.go:81-100 | a step of any runner keeps the prefix and extends it by one exactly when it commits |
| `Migrations.ExactlyOnce` | internal/store/migrator.go:27-44 | under crashes and stale snapshots the recorded versions are a prefix and the schema its in-order effect, each version once |
| `Migrations.FinishedMeansComplete` | internal/store/migrator.go:27-44 | a runner that finishes leaves the whole list applied, whoever applied it |
| `MigrationRuns.RunFromPrefix` | internal/store/migrator.go:27-44 | a run extends the prefix by exactly the effects in between, completes when nothing fails, and is a no-op on a complete database |
| `MigrationRuns.FaultStopsRun` | internal/store/migrator.go:35-42 | a fault on any entry still to apply makes the run fail and do just what the entries before it do |
| `MigrationRuns.FreshRunCompletesIffDistinct` | internal/store/migrator.go:35-42 | a failure-free run on a fresh namespace completes iff no version is listed twice |
| `MigrationRuns.RepeatedVersionIsLost` | internal/store/migrator.go:35-42 | a concrete list whose repeated version is skipped by the next, successful run without ever being applied |
| `MigrationRuns.SuccessMeansAllAppliedExactlyWhen` | internal/store/migrator.go:27-44 | after any successful run, whatever failed, each listed version is recorded once, and as many rows as entries iff no version is listed twice |
| `MigrationRuns.RunFromFirsts` | internal/store/migrator.go:27-44 | a run of any list, whatever fails, advances through the first occurrences in order and succeeds only with all of them |
| `MigrationRuns.RerunsApplyFirsts` | internal/store/migrator.go:27-44 | failure-free reruns of any list succeed after finitely many runs and leave the in-order effect of the first occurrences |
| `MigrationRuns.RunIsBehaviour` | internal/store/migrator.go:27-44 | every run, whatever fails, is a one-runner behaviour of the protocol with the same versions, schema and outcome |
| `MigrationRuns.Database.AppliedVersions` | internal/store/migrator.go:61-79 | the versions recorded for the namespace and no others |
| `MigrationRuns.Database.RunMigration` | internal/store/migrator.go:81-113 | succeeds iff begin, statement, version row and commit do; then effect and row are there, otherwise nothing changed |
| `MigrationRuns.Database.Run` | internal/store/migrator.go:27-44 | computes the run from the versions seen at its start |
| `Routing.CandidatesAreExact` | internal/provider/router.go:51-67 | the candidates stand at increasing positions, which are those of the providers listing the model, or of the unrestricted ones if none does |
| `Routing.Candidates` | internal/provider/router.go:51-67 | the loop returns exactly those providers |
| `Routing.TriesOf` | internal/gateway/chat.go:134-150 | calls stop at the first acceptable reply, all earlier ones being unacceptable |
| `Routing.ReplyIsFirstAcceptable` | internal/gateway/chat.go:135-149 | the reply handed on is the first that is no error, not 429 and below 500 |
| `Routing.NoReplyMeansAllTried` | internal/gateway/chat.go:150-150 | with no acceptable attempt every candidate is called and nothing is handed on |
| `Routing.CallProviders` | internal/gateway/chat.go:128-151 | returns the first acceptable reply, the last candidate's failure iff there is none, and counts failovers as calls after the first, wrapping as the counter does |
| `Routing.RotationIsRoundRobin` | internal/provider/router.go:73-79 | the first 2^63 tickets go round the keys in turn |
| `Routing.IndexInRangeExactlyWhen` | internal/provider/router.go:73-79 | over a full turn of the counter the index is valid iff the ticket is among the first 2^63 or the remainder vanishes |
| `Routing.RotationGoesNegative` | internal/provider/router.go:73-79 | with two keys, ticket 2^63 + 2 computes the index -1 |
| `Routing.RotationIsFair` | internal/provider/router.go:73-79 | any n consecutive tickets use each of k keys n/k times, rounded down or up |
| `Routing.KeyRing.NextKey` | internal/provider/router.go:73-79 | draws one ticket and yields its key, or the index failure |
| `Metrics.Wrap64` | internal/metrics/metrics.go:20-34 | 64-bit wrap-around, the identity within range |
| `Metrics.WrapAdds` | internal/metrics/metrics.go:20-34 | wrapping after each addition equals wrapping once at the end |
| `Metrics.CounterDrift` | internal/metrics/metrics.go:32-34 | the micro-dollar counter is at most the true total and short of it by less than one per cost |
| `Metrics.Registry.RecordCost` | internal/metrics/metrics.go:32-34 | keeps the counter equal to that of the cost history, each cost truncated toward zero |
| `Gateway.StepsFollowBudgetProtocol` | internal/gateway/chat.go:75-116 | every handler step is a legal budget-protocol step or leaves it alone |
| `Gateway.PipelineAccounting` | internal/gateway/chat.go:20-116 | requests are the blocked, the failed upstream, the served and those in progress; failovers and cost counters match the requests, all modulo 64-bit wrap-around |
| `GatewaySteps.ArrivalLaw` | internal/gateway/chat.go:20-33 | a request the limiter denies ends with 429, counted and audited; any other goes on |
| `GatewaySteps.ScreenLaw` | internal/gateway/chat.go:35-68 | a guard block ends with 403 and an event, a malformed body with 400 and none; a cleared order goes on |
| `GatewaySteps.FundLaw` | internal/gateway/chat.go:70-88 | 500 on a failed read, 402 on a refusal, else open at the bill for the prompt and the completion asked for, 1024 tokens by default |
| `GatewaySteps.DispatchFails` | internal/gateway/chat.go:90-96 | when every attempt is an error, 429 or 500 and above, the request ends with 502 uncharged |
| `GatewaySteps.DispatchAnswers` | internal/gateway/chat.go:134-149 | the first other attempt is the reply, and the earlier ones are counted as failovers |
| `GatewaySteps.SettleLaw` | internal/gateway/chat.go:98-116 | the request ends with the reply's status, 200 for none, audited and counted at its cost |
| `GatewaySteps.SettlementCharges` | internal/gateway/chat.go:112-115 | the tenant's spend today grows by exactly the listed prices times prompt and completion, the latter zero for a streamed reply; nothing else changes |
| `GatewaySteps.LedgerHoldsTheBills` | internal/gateway/chat.go:173-184 | in every run the ledger is, per tenant and day, the sum of the bills settled, and the overruns what these exceeded their estimates by |
| `GatewaySteps.AuditLogIsWritten` | internal/gateway/audit.go:26-52 | in every run the audit log is, in order, the event each step owed, less the lost writes |
| `GatewaySteps.GuardBlocksAreAudited` | internal/gateway/chat.go:49-55 | with no write lost, a tenant's 403 events are its guard blocks and its providers' 403 replies |
| `Gateway.AuditLogIsExact` | internal/gateway/audit.go:26-52 | the log holds each finished request's own tenant, status and cost, exactly once for all but malformed ones unless a write was lost |
| `GatewayAdmission.ProvidersCalledOnlyAfterGates` | internal/gateway/chat.go:24-90 | a provider is called only after limiter, guard and budget passed the request, in that order |
| `GatewayAdmission.RunKeepsTracking` | internal/gateway/chat.go:24-33 | in every run the limiter answers each tenant as the greedy bucket on its own request times |
| `GatewayAdmission.UpstreamCallsFitEnvelope` | internal/gateway/chat.go:128-151 | upstream calls for a tenant's requests in a window are at most candidates times the limiter's envelope: on any clock if the window ends in a passed request, on any window if the clock never goes back |
| `GatewayBudget.GatewayBudgetSafety` | internal/gateway/chat.go:75-116 | the budget bound holds of the ledger in every run of the gateway |
| `GatewayBudget.PredictableChargeFitsEstimate` | internal/gateway/chat.go:98-115 | with unchanged prices a streamed reply, or one no longer than asked for, is charged at most its estimate |
| `GatewayBudget.CeilingHoldsWhenPredictable` | internal/gateway/chat.go:98-115 | with stable prices and such replies for the tenant's own requests the bound holds without an overrun term |
| `GatewayDay.SpendFitsRequests` | internal/gateway/chat.go:75-116 | between two moments spend grows, overruns aside, by at most one estimate per request unfinished or let in |
| `GatewayDay.LetInDuringDay` | internal/cmd/run.go:69-76 | on one clock the limiter lets in at most `MostPassed` of a tenant's requests on a day |
| `GatewayDay.BothGatesBoundTheDay` | internal/cost/tracker.go:187-189 | a day's spend, overruns aside, is at most one largest estimate per request carried into the day or let in on it |
| `GatewayCeiling.CeilingIsReachedExactlyWhen` | internal/gateway/chat.go:24-116 | on some day entered with no request unfinished the tenant can spend exactly the ceiling iff there is a provider and no limit, or one that lets in the requests needed within a day |
| `GatewayCeiling.LimiterMayCapSpend` | internal/ratelimit/limiter.go:72-94 | one request a minute lets in 1,440 a day, so no run spends a million dollars at a dollar each |
| `GatewayCosts.SettlementIsEvenExactlyWhen` | internal/gateway/chat.go:173-184 | a settlement moves audit and ledger equally iff its fault, tokens and unit prices meet the stated condition |
| `GatewayCosts.BooksAgreeExactlyWhen` | internal/gateway/chat.go:173-184 | over every run, audit and ledger agree at every moment iff every settlement of the tenant met that condition |
| `GatewayCosts.ReadBackFailurePartsBooks` | internal/gateway/chat.go:173-184 | a run after which the ledger holds 5 dollars and the audit log 2.50 |
| `GatewayCosts.CostConservation` | internal/gateway/audit.go:35-48 | without faults a tenant's audited cost equals its ledger spend over all days; blocked and failed requests add nothing |

## Left out

- HTTP serving, header and stream copying, request ids, logging, start-up and shutdown: plumbing without a hard property.
- The route, provider, model, token counts, security action and latency of an audit event; its tenant, status and cost are modelled.
- Prompt inspection and redaction rules: they rest on regular expressions; the guard's verdict is an input of the handler's screening step.
- Authentication and OIDC, except that a listed tenant authenticates under its trimmed id: elsewhere the tenant id is an input.
- JSON and YAML decoding, environment variables, URL building, and the Anthropic and Google mappings: foreign formats and easy filters.
- Token estimation from text (`internal/cost/tokens.go`): prompt and completion tokens are inputs.
- Floating-point rounding, `time.Duration` saturation, and costs beyond the 64-bit conversion range.
- Locks: each method of the limiter, the tracker and the ledger is one atomic step, as their mutexes and SQL statements make it.
- The chat handler is a step machine on values rather than an object with methods, because its requests interleave; a step joins one shared access with the local work around it, so interleavings inside such a step (between two counters, or between two upstream attempts of one request) are not shown.
- The refresh timer of the price table and the retry setting `max_retries`, which no code reads.
- Several gateway processes sharing one ledger file while each serves traffic: the limiter is per process, and the documentation asks for a single active writer.
