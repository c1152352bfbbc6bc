# DCA service core, modelled in Dafny

This project models the core of a dollar-cost-averaging (DCA) service. Users create
investment plans: buy `amount` dollars of a token (`INJ`, `TON` or `SONIC`) every minute,
hour or day, and send it to `toAddress`. The service keeps three record stores:

- plans;
- users;
- an append-only transaction ledger.

It schedules one cron job per active plan. On each firing a job executes the plan:

1. look up the user;
2. resolve the token's chain executor;
3. fetch the current price;
4. send the transaction;
5. record a `completed` row, then update the plan's and the user's totals.

A failure at any step records a `failed` row instead. The price service supplies the
current token price with a two-level fallback, the stored price history, a moving
average and a volatility-based risk hint.

Files:

- `base.dfy`: `Option` and `Result`.
- `seqs.dfy`: an order-keeping filter, an insertion sort by an integer key, and a real sum, with their lemmas.
- `models.dfy`: the three record schemas (Transaction, User, TokenPrice) as datatypes.
  - Each `create` is a validating constructor (`NewTransaction`, `NewUser`, `NewSample`) that models the required fields, enum and default rules.
  - The user store's unique address is a store invariant.
  - It also holds the investment-plan record the service works on.
- `prices.dfy`: the pure price rules and `class PriceService`, whose `samples` field is the TokenPrice collection.
- `dca.dfy`: the scheduler and execution engine.
  - A pure `Store` datatype with the transitions `Create`, `Stop` and `Execute`, and the bootstrap `Jobs`, plus lemmas about them.
  - `class DcaService`, whose fields are the stores and the cron-job map.
    - `CreatePlan`, `StopPlan`, `Tick` and `RecordExecution` tie their new state to the matching transition of `old(Snapshot())`.
    - `SchedulePlan`, `InitializeExistingPlans` and `RecordFailedTransaction` state their effect on the job map or the ledger directly.

How the parts that are not plain logic are represented:

- **Chain executor.** A function `Executors` from a send request to `Sent(txHash) | SendFailed`.
- **Live price source.** A function `Quotes` from a CoinGecko id to an optional positive price.
- **Cron firing.** An explicit `Tick(planId, …)` call.
- **Time.** A parameter `now`.
- **Environment variables.** `DEFAULT_USER_ID` and `PLATFORM_WALLET_ADDRESS` are the constant field `env`.
- **Store writes after the completed transaction.** They can fail through the `WriteFault` parameter: `PlanSaveFails` or `UserUpdateFails`.
- **Plan ids.** A plan's id is its position in the plan store.
- **Cron jobs.** A job is `Job(expression, plan)`, where `plan` is the plan document its callback holds. That copy, not the stored plan, is what a tick reads and updates.

Where the code does something other than its names and messages suggest, this model follows the code:

- An unsupported token symbol is not refused when a plan is created. The plan is stored and scheduled; every tick then records a failed transaction.
- A plan whose frequency is invalid is stored, active, before the error is raised. It is just not scheduled.
- The price fetch never fails: it falls back to the stored price and then to 1.0.
- The aggregates are not updated all-or-nothing. A write failure after the completed row leaves both a completed and a failed row, and possibly an updated plan without an updated user.
- Plans fire on cron expressions, not on fixed intervals.
- The bootstrap stops scheduling at the first active plan whose frequency is invalid, because that error escapes the `forEach`.

## Model

| member | source | states |
|---|---|---|
| Dca.CronExpression | src/services/DCAService.ts:40-51 | the expression is an error exactly when the frequency is not minute, hour or day, and that error is "Invalid frequency" |
| Dca.CronRoundTrip | src/services/DCAService.ts:40-51 | the three frequencies and the three expressions correspond one to one, in both directions |
| Dca.DcaService.SchedulePlan | src/services/DCAService.ts:128-133 | the result is the frequency's expression; on success exactly that plan id's job is set to it and the plan, and on an invalid frequency the job map is unchanged |
| Dca.DcaService.InitializeExistingPlans | src/services/DCAService.ts:30-38 | the job map becomes the jobs of the active plans in store order, up to the first one whose frequency is invalid |
| Dca.BootSchedulesActivePlans | src/services/DCAService.ts:30-34 | when every active plan has a valid frequency, the bootstrap schedules exactly the active plan ids, each job holding its plan unchanged (totals and last execution time untouched) |
| Dca.BootCoversActive | src/services/DCAService.ts:30-34 | when the bootstrap runs through all the active plans, every active plan id gets a job |
| Dca.BootStopsAtUnknownFrequency | src/services/DCAService.ts:30-38 | an active plan with frequency "week" stored before an active hourly plan leaves the job map empty: the schedule error ends the loop |
| Dca.BootKeepsWellFormed | src/services/DCAService.ts:30-34 | after the bootstrap every job names a stored, active plan with the expression of its frequency |
| Dca.BootedIsWellFormed | src/services/DCAService.ts:30-38 | a bootstrapped service satisfies the store invariant whenever its stores do |
| Dca.BootKeepsReconciled | src/services/DCAService.ts:30-38 | the bootstrap keeps plan totals equal to their completed-ledger sums and user totals equal to their plans' sums |
| Dca.DcaService.constructor | src/services/DCAService.ts:18-28 | the registry holds INJ, TON and SONIC, the stores are the given ones, and the job map is the bootstrap's, with the bootstrap taken as finished when the constructor returns |
| Dca.DcaService.CreatePlan | src/services/DCAService.ts:135-165 | the new stores and the result are those of `Create` on the old stores; the store invariant is kept |
| Dca.CreateRequiresUser | src/services/DCAService.ts:142-155 | "User not found" exactly when the user is absent and is not the default user id, and then nothing changes |
| Dca.CreateStoresPlan | src/services/DCAService.ts:142-165 | once the user exists, the plan is appended active with total 0 and the given fields; a default user created on the way has total 0, the default address and the creation time; other users, the ledger and the samples are unchanged; the result is the plan exactly when the frequency is valid, and only then does the job map gain that plan's id, no other entry changing; on an invalid frequency the plan stays stored but the job map is unchanged |
| Dca.CreateRefusesTakenDefaultAddress | src/services/DCAService.ts:145-150 | creating the default user fails with a duplicate-key error when its address is taken, and then nothing changes |
| Dca.CreatedPlanIsListed | src/services/DCAService.ts:157-164 | a created plan is among the user's plans, active, with total 0 |
| Dca.CreateKeepsWellFormed | src/services/DCAService.ts:135-165 | createPlan keeps the store invariant: ids are positions, addresses are unique, jobs name active plans with valid expressions |
| Dca.CreateKeepsReconciled | src/services/DCAService.ts:135-165 | createPlan keeps every plan total equal to its completed-ledger sum and every user total equal to the sum over their plans |
| Dca.AddPlanKeepsWellFormed | src/services/DCAService.ts:157-163 | appending an active plan under the next id, with its job only when its frequency is valid, keeps the store invariant |
| Dca.AddPlanKeepsReconciled | src/services/DCAService.ts:145-163 | appending a plan with no investment, possibly with a new owner with no investment and a job for the plan, keeps plan and user totals reconciled |
| Dca.DcaService.StopPlan | src/services/DCAService.ts:167-183 | the new stores and the result are those of `Stop` on the old stores; the store invariant is kept |
| Dca.StopOutcome | src/services/DCAService.ts:167-183 | an unknown id gives null and changes nothing; a known id deactivates that plan only, changes nothing else in it, removes only its job, and returns it |
| Dca.StopIdempotent | src/services/DCAService.ts:167-183 | stopping twice returns the same plan and leaves the same stores and job map as stopping once |
| Dca.StopKeepsWellFormed | src/services/DCAService.ts:167-183 | stopPlan keeps the store invariant |
| Dca.StopKeepsReconciled | src/services/DCAService.ts:167-183 | stopPlan keeps plan and user totals reconciled with the ledger |
| Dca.DcaService.Tick | src/services/DCAService.ts:53-126 | one firing of a plan's job changes the stores exactly as `Execute` says, and keeps the store invariant |
| Dca.DcaService.RecordExecution | src/services/DCAService.ts:83-103 | the completed row, then the plan update, then the user increment, each write subject to the fault, exactly as `Settle` says |
| Dca.DcaService.RecordFailedTransaction | src/services/DCAService.ts:110-124 | the ledger gains the failed row when the store accepts it, and nothing otherwise |
| Dca.ExecuteCompletes | src/services/DCAService.ts:70-103 | on a successful send: exactly one completed row with amount, amount / price, the observed price and the hash is appended; only then do the plan's total grow by the amount and its last execution time become now; the user's total grows by the amount; the job's plan copy is updated; the live sample is appended |
| Dca.ExecuteWithoutCompletion | src/services/DCAService.ts:58-125 | when the user is missing, the token has no executor, the send fails or the completed row is refused: plans, users and jobs are unchanged; with a non-empty token symbol exactly one failed row (token amount 0, price 0, hash "failed") is appended, and with an empty one the store refuses that row and the ledger is unchanged |
| Dca.ExecuteFaultAfterCompletion | src/services/DCAService.ts:83-125 | a failing plan save or user increment after the completed row leaves both a completed and a failed row, leaves user totals unchanged, and leaves the stored plan updated only when the plan save succeeded |
| Dca.SettleKeepsWellFormed | src/services/DCAService.ts:83-103 | the completed row, the plan save and the user increment, as far as the writes get, keep the store invariant |
| Dca.SettleIsolated | src/services/DCAService.ts:83-125 | the writes after the send touch only the tick's plan (leaving it as active as it was), its job and its owner, and only append to the ledger |
| Dca.SettleKeepsJobsBacked | src/services/DCAService.ts:83-125 | the completed row and the in-memory plan's increment by the same amount keep every job's total backed by the ledger, whichever write fails next |
| Dca.CompletionKeepsReconciled | src/services/DCAService.ts:83-103 | a completed row for a plan followed by the plan's and its owner's increments by that amount keep all totals reconciled |
| Dca.RecordFailureAppends | src/services/DCAService.ts:110-121 | recording a failure leaves plans, users and jobs as they are and only appends to the ledger |
| Dca.RecordFailureKeepsJobsBacked | src/services/DCAService.ts:110-121 | a failed row leaves every job's total backed by the ledger |
| Dca.ExecuteIsolated | src/services/DCAService.ts:53-126 | a tick changes no other plan, no other job and no other user, keeps the plan active and its job scheduled, and only appends to the ledger |
| Dca.ExecuteKeepsWellFormed | src/services/DCAService.ts:53-126 | a tick keeps the store invariant under every outcome and fault |
| Dca.ExecuteKeepsJobsBacked | src/services/DCAService.ts:53-103 | under every fault, each job's plan copy has a total equal to the completed-ledger sum of its plan |
| Dca.ExecuteKeepsReconciled | src/services/DCAService.ts:53-103 | without write faults, a tick keeps stored plan totals equal to completed-ledger sums and user totals equal to their plans' sums |
| Dca.RecordFailureKeepsWellFormed | src/services/DCAService.ts:110-121 | recording a failed row keeps the store invariant |
| Dca.RecordFailureKeepsSums | src/services/DCAService.ts:110-121 | a failed row changes no plan's completed-ledger sum |
| Dca.FailedRecordShape | src/services/DCAService.ts:111-121 | the failed row is accepted exactly when the token symbol is non-empty, and it is the plan's amount with token amount 0, price 0, hash "failed", status failed |
| Dca.CompletedRecordShape | src/services/DCAService.ts:80-93 | the completed row is accepted exactly when the symbol and hash are non-empty, and it holds amount / price, the price and the hash with status completed |
| Dca.JobNamesItsPlan | src/services/DCAService.ts:130-131 | a scheduled job's plan copy carries the id it is filed under, and that plan is stored |
| Dca.AppendedKeepsPositive | src/services/PriceService.ts:20-29 | the sample a tick's price fetch stores keeps every stored price positive |
| Dca.ReconciledBacksJobs | src/services/DCAService.ts:96-98 | when stored totals match the ledger and jobs hold the stored plans, job copies match the ledger too |
| Dca.CompletedSumAppend | src/services/DCAService.ts:83-93 | the completed-ledger sum of a plan over two ledger parts is the sum of the parts |
| Dca.CompletedSumOfUnusedId | src/services/DCAService.ts:157-161 | a plan id no ledger row mentions has completed-ledger sum 0 |
| Dca.TotalInvestmentUpdate | src/services/DCAService.ts:189-195 | changing one plan of a user changes the user's total investment by that plan's change |
| Dca.TotalInvestmentAppend | src/services/DCAService.ts:189-195 | a new plan adds its total to its owner's investment and nothing to anyone else's |
| Dca.DcaService.GetUserPlans | src/services/DCAService.ts:185-187 | the result holds exactly the stored plans of the user, active or not, each as many times as it is stored |
| Dca.UserPlans | src/services/DCAService.ts:185-187 | the plans of a user are exactly the stored plans with that user id |
| Dca.UserPlansCount | src/services/DCAService.ts:185-187 | each of the user's plans is listed as many times as it is stored, and no other plan is listed |
| Dca.UserPlansInStoreOrder | src/services/DCAService.ts:185-187 | the user's plans come in store order: a plan stored last is listed last exactly when it is the user's |
| Dca.DcaService.GetUserTotalInvestment | src/services/DCAService.ts:189-195 | the result is the sum of totals over the user's plans, active or not, and 0 when the user has none |
| Dca.TotalIsSumOverUserPlans | src/services/DCAService.ts:189-195 | the per-user total over all plans equals the sum of totals over the user's plans |
| Dca.NoPlansNoInvestment | src/services/DCAService.ts:194 | a user with no plan has total investment 0 |
| Dca.DcaService.GetPlanTransactions | src/services/DCAService.ts:197-199 | the result holds exactly the ledger rows of the plan, newest first, each as many times as it is in the ledger and no other row |
| Dca.PlanTransactions | src/services/DCAService.ts:197-199 | the plan's rows are exactly its ledger rows, timestamps non-increasing, each row as many times as it is in the ledger and no other row |
| Dca.ActivePlans | src/services/DCAService.ts:32 | the active plans are exactly the stored plans with isActive set |
| Dca.ActivePlansCount | src/services/DCAService.ts:32 | each active plan is listed as many times as it is stored, and no inactive plan is listed |
| Dca.ActivePlansInStoreOrder | src/services/DCAService.ts:32 | the active plans come in store order: a plan stored last is listed last exactly when it is active |
| Dca.FirstUnschedulable | src/services/DCAService.ts:33 | the position where the bootstrap loop stops: every earlier plan has a valid frequency and the one there, if any, does not |
| Dca.JobsExtend | src/services/DCAService.ts:128-131 | scheduling the next plan of the run adds exactly its job, under its id |
| Dca.ActivePlansAreStored | src/services/DCAService.ts:32 | each plan the bootstrap query returns is the stored plan under its own id, and is active |
| Dca.JobsSchedule | src/services/DCAService.ts:128-131 | scheduling a run of plans files each under its own id, with the expression of its frequency and the plan itself |
| Models.ParseStatus | src/models/Transaction.ts:23-26 | a status string is accepted exactly when it is pending, completed or failed |
| Models.StatusRoundTrip | src/models/Transaction.ts:23-26 | each status's name parses back to it, and a parsed name is that status's name |
| Models.NewTransaction | src/models/Transaction.ts:15-30 | a transaction is accepted exactly when user, non-empty symbol, amount, token amount, price and non-empty hash are given and the status is absent or in the enum; the stored record is the given fields with status defaulting to pending and timestamp to the creation time |
| Models.StatusDefaultsToPending | src/models/Transaction.ts:27 | a transaction created without a status has status pending |
| Models.StatusOutsideEnumRefused | src/models/Transaction.ts:23-26 | a status outside the enum makes creation fail |
| Models.PlanIdIsOptional | src/models/Transaction.ts:16 | dropping the plan id from an accepted transaction keeps it accepted, with no plan id |
| Models.NewUser | src/models/User.ts:10-15 | a user is accepted exactly when the address is non-empty and not already taken; total invested defaults to 0 and both timestamps are the creation time |
| Models.NewUserKeepsAddressesUnique | src/models/User.ts:11 | adding an accepted user keeps addresses unique across users |
| Models.SameAddressesKeepUnique | src/models/User.ts:11 | updating a user without changing the address keeps addresses unique |
| Models.NewSample | src/models/TokenPrice.ts:9-13 | a sample is accepted exactly when the symbol is non-empty and a price is given; the timestamp defaults to the creation time |
| Prices.TokenId | src/services/PriceService.ts:136-144 | a symbol in the map gives its mapped id; any other symbol gives its lower-cased form, which has its length and is the symbol itself when that is already lower case; the id has no upper-case ASCII letter |
| Prices.KnownTokenIds | src/services/PriceService.ts:136-144 | INJ, TON and SONIC map to their CoinGecko ids; the lookup is case-sensitive, so "inj" maps to itself |
| Prices.ToLower | src/services/PriceService.ts:143 | lower-casing keeps the length and lower-cases each ASCII letter, leaving every other character as it is |
| Prices.ToLowerIsLower | src/services/PriceService.ts:143 | a lower-cased string has no upper-case letter, and lower-casing is idempotent |
| Prices.Latest | src/services/PriceService.ts:34-40 | none exactly when the symbol has no stored sample; otherwise a stored sample of the symbol with no later sample of it |
| Prices.LiveSample | src/services/PriceService.ts:11-29 | a live sample exists exactly when the live source has a price and the symbol is non-empty, and it is that price at now |
| Prices.CurrentPrice | src/services/PriceService.ts:7-46 | the live price when it is fetched and stored; else the price of the newest stored sample of the symbol; else 1.0 |
| Prices.Appended | src/services/PriceService.ts:20-29 | a fetch appends at most one sample, exactly when the live fetch succeeds, holding the symbol, the live price and now |
| Prices.PriceService.FetchCurrentPrice | src/services/PriceService.ts:7-46 | the result is the current price of the old samples, and the store gains exactly the live sample, if any |
| Prices.PriceService.GetHistoricalPrices | src/services/PriceService.ts:49-64 | exactly the samples of the symbol no older than now minus the given days, in ascending timestamp order, each as many times as it is stored and no other sample |
| Prices.PriceService.WindowIsPositive | src/services/PriceService.ts:86-94 | every window of a store with positive prices holds positive prices, so each daily return divides by a positive price |
| Prices.PriceService.CalculateMovingAverage | src/services/PriceService.ts:67-76 | with an empty window, the current price (with its sample append); otherwise the mean of the window's prices with the store unchanged |
| Prices.PriceService.MovingAverageWithinWindow | src/services/PriceService.ts:73-75 | the moving average over a non-empty window lies between the lowest and highest stored price of the symbol |
| Prices.MeanBetween | src/services/PriceService.ts:74-75 | the mean of values within bounds lies within them |
| Prices.PriceService.DailyReturns | src/services/PriceService.ts:90-94 | the loop produces length − 1 returns (none for an empty window), each the relative change between consecutive prices |
| Prices.SquaredDeviations | src/services/PriceService.ts:98 | one non-negative squared deviation per return |
| Prices.Variance | src/services/PriceService.ts:97-98 | the variance is non-negative, and 0 for no returns |
| Prices.PriceService.AnalyzeRisk | src/services/PriceService.ts:79-122 | the analysis is the profile of the 30-day window's return variance, and the store gains the current-price fetch's sample, if any |
| Prices.PriceService.Classify | src/services/PriceService.ts:102-116 | the branch on the variance gives exactly the profile of its level: low with 10, medium with 20 or high with 30, each with its recommendation text |
| Prices.RiskThresholds | src/services/PriceService.ts:102-116 | below 0.03 low with 10, above 0.07 high with 30, otherwise medium with 20 |
| Prices.VarianceLevelIsVolatilityLevel | src/services/PriceService.ts:99-116 | classifying the variance against the squared thresholds gives the level of its non-negative square root |
| Prices.SquareOrder | src/services/PriceService.ts:99-116 | for non-negative values, comparing them is comparing their squares |
| Prices.FewPricesMeanLowRisk | src/services/PriceService.ts:90-116 | fewer than two prices give no returns, variance 0 and the low profile |
| Dca.Create | src/services/DCAService.ts:135-165 | the createPlan transition: the user check, the default user, the plan append and the schedule; its outcomes are stated by CreateRequiresUser, CreateStoresPlan and CreateRefusesTakenDefaultAddress |
| Dca.Stop | src/services/DCAService.ts:167-183 | the stopPlan transition: deactivate, save and cancel the job; its outcomes are stated by StopOutcome and StopIdempotent |
| Dca.Execute | src/services/DCAService.ts:53-126 | the executePlan transition for one firing; its outcomes are stated by ExecuteCompletes, ExecuteWithoutCompletion and ExecuteFaultAfterCompletion |
| Dca.Settle | src/services/DCAService.ts:83-103 | the writes after a successful send: the completed row, the plan save and the user increment, as far as the write faults let them go; stated by SettleIsolated, SettleKeepsWellFormed and SettleKeepsJobsBacked |
| Dca.RecordFailure | src/services/DCAService.ts:106-124 | the catch branch: the failed row appended when the store accepts it; stated by RecordFailureAppends and FailedRecordShape |
| Dca.Jobs | src/services/DCAService.ts:30-38 | the job map of a run of schedulable plans, each under its own id; stated by JobsSchedule and JobsExtend |
| Dca.Booted | src/services/DCAService.ts:30-38 | the job map the bootstrap leaves: the jobs of the active plans up to the first unschedulable one; stated by BootSchedulesActivePlans, BootStopsAtUnknownFrequency and BootKeepsWellFormed |
| Dca.TotalInvestment | src/services/DCAService.ts:189-195 | the sum of totalInvested over a user's plans; stated by TotalIsSumOverUserPlans, TotalInvestmentUpdate, TotalInvestmentAppend and NoPlansNoInvestment |
| Prices.VolatilityLevel | src/services/PriceService.ts:102-116 | the level of a volatility against 0.03 and 0.07; stated by RiskThresholds and VarianceLevelIsVolatilityLevel |
| Prices.Profile | src/services/PriceService.ts:102-116 | the level, recommendation text and suggested investment reported for each level; stated by RiskThresholds and Classify |
| Prices.Returns | src/services/PriceService.ts:90-94 | the relative change between consecutive prices, one per consecutive pair; stated by DailyReturns and FewPricesMeanLowRisk |
| Prices.Mean | src/services/PriceService.ts:74-75 | the average of a sequence of prices, 0 for none; stated by MeanBetween and MovingAverageWithinWindow |
| Seqs.SortByHeadIsLeast | src/services/PriceService.ts:34-36 | the first element of a sorted sequence is one of its elements, with the least key |
| Seqs.Filter | src/services/DCAService.ts:186 | the filter keeps exactly the elements satisfying the predicate, and never more copies of one than the input has |
| Seqs.FilterCount | src/services/DCAService.ts:186 | the filter keeps every copy of a satisfying element and no copy of any other |
| Seqs.FilterAppend | src/services/DCAService.ts:186 | filtering a concatenation is the concatenation of the filtered parts, so the filter keeps the input's order |
| Seqs.FilterSnoc | src/services/DCAService.ts:186 | filtering a sequence extended at the end extends the filtered sequence at the end exactly when the new element satisfies the predicate |
| Seqs.SortBy | src/services/PriceService.ts:63 | the sort is a permutation of its input, ordered by the key |

## Left out

- **Floating point.** Amounts, prices and totals are mathematical reals. So are `amount / price`, `toFixed` and the variance. The square root is not modelled. The classification compares the variance with the squared thresholds, and `VarianceLevelIsVolatilityLevel` proves this is the same as comparing the volatility (the variance's square root) with 0.03 and 0.07.
- **NaN and infinities.** Not modelled. The stored-price invariant (all prices positive) replaces the possibility of dividing by a zero price.
- **Store failures other than the two write faults.** Reads and the other writes always succeed. So these are not modelled: `getHistoricalPrices` returning `[]` on error, the `analyzeRisk` catch that reports medium risk with 20 and the message "Could not analyze risk. Using default medium risk profile.", the bootstrap query failing, and `createPlan`'s plan write failing.
- **The CoinGecko HTTP request and its response parsing.** Replaced by the `Quotes` function.
- **Chain executors.** Key handling, signing and broadcast are replaced by the `Executors` function. `TonPlugin` is not part of this model beyond its registry key.
- **node-cron timing.** Wall-clock boundaries, concurrent or overlapping firings, and an execution in flight while `stopPlan` runs are not modelled; a firing is a sequential `Tick` call. A stopped job's firing is not modelled because `Tick` requires a scheduled id.
- **Time within a tick.** One `now` stands for every `new Date()` of a tick, and calendar days stand for `setDate` with no daylight-saving shifts.
- **Ids.** Mongo ObjectIds and their casting (an invalid id string throwing) are replaced by plan ids that are store positions and user ids that are abstract strings. Each plan id has one spelling here, but in the code `stopPlan` removes the job under the raw id string (src/services/DCAService.ts:176-179) while `schedulePlan` files it under `plan._id.toString()` (src/services/DCAService.ts:131). So a differently written id that casts to the same ObjectId, such as upper-case hex, deactivates the plan but leaves its job firing; `StopOutcome`'s "removes only its job" holds for the canonical spelling only.
- **Tie order in sorts.** The order among rows with equal timestamps is left to a stable sort, where Mongo does not fix it.
- **The `InvestmentPlan` schema.** src/models/InvestmentPlan.ts is not part of this model. The plan record is the fields the service reads and writes, and `createPlan` applies no validation of its own to it. A new plan's `totalInvested = 0` and `lastExecutionTime = null` are assumed schema defaults, since `createPlan` does not set them.
- **Surrounding code.** The HTTP routes, the server bootstrap, the browser client and logging are not modelled.
- **Result order of store queries.** A query without a sort returns rows in store order (insertion order), which Mongo does not promise.
- Dca.DcaService.constructor: the bootstrap is an un-awaited async call (src/services/DCAService.ts:27), so in the code the constructor returns with an empty job map, and the plan query (src/services/DCAService.ts:32) resolves later. The model completes the bootstrap before any other operation. It does not capture what a `createPlan` or `stopPlan` run before that query resolves can cause. A plan created in that window can be scheduled twice: the second `cronJobs.set` replaces the first task in the map, but that task keeps firing and `stopPlan` cannot reach it. A plan stopped in that window can be scheduled again from the stale active read.
- Dca.ExecuteKeepsReconciled: proved without write faults only. With `PlanSaveFails` the completed row is in the ledger while the stored plan total is unchanged, so the stored total falls behind its ledger sum. With `UserUpdateFails` the plan total grows while the user total does not. `ExecuteFaultAfterCompletion` states both cases.
- Dca.ExecuteCompletes: stated for one tick. That N successful ticks invest N × amount follows by applying it N times; no lemma over runs of ticks is stated.
- Prices.ToLower: lowers only the ASCII letters A–Z. JavaScript's `toLowerCase` also lowers non-ASCII letters, and some of them change the length.
- Prices.TokenId: the unknown-symbol case inherits the ASCII-only lower-casing of `ToLower`. A symbol that names an `Object.prototype` member, such as `constructor`, makes the object-literal lookup return that member, not the lower-cased symbol; the model lower-cases such symbols like any other unknown one.
