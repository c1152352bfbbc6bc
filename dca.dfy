/**
 * The plan scheduler and execution engine: the executor registry, the map of live cron
 * jobs, plan creation and stopping, the restart bootstrap, the protocol one cron firing
 * runs, and the read queries over plans and the transaction ledger.
 *
 * Each operation is a transition of a `Store` (the three record sets, the price samples
 * and the job map); the `DcaService` class performs it step by step on its fields.
 */
module Dca {
  import opened Base
  import opened Models
  import opened Seqs
  import opened Prices

  // ---------------------------------------------------------------- executors

  /** The chain executors. */
  datatype Chain = Injective | Ton | Sonic

  /** The executor registry, keyed by token symbol. */
  const Registry: map<string, Chain> := map["INJ" := Injective, "TON" := Ton, "SONIC" := Sonic]

  /** One call of an executor's sendTransaction(amount, fromAddress, toAddress). */
  datatype SendRequest = SendRequest(executor: Chain, amount: real, fromAddress: string, toAddress: string)

  /** What sendTransaction settles to: the chain transaction hash, or a thrown error. */
  datatype SendOutcome = Sent(txHash: string) | SendFailed

  /** How the chains answer each request. */
  type Executors = SendRequest -> SendOutcome

  /** A store write after the completed transaction that throws: the plan save or the user increment. */
  datatype WriteFault = NoFault | PlanSaveFails | UserUpdateFails

  /** DEFAULT_USER_ID (None when unset) and PLATFORM_WALLET_ADDRESS ("" when unset). */
  datatype Env = Env(defaultUserId: Option<UserId>, platformWallet: string)

  // ---------------------------------------------------------------- cron

  /** The cron expression of a plan frequency. */
  function CronExpression(frequency: string): (r: Result<string, string>)
    ensures r.Err? <==> frequency !in {"minute", "hour", "day"}
    ensures r.Err? ==> r.error == "Invalid frequency"
  {
    match frequency
    case "minute" => Ok("* * * * *")
    case "hour" => Ok("0 * * * *")
    case "day" => Ok("0 0 * * *")
    case _ => Err("Invalid frequency")
  }

  /** The frequency a cron expression stands for, when it is one of the three. */
  function FrequencyOf(expression: string): Option<string> {
    if expression == "* * * * *" then Some("minute")
    else if expression == "0 * * * *" then Some("hour")
    else if expression == "0 0 * * *" then Some("day")
    else None
  }

  /** The three frequencies and their expressions are in one-to-one correspondence. */
  lemma CronRoundTrip(frequency: string, expression: string)
    ensures CronExpression(frequency) == Ok(expression) <==> FrequencyOf(expression) == Some(frequency)
  {
  }

  /** A scheduled job: its cron expression and the plan document its callback holds. */
  datatype Job = Job(expression: string, plan: Plan)

  /**
   * `job` is a live schedule of the stored plan `stored`: the plan is active, the
   * expression is that of its frequency, and the job's document agrees with the store
   * on everything but the two fields a tick writes.
   */
  ghost predicate Scheduled(job: Job, stored: Plan) {
    && stored.isActive
    && CronExpression(stored.frequency) == Ok(job.expression)
    && job.plan == stored.(totalInvested := job.plan.totalInvested, lastExecutionTime := job.plan.lastExecutionTime)
  }

  // ---------------------------------------------------------------- the store

  /** Plans (id = position), users, the transaction ledger, price samples and the cron-job map. */
  datatype Store = Store(
    plans: seq<Plan>,
    users: map<UserId, User>,
    transactions: seq<Transaction>,
    samples: seq<TokenPrice>,
    jobs: map<PlanId, Job>)

  ghost predicate WellFormed(s: Store) {
    && (forall i :: 0 <= i < |s.plans| ==> s.plans[i].id == i)
    && UniqueAddresses(s.users)
    && (forall id :: id in s.jobs ==> id < |s.plans| && Scheduled(s.jobs[id], s.plans[id]))
    && (forall t :: t in s.transactions && t.planId.Some? ==> t.planId.value < |s.plans|)
    && PositivePrices(s.samples)
  }

  /** The sum of `amount` over the completed transactions of plan `id`. */
  function CompletedSum(ledger: seq<Transaction>, id: PlanId): real {
    if ledger == [] then 0.0
    else (if ledger[0].status == Completed && ledger[0].planId == Some(id) then ledger[0].amount else 0.0)
         + CompletedSum(ledger[1..], id)
  }

  lemma {:induction false} CompletedSumAppend(a: seq<Transaction>, b: seq<Transaction>, id: PlanId)
    ensures CompletedSum(a + b, id) == CompletedSum(a, id) + CompletedSum(b, id)
  {
    if a == [] {
      assert a + b == b;
    } else {
      assert (a + b)[1..] == a[1..] + b;
      CompletedSumAppend(a[1..], b, id);
    }
  }

  /** The sum of `totalInvested` over the plans of a user. */
  function TotalInvestment(plans: seq<Plan>, userId: UserId): real {
    if plans == [] then 0.0
    else (if plans[0].userId == userId then plans[0].totalInvested else 0.0) + TotalInvestment(plans[1..], userId)
  }

  /** Changing one plan's total (not its owner) moves its owner's sum by the same amount, and no other sum. */
  lemma {:induction false} TotalInvestmentUpdate(plans: seq<Plan>, i: nat, p: Plan, userId: UserId)
    requires i < |plans| && p.userId == plans[i].userId
    ensures TotalInvestment(plans[i := p], userId) ==
      TotalInvestment(plans, userId) + (if p.userId == userId then p.totalInvested - plans[i].totalInvested else 0.0)
  {
    if i > 0 {
      assert plans[i := p][1..] == plans[1..][i - 1 := p];
      TotalInvestmentUpdate(plans[1..], i - 1, p, userId);
    } else {
      assert plans[i := p][1..] == plans[1..];
    }
  }

  lemma {:induction false} TotalInvestmentAppend(plans: seq<Plan>, p: Plan, userId: UserId)
    ensures TotalInvestment(plans + [p], userId) ==
      TotalInvestment(plans, userId) + (if p.userId == userId then p.totalInvested else 0.0)
  {
    if plans == [] {
      assert plans + [p] == [p];
    } else {
      assert (plans + [p])[1..] == plans[1..] + [p];
      TotalInvestmentAppend(plans[1..], p, userId);
    }
  }

  /**
   * The aggregates agree with the ledger: every plan's total is the sum of its completed
   * transactions and its owner exists, every job's document is the stored plan, and every
   * user's total is the sum over their plans.
   */
  ghost predicate Reconciled(s: Store) {
    && (forall i :: 0 <= i < |s.plans| ==>
          s.plans[i].userId in s.users && s.plans[i].totalInvested == CompletedSum(s.transactions, i))
    && (forall id :: id in s.jobs && id < |s.plans| ==> s.jobs[id].plan == s.plans[id])
    && (forall u :: u in s.users ==> s.users[u].totalInvested == TotalInvestment(s.plans, u))
  }

  /** Every job's in-memory total is the sum of its plan's completed transactions. */
  ghost predicate JobsBacked(s: Store) {
    forall id :: id in s.jobs ==> s.jobs[id].plan.totalInvested == CompletedSum(s.transactions, id)
  }

  // ---------------------------------------------------------------- createPlan

  datatype CreateError = UserNotFound | Refused(reason: ValidationError) | InvalidFrequency

  /** The address the default user is created with. */
  function DefaultAddress(env: Env): string {
    if env.platformWallet == "" then "default-address" else env.platformWallet
  }

  function DefaultUser(env: Env, users: map<UserId, User>, now: Time): Result<User, ValidationError> {
    NewUser(UserFields(Some(DefaultAddress(env)), Some(0.0)), users, now)
  }

  /**
   * createPlan: find the user, creating the default user if that is who is asked for;
   * persist the plan as active; then schedule it, which throws on an unknown frequency
   * after the plan is stored.
   */
  function Create(s: Store, env: Env, userId: UserId, tokenSymbol: string, amount: real, frequency: string,
                  toAddress: string, now: Time): (Store, Result<Plan, CreateError>)
  {
    if userId !in s.users && env.defaultUserId != Some(userId) then (s, Err(UserNotFound))
    else if userId !in s.users && DefaultUser(env, s.users, now).Err? then
      (s, Err(Refused(DefaultUser(env, s.users, now).error)))
    else
      var users := if userId in s.users then s.users else s.users[userId := DefaultUser(env, s.users, now).value];
      var plan := Plan(|s.plans|, userId, tokenSymbol, amount, frequency, toAddress, true, 0.0, None);
      var stored := s.(users := users, plans := s.plans + [plan]);
      match CronExpression(frequency)
      case Err(_) => (stored, Err(InvalidFrequency))
      case Ok(expression) => (stored.(jobs := stored.jobs[plan.id := Job(expression, plan)]), Ok(plan))
  }

  // ---------------------------------------------------------------- stopPlan

  /** stopPlan: deactivate a stored plan and drop its job; None for an unknown id. */
  function Stop(s: Store, planId: PlanId): (Store, Option<Plan>) {
    if planId >= |s.plans| then (s, None)
    else
      var stopped := s.plans[planId].(isActive := false);
      (s.(plans := s.plans[planId := stopped], jobs := s.jobs - {planId}), Some(stopped))
  }

  // ---------------------------------------------------------------- executePlan

  function FailedFields(plan: Plan, now: Time): TransactionFields {
    TransactionFields(Some(plan.id), Some(plan.userId), Some(plan.tokenSymbol), Some(plan.amount), Some(0.0),
                      Some(0.0), Some("failed"), Some("failed"), Some(now))
  }

  /** The failed transaction the catch block creates. */
  function FailedRecord(plan: Plan, now: Time): Result<Transaction, ValidationError> {
    NewTransaction(FailedFields(plan, now), now)
  }

  function CompletedFields(plan: Plan, price: Price, txHash: string, now: Time): TransactionFields {
    TransactionFields(Some(plan.id), Some(plan.userId), Some(plan.tokenSymbol), Some(plan.amount),
                      Some(plan.amount / price), Some(price as real), Some(txHash), Some("completed"), Some(now))
  }

  /** The completed transaction a successful send creates. */
  function CompletedRecord(plan: Plan, price: Price, txHash: string, now: Time): Result<Transaction, ValidationError> {
    NewTransaction(CompletedFields(plan, price, txHash, now), now)
  }

  /** What a transaction creation adds to the ledger: the record, or nothing when the store refuses it. */
  function Recorded(r: Result<Transaction, ValidationError>): seq<Transaction> {
    if r.Ok? then [r.value] else []
  }

  /** The failed record of a plan with a symbol: no tokens, no price, the `failed` hash. */
  lemma FailedRecordShape(plan: Plan, now: Time)
    ensures FailedRecord(plan, now).Ok? <==> plan.tokenSymbol != ""
    ensures FailedRecord(plan, now).Ok? ==>
      FailedRecord(plan, now).value ==
        Transaction(Some(plan.id), plan.userId, plan.tokenSymbol, plan.amount, 0.0, 0.0, "failed", Failed, now)
  {
    var r := FailedRecord(plan, now);
    if r.Ok? {
      StatusRoundTrip(r.value.status, "failed");
      assert StatusName(r.value.status) == "failed";
    }
  }

  /** The completed record: the plan's amount, amount / price tokens, the price and the hash. */
  lemma CompletedRecordShape(plan: Plan, price: Price, txHash: string, now: Time)
    ensures CompletedRecord(plan, price, txHash, now).Ok? <==> plan.tokenSymbol != "" && txHash != ""
    ensures CompletedRecord(plan, price, txHash, now).Ok? ==>
      CompletedRecord(plan, price, txHash, now).value ==
        Transaction(Some(plan.id), plan.userId, plan.tokenSymbol, plan.amount, plan.amount / price, price,
                    txHash, Completed, now)
  {
    var r := CompletedRecord(plan, price, txHash, now);
    if r.Ok? {
      StatusRoundTrip(r.value.status, "completed");
      assert StatusName(r.value.status) == "completed";
    }
  }

  /** The catch block: record a failed transaction, if the store takes it. */
  function RecordFailure(s: Store, plan: Plan, now: Time): Store {
    s.(transactions := s.transactions + Recorded(FailedRecord(plan, now)))
  }

  /** The plan document after a successful send. */
  function Executed(plan: Plan, now: Time): Plan {
    plan.(lastExecutionTime := Some(now), totalInvested := plan.totalInvested + plan.amount)
  }

  /** plan.save(): the two fields the tick changed reach the stored plan. */
  function Saved(stored: Plan, document: Plan): Plan {
    stored.(lastExecutionTime := document.lastExecutionTime, totalInvested := document.totalInvested)
  }

  /** The $inc of the user's total, with the update timestamp. */
  function Credited(user: User, amount: real, now: Time): User {
    user.(totalInvested := user.totalInvested + amount, updatedAt := now)
  }

  /** The send request of a tick: the plan's amount from the platform wallet to the plan's address. */
  function Request(env: Env, plan: Plan): SendRequest
    requires plan.tokenSymbol in Registry
  {
    SendRequest(Registry[plan.tokenSymbol], plan.amount, env.platformWallet, plan.toAddress)
  }

  /** The tick reaches the send: the user exists and the token has an executor. */
  predicate Resolves(s: Store, plan: Plan) {
    plan.userId in s.users && plan.tokenSymbol in Registry
  }

  /** The tick gets as far as a completed transaction in the ledger. */
  ghost predicate Completes(s: Store, env: Env, plan: Plan, quotes: Quotes, executors: Executors, now: Time)
    requires PositivePrices(s.samples)
  {
    && Resolves(s, plan)
    && executors(Request(env, plan)).Sent?
    && CompletedRecord(plan, CurrentPrice(s.samples, plan.tokenSymbol, quotes), executors(Request(env, plan)).txHash, now).Ok?
  }

  /** executePlan: one cron firing of the job of `planId`. */
  ghost function Execute(s: Store, env: Env, planId: PlanId, quotes: Quotes, executors: Executors,
                         fault: WriteFault, now: Time): Store
    requires WellFormed(s) && planId in s.jobs
  {
    var plan := s.jobs[planId].plan;
    if !Resolves(s, plan) then RecordFailure(s, plan, now)
    else
      var price := CurrentPrice(s.samples, plan.tokenSymbol, quotes);
      var fetched := s.(samples := s.samples + Appended(plan.tokenSymbol, quotes, now));
      var outcome := executors(Request(env, plan));
      if outcome.SendFailed? then RecordFailure(fetched, plan, now)
      else
        var completed := CompletedRecord(plan, price, outcome.txHash, now);
        if completed.Err? then RecordFailure(fetched, plan, now)
        else Settle(fetched, planId, plan, completed.value, fault, now)
  }

  /**
   * What executePlan does once the completed transaction is created: append it, update
   * the job's document, save the plan, credit the user; a write that throws ends in the
   * catch block.
   */
  function Settle(s: Store, planId: PlanId, plan: Plan, completed: Transaction, fault: WriteFault, now: Time): Store
    requires planId in s.jobs && planId < |s.plans| && plan.userId in s.users
  {
    var document := Executed(plan, now);
    var recorded := s.(transactions := s.transactions + [completed],
                       jobs := s.jobs[planId := Job(s.jobs[planId].expression, document)]);
    if fault == PlanSaveFails then RecordFailure(recorded, plan, now)
    else
      var saved := recorded.(plans := recorded.plans[planId := Saved(recorded.plans[planId], document)]);
      if fault == UserUpdateFails then RecordFailure(saved, plan, now)
      else saved.(users := saved.users[plan.userId := Credited(saved.users[plan.userId], plan.amount, now)])
  }

  // ---------------------------------------------------------------- bootstrap

  function ActivePlans(plans: seq<Plan>): (r: seq<Plan>)
    ensures forall p :: p in r <==> p in plans && p.isActive
  {
    Filter(plans, (p: Plan) => p.isActive)
  }

  /** Each active plan is listed as often as it is stored, and no inactive plan is listed. */
  lemma ActivePlansCount(plans: seq<Plan>)
    ensures forall p :: multiset(ActivePlans(plans))[p] == if p.isActive then multiset(plans)[p] else 0
  {
    FilterCount(plans, (q: Plan) => q.isActive);
  }

  /** The active plans come in store order: a plan stored last is listed last, when active. */
  lemma ActivePlansInStoreOrder(plans: seq<Plan>, p: Plan)
    ensures ActivePlans(plans + [p]) == ActivePlans(plans) + (if p.isActive then [p] else [])
  {
    FilterSnoc(plans, p, (q: Plan) => q.isActive);
  }

  /** The position of the first plan whose frequency has no cron expression, or the length. */
  function FirstUnschedulable(active: seq<Plan>): (k: nat)
    ensures k <= |active|
    ensures forall i :: 0 <= i < k ==> CronExpression(active[i].frequency).Ok?
    ensures k < |active| ==> CronExpression(active[k].frequency).Err?
  {
    if active == [] || CronExpression(active[0].frequency).Err? then 0
    else 1 + FirstUnschedulable(active[1..])
  }

  /** One job per plan of `active`, in order, each under its frequency's expression. */
  function Jobs(active: seq<Plan>): map<PlanId, Job>
    requires forall i :: 0 <= i < |active| ==> CronExpression(active[i].frequency).Ok?
  {
    if active == [] then map[]
    else
      var last := active[|active| - 1];
      Jobs(active[..|active| - 1])[last.id := Job(CronExpression(last.frequency).value, last)]
  }

  /** Each active plan is the stored plan under its own id. */
  lemma ActivePlansAreStored(plans: seq<Plan>)
    requires forall i :: 0 <= i < |plans| ==> plans[i].id == i
    ensures forall p :: p in ActivePlans(plans) ==> p.id < |plans| && plans[p.id] == p && p.isActive
  {
    forall p | p in ActivePlans(plans) ensures p.id < |plans| && plans[p.id] == p {
      var i :| 0 <= i < |plans| && plans[i] == p;
    }
  }

  /** Scheduling one more plan of the run adds its job under its id. */
  lemma JobsExtend(active: seq<Plan>, i: nat)
    requires i < |active| && forall j :: 0 <= j <= i ==> CronExpression(active[j].frequency).Ok?
    ensures Jobs(active[..i + 1]) ==
      Jobs(active[..i])[active[i].id := Job(CronExpression(active[i].frequency).value, active[i])]
  {
    assert active[..i + 1][..i] == active[..i];
  }

  /** Every plan of `active` has its job, and every job holds a plan of `active` under that plan's id. */
  lemma {:induction false} JobsSchedule(active: seq<Plan>)
    requires forall i :: 0 <= i < |active| ==> CronExpression(active[i].frequency).Ok?
    ensures forall p :: p in active ==> p.id in Jobs(active)
    ensures forall id :: id in Jobs(active) ==>
      && Jobs(active)[id].plan in active && Jobs(active)[id].plan.id == id
      && CronExpression(Jobs(active)[id].plan.frequency) == Ok(Jobs(active)[id].expression)
  {
    if active != [] {
      var front := active[..|active| - 1];
      JobsSchedule(front);
      assert active == front + [active[|active| - 1]];
    }
  }

  /**
   * `jobs` is what initializeExistingPlans leaves: one job for each active plan before the
   * first one whose frequency makes schedulePlan throw.
   */
  ghost predicate Booted(plans: seq<Plan>, jobs: map<PlanId, Job>) {
    var active := ActivePlans(plans);
    jobs == Jobs(active[..FirstUnschedulable(active)])
  }

  lemma {:induction false} FirstUnschedulableAt(active: seq<Plan>, k: nat)
    requires k <= |active| && forall i :: 0 <= i < k ==> CronExpression(active[i].frequency).Ok?
    requires k < |active| ==> CronExpression(active[k].frequency).Err?
    ensures FirstUnschedulable(active) == k
  {
    if k > 0 {
      FirstUnschedulableAt(active[1..], k - 1);
    }
  }

  // ---------------------------------------------------------------- queries

  /** getUserPlans. */
  function UserPlans(plans: seq<Plan>, userId: UserId): (r: seq<Plan>)
    ensures forall p :: p in r <==> p in plans && p.userId == userId
  {
    Filter(plans, (p: Plan) => p.userId == userId)
  }

  /** Each of the user's plans is listed as often as it is stored, and no other plan is listed. */
  lemma UserPlansCount(plans: seq<Plan>, userId: UserId)
    ensures forall p :: multiset(UserPlans(plans, userId))[p] == if p.userId == userId then multiset(plans)[p] else 0
  {
    FilterCount(plans, (q: Plan) => q.userId == userId);
  }

  /** A user's plans come in store order: a plan stored last is listed last, when it is the user's. */
  lemma UserPlansInStoreOrder(plans: seq<Plan>, p: Plan, userId: UserId)
    ensures UserPlans(plans + [p], userId) == UserPlans(plans, userId) + (if p.userId == userId then [p] else [])
  {
    FilterSnoc(plans, p, (q: Plan) => q.userId == userId);
  }

  function TotalsOf(plans: seq<Plan>): (r: seq<real>)
    ensures |r| == |plans|
  {
    if plans == [] then [] else [plans[0].totalInvested] + TotalsOf(plans[1..])
  }

  /** The aggregate getUserTotalInvestment runs is the sum of the totals of the plans getUserPlans lists. */
  lemma {:induction false} TotalIsSumOverUserPlans(plans: seq<Plan>, userId: UserId)
    ensures TotalInvestment(plans, userId) == Sum(TotalsOf(UserPlans(plans, userId)))
  {
    if plans != [] {
      TotalIsSumOverUserPlans(plans[1..], userId);
      assert plans == [plans[0]] + plans[1..];
    }
  }

  /** A user without plans has invested nothing. */
  lemma {:induction false} NoPlansNoInvestment(plans: seq<Plan>, userId: UserId)
    ensures (forall p :: p in plans ==> p.userId != userId) ==> TotalInvestment(plans, userId) == 0.0
  {
    if plans != [] {
      assert plans[0] in plans;
      assert forall p :: p in plans[1..] ==> p in plans;
      NoPlansNoInvestment(plans[1..], userId);
    }
  }

  function NewestFirst(t: Transaction): int {
    -t.timestamp
  }

  /** getPlanTransactions: the ledger entries of a plan, newest first. */
  function PlanTransactions(ledger: seq<Transaction>, planId: PlanId): (r: seq<Transaction>)
    ensures forall t :: t in r <==> t in ledger && t.planId == Some(planId)
    ensures forall i, j :: 0 <= i < j < |r| ==> r[i].timestamp >= r[j].timestamp
    ensures forall t :: multiset(r)[t] == if t.planId == Some(planId) then multiset(ledger)[t] else 0
  {
    var keep := (t: Transaction) => t.planId == Some(planId);
    var mine := Filter(ledger, keep);
    FilterCount(ledger, keep);
    SortByMembers(mine, NewestFirst);
    var r := SortBy(mine, NewestFirst);
    assert forall i, j :: 0 <= i < j < |r| ==> NewestFirst(r[i]) <= NewestFirst(r[j]);
    r
  }

  // ---------------------------------------------------------------- properties: ledger sums

  /** A plan id no ledger entry names has a completed sum of 0. */
  lemma {:induction false} CompletedSumOfUnusedId(ledger: seq<Transaction>, id: PlanId)
    requires forall t :: t in ledger && t.planId.Some? ==> t.planId.value < id
    ensures CompletedSum(ledger, id) == 0.0
  {
    if ledger != [] {
      assert ledger[0] in ledger;
      assert forall t :: t in ledger[1..] ==> t in ledger;
      CompletedSumOfUnusedId(ledger[1..], id);
    }
  }

  /** Appending one entry moves only the sum of the plan it completes. */
  lemma CompletedSumAppendOne(ledger: seq<Transaction>, t: Transaction, id: PlanId)
    ensures CompletedSum(ledger + [t], id) ==
      CompletedSum(ledger, id) + (if t.status == Completed && t.planId == Some(id) then t.amount else 0.0)
  {
    CompletedSumAppend(ledger, [t], id);
    assert CompletedSum([t], id) == (if t.status == Completed && t.planId == Some(id) then t.amount else 0.0) + CompletedSum([], id);
  }

  /** Recording a failure changes no completed sum. */
  lemma RecordFailureKeepsSums(ledger: seq<Transaction>, plan: Plan, now: Time, id: PlanId)
    ensures CompletedSum(ledger + Recorded(FailedRecord(plan, now)), id) == CompletedSum(ledger, id)
  {
    FailedRecordShape(plan, now);
    if FailedRecord(plan, now).Ok? {
      CompletedSumAppendOne(ledger, FailedRecord(plan, now).value, id);
    } else {
      assert ledger + Recorded(FailedRecord(plan, now)) == ledger;
    }
  }

  lemma ReconciledBacksJobs(s: Store)
    requires Reconciled(s) && forall id :: id in s.jobs ==> id < |s.plans|
    ensures JobsBacked(s)
  {
  }

  // ---------------------------------------------------------------- properties: createPlan

  /** An unknown user other than the default user is refused and nothing is written. */
  lemma CreateRequiresUser(s: Store, env: Env, userId: UserId, tokenSymbol: string, amount: real,
                           frequency: string, toAddress: string, now: Time)
    ensures Create(s, env, userId, tokenSymbol, amount, frequency, toAddress, now).1 == Err(UserNotFound)
        <==> userId !in s.users && env.defaultUserId != Some(userId)
    ensures Create(s, env, userId, tokenSymbol, amount, frequency, toAddress, now).1 == Err(UserNotFound) ==>
      Create(s, env, userId, tokenSymbol, amount, frequency, toAddress, now).0 == s
  {
  }

  /**
   * Past the user lookup the plan is stored, active, with no investment yet, and a missing
   * default user is created with a zero total; the job exists exactly when the frequency
   * has a cron expression, and a plan with an unknown frequency stays stored without one.
   */
  lemma CreateStoresPlan(s: Store, env: Env, userId: UserId, tokenSymbol: string, amount: real,
                         frequency: string, toAddress: string, now: Time)
    requires userId in s.users || (env.defaultUserId == Some(userId) && DefaultUser(env, s.users, now).Ok?)
    ensures var (t, r) := Create(s, env, userId, tokenSymbol, amount, frequency, toAddress, now);
      var plan := Plan(|s.plans|, userId, tokenSymbol, amount, frequency, toAddress, true, 0.0, None);
      && t.plans == s.plans + [plan]
      && t.transactions == s.transactions && t.samples == s.samples
      && t.users.Keys == s.users.Keys + {userId}
      && (forall u :: u in s.users ==> t.users[u] == s.users[u])
      && (userId !in s.users ==>
            t.users[userId].totalInvested == 0.0 && t.users[userId].address == DefaultAddress(env)
            && t.users[userId].createdAt == now)
      && (r.Ok? <==> frequency in {"minute", "hour", "day"})
      && (r.Ok? ==> r.value == plan && t.jobs == s.jobs[plan.id := Job(CronExpression(frequency).value, plan)])
      && (r.Err? ==> r.error == InvalidFrequency && t.jobs == s.jobs)
  {
  }

  /** A default user whose address is already taken is refused with the duplicate key. */
  lemma CreateRefusesTakenDefaultAddress(s: Store, env: Env, userId: UserId, tokenSymbol: string, amount: real,
                                         frequency: string, toAddress: string, now: Time)
    requires userId !in s.users && env.defaultUserId == Some(userId) && AddressTaken(s.users, DefaultAddress(env))
    ensures Create(s, env, userId, tokenSymbol, amount, frequency, toAddress, now) ==
      (s, Err(Refused(DuplicateKey("address"))))
  {
  }

  /** A created plan is listed by getUserPlans for its owner. */
  lemma CreatedPlanIsListed(s: Store, env: Env, userId: UserId, tokenSymbol: string, amount: real,
                            frequency: string, toAddress: string, now: Time)
    requires Create(s, env, userId, tokenSymbol, amount, frequency, toAddress, now).1.Ok?
    ensures var (t, r) := Create(s, env, userId, tokenSymbol, amount, frequency, toAddress, now);
      r.value in UserPlans(t.plans, userId) && r.value.isActive && r.value.totalInvested == 0.0
  {
  }

  lemma CreateKeepsWellFormed(s: Store, env: Env, userId: UserId, tokenSymbol: string, amount: real,
                              frequency: string, toAddress: string, now: Time)
    requires WellFormed(s)
    ensures WellFormed(Create(s, env, userId, tokenSymbol, amount, frequency, toAddress, now).0)
  {
    if userId in s.users || (env.defaultUserId == Some(userId) && DefaultUser(env, s.users, now).Ok?) {
      var t := Create(s, env, userId, tokenSymbol, amount, frequency, toAddress, now).0;
      var plan := Plan(|s.plans|, userId, tokenSymbol, amount, frequency, toAddress, true, 0.0, None);
      CreateStoresPlan(s, env, userId, tokenSymbol, amount, frequency, toAddress, now);
      if userId !in s.users {
        NewUserKeepsAddressesUnique(UserFields(Some(DefaultAddress(env)), Some(0.0)), s.users, userId, now);
        assert t.users == s.users[userId := DefaultUser(env, s.users, now).value];
      } else {
        assert t.users == s.users;
      }
      AddPlanKeepsWellFormed(s, t, plan);
    }
  }

  /** Appending a plan under the next id, with a job for it when its frequency is valid, keeps the store invariant. */
  lemma AddPlanKeepsWellFormed(s: Store, t: Store, plan: Plan)
    requires WellFormed(s) && plan.id == |s.plans| && plan.isActive
    requires t.plans == s.plans + [plan] && t.transactions == s.transactions && t.samples == s.samples
    requires UniqueAddresses(t.users)
    requires t.jobs == s.jobs || (CronExpression(plan.frequency).Ok? &&
                                  t.jobs == s.jobs[plan.id := Job(CronExpression(plan.frequency).value, plan)])
    ensures WellFormed(t)
  {
  }

  lemma CreateKeepsReconciled(s: Store, env: Env, userId: UserId, tokenSymbol: string, amount: real,
                              frequency: string, toAddress: string, now: Time)
    requires WellFormed(s) && Reconciled(s)
    ensures Reconciled(Create(s, env, userId, tokenSymbol, amount, frequency, toAddress, now).0)
  {
    var t := Create(s, env, userId, tokenSymbol, amount, frequency, toAddress, now).0;
    if userId in s.users || (env.defaultUserId == Some(userId) && DefaultUser(env, s.users, now).Ok?) {
      var plan := Plan(|s.plans|, userId, tokenSymbol, amount, frequency, toAddress, true, 0.0, None);
      CreateStoresPlan(s, env, userId, tokenSymbol, amount, frequency, toAddress, now);
      AddPlanKeepsReconciled(s, t, plan);
    }
  }

  /** In a reconciled store every plan's owner is a stored user. */
  lemma OwnersAreUsers(s: Store)
    requires Reconciled(s)
    ensures forall p :: p in s.plans ==> p.userId in s.users
  {
    forall p | p in s.plans ensures p.userId in s.users {
      var i :| 0 <= i < |s.plans| && s.plans[i] == p;
    }
  }

  /**
   * Appending a plan with no investment yet, and with it possibly a new owner with no
   * investment and a job for it, keeps the store reconciled.
   */
  lemma AddPlanKeepsReconciled(s: Store, t: Store, plan: Plan)
    requires Reconciled(s)
    requires forall id :: id in s.jobs ==> id < |s.plans|
    requires forall tx :: tx in s.transactions && tx.planId.Some? ==> tx.planId.value < |s.plans|
    requires plan.id == |s.plans| && plan.totalInvested == 0.0
    requires t.plans == s.plans + [plan] && t.transactions == s.transactions
    requires t.users.Keys == s.users.Keys + {plan.userId}
    requires forall u :: u in s.users ==> t.users[u] == s.users[u]
    requires plan.userId !in s.users ==> t.users[plan.userId].totalInvested == 0.0
    requires forall id :: id in t.jobs ==>
      (id in s.jobs && t.jobs[id] == s.jobs[id]) || (id == plan.id && t.jobs[id].plan == plan)
    ensures Reconciled(t)
  {
    CompletedSumOfUnusedId(s.transactions, |s.plans|);
    assert forall i :: 0 <= i < |t.plans| ==>
      t.plans[i].userId in t.users && t.plans[i].totalInvested == CompletedSum(t.transactions, i);
    OwnersAreUsers(s);
    forall u | u in t.users
      ensures t.users[u].totalInvested == TotalInvestment(t.plans, u)
    {
      TotalInvestmentAppend(s.plans, plan, u);
      if u !in s.users {
        NoPlansNoInvestment(s.plans, u);
      }
    }
  }

  // ---------------------------------------------------------------- properties: stopPlan

  /** stopPlan answers None for an unknown id; otherwise it deactivates that plan and removes only its job. */
  lemma StopOutcome(s: Store, planId: PlanId)
    ensures Stop(s, planId).1.None? <==> planId >= |s.plans|
    ensures planId >= |s.plans| ==> Stop(s, planId).0 == s
    ensures planId < |s.plans| ==>
      var t := Stop(s, planId).0;
      && Stop(s, planId).1 == Some(t.plans[planId])
      && !t.plans[planId].isActive
      && t.plans[planId].(isActive := true) == s.plans[planId].(isActive := true)
      && |t.plans| == |s.plans| && (forall i :: 0 <= i < |s.plans| && i != planId ==> t.plans[i] == s.plans[i])
      && planId !in t.jobs && (forall id :: id in s.jobs && id != planId ==> id in t.jobs && t.jobs[id] == s.jobs[id])
      && t.users == s.users && t.transactions == s.transactions && t.samples == s.samples
  {
  }

  /** Stopping twice is stopping once. */
  lemma StopIdempotent(s: Store, planId: PlanId)
    ensures Stop(Stop(s, planId).0, planId) == Stop(s, planId)
  {
    var (t, r) := Stop(s, planId);
    if planId < |s.plans| {
      assert t.plans[planId := t.plans[planId].(isActive := false)] == t.plans;
      assert t.jobs - {planId} == t.jobs;
    }
  }

  lemma StopKeepsWellFormed(s: Store, planId: PlanId)
    requires WellFormed(s)
    ensures WellFormed(Stop(s, planId).0)
  {
  }

  lemma StopKeepsReconciled(s: Store, planId: PlanId)
    requires Reconciled(s)
    ensures Reconciled(Stop(s, planId).0)
  {
    if planId < |s.plans| {
      var t := Stop(s, planId).0;
      forall u | u in t.users
        ensures t.users[u].totalInvested == TotalInvestment(t.plans, u)
      {
        TotalInvestmentUpdate(s.plans, planId, t.plans[planId], u);
      }
    }
  }

  /**
   * A tick is confined to its own plan: no other plan, job or user changes, the plan
   * keeps its job and stays active, and the ledger only grows.
   */
  lemma ExecuteIsolated(s: Store, env: Env, planId: PlanId, quotes: Quotes, executors: Executors,
                        fault: WriteFault, now: Time)
    requires WellFormed(s) && planId in s.jobs
    ensures var t := Execute(s, env, planId, quotes, executors, fault, now);
      var plan := s.jobs[planId].plan;
      && |t.plans| == |s.plans| && (forall i :: 0 <= i < |s.plans| && i != planId ==> t.plans[i] == s.plans[i])
      && t.plans[planId].isActive
      && t.jobs.Keys == s.jobs.Keys && (forall id :: id in s.jobs && id != planId ==> t.jobs[id] == s.jobs[id])
      && t.users.Keys == s.users.Keys && (forall u :: u in s.users && u != plan.userId ==> t.users[u] == s.users[u])
      && |s.transactions| <= |t.transactions| && t.transactions[..|s.transactions|] == s.transactions
  {
    var plan := s.jobs[planId].plan;
    JobNamesItsPlan(s, planId);
    if !Resolves(s, plan) {
      RecordFailureAppends(s, plan, now);
      return;
    }
    var price := CurrentPrice(s.samples, plan.tokenSymbol, quotes);
    var fetched := s.(samples := s.samples + Appended(plan.tokenSymbol, quotes, now));
    var outcome := executors(Request(env, plan));
    if outcome.SendFailed? || CompletedRecord(plan, price, outcome.txHash, now).Err? {
      RecordFailureAppends(fetched, plan, now);
      return;
    }
    SettleIsolated(fetched, planId, plan, CompletedRecord(plan, price, outcome.txHash, now).value, fault, now);
  }

  /** Recording a failure only appends to the ledger. */
  lemma RecordFailureAppends(s: Store, plan: Plan, now: Time)
    ensures var t := RecordFailure(s, plan, now);
      && t.plans == s.plans && t.users == s.users && t.jobs == s.jobs
      && |s.transactions| <= |t.transactions| && t.transactions[..|s.transactions|] == s.transactions
  {
    var t := RecordFailure(s, plan, now);
    assert t.transactions[..|s.transactions|] == s.transactions;
  }

  /** The writes after the completed row touch only the tick's plan, its job and its owner, and only append to the ledger. */
  lemma SettleIsolated(s: Store, planId: PlanId, plan: Plan, completed: Transaction, fault: WriteFault, now: Time)
    requires planId in s.jobs && planId < |s.plans| && plan.userId in s.users
    ensures var t := Settle(s, planId, plan, completed, fault, now);
      && |t.plans| == |s.plans| && (forall i :: 0 <= i < |s.plans| && i != planId ==> t.plans[i] == s.plans[i])
      && t.plans[planId].isActive == s.plans[planId].isActive
      && t.jobs.Keys == s.jobs.Keys && (forall id :: id in s.jobs && id != planId ==> t.jobs[id] == s.jobs[id])
      && t.users.Keys == s.users.Keys && (forall u :: u in s.users && u != plan.userId ==> t.users[u] == s.users[u])
      && |s.transactions| <= |t.transactions| && t.transactions[..|s.transactions|] == s.transactions
  {
    var document := Executed(plan, now);
    var recorded := s.(transactions := s.transactions + [completed],
                       jobs := s.jobs[planId := Job(s.jobs[planId].expression, document)]);
    assert recorded.transactions[..|s.transactions|] == s.transactions;
    assert recorded.jobs.Keys == s.jobs.Keys;
    RecordFailureAppends(recorded, plan, now);
    if fault == PlanSaveFails {
      return;
    }
    var saved := recorded.(plans := recorded.plans[planId := Saved(recorded.plans[planId], document)]);
    RecordFailureAppends(saved, plan, now);
    if fault == UserUpdateFails {
      return;
    }
    assert s.users[plan.userId := Credited(s.users[plan.userId], plan.amount, now)].Keys == s.users.Keys;
  }

  // ---------------------------------------------------------------- properties: bootstrap

  /** When every active plan has a known frequency, the bootstrap schedules exactly the active plans, as stored. */
  lemma BootSchedulesActivePlans(plans: seq<Plan>, jobs: map<PlanId, Job>)
    requires forall i :: 0 <= i < |plans| ==> plans[i].id == i
    requires forall p :: p in plans && p.isActive ==> CronExpression(p.frequency).Ok?
    requires Booted(plans, jobs)
    ensures jobs.Keys == set id | 0 <= id < |plans| && plans[id].isActive
    ensures forall id :: id in jobs ==> id < |plans| && jobs[id].plan == plans[id] && Scheduled(jobs[id], plans[id])
  {
    var active := ActivePlans(plans);
    var k := FirstUnschedulable(active);
    FirstUnschedulableAt(active, |active|);
    assert active[..k] == active;
    BootCoversActive(plans, jobs);
    BootKeepsWellFormed(Store(plans, map[], [], [], jobs));
  }

  /** Under the same conditions, every active plan gets a job. */
  lemma BootCoversActive(plans: seq<Plan>, jobs: map<PlanId, Job>)
    requires forall i :: 0 <= i < |plans| ==> plans[i].id == i
    requires ActivePlans(plans)[..FirstUnschedulable(ActivePlans(plans))] == ActivePlans(plans)
    requires Booted(plans, jobs)
    ensures forall id :: 0 <= id < |plans| && plans[id].isActive ==> id in jobs
  {
    var active := ActivePlans(plans);
    JobsSchedule(active);
    forall id | 0 <= id < |plans| && plans[id].isActive ensures id in jobs {
      assert plans[id] in active;
    }
  }

  /** Whatever the frequencies, the jobs the bootstrap leaves schedule stored, active plans as they are stored. */
  lemma BootKeepsWellFormed(s: Store)
    requires forall i :: 0 <= i < |s.plans| ==> s.plans[i].id == i
    requires Booted(s.plans, s.jobs)
    ensures forall id :: id in s.jobs ==> id < |s.plans| && s.jobs[id].plan == s.plans[id] && Scheduled(s.jobs[id], s.plans[id])
  {
    var active := ActivePlans(s.plans);
    var k := FirstUnschedulable(active);
    var prefix := active[..k];
    JobsSchedule(prefix);
    forall id | id in s.jobs
      ensures id < |s.plans| && s.jobs[id].plan == s.plans[id] && Scheduled(s.jobs[id], s.plans[id])
    {
      assert s.jobs[id].plan in active;
      var i :| 0 <= i < |s.plans| && s.plans[i] == s.jobs[id].plan;
    }
  }

  lemma BootedIsWellFormed(s: Store)
    requires WellFormed(s.(jobs := map[])) && Booted(s.plans, s.jobs)
    ensures WellFormed(s)
  {
    BootKeepsWellFormed(s);
  }

  /** An active plan with an unknown frequency stops the bootstrap: the active plan after it gets no job. */
  lemma BootStopsAtUnknownFrequency(first: Plan, second: Plan, jobs: map<PlanId, Job>)
    requires first.id == 0 && second.id == 1 && first.isActive && second.isActive
    requires first.frequency == "week" && second.frequency == "hour"
    requires Booted([first, second], jobs)
    ensures jobs == map[]
  {
    var active := ActivePlans([first, second]);
    assert first in active;
    FirstUnschedulableAt(active, 0);
  }

  // ---------------------------------------------------------------- properties: executePlan

  lemma AppendedKeepsPositive(samples: seq<TokenPrice>, symbol: string, quotes: Quotes, now: Time)
    requires PositivePrices(samples)
    ensures PositivePrices(samples + Appended(symbol, quotes, now))
  {
    var a := Appended(symbol, quotes, now);
    forall x | x in a ensures x.price > 0.0 {
      assert x == a[0];
    }
  }

  /** The job's document is the plan it schedules. */
  lemma JobNamesItsPlan(s: Store, planId: PlanId)
    requires WellFormed(s) && planId in s.jobs
    ensures s.jobs[planId].plan.id == planId && planId < |s.plans|
  {
    assert s.jobs[planId].plan.id == s.plans[planId].id;
  }

  /**
   * A tick that does not reach a completed transaction (unknown user, no executor, a
   * failed send or a refused record) writes one failed row and touches no plan, user
   * or job.
   */
  lemma ExecuteWithoutCompletion(s: Store, env: Env, planId: PlanId, quotes: Quotes, executors: Executors,
                                 fault: WriteFault, now: Time)
    requires WellFormed(s) && planId in s.jobs
    requires !Completes(s, env, s.jobs[planId].plan, quotes, executors, now)
    ensures var t := Execute(s, env, planId, quotes, executors, fault, now);
      var plan := s.jobs[planId].plan;
      && t.plans == s.plans && t.users == s.users && t.jobs == s.jobs
      && t.samples == s.samples + (if Resolves(s, plan) then Appended(plan.tokenSymbol, quotes, now) else [])
      && (plan.tokenSymbol != "" ==>
            t.transactions == s.transactions +
              [Transaction(Some(planId), plan.userId, plan.tokenSymbol, plan.amount, 0.0, 0.0, "failed", Failed, now)])
      && (plan.tokenSymbol == "" ==> t.transactions == s.transactions)
  {
    var plan := s.jobs[planId].plan;
    JobNamesItsPlan(s, planId);
    FailedRecordShape(plan, now);
    if plan.tokenSymbol == "" {
      assert Recorded(FailedRecord(plan, now)) == [];
    }
  }

  /**
   * A tick with a completed send and no write fault: the completed row first, then the
   * plan's total and last execution time, then the user's total.
   */
  lemma ExecuteCompletes(s: Store, env: Env, planId: PlanId, quotes: Quotes, executors: Executors, now: Time)
    requires WellFormed(s) && planId in s.jobs
    requires Completes(s, env, s.jobs[planId].plan, quotes, executors, now)
    ensures var t := Execute(s, env, planId, quotes, executors, NoFault, now);
      var plan := s.jobs[planId].plan;
      var price := CurrentPrice(s.samples, plan.tokenSymbol, quotes);
      var hash := executors(Request(env, plan)).txHash;
      && t.transactions == s.transactions +
           [Transaction(Some(planId), plan.userId, plan.tokenSymbol, plan.amount, plan.amount / price, price,
                        hash, Completed, now)]
      && |t.plans| == |s.plans|
      && t.plans[planId] == s.plans[planId].(totalInvested := plan.totalInvested + plan.amount, lastExecutionTime := Some(now))
      && (forall i :: 0 <= i < |s.plans| && i != planId ==> t.plans[i] == s.plans[i])
      && t.users == s.users[plan.userId := Credited(s.users[plan.userId], plan.amount, now)]
      && t.jobs == s.jobs[planId := Job(s.jobs[planId].expression, Executed(plan, now))]
      && t.samples == s.samples + Appended(plan.tokenSymbol, quotes, now)
  {
    var plan := s.jobs[planId].plan;
    JobNamesItsPlan(s, planId);
    CompletedRecordShape(plan, CurrentPrice(s.samples, plan.tokenSymbol, quotes), executors(Request(env, plan)).txHash, now);
  }

  /**
   * A write that throws after the completed row is in the ledger: the catch adds a failed
   * row beside it, the job's document keeps the new total, and the user is not credited.
   */
  lemma ExecuteFaultAfterCompletion(s: Store, env: Env, planId: PlanId, quotes: Quotes, executors: Executors,
                                    fault: WriteFault, now: Time)
    requires WellFormed(s) && planId in s.jobs && fault != NoFault
    requires Completes(s, env, s.jobs[planId].plan, quotes, executors, now)
    ensures var t := Execute(s, env, planId, quotes, executors, fault, now);
      var plan := s.jobs[planId].plan;
      var price := CurrentPrice(s.samples, plan.tokenSymbol, quotes);
      var hash := executors(Request(env, plan)).txHash;
      && t.transactions == s.transactions +
           [Transaction(Some(planId), plan.userId, plan.tokenSymbol, plan.amount, plan.amount / price, price,
                        hash, Completed, now),
            Transaction(Some(planId), plan.userId, plan.tokenSymbol, plan.amount, 0.0, 0.0, "failed", Failed, now)]
      && t.users == s.users
      && t.jobs == s.jobs[planId := Job(s.jobs[planId].expression, Executed(plan, now))]
      && (fault == PlanSaveFails ==> t.plans == s.plans)
      && (fault == UserUpdateFails ==> t.plans == s.plans[planId := Saved(s.plans[planId], Executed(plan, now))])
  {
    var plan := s.jobs[planId].plan;
    JobNamesItsPlan(s, planId);
    FailedRecordShape(plan, now);
    CompletedRecordShape(plan, CurrentPrice(s.samples, plan.tokenSymbol, quotes), executors(Request(env, plan)).txHash, now);
  }

  lemma RecordFailureKeepsWellFormed(s: Store, plan: Plan, now: Time)
    requires WellFormed(s) && plan.id < |s.plans|
    ensures WellFormed(RecordFailure(s, plan, now))
  {
    FailedRecordShape(plan, now);
  }

  lemma ExecuteKeepsWellFormed(s: Store, env: Env, planId: PlanId, quotes: Quotes, executors: Executors,
                               fault: WriteFault, now: Time)
    requires WellFormed(s) && planId in s.jobs
    ensures WellFormed(Execute(s, env, planId, quotes, executors, fault, now))
  {
    var plan := s.jobs[planId].plan;
    JobNamesItsPlan(s, planId);
    if !Resolves(s, plan) {
      RecordFailureKeepsWellFormed(s, plan, now);
      return;
    }
    var price := CurrentPrice(s.samples, plan.tokenSymbol, quotes);
    var fetched := s.(samples := s.samples + Appended(plan.tokenSymbol, quotes, now));
    AppendedKeepsPositive(s.samples, plan.tokenSymbol, quotes, now);
    assert WellFormed(fetched);
    var outcome := executors(Request(env, plan));
    if outcome.SendFailed? || CompletedRecord(plan, price, outcome.txHash, now).Err? {
      RecordFailureKeepsWellFormed(fetched, plan, now);
      return;
    }
    CompletedRecordShape(plan, price, outcome.txHash, now);
    SettleKeepsWellFormed(fetched, planId, plan, CompletedRecord(plan, price, outcome.txHash, now).value, fault, now);
  }

  /** Recording the completed row and then saving the plan and crediting the user, as far as the writes get, keeps the store invariant. */
  lemma SettleKeepsWellFormed(s: Store, planId: PlanId, plan: Plan, completed: Transaction, fault: WriteFault, now: Time)
    requires WellFormed(s) && planId in s.jobs && plan == s.jobs[planId].plan && plan.userId in s.users
    requires completed.planId == Some(planId)
    ensures planId < |s.plans|
    ensures WellFormed(Settle(s, planId, plan, completed, fault, now))
  {
    var document := Executed(plan, now);
    var recorded := s.(transactions := s.transactions + [completed],
                       jobs := s.jobs[planId := Job(s.jobs[planId].expression, document)]);
    assert Scheduled(recorded.jobs[planId], recorded.plans[planId]);
    assert WellFormed(recorded);
    if fault == PlanSaveFails {
      RecordFailureKeepsWellFormed(recorded, plan, now);
      return;
    }
    var saved := recorded.(plans := recorded.plans[planId := Saved(recorded.plans[planId], document)]);
    assert Scheduled(saved.jobs[planId], saved.plans[planId]);
    assert WellFormed(saved);
    if fault == UserUpdateFails {
      RecordFailureKeepsWellFormed(saved, plan, now);
      return;
    }
    SameAddressesKeepUnique(s.users, plan.userId, Credited(s.users[plan.userId], plan.amount, now));
  }

  /** Every tick, whatever write fails, keeps each job's in-memory total equal to its plan's completed sum. */
  lemma ExecuteKeepsJobsBacked(s: Store, env: Env, planId: PlanId, quotes: Quotes, executors: Executors,
                               fault: WriteFault, now: Time)
    requires WellFormed(s) && planId in s.jobs && JobsBacked(s)
    ensures JobsBacked(Execute(s, env, planId, quotes, executors, fault, now))
  {
    var plan := s.jobs[planId].plan;
    JobNamesItsPlan(s, planId);
    if !Resolves(s, plan) {
      RecordFailureKeepsJobsBacked(s, plan, now);
      return;
    }
    var price := CurrentPrice(s.samples, plan.tokenSymbol, quotes);
    var fetched := s.(samples := s.samples + Appended(plan.tokenSymbol, quotes, now));
    var outcome := executors(Request(env, plan));
    if outcome.SendFailed? || CompletedRecord(plan, price, outcome.txHash, now).Err? {
      RecordFailureKeepsJobsBacked(fetched, plan, now);
      return;
    }
    CompletedRecordShape(plan, price, outcome.txHash, now);
    SettleKeepsJobsBacked(fetched, planId, plan, CompletedRecord(plan, price, outcome.txHash, now).value, fault, now);
  }

  /** A failed row leaves every job's total backed by the ledger. */
  lemma RecordFailureKeepsJobsBacked(s: Store, plan: Plan, now: Time)
    requires JobsBacked(s)
    ensures JobsBacked(RecordFailure(s, plan, now))
  {
    forall id | id in s.jobs
      ensures s.jobs[id].plan.totalInvested == CompletedSum(RecordFailure(s, plan, now).transactions, id)
    {
      RecordFailureKeepsSums(s.transactions, plan, now, id);
    }
  }

  /** The completed row and the job's increment by the same amount keep every job's total backed, whichever write fails next. */
  lemma SettleKeepsJobsBacked(s: Store, planId: PlanId, plan: Plan, completed: Transaction, fault: WriteFault, now: Time)
    requires JobsBacked(s) && planId in s.jobs && planId < |s.plans| && plan.userId in s.users
    requires plan == s.jobs[planId].plan
    requires completed.status == Completed && completed.planId == Some(planId) && completed.amount == plan.amount
    ensures JobsBacked(Settle(s, planId, plan, completed, fault, now))
  {
    var document := Executed(plan, now);
    var recorded := s.(transactions := s.transactions + [completed],
                       jobs := s.jobs[planId := Job(s.jobs[planId].expression, document)]);
    forall id | id in recorded.jobs
      ensures recorded.jobs[id].plan.totalInvested == CompletedSum(recorded.transactions, id)
    {
      CompletedSumAppendOne(s.transactions, completed, id);
    }
    RecordFailureKeepsJobsBacked(recorded, plan, now);
    var saved := recorded.(plans := recorded.plans[planId := Saved(recorded.plans[planId], document)]);
    RecordFailureKeepsJobsBacked(saved, plan, now);
  }

  /**
   * A completed row for a plan, followed by the plan's and its owner's increments by the
   * plan's amount, keeps the store reconciled.
   */
  lemma CompletionKeepsReconciled(s: Store, t: Store, planId: PlanId, completed: Transaction, now: Time)
    requires Reconciled(s) && planId < |s.plans| && planId in s.jobs
    requires completed.status == Completed && completed.planId == Some(planId)
    requires completed.amount == s.plans[planId].amount
    requires t.transactions == s.transactions + [completed]
    requires |t.plans| == |s.plans| && t.plans[planId] == Executed(s.plans[planId], now)
    requires forall i :: 0 <= i < |s.plans| && i != planId ==> t.plans[i] == s.plans[i]
    requires t.users == s.users[s.plans[planId].userId := Credited(s.users[s.plans[planId].userId], completed.amount, now)]
    requires t.jobs == s.jobs[planId := Job(s.jobs[planId].expression, Executed(s.plans[planId], now))]
    ensures Reconciled(t)
  {
    var plan := s.plans[planId];
    forall i | 0 <= i < |t.plans|
      ensures t.plans[i].userId in t.users && t.plans[i].totalInvested == CompletedSum(t.transactions, i)
    {
      CompletedSumAppendOne(s.transactions, completed, i);
    }
    assert t.plans == s.plans[planId := t.plans[planId]];
    forall u | u in t.users
      ensures t.users[u].totalInvested == TotalInvestment(t.plans, u)
    {
      TotalInvestmentUpdate(s.plans, planId, t.plans[planId], u);
    }
  }

  /** A tick without a write fault keeps the store reconciled. */
  lemma ExecuteKeepsReconciled(s: Store, env: Env, planId: PlanId, quotes: Quotes, executors: Executors, now: Time)
    requires WellFormed(s) && planId in s.jobs && Reconciled(s)
    ensures Reconciled(Execute(s, env, planId, quotes, executors, NoFault, now))
  {
    var t := Execute(s, env, planId, quotes, executors, NoFault, now);
    var plan := s.jobs[planId].plan;
    JobNamesItsPlan(s, planId);
    assert plan == s.plans[planId];
    if Completes(s, env, plan, quotes, executors, now) {
      ExecuteCompletes(s, env, planId, quotes, executors, now);
      CompletionKeepsReconciled(s, t, planId, t.transactions[|s.transactions|], now);
    } else {
      ExecuteWithoutCompletion(s, env, planId, quotes, executors, NoFault, now);
      forall i | 0 <= i < |t.plans| ensures t.plans[i].totalInvested == CompletedSum(t.transactions, i) {
        RecordFailureKeepsSums(s.transactions, plan, now, i);
      }
    }
  }

  /** The bootstrap leaves a reconciled store reconciled: it schedules stored plans as they are. */
  lemma BootKeepsReconciled(s: Store)
    requires forall i :: 0 <= i < |s.plans| ==> s.plans[i].id == i
    requires Booted(s.plans, s.jobs) && Reconciled(s.(jobs := map[]))
    ensures Reconciled(s)
  {
    BootKeepsWellFormed(s);
  }

  // ---------------------------------------------------------------- the service

  class DcaService {
    /** The executor registry. */
    const plugins: map<string, Chain>
    const priceService: PriceService
    const env: Env
    /** The InvestmentPlan collection; a plan's id is its position. */
    var plans: seq<Plan>
    var users: map<UserId, User>
    /** The Transaction collection, append-only. */
    var transactions: seq<Transaction>
    /** The scheduled jobs, keyed by plan id. */
    var cronJobs: map<PlanId, Job>

    ghost function Snapshot(): Store
      reads this, priceService
    {
      Store(plans, users, transactions, priceService.samples, cronJobs)
    }

    ghost predicate Valid()
      reads this, priceService
    {
      plugins == Registry && WellFormed(Snapshot())
    }

    /** The service over the stored records: the registry, then the bootstrap of the active plans. */
    constructor (storedPlans: seq<Plan>, storedUsers: map<UserId, User>, storedTransactions: seq<Transaction>,
                 storedSamples: seq<TokenPrice>, env: Env)
      requires WellFormed(Store(storedPlans, storedUsers, storedTransactions, storedSamples, map[]))
      ensures Valid() && fresh(priceService) && this.env == env
      ensures plans == storedPlans && users == storedUsers && transactions == storedTransactions
      ensures priceService.samples == storedSamples
      ensures Booted(storedPlans, cronJobs)
    {
      plugins := Registry;
      priceService := new PriceService(storedSamples);
      this.env := env;
      plans := storedPlans;
      users := storedUsers;
      transactions := storedTransactions;
      cronJobs := map[];
      new;
      InitializeExistingPlans();
      BootedIsWellFormed(Snapshot());
    }

    /**
     * initializeExistingPlans: schedule each active plan in store order; the first
     * frequency without a cron expression throws out of the loop.
     */
    method InitializeExistingPlans()
      requires cronJobs == map[] && forall i :: 0 <= i < |plans| ==> plans[i].id == i
      modifies this`cronJobs
      ensures Booted(plans, cronJobs)
    {
      var activePlans := ActivePlans(plans);
      ActivePlansAreStored(plans);
      ghost var stop := FirstUnschedulable(activePlans);
      var i := 0;
      while i < |activePlans|
        invariant i <= stop
        invariant cronJobs == Jobs(activePlans[..i])
      {
        assert activePlans[i] in activePlans;
        var scheduled := SchedulePlan(activePlans[i]);
        if scheduled.Err? {
          break;
        }
        JobsExtend(activePlans, i);
        i := i + 1;
      }
      assert i == stop;
    }

    /** schedulePlan: a job for the plan under its frequency's expression, or the frequency error and no job. */
    method SchedulePlan(plan: Plan) returns (scheduled: Result<string, string>)
      requires plan.id < |plans| && plans[plan.id] == plan && plan.isActive
      modifies this`cronJobs
      ensures scheduled == CronExpression(plan.frequency)
      ensures scheduled.Ok? ==> cronJobs == old(cronJobs)[plan.id := Job(scheduled.value, plan)]
      ensures scheduled.Err? ==> cronJobs == old(cronJobs)
    {
      scheduled := CronExpression(plan.frequency);
      if scheduled.Err? {
        return;
      }
      cronJobs := cronJobs[plan.id := Job(scheduled.value, plan)];
    }

    /** createPlan. */
    method CreatePlan(userId: UserId, tokenSymbol: string, amount: real, frequency: string, toAddress: string,
                      now: Time) returns (r: Result<Plan, CreateError>)
      requires Valid()
      modifies this`plans, this`users, this`cronJobs
      ensures Valid()
      ensures (Snapshot(), r) == Create(old(Snapshot()), env, userId, tokenSymbol, amount, frequency, toAddress, now)
    {
      CreateKeepsWellFormed(Snapshot(), env, userId, tokenSymbol, amount, frequency, toAddress, now);
      if userId !in users && env.defaultUserId == Some(userId) {
        var created := DefaultUser(env, users, now);
        if created.Err? {
          return Err(Refused(created.error));
        }
        users := users[userId := created.value];
      }
      if userId !in users {
        return Err(UserNotFound);
      }
      var plan := Plan(|plans|, userId, tokenSymbol, amount, frequency, toAddress, true, 0.0, None);
      plans := plans + [plan];
      var scheduled := SchedulePlan(plan);
      if scheduled.Err? {
        return Err(InvalidFrequency);
      }
      return Ok(plan);
    }

    /** stopPlan. */
    method StopPlan(planId: PlanId) returns (r: Option<Plan>)
      requires Valid()
      modifies this`plans, this`cronJobs
      ensures Valid()
      ensures (Snapshot(), r) == Stop(old(Snapshot()), planId)
    {
      if planId >= |plans| {
        return None;
      }
      var plan := plans[planId].(isActive := false);
      plans := plans[planId := plan];
      if planId in cronJobs {
        cronJobs := cronJobs - {planId};
      } else {
        assert cronJobs - {planId} == cronJobs;
      }
      return Some(plan);
    }

    /** The catch block of executePlan. */
    method RecordFailedTransaction(plan: Plan, now: Time)
      modifies this`transactions
      ensures transactions == old(transactions) + Recorded(FailedRecord(plan, now))
    {
      var failed := NewTransaction(FailedFields(plan, now), now);
      if failed.Ok? {
        transactions := transactions + [failed.value];
      }
    }

    /** executePlan: one firing of the job of `planId`; every error ends in the catch block. */
    method Tick(planId: PlanId, quotes: Quotes, executors: Executors, fault: WriteFault, now: Time)
      requires Valid() && planId in cronJobs
      modifies this, priceService
      ensures Valid()
      ensures Snapshot() == Execute(old(Snapshot()), env, planId, quotes, executors, fault, now)
    {
      ghost var before := Snapshot();
      ExecuteKeepsWellFormed(before, env, planId, quotes, executors, fault, now);
      JobNamesItsPlan(before, planId);
      var plan := cronJobs[planId].plan;
      if plan.userId !in users {
        RecordFailedTransaction(plan, now);
        return;
      }
      if plan.tokenSymbol !in plugins {
        RecordFailedTransaction(plan, now);
        return;
      }
      var executor := plugins[plan.tokenSymbol];
      var tokenPrice := priceService.FetchCurrentPrice(plan.tokenSymbol, quotes, now);
      ghost var fetched := Snapshot();
      var outcome := executors(SendRequest(executor, plan.amount, env.platformWallet, plan.toAddress));
      assert outcome == executors(Request(env, plan));
      if outcome.SendFailed? {
        RecordFailedTransaction(plan, now);
        assert Snapshot() == RecordFailure(fetched, plan, now);
        return;
      }
      var tokenAmount := plan.amount / tokenPrice;
      var completed := NewTransaction(
        TransactionFields(Some(plan.id), Some(plan.userId), Some(plan.tokenSymbol), Some(plan.amount),
                          Some(tokenAmount), Some(tokenPrice as real), Some(outcome.txHash), Some("completed"),
                          Some(now)), now);
      assert completed == CompletedRecord(plan, tokenPrice, outcome.txHash, now);
      if completed.Err? {
        RecordFailedTransaction(plan, now);
        assert Snapshot() == RecordFailure(fetched, plan, now);
        return;
      }
      RecordExecution(planId, plan, completed.value, fault, now);
    }

    /** The part of executePlan after the completed transaction is created. */
    method RecordExecution(planId: PlanId, plan: Plan, completed: Transaction, fault: WriteFault, now: Time)
      requires planId in cronJobs && planId < |plans| && plan.userId in users
      modifies this`transactions, this`cronJobs, this`plans, this`users
      ensures Snapshot() == Settle(old(Snapshot()), planId, plan, completed, fault, now)
    {
      ghost var before := Snapshot();
      transactions := transactions + [completed];
      var document := plan.(lastExecutionTime := Some(now), totalInvested := plan.totalInvested + plan.amount);
      cronJobs := cronJobs[planId := cronJobs[planId].(plan := document)];
      ghost var recorded := Snapshot();
      if fault == PlanSaveFails {
        RecordFailedTransaction(plan, now);
        assert Snapshot() == RecordFailure(recorded, plan, now);
        return;
      }
      plans := plans[planId := plans[planId].(lastExecutionTime := document.lastExecutionTime,
                                              totalInvested := document.totalInvested)];
      ghost var saved := Snapshot();
      if fault == UserUpdateFails {
        RecordFailedTransaction(plan, now);
        assert Snapshot() == RecordFailure(saved, plan, now);
        return;
      }
      var user := users[plan.userId];
      users := users[plan.userId := user.(totalInvested := user.totalInvested + plan.amount, updatedAt := now)];
      assert users[plan.userId] == Credited(user, plan.amount, now);
    }

    /** getUserPlans: the plans of a user, active or not. */
    function GetUserPlans(userId: UserId): (r: seq<Plan>)
      reads this
      ensures forall p :: p in r <==> p in plans && p.userId == userId
      ensures forall p :: multiset(r)[p] == if p.userId == userId then multiset(plans)[p] else 0
    {
      UserPlansCount(plans, userId);
      UserPlans(plans, userId)
    }

    /** getUserTotalInvestment: the sum over the plans getUserPlans lists, 0 for a user without plans. */
    function GetUserTotalInvestment(userId: UserId): (total: real)
      reads this
      ensures total == Sum(TotalsOf(GetUserPlans(userId)))
      ensures (forall p :: p in plans ==> p.userId != userId) ==> total == 0.0
    {
      TotalIsSumOverUserPlans(plans, userId);
      NoPlansNoInvestment(plans, userId);
      TotalInvestment(plans, userId)
    }

    /** getPlanTransactions: the ledger entries of a plan, newest first. */
    function GetPlanTransactions(planId: PlanId): (r: seq<Transaction>)
      reads this
      ensures forall t :: t in r <==> t in transactions && t.planId == Some(planId)
      ensures forall i, j :: 0 <= i < j < |r| ==> r[i].timestamp >= r[j].timestamp
      ensures forall t :: multiset(r)[t] == if t.planId == Some(planId) then multiset(transactions)[t] else 0
    {
      PlanTransactions(transactions, planId)
    }
  }
}
