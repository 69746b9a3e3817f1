/**
 * The vesting custody engine as values: the plan, issue and account records, the contract's
 * tables as one state value, the release schedule, and one function per action that gives
 * the state after the action commits or the error it aborts with. An aborted action leaves
 * no trace (`Wrappers.After`).
 */
module CustodyModel {
  import opened Wrappers
  import opened Eosio
  import opened Utils

  /** The largest unlock interval, 365 * 10 days. */
  const MAX_LOCK_DAYS: nat := 365 * 10

  const DAY_SECONDS: nat := 24 * 3600

  datatype PlanStatus = PlanUnpaidFee | PlanEnabled | PlanDisabled

  datatype IssueStatus = IssueUndeposited | IssueNormal | IssueEnded

  /** The `global` singleton: the plan creation fee and the account that receives it. */
  datatype Global = Global(planFee: Asset, feeReceiver: Name)

  datatype Plan = Plan(
    id: nat,
    owner: Name,
    title: string,
    assetContract: Name,
    assetSymbol: Symbol,
    unlockIntervalDays: nat,
    unlockTimes: nat,
    status: PlanStatus,
    totalIssued: nat,
    totalUnlocked: nat,
    totalRefunded: nat,
    createdAt: nat,
    updatedAt: nat)

  datatype Issue = Issue(
    issueId: nat,
    planId: nat,
    issuer: Name,
    receiver: Name,
    firstUnlockDays: nat,
    issued: U64,
    unlocked: U64,
    locked: U64,
    status: IssueStatus,
    issuedAt: nat,
    updatedAt: nat)

  /** The last-reference index row of an account: its latest plan and latest issue. */
  datatype Account = Account(owner: Name, lastPlanId: nat, lastIssueId: nat)

  /** The default values of an issue row's `issued`, `unlocked` and `locked` fields. */
  datatype Amounts = Amounts(issued: U64, unlocked: U64, locked: U64)

  /**
   * What the contract's header fixes: the contract's own account, `SYS_SYMBOL`,
   * `MAX_TITLE_SIZE` and the defaults of an issue row.
   */
  datatype Settings = Settings(self: Name, sysSymbol: Symbol, maxTitleSize: nat, issueDefault: Amounts)

  datatype TransferMemo = UnlockMemo(issueId: nat, planId: nat) | RefundMemo(issueId: nat)

  /** An outbound `transfer` the contract sends from its own account. */
  datatype Transfer = Transfer(contract: Name, to: Name, quantity: Asset, memo: TransferMemo)

  datatype CustodyState = CustodyState(
    config: Global,
    plans: map<nat, Plan>,
    issues: map<nat, Issue>,
    accounts: map<Name, Account>,
    outbox: seq<Transfer>)

  datatype Error =
    | AuthorizationError   // missing authority or wrong signer for the role
    | ValidationError      // malformed argument or memo
    | NotFound             // unknown plan, issue or account
    | StateError           // plan or issue in the wrong status
    | AmountMismatch       // deposit of the wrong amount, symbol or token contract
    | AlreadyUnlocked      // an unlock that would pay nothing
    | InvariantViolation   // an internal `ASSERT` failed

  /** Every action of the contract, with its arguments. */
  datatype Call =
    | SetConfigCall(planFee: Asset, feeReceiver: Name)
    | AddPlanCall(owner: Name, title: string, assetContract: Name, assetSymbol: Symbol, intervalDays: nat, times: int)
    | SetPlanOwnerCall(owner: Name, planId: nat, newOwner: Name)
    | DelPlanCall(owner: Name, planId: nat)
    | EnablePlanCall(owner: Name, planId: nat, enabled: bool)
    | AddIssueCall(issuer: Name, receiver: Name, planId: nat, firstUnlockDays: nat)
    | TransferCall(from: Name, to: Name, quantity: Asset, memo: string)
    | EndIssueCall(issuer: Name, planId: nat, issueId: nat, residue: U64)
    | UnlockCall(receiver: Name, planId: nat, issueId: nat, residue: U64)

  /** The shape every row written by the contract keeps. */
  ghost predicate Valid(st: CustodyState)
  {
    (forall id :: id in st.plans ==> PlanRowValid(id, st.plans[id])) &&
    (forall id :: id in st.issues ==> id != 0 && st.issues[id].issueId == id) &&
    (forall a :: a in st.accounts ==> st.accounts[a].owner == a)
  }

  ghost predicate PlanRowValid(id: nat, p: Plan)
  {
    id != 0 && p.id == id &&
    0 < p.unlockIntervalDays <= MAX_LOCK_DAYS && p.unlockTimes > 0 &&
    p.status != PlanDisabled
  }

  // ---------------------------------------------------------------- ids and the index

  /** The id given to a new row: the table's next key, with 0 replaced by 1. */
  function NewId<V>(table: map<nat, V>): (id: nat)
    ensures id != 0 && id !in table
    ensures forall k :: k in table ==> k < id
  {
    var k := AvailablePrimaryKey(table);
    if k == 0 then 1 else k
  }

  /** `account_tbl.set(owner, ...)` writing `last_plan_id`: the row is created when missing. */
  function WithLastPlan(accounts: map<Name, Account>, owner: Name, id: nat): (r: map<Name, Account>)
    ensures r.Keys == accounts.Keys + {owner}
    ensures r[owner].owner == owner && r[owner].lastPlanId == id
    ensures r[owner].lastIssueId == (if owner in accounts then accounts[owner].lastIssueId else 0)
    ensures forall a :: a in accounts && a != owner ==> r[a] == accounts[a]
  {
    var row := if owner in accounts then accounts[owner] else Account(owner, 0, 0);
    accounts[owner := row.(owner := owner, lastPlanId := id)]
  }

  /** `account_tbl.set(issuer, ...)` writing `last_issue_id`. */
  function WithLastIssue(accounts: map<Name, Account>, issuer: Name, id: nat): (r: map<Name, Account>)
    ensures r.Keys == accounts.Keys + {issuer}
    ensures r[issuer].owner == issuer && r[issuer].lastIssueId == id
    ensures r[issuer].lastPlanId == (if issuer in accounts then accounts[issuer].lastPlanId else 0)
    ensures forall a :: a in accounts && a != issuer ==> r[a] == accounts[a]
  {
    var row := if issuer in accounts then accounts[issuer] else Account(issuer, 0, 0);
    accounts[issuer := row.(owner := issuer, lastIssueId := id)]
  }

  // ---------------------------------------------------------------- the release schedule

  /** Whole days since the issue was created. */
  function IssuedDays(now: nat, issuedAt: nat): (d: nat)
    requires issuedAt <= now
    ensures d * DAY_SECONDS <= now - issuedAt < (d + 1) * DAY_SECONDS
  {
    (now - issuedAt) / DAY_SECONDS
  }

  /** The number of periods released after `issuedDays` days: the grace days do not count. */
  function UnlockedPeriods(issuedDays: nat, firstUnlockDays: nat, intervalDays: nat, times: nat): (p: nat)
    requires intervalDays > 0
    ensures p <= times
  {
    var unlockedDays := if issuedDays > firstUnlockDays then issuedDays - firstUnlockDays else 0;
    Min(unlockedDays / intervalDays, times)
  }

  /** `multiply_decimal64(a, b, c)`: `a * b / c` rounded down, with a wide intermediate. */
  function MulDiv(a: nat, b: nat, c: nat): (r: nat)
    requires c > 0
    ensures r * c <= a * b < r * c + c
  {
    a * b / c
  }

  /** The amount of an issue released after `issuedDays` days. */
  function ScheduledTotal(issued: nat, issuedDays: nat, firstUnlockDays: nat, intervalDays: nat, times: nat): (r: nat)
    requires intervalDays > 0 && times > 0
    ensures var p := UnlockedPeriods(issuedDays, firstUnlockDays, intervalDays, times);
      r * times <= issued * p < r * times + times
  {
    MulDiv(issued, UnlockedPeriods(issuedDays, firstUnlockDays, intervalDays, times), times)
  }

  // ---------------------------------------------------------------- actions

  function SetConfig(st: CustodyState, env: Settings, c: Chain, planFee: Asset, feeReceiver: Name): (r: Result<CustodyState, Error>)
    ensures r.Ok? <==> env.self in c.auth && planFee.symbol == env.sysSymbol && feeReceiver in c.accounts
    ensures r.Ok? ==> r.value == st.(config := Global(planFee, feeReceiver))
  {
    if env.self !in c.auth then Err(AuthorizationError)
    else if planFee.symbol != env.sysSymbol then Err(ValidationError)
    else if feeReceiver !in c.accounts then Err(NotFound)
    else Ok(st.(config := Global(planFee, feeReceiver)))
  }

  function AddPlan(st: CustodyState, env: Settings, c: Chain, owner: Name, title: string, assetContract: Name,
                   assetSymbol: Symbol, intervalDays: nat, times: int): (r: Result<CustodyState, Error>)
    ensures r.Ok? <==>
      owner in c.auth && Utf8Length(title) <= env.maxTitleSize && assetContract in c.accounts &&
      SymbolIsValid(assetSymbol) && 0 < intervalDays <= MAX_LOCK_DAYS && times > 0
    ensures r.Ok? ==>
      var id := NewId(st.plans);
      r.value.plans.Keys == st.plans.Keys + {id} &&
      var p := r.value.plans[id];
      (forall k :: k in st.plans ==> r.value.plans[k] == st.plans[k]) &&
      p.id == id && p.owner == owner && p.title == title && p.assetContract == assetContract &&
      p.assetSymbol == assetSymbol && p.unlockIntervalDays == intervalDays && p.unlockTimes == times &&
      (p.status == PlanUnpaidFee <==> st.config.planFee.amount != 0) &&
      (p.status == PlanEnabled <==> st.config.planFee.amount == 0) &&
      p.totalIssued == p.totalUnlocked == p.totalRefunded == 0 &&
      p.createdAt == c.now && p.updatedAt == c.now &&
      r.value.accounts == WithLastPlan(st.accounts, owner, id) &&
      r.value.issues == st.issues && r.value.config == st.config && r.value.outbox == st.outbox
  {
    if owner !in c.auth then Err(AuthorizationError)
    else if Utf8Length(title) > env.maxTitleSize then Err(ValidationError)
    else if assetContract !in c.accounts then Err(NotFound)
    else if !SymbolIsValid(assetSymbol) then Err(ValidationError)
    else if !(0 < intervalDays <= MAX_LOCK_DAYS) then Err(ValidationError)
    else if times <= 0 then Err(ValidationError)
    else
      var id := NewId(st.plans);
      var status := if st.config.planFee.amount != 0 then PlanUnpaidFee else PlanEnabled;
      var plan := Plan(id, owner, title, assetContract, assetSymbol, intervalDays, times, status, 0, 0, 0, c.now, c.now);
      Ok(st.(plans := st.plans[id := plan], accounts := WithLastPlan(st.accounts, owner, id)))
  }

  /** Only `owner` changes; either the current owner or the contract may authorise it. */
  function SetPlanOwner(st: CustodyState, env: Settings, c: Chain, owner: Name, planId: nat, newOwner: Name): (r: Result<CustodyState, Error>)
    ensures r.Ok? <==>
      planId in st.plans && st.plans[planId].owner == owner && (owner in c.auth || env.self in c.auth)
    ensures r.Ok? ==>
      r.value == st.(plans := st.plans[planId := st.plans[planId].(owner := newOwner, updatedAt := c.now)])
  {
    if planId !in st.plans then Err(NotFound)
    else
      var plan := st.plans[planId];
      if owner != plan.owner then Err(AuthorizationError)
      else if !(plan.owner in c.auth || env.self in c.auth) then Err(AuthorizationError)
      else Ok(st.(plans := st.plans[planId := plan.(owner := newOwner, updatedAt := c.now)]))
  }

  /** Removes the plan row and nothing else: issues of the plan are left in place. */
  function DelPlan(st: CustodyState, env: Settings, c: Chain, owner: Name, planId: nat): (r: Result<CustodyState, Error>)
    ensures r.Ok? <==> env.self in c.auth && planId in st.plans && st.plans[planId].owner == owner
    ensures r.Ok? ==> r.value == st.(plans := st.plans - {planId})
  {
    if env.self !in c.auth then Err(AuthorizationError)
    else if planId !in st.plans then Err(NotFound)
    else if owner != st.plans[planId].owner then Err(AuthorizationError)
    else Ok(st.(plans := st.plans - {planId}))
  }

  /** As written, success always stores `PLAN_UNPAID_FEE`, whatever `enabled` asks for. */
  function EnablePlan(st: CustodyState, c: Chain, owner: Name, planId: nat, enabled: bool): (r: Result<CustodyState, Error>)
    ensures r.Ok? <==>
      owner in c.auth && planId in st.plans && st.plans[planId].owner == owner &&
      st.plans[planId].status != PlanUnpaidFee &&
      st.plans[planId].status != (if enabled then PlanEnabled else PlanDisabled)
    ensures r.Ok? ==>
      r.value == st.(plans := st.plans[planId := st.plans[planId].(status := PlanUnpaidFee, updatedAt := c.now)])
  {
    if owner !in c.auth then Err(AuthorizationError)
    else if planId !in st.plans then Err(NotFound)
    else
      var plan := st.plans[planId];
      if owner != plan.owner then Err(AuthorizationError)
      else if plan.status == PlanUnpaidFee then Err(StateError)
      else if plan.status == (if enabled then PlanEnabled else PlanDisabled) then Err(StateError)
      else Ok(st.(plans := st.plans[planId := plan.(status := PlanUnpaidFee, updatedAt := c.now)]))
  }

  /** The new issue's amounts are the row defaults: `addissue` does not set them. */
  function AddIssue(st: CustodyState, env: Settings, c: Chain, issuer: Name, receiver: Name, planId: nat, firstUnlockDays: nat): (r: Result<CustodyState, Error>)
    ensures r.Ok? <==>
      issuer in c.auth && planId in st.plans && st.plans[planId].status == PlanEnabled && receiver in c.accounts
    ensures r.Ok? ==>
      var id := NewId(st.issues);
      r.value.issues.Keys == st.issues.Keys + {id} &&
      var i := r.value.issues[id];
      (forall k :: k in st.issues ==> r.value.issues[k] == st.issues[k]) &&
      i.issueId == id && i.planId == planId && i.issuer == issuer && i.receiver == receiver &&
      i.firstUnlockDays == firstUnlockDays && i.status == IssueUndeposited &&
      i.issuedAt == c.now && i.updatedAt == c.now &&
      Amounts(i.issued, i.unlocked, i.locked) == env.issueDefault &&
      r.value.accounts == WithLastIssue(st.accounts, issuer, id) &&
      r.value.plans == st.plans && r.value.config == st.config && r.value.outbox == st.outbox
  {
    if issuer !in c.auth then Err(AuthorizationError)
    else if planId !in st.plans then Err(NotFound)
    else if st.plans[planId].status != PlanEnabled then Err(StateError)
    else if receiver !in c.accounts then Err(NotFound)
    else
      var id := NewId(st.issues);
      var d := env.issueDefault;
      var issue := Issue(id, planId, issuer, receiver, firstUnlockDays, d.issued, d.unlocked, d.locked,
                         IssueUndeposited, c.now, c.now);
      Ok(st.(issues := st.issues[id := issue], accounts := WithLastIssue(st.accounts, issuer, id)))
  }

  /**
   * The plan a `plan:<id>` memo names: an explicit non-zero decimal id, or for an empty id
   * the sender's latest plan.
   */
  function ResolvePlanId(accounts: map<Name, Account>, from: Name, param: string): (r: Result<nat, Error>)
    ensures r.Ok? ==> r.value != 0
    ensures param == [] ==> (r.Ok? <==> from in accounts && accounts[from].lastPlanId != 0)
    ensures param == [] && r.Ok? ==> r.value == accounts[from].lastPlanId
  {
    if param == [] then
      if from !in accounts then Err(NotFound)
      else if accounts[from].lastPlanId == 0 then Err(NotFound)
      else Ok(accounts[from].lastPlanId)
    else
      match ParseUnsigned(param, U64_MOD)
      case None => Err(ValidationError)
      case Some(id) => if id == 0 then Err(ValidationError) else Ok(id)
  }

  /** The issue an `issue:<id>` memo names; an explicit id is read by `strtoul`. */
  function ResolveIssueId(accounts: map<Name, Account>, from: Name, param: string): (r: Result<nat, Error>)
    ensures r.Ok? ==> r.value != 0
    ensures param == [] ==> (r.Ok? <==> from in accounts && accounts[from].lastIssueId != 0)
    ensures param == [] && r.Ok? ==> r.value == accounts[from].lastIssueId
    ensures param != [] ==> (r.Ok? <==> StrToUL(param) != 0)
  {
    if param == [] then
      if from !in accounts then Err(NotFound)
      else if accounts[from].lastIssueId == 0 then Err(NotFound)
      else Ok(accounts[from].lastIssueId)
    else
      var id := StrToUL(param);
      if id == 0 then Err(ValidationError) else Ok(id)
  }

  /** The `plan` branch: an exact fee payment turns an unpaid plan on. */
  function PayPlanFee(st: CustodyState, env: Settings, c: Chain, from: Name, quantity: Asset, param: string): (r: Result<CustodyState, Error>)
    ensures r.Ok? <==>
      quantity.symbol == env.sysSymbol && quantity.amount == st.config.planFee.amount &&
      ResolvePlanId(st.accounts, from, param).Ok? &&
      var id := ResolvePlanId(st.accounts, from, param).value;
      id in st.plans && st.plans[id].status == PlanUnpaidFee
    ensures r.Ok? ==>
      var id := ResolvePlanId(st.accounts, from, param).value;
      r.value.plans.Keys == st.plans.Keys && r.value.plans[id].status == PlanEnabled &&
      (forall k :: k in st.plans && k != id ==> r.value.plans[k] == st.plans[k]) &&
      r.value.issues == st.issues && r.value.accounts == st.accounts &&
      r.value.config == st.config && r.value.outbox == st.outbox
  {
    if quantity.symbol != env.sysSymbol then Err(AmountMismatch)
    else if quantity.amount != st.config.planFee.amount then Err(AmountMismatch)
    else
      var planId :- ResolvePlanId(st.accounts, from, param);
      if planId !in st.plans then Err(NotFound)
      else
        var plan := st.plans[planId];
        if plan.status != PlanUnpaidFee then Err(StateError)
        else Ok(st.(plans := st.plans[planId := plan.(status := PlanEnabled, updatedAt := c.now)]))
  }

  /** The `issue` branch: the exact declared amount of the plan's token starts the issue. */
  function DepositIssue(st: CustodyState, c: Chain, from: Name, quantity: Asset, param: string): (r: Result<CustodyState, Error>)
    ensures r.Ok? <==>
      ResolveIssueId(st.accounts, from, param).Ok? &&
      var id := ResolveIssueId(st.accounts, from, param).value;
      id in st.issues && st.issues[id].status == IssueUndeposited && st.issues[id].planId in st.plans &&
      var plan := st.plans[st.issues[id].planId];
      plan.status == PlanEnabled && plan.assetContract == c.firstReceiver &&
      plan.assetSymbol == quantity.symbol && st.issues[id].issued == quantity.amount
    ensures r.Ok? ==>
      var id := ResolveIssueId(st.accounts, from, param).value;
      var planId := st.issues[id].planId;
      r.value.issues.Keys == st.issues.Keys && r.value.issues[id].status == IssueNormal &&
      (forall k :: k in st.issues && k != id ==> r.value.issues[k] == st.issues[k]) &&
      r.value.plans.Keys == st.plans.Keys &&
      r.value.plans[planId].totalIssued == st.plans[planId].totalIssued + quantity.amount &&
      (forall k :: k in st.plans && k != planId ==> r.value.plans[k] == st.plans[k]) &&
      r.value.accounts == st.accounts && r.value.config == st.config && r.value.outbox == st.outbox
  {
    var issueId :- ResolveIssueId(st.accounts, from, param);
    if issueId !in st.issues then Err(NotFound)
    else
      var issue := st.issues[issueId];
      if issue.status != IssueUndeposited then Err(StateError)
      else if issue.planId !in st.plans then Err(NotFound)
      else
        var plan := st.plans[issue.planId];
        if plan.status != PlanEnabled then Err(StateError)
        else if plan.assetContract != c.firstReceiver then Err(AmountMismatch)
        else if plan.assetSymbol != quantity.symbol then Err(AmountMismatch)
        else if issue.issued != quantity.amount then Err(AmountMismatch)
        else
          Ok(st.(plans := st.plans[issue.planId := plan.(totalIssued := plan.totalIssued + quantity.amount, updatedAt := c.now)],
                 issues := st.issues[issueId := issue.(status := IssueNormal, updatedAt := c.now)]))
  }

  /** The transfer notification: memos `plan[:id]` and `issue[:id]`; any other memo is accepted and ignored. */
  function OnTransfer(st: CustodyState, env: Settings, c: Chain, from: Name, to: Name, quantity: Asset, memo: string): (r: Result<CustodyState, Error>)
    ensures from == env.self || to != env.self ==> r == Ok(st)
    ensures from != env.self && to == env.self && quantity.amount <= 0 ==> r.Err?
    ensures (from != env.self && to == env.self && quantity.amount > 0 &&
             Split(memo, ':')[0] != "plan" && Split(memo, ':')[0] != "issue") ==> r == Ok(st)
    ensures (from != env.self && to == env.self &&
             (Split(memo, ':')[0] == "plan" || Split(memo, ':')[0] == "issue") && |Split(memo, ':')| != 2) ==> r.Err?
    ensures r.Ok? ==>
      r.value.plans.Keys == st.plans.Keys && r.value.issues.Keys == st.issues.Keys &&
      r.value.accounts == st.accounts && r.value.config == st.config && r.value.outbox == st.outbox
  {
    if from == env.self || to != env.self then Ok(st)
    else if quantity.amount <= 0 then Err(ValidationError)
    else
      var params := Split(memo, ':');
      if params[0] == "plan" then
        if |params| != 2 then Err(ValidationError) else PayPlanFee(st, env, c, from, quantity, params[1])
      else if params[0] == "issue" then
        if |params| != 2 then Err(ValidationError) else DepositIssue(st, c, from, quantity, params[1])
      else Ok(st)
  }

  /**
   * The schedule step of `internal_unlock`, taken only for a NORMAL issue: pays the newly
   * released amount to the receiver, refunds the stored `locked` to the issuer on an end
   * action, and adds both to the plan's counters.
   */
  function Settle(st: CustodyState, now: nat, planId: nat, issueId: nat, plan: Plan, issue: Issue, isEnd: bool): (r: Result<CustodyState, Error>)
    ensures r.Ok? <==>
      issue.issuedAt <= now && plan.unlockIntervalDays > 0 && plan.unlockTimes > 0 &&
      var total := ScheduledTotal(issue.issued, IssuedDays(now, issue.issuedAt), issue.firstUnlockDays,
                                  plan.unlockIntervalDays, plan.unlockTimes);
      issue.unlocked <= total < issue.issued && (isEnd || issue.unlocked < total)
    ensures r.Ok? ==>
      var total := ScheduledTotal(issue.issued, IssuedDays(now, issue.issuedAt), issue.firstUnlockDays,
                                  plan.unlockIntervalDays, plan.unlockTimes);
      var cur := total - issue.unlocked;
      r.value.plans == st.plans[planId := plan.(totalUnlocked := plan.totalUnlocked + cur,
                                                totalRefunded := plan.totalRefunded + issue.locked,
                                                updatedAt := now)] &&
      r.value.issues == st.issues && r.value.accounts == st.accounts && r.value.config == st.config &&
      r.value.outbox == st.outbox +
        (if cur > 0 then [Transfer(plan.assetContract, issue.receiver, Asset(cur, plan.assetSymbol), UnlockMemo(issueId, planId))] else []) +
        (if isEnd && issue.locked > 0 then [Transfer(plan.assetContract, issue.issuer, Asset(issue.locked, plan.assetSymbol), RefundMemo(issueId))] else [])
  {
    if now < issue.issuedAt then Err(InvariantViolation)
    else if plan.unlockIntervalDays == 0 || plan.unlockTimes == 0 then Err(InvariantViolation)
    else
      var total := ScheduledTotal(issue.issued, IssuedDays(now, issue.issuedAt), issue.firstUnlockDays,
                                  plan.unlockIntervalDays, plan.unlockTimes);
      if !(total >= issue.unlocked && issue.issued > total) then Err(InvariantViolation)
      else
        var cur := total - issue.unlocked;
        if cur == 0 && !isEnd then Err(AlreadyUnlocked)
        else
          var refunded := issue.locked;
          var payout := if cur > 0
            then [Transfer(plan.assetContract, issue.receiver, Asset(cur, plan.assetSymbol), UnlockMemo(issueId, planId))]
            else [];
          var refund := if isEnd && refunded > 0
            then [Transfer(plan.assetContract, issue.issuer, Asset(refunded, plan.assetSymbol), RefundMemo(issueId))]
            else [];
          var plan' := plan.(totalUnlocked := plan.totalUnlocked + cur,
                             totalRefunded := plan.totalRefunded + refunded,
                             updatedAt := now);
          Ok(st.(plans := st.plans[planId := plan'], outbox := st.outbox + payout + refund))
  }

  /**
   * The issue row `internal_unlock` writes at the end: `unlocked` takes the value of the
   * outer `total_unlocked`, which the code never assigns (`residue`), and `locked` is
   * `issued - unlocked` in 64-bit unsigned arithmetic.
   */
  function Closed(issue: Issue, residue: U64, isEnd: bool, now: nat): (i: Issue)
    ensures i.unlocked == residue
    ensures residue <= issue.issued ==> i.locked == issue.issued - residue
    ensures residue > issue.issued ==> i.locked == issue.issued + U64_MOD - residue
    ensures i.status == (if isEnd then IssueEnded else issue.status)
    ensures i.(unlocked := issue.unlocked, locked := issue.locked, status := issue.status, updatedAt := issue.updatedAt) == issue
  {
    issue.(unlocked := residue,
           locked := (issue.issued - residue) % U64_MOD,
           status := if isEnd then IssueEnded else issue.status,
           updatedAt := now)
  }

  /** The procedure `unlock` and `endissue` share. */
  function InternalUnlock(st: CustodyState, c: Chain, actor: Name, planId: nat, issueId: nat, isEnd: bool, residue: U64): (r: Result<CustodyState, Error>)
    ensures r.Ok? ==>
      issueId in st.issues && planId in st.plans &&
      var issue := st.issues[issueId];
      (if isEnd then issue.issuer == actor else issue.receiver == actor) &&
      issue.planId == planId && st.plans[planId].status == PlanEnabled &&
      (if isEnd then issue.status != IssueEnded else issue.status == IssueNormal) &&
      r.value.issues == st.issues[issueId := Closed(issue, residue, isEnd, c.now)] &&
      r.value.plans.Keys == st.plans.Keys &&
      (forall k :: k in st.plans && k != planId ==> r.value.plans[k] == st.plans[k]) &&
      r.value.accounts == st.accounts && r.value.config == st.config
  {
    if issueId !in st.issues then Err(NotFound)
    else
      var issue := st.issues[issueId];
      if isEnd && issue.issuer != actor then Err(AuthorizationError)
      else if !isEnd && issue.receiver != actor then Err(AuthorizationError)
      else if issue.planId != planId then Err(ValidationError)
      else if planId !in st.plans then Err(NotFound)
      else
        var plan := st.plans[planId];
        if plan.status != PlanEnabled then Err(StateError)
        else if isEnd && issue.status == IssueEnded then Err(StateError)
        else if !isEnd && issue.status != IssueNormal then Err(StateError)
        else
          var settled :- if issue.status == IssueNormal then Settle(st, c.now, planId, issueId, plan, issue, isEnd) else Ok(st);
          Ok(settled.(issues := settled.issues[issueId := Closed(issue, residue, isEnd, c.now)]))
  }

  function EndIssue(st: CustodyState, c: Chain, issuer: Name, planId: nat, issueId: nat, residue: U64): (r: Result<CustodyState, Error>)
    ensures issuer !in c.auth ==> r == Err(AuthorizationError)
    ensures r.Ok? ==> issueId in r.value.issues && r.value.issues[issueId].status == IssueEnded
  {
    if issuer !in c.auth then Err(AuthorizationError)
    else InternalUnlock(st, c, issuer, planId, issueId, true, residue)
  }

  function Unlock(st: CustodyState, c: Chain, receiver: Name, planId: nat, issueId: nat, residue: U64): (r: Result<CustodyState, Error>)
    ensures receiver !in c.auth ==> r == Err(AuthorizationError)
    ensures r.Ok? ==> issueId in r.value.issues && r.value.issues[issueId].status == IssueNormal
  {
    if receiver !in c.auth then Err(AuthorizationError)
    else InternalUnlock(st, c, receiver, planId, issueId, false, residue)
  }

  /** The action dispatcher. */
  function Step(st: CustodyState, env: Settings, c: Chain, call: Call): Result<CustodyState, Error>
  {
    match call
    case SetConfigCall(fee, receiver) => SetConfig(st, env, c, fee, receiver)
    case AddPlanCall(owner, title, contract, sym, days, times) => AddPlan(st, env, c, owner, title, contract, sym, days, times)
    case SetPlanOwnerCall(owner, planId, newOwner) => SetPlanOwner(st, env, c, owner, planId, newOwner)
    case DelPlanCall(owner, planId) => DelPlan(st, env, c, owner, planId)
    case EnablePlanCall(owner, planId, enabled) => EnablePlan(st, c, owner, planId, enabled)
    case AddIssueCall(issuer, receiver, planId, first) => AddIssue(st, env, c, issuer, receiver, planId, first)
    case TransferCall(from, to, quantity, memo) => OnTransfer(st, env, c, from, to, quantity, memo)
    case EndIssueCall(issuer, planId, issueId, residue) => EndIssue(st, c, issuer, planId, issueId, residue)
    case UnlockCall(receiver, planId, issueId, residue) => Unlock(st, c, receiver, planId, issueId, residue)
  }
}
