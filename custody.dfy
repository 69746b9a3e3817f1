/**
 * The custody contract as an object: its tables are fields that each action reads and
 * writes back in place. Every action is proved to do exactly what its function in
 * `CustodyModel` says, aborting with no write at all on an error.
 */
module Custody {
  import opened Wrappers
  import opened Eosio
  import opened Utils
  import opened CustodyModel

  class CustodyContract {
    const env: Settings
    var config: Global
    var plans: map<nat, Plan>
    var issues: map<nat, Issue>
    var accounts: map<Name, Account>
    var outbox: seq<Transfer>

    /** The tables as one value. */
    function State(): CustodyState
      reads this
    {
      CustodyState(config, plans, issues, accounts, outbox)
    }

    constructor (env: Settings, config: Global)
      ensures this.env == env
      ensures State() == CustodyState(config, map[], map[], map[], [])
    {
      this.env := env;
      this.config := config;
      plans, issues, accounts, outbox := map[], map[], map[], [];
    }

    method SetConfig(c: Chain, planFee: Asset, feeReceiver: Name) returns (r: Outcome<Error>)
      modifies this
      ensures r == OutcomeOf(CustodyModel.SetConfig(old(State()), env, c, planFee, feeReceiver))
      ensures State() == After(old(State()), CustodyModel.SetConfig(old(State()), env, c, planFee, feeReceiver))
    {
      if env.self !in c.auth { return Fail(AuthorizationError); }
      if planFee.symbol != env.sysSymbol { return Fail(ValidationError); }
      if feeReceiver !in c.accounts { return Fail(NotFound); }
      config := config.(planFee := planFee);
      config := config.(feeReceiver := feeReceiver);
      return Pass;
    }

    method AddPlan(c: Chain, owner: Name, title: string, assetContract: Name, assetSymbol: Symbol,
                   intervalDays: nat, times: int) returns (r: Outcome<Error>)
      modifies this
      ensures r == OutcomeOf(CustodyModel.AddPlan(old(State()), env, c, owner, title, assetContract, assetSymbol, intervalDays, times))
      ensures State() == After(old(State()), CustodyModel.AddPlan(old(State()), env, c, owner, title, assetContract, assetSymbol, intervalDays, times))
    {
      if owner !in c.auth { return Fail(AuthorizationError); }
      if Utf8Length(title) > env.maxTitleSize { return Fail(ValidationError); }
      if assetContract !in c.accounts { return Fail(NotFound); }
      if !SymbolIsValid(assetSymbol) { return Fail(ValidationError); }
      if !(intervalDays > 0 && intervalDays <= MAX_LOCK_DAYS) { return Fail(ValidationError); }
      if times <= 0 { return Fail(ValidationError); }

      var planId := AvailablePrimaryKey(plans);
      if planId == 0 { planId := 1; }
      var status := if config.planFee.amount != 0 then PlanUnpaidFee else PlanEnabled;
      plans := plans[planId := Plan(planId, owner, title, assetContract, assetSymbol, intervalDays, times,
                                    status, 0, 0, 0, c.now, c.now)];

      var acct := if owner in accounts then accounts[owner] else Account(owner, 0, 0);
      accounts := accounts[owner := acct.(owner := owner, lastPlanId := planId)];
      return Pass;
    }

    method SetPlanOwner(c: Chain, owner: Name, planId: nat, newOwner: Name) returns (r: Outcome<Error>)
      modifies this
      ensures r == OutcomeOf(CustodyModel.SetPlanOwner(old(State()), env, c, owner, planId, newOwner))
      ensures State() == After(old(State()), CustodyModel.SetPlanOwner(old(State()), env, c, owner, planId, newOwner))
    {
      if planId !in plans { return Fail(NotFound); }
      var plan := plans[planId];
      if owner != plan.owner { return Fail(AuthorizationError); }
      if !(plan.owner in c.auth || env.self in c.auth) { return Fail(AuthorizationError); }
      plans := plans[planId := plan.(owner := newOwner, updatedAt := c.now)];
      return Pass;
    }

    method DelPlan(c: Chain, owner: Name, planId: nat) returns (r: Outcome<Error>)
      modifies this
      ensures r == OutcomeOf(CustodyModel.DelPlan(old(State()), env, c, owner, planId))
      ensures State() == After(old(State()), CustodyModel.DelPlan(old(State()), env, c, owner, planId))
    {
      if env.self !in c.auth { return Fail(AuthorizationError); }
      if planId !in plans { return Fail(NotFound); }
      if owner != plans[planId].owner { return Fail(AuthorizationError); }
      plans := plans - {planId};
      return Pass;
    }

    method EnablePlan(c: Chain, owner: Name, planId: nat, enabled: bool) returns (r: Outcome<Error>)
      modifies this
      ensures r == OutcomeOf(CustodyModel.EnablePlan(old(State()), c, owner, planId, enabled))
      ensures State() == After(old(State()), CustodyModel.EnablePlan(old(State()), c, owner, planId, enabled))
    {
      if owner !in c.auth { return Fail(AuthorizationError); }
      if planId !in plans { return Fail(NotFound); }
      var plan := plans[planId];
      if owner != plan.owner { return Fail(AuthorizationError); }
      if plan.status == PlanUnpaidFee { return Fail(StateError); }
      var newStatus := if enabled then PlanEnabled else PlanDisabled;
      if plan.status == newStatus { return Fail(StateError); }
      // the code stores PLAN_UNPAID_FEE here, not newStatus
      plans := plans[planId := plan.(status := PlanUnpaidFee, updatedAt := c.now)];
      return Pass;
    }

    method AddIssue(c: Chain, issuer: Name, receiver: Name, planId: nat, firstUnlockDays: nat) returns (r: Outcome<Error>)
      modifies this
      ensures r == OutcomeOf(CustodyModel.AddIssue(old(State()), env, c, issuer, receiver, planId, firstUnlockDays))
      ensures State() == After(old(State()), CustodyModel.AddIssue(old(State()), env, c, issuer, receiver, planId, firstUnlockDays))
    {
      if issuer !in c.auth { return Fail(AuthorizationError); }
      if planId !in plans { return Fail(NotFound); }
      if plans[planId].status != PlanEnabled { return Fail(StateError); }
      if receiver !in c.accounts { return Fail(NotFound); }

      var issueId := AvailablePrimaryKey(issues);
      if issueId == 0 { issueId := 1; }
      // issued, unlocked and locked keep the row defaults
      var d := env.issueDefault;
      issues := issues[issueId := Issue(issueId, planId, issuer, receiver, firstUnlockDays, d.issued, d.unlocked, d.locked,
                                        IssueUndeposited, c.now, c.now)];

      var acct := if issuer in accounts then accounts[issuer] else Account(issuer, 0, 0);
      accounts := accounts[issuer := acct.(owner := issuer, lastIssueId := issueId)];
      return Pass;
    }

    /** A `plan:<id>` deposit: the plan fee enables an unpaid plan. */
    method PayPlanFee(c: Chain, from: Name, quantity: Asset, param: string) returns (r: Outcome<Error>)
      modifies this
      ensures r == OutcomeOf(CustodyModel.PayPlanFee(old(State()), env, c, from, quantity, param))
      ensures State() == After(old(State()), CustodyModel.PayPlanFee(old(State()), env, c, from, quantity, param))
    {
      if quantity.symbol != env.sysSymbol { return Fail(AmountMismatch); }
      if quantity.amount != config.planFee.amount { return Fail(AmountMismatch); }
      var resolved := CustodyModel.ResolvePlanId(accounts, from, param);
      if resolved.Err? { return Fail(resolved.error); }
      var planId := resolved.value;
      if planId !in plans { return Fail(NotFound); }
      var plan := plans[planId];
      if plan.status != PlanUnpaidFee { return Fail(StateError); }
      plans := plans[planId := plan.(status := PlanEnabled, updatedAt := c.now)];
      return Pass;
    }

    /** An `issue:<id>` deposit: the issued amount moves an undeposited issue to NORMAL. */
    method DepositIssue(c: Chain, from: Name, quantity: Asset, param: string) returns (r: Outcome<Error>)
      modifies this
      ensures r == OutcomeOf(CustodyModel.DepositIssue(old(State()), c, from, quantity, param))
      ensures State() == After(old(State()), CustodyModel.DepositIssue(old(State()), c, from, quantity, param))
    {
      var resolved := CustodyModel.ResolveIssueId(accounts, from, param);
      if resolved.Err? { return Fail(resolved.error); }
      var issueId := resolved.value;
      if issueId !in issues { return Fail(NotFound); }
      var issue := issues[issueId];
      if issue.status != IssueUndeposited { return Fail(StateError); }
      if issue.planId !in plans { return Fail(NotFound); }
      var plan := plans[issue.planId];
      if plan.status != PlanEnabled { return Fail(StateError); }
      if plan.assetContract != c.firstReceiver { return Fail(AmountMismatch); }
      if plan.assetSymbol != quantity.symbol { return Fail(AmountMismatch); }
      if issue.issued != quantity.amount { return Fail(AmountMismatch); }
      plans := plans[issue.planId := plan.(totalIssued := plan.totalIssued + quantity.amount, updatedAt := c.now)];
      issues := issues[issueId := issue.(status := IssueNormal, updatedAt := c.now)];
      return Pass;
    }

    method OnTransfer(c: Chain, from: Name, to: Name, quantity: Asset, memo: string) returns (r: Outcome<Error>)
      modifies this
      ensures r == OutcomeOf(CustodyModel.OnTransfer(old(State()), env, c, from, to, quantity, memo))
      ensures State() == After(old(State()), CustodyModel.OnTransfer(old(State()), env, c, from, to, quantity, memo))
    {
      if from == env.self || to != env.self { return Pass; }
      if quantity.amount <= 0 { return Fail(ValidationError); }

      var params := Split(memo, ':');
      if params[0] == "plan" {
        if |params| != 2 { return Fail(ValidationError); }
        r := PayPlanFee(c, from, quantity, params[1]);
        return;
      } else if params[0] == "issue" {
        if |params| != 2 { return Fail(ValidationError); }
        r := DepositIssue(c, from, quantity, params[1]);
        return;
      }
      // any other memo is ignored
      return Pass;
    }

    method EndIssue(c: Chain, issuer: Name, planId: nat, issueId: nat, residue: U64) returns (r: Outcome<Error>)
      modifies this
      ensures r == OutcomeOf(CustodyModel.EndIssue(old(State()), c, issuer, planId, issueId, residue))
      ensures State() == After(old(State()), CustodyModel.EndIssue(old(State()), c, issuer, planId, issueId, residue))
    {
      if issuer !in c.auth { return Fail(AuthorizationError); }
      r := InternalUnlock(c, issuer, planId, issueId, true, residue);
    }

    method Unlock(c: Chain, receiver: Name, planId: nat, issueId: nat, residue: U64) returns (r: Outcome<Error>)
      modifies this
      ensures r == OutcomeOf(CustodyModel.Unlock(old(State()), c, receiver, planId, issueId, residue))
      ensures State() == After(old(State()), CustodyModel.Unlock(old(State()), c, receiver, planId, issueId, residue))
    {
      if receiver !in c.auth { return Fail(AuthorizationError); }
      r := InternalUnlock(c, receiver, planId, issueId, false, residue);
    }

    /**
     * `residue` is the value of the outer `total_unlocked`, which the code declares without
     * a value and never assigns: the schedule step declares a second variable of that name.
     */
    method InternalUnlock(c: Chain, actor: Name, planId: nat, issueId: nat, isEnd: bool, residue: U64) returns (r: Outcome<Error>)
      modifies this
      ensures r == OutcomeOf(CustodyModel.InternalUnlock(old(State()), c, actor, planId, issueId, isEnd, residue))
      ensures State() == After(old(State()), CustodyModel.InternalUnlock(old(State()), c, actor, planId, issueId, isEnd, residue))
    {
      if issueId !in issues { return Fail(NotFound); }
      var issue := issues[issueId];
      if isEnd {
        if issue.issuer != actor { return Fail(AuthorizationError); }
      } else {
        if issue.receiver != actor { return Fail(AuthorizationError); }
      }
      if issue.planId != planId { return Fail(ValidationError); }
      if planId !in plans { return Fail(NotFound); }
      var plan := plans[planId];
      if plan.status != PlanEnabled { return Fail(StateError); }
      if isEnd {
        if issue.status == IssueEnded { return Fail(StateError); }
      } else {
        if issue.status != IssueNormal { return Fail(StateError); }
      }

      // the outer total_unlocked: declared without a value and never assigned
      var totalUnlocked: U64 := residue;
      if issue.status == IssueNormal {
        var o := Settle(c, planId, issueId, plan, issue, isEnd);
        if o.Fail? { return o; }
      }

      var locked: U64 := (issue.issued - totalUnlocked) % U64_MOD;
      issues := issues[issueId := issue.(unlocked := totalUnlocked, locked := locked,
                                         status := if isEnd then IssueEnded else issue.status,
                                         updatedAt := c.now)];
      return Pass;
    }

    /**
     * The schedule step of `internal_unlock` for a NORMAL issue. Its `totalUnlocked` is a
     * second variable that shadows the caller's and dies with this step.
     */
    method Settle(c: Chain, planId: nat, issueId: nat, plan: Plan, issue: Issue, isEnd: bool) returns (r: Outcome<Error>)
      modifies this
      ensures r == OutcomeOf(CustodyModel.Settle(old(State()), c.now, planId, issueId, plan, issue, isEnd))
      ensures State() == After(old(State()), CustodyModel.Settle(old(State()), c.now, planId, issueId, plan, issue, isEnd))
    {
      if c.now < issue.issuedAt { return Fail(InvariantViolation); }
      var issuedDays := (c.now - issue.issuedAt) / DAY_SECONDS;
      var unlockedDays := if issuedDays > issue.firstUnlockDays then issuedDays - issue.firstUnlockDays else 0;
      if plan.unlockIntervalDays == 0 { return Fail(InvariantViolation); }
      var unlockedTimes := Min(unlockedDays / plan.unlockIntervalDays, plan.unlockTimes);
      if plan.unlockTimes == 0 { return Fail(InvariantViolation); }
      var totalUnlocked := MulDiv(issue.issued, unlockedTimes, plan.unlockTimes);
      assert totalUnlocked == ScheduledTotal(issue.issued, IssuedDays(c.now, issue.issuedAt), issue.firstUnlockDays,
                                             plan.unlockIntervalDays, plan.unlockTimes);
      if !(totalUnlocked >= issue.unlocked && issue.issued > totalUnlocked) { return Fail(InvariantViolation); }
      var curUnlocked := totalUnlocked - issue.unlocked;

      if curUnlocked > 0 {
        outbox := outbox + [Transfer(plan.assetContract, issue.receiver, Asset(curUnlocked, plan.assetSymbol), UnlockMemo(issueId, planId))];
      } else if !isEnd {
        return Fail(AlreadyUnlocked);
      }

      var refunded := issue.locked;
      if isEnd && refunded > 0 {
        outbox := outbox + [Transfer(plan.assetContract, issue.issuer, Asset(refunded, plan.assetSymbol), RefundMemo(issueId))];
      }
      plans := plans[planId := plan.(totalUnlocked := plan.totalUnlocked + curUnlocked,
                                     totalRefunded := plan.totalRefunded + refunded,
                                     updatedAt := c.now)];
      return Pass;
    }
  }
}
