/**
 * Properties of the custody engine, stated over the action functions of `CustodyModel`.
 * The quirks of the code are stated as they are, not repaired.
 */
module CustodyLemmas {
  import opened Wrappers
  import opened Eosio
  import opened Utils
  import opened CustodyModel

  // ---------------------------------------------------------------- arithmetic helpers

  lemma MulMonotone(a: nat, x: nat, y: nat)
    requires x <= y
    ensures x * a <= y * a
  {
  }

  lemma MulLess(x: nat, y: nat, c: nat)
    requires x * c < y * c
    ensures x < y
  {
  }

  /** Below `a * c`, a quotient by `c` stays below `a`. */
  lemma DivBelow(x: nat, a: nat, c: nat)
    requires c > 0 && x < a * c
    ensures x / c < a
  {
  }

  lemma DivAbove(x: nat, a: nat, c: nat)
    requires c > 0 && a * c <= x
    ensures a <= x / c
  {
    var q := x / c;
    assert x < q * c + c;
    assert q * c + c == (q + 1) * c;
    MulLess(a, q + 1, c);
  }

  lemma DivMonotone(a: nat, b: nat, c: nat)
    requires c > 0 && a <= b
    ensures a / c <= b / c
  {
    var q := b / c;
    assert b < q * c + c;
    assert q * c + c == (q + 1) * c;
    DivBelow(a, q + 1, c);
  }

  lemma DivExact(a: nat, c: nat)
    requires c > 0
    ensures a * c / c == a
  {
    DivAbove(a * c, a, c);
    assert a * c < (a + 1) * c;
    DivBelow(a * c, a + 1, c);
  }

  // ---------------------------------------------------------------- the release schedule

  /** The released amount never exceeds the issued amount. */
  lemma ScheduleBounded(issued: nat, days: nat, first: nat, interval: nat, times: nat)
    requires interval > 0 && times > 0
    ensures ScheduledTotal(issued, days, first, interval, times) <= issued
  {
    var p := UnlockedPeriods(days, first, interval, times);
    MulMonotone(issued, p, times);
    assert issued * p <= issued * times;
    DivMonotone(issued * p, issued * times, times);
    DivExact(issued, times);
  }

  /** The released amount only grows as days pass. */
  lemma ScheduleMonotone(issued: nat, d1: nat, d2: nat, first: nat, interval: nat, times: nat)
    requires interval > 0 && times > 0 && d1 <= d2
    ensures ScheduledTotal(issued, d1, first, interval, times) <= ScheduledTotal(issued, d2, first, interval, times)
  {
    var u1 := if d1 > first then d1 - first else 0;
    var u2 := if d2 > first then d2 - first else 0;
    DivMonotone(u1, u2, interval);
    var p1 := UnlockedPeriods(d1, first, interval, times);
    var p2 := UnlockedPeriods(d2, first, interval, times);
    assert p1 <= p2;
    MulMonotone(issued, p1, p2);
    assert issued * p1 <= issued * p2;
    DivMonotone(issued * p1, issued * p2, times);
  }

  /** The whole issued amount is released exactly when all periods have passed (or nothing was issued). */
  lemma ScheduleComplete(issued: nat, days: nat, first: nat, interval: nat, times: nat)
    requires interval > 0 && times > 0
    ensures ScheduledTotal(issued, days, first, interval, times) == issued <==>
            (issued == 0 || UnlockedPeriods(days, first, interval, times) == times)
  {
    var p := UnlockedPeriods(days, first, interval, times);
    if p == times {
      DivExact(issued, times);
    } else if issued > 0 {
      MulMonotone(issued, p, times - 1);
      assert issued * p <= issued * (times - 1);
      assert issued * (times - 1) == issued * times - issued;
      DivBelow(issued * p, issued, times);
    }
  }

  /**
   * The schedule of 1000 tokens in 4 releases every 30 days with no grace period, as the
   * code computes it: nothing on day 29, 250 on day 30, 500 on day 65, 750 on day 90 and
   * all of it from day 120 on.
   */
  lemma ScheduleExample()
    ensures ScheduledTotal(1000, 29, 0, 30, 4) == 0
    ensures ScheduledTotal(1000, 30, 0, 30, 4) == 250
    ensures ScheduledTotal(1000, 65, 0, 30, 4) == 500
    ensures ScheduledTotal(1000, 90, 0, 30, 4) == 750
    ensures ScheduledTotal(1000, 120, 0, 30, 4) == 1000
  {
  }

  // ---------------------------------------------------------------- the unlock engine

  /** The facts `internal_unlock` finds before it reaches the schedule step. */
  ghost predicate SettleReached(st: CustodyState, now: nat, planId: nat, issueId: nat)
  {
    issueId in st.issues && planId in st.plans &&
    st.issues[issueId].planId == planId && st.issues[issueId].status == IssueNormal &&
    st.plans[planId].status == PlanEnabled &&
    st.plans[planId].unlockIntervalDays > 0 && st.plans[planId].unlockTimes > 0 &&
    st.issues[issueId].issuedAt <= now
  }

  /** The cumulative amount the schedule releases for the issue at `now`. */
  ghost function TotalAt(st: CustodyState, now: nat, planId: nat, issueId: nat): nat
    requires SettleReached(st, now, planId, issueId)
  {
    var issue := st.issues[issueId];
    var plan := st.plans[planId];
    ScheduledTotal(issue.issued, IssuedDays(now, issue.issuedAt), issue.firstUnlockDays,
                   plan.unlockIntervalDays, plan.unlockTimes)
  }

  /**
   * A successful unlock pays the receiver exactly the newly released amount, which is
   * positive; the plan's `total_unlocked` grows by that amount and its `total_refunded` by
   * the issue's stored `locked`, although nothing is refunded.
   */
  lemma UnlockPaysDelta(st: CustodyState, c: Chain, receiver: Name, planId: nat, issueId: nat, residue: U64)
    requires Unlock(st, c, receiver, planId, issueId, residue).Ok?
    ensures SettleReached(st, c.now, planId, issueId)
    ensures var issue := st.issues[issueId];
      var plan := st.plans[planId];
      var total := TotalAt(st, c.now, planId, issueId);
      var cur := total - issue.unlocked;
      var after := Unlock(st, c, receiver, planId, issueId, residue).value;
      issue.unlocked < total < issue.issued &&
      after.outbox == st.outbox + [Transfer(plan.assetContract, receiver, Asset(cur, plan.assetSymbol), UnlockMemo(issueId, planId))] &&
      after.plans == st.plans[planId := plan.(totalUnlocked := plan.totalUnlocked + cur,
                                              totalRefunded := plan.totalRefunded + issue.locked,
                                              updatedAt := c.now)] &&
      after.issues == st.issues[issueId := Closed(issue, residue, false, c.now)]
  {
  }

  /**
   * `unlock` succeeds exactly when the receiver signs for a NORMAL issue of an enabled plan
   * whose schedule has released more than is already unlocked, but not everything.
   */
  lemma UnlockSucceeds(st: CustodyState, c: Chain, receiver: Name, planId: nat, issueId: nat, residue: U64)
    ensures Unlock(st, c, receiver, planId, issueId, residue).Ok? <==>
      receiver in c.auth && SettleReached(st, c.now, planId, issueId) &&
      st.issues[issueId].receiver == receiver &&
      st.issues[issueId].unlocked < TotalAt(st, c.now, planId, issueId) < st.issues[issueId].issued
  {
  }

  /**
   * `endissue` succeeds exactly when the issuer signs for an issue of an enabled plan that has
   * not ended; a NORMAL issue also needs a released total between its unlocked amount
   * (inclusive) and its issued amount (exclusive).
   */
  lemma EndIssueSucceeds(st: CustodyState, c: Chain, issuer: Name, planId: nat, issueId: nat, residue: U64)
    ensures EndIssue(st, c, issuer, planId, issueId, residue).Ok? <==>
      issuer in c.auth && issueId in st.issues && planId in st.plans &&
      st.issues[issueId].issuer == issuer && st.issues[issueId].planId == planId &&
      st.plans[planId].status == PlanEnabled && st.issues[issueId].status != IssueEnded &&
      (st.issues[issueId].status == IssueNormal ==>
        SettleReached(st, c.now, planId, issueId) &&
        st.issues[issueId].unlocked <= TotalAt(st, c.now, planId, issueId) < st.issues[issueId].issued)
  {
  }

  /** An unlock that would pay nothing aborts with `AlreadyUnlocked`; an end action goes ahead. */
  lemma NoProgressRule(st: CustodyState, c: Chain, actor: Name, planId: nat, issueId: nat, isEnd: bool, residue: U64)
    requires SettleReached(st, c.now, planId, issueId)
    requires actor in c.auth && (if isEnd then st.issues[issueId].issuer == actor else st.issues[issueId].receiver == actor)
    requires TotalAt(st, c.now, planId, issueId) == st.issues[issueId].unlocked < st.issues[issueId].issued
    ensures !isEnd ==> Unlock(st, c, actor, planId, issueId, residue) == Err(AlreadyUnlocked)
    ensures isEnd ==> EndIssue(st, c, actor, planId, issueId, residue).Ok?
  {
  }

  /**
   * Ending a deposited issue pays out what is newly released and refunds the issue's stored
   * `locked`, the value before this step, not `issued` minus the new total.
   */
  lemma EndIssueRefundsStoredLocked(st: CustodyState, c: Chain, issuer: Name, planId: nat, issueId: nat, residue: U64)
    requires EndIssue(st, c, issuer, planId, issueId, residue).Ok?
    requires st.issues[issueId].status == IssueNormal
    ensures SettleReached(st, c.now, planId, issueId)
    ensures var issue := st.issues[issueId];
      var plan := st.plans[planId];
      var cur := TotalAt(st, c.now, planId, issueId) - issue.unlocked;
      var after := EndIssue(st, c, issuer, planId, issueId, residue).value;
      after.outbox == st.outbox +
        (if cur > 0 then [Transfer(plan.assetContract, issue.receiver, Asset(cur, plan.assetSymbol), UnlockMemo(issueId, planId))] else []) +
        (if issue.locked > 0 then [Transfer(plan.assetContract, issuer, Asset(issue.locked, plan.assetSymbol), RefundMemo(issueId))] else []) &&
      after.plans[planId].totalUnlocked == plan.totalUnlocked + cur &&
      after.plans[planId].totalRefunded == plan.totalRefunded + issue.locked &&
      after.issues[issueId].status == IssueEnded
  {
  }

  /** Ending an issue that was never deposited touches neither the plan nor the outbox. */
  lemma EndUndepositedIssue(st: CustodyState, c: Chain, issuer: Name, planId: nat, issueId: nat, residue: U64)
    requires EndIssue(st, c, issuer, planId, issueId, residue).Ok?
    requires st.issues[issueId].status == IssueUndeposited
    ensures var after := EndIssue(st, c, issuer, planId, issueId, residue).value;
      after.plans == st.plans && after.outbox == st.outbox &&
      after.issues == st.issues[issueId := Closed(st.issues[issueId], residue, true, c.now)]
  {
  }

  /** After a successful end, every later unlock or end of that issue fails. */
  lemma EndedIsFinal(st: CustodyState, c: Chain, issuer: Name, planId: nat, issueId: nat, residue: U64,
                     c': Chain, actor: Name, planId': nat, isEnd: bool, residue': U64)
    requires EndIssue(st, c, issuer, planId, issueId, residue).Ok?
    ensures InternalUnlock(EndIssue(st, c, issuer, planId, issueId, residue).value, c', actor, planId', issueId, isEnd, residue').Err?
  {
  }

  /**
   * The check `issued > total_unlocked` is strict: once every period has passed, a deposited
   * issue can be neither unlocked nor ended, so its last release is never paid.
   */
  lemma FinalPeriodAborts(st: CustodyState, c: Chain, actor: Name, planId: nat, issueId: nat, isEnd: bool, residue: U64)
    requires SettleReached(st, c.now, planId, issueId)
    requires var issue := st.issues[issueId];
      UnlockedPeriods(IssuedDays(c.now, issue.issuedAt), issue.firstUnlockDays,
                      st.plans[planId].unlockIntervalDays, st.plans[planId].unlockTimes) == st.plans[planId].unlockTimes
    ensures InternalUnlock(st, c, actor, planId, issueId, isEnd, residue).Err?
  {
    var issue := st.issues[issueId];
    var plan := st.plans[planId];
    ScheduleComplete(issue.issued, IssuedDays(c.now, issue.issuedAt), issue.firstUnlockDays,
                     plan.unlockIntervalDays, plan.unlockTimes);
  }

  /**
   * When the stored `unlocked` is the inner total (what the code evidently means), the issue
   * keeps `unlocked + locked == issued` and `unlocked` grows.
   */
  lemma IntendedResidue(st: CustodyState, c: Chain, receiver: Name, planId: nat, issueId: nat, residue: U64)
    requires SettleReached(st, c.now, planId, issueId) && residue == TotalAt(st, c.now, planId, issueId)
    requires Unlock(st, c, receiver, planId, issueId, residue).Ok?
    ensures var issue' := Unlock(st, c, receiver, planId, issueId, residue).value.issues[issueId];
      issue'.unlocked + issue'.locked == issue'.issued &&
      issue'.unlocked > st.issues[issueId].unlocked
  {
    UnlockPaysDelta(st, c, receiver, planId, issueId, residue);
  }

  /** With that same residue, a repeated unlock in the same period aborts. */
  lemma IntendedResidueOncePerPeriod(st: CustodyState, c: Chain, receiver: Name, planId: nat, issueId: nat,
                                     residue: U64, residue': U64)
    requires SettleReached(st, c.now, planId, issueId) && residue == TotalAt(st, c.now, planId, issueId)
    requires Unlock(st, c, receiver, planId, issueId, residue).Ok?
    ensures Unlock(Unlock(st, c, receiver, planId, issueId, residue).value, c, receiver, planId, issueId, residue') == Err(AlreadyUnlocked)
  {
    UnlockPaysDelta(st, c, receiver, planId, issueId, residue);
    var st' := Unlock(st, c, receiver, planId, issueId, residue).value;
    assert SettleReached(st', c.now, planId, issueId);
    assert TotalAt(st', c.now, planId, issueId) == residue;
    NoProgressRule(st', c, receiver, planId, issueId, false, residue');
  }

  /**
   * When the stored `unlocked` is merely the old one, a second unlock at the same moment
   * pays the receiver the same amount again.
   */
  lemma StaleResiduePaysTwice(st: CustodyState, c: Chain, receiver: Name, planId: nat, issueId: nat)
    requires issueId in st.issues && Unlock(st, c, receiver, planId, issueId, st.issues[issueId].unlocked).Ok?
    ensures var once := Unlock(st, c, receiver, planId, issueId, st.issues[issueId].unlocked).value;
      var twice := Unlock(once, c, receiver, planId, issueId, st.issues[issueId].unlocked);
      twice.Ok? &&
      |twice.value.outbox| == |st.outbox| + 2 &&
      twice.value.outbox[|st.outbox| + 1] == once.outbox[|st.outbox|] &&
      twice.value.plans[planId].totalUnlocked == 2 * once.plans[planId].totalUnlocked - st.plans[planId].totalUnlocked
  {
    var residue := st.issues[issueId].unlocked;
    UnlockPaysDelta(st, c, receiver, planId, issueId, residue);
    var once := Unlock(st, c, receiver, planId, issueId, residue).value;
    assert SettleReached(once, c.now, planId, issueId);
    assert once.issues[issueId].unlocked == residue;
    assert TotalAt(once, c.now, planId, issueId) == TotalAt(st, c.now, planId, issueId);
  }

  /**
   * The plan counters do not keep `total_unlocked + total_refunded <= total_issued`: one
   * unlock of a fresh issue whose stored `locked` is its `issued` already breaks it.
   */
  lemma ConservationBroken()
    ensures var plan := Plan(1, "owner", "", "token", Symbol("TKN", 4), 30, 4, PlanEnabled, 1000, 0, 0, 0, 0);
      var issue := Issue(1, 1, "issuer", "receiver", 0, 1000, 0, 1000, IssueNormal, 0, 0);
      var st := CustodyState(Global(Asset(0, Symbol("AMAX", 8)), "fees"), map[1 := plan], map[1 := issue], map[], []);
      var c := Chain(30 * DAY_SECONDS, {"receiver"}, {}, "");
      var r := Unlock(st, c, "receiver", 1, 1, 250);
      Valid(st) && r.Ok? &&
      r.value.plans[1].totalUnlocked == 250 && r.value.plans[1].totalRefunded == 1000 &&
      r.value.plans[1].totalUnlocked + r.value.plans[1].totalRefunded > r.value.plans[1].totalIssued
  {
    assert ScheduledTotal(1000, 30, 0, 30, 4) == 250;
  }

  // ---------------------------------------------------------------- the plan registry

  /** `enableplan` stores `PLAN_UNPAID_FEE`, so an immediate second call always fails. */
  lemma EnablePlanTwiceFails(st: CustodyState, c: Chain, owner: Name, planId: nat, enabled: bool,
                             c': Chain, owner': Name, enabled': bool)
    requires EnablePlan(st, c, owner, planId, enabled).Ok?
    ensures EnablePlan(st, c, owner, planId, enabled).value.plans[planId].status == PlanUnpaidFee
    ensures EnablePlan(EnablePlan(st, c, owner, planId, enabled).value, c', owner', planId, enabled').Err?
  {
  }

  /** After `enableplan` no issue can be added to the plan until its fee is paid again. */
  lemma EnablePlanBlocksIssues(st: CustodyState, env: Settings, c: Chain, owner: Name, planId: nat, enabled: bool,
                               c': Chain, issuer: Name, receiver: Name, first: nat)
    requires EnablePlan(st, c, owner, planId, enabled).Ok?
    ensures AddIssue(EnablePlan(st, c, owner, planId, enabled).value, env, c', issuer, receiver, planId, first) == Err(StateError) ||
            AddIssue(EnablePlan(st, c, owner, planId, enabled).value, env, c', issuer, receiver, planId, first) == Err(AuthorizationError)
  {
  }

  /** No action stores `PLAN_DISABLED`, so asking `enableplan` to enable never succeeds. */
  lemma EnableNeverSucceeds(st: CustodyState, c: Chain, owner: Name, planId: nat)
    requires Valid(st)
    ensures EnablePlan(st, c, owner, planId, true).Err?
  {
  }

  /** A new plan with a fee configured waits for it, and `enableplan` cannot skip the payment. */
  lemma FeeGating(st: CustodyState, env: Settings, c: Chain, owner: Name, title: string, contract: Name,
                  sym: Symbol, days: nat, times: int, c': Chain, owner': Name, enabled: bool)
    requires st.config.planFee.amount != 0
    requires AddPlan(st, env, c, owner, title, contract, sym, days, times).Ok?
    ensures var id := NewId(st.plans);
      var st' := AddPlan(st, env, c, owner, title, contract, sym, days, times).value;
      st'.plans[id].status == PlanUnpaidFee &&
      EnablePlan(st', c', owner', id, enabled).Err?
  {
  }

  /** Creating a plan makes it the sender's default target for a `plan:` memo with no id. */
  lemma LatestPlanIsDefault(st: CustodyState, env: Settings, c: Chain, owner: Name, title: string, contract: Name,
                            sym: Symbol, days: nat, times: int)
    requires AddPlan(st, env, c, owner, title, contract, sym, days, times).Ok?
    ensures ResolvePlanId(AddPlan(st, env, c, owner, title, contract, sym, days, times).value.accounts, owner, "") ==
            Ok(NewId(st.plans))
  {
  }

  /** Likewise an issue becomes the issuer's default target for an `issue:` memo. */
  lemma LatestIssueIsDefault(st: CustodyState, env: Settings, c: Chain, issuer: Name, receiver: Name, planId: nat, first: nat)
    requires AddIssue(st, env, c, issuer, receiver, planId, first).Ok?
    ensures ResolveIssueId(AddIssue(st, env, c, issuer, receiver, planId, first).value.accounts, issuer, "") ==
            Ok(NewId(st.issues))
  {
  }

  /**
   * `delplan` keeps the plan's issues; when the plan held the only id, the next plan gets
   * that id again and the orphaned issue now points at the new plan.
   */
  lemma DeletedPlanIdReused(st: CustodyState, env: Settings, c: Chain, owner: Name, title: string, contract: Name,
                            sym: Symbol, days: nat, times: int, issueId: nat)
    requires st.plans.Keys == {1} && issueId in st.issues && st.issues[issueId].planId == 1
    requires DelPlan(st, env, c, owner, 1).Ok?
    requires AddPlan(DelPlan(st, env, c, owner, 1).value, env, c, owner, title, contract, sym, days, times).Ok?
    ensures var st' := AddPlan(DelPlan(st, env, c, owner, 1).value, env, c, owner, title, contract, sym, days, times).value;
      st'.plans.Keys == {1} && st'.plans[1].title == title && st'.issues[issueId] == st.issues[issueId]
  {
    assert (st.plans - {1}) == map[];
  }

  // ---------------------------------------------------------------- the deposit reconciler

  lemma SplitKindAndId(kind: string, param: string)
    requires ':' !in kind && ':' !in param
    ensures Split(kind + [':'] + param, ':') == [kind, param]
  {
    SplitPrefix(kind, ':', param);
    SplitPlain(param, ':');
  }

  /**
   * A `plan:<id>` deposit commits exactly when the fee's symbol and amount match, the id
   * resolves, and the plan is waiting for its fee; it then only enables that plan.
   */
  lemma PlanFeeDeposit(st: CustodyState, env: Settings, c: Chain, from: Name, quantity: Asset, param: string)
    requires from != env.self && quantity.amount > 0 && ':' !in param
    ensures var r := OnTransfer(st, env, c, from, env.self, quantity, "plan:" + param);
      var id := ResolvePlanId(st.accounts, from, param);
      (r.Ok? <==> quantity.symbol == env.sysSymbol && quantity.amount == st.config.planFee.amount &&
                  id.Ok? && id.value in st.plans && st.plans[id.value].status == PlanUnpaidFee) &&
      (r.Ok? ==> r.value == st.(plans := st.plans[id.value := st.plans[id.value].(status := PlanEnabled, updatedAt := c.now)]))
  {
    assert "plan:" + param == "plan" + [':'] + param;
    SplitKindAndId("plan", param);
  }

  /**
   * An `issue:<id>` deposit commits exactly when the issue waits for its deposit, its plan
   * is enabled, and the token contract, symbol and amount are the plan's and the issue's;
   * it then adds the amount to the plan's `total_issued` and starts the issue.
   */
  lemma IssueDeposit(st: CustodyState, env: Settings, c: Chain, from: Name, quantity: Asset, param: string)
    requires from != env.self && quantity.amount > 0 && ':' !in param
    ensures var r := OnTransfer(st, env, c, from, env.self, quantity, "issue:" + param);
      var id := ResolveIssueId(st.accounts, from, param);
      (r.Ok? <==>
        id.Ok? && id.value in st.issues && st.issues[id.value].status == IssueUndeposited &&
        st.issues[id.value].planId in st.plans &&
        var plan := st.plans[st.issues[id.value].planId];
        plan.status == PlanEnabled && plan.assetContract == c.firstReceiver &&
        plan.assetSymbol == quantity.symbol && st.issues[id.value].issued == quantity.amount) &&
      (r.Ok? ==>
        var issue := st.issues[id.value];
        var plan := st.plans[issue.planId];
        r.value == st.(plans := st.plans[issue.planId := plan.(totalIssued := plan.totalIssued + quantity.amount, updatedAt := c.now)],
                       issues := st.issues[id.value := issue.(status := IssueNormal, updatedAt := c.now)]))
  {
    assert "issue:" + param == "issue" + [':'] + param;
    SplitKindAndId("issue", param);
  }

  /** The memo `plan:<id>` written in decimal names plan `<id>`. */
  lemma PlanMemoRoundTrip(accounts: map<Name, Account>, from: Name, id: nat)
    requires 0 < id < U64_MOD
    ensures ResolvePlanId(accounts, from, Decimal(id)) == Ok(id)
  {
    ParseDecimal(id, U64_MOD);
  }

  /** The memo `issue:<id>` written in decimal names issue `<id>` below `ULONG_MAX`. */
  lemma IssueMemoRoundTrip(accounts: map<Name, Account>, from: Name, id: nat)
    requires 0 < id < ULONG_MAX
    ensures ResolveIssueId(accounts, from, Decimal(id)) == Ok(id)
  {
    DigitPrefixOfDigits(Decimal(id));
    DecimalRoundTrip(id);
  }

  /**
   * `strtoul` accepts a sign: `issue:+<k>` names issue `<k>`, and `issue:-<k>` names issue
   * 2^32 - k.
   */
  lemma SignedIssueId(accounts: map<Name, Account>, from: Name, k: nat)
    requires 0 < k <= ULONG_MAX
    ensures ResolveIssueId(accounts, from, "+" + Decimal(k)) == Ok(k)
    ensures ResolveIssueId(accounts, from, "-" + Decimal(k)) == Ok(U32_MOD - k)
  {
    StrToULSigned(k);
    assert "+" + Decimal(k) != [] && "-" + Decimal(k) != [];
  }

  /** `issue:-4294967295` names issue 1. */
  lemma NegatedIssueId(accounts: map<Name, Account>, from: Name)
    ensures ResolveIssueId(accounts, from, "-" + Decimal(ULONG_MAX)) == Ok(1)
  {
    SignedIssueId(accounts, from, ULONG_MAX);
  }

  /** `strtoul` ignores what follows the digits, while the plan id parser rejects it. */
  lemma LenientIssueId(accounts: map<Name, Account>, from: Name)
    ensures ResolveIssueId(accounts, from, "7x") == Ok(7)
    ensures ResolvePlanId(accounts, from, "7x") == Err(ValidationError)
  {
    assert DigitPrefix("7x") == "7" by {
      assert "7x"[1..] == "x";
      assert DigitPrefix("x") == [];
    }
    assert DecimalValue("7") == 7;
    assert !AllDigits("7x") by { assert !IsDigit("7x"[1]); }
  }

  // ---------------------------------------------------------------- invariants of every action

  /** The issue amounts are never written after `addissue`, so they stay the row defaults. */
  ghost predicate AmountsAreDefaults(st: CustodyState, env: Settings)
  {
    forall id :: id in st.issues ==> st.issues[id].issued == env.issueDefault.issued
  }

  lemma AddPlanKeepsValid(st: CustodyState, env: Settings, c: Chain, owner: Name, title: string, contract: Name,
                          sym: Symbol, days: nat, times: int)
    requires Valid(st) && AddPlan(st, env, c, owner, title, contract, sym, days, times).Ok?
    ensures Valid(AddPlan(st, env, c, owner, title, contract, sym, days, times).value)
  {
    var st' := AddPlan(st, env, c, owner, title, contract, sym, days, times).value;
    var id := NewId(st.plans);
    forall k | k in st'.plans
      ensures PlanRowValid(k, st'.plans[k])
    {
      if k != id { assert st'.plans[k] == st.plans[k]; }
    }
  }

  lemma AddIssueKeepsValid(st: CustodyState, env: Settings, c: Chain, issuer: Name, receiver: Name, planId: nat, first: nat)
    requires Valid(st) && AmountsAreDefaults(st, env)
    requires AddIssue(st, env, c, issuer, receiver, planId, first).Ok?
    ensures Valid(AddIssue(st, env, c, issuer, receiver, planId, first).value)
    ensures AmountsAreDefaults(AddIssue(st, env, c, issuer, receiver, planId, first).value, env)
  {
  }

  lemma OnTransferKeepsValid(st: CustodyState, env: Settings, c: Chain, from: Name, to: Name, quantity: Asset, memo: string)
    requires Valid(st) && AmountsAreDefaults(st, env)
    requires OnTransfer(st, env, c, from, to, quantity, memo).Ok?
    ensures Valid(OnTransfer(st, env, c, from, to, quantity, memo).value)
    ensures AmountsAreDefaults(OnTransfer(st, env, c, from, to, quantity, memo).value, env)
  {
    var params := Split(memo, ':');
    if from != env.self && to == env.self && quantity.amount > 0 && |params| == 2 {
      if params[0] == "plan" {
        var id := ResolvePlanId(st.accounts, from, params[1]).value;
        assert OnTransfer(st, env, c, from, to, quantity, memo) == PayPlanFee(st, env, c, from, quantity, params[1]);
      } else if params[0] == "issue" {
        assert OnTransfer(st, env, c, from, to, quantity, memo) == DepositIssue(st, c, from, quantity, params[1]);
      }
    }
  }

  lemma InternalUnlockKeepsValid(st: CustodyState, env: Settings, c: Chain, actor: Name, planId: nat, issueId: nat, isEnd: bool, residue: U64)
    requires Valid(st) && AmountsAreDefaults(st, env)
    requires InternalUnlock(st, c, actor, planId, issueId, isEnd, residue).Ok?
    ensures Valid(InternalUnlock(st, c, actor, planId, issueId, isEnd, residue).value)
    ensures AmountsAreDefaults(InternalUnlock(st, c, actor, planId, issueId, isEnd, residue).value, env)
  {
    var st' := InternalUnlock(st, c, actor, planId, issueId, isEnd, residue).value;
    forall k | k in st'.plans
      ensures PlanRowValid(k, st'.plans[k])
    {
      if k != planId { assert st'.plans[k] == st.plans[k]; }
    }
  }

  /** Every action keeps the rows well formed and the issued amounts at their defaults. */
  lemma StepKeepsValid(st: CustodyState, env: Settings, c: Chain, call: Call)
    requires Valid(st) && AmountsAreDefaults(st, env)
    requires Step(st, env, c, call).Ok?
    ensures Valid(Step(st, env, c, call).value) && AmountsAreDefaults(Step(st, env, c, call).value, env)
  {
    match call {
      case AddPlanCall(owner, title, contract, sym, days, times) =>
        AddPlanKeepsValid(st, env, c, owner, title, contract, sym, days, times);
      case AddIssueCall(issuer, receiver, planId, first) =>
        AddIssueKeepsValid(st, env, c, issuer, receiver, planId, first);
      case TransferCall(from, to, quantity, memo) =>
        OnTransferKeepsValid(st, env, c, from, to, quantity, memo);
      case EndIssueCall(issuer, planId, issueId, residue) =>
        InternalUnlockKeepsValid(st, env, c, issuer, planId, issueId, true, residue);
      case UnlockCall(receiver, planId, issueId, residue) =>
        InternalUnlockKeepsValid(st, env, c, receiver, planId, issueId, false, residue);
      case _ =>
    }
  }

  /** With the row default `issued` at 0, no issue deposit can ever be accepted. */
  lemma ZeroDefaultBlocksDeposits(st: CustodyState, env: Settings, c: Chain, from: Name, to: Name, quantity: Asset, memo: string)
    requires AmountsAreDefaults(st, env) && env.issueDefault.issued == 0
    requires Split(memo, ':')[0] == "issue" && from != env.self && to == env.self
    ensures OnTransfer(st, env, c, from, to, quantity, memo).Err?
  {
  }

  /** An ended issue is never written again, by any action. */
  lemma EndedIsTerminal(st: CustodyState, env: Settings, c: Chain, call: Call, issueId: nat)
    requires issueId in st.issues && st.issues[issueId].status == IssueEnded
    requires Step(st, env, c, call).Ok?
    ensures issueId in Step(st, env, c, call).value.issues
    ensures Step(st, env, c, call).value.issues[issueId] == st.issues[issueId]
  {
    match call {
      case TransferCall(from, to, quantity, memo) =>
        var params := Split(memo, ':');
        if from != env.self && to == env.self && quantity.amount > 0 && |params| == 2 && params[0] == "issue" {
          var id := ResolveIssueId(st.accounts, from, params[1]).value;
          assert id != issueId;
        }
      case _ =>
    }
  }
}
