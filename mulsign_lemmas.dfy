/**
 * Properties of the multisig wallet model: the signer weight bound and its 32-bit
 * wrap-around, the proposal state machine (an approved proposal can never be executed),
 * the fee wallet, balance debits, and the row invariants every action keeps.
 */
module MulsignLemmas {
  import opened Wrappers
  import opened Eosio
  import opened Utils
  import opened MulsignDb
  import opened MulsignModel

  // ---------------------------------------------------------------- weights

  /** The weight of a single signer. */
  lemma SumSingle(k: Name, v: U32)
    ensures Sum(map[k := v]) == v
  {
    SumRemove(map[k := v], k);
    assert map[k := v] - {k} == map[];
  }

  /**
   * The total weight is summed in 32 bits: with `alice` at weight 2 and `mulsignN` 3, the
   * creator may add `bob` at weight 2^32 - 1, since 2 + 2^32 - 1 wraps to 1. The signers then
   * weigh 2^32 + 1 in all, far above `mulsignN`.
   */
  lemma WeightWrapAdmitsOverweight(st: MulsignState, c: Chain, walletId: nat)
    requires walletId in st.wallets
    requires st.wallets[walletId].creator in c.auth && "bob" in c.accounts
    requires ElapsedSec(c.now, st.wallets[walletId].createdAt) < SECONDS_PER_DAY
    requires st.wallets[walletId].mulsigners == map["alice" := 2] && st.wallets[walletId].mulsignN == 3
    ensures var r := SetMulsigner(st, c, st.wallets[walletId].creator, walletId, "bob", U32_MOD - 1);
      r.Ok? && Sum(r.value.wallets[walletId].mulsigners) == U32_MOD + 1
  {
    var signers := map["alice" := 2]["bob" := U32_MOD - 1];
    SumUpdate(map["alice" := 2], "bob", U32_MOD - 1);
    assert map["alice" := 2] - {"bob"} == map["alice" := 2];
    SumSingle("alice", 2);
    assert Sum(signers) == U32_MOD + 1;
  }

  /**
   * After the wrapped addition above, `alice` leaving on her own leaves `bob` alone at
   * 2^32 - 1: the total exceeds `mulsignN` even in 32-bit arithmetic, and `delmulsigner`
   * does not look at weights.
   */
  lemma LeavingBreaksWeightBound(st: MulsignState, c: Chain, walletId: nat)
    requires walletId in st.wallets
    requires "alice" in c.auth && st.wallets[walletId].creator != "alice"
    requires st.wallets[walletId].mulsigners == map["alice" := 2, "bob" := U32_MOD - 1]
    requires st.wallets[walletId].mulsignN == 3
    ensures var r := DelMulsigner(st, c, "alice", walletId, "alice");
      r.Ok? && Sum(r.value.wallets[walletId].mulsigners) % U32_MOD > r.value.wallets[walletId].mulsignN
  {
    var r := DelMulsigner(st, c, "alice", walletId, "alice");
    var left := r.value.wallets[walletId].mulsigners;
    assert left == map["bob" := U32_MOD - 1];
    SumSingle("bob", U32_MOD - 1);
  }

  // ---------------------------------------------------------------- deposit memo routing

  /** A decimal id is one memo field. */
  lemma DecimalHasNoColon(n: nat)
    ensures ':' !in Decimal(n)
  {
    var d := Decimal(n);
    forall i | 0 <= i < |d| ensures d[i] != ':' {
      assert IsDigit(d[i]);
    }
  }

  /** `stoi` reads back the decimal text of any non-negative 32-bit `int`. */
  lemma StoIDecimal(n: nat)
    requires n < 0x8000_0000
    ensures StoI(Decimal(n)) == Some(n)
  {
    DigitPrefixOfDigits(Decimal(n));
    DecimalRoundTrip(n);
    assert IsDigit(Decimal(n)[0]);
  }

  /** A memo `lock:<text>` with a one-field text is routed to `lock_funds` of what `stoi` reads. */
  lemma LockMemoDispatch(st: MulsignState, self: Name, c: Chain, from: Name, quantity: Asset, idText: string)
    requires from != self && quantity.amount > 0 && ':' !in idText
    ensures OnTransfer(st, self, c, from, self, quantity, "lock:" + idText) ==
            match StoI(idText)
            case None => Err(Abort)
            case Some(v) => LockFunds(st, ToU64(v), c.firstReceiver, quantity)
  {
    assert "lock:" + idText == "lock" + [':'] + idText;
    SplitPrefix("lock", ':', idText);
    SplitPlain(idText, ':');
  }

  /** A memo `lock:<text>` whose text `stoi` reads as `v` credits wallet `(uint64_t) v`. */
  lemma LockMemoOfValue(st: MulsignState, self: Name, c: Chain, from: Name, quantity: Asset, idText: string, v: int)
    requires from != self && quantity.amount > 0 && ':' !in idText && StoI(idText) == Some(v)
    ensures OnTransfer(st, self, c, from, self, quantity, "lock:" + idText) ==
            LockFunds(st, ToU64(v), c.firstReceiver, quantity)
  {
    LockMemoDispatch(st, self, c, from, quantity, idText);
  }

  /** A transfer with memo `lock:<id>` credits the quantity to wallet `id` of the token contract. */
  lemma LockMemoRoutes(st: MulsignState, self: Name, c: Chain, from: Name, quantity: Asset, id: nat)
    requires from != self && quantity.amount > 0 && id < 0x8000_0000
    ensures OnTransfer(st, self, c, from, self, quantity, "lock:" + Decimal(id)) ==
            LockFunds(st, id, c.firstReceiver, quantity)
  {
    DecimalHasNoColon(id);
    LockMemoDispatch(st, self, c, from, quantity, Decimal(id));
    StoIDecimal(id);
  }

  /** `stoi` reads `-<n>` as -n, down to the smallest 32-bit `int`. */
  lemma StoINegated(n: nat)
    requires 0 < n <= 0x8000_0000
    ensures StoI("-" + Decimal(n)) == Some(-(n as int))
  {
    DigitPrefixOfDigits(Decimal(n));
    DecimalRoundTrip(n);
    assert ("-" + Decimal(n))[1..] == Decimal(n);
  }

  /** `lock:-<n>` is read as -n and cast to `uint64_t`: it names wallet 2^64 - n. */
  lemma NegativeLockId(st: MulsignState, self: Name, c: Chain, from: Name, quantity: Asset, n: nat)
    requires from != self && quantity.amount > 0 && 0 < n <= 0x8000_0000
    ensures OnTransfer(st, self, c, from, self, quantity, "lock:" + ("-" + Decimal(n))) ==
            LockFunds(st, U64_MOD - n, c.firstReceiver, quantity)
  {
    DecimalHasNoColon(n);
    StoINegated(n);
    LockMemoOfValue(st, self, c, from, quantity, "-" + Decimal(n), -(n as int));
  }

  /** The creation memo splits into its kind and its three fields. */
  lemma CreateMemoSplit(mText: string, nText: string, title: string)
    requires ':' !in mText && ':' !in nText && ':' !in title
    ensures Split("create:" + mText + ":" + nText + ":" + title, ':') == ["create", mText, nText, title]
  {
    var tail := nText + [':'] + title;
    var mid := mText + [':'] + tail;
    assert "create:" + mText + ":" + nText + ":" + title == "create" + [':'] + mid;
    SplitPrefix("create", ':', mid);
    SplitPrefix(mText, ':', tail);
    SplitPrefix(nText, ':', title);
    SplitPlain(title, ':');
  }

  /**
   * A transfer with memo `create:<m>:<n>:<title>` runs the wallet creation on exactly those
   * three fields.
   */
  lemma CreateMemoRoutes(st: MulsignState, self: Name, c: Chain, from: Name, quantity: Asset,
                         m: nat, n: nat, title: string)
    requires from != self && quantity.amount > 0 && ':' !in title
    ensures OnTransfer(st, self, c, from, self, quantity, "create:" + Decimal(m) + ":" + Decimal(n) + ":" + title) ==
            CreateFromMemo(st, c, from, quantity, Decimal(m), Decimal(n), title)
  {
    DecimalHasNoColon(m);
    DecimalHasNoColon(n);
    CreateMemoSplit(Decimal(m), Decimal(n), title);
  }

  /**
   * The title bound counts bytes: 512 characters such as `é`, which take two bytes each,
   * already make a title too long.
   */
  lemma MultibyteTitleOversized(st: MulsignState, c: Chain, from: Name, quantity: Asset, m: nat, n: nat, title: string)
    requires 0 < m <= n < U32_MOD
    requires |title| >= 512 && forall i :: 0 <= i < |title| ==> 0x80 <= (title[i] as int) < 0x800
    ensures CreateFromMemo(st, c, from, quantity, Decimal(m), Decimal(n), title) == Err(Oversized)
  {
    ParseDecimal(m, U32_MOD);
    ParseDecimal(n, U32_MOD);
    TwoByteUtf8Length(title);
  }

  /** An accepted wallet creation on parsed fields creates the sender's wallet with that quorum. */
  lemma CreateFromMemoWallet(st: MulsignState, c: Chain, from: Name, quantity: Asset,
                             mText: string, nText: string, title: string, m: U32, n: U32)
    requires ParseUnsigned(mText, U32_MOD) == Some(m) && ParseUnsigned(nText, U32_MOD) == Some(n)
    requires CreateFromMemo(st, c, from, quantity, mText, nText, title).Ok?
    ensures var st' := CreateFromMemo(st, c, from, quantity, mText, nText, title).value;
      var id := AvailablePrimaryKey(st.wallets);
      id in st'.wallets && st'.wallets[id].mulsignM == m && st'.wallets[id].mulsignN == n &&
      st'.wallets[id].title == title && st'.wallets[id].creator == from
  {
    var logged := if from != st.global.feeCollector
      then st.(outbox := st.outbox + [CollectFee(from, st.global.feeCollector, quantity)])
      else st;
    assert logged.wallets == st.wallets;
    var created := CreateWallet(logged, c, from, m, n, title);
    assert created.Ok?;
    assert CreateFromMemo(st, c, from, quantity, mText, nText, title) == LockFunds(created.value, 0, c.firstReceiver, quantity);
  }

  /** A wallet creation accepted on decimal fields creates the sender's wallet with that quorum. */
  lemma CreateFromDecimalQuorum(st: MulsignState, c: Chain, from: Name, quantity: Asset, m: nat, n: nat, title: string)
    requires CreateFromMemo(st, c, from, quantity, Decimal(m), Decimal(n), title).Ok?
    ensures 0 < m <= n < U32_MOD
    ensures var st' := CreateFromMemo(st, c, from, quantity, Decimal(m), Decimal(n), title).value;
      var id := AvailablePrimaryKey(st.wallets);
      id in st'.wallets && st'.wallets[id].mulsignM == m && st'.wallets[id].mulsignN == n &&
      st'.wallets[id].title == title && st'.wallets[id].creator == from
  {
    ParseDecimalExact(m, U32_MOD);
    ParseDecimalExact(n, U32_MOD);
    CreateFromMemoWallet(st, c, from, quantity, Decimal(m), Decimal(n), title, m, n);
  }

  /** A well-formed creation memo with 0 < m <= n creates a wallet with that quorum. */
  lemma CreateMemoQuorum(st: MulsignState, self: Name, c: Chain, from: Name, quantity: Asset,
                         m: nat, n: nat, title: string)
    requires from != self && quantity.amount > 0 && ':' !in title
    requires OnTransfer(st, self, c, from, self, quantity, "create:" + Decimal(m) + ":" + Decimal(n) + ":" + title).Ok?
    ensures 0 < m <= n < U32_MOD
    ensures var st' := OnTransfer(st, self, c, from, self, quantity, "create:" + Decimal(m) + ":" + Decimal(n) + ":" + title).value;
      var id := AvailablePrimaryKey(st.wallets);
      id in st'.wallets && st'.wallets[id].mulsignM == m && st'.wallets[id].mulsignN == n &&
      st'.wallets[id].title == title && st'.wallets[id].creator == from
  {
    CreateMemoRoutes(st, self, c, from, quantity, m, n, title);
    CreateFromDecimalQuorum(st, c, from, quantity, m, n, title);
  }

  // ---------------------------------------------------------------- the proposal state machine

  /** A proposal `execute` can never accept: not PROPOSED, or PROPOSED with too few votes. */
  ghost predicate NeverExecutable(st: MulsignState, pid: nat)
  {
    pid in st.proposals &&
    (st.proposals[pid].status == Proposed ==>
      st.proposals[pid].walletId in st.wallets &&
      st.proposals[pid].recvVotes < st.wallets[st.proposals[pid].walletId].mulsignM)
  }

  /** Existing wallets keep their quorum `mulsignM`. */
  ghost predicate QuorumsKept(st: MulsignState, st': MulsignState)
  {
    forall id :: id in st.wallets ==> id in st'.wallets && st'.wallets[id].mulsignM == st.wallets[id].mulsignM
  }

  lemma ExecuteRejectsNeverExecutable(st: MulsignState, c: Chain, issuer: Name, pid: nat)
    requires NeverExecutable(st, pid)
    ensures Execute(st, c, issuer, pid).Err?
  {
  }

  /** `approve` marks the proposal APPROVED, which `execute` refuses. */
  lemma ApproveMakesNeverExecutable(st: MulsignState, c: Chain, issuer: Name, pid: nat)
    requires Approve(st, c, issuer, pid).Ok?
    ensures NeverExecutable(Approve(st, c, issuer, pid).value, pid)
    ensures Execute(Approve(st, c, issuer, pid).value, c, issuer, pid) == (if issuer in c.auth then Err(StatusError) else Err(MissingAuth))
  {
  }

  /**
   * A new proposal whose `recv_votes` starts below the wallet's quorum (0 included, since
   * every wallet has `mulsignM > 0`) can never be executed.
   */
  lemma LowVotesMakeNeverExecutable(st: MulsignState, c: Chain, issuer: Name, walletId: nat, exAsset: ExtAsset,
                                    recipient: Name, memo: string, excerpt: string, url: string, unsetVotes: U32)
    requires Propose(st, c, issuer, walletId, exAsset, recipient, memo, excerpt, url, unsetVotes).Ok?
    requires unsetVotes < st.wallets[walletId].mulsignM
    ensures NeverExecutable(Propose(st, c, issuer, walletId, exAsset, recipient, memo, excerpt, url, unsetVotes).value,
                            AvailablePrimaryKey(st.proposals))
  {
  }

  lemma CreateFromMemoKeepsQuorums(st: MulsignState, c: Chain, from: Name, quantity: Asset, mText: string, nText: string, title: string)
    requires CreateFromMemo(st, c, from, quantity, mText, nText, title).Ok?
    ensures QuorumsKept(st, CreateFromMemo(st, c, from, quantity, mText, nText, title).value)
    ensures CreateFromMemo(st, c, from, quantity, mText, nText, title).value.proposals == st.proposals
  {
    var m := ParseUnsigned(mText, U32_MOD).value;
    var n := ParseUnsigned(nText, U32_MOD).value;
    var logged := if from != st.global.feeCollector
      then st.(outbox := st.outbox + [CollectFee(from, st.global.feeCollector, quantity)])
      else st;
    var created := CreateWallet(logged, c, from, m, n, title);
    assert created.Ok?;
    assert QuorumsKept(st, created.value);
  }

  lemma OnTransferKeepsQuorums(st: MulsignState, self: Name, c: Chain, from: Name, to: Name, quantity: Asset, memo: string)
    requires OnTransfer(st, self, c, from, to, quantity, memo).Ok?
    ensures QuorumsKept(st, OnTransfer(st, self, c, from, to, quantity, memo).value)
  {
    if from != self && to == self {
      var params := Split(memo, ':');
      if params[0] == "create" && |params| == 4 {
        CreateFromMemoKeepsQuorums(st, c, from, quantity, params[1], params[2], params[3]);
      }
    }
  }

  lemma ExecuteKeepsQuorums(st: MulsignState, c: Chain, issuer: Name, pid: nat)
    requires Execute(st, c, issuer, pid).Ok?
    ensures QuorumsKept(st, Execute(st, c, issuer, pid).value)
  {
    var p := st.proposals[pid];
    var paid := ExecuteProposal(st, p);
    assert paid.Ok?;
    assert QuorumsKept(st, paid.value);
  }

  /** No committed action turns a never-executable proposal into an executable one. */
  lemma StepKeepsNeverExecutable(st: MulsignState, self: Name, c: Chain, call: Call, pid: nat)
    requires NeverExecutable(st, pid)
    ensures NeverExecutable(After(st, Step(st, self, c, call)), pid)
  {
    var r := Step(st, self, c, call);
    if r.Ok? {
      match call
      case TransferCall(from, to, quantity, memo) =>
        OnTransferKeepsQuorums(st, self, c, from, to, quantity, memo);
      case ExecuteCall(issuer, id) =>
        ExecuteKeepsQuorums(st, c, issuer, id);
      case _ =>
    }
  }

  /** The state after a sequence of transactions; an aborted one leaves the state as it was. */
  ghost function Run(st: MulsignState, self: Name, steps: seq<(Chain, Call)>): MulsignState
    decreases |steps|
  {
    if steps == [] then st
    else Run(After(st, Step(st, self, steps[0].0, steps[0].1)), self, steps[1..])
  }

  /**
   * Once a proposal is never-executable, it stays so whatever follows, and every later
   * `execute` of it fails. In particular an approved proposal is never executed.
   */
  lemma {:induction false} NeverExecutableForever(st: MulsignState, self: Name, steps: seq<(Chain, Call)>, pid: nat)
    requires NeverExecutable(st, pid)
    ensures NeverExecutable(Run(st, self, steps), pid)
    ensures forall c: Chain, issuer: Name :: Execute(Run(st, self, steps), c, issuer, pid).Err?
    decreases |steps|
  {
    if steps != [] {
      StepKeepsNeverExecutable(st, self, steps[0].0, steps[0].1, pid);
      NeverExecutableForever(After(st, Step(st, self, steps[0].0, steps[0].1)), self, steps[1..], pid);
    }
    forall c: Chain, issuer: Name
      ensures Execute(Run(st, self, steps), c, issuer, pid).Err?
    {
      ExecuteRejectsNeverExecutable(Run(st, self, steps), c, issuer, pid);
    }
  }

  /** In a valid state, `execute` succeeds only on a proposal nobody has approved. */
  lemma ExecuteOnlyUnapproved(st: MulsignState, c: Chain, issuer: Name, pid: nat)
    requires Valid(st)
    requires Execute(st, c, issuer, pid).Ok?
    ensures st.proposals[pid].approvers == {}
    ensures st.proposals[pid].recvVotes >= st.wallets[st.proposals[pid].walletId].mulsignM > 0
  {
    assert ProposalValid(pid, st.proposals[pid]);
    assert WalletValid(st.proposals[pid].walletId, st.wallets[st.proposals[pid].walletId]);
  }

  /** Proposal ids start at 0: the first proposal gets id 0. */
  lemma FirstProposalIdIsZero(st: MulsignState, c: Chain, issuer: Name, walletId: nat, exAsset: ExtAsset,
                              recipient: Name, memo: string, excerpt: string, url: string, unsetVotes: U32)
    requires st.proposals == map[]
    requires Propose(st, c, issuer, walletId, exAsset, recipient, memo, excerpt, url, unsetVotes).Ok?
    ensures Propose(st, c, issuer, walletId, exAsset, recipient, memo, excerpt, url, unsetVotes).value.proposals.Keys == {0}
  {
  }

  /** An expiry that is a multiple of 2^32 seconds makes proposals expire the second they are made. */
  lemma ExpiryWraps(createdAt: U32, expirySec: U64)
    requires expirySec % U32_MOD == 0
    ensures ExpiryOf(createdAt, expirySec) == createdAt
  {
  }

  // ---------------------------------------------------------------- balances

  /** `execute_proposal` lowers exactly one balance by exactly the proposal's amount. */
  lemma ExecuteDebits(st: MulsignState, p: Proposal)
    requires p.walletId in st.wallets
    requires ExecuteProposal(st, p).Ok?
    ensures var w := st.wallets[p.walletId];
      var w' := ExecuteProposal(st, p).value.wallets[p.walletId];
      Balance(w', p.quantity.ExtendedSymbol()) == Balance(w, p.quantity.ExtendedSymbol()) - p.quantity.quantity.amount &&
      forall s :: s != p.quantity.ExtendedSymbol() ==> Balance(w', s) == Balance(w, s)
  {
  }

  /**
   * `propose` reserves nothing, so two proposals may each claim the whole balance; after one
   * is paid out, the re-check in `execute_proposal` rejects the other.
   */
  lemma SecondClaimRejected(st: MulsignState, p: Proposal, q: Proposal)
    requires p.walletId in st.wallets && q.walletId == p.walletId
    requires q.quantity.ExtendedSymbol() == p.quantity.ExtendedSymbol()
    requires ExecuteProposal(st, p).Ok?
    requires p.quantity.quantity.amount + q.quantity.quantity.amount > Balance(st.wallets[p.walletId], p.quantity.ExtendedSymbol())
    ensures ExecuteProposal(ExecuteProposal(st, p).value, q) == Err(Oversized)
  {
    ExecuteDebits(st, p);
  }

  /** A proposal leaves the balances as they are, so the same claim can be proposed twice. */
  lemma ProposeTwice(st: MulsignState, c: Chain, issuer: Name, walletId: nat, exAsset: ExtAsset,
                     recipient: Name, memo: string, excerpt: string, url: string, votes: U32, votes': U32)
    requires Propose(st, c, issuer, walletId, exAsset, recipient, memo, excerpt, url, votes).Ok?
    ensures Propose(Propose(st, c, issuer, walletId, exAsset, recipient, memo, excerpt, url, votes).value,
                    c, issuer, walletId, exAsset, recipient, memo, excerpt, url, votes').Ok?
  {
  }

  // ---------------------------------------------------------------- the fee wallet and init

  /**
   * In a valid state a `create` memo credits the whole fee to wallet 0, while the new wallet
   * starts with no assets; only the first wallet, created by the fee collector, is wallet 0
   * itself.
   */
  lemma FeeCreditedToWalletZero(st: MulsignState, c: Chain, from: Name, quantity: Asset, mText: string, nText: string, title: string)
    requires Valid(st)
    requires CreateFromMemo(st, c, from, quantity, mText, nText, title).Ok?
    ensures var st' := CreateFromMemo(st, c, from, quantity, mText, nText, title).value;
      var id := AvailablePrimaryKey(st.wallets);
      var symb := ExtSymbol(SYS_SYMBOL, SYS_BANK);
      id in st'.wallets && 0 in st'.wallets && st'.wallets[id].creator == from &&
      (id != 0 ==> st'.wallets[id].assets == map[] &&
                   Balance(st'.wallets[0], symb) == Balance(st.wallets[0], symb) + quantity.amount) &&
      (id == 0 ==> from == st.global.feeCollector && st'.wallets[0].assets == map[symb := quantity.amount])
    ensures var st' := CreateFromMemo(st, c, from, quantity, mText, nText, title).value;
      from != st.global.feeCollector <==> st'.outbox == st.outbox + [CollectFee(from, st.global.feeCollector, quantity)]
  {
    var m := ParseUnsigned(mText, U32_MOD).value;
    var n := ParseUnsigned(nText, U32_MOD).value;
    var logged := if from != st.global.feeCollector
      then st.(outbox := st.outbox + [CollectFee(from, st.global.feeCollector, quantity)])
      else st;
    var created := CreateWallet(logged, c, from, m, n, title);
    assert created.Ok?;
    var id := AvailablePrimaryKey(st.wallets);
    assert id != 0 ==> 0 in st.wallets;
  }

  /** Before `init` the wallet fee has no symbol, so the fee comparison of every `create` aborts. */
  lemma CreateBeforeInitAborts(st: MulsignState, self: Name, c: Chain, from: Name, quantity: Asset, mText: string, nText: string, title: string)
    requires st.global == InitialGlobal(self)
    requires ParseUnsigned(mText, U32_MOD).Some? && ParseUnsigned(nText, U32_MOD).Some?
    requires 0 < ParseUnsigned(mText, U32_MOD).value <= ParseUnsigned(nText, U32_MOD).value && Utf8Length(title) < 1024
    requires c.firstReceiver == SYS_BANK && quantity.symbol == SYS_SYMBOL
    ensures CreateFromMemo(st, c, from, quantity, mText, nText, title) == Err(Abort)
  {
  }

  /** `init` with a non-empty fee collector succeeds at most once. */
  lemma InitOnce(st: MulsignState, self: Name, c: Chain, feeCollector: Name, feeCollector': Name)
    requires feeCollector != EMPTY_NAME
    requires Init(st, self, c, feeCollector).Ok?
    ensures Init(Init(st, self, c, feeCollector).value, self, c, feeCollector') == Err(RecordExisting)
  {
  }

  // ---------------------------------------------------------------- invariants

  lemma SetMulsignerKeepsValid(st: MulsignState, c: Chain, issuer: Name, walletId: nat, mulsigner: Name, weight: U32)
    requires Valid(st)
    requires SetMulsigner(st, c, issuer, walletId, mulsigner, weight).Ok?
    ensures Valid(SetMulsigner(st, c, issuer, walletId, mulsigner, weight).value)
  {
    assert WalletValid(walletId, st.wallets[walletId]);
  }

  lemma SetWapExpiryKeepsValid(st: MulsignState, c: Chain, issuer: Name, walletId: nat, expirySec: U64)
    requires Valid(st)
    requires SetWapExpiry(st, c, issuer, walletId, expirySec).Ok?
    ensures Valid(SetWapExpiry(st, c, issuer, walletId, expirySec).value)
  {
    assert WalletValid(walletId, st.wallets[walletId]);
  }

  lemma DelMulsignerKeepsValid(st: MulsignState, c: Chain, issuer: Name, walletId: nat, mulsigner: Name)
    requires Valid(st)
    requires DelMulsigner(st, c, issuer, walletId, mulsigner).Ok?
    ensures Valid(DelMulsigner(st, c, issuer, walletId, mulsigner).value)
  {
    assert WalletValid(walletId, st.wallets[walletId]);
  }

  /** Crediting a positive amount keeps every balance positive. */
  lemma LockFundsKeepsValid(st: MulsignState, walletId: nat, bank: Name, quantity: Asset)
    requires Valid(st) && quantity.amount > 0
    requires LockFunds(st, walletId, bank, quantity).Ok?
    ensures Valid(LockFunds(st, walletId, bank, quantity).value)
  {
    var w := st.wallets[walletId];
    assert WalletValid(walletId, w);
    var st' := LockFunds(st, walletId, bank, quantity).value;
    var w' := st'.wallets[walletId];
    forall s | s in w'.assets
      ensures w'.assets[s] > 0
    {
    }
    assert WalletValid(walletId, w');
  }

  lemma CreateWalletKeepsValid(st: MulsignState, c: Chain, creator: Name, m: U32, n: U32, title: string)
    requires Valid(st) && 0 < m <= n
    requires CreateWallet(st, c, creator, m, n, title).Ok?
    ensures Valid(CreateWallet(st, c, creator, m, n, title).value)
  {
  }

  lemma CreateFromMemoKeepsValid(st: MulsignState, c: Chain, from: Name, quantity: Asset, mText: string, nText: string, title: string)
    requires Valid(st) && quantity.amount > 0
    requires CreateFromMemo(st, c, from, quantity, mText, nText, title).Ok?
    ensures Valid(CreateFromMemo(st, c, from, quantity, mText, nText, title).value)
  {
    var m := ParseUnsigned(mText, U32_MOD).value;
    var n := ParseUnsigned(nText, U32_MOD).value;
    var logged := if from != st.global.feeCollector
      then st.(outbox := st.outbox + [CollectFee(from, st.global.feeCollector, quantity)])
      else st;
    assert Valid(logged);
    CreateWalletKeepsValid(logged, c, from, m, n, title);
    var created := CreateWallet(logged, c, from, m, n, title).value;
    LockFundsKeepsValid(created, 0, c.firstReceiver, quantity);
  }

  lemma OnTransferKeepsValid(st: MulsignState, self: Name, c: Chain, from: Name, to: Name, quantity: Asset, memo: string)
    requires Valid(st)
    requires OnTransfer(st, self, c, from, to, quantity, memo).Ok?
    ensures Valid(OnTransfer(st, self, c, from, to, quantity, memo).value)
  {
    if from != self && to == self {
      var params := Split(memo, ':');
      if params[0] == "create" && |params| == 4 {
        CreateFromMemoKeepsValid(st, c, from, quantity, params[1], params[2], params[3]);
      } else {
        var v := StoI(params[1]).value;
        LockFundsKeepsValid(st, ToU64(v), c.firstReceiver, quantity);
      }
    }
  }

  lemma ProposeKeepsValid(st: MulsignState, c: Chain, issuer: Name, walletId: nat, exAsset: ExtAsset,
                          recipient: Name, memo: string, excerpt: string, url: string, unsetVotes: U32)
    requires Valid(st)
    requires Propose(st, c, issuer, walletId, exAsset, recipient, memo, excerpt, url, unsetVotes).Ok?
    ensures Valid(Propose(st, c, issuer, walletId, exAsset, recipient, memo, excerpt, url, unsetVotes).value)
  {
  }

  lemma CancelKeepsValid(st: MulsignState, c: Chain, issuer: Name, pid: nat)
    requires Valid(st)
    requires Cancel(st, c, issuer, pid).Ok?
    ensures Valid(Cancel(st, c, issuer, pid).value)
  {
    assert ProposalValid(pid, st.proposals[pid]);
  }

  lemma ApproveKeepsValid(st: MulsignState, c: Chain, issuer: Name, pid: nat)
    requires Valid(st)
    requires Approve(st, c, issuer, pid).Ok?
    ensures Valid(Approve(st, c, issuer, pid).value)
  {
    assert ProposalValid(pid, st.proposals[pid]);
  }

  /** A debit of a positive amount up to the balance erases the entry or leaves it positive. */
  lemma ExecuteKeepsValid(st: MulsignState, c: Chain, issuer: Name, pid: nat)
    requires Valid(st)
    requires Execute(st, c, issuer, pid).Ok?
    ensures Valid(Execute(st, c, issuer, pid).value)
  {
    var p := st.proposals[pid];
    assert ProposalValid(pid, p);
    var w := st.wallets[p.walletId];
    assert WalletValid(p.walletId, w);
    var paid := ExecuteProposal(st, p).value;
    var w' := paid.wallets[p.walletId];
    forall s | s in w'.assets
      ensures w'.assets[s] > 0
    {
    }
    assert WalletValid(p.walletId, w');
    assert Valid(paid);
  }

  /** Every committed action keeps the row invariants. */
  lemma StepKeepsValid(st: MulsignState, self: Name, c: Chain, call: Call)
    requires Valid(st)
    ensures Valid(After(st, Step(st, self, c, call)))
  {
    if Step(st, self, c, call).Ok? {
      match call
      case InitCall(fc) =>
      case SetMulsignerCall(issuer, wid, signer, weight) => SetMulsignerKeepsValid(st, c, issuer, wid, signer, weight);
      case SetWapExpiryCall(issuer, wid, sec) => SetWapExpiryKeepsValid(st, c, issuer, wid, sec);
      case DelMulsignerCall(issuer, wid, signer) => DelMulsignerKeepsValid(st, c, issuer, wid, signer);
      case TransferCall(from, to, quantity, memo) => OnTransferKeepsValid(st, self, c, from, to, quantity, memo);
      case ProposeCall(issuer, wid, ex, recipient, memo, excerpt, url, votes) =>
        ProposeKeepsValid(st, c, issuer, wid, ex, recipient, memo, excerpt, url, votes);
      case CancelCall(issuer, pid) => CancelKeepsValid(st, c, issuer, pid);
      case ApproveCall(issuer, pid) => ApproveKeepsValid(st, c, issuer, pid);
      case ExecuteCall(issuer, pid) => ExecuteKeepsValid(st, c, issuer, pid);
    }
  }

  /** Every wallet of a valid state keeps the documented quorum bound `m <= n`, with `m > 0`. */
  lemma WalletsKeepQuorumFit(st: MulsignState, id: nat)
    requires Valid(st) && id in st.wallets
    ensures QuorumFits(st.wallets[id]) && st.wallets[id].mulsignM > 0
  {
  }

  /** The names under which the statuses are stored are pairwise distinct. */
  lemma StatusNamesDistinct(s: ProposalStatus, t: ProposalStatus)
    requires StatusName(s) == StatusName(t)
    ensures s == t
  {
  }
}
