/**
 * The weighted multisig wallet as values: the contract's tables as one state value and one
 * function per action giving the state after the action commits or the error it aborts
 * with. An aborted action leaves no trace (`Wrappers.After`).
 */
module MulsignModel {
  import opened Wrappers
  import opened Eosio
  import opened Utils
  import opened MulsignDb

  /** `asset_from_string("0.10000000 AMAX")`. */
  const WALLET_FEE: Asset := Asset(10000000, SYS_SYMBOL)

  /** The memo of a withdrawal whose proposal carries none. */
  const DEFAULT_EXECUTE_MEMO: string := "mulsign execute"

  /** An inline action the contract sends; it runs after the current action commits. */
  datatype InlineAction =
    | CollectFee(from: Name, to: Name, quantity: Asset)
    | TransferOut(bank: Name, to: Name, quantity: Asset, memo: string)

  datatype MulsignState = MulsignState(
    global: Global,
    wallets: map<nat, Wallet>,
    proposals: map<nat, Proposal>,
    outbox: seq<InlineAction>)

  /** The contract's error codes, plus the aborts raised outside its own checks. */
  datatype Error =
    | RecordNotFound
    | RecordExisting
    | ParamError
    | NoAuth
    | Oversized
    | TimeExpired
    | ActionRedundant
    | AccountInvalid
    | FeeInsufficient
    | FirstCreator
    | StatusError
    | MissingAuth   // `require_auth` failed
    | Abort         // a parse helper or an asset comparison aborted

  /** Every action of the contract, with its arguments. */
  datatype Call =
    | InitCall(feeCollector: Name)
    | SetMulsignerCall(issuer: Name, walletId: nat, mulsigner: Name, weight: U32)
    | SetWapExpiryCall(issuer: Name, walletId: nat, expirySec: U64)
    | DelMulsignerCall(issuer: Name, walletId: nat, mulsigner: Name)
    | TransferCall(from: Name, to: Name, quantity: Asset, memo: string)
    | ProposeCall(issuer: Name, walletId: nat, exAsset: ExtAsset, recipient: Name,
                  transferMemo: string, excerpt: string, metaUrl: string, unsetVotes: U32)
    | CancelCall(issuer: Name, proposalId: nat)
    | ApproveCall(issuer: Name, proposalId: nat)
    | ExecuteCall(issuer: Name, proposalId: nat)

  /** `time_point_sec(current_time_point())`: the time on a 32-bit seconds counter. */
  function Sec(now: nat): (s: U32)
    ensures now < U32_MOD ==> s == now
  {
    now % U32_MOD
  }

  // ---------------------------------------------------------------- weight sums

  ghost function Pick(m: map<Name, U32>): (k: Name)
    requires m != map[]
    ensures k in m
  {
    var k :| k in m; k
  }

  /** The total weight of a signer map in unbounded arithmetic. */
  ghost function Sum(m: map<Name, U32>): nat
    decreases |m|
  {
    if m == map[] then 0
    else
      var k := Pick(m);
      assert |m - {k}| < |m| by { assert (m - {k}).Keys < m.Keys; }
      m[k] + Sum(m - {k})
  }

  /** Any signer can be taken out first: the sum does not depend on the order. */
  lemma {:induction false} SumRemove(m: map<Name, U32>, k: Name)
    requires k in m
    ensures Sum(m) == m[k] + Sum(m - {k})
    decreases |m|
  {
    var j := Pick(m);
    if j != k {
      assert |m - {j}| < |m| by { assert (m - {j}).Keys < m.Keys; }
      assert |m - {k}| < |m| by { assert (m - {k}).Keys < m.Keys; }
      SumRemove(m - {j}, k);
      SumRemove(m - {k}, j);
      assert (m - {j}) - {k} == (m - {k}) - {j};
    }
  }

  /** Setting one weight replaces that signer's share of the sum. */
  lemma SumUpdate(m: map<Name, U32>, k: Name, v: U32)
    ensures Sum(m[k := v]) == Sum(m - {k}) + v
  {
    SumRemove(m[k := v], k);
    assert m[k := v] - {k} == m - {k};
  }

  // ---------------------------------------------------------------- invariants

  /** What every wallet row written by the contract keeps. */
  ghost predicate WalletValid(id: nat, w: Wallet)
  {
    w.id == id && 0 < w.mulsignM && QuorumFits(w) &&
    forall s :: s in w.assets ==> w.assets[s] > 0
  }

  /** What every proposal row written by the contract keeps. */
  ghost predicate ProposalValid(id: nat, p: Proposal)
  {
    p.id == id && p.status != NoStatus && p.quantity.quantity.amount > 0 &&
    (p.status == Proposed ==> p.approvers == {}) &&
    (p.status == Approved ==> p.approvers != {})
  }

  ghost predicate Valid(st: MulsignState)
  {
    (st.wallets != map[] ==> 0 in st.wallets) &&
    (forall id :: id in st.wallets ==> WalletValid(id, st.wallets[id])) &&
    (forall id :: id in st.proposals ==> ProposalValid(id, st.proposals[id]))
  }

  // ---------------------------------------------------------------- actions

  /** Sets the fee collector and the wallet fee, while no fee collector is set. */
  function Init(st: MulsignState, self: Name, c: Chain, feeCollector: Name): (r: Result<MulsignState, Error>)
    ensures r.Ok? <==> self in c.auth && st.global.feeCollector == EMPTY_NAME
    ensures r.Ok? ==> r.value == st.(global := st.global.(feeCollector := feeCollector, walletFee := WALLET_FEE))
  {
    if self !in c.auth then Err(MissingAuth)
    else if st.global.feeCollector != EMPTY_NAME then Err(RecordExisting)
    else Ok(st.(global := st.global.(feeCollector := feeCollector, walletFee := WALLET_FEE)))
  }

  /**
   * The creator sets one signer's weight within a day of the wallet's creation; the total
   * weight, summed in 32-bit unsigned arithmetic, must not exceed `mulsignN`.
   */
  ghost function SetMulsigner(st: MulsignState, c: Chain, issuer: Name, walletId: nat, mulsigner: Name, weight: U32): (r: Result<MulsignState, Error>)
    ensures r.Ok? <==>
      issuer in c.auth && walletId in st.wallets &&
      var w := st.wallets[walletId];
      w.creator == issuer && ElapsedSec(c.now, w.createdAt) < SECONDS_PER_DAY &&
      mulsigner in c.accounts && weight > 0 &&
      Sum(w.mulsigners[mulsigner := weight]) % U32_MOD <= w.mulsignN
    ensures r.Ok? ==>
      var w := st.wallets[walletId];
      r.value.wallets == st.wallets[walletId := w.(mulsigners := w.mulsigners[mulsigner := weight], updatedAt := Sec(c.now))] &&
      r.value.global == st.global && r.value.proposals == st.proposals && r.value.outbox == st.outbox
  {
    if issuer !in c.auth then Err(MissingAuth)
    else if walletId !in st.wallets then Err(RecordNotFound)
    else
      var w := st.wallets[walletId];
      if w.creator != issuer then Err(NoAuth)
      else if ElapsedSec(c.now, w.createdAt) >= SECONDS_PER_DAY then Err(TimeExpired)
      else if mulsigner !in c.accounts then Err(AccountInvalid)
      else if weight == 0 then Err(ParamError)
      else
        var signers := w.mulsigners[mulsigner := weight];
        if Sum(signers) % U32_MOD > w.mulsignN then Err(Oversized)
        else Ok(st.(wallets := st.wallets[walletId := w.(mulsigners := signers, updatedAt := Sec(c.now))]))
  }

  /** The creator sets the lifetime of the wallet's future proposals; `updated_at` is not touched. */
  function SetWapExpiry(st: MulsignState, c: Chain, issuer: Name, walletId: nat, expirySec: U64): (r: Result<MulsignState, Error>)
    ensures r.Ok? <==> issuer in c.auth && walletId in st.wallets && st.wallets[walletId].creator == issuer
    ensures r.Ok? ==>
      r.value == st.(wallets := st.wallets[walletId := st.wallets[walletId].(proposalExpirySec := expirySec)])
  {
    if issuer !in c.auth then Err(MissingAuth)
    else if walletId !in st.wallets then Err(RecordNotFound)
    else
      var w := st.wallets[walletId];
      if w.creator != issuer then Err(NoAuth)
      else Ok(st.(wallets := st.wallets[walletId := w.(proposalExpirySec := expirySec)]))
  }

  /**
   * A signer removes itself at any time; the creator removes another signer within a day of
   * creation. The name need not be a signer.
   */
  function DelMulsigner(st: MulsignState, c: Chain, issuer: Name, walletId: nat, mulsigner: Name): (r: Result<MulsignState, Error>)
    ensures r.Ok? <==>
      issuer in c.auth && walletId in st.wallets &&
      var w := st.wallets[walletId];
      (issuer == mulsigner || issuer == w.creator) &&
      (issuer == w.creator ==> issuer != mulsigner && ElapsedSec(c.now, w.createdAt) < SECONDS_PER_DAY)
    ensures r.Ok? ==>
      var w := st.wallets[walletId];
      r.value.wallets.Keys == st.wallets.Keys &&
      var w' := r.value.wallets[walletId];
      (forall id :: id in st.wallets && id != walletId ==> r.value.wallets[id] == st.wallets[id]) &&
      w'.mulsigners.Keys == w.mulsigners.Keys - {mulsigner} &&
      (forall s :: s in w'.mulsigners ==> w'.mulsigners[s] == w.mulsigners[s]) &&
      w' == w.(mulsigners := w'.mulsigners, updatedAt := Sec(c.now)) &&
      r.value.global == st.global && r.value.proposals == st.proposals && r.value.outbox == st.outbox
  {
    if issuer !in c.auth then Err(MissingAuth)
    else if walletId !in st.wallets then Err(RecordNotFound)
    else
      var w := st.wallets[walletId];
      if !(issuer == mulsigner || issuer == w.creator) then Err(NoAuth)
      else if issuer == w.creator && issuer == mulsigner then Err(NoAuth)
      else if issuer == w.creator && ElapsedSec(c.now, w.createdAt) >= SECONDS_PER_DAY then Err(TimeExpired)
      else Ok(st.(wallets := st.wallets[walletId := w.(mulsigners := w.mulsigners - {mulsigner}, updatedAt := Sec(c.now))]))
  }

  /**
   * `create_wallet`: a new row at the next available key. Key 0, the fee wallet, may only be
   * created by the fee collector.
   */
  function CreateWallet(st: MulsignState, c: Chain, creator: Name, m: U32, n: U32, title: string): (r: Result<MulsignState, Error>)
    ensures var id := AvailablePrimaryKey(st.wallets); r.Ok? <==> id != 0 || creator == st.global.feeCollector
    ensures r.Ok? ==>
      var id := AvailablePrimaryKey(st.wallets);
      r.value.wallets.Keys == st.wallets.Keys + {id} &&
      (forall k :: k in st.wallets ==> r.value.wallets[k] == st.wallets[k]) &&
      var w := r.value.wallets[id];
      w.id == id && w.title == title && w.mulsignM == m && w.mulsignN == n && w.creator == creator &&
      w.mulsigners == map[] && w.assets == map[] && w.proposalExpirySec == SECONDS_PER_DAY &&
      w.createdAt == Sec(c.now) && w.updatedAt == 0 &&
      r.value.global == st.global && r.value.proposals == st.proposals && r.value.outbox == st.outbox
  {
    var id := AvailablePrimaryKey(st.wallets);
    if id == 0 && creator != st.global.feeCollector then Err(FirstCreator)
    else
      var w := NewWallet(id).(title := title, mulsignM := m, mulsignN := n, creator := creator, createdAt := Sec(c.now));
      Ok(st.(wallets := st.wallets[id := w]))
  }

  /** The balance a wallet holds of a symbol; a missing entry reads as 0. */
  function Balance(w: Wallet, symb: ExtSymbol): (b: int)
    ensures symb in w.assets ==> b == w.assets[symb]
    ensures symb !in w.assets ==> b == 0
  {
    if symb in w.assets then w.assets[symb] else 0
  }

  /** `lock_funds`: credits a wallet's entry for the symbol and the token contract. */
  function LockFunds(st: MulsignState, walletId: nat, bank: Name, quantity: Asset): (r: Result<MulsignState, Error>)
    ensures r.Ok? <==> walletId in st.wallets
    ensures r.Ok? ==>
      var symb := ExtSymbol(quantity.symbol, bank);
      var w := st.wallets[walletId];
      r.value.wallets.Keys == st.wallets.Keys &&
      var w' := r.value.wallets[walletId];
      (forall id :: id in st.wallets && id != walletId ==> r.value.wallets[id] == st.wallets[id]) &&
      w'.assets.Keys == w.assets.Keys + {symb} &&
      w'.assets[symb] == Balance(w, symb) + quantity.amount &&
      (forall s :: s in w.assets && s != symb ==> w'.assets[s] == w.assets[s]) &&
      w' == w.(assets := w'.assets) &&
      r.value.global == st.global && r.value.proposals == st.proposals && r.value.outbox == st.outbox
  {
    if walletId !in st.wallets then Err(RecordNotFound)
    else
      var w := st.wallets[walletId];
      var symb := ExtSymbol(quantity.symbol, bank);
      Ok(st.(wallets := st.wallets[walletId := w.(assets := w.assets[symb := Balance(w, symb) + quantity.amount])]))
  }

  /**
   * The `create:m:n:title` branch: validates the memo and the fee, reports the fee to the fee
   * collector, creates the wallet, and credits the whole quantity to wallet 0.
   */
  function CreateFromMemo(st: MulsignState, c: Chain, from: Name, quantity: Asset, mText: string, nText: string, title: string): (r: Result<MulsignState, Error>)
    ensures r.Ok? ==>
      exists m: U32, n: U32 ::
        ParseUnsigned(mText, U32_MOD) == Some(m) && ParseUnsigned(nText, U32_MOD) == Some(n) && 0 < m <= n
    ensures r.Ok? ==>
      Utf8Length(title) < 1024 && c.firstReceiver == SYS_BANK && quantity.symbol == SYS_SYMBOL &&
      st.global.walletFee.symbol == SYS_SYMBOL && quantity.amount >= st.global.walletFee.amount
  {
    match ParseUnsigned(mText, U32_MOD)
    case None => Err(Abort)
    case Some(m) =>
      match ParseUnsigned(nText, U32_MOD)
      case None => Err(Abort)
      case Some(n) =>
        if m == 0 then Err(ParamError)
        else if m > n then Err(ParamError)
        else if Utf8Length(title) >= 1024 then Err(Oversized)
        else if !(c.firstReceiver == SYS_BANK && quantity.symbol == SYS_SYMBOL) then Err(ParamError)
        else
          match AssetGe(quantity, st.global.walletFee)
          case None => Err(Abort)
          case Some(enough) =>
            if !enough then Err(FeeInsufficient)
            else
              var logged := if from != st.global.feeCollector
                then st.(outbox := st.outbox + [CollectFee(from, st.global.feeCollector, quantity)])
                else st;
              var created :- CreateWallet(logged, c, from, m, n, title);
              LockFunds(created, 0, c.firstReceiver, quantity)
  }

  /** The transfer notification: memos `create:m:n:title` and `lock:id`; any other memo aborts. */
  function OnTransfer(st: MulsignState, self: Name, c: Chain, from: Name, to: Name, quantity: Asset, memo: string): (r: Result<MulsignState, Error>)
    ensures from == self || to != self ==> r == Ok(st)
    ensures from != self && to == self && (quantity.amount <= 0 || memo == []) ==> r == Err(ParamError)
    ensures (from != self && to == self && quantity.amount > 0 && memo != [] &&
             !(Split(memo, ':')[0] == "create" && |Split(memo, ':')| == 4) &&
             !(Split(memo, ':')[0] == "lock" && |Split(memo, ':')| == 2)) ==> r == Err(ParamError)
    ensures r.Ok? ==> r.value.proposals == st.proposals && r.value.global == st.global
  {
    if from == self || to != self then Ok(st)
    else if quantity.amount <= 0 then Err(ParamError)
    else if memo == [] then Err(ParamError)
    else
      var params := Split(memo, ':');
      if params[0] == "create" && |params| == 4 then
        CreateFromMemo(st, c, from, quantity, params[1], params[2], params[3])
      else if params[0] == "lock" && |params| == 2 then
        match StoI(params[1])
        case None => Err(Abort)
        case Some(v) => LockFunds(st, ToU64(v), c.firstReceiver, quantity)
      else Err(ParamError)
  }

  /** The expiry of a proposal created at `createdAt`: 32-bit seconds plus a truncated offset. */
  function ExpiryOf(createdAt: U32, expirySec: U64): (e: U32)
    ensures createdAt + expirySec < U32_MOD ==> e == createdAt + expirySec
  {
    (createdAt + expirySec % U32_MOD) % U32_MOD
  }

  /**
   * Anyone may propose a withdrawal of a symbol the wallet holds, up to its balance. Nothing
   * is reserved, and `recv_votes` keeps the value storage held (`unsetVotes`).
   */
  function Propose(st: MulsignState, c: Chain, issuer: Name, walletId: nat, exAsset: ExtAsset, recipient: Name,
                   transferMemo: string, excerpt: string, metaUrl: string, unsetVotes: U32): (r: Result<MulsignState, Error>)
    ensures r.Ok? <==>
      issuer in c.auth && walletId in st.wallets &&
      exAsset.ExtendedSymbol() in st.wallets[walletId].assets &&
      0 < exAsset.quantity.amount <= st.wallets[walletId].assets[exAsset.ExtendedSymbol()] &&
      recipient in c.accounts &&
      Utf8Length(transferMemo) < 256 && Utf8Length(excerpt) < 1024 && Utf8Length(metaUrl) < 2048
    ensures r.Ok? ==>
      var pid := AvailablePrimaryKey(st.proposals);
      r.value.proposals.Keys == st.proposals.Keys + {pid} &&
      (forall k :: k in st.proposals ==> r.value.proposals[k] == st.proposals[k]) &&
      var p := r.value.proposals[pid];
      p.id == pid && p.walletId == walletId && p.quantity == exAsset && p.recipient == recipient &&
      p.proposer == issuer && p.transferMemo == transferMemo && p.excerpt == excerpt && p.metaUrl == metaUrl &&
      p.approvers == {} && p.recvVotes == unsetVotes && p.status == Proposed &&
      p.createdAt == Sec(c.now) && p.updatedAt == Sec(c.now) && p.expiredAt == ExpiryOf(Sec(c.now), st.wallets[walletId].proposalExpirySec) &&
      r.value.wallets == st.wallets && r.value.global == st.global && r.value.outbox == st.outbox
  {
    if issuer !in c.auth then Err(MissingAuth)
    else if walletId !in st.wallets then Err(RecordNotFound)
    else
      var w := st.wallets[walletId];
      var symb := exAsset.ExtendedSymbol();
      if symb !in w.assets then Err(ParamError)
      else if exAsset.quantity.amount <= 0 then Err(ParamError)
      else if recipient !in c.accounts then Err(AccountInvalid)
      else if exAsset.quantity.amount > w.assets[symb] then Err(Oversized)
      else if Utf8Length(transferMemo) >= 256 then Err(Oversized)
      else if Utf8Length(excerpt) >= 1024 then Err(Oversized)
      else if Utf8Length(metaUrl) >= 2048 then Err(Oversized)
      else
        var pid := AvailablePrimaryKey(st.proposals);
        var now := Sec(c.now);
        var p := NewProposal(pid, unsetVotes).(
          walletId := walletId, quantity := exAsset, recipient := recipient, proposer := issuer,
          transferMemo := transferMemo, excerpt := excerpt, metaUrl := metaUrl,
          createdAt := now, updatedAt := now, expiredAt := ExpiryOf(now, w.proposalExpirySec),
          status := Proposed);
        Ok(st.(proposals := st.proposals[pid := p]))
  }

  /** The proposer withdraws a proposal nobody has approved, before it expires. */
  function Cancel(st: MulsignState, c: Chain, issuer: Name, proposalId: nat): (r: Result<MulsignState, Error>)
    ensures r.Ok? <==>
      issuer in c.auth && proposalId in st.proposals &&
      var p := st.proposals[proposalId];
      p.proposer == issuer && p.status == Proposed && p.approvers == {} && p.expiredAt > c.now
    ensures r.Ok? ==>
      r.value == st.(proposals := st.proposals[proposalId := st.proposals[proposalId].(updatedAt := Sec(c.now), status := Canceled)])
  {
    if issuer !in c.auth then Err(MissingAuth)
    else if proposalId !in st.proposals then Err(RecordNotFound)
    else
      var p := st.proposals[proposalId];
      if p.proposer != issuer then Err(NoAuth)
      else if p.status != Proposed then Err(StatusError)
      else if p.approvers != {} then Err(NoAuth)
      else if !(p.expiredAt > c.now) then Err(NoAuth)
      else Ok(st.(proposals := st.proposals[proposalId := p.(updatedAt := Sec(c.now), status := Canceled)]))
  }

  /** A signer who has not yet approved adds its weight, in 32-bit arithmetic, and the proposal becomes APPROVED. */
  function Approve(st: MulsignState, c: Chain, issuer: Name, proposalId: nat): (r: Result<MulsignState, Error>)
    ensures r.Ok? <==>
      issuer in c.auth && proposalId in st.proposals &&
      var p := st.proposals[proposalId];
      (p.status == Proposed || p.status == Approved) && p.expiredAt >= c.now && issuer !in p.approvers &&
      p.walletId in st.wallets && issuer in st.wallets[p.walletId].mulsigners
    ensures r.Ok? ==>
      var p := st.proposals[proposalId];
      r.value.proposals.Keys == st.proposals.Keys &&
      var p' := r.value.proposals[proposalId];
      (forall k :: k in st.proposals && k != proposalId ==> r.value.proposals[k] == st.proposals[k]) &&
      p'.approvers == p.approvers + {issuer} && p'.status == Approved &&
      p'.recvVotes == (p.recvVotes + st.wallets[p.walletId].mulsigners[issuer]) % U32_MOD &&
      p' == p.(approvers := p'.approvers, recvVotes := p'.recvVotes, updatedAt := Sec(c.now), status := Approved) &&
      r.value.wallets == st.wallets && r.value.global == st.global && r.value.outbox == st.outbox
  {
    if issuer !in c.auth then Err(MissingAuth)
    else if proposalId !in st.proposals then Err(RecordNotFound)
    else
      var p := st.proposals[proposalId];
      if !(p.status == Proposed || p.status == Approved) then Err(StatusError)
      else if !(p.expiredAt >= c.now) then Err(TimeExpired)
      else if issuer in p.approvers then Err(ActionRedundant)
      else if p.walletId !in st.wallets then Err(RecordNotFound)
      else
        var w := st.wallets[p.walletId];
        if issuer !in w.mulsigners then Err(NoAuth)
        else
          var p' := p.(approvers := p.approvers + {issuer},
                       recvVotes := (p.recvVotes + w.mulsigners[issuer]) % U32_MOD,
                       updatedAt := Sec(c.now),
                       status := Approved);
          Ok(st.(proposals := st.proposals[proposalId := p']))
  }

  /**
   * `execute_proposal`: debits the wallet by the proposal's quantity, erasing the entry when it
   * reaches 0, and sends the withdrawal.
   */
  function ExecuteProposal(st: MulsignState, p: Proposal): (r: Result<MulsignState, Error>)
    requires p.walletId in st.wallets
    ensures var w := st.wallets[p.walletId];
      r.Ok? <==> p.quantity.quantity.amount <= Balance(w, p.quantity.ExtendedSymbol())
    ensures r.Ok? ==>
      var w := st.wallets[p.walletId];
      var symb := p.quantity.ExtendedSymbol();
      var left := Balance(w, symb) - p.quantity.quantity.amount;
      r.value.wallets.Keys == st.wallets.Keys &&
      var w' := r.value.wallets[p.walletId];
      (forall id :: id in st.wallets && id != p.walletId ==> r.value.wallets[id] == st.wallets[id]) &&
      (left == 0 ==> w'.assets == w.assets - {symb}) &&
      (left != 0 ==> w'.assets == w.assets[symb := left]) &&
      w' == w.(assets := w'.assets) &&
      r.value.outbox == st.outbox + [TransferOut(p.quantity.contract, p.recipient, p.quantity.quantity,
                                                 if p.transferMemo != [] then p.transferMemo else DEFAULT_EXECUTE_MEMO)] &&
      r.value.global == st.global && r.value.proposals == st.proposals
  {
    var w := st.wallets[p.walletId];
    var symb := p.quantity.ExtendedSymbol();
    var avail := Balance(w, symb);
    var amount := p.quantity.quantity.amount;
    if amount > avail then Err(Oversized)
    else
      var assets := if amount == avail then w.assets - {symb} else w.assets[symb := avail - amount];
      var memo := if p.transferMemo != [] then p.transferMemo else DEFAULT_EXECUTE_MEMO;
      Ok(st.(wallets := st.wallets[p.walletId := w.(assets := assets)],
             outbox := st.outbox + [TransferOut(p.quantity.contract, p.recipient, p.quantity.quantity, memo)]))
  }

  /** Anyone may execute a PROPOSED, unexpired proposal whose votes reach the wallet's `mulsignM`. */
  function Execute(st: MulsignState, c: Chain, issuer: Name, proposalId: nat): (r: Result<MulsignState, Error>)
    ensures r.Ok? <==>
      issuer in c.auth && proposalId in st.proposals &&
      var p := st.proposals[proposalId];
      p.status == Proposed && p.expiredAt >= c.now && p.walletId in st.wallets &&
      p.recvVotes >= st.wallets[p.walletId].mulsignM &&
      p.quantity.quantity.amount <= Balance(st.wallets[p.walletId], p.quantity.ExtendedSymbol())
    ensures r.Ok? ==>
      var p := st.proposals[proposalId];
      var w := st.wallets[p.walletId];
      var symb := p.quantity.ExtendedSymbol();
      var left := Balance(w, symb) - p.quantity.quantity.amount;
      r.value.proposals == st.proposals[proposalId := p.(updatedAt := Sec(c.now), status := Executed)] &&
      r.value.wallets == st.wallets[p.walletId := w.(assets := if left == 0 then w.assets - {symb} else w.assets[symb := left])] &&
      r.value.outbox == st.outbox + [TransferOut(p.quantity.contract, p.recipient, p.quantity.quantity,
                                                 if p.transferMemo != [] then p.transferMemo else DEFAULT_EXECUTE_MEMO)] &&
      r.value.global == st.global
  {
    if issuer !in c.auth then Err(MissingAuth)
    else if proposalId !in st.proposals then Err(RecordNotFound)
    else
      var p := st.proposals[proposalId];
      if p.status != Proposed then Err(StatusError)
      else if !(p.expiredAt >= c.now) then Err(TimeExpired)
      else if p.walletId !in st.wallets then Err(RecordNotFound)
      else if p.recvVotes < st.wallets[p.walletId].mulsignM then Err(NoAuth)
      else
        var paid :- ExecuteProposal(st, p);
        Ok(paid.(proposals := paid.proposals[proposalId := p.(updatedAt := Sec(c.now), status := Executed)]))
  }

  /** The action dispatcher. */
  ghost function Step(st: MulsignState, self: Name, c: Chain, call: Call): Result<MulsignState, Error>
  {
    match call
    case InitCall(fc) => Init(st, self, c, fc)
    case SetMulsignerCall(issuer, wid, signer, weight) => SetMulsigner(st, c, issuer, wid, signer, weight)
    case SetWapExpiryCall(issuer, wid, sec) => SetWapExpiry(st, c, issuer, wid, sec)
    case DelMulsignerCall(issuer, wid, signer) => DelMulsigner(st, c, issuer, wid, signer)
    case TransferCall(from, to, quantity, memo) => OnTransfer(st, self, c, from, to, quantity, memo)
    case ProposeCall(issuer, wid, ex, recipient, memo, excerpt, url, votes) =>
      Propose(st, c, issuer, wid, ex, recipient, memo, excerpt, url, votes)
    case CancelCall(issuer, pid) => Cancel(st, c, issuer, pid)
    case ApproveCall(issuer, pid) => Approve(st, c, issuer, pid)
    case ExecuteCall(issuer, pid) => Execute(st, c, issuer, pid)
  }
}
