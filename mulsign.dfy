/**
 * The multisig wallet contract as an object: its tables are fields that each action reads
 * and writes back in place. Every action is proved to do exactly what its function in
 * `MulsignModel` says; an action that fails after it has written something restores the
 * tables it started from, as the chain rolls back an aborted transaction.
 */
module Mulsign {
  import opened Wrappers
  import opened Eosio
  import opened Utils
  import opened MulsignDb
  import opened MulsignModel

  /** One turn of the weight loop: moving a signer from the rest into the total keeps the sum. */
  lemma WeightStep(total: U32, rest: map<Name, U32>, k: Name)
    requires k in rest
    ensures ((total + rest[k]) % U32_MOD + Sum(rest - {k})) % U32_MOD == (total + Sum(rest)) % U32_MOD
    ensures |rest - {k}| == |rest| - 1
  {
    SumRemove(rest, k);
    ModAddAssoc(total, rest[k], Sum(rest - {k}));
    assert (rest - {k}).Keys == rest.Keys - {k};
  }

  /** When no signer is left, the total is the sum. */
  lemma WeightDone(total: U32, rest: map<Name, U32>)
    requires rest.Keys == {}
    ensures (total + Sum(rest)) % U32_MOD == total
  {
    assert rest == map[];
  }

  /** The loop of `setmulsigner`: the total weight of the signers, summed in 32-bit unsigned arithmetic. */
  method TotalWeight(signers: map<Name, U32>) returns (total: U32)
    ensures total == Sum(signers) % U32_MOD
  {
    total := 0;
    var rest := signers;
    while rest.Keys != {}
      invariant (total + Sum(rest)) % U32_MOD == Sum(signers) % U32_MOD
      decreases |rest|
    {
      var k :| k in rest.Keys;
      WeightStep(total, rest, k);
      total := (total + rest[k]) % U32_MOD;
      rest := rest - {k};
    }
    WeightDone(total, rest);
  }

  class MulsignContract {
    const self: Name
    var global: Global
    var wallets: map<nat, Wallet>
    var proposals: map<nat, Proposal>
    var outbox: seq<InlineAction>

    /** The tables as one value. */
    function State(): MulsignState
      reads this
    {
      MulsignState(global, wallets, proposals, outbox)
    }

    /** The contract before any action: empty tables and the default singleton. */
    constructor (self: Name)
      ensures this.self == self
      ensures State() == MulsignState(InitialGlobal(self), map[], map[], [])
    {
      this.self := self;
      global := InitialGlobal(self);
      wallets, proposals, outbox := map[], map[], [];
    }

    /** The rollback of an aborted transaction. */
    method Restore(saved: MulsignState)
      modifies this
      ensures State() == saved
    {
      global, wallets, proposals, outbox := saved.global, saved.wallets, saved.proposals, saved.outbox;
    }

    method Init(c: Chain, feeCollector: Name) returns (r: Outcome<Error>)
      modifies this
      ensures r == OutcomeOf(MulsignModel.Init(old(State()), self, c, feeCollector))
      ensures State() == After(old(State()), MulsignModel.Init(old(State()), self, c, feeCollector))
    {
      if self !in c.auth { return Fail(MissingAuth); }
      if global.feeCollector != EMPTY_NAME { return Fail(RecordExisting); }
      global := global.(feeCollector := feeCollector);
      global := global.(walletFee := WALLET_FEE);
      return Pass;
    }

    method SetMulsigner(c: Chain, issuer: Name, walletId: nat, mulsigner: Name, weight: U32) returns (r: Outcome<Error>)
      modifies this
      ensures r == OutcomeOf(MulsignModel.SetMulsigner(old(State()), c, issuer, walletId, mulsigner, weight))
      ensures State() == After(old(State()), MulsignModel.SetMulsigner(old(State()), c, issuer, walletId, mulsigner, weight))
    {
      if issuer !in c.auth { return Fail(MissingAuth); }
      if walletId !in wallets { return Fail(RecordNotFound); }
      var wallet := wallets[walletId];
      if wallet.creator != issuer { return Fail(NoAuth); }
      var elapsed := ElapsedSec(c.now, wallet.createdAt);
      if elapsed >= SECONDS_PER_DAY { return Fail(TimeExpired); }
      if mulsigner !in c.accounts { return Fail(AccountInvalid); }
      if weight == 0 { return Fail(ParamError); }

      wallet := wallet.(mulsigners := wallet.mulsigners[mulsigner := weight]);
      var totalWeight := TotalWeight(wallet.mulsigners);
      if totalWeight > wallet.mulsignN { return Fail(Oversized); }

      wallet := wallet.(updatedAt := Sec(c.now));
      wallets := wallets[walletId := wallet];
      return Pass;
    }

    method SetWapExpiry(c: Chain, issuer: Name, walletId: nat, expirySec: U64) returns (r: Outcome<Error>)
      modifies this
      ensures r == OutcomeOf(MulsignModel.SetWapExpiry(old(State()), c, issuer, walletId, expirySec))
      ensures State() == After(old(State()), MulsignModel.SetWapExpiry(old(State()), c, issuer, walletId, expirySec))
    {
      if issuer !in c.auth { return Fail(MissingAuth); }
      if walletId !in wallets { return Fail(RecordNotFound); }
      var wallet := wallets[walletId];
      if wallet.creator != issuer { return Fail(NoAuth); }
      wallet := wallet.(proposalExpirySec := expirySec);
      wallets := wallets[walletId := wallet];
      return Pass;
    }

    method DelMulsigner(c: Chain, issuer: Name, walletId: nat, mulsigner: Name) returns (r: Outcome<Error>)
      modifies this
      ensures r == OutcomeOf(MulsignModel.DelMulsigner(old(State()), c, issuer, walletId, mulsigner))
      ensures State() == After(old(State()), MulsignModel.DelMulsigner(old(State()), c, issuer, walletId, mulsigner))
    {
      if issuer !in c.auth { return Fail(MissingAuth); }
      if walletId !in wallets { return Fail(RecordNotFound); }
      var wallet := wallets[walletId];
      if !(issuer == mulsigner || issuer == wallet.creator) { return Fail(NoAuth); }
      if issuer == wallet.creator {
        if issuer == mulsigner { return Fail(NoAuth); }
        var elapsed := ElapsedSec(c.now, wallet.createdAt);
        if elapsed >= SECONDS_PER_DAY { return Fail(TimeExpired); }
      }
      wallet := wallet.(mulsigners := wallet.mulsigners - {mulsigner});
      wallet := wallet.(updatedAt := Sec(c.now));
      wallets := wallets[walletId := wallet];
      return Pass;
    }

    method OnTransfer(c: Chain, from: Name, to: Name, quantity: Asset, memo: string) returns (r: Outcome<Error>)
      modifies this
      ensures r == OutcomeOf(MulsignModel.OnTransfer(old(State()), self, c, from, to, quantity, memo))
      ensures State() == After(old(State()), MulsignModel.OnTransfer(old(State()), self, c, from, to, quantity, memo))
    {
      if from == self || to != self { return Pass; }
      if quantity.amount <= 0 { return Fail(ParamError); }
      if memo == [] { return Fail(ParamError); }

      var bank := c.firstReceiver;
      var params := Split(memo, ':');
      if params[0] == "create" && |params| == 4 {
        r := CreateFromMemo(c, from, quantity, params[1], params[2], params[3]);
      } else if params[0] == "lock" && |params| == 2 {
        var v := StoI(params[1]);
        if v.None? { return Fail(Abort); }
        var walletId := ToU64(v.value);
        r := LockFunds(walletId, bank, quantity);
      } else {
        return Fail(ParamError);
      }
    }

    /** The `create` branch of the transfer notification. */
    method CreateFromMemo(c: Chain, from: Name, quantity: Asset, mText: string, nText: string, title: string) returns (r: Outcome<Error>)
      modifies this
      ensures r == OutcomeOf(MulsignModel.CreateFromMemo(old(State()), c, from, quantity, mText, nText, title))
      ensures State() == After(old(State()), MulsignModel.CreateFromMemo(old(State()), c, from, quantity, mText, nText, title))
    {
      var m := ParseUnsigned(mText, U32_MOD);
      if m.None? { return Fail(Abort); }
      var n := ParseUnsigned(nText, U32_MOD);
      if n.None? { return Fail(Abort); }
      if m.value == 0 { return Fail(ParamError); }
      if m.value > n.value { return Fail(ParamError); }
      if Utf8Length(title) >= 1024 { return Fail(Oversized); }
      if !(c.firstReceiver == SYS_BANK && quantity.symbol == SYS_SYMBOL) { return Fail(ParamError); }
      var enough := AssetGe(quantity, global.walletFee);
      if enough.None? { return Fail(Abort); }
      if !enough.value { return Fail(FeeInsufficient); }

      var saved := State();
      if from != global.feeCollector {
        outbox := outbox + [CollectFee(from, global.feeCollector, quantity)];
      }
      r := CreateWallet(c, from, m.value, n.value, title);
      if r.Fail? {
        Restore(saved);
        return;
      }
      r := LockFunds(0, c.firstReceiver, quantity);
      if r.Fail? {
        Restore(saved);
        return;
      }
    }

    method CreateWallet(c: Chain, creator: Name, m: U32, n: U32, title: string) returns (r: Outcome<Error>)
      modifies this
      ensures r == OutcomeOf(MulsignModel.CreateWallet(old(State()), c, creator, m, n, title))
      ensures State() == After(old(State()), MulsignModel.CreateWallet(old(State()), c, creator, m, n, title))
    {
      var walletId := AvailablePrimaryKey(wallets);
      if walletId == 0 {
        if creator != global.feeCollector { return Fail(FirstCreator); }
      }
      var wallet := NewWallet(walletId);
      wallet := wallet.(title := title, mulsignM := m, mulsignN := n, creator := creator);
      wallet := wallet.(createdAt := Sec(c.now));
      wallets := wallets[walletId := wallet];
      return Pass;
    }

    method LockFunds(walletId: nat, bank: Name, quantity: Asset) returns (r: Outcome<Error>)
      modifies this
      ensures r == OutcomeOf(MulsignModel.LockFunds(old(State()), walletId, bank, quantity))
      ensures State() == After(old(State()), MulsignModel.LockFunds(old(State()), walletId, bank, quantity))
    {
      if walletId !in wallets { return Fail(RecordNotFound); }
      var wallet := wallets[walletId];
      var symb := ExtSymbol(quantity.symbol, bank);
      var balance := if symb in wallet.assets then wallet.assets[symb] else 0;
      wallet := wallet.(assets := wallet.assets[symb := balance + quantity.amount]);
      wallets := wallets[walletId := wallet];
      return Pass;
    }

    method Propose(c: Chain, issuer: Name, walletId: nat, exAsset: ExtAsset, recipient: Name,
                   transferMemo: string, excerpt: string, metaUrl: string, unsetVotes: U32) returns (r: Outcome<Error>)
      modifies this
      ensures r == OutcomeOf(MulsignModel.Propose(old(State()), c, issuer, walletId, exAsset, recipient, transferMemo, excerpt, metaUrl, unsetVotes))
      ensures State() == After(old(State()), MulsignModel.Propose(old(State()), c, issuer, walletId, exAsset, recipient, transferMemo, excerpt, metaUrl, unsetVotes))
    {
      if issuer !in c.auth { return Fail(MissingAuth); }
      var now := Sec(c.now);
      if walletId !in wallets { return Fail(RecordNotFound); }
      var wallet := wallets[walletId];
      var symb := exAsset.ExtendedSymbol();
      if symb !in wallet.assets { return Fail(ParamError); }
      if exAsset.quantity.amount <= 0 { return Fail(ParamError); }
      if recipient !in c.accounts { return Fail(AccountInvalid); }
      var avail := wallet.assets[symb];
      if exAsset.quantity.amount > avail { return Fail(Oversized); }
      if Utf8Length(transferMemo) >= 256 { return Fail(Oversized); }
      if Utf8Length(excerpt) >= 1024 { return Fail(Oversized); }
      if Utf8Length(metaUrl) >= 2048 { return Fail(Oversized); }

      var pid := AvailablePrimaryKey(proposals);
      var proposal := NewProposal(pid, unsetVotes);
      proposal := proposal.(walletId := walletId, quantity := exAsset, recipient := recipient, proposer := issuer);
      proposal := proposal.(transferMemo := transferMemo, excerpt := excerpt, metaUrl := metaUrl);
      proposal := proposal.(createdAt := now, updatedAt := now);
      proposal := proposal.(expiredAt := ExpiryOf(proposal.createdAt, wallet.proposalExpirySec));
      proposal := proposal.(status := Proposed);
      proposals := proposals[pid := proposal];
      return Pass;
    }

    method Cancel(c: Chain, issuer: Name, proposalId: nat) returns (r: Outcome<Error>)
      modifies this
      ensures r == OutcomeOf(MulsignModel.Cancel(old(State()), c, issuer, proposalId))
      ensures State() == After(old(State()), MulsignModel.Cancel(old(State()), c, issuer, proposalId))
    {
      if issuer !in c.auth { return Fail(MissingAuth); }
      if proposalId !in proposals { return Fail(RecordNotFound); }
      var proposal := proposals[proposalId];
      if proposal.proposer != issuer { return Fail(NoAuth); }
      if proposal.status != Proposed { return Fail(StatusError); }
      if |proposal.approvers| != 0 { return Fail(NoAuth); }
      if !(proposal.expiredAt > c.now) { return Fail(NoAuth); }
      proposal := proposal.(updatedAt := Sec(c.now));
      proposal := proposal.(status := Canceled);
      proposals := proposals[proposalId := proposal];
      return Pass;
    }

    method Approve(c: Chain, issuer: Name, proposalId: nat) returns (r: Outcome<Error>)
      modifies this
      ensures r == OutcomeOf(MulsignModel.Approve(old(State()), c, issuer, proposalId))
      ensures State() == After(old(State()), MulsignModel.Approve(old(State()), c, issuer, proposalId))
    {
      if issuer !in c.auth { return Fail(MissingAuth); }
      if proposalId !in proposals { return Fail(RecordNotFound); }
      var proposal := proposals[proposalId];
      if !(proposal.status == Proposed || proposal.status == Approved) { return Fail(StatusError); }
      if !(proposal.expiredAt >= c.now) { return Fail(TimeExpired); }
      if issuer in proposal.approvers { return Fail(ActionRedundant); }
      if proposal.walletId !in wallets { return Fail(RecordNotFound); }
      var wallet := wallets[proposal.walletId];
      if issuer !in wallet.mulsigners { return Fail(NoAuth); }

      proposal := proposal.(approvers := proposal.approvers + {issuer});
      proposal := proposal.(recvVotes := (proposal.recvVotes + wallet.mulsigners[issuer]) % U32_MOD);
      proposal := proposal.(updatedAt := Sec(c.now));
      proposal := proposal.(status := Approved);
      proposals := proposals[proposalId := proposal];
      return Pass;
    }

    method Execute(c: Chain, issuer: Name, proposalId: nat) returns (r: Outcome<Error>)
      modifies this
      ensures r == OutcomeOf(MulsignModel.Execute(old(State()), c, issuer, proposalId))
      ensures State() == After(old(State()), MulsignModel.Execute(old(State()), c, issuer, proposalId))
    {
      if issuer !in c.auth { return Fail(MissingAuth); }
      if proposalId !in proposals { return Fail(RecordNotFound); }
      var proposal := proposals[proposalId];
      if proposal.status != Proposed { return Fail(StatusError); }
      if !(proposal.expiredAt >= c.now) { return Fail(TimeExpired); }
      if proposal.walletId !in wallets { return Fail(RecordNotFound); }
      var wallet := wallets[proposal.walletId];
      if proposal.recvVotes < wallet.mulsignM { return Fail(NoAuth); }

      r := ExecuteProposal(wallet, proposal);
      if r.Fail? { return; }
      proposal := proposal.(updatedAt := Sec(c.now));
      proposal := proposal.(status := Executed);
      proposals := proposals[proposalId := proposal];
    }

    /** `execute_proposal`: `wallet` is the row of the proposal's wallet, as loaded by the caller. */
    method ExecuteProposal(wallet: Wallet, proposal: Proposal) returns (r: Outcome<Error>)
      requires proposal.walletId in wallets && wallets[proposal.walletId] == wallet
      modifies this
      ensures r == OutcomeOf(MulsignModel.ExecuteProposal(old(State()), proposal))
      ensures State() == After(old(State()), MulsignModel.ExecuteProposal(old(State()), proposal))
    {
      var symb := proposal.quantity.ExtendedSymbol();
      var avail := if symb in wallet.assets then wallet.assets[symb] else 0;
      var amount := proposal.quantity.quantity.amount;
      if amount > avail { return Fail(Oversized); }

      var w := wallet;
      if amount == avail {
        w := w.(assets := w.assets - {symb});
      } else {
        w := w.(assets := w.assets[symb := avail - amount]);
      }
      wallets := wallets[proposal.walletId := w];

      var memo := if proposal.transferMemo != [] then proposal.transferMemo else DEFAULT_EXECUTE_MEMO;
      outbox := outbox + [TransferOut(proposal.quantity.contract, proposal.recipient, proposal.quantity.quantity, memo)];
      return Pass;
    }
  }
}
