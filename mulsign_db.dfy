/**
 * The records of the weighted multisig wallet contract: the global singleton, wallets and
 * proposals, the proposal status names, and the system token constants.
 */
module MulsignDb {
  import opened Eosio

  /** The token contract of the system token. */
  const SYS_BANK: Name := "amax.token"

  /** The system token: `AMAX` with 8 decimals. */
  const SYS_SYMBOL: Symbol := Symbol("AMAX", 8)

  const SECONDS_PER_DAY: nat := 24 * 3600

  /** The `global` singleton. Before `init` the fee collector is empty and the fee is `asset()`. */
  datatype Global = Global(admin: Name, feeCollector: Name, walletFee: Asset, active: bool)

  /** The singleton when it does not exist yet: default fields, with `admin` set to the contract. */
  function InitialGlobal(self: Name): (g: Global)
    ensures g.admin == self && g.feeCollector == EMPTY_NAME && !g.active
    ensures g.walletFee == Asset(0, EMPTY_SYMBOL)
  {
    Global(self, EMPTY_NAME, Asset(0, EMPTY_SYMBOL), false)
  }

  /**
   * A wallet: `mulsignM` of the signers' total weight `mulsignN` must approve a withdrawal;
   * `assets` holds a balance per token symbol and token contract.
   */
  datatype Wallet = Wallet(
    id: nat,
    title: string,
    mulsignM: U32,
    mulsignN: U32,
    mulsigners: map<Name, U32>,
    assets: map<ExtSymbol, int>,
    proposalExpirySec: U64,
    creator: Name,
    createdAt: U32,
    updatedAt: U32)

  /** The documented wallet invariant. */
  predicate QuorumFits(w: Wallet)
  {
    w.mulsignM <= w.mulsignN
  }

  /**
   * `wallet_t(id)`: only the id is set, the rest keeps its default. `mulsign_m` and
   * `mulsign_n` have no default; 0 stands for them here, and `create_wallet` assigns both
   * before the row is stored.
   */
  function NewWallet(id: nat): (w: Wallet)
    ensures w.id == id && w.title == [] && w.creator == EMPTY_NAME
    ensures w.mulsigners == map[] && w.assets == map[]
    ensures w.proposalExpirySec == SECONDS_PER_DAY
    ensures w.createdAt == 0 && w.updatedAt == 0
  {
    Wallet(id, [], 0, 0, map[], map[], SECONDS_PER_DAY, EMPTY_NAME, 0, 0)
  }

  /** `NoStatus` is the empty name a fresh record holds before `propose` sets its status. */
  datatype ProposalStatus = NoStatus | Proposed | Approved | Executed | Canceled

  /** The account name under which each status is stored. */
  function StatusName(s: ProposalStatus): (n: Name)
    ensures s == NoStatus <==> n == EMPTY_NAME
    ensures s != NoStatus ==> n in {"proposed", "approved", "executed", "canceled"}
  {
    match s
    case NoStatus => EMPTY_NAME
    case Proposed => "proposed"
    case Approved => "approved"
    case Executed => "executed"
    case Canceled => "canceled"
  }

  /** A withdrawal proposal on one wallet. */
  datatype Proposal = Proposal(
    id: nat,
    walletId: nat,
    quantity: ExtAsset,
    recipient: Name,
    proposer: Name,
    transferMemo: string,
    excerpt: string,
    metaUrl: string,
    approvers: set<Name>,
    recvVotes: U32,
    createdAt: U32,
    expiredAt: U32,
    updatedAt: U32,
    status: ProposalStatus)

  /**
   * `proposal_t(id)`: only the id is set. `recv_votes` has no default and `propose` never
   * assigns it, so its value is whatever the storage held: `unsetVotes`.
   */
  function NewProposal(id: nat, unsetVotes: U32): (p: Proposal)
    ensures p.id == id && p.approvers == {} && p.recvVotes == unsetVotes
    ensures p.transferMemo == [] && p.excerpt == [] && p.metaUrl == []
    ensures p.status == NoStatus
  {
    Proposal(id, 0, ExtAsset(Asset(0, EMPTY_SYMBOL), EMPTY_NAME), EMPTY_NAME, EMPTY_NAME, [], [], [], {},
             unsetVotes, 0, 0, 0, NoStatus)
  }
}
