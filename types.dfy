/** Values exchanged by the burn-to-earn contract: the registry entries, the
    history records, the outgoing messages and the errors of its handlers. */
module Types {

  /** A human-readable (bech32) account or contract address. */
  type Addr = string

  type Byte = b: int | 0 <= b < 256

  /** The host's canonical (binary) form of an address. */
  type CanonicalAddr = seq<Byte>

  /** The suffix under which one user's burn history is stored. */
  type HistoryKey = seq<Byte>

  type TokenId = string

  datatype Option<+T> = None | Some(value: T)

  /** One registered NFT collection and the reward paid per burned token. */
  datatype ContractInfo = ContractInfo(address: Addr, codeHash: string, shillReward: nat)

  /** A reference to another contract: the reward ("shill") token. */
  datatype ContractRef = ContractRef(address: Addr, codeHash: string)

  /** One burn event as it is appended to a user's history. */
  datatype HistoryToken = HistoryToken(
    tokenIds: seq<TokenId>,
    owner: Addr,
    contractAddress: Addr,
    burnDate: Option<nat>,
    rewardAmount: nat)

  /** Outgoing messages, kept abstract: their wire encoding (padding, block size)
      belongs to the message-builder library. */
  datatype CosmosMsg =
    | RegisterReceive(ownCodeHash: string, collectionCodeHash: string, collection: Addr)
    | SetViewingKey(key: string, tokenCodeHash: string, token: Addr)
    | Burn(collectionCodeHash: string, collection: Addr, tokenIds: seq<TokenId>)
    | Transfer(recipient: Addr, amount: nat, tokenCodeHash: string, token: Addr)

  datatype Attribute = Attribute(key: string, value: nat)

  datatype Response = Response(messages: seq<CosmosMsg>, attributes: seq<Attribute>)

  datatype Permission = Allowance | Balance | History | Owner

  /** The part of a query permit the contract itself inspects; its signature
      is checked by an outside validator. */
  datatype Permit = Permit(name: string, permissions: set<Permission>)

  datatype Error =
    | Unauthorized
    | CustomError(val: string)
    | OwnerPermissionRequired(granted: set<Permission>)
    | PermitRejected(reason: string)

  datatype Result<+T> = Ok(value: T) | Err(error: Error)

  /** What the host tells a handler about the block and the contract itself. */
  datatype Env = Env(blockTime: nat, codeHash: string)

  datatype InstantiateMsg = InstantiateMsg(
    contractInfos: seq<ContractInfo>,
    shillContract: ContractRef,
    entropyShill: string)

  /** The value of the contract's storage: the `State` record together with
      the burn-history partitions. */
  datatype Snapshot = Snapshot(
    owner: Addr,
    contractInfos: seq<ContractInfo>,
    shillContract: ContractRef,
    shillViewingKey: Option<string>,
    amountPaid: nat,
    numBurned: int,
    history: map<HistoryKey, seq<HistoryToken>>)

  /** What a state-changing handler produces: its reply and the storage it
      leaves behind (the old storage when it fails). */
  datatype Outcome = Outcome(result: Result<Response>, post: Snapshot)

  datatype BurnInfoResponse = BurnInfoResponse(numBurned: int, amountPaid: nat)
}
