/** The contract's handlers as functions from the storage they load to the
    reply they give and the storage they save. A failing handler saves
    nothing, so its outcome carries the storage it was given. */
module Handlers {
  import opened Types
  import opened History
  import opened Registry

  const NotEnrolledMsg := "This contract address is not enrolled in the burn to earn program"
  const NoTokensMsg := "No Tokens to Burn"
  const AlreadyRegisteredMsg := "This contract address has already been registered"
  const NotSupportedMsg := "This contract address isn't supported"
  const ShillAmountKey := "shill_amount"

  /** The request, sent to a collection, to notify this contract of received tokens. */
  function RegisterReceiveMsg(ownCodeHash: string, info: ContractInfo): CosmosMsg {
    RegisterReceive(ownCodeHash, info.codeHash, info.address)
  }

  /** The storage `instantiate` saves: the creator owns the contract and the
      initial registry is taken as given, duplicates included. */
  function InitialState(sender: Addr, msg: InstantiateMsg): (s: Snapshot)
    ensures s.owner == sender && s.amountPaid == 0 && s.numBurned == 0
    ensures s.contractInfos == msg.contractInfos && s.shillContract == msg.shillContract
    ensures s.shillViewingKey == Some(msg.entropyShill) && s.history == map[]
  {
    Snapshot(sender, msg.contractInfos, msg.shillContract, Some(msg.entropyShill), 0, 0, map[])
  }

  /** A collection notifies the contract that `from` sent it `tokenIds`:
      the tokens are burned and `from` is paid the collection's reward. */
  function BatchReceive(s: Snapshot, env: Env, sender: Addr, from: Addr, tokenIds: seq<TokenId>)
    : (o: Outcome)
    // the two refusals, in the order the handler tests them; neither saves anything
    ensures !IsRegistered(s.contractInfos, sender) ==> o == Outcome(Err(CustomError(NotEnrolledMsg)), s)
    ensures IsRegistered(s.contractInfos, sender) && |tokenIds| == 0 ==>
              o == Outcome(Err(CustomError(NoTokensMsg)), s)
    ensures o.result.Ok? <==> IsRegistered(s.contractInfos, sender) && |tokenIds| > 0
    // totals: one more burned per token, the reward is the collection's rate per token
    ensures o.result.Ok? ==>
              var info := s.contractInfos[FindIndex(s.contractInfos, sender)];
              && o.post.numBurned == s.numBurned + |tokenIds|
              && o.post.amountPaid == s.amountPaid + info.shillReward * |tokenIds|
    // nothing else in the state record changes
    ensures o.result.Ok? ==>
              && o.post.owner == s.owner
              && o.post.contractInfos == s.contractInfos
              && o.post.shillContract == s.shillContract
              && o.post.shillViewingKey == s.shillViewingKey
    // one burn of every token, first; then a transfer exactly when there is something to pay
    ensures o.result.Ok? ==>
              var msgs, paid := o.result.value.messages, o.post.amountPaid - s.amountPaid;
              && |msgs| == (if paid > 0 then 2 else 1)
              && msgs[0].Burn? && msgs[0].collection == sender && msgs[0].tokenIds == tokenIds
              && msgs[0].collectionCodeHash == s.contractInfos[FindIndex(s.contractInfos, sender)].codeHash
              && (paid > 0 ==> msgs[1] == Transfer(from, paid, s.shillContract.codeHash, s.shillContract.address))
              && o.result.value.attributes == [Attribute(ShillAmountKey, paid)]
    // one record appended to the partition written under `from`'s address string
    ensures o.result.Ok? ==>
              var old_, new_ := Records(s.history, HumanKey(from)), Records(o.post.history, HumanKey(from));
              && |new_| == |old_| + 1 && new_[..|old_|] == old_
              && new_[|old_|] == HistoryToken(tokenIds, from, sender, Some(env.blockTime),
                                              o.post.amountPaid - s.amountPaid)
              && o.post.history.Keys == s.history.Keys + {HumanKey(from)}
              && forall k :: k != HumanKey(from) ==> Records(o.post.history, k) == Records(s.history, k)
  {
    if !IsRegistered(s.contractInfos, sender) then
      Outcome(Err(CustomError(NotEnrolledMsg)), s)
    else if |tokenIds| == 0 then
      Outcome(Err(CustomError(NoTokensMsg)), s)
    else
      var info := s.contractInfos[FindIndex(s.contractInfos, sender)];
      var burn := Burn(info.codeHash, info.address, tokenIds);
      var amount := info.shillReward * |tokenIds|;
      var msgs := if amount > 0
        then [burn] + [Transfer(from, amount, s.shillContract.codeHash, s.shillContract.address)]
        else [burn];
      var record := HistoryToken(tokenIds, from, info.address, Some(env.blockTime), amount);
      var post := s.(numBurned := s.numBurned + |tokenIds|,
                     amountPaid := s.amountPaid + amount,
                     history := Append(s.history, HumanKey(from), record));
      Outcome(Ok(Response(msgs, [Attribute(ShillAmountKey, amount)])), post)
  }

  /** Enrols a collection. Anyone may call it: there is no owner check. */
  function RegisterNftReceive(s: Snapshot, env: Env, info: ContractInfo): (o: Outcome)
    ensures o.result.Err? <==> IsRegistered(s.contractInfos, info.address)
    ensures o.result.Err? ==> o == Outcome(Err(CustomError(AlreadyRegisteredMsg)), s)
    ensures o.result.Ok? ==>
              && o.post == s.(contractInfos := o.post.contractInfos)
              && |o.post.contractInfos| == |s.contractInfos| + 1
              && o.post.contractInfos[..|s.contractInfos|] == s.contractInfos
              && o.post.contractInfos[|s.contractInfos|] == info
              && o.result.value == Response([RegisterReceiveMsg(env.codeHash, info)], [])
    ensures Unique(s.contractInfos) ==> Unique(o.post.contractInfos)
  {
    if IsRegistered(s.contractInfos, info.address) then
      Outcome(Err(CustomError(AlreadyRegisteredMsg)), s)
    else
      Outcome(Ok(Response([RegisterReceiveMsg(env.codeHash, info)], [])),
              s.(contractInfos := s.contractInfos + [info]))
  }

  /** The owner sets the reward of the first entry whose address matches
      `info.address`; `info.codeHash` plays no part. */
  function ChangeShillReward(s: Snapshot, sender: Addr, info: ContractInfo): (o: Outcome)
    ensures sender != s.owner ==> o == Outcome(Err(Unauthorized), s)
    ensures sender == s.owner && !IsRegistered(s.contractInfos, info.address) ==>
              o == Outcome(Err(CustomError(NotSupportedMsg)), s)
    ensures o.result.Ok? <==> sender == s.owner && IsRegistered(s.contractInfos, info.address)
    ensures o.result.Ok? ==>
              var infos, infos' := s.contractInfos, o.post.contractInfos;
              var i := FindIndex(infos, info.address);
              && o.result.value == Response([], [])
              && o.post == s.(contractInfos := infos')
              && |infos'| == |infos|
              && infos'[i].shillReward == info.shillReward
              && (forall j :: 0 <= j < |infos| ==>
                    infos'[j].address == infos[j].address && infos'[j].codeHash == infos[j].codeHash)
              && (forall j :: 0 <= j < |infos| && j != i ==> infos'[j] == infos[j])
    ensures Unique(s.contractInfos) ==> Unique(o.post.contractInfos)
  {
    if sender != s.owner then
      Outcome(Err(Unauthorized), s)
    else if !IsRegistered(s.contractInfos, info.address) then
      Outcome(Err(CustomError(NotSupportedMsg)), s)
    else
      var i := FindIndex(s.contractInfos, info.address);
      var updated := s.contractInfos[i].(shillReward := info.shillReward);
      Outcome(Ok(Response([], [])), s.(contractInfos := s.contractInfos[i := updated]))
  }

  /** The owner sends `amount` of the reward token to `address`. Storage is
      never written, so the reply is all there is. */
  function SendShillBack(s: Snapshot, sender: Addr, amount: nat, address: Addr): (r: Result<Response>)
    ensures r.Ok? <==> sender == s.owner
    ensures r.Err? ==> r.error == Unauthorized
    ensures r.Ok? ==>
              && |r.value.messages| == 1 && r.value.attributes == []
              && r.value.messages[0].Transfer?
              && r.value.messages[0].recipient == address && r.value.messages[0].amount == amount
              && r.value.messages[0].token == s.shillContract.address
              && r.value.messages[0].tokenCodeHash == s.shillContract.codeHash
  {
    if sender != s.owner then Err(Unauthorized)
    else Ok(Response([Transfer(address, amount, s.shillContract.codeHash, s.shillContract.address)], []))
  }

  /** The whole registry, unpaged. */
  function QueryContracts(s: Snapshot): (r: seq<ContractInfo>)
    ensures forall a :: IsRegistered(r, a) <==> IsRegistered(s.contractInfos, a)
    ensures |r| == |s.contractInfos| && forall i :: 0 <= i < |r| ==> r[i] == s.contractInfos[i]
  {
    s.contractInfos
  }

  /** The running totals. */
  function QueryBurnInfo(s: Snapshot): (r: BurnInfoResponse)
    ensures r.numBurned == s.numBurned && r.amountPaid == s.amountPaid
  {
    BurnInfoResponse(s.numBurned, s.amountPaid)
  }

  /** Who is asking: `validated` is what the outside permit validator made of
      the permit (an error, or the signer's canonical address). A valid permit
      must still grant the `Owner` permission. */
  function GetQuerier(permit: Permit, validated: Result<CanonicalAddr>): (r: Result<CanonicalAddr>)
    ensures r.Ok? <==> validated.Ok? && Owner in permit.permissions
    ensures r.Ok? ==> r.value == validated.value
    ensures validated.Err? ==> r == validated
    ensures validated.Ok? && Owner !in permit.permissions ==>
              r.error == OwnerPermissionRequired(permit.permissions)
  {
    if validated.Err? then validated
    else if Owner !in permit.permissions then Err(OwnerPermissionRequired(permit.permissions))
    else validated
  }

  /** How many burns are stored under the querier's canonical address. */
  function QueryNumUserBurnHistory(s: Snapshot, permit: Permit, validated: Result<CanonicalAddr>)
    : (r: Result<nat>)
    ensures r.Ok? <==> GetQuerier(permit, validated).Ok?
    ensures r.Err? ==> r.error == GetQuerier(permit, validated).error
    ensures r.Ok? ==> r.value == |Records(s.history, CanonicalKey(validated.value))|
  {
    var q := GetQuerier(permit, validated);
    if q.Err? then Err(q.error) else Ok(|Records(s.history, CanonicalKey(q.value))|)
  }

  /** The records stored under the querier's canonical address, from which
      the requested page is cut. */
  function QueryUserBurnHistory(s: Snapshot, permit: Permit, validated: Result<CanonicalAddr>)
    : (r: Result<seq<HistoryToken>>)
    ensures r.Ok? <==> GetQuerier(permit, validated).Ok?
    ensures r.Err? ==> r.error == GetQuerier(permit, validated).error
    ensures r.Ok? ==> r.value == Records(s.history, CanonicalKey(validated.value))
  {
    var q := GetQuerier(permit, validated);
    if q.Err? then Err(q.error) else Ok(Records(s.history, CanonicalKey(q.value)))
  }
}
