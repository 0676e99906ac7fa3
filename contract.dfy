/** The contract's storage as an object that each handler loads, changes in
    place and saves. Every handler is proved to compute exactly the outcome
    the matching function of module Handlers describes. */
module Contract {
  import opened Types
  import opened History
  import opened Registry
  import opened Handlers

  class State {
    var owner: Addr
    var contractInfos: seq<ContractInfo>
    var shillContract: ContractRef
    var shillViewingKey: Option<string>
    var amountPaid: nat
    var numBurned: int
    var history: map<HistoryKey, seq<HistoryToken>>

    /** The stored value. */
    function Snap(): Snapshot
      reads this
    {
      Snapshot(owner, contractInfos, shillContract, shillViewingKey, amountPaid, numBurned, history)
    }

    constructor Init(sender: Addr, msg: InstantiateMsg)
      ensures Snap() == InitialState(sender, msg)
    {
      owner := sender;
      contractInfos := msg.contractInfos;
      shillContract := msg.shillContract;
      shillViewingKey := Some(msg.entropyShill);
      amountPaid := 0;
      numBurned := 0;
      history := map[];
    }

    method TryBatchReceive(env: Env, sender: Addr, from: Addr, tokenIds: seq<TokenId>)
      returns (r: Result<Response>)
      modifies this
      ensures var o := BatchReceive(old(Snap()), env, sender, from, tokenIds);
              r == o.result && Snap() == o.post
    {
      var key := HumanKey(from);
      var found, i := IndexOf(contractInfos, sender);
      if !found {
        return Err(CustomError(NotEnrolledMsg));
      }
      if |tokenIds| == 0 {
        return Err(CustomError(NoTokensMsg));
      }
      var info := contractInfos[i];
      numBurned := numBurned + |tokenIds|;
      var msgs := [Burn(info.codeHash, info.address, tokenIds)];
      var amount := info.shillReward * |tokenIds|;
      if amount > 0 {
        msgs := msgs + [Transfer(from, amount, shillContract.codeHash, shillContract.address)];
        amountPaid := amountPaid + amount;
      }
      var record := HistoryToken(tokenIds, from, info.address, Some(env.blockTime), amount);
      history := Append(history, key, record);
      r := Ok(Response(msgs, [Attribute(ShillAmountKey, amount)]));
    }

    method TryRegisterNftReceive(env: Env, info: ContractInfo) returns (r: Result<Response>)
      modifies this
      ensures var o := RegisterNftReceive(old(Snap()), env, info);
              r == o.result && Snap() == o.post
    {
      var found, _ := IndexOf(contractInfos, info.address);
      if found {
        return Err(CustomError(AlreadyRegisteredMsg));
      }
      contractInfos := contractInfos + [info];
      r := Ok(Response([RegisterReceiveMsg(env.codeHash, info)], []));
    }

    method TryChangeShillReward(sender: Addr, info: ContractInfo) returns (r: Result<Response>)
      modifies this
      ensures var o := ChangeShillReward(old(Snap()), sender, info);
              r == o.result && Snap() == o.post
    {
      if sender != owner {
        return Err(Unauthorized);
      }
      var found, i := IndexOf(contractInfos, info.address);
      if !found {
        return Err(CustomError(NotSupportedMsg));
      }
      contractInfos := contractInfos[i := contractInfos[i].(shillReward := info.shillReward)];
      r := Ok(Response([], []));
    }

    method TrySendShillBack(sender: Addr, amount: nat, address: Addr) returns (r: Result<Response>)
      ensures r == SendShillBack(Snap(), sender, amount, address)
    {
      if sender != owner {
        return Err(Unauthorized);
      }
      r := Ok(Response([Transfer(address, amount, shillContract.codeHash, shillContract.address)], []));
    }
  }

  /** Creates the storage and asks every initial collection, in order, to
      notify this contract, then sets a viewing key on the reward token. */
  method Instantiate(env: Env, sender: Addr, msg: InstantiateMsg) returns (state: State, r: Result<Response>)
    ensures fresh(state)
    ensures state.Snap() == InitialState(sender, msg)
    ensures r.Ok? && r.value.attributes == []
    ensures var msgs := r.value.messages;
            && |msgs| == |msg.contractInfos| + 1
            && (forall j :: 0 <= j < |msg.contractInfos| ==>
                  msgs[j] == RegisterReceiveMsg(env.codeHash, msg.contractInfos[j]))
            && msgs[|msgs| - 1] ==
                 SetViewingKey(msg.entropyShill, msg.shillContract.codeHash, msg.shillContract.address)
  {
    state := new State.Init(sender, msg);
    var infos := msg.contractInfos;
    var msgs: seq<CosmosMsg> := [];
    var i := 0;
    while i < |infos|
      invariant i <= |infos|
      invariant |msgs| == i
      invariant forall j :: 0 <= j < i ==> msgs[j] == RegisterReceiveMsg(env.codeHash, infos[j])
    {
      msgs := msgs + [RegisterReceiveMsg(env.codeHash, infos[i])];
      i := i + 1;
    }
    msgs := msgs + [SetViewingKey(msg.entropyShill, msg.shillContract.codeHash, msg.shillContract.address)];
    r := Ok(Response(msgs, []));
  }
}
