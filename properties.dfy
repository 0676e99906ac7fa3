/** Properties of sequences of handler calls: what every handler preserves,
    the running totals as sums over the accepted burns, and what the history
    store holds afterwards. */
module Properties {
  import opened Types
  import opened History
  import opened Registry
  import opened Handlers

  /** The state-changing requests a caller can send. */
  datatype Op =
    | RegisterOp(info: ContractInfo)
    | BurnOp(from: Addr, tokenIds: seq<TokenId>)
    | ChangeRewardOp(info: ContractInfo)
    | SendBackOp(amount: nat, address: Addr)

  datatype Call = Call(env: Env, sender: Addr, op: Op)

  /** The storage after one call, failed or not. */
  function Apply(s: Snapshot, c: Call): Snapshot {
    match c.op
    case RegisterOp(info) => RegisterNftReceive(s, c.env, info).post
    case BurnOp(from, tokenIds) => BatchReceive(s, c.env, c.sender, from, tokenIds).post
    case ChangeRewardOp(info) => ChangeShillReward(s, c.sender, info).post
    case SendBackOp(_, _) => s
  }

  /** The storage after the calls, one after the other. */
  function Run(s: Snapshot, calls: seq<Call>): Snapshot
    decreases |calls|
  {
    if calls == [] then s else Run(Apply(s, calls[0]), calls[1..])
  }

  predicate IsPrefix<T(==)>(a: seq<T>, b: seq<T>) {
    |a| <= |b| && b[..|a|] == a
  }

  /** What may change between two stored values: the owner and the reward
      token never change, the totals never shrink, entries are never removed
      or re-addressed, history partitions only grow at the end, and a registry
      without duplicate addresses stays so. */
  ghost predicate Evolves(s: Snapshot, t: Snapshot) {
    && t.owner == s.owner
    && t.shillContract == s.shillContract
    && t.shillViewingKey == s.shillViewingKey
    && t.numBurned >= s.numBurned
    && t.amountPaid >= s.amountPaid
    && |t.contractInfos| >= |s.contractInfos|
    && (forall i :: 0 <= i < |s.contractInfos| ==>
          t.contractInfos[i].address == s.contractInfos[i].address
          && t.contractInfos[i].codeHash == s.contractInfos[i].codeHash)
    && (forall k :: IsPrefix(Records(s.history, k), Records(t.history, k)))
    && (Unique(s.contractInfos) ==> Unique(t.contractInfos))
  }

  lemma ApplyEvolves(s: Snapshot, c: Call)
    ensures Evolves(s, Apply(s, c))
  {
  }

  lemma EvolvesTransitive(s: Snapshot, t: Snapshot, u: Snapshot)
    requires Evolves(s, t) && Evolves(t, u)
    ensures Evolves(s, u)
  {
  }

  /** Every sequence of calls keeps the invariants of `Evolves`. */
  lemma {:induction false} RunEvolves(s: Snapshot, calls: seq<Call>)
    ensures Evolves(s, Run(s, calls))
    decreases |calls|
  {
    if calls == [] {
      forall k ensures IsPrefix(Records(s.history, k), Records(s.history, k)) {
        assert Records(s.history, k)[..|Records(s.history, k)|] == Records(s.history, k);
      }
    } else {
      var t := Apply(s, calls[0]);
      ApplyEvolves(s, calls[0]);
      RunEvolves(t, calls[1..]);
      EvolvesTransitive(s, t, Run(t, calls[1..]));
    }
  }

  // ----- sequences of burns -----

  predicate AllBurns(calls: seq<Call>) {
    forall i :: 0 <= i < |calls| ==> calls[i].op.BurnOp?
  }

  /** The burn call is accepted against registry `infos`. */
  predicate Accepted(infos: seq<ContractInfo>, c: Call) {
    c.op.BurnOp? && IsRegistered(infos, c.sender) && |c.op.tokenIds| > 0
  }

  datatype Totals = Totals(burned: nat, paid: nat)

  function Plus(x: Totals, y: Totals): Totals {
    Totals(x.burned + y.burned, x.paid + y.paid)
  }

  /** The reward an accepted burn earns: the collection's current rate per token. */
  function Reward(infos: seq<ContractInfo>, c: Call): nat
    requires Accepted(infos, c)
  {
    infos[FindIndex(infos, c.sender)].shillReward * |c.op.tokenIds|
  }

  /** What one burn call adds to the totals. */
  function Gain(infos: seq<ContractInfo>, c: Call): Totals {
    if Accepted(infos, c) then Totals(|c.op.tokenIds|, Reward(infos, c)) else Totals(0, 0)
  }

  /** The sum of the gains, a reference definition independent of any handler. */
  function Sum(infos: seq<ContractInfo>, calls: seq<Call>): Totals
    decreases |calls|
  {
    if calls == [] then Totals(0, 0) else Plus(Gain(infos, calls[0]), Sum(infos, calls[1..]))
  }

  /** The record an accepted burn appends. */
  function RecordOf(infos: seq<ContractInfo>, c: Call): HistoryToken
    requires Accepted(infos, c)
  {
    HistoryToken(c.op.tokenIds, c.op.from, c.sender, Some(c.env.blockTime), Reward(infos, c))
  }

  /** The records the accepted burns file under key `k`, in call order. */
  function RecordsFor(infos: seq<ContractInfo>, calls: seq<Call>, k: HistoryKey): seq<HistoryToken>
    decreases |calls|
  {
    if calls == [] then []
    else if Accepted(infos, calls[0]) && HumanKey(calls[0].op.from) == k then
      [RecordOf(infos, calls[0])] + RecordsFor(infos, calls[1..], k)
    else RecordsFor(infos, calls[1..], k)
  }

  /** After a run of burns the registry is as before, and the totals have grown
      by exactly the sums of the accepted burns' token counts and rewards. */
  lemma {:induction false} BurnTotals(s: Snapshot, calls: seq<Call>)
    requires AllBurns(calls)
    ensures Run(s, calls).contractInfos == s.contractInfos
    ensures Run(s, calls).numBurned == s.numBurned + Sum(s.contractInfos, calls).burned
    ensures Run(s, calls).amountPaid == s.amountPaid + Sum(s.contractInfos, calls).paid
    decreases |calls|
  {
    if calls != [] {
      var t := Apply(s, calls[0]);
      assert AllBurns(calls[1..]) by {
        forall i | 0 <= i < |calls[1..]| ensures calls[1..][i].op.BurnOp? {
          assert calls[1..][i] == calls[i + 1];
        }
      }
      BurnTotals(t, calls[1..]);
    }
  }

  /** After a run of burns, the partition under `k` holds its old records
      followed by one record per accepted burn filed under `k`, in call order. */
  lemma {:induction false} BurnHistory(s: Snapshot, calls: seq<Call>, k: HistoryKey)
    requires AllBurns(calls)
    ensures Records(Run(s, calls).history, k) == Records(s.history, k) + RecordsFor(s.contractInfos, calls, k)
    decreases |calls|
  {
    if calls != [] {
      var t := Apply(s, calls[0]);
      assert AllBurns(calls[1..]) by {
        forall i | 0 <= i < |calls[1..]| ensures calls[1..][i].op.BurnOp? {
          assert calls[1..][i] == calls[i + 1];
        }
      }
      BurnHistory(t, calls[1..], k);
    }
  }

  lemma {:induction false} SumAppend(infos: seq<ContractInfo>, a: seq<Call>, b: seq<Call>)
    ensures Sum(infos, a + b).burned == Sum(infos, a).burned + Sum(infos, b).burned
    ensures Sum(infos, a + b).paid == Sum(infos, a).paid + Sum(infos, b).paid
    decreases |a|
  {
    if a == [] {
      assert a + b == b;
    } else {
      assert (a + b)[1..] == a[1..] + b;
      SumAppend(infos, a[1..], b);
    }
  }

  lemma MultisetRemove<T>(b: seq<T>, j: nat)
    requires j < |b|
    ensures multiset(b[..j] + b[j + 1..]) == multiset(b) - multiset{b[j]}
  {
    assert b == b[..j] + [b[j]] + b[j + 1..];
  }

  /** Taking one call out of a run takes its gain out of the sums. */
  lemma SumRemove(infos: seq<ContractInfo>, b: seq<Call>, j: nat)
    requires j < |b|
    ensures Sum(infos, b).burned == Gain(infos, b[j]).burned + Sum(infos, b[..j] + b[j + 1..]).burned
    ensures Sum(infos, b).paid == Gain(infos, b[j]).paid + Sum(infos, b[..j] + b[j + 1..]).paid
  {
    assert b == b[..j] + ([b[j]] + b[j + 1..]);
    SumAppend(infos, b[..j], [b[j]] + b[j + 1..]);
    SumAppend(infos, [b[j]], b[j + 1..]);
    SumAppend(infos, b[..j], b[j + 1..]);
  }

  /** An element of `a` found in `b`, when the two hold the same elements. */
  lemma PickMatch<T>(a: seq<T>, b: seq<T>) returns (j: nat)
    requires multiset(a) == multiset(b) && a != []
    ensures j < |b| && b[j] == a[0]
    ensures multiset(a[1..]) == multiset(b[..j] + b[j + 1..])
  {
    assert a[0] in multiset(b);
    j :| 0 <= j < |b| && b[j] == a[0];
    MultisetRemove(b, j);
    assert a == [a[0]] + a[1..];
  }

  lemma EmptyMatch<T>(a: seq<T>, b: seq<T>)
    requires multiset(a) == multiset(b) && a == []
    ensures b == []
  {
    assert |b| == |multiset(b)| == 0;
  }

  /** The sums depend only on which burns were made, not on their order. */
  lemma {:induction false} SumPermutation(infos: seq<ContractInfo>, a: seq<Call>, b: seq<Call>)
    requires multiset(a) == multiset(b)
    ensures Sum(infos, a).burned == Sum(infos, b).burned
    ensures Sum(infos, a).paid == Sum(infos, b).paid
    decreases |a|
  {
    if a == [] {
      EmptyMatch(a, b);
    } else {
      var j := PickMatch(a, b);
      SumPermutation(infos, a[1..], b[..j] + b[j + 1..]);
      SumRemove(infos, b, j);
    }
  }

  lemma AllBurnsPermutation(a: seq<Call>, b: seq<Call>)
    requires AllBurns(a) && multiset(a) == multiset(b)
    ensures AllBurns(b)
  {
    forall i | 0 <= i < |b| ensures b[i].op.BurnOp? {
      assert b[i] in multiset(a);
    }
  }

  /** Totals after a run of burns do not depend on the order of the burns. */
  lemma TotalsIndependentOfOrder(s: Snapshot, a: seq<Call>, b: seq<Call>)
    requires AllBurns(a) && multiset(a) == multiset(b)
    ensures Run(s, a).numBurned == Run(s, b).numBurned
    ensures Run(s, a).amountPaid == Run(s, b).amountPaid
  {
    AllBurnsPermutation(a, b);
    BurnTotals(s, a);
    BurnTotals(s, b);
    SumPermutation(s.contractInfos, a, b);
  }

  /** Burns are filed under the sender's address string, queries read under
      the querier's canonical address, and no other handler writes history.
      A canonical address shorter than every `from` string of the burns in a
      run of calls therefore sees none of them: both history queries answer
      as before the run. */
  lemma {:induction false} HistoryQueriesMissBurns(
    s: Snapshot, calls: seq<Call>, permit: Permit, querier: CanonicalAddr)
    requires forall i :: 0 <= i < |calls| && calls[i].op.BurnOp? ==> |querier| < |calls[i].op.from|
    ensures QueryNumUserBurnHistory(Run(s, calls), permit, Ok(querier))
         == QueryNumUserBurnHistory(s, permit, Ok(querier))
    ensures QueryUserBurnHistory(Run(s, calls), permit, Ok(querier))
         == QueryUserBurnHistory(s, permit, Ok(querier))
    decreases |calls|
  {
    if calls != [] {
      var t := Apply(s, calls[0]);
      if calls[0].op.BurnOp? {
        KeysDiffer(calls[0].op.from, querier);
      }
      assert Records(t.history, CanonicalKey(querier)) == Records(s.history, CanonicalKey(querier));
      assert forall i :: 0 <= i < |calls[1..]| ==> calls[1..][i] == calls[i + 1];
      HistoryQueriesMissBurns(t, calls[1..], permit, querier);
    }
  }

  /** The incoming code hash plays no part in a reward change. */
  lemma ChangeRewardIgnoresCodeHash(s: Snapshot, sender: Addr, info: ContractInfo, codeHash: string)
    ensures ChangeShillReward(s, sender, info.(codeHash := codeHash)) == ChangeShillReward(s, sender, info)
  {
  }
}
