# Burn-to-earn contract, modelled in Dafny

This project models the state machine of the burn-to-earn contract (`src/contract.rs`).
The contract keeps a registry of NFT collections. Each collection has a per-token reward
in the "shill" token. When a registered collection forwards a batch of tokens received
from a user, the contract burns them and pays the user the reward. It also keeps running
totals (`num_burned`, `amount_paid`) and appends a record to the user's burn history.
The owner can change a collection's reward and send reward tokens out. Anyone can enrol
a new collection. Users read their own history with a signed permit that grants the
`Owner` permission.

Layout:

- `types.dfy` (module `Types`): the values the contract handles. These are `ContractInfo`,
  `HistoryToken`, the outgoing `CosmosMsg` (`RegisterReceive`, `SetViewingKey`, `Burn`,
  `Transfer`), `Response`, `Error`, `Permit`, and `Snapshot`, which is the value of the
  contract's storage.
- `history.dfy` (module `History`): the two keys of the history store. `HumanKey` is the
  UTF-8 bytes of the address string; a burn is written under it. `CanonicalKey` is the
  canonical address bytes; a query reads under it. The module also has the
  append-only partitions.
- `registry.dfy` (module `Registry`): membership by address (`any`), the first entry with
  an address (`find`), and address uniqueness.
- `handlers.dfy` (module `Handlers`): every handler and query as a function from the
  loaded storage to the reply and the saved storage. Its contract states what the
  handler promises.
- `contract.dfy` (module `Contract`): the storage as a class `State` whose handlers change
  its fields in place. Each is proved to produce exactly the outcome its `Handlers`
  function describes. `Instantiate` builds the initial messages in a loop.
- `properties.dfy` (module `Properties`): lemmas about sequences of calls. They cover
  invariants every handler keeps, totals as sums over accepted burns, order independence,
  the exact contents of the history partitions, and the key mismatch below.

Behaviour kept as the code has it:

- The history store is written under the bytes of the sender's address string (line 107)
  but read under the canonical address bytes (lines 294 and 304). A canonical address is
  20 bytes and a bech32 address string is longer. `Properties.HistoryQueriesMissBurns`
  proves that a querier whose canonical address is shorter than the `from` strings of the
  burns in any run of calls sees the same count and records after the run as before it. The model
  makes no claim that a user's query sees their own burns.
- `instantiate` does not check the initial `contract_infos` for duplicate addresses.
  Registration and reward changes preserve address uniqueness
  (`Properties.RunEvolves`), but nothing establishes it at creation.
- `try_register_nft_receive` has no owner check: `Handlers.RegisterNftReceive` takes no
  sender.
- `try_change_shill_reward` updates the first entry with the given address, and ignores
  the incoming code hash.

## Model

| member | source | states |
|---|---|---|
| `History.Utf8` | src/contract.rs:107 | the UTF-8 encoding of one character, as `as_bytes()` produces it: one to four bytes, a single byte exactly for a character below 0x80, and then that byte is the character's code |
| `History.HumanKey` | src/contract.rs:107 | the write key for `from` is at least as long as the address string, and equals its characters for an ASCII address |
| `History.CanonicalKey` | src/contract.rs:294 | the read key (here and at line 304) is the canonical address bytes unchanged: same length, same bytes |
| `History.KeysDiffer` | src/contract.rs:107 | a canonical address shorter than an address string never equals the key that string's burns are written under (lines 294 and 304 read under the former) |
| `History.Append` | src/contract.rs:156 | pushing a record extends exactly one partition by that record at its end; every other partition is unchanged |
| `Registry.IsRegistered` | src/contract.rs:109 | some entry has the address (the same test at lines 179 and 221); equivalently the front-to-back test of `any`: the first entry matches or the rest has a match, and an empty registry has none |
| `Registry.FindIndex` | src/contract.rs:110 | the index of a matching entry with no matching entry before it |
| `Registry.IndexOf` | src/contract.rs:109-110 | the scan finds an entry iff the address is registered, and returns the first match |
| `Handlers.InitialState` | src/contract.rs:27-34 | the creator becomes owner; totals start at 0; the initial registry is stored as given; the viewing key is set from the entropy; history is empty |
| `Handlers.BatchReceive` | src/contract.rs:95-169 | refuses an unregistered sender, then an empty batch, saving nothing; on success `num_burned` grows by the token count and `amount_paid` by rate times count; owner, registry and reward token are unchanged; the burn of all tokens for the sender comes first, then a transfer to `from` iff the reward is positive; exactly one record (ids, `from`, sender, block time, reward) is appended under `from`'s address string |
| `Handlers.RegisterNftReceive` | src/contract.rs:171-197 | fails iff the address is already registered, saving nothing; otherwise appends the entry at the end and keeps every existing entry; keeps addresses unique; emits one register-receive message |
| `Handlers.ChangeShillReward` | src/contract.rs:210-231 | a non-owner gets `Unauthorized` and an unknown address an error, both saving nothing; otherwise only the reward of the first matching entry changes, with length, order, addresses, code hashes and totals kept |
| `Handlers.SendShillBack` | src/contract.rs:233-256 | succeeds iff the sender is the owner; then exactly one transfer of `amount` to `address` in the reward token; storage is never written |
| `Handlers.QueryContracts` | src/contract.rs:272-277 | the whole registry, in order, unpaged |
| `Handlers.QueryBurnInfo` | src/contract.rs:279-284 | the two running totals |
| `Handlers.GetQuerier` | src/contract.rs:309-334 | succeeds iff the permit validates and grants `Owner`, with the validator's error first and the missing-permission error second |
| `Handlers.QueryNumUserBurnHistory` | src/contract.rs:299-307 | on an authorised permit, the number of records under the querier's canonical address bytes |
| `Handlers.QueryUserBurnHistory` | src/contract.rs:286-297 | on an authorised permit, the records under the querier's canonical address bytes, from which the page is cut |
| `Contract.State.Init` | src/contract.rs:27-34 | the fields hold the initial state |
| `Contract.Instantiate` | src/contract.rs:20-68 | fresh storage in the initial state; one register-receive message per initial entry, in order, then exactly one set-viewing-key message |
| `Contract.State.TryBatchReceive` | src/contract.rs:95-169 | the in-place update and reply are those of `Handlers.BatchReceive` |
| `Contract.State.TryRegisterNftReceive` | src/contract.rs:171-197 | the in-place update and reply are those of `Handlers.RegisterNftReceive` |
| `Contract.State.TryChangeShillReward` | src/contract.rs:210-231 | the in-place update through the first match and the reply are those of `Handlers.ChangeShillReward` |
| `Contract.State.TrySendShillBack` | src/contract.rs:233-256 | the reply is that of `Handlers.SendShillBack`, and no field is written |
| `Properties.ApplyEvolves` | src/contract.rs:95-256 | one call of any handler keeps owner and reward token, never shrinks totals, never removes or re-addresses an entry, only appends to history, and keeps addresses unique |
| `Properties.RunEvolves` | src/contract.rs:95-256 | the same holds across any sequence of calls |
| `Properties.BurnTotals` | src/contract.rs:109-145 | after any run of burns the registry is unchanged, and the totals equal their start plus the sums of token counts and rewards of the accepted burns |
| `Properties.BurnHistory` | src/contract.rs:107-156 | after any run of burns each partition holds its old records followed by the accepted burns' records filed under it, in call order |
| `Properties.SumPermutation` | src/contract.rs:113-145 | the sums of token counts and rewards depend only on the multiset of burns |
| `Properties.TotalsIndependentOfOrder` | src/contract.rs:113-145 | two runs of the same burns in any order end with the same totals |
| `Properties.HistoryQueriesMissBurns` | src/contract.rs:286-307 | the queries read under the canonical address bytes while burns are filed under the address string (line 107), so burns from `from` strings longer than the querier's canonical address change neither history query's answer, in any run of calls, since no other handler writes history |
| `Properties.ChangeRewardIgnoresCodeHash` | src/contract.rs:221-223 | the incoming code hash has no effect on a reward change |

## Left out

- Message encoding: the message builders of the toolkit library (padding, `BLOCK_SIZE`,
  serialisation) are represented by the abstract `CosmosMsg` constructors.
- Permit validation: the signature check and address canonicalisation are an oracle.
  Its result (an error or the querier's canonical address) is a parameter of the queries.
- `try_revoke_permit`: it only calls the library's revocation store, which is not part of
  this model. It never touches the stored `State`.
- Paging: `AppendStore::paging` and its out-of-range behaviour are library code.
  `QueryUserBurnHistory` returns the partition that the page would be cut from.
- Handlers.QueryUserBurnHistory: does not model page selection; see Paging.
- Integer widths: `amount_paid` and rewards are unbounded naturals. The source's
  `Uint128` multiply and add would panic on overflow. `num_burned` is an unbounded
  integer. In the source it is an `i32` increased by `len as i32`. That cast truncates,
  and the `i32` addition past 2147483647 would wrap or panic, depending on the build's
  overflow checks. The `len as u32` cast in the reward is also unmodelled.
- Storage plumbing: loading and saving `CONFIG_ITEM`, `ADMIN_ITEM` and `MY_ADDRESS_ITEM`,
  `to_binary`, debug logging, and the `execute`/`query` entry-point dispatch. Every
  handler loads the whole storage value and saves it only on success, which is what the
  `Outcome` of a handler records.
- Storage and library errors propagated with `?` (serialisation and message building) are
  not modelled; those handlers succeed whenever their own checks pass.
- Error texts: query errors carry the permit's permission set rather than the formatted
  message string.
