# Betting-market backend: settlement scanner and event recorder

This project models the two pieces of decision logic in the backend of a
betting market that runs on a blockchain.

- **Settlement scanner** (`backend/settleBetBot.ts`, module `SettleBetBot`,
  file `settle_bet_bot.dfy`). On every new block, `checkBets` reads
  `totalBets`. If it is zero the scan returns at once. Otherwise the scan
  walks `betId` from 0 to `totalBets - 1`. For each id it reads the bet and
  reads the clock. When `closingTime <= floor(Date.now() / 1000)` and
  `isActive` hold, it calls `settleBet`, which submits the transaction and
  waits for its confirmation before the loop goes on. The first failing
  remote call ends the scan. The block handler catches that error and logs
  it.
- **Event recorder** (`backend/eventListener.ts`, module `EventListener`,
  file `event_listener.dfy`). There are three handlers, one each for
  `BetProposed`, `BetAccepted` and `BetSettled`. Each handler builds a record
  `{hash: event.log.hash, name, address: contractAddress, data: {...}}` and
  asks the store to create it. A failed create is caught and logged, and the
  handler returns normally.

How the outside world is represented:

- The contract is a value `Chain`. It holds the answer of `totalBets()`,
  the answer `bets[id]` of each `bets(id)` read, and the set of remote calls
  that fail. A read of an id outside `bets` also fails.
- `Date.now()` is a parameter `clock: nat -> int`. `clock(id)` is the
  number of milliseconds the clock returns in the iteration for bet `id`.
  This matches the code, which reads the clock again in every iteration.
- A scan is described by its trace of `Read(id)` / `Settle(id)` calls and
  by the error that ended it.
- The event store is a class `EventStore` whose field `records` is a
  `map<Hash, EventRecord>`. `Create` takes a flag `createFails` that says whether
  the call fails for a reason other than a duplicate hash: the store cannot
  be reached, the row is refused by validation, or the `data` value cannot
  be serialised.
- **Assumption.** The store rejects a record whose `hash` it already holds.
  That unique key belongs to the database schema, which is not part of this
  model.
- `Replay` folds a sequence of deliveries over the store. It is how the
  lemmas about many deliveries are stated.

## Model

| member | source | states |
|---|---|---|
| SettleBetBot.UnixSeconds | backend/settleBetBot.ts:37 | The clock in unix seconds is the floor of milliseconds / 1000: `s * 1000 <= ms < s * 1000 + 1000`. |
| SettleBetBot.CheckBets | backend/settleBetBot.ts:27-42 | The loop (read count, return early on zero, sequential read / select / settle per id, stop at the first failure) produces exactly the scan `Scan` describes. With `totalBets == 0` it makes no call at all. |
| SettleBetBot.OnBlock | backend/settleBetBot.ts:44-47 | The block handler always returns normally. It reports the scan's calls, and the scan's error appears only as the logged value. No error is logged iff the count read succeeded and every bet was handled without error. |
| SettleBetBot.ScanFromBounds | backend/settleBetBot.ts:34 | Every call the loop makes from `betId` on concerns an id in `[betId, totalBets)`. |
| SettleBetBot.ScanFromShape | backend/settleBetBot.ts:34-41 | The loop's trace is ordered: ids never decrease, and the only repeated id is `Read(i)` followed by `Settle(i)`. It is also sequential: it starts with `Read(betId)`, and each call is followed by the settlement of the bet just read or by the read of the next id. |
| SettleBetBot.ScanShape | backend/settleBetBot.ts:34-41 | A whole scan only touches ids in `[0, totalBets)`. Its trace is ordered and sequential from bet 0. Settled ids are strictly increasing, so no id is settled twice in one scan. |
| SettleBetBot.SettleBeforeNextRead | backend/settleBetBot.ts:19-21 | A selected bet whose settlement succeeds, and that is not the last one, is settled exactly once: right after its read, and before the read of the next id. Settlement is awaited before the loop moves on. |
| SettleBetBot.ScanFromCalls | backend/settleBetBot.ts:34-40 | Reads and settlements of the loop from `betId`, stated without the loop. `Read(i)` happens iff `i < totalBets` and every id in `[betId, i)` succeeded. `Settle(i)` additionally needs bet `i` to be selected. |
| SettleBetBot.ReadIff | backend/settleBetBot.ts:28-35 | Bet `i` is read iff the count read succeeded, `i < totalBets`, and no smaller id failed. With `totalBets == 0` nothing is read. |
| SettleBetBot.SettledIff | backend/settleBetBot.ts:37-39 | Bet `i` is settled in a scan iff the scan reached it, its read succeeded, the bet read had `closingTime <= ` the current unix time of that iteration, and it was `isActive`. Both directions are proved. |
| SettleBetBot.NotDueNeverSettled | backend/settleBetBot.ts:37 | A bet observed inactive, or with its closing time still in the future, is not settled by that scan, whatever else holds. |
| SettleBetBot.ScanFromError | backend/settleBetBot.ts:35-39 | The loop ends without error iff every id from `betId` on succeeds. Otherwise it ends with the first failing id `k`. The error's kind says whether the read or the settlement of `k` failed, and that call is the last one in the trace. |
| SettleBetBot.ScanSucceedsIff | backend/settleBetBot.ts:28-41 | A scan ends without error iff the count read succeeded and every bet succeeded. It ends with `CountFailed` iff the count read failed. |
| SettleBetBot.AbortOnFailure | backend/settleBetBot.ts:35-39 | If reading or settling bet `k` fails, `k` is the first failing id. No id greater than `k` is read or settled in that scan. |
| SettleBetBot.AfterSettlement | backend/settleBetBot.ts:19-21 | The assumed effect of the contract's settlement on the bet table: a bet whose settlement was submitted and confirmed keeps its closing time and becomes inactive. A bet whose settlement failed, and every other bet, is unchanged. |
| SettleBetBot.NoResettlement | backend/settleBetBot.ts:37 | Idempotence across scans. Suppose the contract has applied the settlements a scan completed: every settled bet that the later table still holds is as `AfterSettlement` left it. Then no later scan settles any of those bets again. This holds whatever its clock, its count and its failures. It also holds when bets were proposed, or other bets changed, between the two scans, so the later table may be longer. |
| SettleBetBot.FailedSettlementRetried | backend/settleBetBot.ts:35-39 | Re-scan on the next block. Settling bet `k` fails, and the later table still holds bet `k` exactly as the failed scan read it. That is an explicit hypothesis, since a transaction whose confirmation failed may still have been mined. Then a later scan settles `k` again if it reaches `k`, reads it successfully and has a clock that has not gone back. The rest of the later table may grow or change. |
| EventListener.EventName | backend/eventListener.ts:16-22 | Each payload kind gets the name of the event its handler is registered for: BetProposed, BetAccepted or BetSettled. They correspond one to one. The same holds for lines 40/46 and 64/70. |
| EventListener.BuildRecord | backend/eventListener.ts:20-25 | The record's `hash` is the delivered `event.log.hash`. Its `address` is the configured contract address, not the log's address. |
| EventListener.RecordShape | backend/eventListener.ts:22-24 | The record's name is one of the three event names. Its `data` keys are exactly that event's three field names, and `data.betId` is the event's `betId`. |
| EventListener.RecordRoundTrip | backend/eventListener.ts:24 | Reading a record's name and `data` back gives exactly the event payload it was built from. |
| EventListener.RecordDecodesUniquely | backend/eventListener.ts:24 | Any name and `data` that read back as a payload are exactly that payload's name and `data` object. This is the other direction of the round trip. |
| EventListener.BuildRecordInjective | backend/eventListener.ts:20-25 | Two deliveries give the same record iff they carry the same event and the same log hash. The log's own address plays no part. |
| EventListener.TryCreate | backend/eventListener.ts:19-26 | The store's create (unique `hash` assumed) succeeds iff the call does not fail for another reason (`createFails` is false) and the hash is new. It then adds exactly one entry keyed by that hash, and no other entry changes. It fails as a duplicate iff the hash is present. On failure the store is unchanged. |
| EventListener.EventStore.Create | backend/eventListener.ts:19-26 | The in-place create leaves the store and error that `TryCreate` gives, and keeps every record under its own hash. |
| EventListener.Deliver | backend/eventListener.ts:18-35 | One delivery either leaves the store unchanged or adds the built record under a hash that was absent. The stored keys grow by the hash exactly when the create did not fail for another reason. |
| EventListener.OnEvent | backend/eventListener.ts:18-35 | The shared handler body updates the store as `Deliver` says and returns normally, also when the create fails. |
| EventListener.OnBetProposed | backend/eventListener.ts:15-37 | When the hash is new and the create does not fail for another reason, the store gains exactly `{hash, "BetProposed", contractAddress, {betId, proposer, betAmount}}`. Otherwise it is unchanged, and the handler returns normally. |
| EventListener.OnBetAccepted | backend/eventListener.ts:39-61 | The same for `BetAccepted` with `{betId, acceptor, betAmount}`. |
| EventListener.OnBetSettled | backend/eventListener.ts:63-81 | The same for `BetSettled` with `{betId, winner, winnings}`. |
| EventListener.Replay | backend/eventListener.ts:15-81 | Successive deliveries keep every record stored under its own hash and never remove a stored hash. |
| EventListener.ReplayKeepsStored | backend/eventListener.ts:19-26 | A stored record is never replaced by a later delivery. |
| EventListener.ReplayKeys | backend/eventListener.ts:33-35 | After a sequence of deliveries, the stored hashes are the earlier ones plus the hash of every delivery whose create did not fail for another reason. A failure on one delivery does not keep later ones out. |
| EventListener.FirstDeliveryWins | backend/eventListener.ts:19-35 | For a new hash, the stored record is the one built from the first delivery of that hash whose create did not fail for another reason. |
| EventListener.FailedDeliveryIsNoop | backend/eventListener.ts:33-35 | A delivery whose create failed for a reason other than a duplicate has no effect on the outcome: the store after the sequence equals the store without that delivery. |
| EventListener.RedeliveryIgnored | backend/eventListener.ts:19-35 | Delivering the same hash twice leaves exactly one record for it, the first one. |
| EventListener.RedeliveredProposal | backend/eventListener.ts:15-37 | Worked case: BetProposed(7, "0xAA", 100) with log hash "0x123", delivered twice to an empty store, leaves exactly that one record. |
| EventListener.DistinctDeliveriesRecorded | backend/eventListener.ts:15-81 | Deliveries with distinct new hashes, all taken by the store, each leave exactly one record matching `(name, address, data)`. The store grows by their number. |

## Left out

- Provider, contract, wallet and signer construction, and the environment-variable reads (`backend/settleBetBot.ts:8-14`, `backend/eventListener.ts:5-13`). They are configuration and I/O. The configured contract address is a parameter.
- The database client and schema, and the contract's real semantics. These are foreign code. The unique key on `hash` is an assumption built into `TryCreate`. The remote effect of `settleBet` appears only as a `Settle(id)` trace entry, plus the assumed behaviour in `AfterSettlement` for the cross-scan lemma.
- The subscriptions `contract.on` and `provider.on("block")`, and concurrency: overlapping scans from blocks that arrive quickly, and handler callbacks that run at the same time. The model treats one scan or one delivery at a time. Duplicate settlement attempts from overlapping scans are therefore not modelled.
- SettleBetBot.CheckBets: `settleBet`'s two awaits (submitting the transaction and `tx.wait()`) are one abstract step that either completes or fails. Confirmation timing is not modelled.
- SettleBetBot.CheckBets: `Number(totalBets)` is a `nat`. The loss of precision above 2^53 is not modelled.
- SettleBetBot.Chain: `bets[id]` is what the read of bet `id` answers during this scan. Changes that other transactions make to the contract mid-scan are covered only through that answer.
- Each `bets(id)` read happens once per scan. Whether a read of an id at or beyond the contract's real bet count reverts or returns an empty bet depends on that contract, which is not part of this model. The model treats it as a failed read.
- EventListener.BuildRecord: the log's identifier is taken as delivered. Whether the chain client's log object actually populates a `hash` field depends on that library, which is not part of this model.
- Amounts and ids are unbounded `nat`s. The serialisation of big integers into the JSON `data` column is not modelled.
- All `console.log` / `console.error` output, including "No bets to check" and the per-event confirmations, and the top-level startup promise (`backend/eventListener.ts:84-86`).
- There is no retry within a scan and no timeout in the code, so none is modelled. A hung remote call is outside a model in which every call answers. Scanning again on the next block is what `FailedSettlementRetried` states.
