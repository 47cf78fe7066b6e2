# likecoin-prayer payout worker, modelled in Dafny

The worker pays out pending LikeCoin payouts. `handleQuery` takes a batch of
pending payout records and groups them by recipient wallet. For each wallet in
turn, it claims the records in one all-or-nothing store transaction, stamping
them `txHash: 'pending'`. It then sends one token transfer on the EVM ledger.

Both ledger back ends take their sequence number (nonce) from a persisted
counter document, `!counter_<address>`, in the transaction-log collection:

- `util/web3.js` for the EVM ledger;
- `util/cosmos.js` for the Cosmos ledger.

Each back end allocates a number from the counter, signs and sends, retries
according to how the node answered, and finally raises the counter to the
sequence that went through. `util/logger.js` writes one audit record per
transaction hash into the same collection.

The model is split into these files:

| file | module | models |
|---|---|---|
| `js.dfy` | `Js` | JavaScript values and truthiness, object-key coercion, `Error.prototype.toString`, decimal `toString` and `parseInt`, `startsWith` / `includes` |
| `store.dfy` | `Store` | documents as maps of fields; a `Collection` class whose `docs` map the transactions update in place |
| `counter.dfy` | `SequenceCounter` | the counter document: allocation (`Allocate`) and upward-only reconciliation (`Reconcile`, `Reconciled`) |
| `evm.dfy` | `EvmDispatch` | `util/web3.js`: send classification, gas-price clamp, the fast-path retry loop, the unbounded fallback loop, `sendTransactionWithLoop` |
| `cosmos.dfy` | `CosmosDispatch` | `util/cosmos.js`: address routing, `sendTransaction`, `resendTransaction`, the shape of the signed `StdTx`, the bounded retry loop, `sendTransactionWithLoop` |
| `payout.dfy` | `Payout` | `index.js`: `makeNewRecevier`, the grouping `forEach`, the claim transaction, the receiver loop of `handleQuery` |
| `audit_log.dfy` | `AuditLog` | `util/logger.js`: record construction and the create-only insert with its error swallowed |

Each loop of the source is a Dafny method with a `while` or `for` loop. Each
method is proved equal to a recursive specification function, for example
`RunFallback` against `Fallback` and `HandleQuery` against `ProcessAll` over
`Grouping`. The source's promises are then proved as lemmas about those
functions.

The node and the store are modelled as follows:

- The node is a script of replies consumed in order. A call made after its script is used up fails with `ETIMEDOUT`.
- An EVM signing asks the node for the chain id first, so each signing is a scripted reply that can reject.
- Sleeps do nothing.
- A store transaction is one atomic method on a `Collection`.

The model keeps these behaviours of the code as written:

- A receiver's amount stays 0, because the result of `amount.plus(d.amount)` is dropped.
- A record without a `to` is filed under the key `"undefined"`.
- The EVM fallback loop has no retry bound. `FallbackHasNoRetryBound` proves it.
- A missing counter document makes the allocation throw a `TypeError`; it is never created lazily.
- When the first Cosmos broadcast is accepted, the reported `pendingCount` is NaN. The counter keeps its allocated value.
- The EVM fee hint, which the source reads through a `getGasPrice` that `util/poller.js` does not export, is a parameter.

## Model

| member | source | states |
|---|---|---|
| Payout.GroupByWallet | index.js:28-39 | the `forEach` builds exactly the map and key order of `Grouping(docs)` |
| Payout.AddRecordFiles | index.js:30-38 | one step files a kept record's id under its wallet key only, creating the entry and appending the key when new; a skipped record changes nothing |
| Payout.Grouping | index.js:29-40 | every key in the key order has an entry, and every entry's key is in the order |
| Payout.IdsFor | index.js:34-37 | an id is listed under `k` iff some kept record filed under `k` carries it |
| Payout.GroupingKeys | index.js:30-36 | an entry exists for `k` iff some kept record is filed under `k` |
| Payout.GroupingEntries | index.js:18-37 | each entry holds the wallet and user of its first record, all ids filed under it in input order, and amount 0 (`plus` is discarded) |
| Payout.GroupingOrder | index.js:34-40 | `Object.keys(senderMap)` lists the wallets in order of their first record |
| Payout.GroupingCharacterised | index.js:18-40 | the grouping is the one described by `GroupedBy`: entries, ids, zero amounts and key order |
| Payout.RecordFiledOnce | index.js:30-37 | with distinct ids, a kept record's id is under its own wallet key and under no other; a record with a falsy amount is under none |
| Payout.RecordWithoutRecipientKept | index.js:34-37 | a kept record with no `to` is not skipped: it is filed under the key "undefined" |
| Payout.IdsForDistinct | index.js:37 | with distinct record ids, no entry lists an id twice |
| Payout.ClaimCheck | index.js:51-54 | the read phase succeeds iff every id names an existing document with a falsy `txHash`; otherwise it fails with the missing-document TypeError or 'set claim fail' |
| Payout.Stamp | index.js:56-59 | one update sets `txHash` to 'pending' on that document, keeping its other fields and every other document |
| Payout.Stamped | index.js:55-60 | the write phase sets `txHash: 'pending'` on exactly the listed documents, keeping their other fields and every other document |
| Payout.CheckClaims | index.js:51-54 | the read loop returns the error of `ClaimCheck` |
| Payout.StampAll | index.js:55-60 | the write loop leaves the collection as `Stamped` describes |
| Payout.ClaimPayouts | index.js:51-60 | the claim is all-or-nothing: on error nothing changes, otherwise every listed document is stamped |
| Payout.ClaimIsExclusive | index.js:51-60 | once a claim went through, any later claim that includes one of its ids fails |
| Payout.ProcessReceiver | index.js:42-75 | one outcome is appended; a failed claim changes nothing; a successful claim stamps the ids; only a dispatch touches the transaction log or the node, and it lowers no counter |
| Payout.ProcessAll | index.js:41-76 | every receiver yields exactly one outcome, in order; no document appears or disappears, and no counter goes down |
| Payout.HandleQuery | index.js:27-77 | `handleQuery` leaves the collections, outcomes and node replies of `ProcessAll` over `Grouping(docs)` |
| Payout.StampedWhenDisjoint | index.js:41-60 | with disjoint, initially claimable id lists, exactly the listed documents end up 'pending' |
| Payout.LastClaimSucceeds | index.js:51-54 | under the same conditions, earlier receivers never make a later claim fail |
| Payout.ClaimsSucceedWhenDisjoint | index.js:41-75 | under the same conditions, no claim of the loop fails |
| Payout.GroupingDisjoint | index.js:29-39 | with distinct record ids, the entries of the grouping list disjoint ids |
| Payout.GroupingListsKeptIds | index.js:29-39 | the grouping lists exactly the ids of the records with a truthy amount |
| Payout.EveryKeptRecordClaimed | index.js:27-77 | over distinct, claimable records, every claim succeeds; exactly the kept records end up 'pending' whatever the transfers do |
| SequenceCounter.SetCounter | util/web3.js:71 | the update sets the counter's value and changes no other document |
| SequenceCounter.SetCounterTwice | util/web3.js:101-105 | store helper behind these lines (no behaviour of them on its own): two updates of the counter document in a row leave only the second value |
| SequenceCounter.Allocate | util/web3.js:67-73 | returns the stored value `v` and stores `v + 1`; a missing counter fails and changes nothing |
| SequenceCounter.Reconciled | util/web3.js:101-108 | the reconciled value is at least the stored one and at least `pendingCount + 1`, and is one of the two |
| SequenceCounter.ReconcileIdempotent | util/web3.js:101-108 | reconciling twice with the same `pendingCount` equals reconciling once |
| SequenceCounter.ReconcileBelowIsNoOp | util/web3.js:102-107 | a `pendingCount + 1` at or below the stored value writes nothing new |
| SequenceCounter.Reconcile | util/web3.js:101-108 | the transaction stores `Reconciled(stored, pendingCount)`; it fails iff the counter document is missing |
| EvmDispatch.GasPrice | util/web3.js:64-66 | the gas price is at most the fee hint and at most max(network price, 1.5 gwei); it equals one of the hint, the network price and 1.5 gwei |
| EvmDispatch.ClassifySend | util/web3.js:32-46 | a hash event yields the hash; the exact underpriced message yields `false`; a known-transaction message yields the sha3 of the raw transaction; anything else rejects with its message |
| EvmDispatch.NextFastStep | util/web3.js:79-88 | a send leads to a retry iff its failure is counted; otherwise the loop ends holding the resolved value, or no hash after a stale-nonce rejection |
| EvmDispatch.FastPath | util/web3.js:75-90 | the fast path makes at most 10 attempts, at least one unless a signing rejected, all with the same transaction signed with the allocated nonce; a signing rejection leaves no hash |
| EvmDispatch.StaleNonce | util/web3.js:82-83 | the rejections that make the fast path give up its nonce without counting a retry |
| EvmDispatch.CountedFailure | util/web3.js:80-88 | a send error that is not underpriced, not a known transaction and not stale is counted and retried |
| EvmDispatch.FastPathStaleNonceEnds | util/web3.js:82-84 | a stale-nonce rejection ends the fast path after that one attempt, with no hash and no retry counted |
| EvmDispatch.FastPathResolvedEnds | util/web3.js:78-90 | a send that resolves ends the fast path at once with its value, `false` included |
| EvmDispatch.FastPathSigningRejected | util/web3.js:75-77 | when a signing rejects, it is the signing right after the attempts made, and fewer than 10 attempts were made |
| EvmDispatch.FastPathRetriedCounted | util/web3.js:80-90 | every attempt before the last one got a counted failure, and every attempt did when a signing rejected |
| EvmDispatch.FastPathAttemptsSigned | util/web3.js:76-79 | every attempt the fast path sent was signed first |
| EvmDispatch.FastPathLastStep | util/web3.js:75-90 | without a signing rejection, the last send either ended the loop with the hash held, or was a counted failure that used up the tenth retry |
| EvmDispatch.FastPathLastReply | util/web3.js:78-90 | the same in terms of the reply: it resolved with the hash held, or it was a rejection that is stale or used up the last retry |
| EvmDispatch.FastPathExhaustsRetries | util/web3.js:82-90 | when every send fails with a counted error, the fast path makes exactly 10 attempts and ends without a hash |
| EvmDispatch.RunFastPath | util/web3.js:75-90 | the do-while loop ends as `FastPath` describes |
| EvmDispatch.Fallback | util/web3.js:92-100 | the fallback ends without error iff it holds a truthy hash; the transaction it holds is its last attempt's; on success the nonce is that transaction's too, and after a signing rejection it is the count just read |
| EvmDispatch.FallbackSignsWithPendingCount | util/web3.js:94-96 | the j-th fallback attempt is signed with the j-th pending count the node reported, and with the clamped gas price |
| EvmDispatch.FallbackNonceRead | util/web3.js:92-96 | the nonce the fallback ends with is the allocated one or a pending count the node reported |
| EvmDispatch.FallbackHasNoRetryBound | util/web3.js:92-100 | for every n, n underpriced replies and then a hash make the fallback send n + 1 times and succeed |
| EvmDispatch.RunFallback | util/web3.js:92-100 | the `while (!txHash)` loop ends as `Fallback` describes |
| EvmDispatch.SendWithLoop | util/web3.js:58-127 | a dispatch leaves every document other than the sender's counter unchanged |
| EvmDispatch.SendWithNonce | util/web3.js:74-126 | after allocation, only the sender's counter can change |
| EvmDispatch.SendWithLoopRaisesCounter | util/web3.js:64-108 | no counter goes down; a failed gas query or a missing counter sends and writes nothing; otherwise the counter ends above the allocated nonce |
| EvmDispatch.SendWithLoopPublishes | util/web3.js:64-118 | failures of the gas query or the allocation are not published; once the gas price is known and the counter exists, a failure goes unpublished exactly when a signing on the fast path rejected, and then it is that signing's error; every other failure publishes an `eventInfuraError` naming the sender, a falsy hash, the last transaction sent, the nonce last held (the allocated one or a reported pending count) and the error text |
| EvmDispatch.SendWithNoncePublishes | util/web3.js:75-118 | the same, after the allocation of the nonce: unpublished iff the fast path's signing rejected |
| EvmDispatch.FastSigningRejected | util/web3.js:74-77 | a first signing that rejects escapes unpublished, with nothing sent and the counter already at `v + 1` |
| EvmDispatch.FallbackSigningRejected | util/web3.js:91-118 | a fallback signing that rejects publishes the pending count just read beside the transaction sent before it |
| EvmDispatch.SentLeavesCounterAboveNonce | util/web3.js:101-126 | a success reports the last transaction, its nonce, a truthy hash and a gas price within the fee hint; the counter ends exactly at `Reconciled(v + 1, pendingCount)`, the larger of the allocated nonce plus one and the reported nonce plus one, so above that nonce |
| EvmDispatch.FirstSendAccepted | util/web3.js:68-126 | when the first send yields a hash, the one transaction signed with the allocated nonce is reported and the counter keeps `v + 1` |
| EvmDispatch.SendTransactionWithLoop | util/web3.js:58-127 | the dispatch leaves the outcome, attempts, replies and documents of `SendWithLoop` |
| CosmosDispatch.IsCosmosWallet | util/cosmos.js:89-91 | a wallet belongs to the Cosmos ledger iff it starts with "cosmos" |
| CosmosDispatch.RoutingIsDisjoint | util/cosmos.js:89-91 | an address starting with "0x" is never a Cosmos wallet; every "cosmos1…" address is |
| CosmosDispatch.SendTransaction | util/cosmos.js:105-114 | a transport failure or a truthy `code` rejects, the latter with `raw_log`; otherwise the result is `txhash` |
| CosmosDispatch.ResendTransaction | util/cosmos.js:69-73 | the result is true iff the node answers with the expected hash; a transport failure rejects |
| CosmosDispatch.SignTransaction | util/cosmos.js:116-156 | signing fails iff the account query fails; the transaction has one MsgSend of `value` nanolike from the signer, a null fee amount, an empty memo, and one signature over the sign document with its account number and sequence |
| CosmosDispatch.Resend | util/cosmos.js:181-189 | one pass consumes at most one broadcast reply |
| CosmosDispatch.ResendReadsSequence | util/cosmos.js:181-189 | a failed account query consumes only its reply; otherwise `sequence` becomes the reported sequence even when the signing then fails, and a new transaction carries that sequence in its one signature |
| CosmosDispatch.ResendSigned | util/cosmos.js:183-185 | a pass yields a hash only from an accepted broadcast; the transaction it holds is then signed with the sequence it read |
| CosmosDispatch.ResendNotAccepted | util/cosmos.js:181-189 | a pass over broadcast replies none of which is accepted yields no hash |
| CosmosDispatch.RetryLoop | util/cosmos.js:177-197 | the loop ends without error iff it holds a truthy hash; its only error is 'Retry limit exceeds'; it makes at most 11 passes, and none when the first broadcast gave a hash |
| CosmosDispatch.RetryLoopSigned | util/cosmos.js:180-197 | after at least one pass, a successful loop holds a transaction signed with the sequence it holds |
| CosmosDispatch.RetryLoopGivesUp | util/cosmos.js:190-194 | when no broadcast is accepted, the loop makes exactly 11 passes and throws 'Retry limit exceeds' |
| CosmosDispatch.ParseSequence | util/cosmos.js:199 | `parseInt(sequence, 10)` is NaN iff the sequence is undefined or does not start with a digit, and is otherwise the parsed number |
| CosmosDispatch.RetryIteration | util/cosmos.js:181-196 | one iteration counts a failure unless it got a hash, gives up past the limit, and keeps the loop on course to the end `RetryLoop` describes |
| CosmosDispatch.RunRetryLoop | util/cosmos.js:177-197 | the `while (!txHash)` loop ends as `RetryLoop` describes |
| CosmosDispatch.SendWithLoop | util/cosmos.js:158-224 | a dispatch leaves every document other than the sender's counter unchanged |
| CosmosDispatch.BroadcastWithLoop | util/cosmos.js:171-223 | after the first signing, only the sender's counter can change |
| CosmosDispatch.SendWithLoopRaisesCounter | util/cosmos.js:163-206 | no counter goes down; a missing counter rejects with the TypeError, unpublished, iff it is missing; otherwise the counter ends above the allocated sequence |
| CosmosDispatch.SentReconcilesCounter | util/cosmos.js:198-206 | a success leaves the counter at `Reconciled(v + 1, pendingCount)`, so strictly above the reported sequence whenever that is a number |
| CosmosDispatch.FirstBroadcastAccepted | util/cosmos.js:170-223 | when the first broadcast is accepted, the first transaction is reported with a NaN `pendingCount`, and the counter keeps `v + 1` |
| CosmosDispatch.BroadcastGivesUp | util/cosmos.js:177-216 | with no accepted broadcast, the rest of the dispatch throws 'Retry limit exceeds', publishes the allocated sequence and writes nothing |
| CosmosDispatch.NoBroadcastAcceptedGivesUp | util/cosmos.js:158-216 | with no accepted broadcast, the dispatch throws 'Retry limit exceeds' and publishes the allocated sequence with the error text; the counter keeps `v + 1` |
| CosmosDispatch.FirstSigningRejected | util/cosmos.js:163-170 | a failed first signing rejects unpublished, with the counter already at `v + 1` |
| CosmosDispatch.BroadcastPublishes | util/cosmos.js:170-216 | after the first signing, every failure is 'Retry limit exceeds', published with the sender, a falsy hash, the allocated sequence and the error text, and the store is left as it was |
| CosmosDispatch.SendWithLoopPublishes | util/cosmos.js:158-216 | a failure is published iff it comes after the first signing; it is then 'Retry limit exceeds', published with the sender, a falsy hash, the allocated sequence and the error text, and the counter keeps `v + 1` |
| CosmosDispatch.ReportedSequenceIsSigned | util/cosmos.js:183-222 | a numeric reported `pendingCount` is the parsed sequence the reported transaction was signed with |
| CosmosDispatch.SendTransactionWithLoop | util/cosmos.js:158-224 | the dispatch leaves the outcome and documents of `SendWithLoop` |
| Js.PropertyKey | index.js:34-37 | the key `senderMap[d.to]` uses: a string is its own key, `undefined` is "undefined", and a non-negative number is its decimal digits, which parse back |
| Js.NatToDecimal | util/cosmos.js:122 | `value.toString()` is a non-empty string of digits with no leading zero |
| Js.ParseInt | util/cosmos.js:199 | `parseInt(s, 10)` is NaN iff `s` does not start with a digit |
| Js.ParseIntOfDecimal | util/cosmos.js:199 | parsing a decimal `toString` gives the number back |
| AuditLog.RecordKey | util/logger.js:4-6 | the document id is the payload's `txHash` when it is a valid id |
| AuditLog.Overlay | util/logger.js:6-11 | `{ ...defaults, ...payload }`: the payload's fields win, and the defaults fill in the rest |
| AuditLog.CreateRecord | util/logger.js:5-14 | the create never overwrites and adds at most the hash's document; it writes iff the id is valid and free and the record is storable |
| AuditLog.EthRecord | util/logger.js:6-11 | the eth record has the payload's fields, and `type` 'payout', `status` 'pending' and `ts` wherever the payload lacks them |
| AuditLog.CosmosRecord | util/logger.js:20-26 | the cosmos record likewise has `type` 'cosmosPayout', `status` 'pending' and `ts`, and `remarks` defaults to the memo |
| AuditLog.LogEthPayoutTx | util/logger.js:3-15 | the eth log call leaves the collection as `CreateRecord` describes |
| AuditLog.LogCosmosPayoutTx | util/logger.js:17-30 | the cosmos log call leaves the collection as `CreateRecord` describes |
| AuditLog.RecordNeverOverwritten | util/logger.js:6 | once a record is written under a hash, no later write replaces it |
| AuditLog.EthRecordStorable | util/logger.js:6-11 | the eth record is storable iff the payload is |
| AuditLog.EthLoggingIdempotent | util/logger.js:3-15 | logging the same eth payload twice, at any two times, leaves what the first call left |
| AuditLog.EthPayloadRecorded | util/logger.js:3-11 | a payload with a new, valid hash and only defined fields is always recorded under that hash |
| AuditLog.CosmosWithoutMemoNotLogged | util/logger.js:20-29 | a cosmos payload without memo or remarks has an undefined `remarks`; the create fails, the failure is swallowed, and nothing is logged |

`makeNewRecevier` (index.js:18-25) is the function `Payout.MakeNewReceiver`.
It has no contract of its own. `Payout.GroupingEntries` states what it
contributes: the first record's wallet and user, the ids, and amount 0.

## Left out

- `index.js` `loop()` (index.js:79-92) is not modelled. It is the infinite polling loop over a Firestore query, including its stray backtick field name, its `>` comparison and its un-awaited `query.get()`. `HandleQuery` takes the records as plain values.
- `util/poller.js` is not part of this model. The EVM fee hint is the parameter `feeHint`.
- `util/gcloudPub.js` is not part of this model. A publish is the `published` field of the thrown outcome. When publishing is enabled, `publish` reads `req.headers` on the `null` the callers pass, which would throw a TypeError in place of the original error. The model records the event as intended.
- `util/firebase.js` is not part of this model. A collection is a map of documents, and a transaction is one atomic method. Firestore's conflict retries and concurrent writers are not modelled.
- `amountToLIKE` (util/cosmos.js:81-87) is floating-point division and is not modelled.
- `getCurrentHeight` and `getBlockTime` (util/cosmos.js:36-40, 75-79) are HTTP queries that no core path calls, and are not modelled.
- Key derivation, hashing and signing are abstract function parameters: secp256k1, SHA-256, RIPEMD-160, bech32, `web3.utils.sha3`, and the canonical JSON serialiser. A signed EVM transaction is the record of the fields handed to the signer.
- The ABI encoding of `transfer(wallet, amount)` is the function parameter `encodeTransfer`, and it may fail.
- Sleeps (`timeout`) and console logging have no effect in the model.
- A node reply script is finite. A call after the script is used up fails with `ETIMEDOUT`, which is what makes the EVM fallback loop end in the model. `FallbackHasNoRetryBound` shows that no bound exists otherwise.
- EvmDispatch.SendWithLoopPublishes: does not promise that the published `txNonce` is the nonce of `rawSignedTx`. After a fallback signing rejects, the two differ, as `FallbackSigningRejected` shows.
- Payout.ClaimCheck: reports the error of the first failing id in list order. The source reads all ids concurrently under `Promise.all` and rejects with whichever read fails first; either error is only logged.
- `Object.keys` ordering of integer-like keys is not modelled. Neither are keys that collide with `Object.prototype` members, such as a `to` of "constructor". The model lists keys in insertion order.
- SequenceCounter.CounterValue: a counter document whose `value` is not a number is treated as missing. The source would instead compute with a string or NaN.
- A counter document deleted between allocation and reconciliation is not modelled, so reconciliation always finds its document.
- `JsValue` has no objects or arrays, and numbers are integers. Payout records carry only `id`, `to`, `toId` and `amount`.
- The audit log treats a `txHash` that is missing, not a string, empty, or contains '/' as an invalid document id. Firestore's other id restrictions are not modelled.
- The audit log's `Date.now()` is the parameter `ts`.
- Js.ParseInt: leading blanks and a sign are not modelled. The strings it reads are sequence numbers the model produces with `Js.NatToDecimal`, or that the node returns.
