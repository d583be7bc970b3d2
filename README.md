# Arena-Z NFT bulk transfer, modelled in Dafny

The repository has two browser dashboards. They move ERC-721 tokens from the
connected wallet to one recipient.

- `script.js` is the first dashboard. Its `transferNFTs`:
  - trims and parses the recipient and the comma-separated token IDs;
  - probes the contract's `batchTransfer`;
  - when the probe passes and there is more than one ID, sends one
    `batchTransfer` per chunk of five IDs, for the IDs of that chunk that
    the account owns (`batchTransferNFTs`);
  - otherwise checks and sends one `safeTransferFrom` per ID
    (`individualTransfers`).

  Every send carries the fixed gas limit of 50000. The results are totalled
  for display. `updateGasHistory` keeps a record of the last five runs that
  transferred something.
- `public/script.js` is the second dashboard. It adds a selection of loaded
  NFTs (`toggleNFTSelection`, `toggleSelectAll`). Its `transferNFTs`:
  - uses the selection when the token-ID field is empty;
  - refuses the zero address;
  - sorts the IDs into owned and rejected ones with `ownerOf`;
  - for more than one owned ID, tries `safeBatchTransferFrom` and then
    `multicall`, each estimated first and sent with a 30% gas margin;
  - if neither goes through, falls back to one estimated `safeTransferFrom`
    per ID with a 20% margin;
  - shows revert messages as four fixed texts;
  - removes the transferred IDs from the selection.

The model has four modules:

- `Text` (`text.dfy`): the JavaScript string operations the dashboards
  rely on. These are `trim`, `split`, `join`, ASCII `toLowerCase` and
  `includes`, plus the token-ID parser `split(',').map(trim).filter(id => id)`.
- `Chain` (`chain.dfy`): the contract, the result entries and the gas total.
  - The contract is an oracle datatype: its answers are functions of the
    request.
  - Every request a run makes (`ownerOf`, `estimateGas`, `.call()`, `.send()`)
    is recorded in order in a trace, so the order of calls can be stated.
- `Dashboard` (`dashboard.dfy`): `public/script.js`.
  - The class `Dashboard` holds `selectedNFTs` as a duplicate-free sequence,
    which is a JavaScript `Set` in insertion order.
  - Its methods are the toggles and `transferNFTs`, written as loops.
  - Each method is proved against the function `Run` / `Transfer`, whose
    properties are proved as lemmas.
- `Batcher` (`batcher.dfy`): `script.js`.
  - The class `Session` holds `gasHistory`.
  - Its methods are `transferNFTs`, `batchTransferNFTs`,
    `individualTransfers` and `updateGasHistory`.
  - The methods are proved against the function `Run`.

`web3.utils.isAddress` is a parameter. The gas price, the DOM and status
messages are outside the model.

## Model

| member | source | states |
|---|---|---|
| Text.Trim | public/script.js:431-432 | the result is a slice `s[i..j]` of the input with only whitespace before `i` and after `j`, and has no leading or trailing whitespace itself, so exactly the surrounding whitespace is cut; an already trimmed string is returned unchanged |
| Text.TrimFixedPoint | public/script.js:431-432 | trimming leaves a string unchanged exactly when it has no surrounding whitespace |
| Text.ParseTokenIds | public/script.js:449 | every parsed ID is non-empty, trimmed and free of commas |
| Text.Split | public/script.js:449 | `split` always gives at least one piece, and no piece holds the separator |
| Text.SplitAtSeparator | public/script.js:449 | splitting `a + sep + b` gives the pieces of `a` followed by the pieces of `b` |
| Text.SplitWithoutSeparator | public/script.js:449 | text without the separator splits into itself alone |
| Text.TrimNonEmptyAppend | public/script.js:449 | `map(trim).filter(id => id)` over two lists of pieces is the concatenation of the two results |
| Text.ParseSplitsAtComma | public/script.js:449 | the IDs parsed from `a + ',' + b` are the IDs of `a` followed by the IDs of `b` |
| Text.ParseWithoutComma | public/script.js:449 | input without a comma gives its trimmed self as the one ID, or no ID when it is all whitespace |
| Text.JoinSplit | public/script.js:449 | joining the pieces of a split with the same separator gives back the string |
| Text.SplitJoin | public/script.js:436 | splitting a join of comma-free pieces gives back the pieces |
| Text.ParseJoinRoundTrip | public/script.js:436-449 | a list of clean IDs joined with ',' parses back to the same list, so the selection used as input arrives unchanged, in order and with its length |
| Text.ParseIsStable | public/script.js:449 | re-joining and re-parsing parsed IDs gives the same IDs |
| Text.ToLower | public/script.js:462 | lowercasing keeps the length and maps every character to its ASCII lower case |
| Text.Join | public/script.js:436 | `join`: the pieces with the separator between each two |
| Text.Contains | public/script.js:652 | `includes`: the substring occurs from some position on |
| Text.ContainsIff | public/script.js:652 | `includes` holds exactly when the substring occurs at some position |
| Chain.BatchGasLimit | public/script.js:528 | the batch gas limit is the least integer that is at least 1.3 times the estimate |
| Chain.SingleGasLimit | public/script.js:628 | the single-transfer gas limit is the least integer that is at least 1.2 times the estimate |
| Chain.SumGas | public/script.js:710-713 | the sum of `gasUsed \|\| 0` over the results, from the front |
| Chain.TotalGas | public/script.js:710-713 | the loop's total is the sum of `gasUsed \|\| 0` over the results |
| Chain.SumGasAppend | public/script.js:710-713 | the total over concatenated results is the sum of the totals |
| Chain.SumGasWithoutGas | public/script.js:713 | results without a `gasUsed` add nothing to the total |
| Chain.SumGasMessages | script.js:255-261 | Failed and Skipped entries, which carry only a message, add nothing to the total |
| Chain.SentEntriesAre | public/script.js:541-547 | every ID of a batch gets one entry with the batch status, the shared hash and the shared gas figure, in order |
| Chain.MessageEntriesAre | script.js:255-261 | every ID of a failed chunk gets one entry with the status and the error message, in order |
| Chain.OwnerQueriesAre | public/script.js:473-475 | the ownership pass asks `ownerOf` once per ID, in order |
| Chain.OwnerQueriesOnly | public/script.js:473-475 | the ownership pass issues nothing but `ownerOf` queries |
| Chain.SumGasSent | script.js:246-253 | n entries that each carry the gas g add up to n * g |
| Dashboard.NormalizeError | public/script.js:650-662 | a message without "revert" is kept; a message with one becomes "Not approved to transfer this token" if it holds the not-approved reason, else "Recipient cannot receive NFTs" if it holds the non-receiver reason, else "Token ownership changed during transfer" if it holds the not-own reason, else "Transaction reverted by contract" |
| Dashboard.RevertedIsStable | public/script.js:660 | the generic revert text is not rewritten again |
| Dashboard.NormalizeErrorIdempotent | public/script.js:650-662 | normalising a normalised message changes nothing |
| Dashboard.SetAdd | public/script.js:381 | `Set.add` leaves a set holding the element unchanged and otherwise appends the element at the end, so the set stays duplicate-free in insertion order |
| Dashboard.SetDelete | public/script.js:378 | `Set.delete` removes exactly the element, keeps the set duplicate-free, and is a no-op for an absent element |
| Dashboard.DeleteAt | public/script.js:378 | in a duplicate-free selection, deleting a present ID cuts it out of its one position `k`, giving `s[..k] + s[k+1..]` |
| Dashboard.DeleteIsWithout | public/script.js:378 | deleting one ID equals filtering it out front to back, so the order of the others is kept |
| Dashboard.Toggled | public/script.js:374-387 | the selection after a toggle: the ID deleted when present, appended when absent |
| Dashboard.ToggleTwice | public/script.js:374-387 | toggling an ID twice restores the selection's contents, and restores the selection itself, order included, when the ID was absent |
| Dashboard.AddAll | public/script.js:400 | adding every loaded ID gives the union, still duplicate-free |
| Dashboard.AddAllDistinct | public/script.js:399-400 | adding new distinct IDs to a set appends them in order |
| Dashboard.SelectAllToggled | public/script.js:389-407 | the selection after select-all: empty when as many IDs are selected as are loaded, otherwise the loaded IDs added one by one to an empty set |
| Dashboard.SelectAllContents | public/script.js:389-407 | select-all clears a full selection; otherwise the selection becomes exactly the loaded IDs; either way it stays duplicate-free |
| Dashboard.SelectAllTwice | public/script.js:389-407 | pressing select-all twice returns to all or nothing, depending on whether the first press cleared |
| Dashboard.Verdict | public/script.js:473-483 | one ownership check: "Token does not exist" when `ownerOf` throws, "Not owned by you" when the owner differs ignoring case, nothing when the account owns the ID |
| Dashboard.ValidTokenIds | public/script.js:468-484 | the IDs that pass the ownership check, in order |
| Dashboard.InvalidTokens | public/script.js:468-484 | the IDs that fail it, each with its reason, in order |
| Dashboard.ValidTokenIdsAre | public/script.js:473-484 | an ID is valid exactly when it was parsed and `ownerOf` answered the account, ignoring case |
| Dashboard.InvalidTokensAre | public/script.js:473-484 | every rejected ID carries its reason ("Token does not exist" when `ownerOf` throws, "Not owned by you" otherwise), and every parsed ID with a reason is rejected |
| Dashboard.OwnershipSizes | public/script.js:473-484 | every parsed ID lands in exactly one of the two lists |
| Dashboard.OwnershipCounts | public/script.js:473-484 | the valid and rejected IDs together are the parsed IDs as a multiset, duplicates included |
| Dashboard.OwnershipKeepsOrder | public/script.js:473-484 | the ownership pass over a concatenation is the concatenation of the passes |
| Dashboard.SkippedEntriesAre | public/script.js:486-489 | every rejected ID becomes a Skipped entry with its reason, in order |
| Dashboard.EncodedTransfersAre | public/script.js:565-567 | the multicall data is one `safeTransferFrom` encoding per valid ID, in order |
| Dashboard.BatchGasShares | public/script.js:546 | the floored per-ID gas shares add up to at most the transaction's gas and fall short by less than the number of IDs |
| Dashboard.RemoveAll | public/script.js:548 | deleting a list of IDs from the selection leaves exactly the others, duplicate-free |
| Dashboard.RemoveAllIsWithout | public/script.js:541-549 | deleting the IDs one at a time equals one front-to-back filter of the selection, so the remaining IDs keep their order |
| Dashboard.TryBatch | public/script.js:515-557 | one batch mechanism: estimate, then send with the 30% margin; a failing estimate or send yields no receipt |
| Dashboard.TryBatchMechanisms | public/script.js:512-599 | `safeBatchTransferFrom` first, `multicall` only when it failed, each reported with its own status |
| Dashboard.TransferOne | public/script.js:620-669 | one fallback transfer: estimate, send with the 20% margin, Transferred with the receipt or Failed with the normalised message |
| Dashboard.IndividualEntriesShape | public/script.js:619-670 | the fallback gives one entry per valid ID in order, each Transferred or Failed |
| Dashboard.TransferredIdsAre | public/script.js:641-648 | the IDs removed from the selection are exactly those with a Transferred entry |
| Dashboard.TransferredAfterSkips | public/script.js:487-489 | Skipped entries in front of the results do not change which IDs count as transferred |
| Dashboard.TransferOneEstimated | public/script.js:622-639 | a single transfer estimates before it sends, and sends with the 20% margin |
| Dashboard.IndividualCallsEstimated | public/script.js:619-639 | every send of the fallback follows the estimate of the same transaction and carries its margin |
| Dashboard.BatchCallsEstimated | public/script.js:515-581 | both batch mechanisms estimate before they send and send with the 30% margin |
| Dashboard.TokenIdsInput | public/script.js:432-437 | the trimmed token-ID field, or the selection joined with ',' when the field is empty and something is selected |
| Dashboard.InputCheck | public/script.js:439-465 | the first failing input check, in the source's order: missing field, invalid address, no ID, zero address |
| Dashboard.Transfer | public/script.js:458-671 | the report of a run past the input checks: ownership pass, Skipped entries, batch phase and fallback |
| Dashboard.Run | public/script.js:430-688 | the report of a whole run: the input checks, then `Transfer` |
| Dashboard.RunAccepted | public/script.js:430-458 | when every input check passes, the run is the transfer of the parsed IDs to the trimmed recipient |
| Dashboard.RunRejected | public/script.js:439-465 | when a check fails, the run stops at the first failing check, in the source's order, with no request and no result and the selection unchanged |
| Dashboard.EarlyStopIffNothingHappens | public/script.js:439-465 | a run stops at an input check exactly when it makes no request, and exactly when it has no results |
| Dashboard.ZeroRecipientMakesNoCalls | public/script.js:461-465 | the zero address, in any case, never reaches the contract |
| Dashboard.TransferDoesSomething | public/script.js:467-671 | past the input checks, a run with at least one ID always queries the contract and always reports |
| Dashboard.OwnershipPassComesFirst | public/script.js:467-489 | the run starts with one `ownerOf` per ID and its results start with the Skipped entries |
| Dashboard.NoValidTokensEndsWithSkips | public/script.js:491-495 | with no valid ID, the run reports only the Skipped entries, one per ID, after the ownership pass alone |
| Dashboard.IndividualCallsAreSingle | public/script.js:619-639 | the fallback issues only `safeTransferFrom` requests for valid IDs |
| Dashboard.TransferWithoutValidIds | public/script.js:491-495 | the whole report when no ID is valid |
| Dashboard.TransferWithBatch | public/script.js:512-606 | the whole report when a batch mechanism goes through: Skipped entries, one batch entry per valid ID, the probe, and the valid IDs removed from the selection |
| Dashboard.TransferWithoutBatch | public/script.js:601-671 | the whole report when no batch went through: Skipped entries, then the per-ID fallback, with only transferred IDs removed from the selection |
| Dashboard.BatchDoneIs | public/script.js:512-606 | a run ends after a batch only when there was more than one valid ID and a batch mechanism went through |
| Dashboard.SingleIdNeverBatches | public/script.js:512 | with at most one valid ID, no batch request is made |
| Dashboard.MulticallOnlyAfterBatchFails | public/script.js:559-560 | multicall is tried only when `safeBatchTransferFrom` failed |
| Dashboard.BatchCallsAreBatch | public/script.js:515-599 | the batch phase estimates and sends only the batch or multicall transaction |
| Dashboard.BatchDoneSendsNoSingles | public/script.js:604-606 | after a successful batch the run returns without any single transfer |
| Dashboard.BatchSuccessReport | public/script.js:541-549 | after a successful batch, the reported gas is within the number of IDs of the transaction's gas, and exactly the valid IDs left the selection |
| Dashboard.CompletedIs | public/script.js:601-671 | a run that ends normally had valid IDs and no batch went through |
| Dashboard.IndividualReport | public/script.js:619-670 | the results are the Skipped entries plus one entry per valid ID, and the selection loses exactly the transferred IDs |
| Dashboard.FailedBatchesFallBackToIndividual | public/script.js:601-610 | when both batch mechanisms fail, every valid ID is tried on its own |
| Dashboard.TransferSendsAreEstimated | public/script.js:520-639 | every send of a run follows a successful estimate of the same transaction and carries the margin for its kind |
| Dashboard.RunSendsAreEstimated | public/script.js:430-688 | the same for a whole run, input checks included |
| Dashboard.Dashboard.ToggleNFTSelection | public/script.js:374-387 | the selection gains the ID when absent and loses it when present, and stays duplicate-free |
| Dashboard.Dashboard.ToggleSelectAll | public/script.js:389-407 | the selection is cleared when full and otherwise becomes all loaded IDs |
| Dashboard.Dashboard.CheckOwnership | public/script.js:467-484 | the ownership loop computes the valid IDs, the rejections and the `ownerOf` trace |
| Dashboard.Dashboard.RecordBatch | public/script.js:541-549 | a successful batch appends one entry per valid ID with the floored gas share, and deletes them from the selection |
| Dashboard.Dashboard.TransferIndividually | public/script.js:619-670 | the per-ID loop appends the fallback's entries and requests, and deletes exactly the transferred IDs |
| Dashboard.Dashboard.TryBatches | public/script.js:512-599 | the batch phase reports success exactly when a mechanism went through; on failure it leaves results and selection alone |
| Dashboard.Dashboard.TransferTokens | public/script.js:458-671 | the part after the input checks produces the report of `Transfer` and its selection |
| Dashboard.Dashboard.TransferNFTs | public/script.js:430-688 | a whole run produces the report of `Run` and its selection |
| Batcher.Chunks | script.js:214-217 | `batches`: the IDs cut into slices of five from the front |
| Batcher.ChunksFlatten | script.js:214-217 | the chunks, concatenated, are the IDs in order |
| Batcher.ChunksSizes | script.js:214-217 | there are ceil(n/5) chunks, each of 1 to 5 IDs, all but the last of exactly 5 |
| Batcher.MakeBatches | script.js:214-217 | the chunking loop produces those chunks |
| Batcher.FirstError | script.js:222-224 | `Promise.all` rejects exactly when some `ownerOf` rejects, and with the message of one that did |
| Batcher.LookupsSucceed | script.js:222-224 | the lookups of a chunk all answer exactly when every ID's `ownerOf` succeeds; otherwise the chunk fails with the message of one that failed |
| Batcher.OwnedIds | script.js:226-228 | `validBatch`: the chunk's IDs whose owner is the account, in order |
| Batcher.OwnedIdsAre | script.js:226-228 | the valid part of a chunk is exactly its IDs the account owns, ignoring case |
| Batcher.ChunkOutcome | script.js:219-262 | the entries and requests of one chunk |
| Batcher.ChunkEntries | script.js:219-263 | a chunk ends in one of four ways: all Failed with the lookup error, all Skipped, one Batch Transferred entry per owned ID in chunk order with the shared hash and gas, or all Failed with the send error |
| Batcher.ChunkCalls | script.js:222-244 | a chunk first asks `ownerOf` for each ID, then sends at most one `batchTransfer`, of the owned IDs, only when every lookup succeeded |
| Batcher.ChunkGasCountedPerId | script.js:246-253 | the gas of a successful chunk is counted once per transferred ID |
| Batcher.ChunkGasOnSentEntries | script.js:246-261 | in a chunk's entries only Batch Transferred ones carry gas |
| Batcher.ChunksIndependent | script.js:219-263 | the outcome of a list of chunks is the concatenation of the chunk outcomes |
| Batcher.IndividualOutcome | script.js:268-297 | the entry and requests of one ID on the individual path |
| Batcher.IndividualOutcomeShape | script.js:268-297 | one entry per ID: Skipped exactly when the owner differs, Transferred exactly when the send went through, otherwise Failed |
| Batcher.IndividualsShape | script.js:266-299 | the individual path gives one such entry per ID, in order |
| Batcher.Transfers | script.js:174-187 | the report past the input checks: the probe, then the batch or the individual path |
| Batcher.Run | script.js:151-187 | the report of a whole run: the input checks, then `Transfers` |
| Batcher.RunAccepted | script.js:151-187 | when the checks pass, the run is the transfer of the parsed IDs to the trimmed recipient |
| Batcher.RunRejected | script.js:155-169 | when a check fails, the run stops with no request and no result |
| Batcher.TransfersPath | script.js:179-187 | the batch path is taken exactly when the probe passes and there is more than one ID; the probe is the first request |
| Batcher.PathChoice | script.js:151-187 | the same for a whole run: a path runs exactly when the inputs pass, and the batch path exactly when the probe also passes and there is more than one ID |
| Batcher.OneByOneCoversEveryId | script.js:184-187 | on the individual path every parsed ID gets exactly one result, in order |
| Batcher.Successful | script.js:344 | the results whose status includes 'Transferred', in order |
| Batcher.SucceededIff | script.js:344 | the `includes('Transferred')` filter keeps exactly the Transferred, Batch Transferred and Multicall Transferred entries |
| Batcher.SuccessfulGasIsTotal | script.js:344-346 | when only successful entries carry gas, the filtered sum is the whole total |
| Batcher.ChunksGasOnlyOnSuccess | script.js:219-263 | on the batch path only successful entries carry gas |
| Batcher.IndividualsGasOnlyOnSuccess | script.js:266-299 | on the individual path only successful entries carry gas |
| Batcher.RunGasIsSuccessfulGas | script.js:343-346 | the gas recorded in the history equals the total that displayResults shows |
| Batcher.RecordOf | script.js:344-351 | the record a run adds: the gas sum and count of its successful results, or none when nothing succeeded |
| Batcher.LastN | script.js:353-356 | the last n records, or all of them if fewer: the length is the smaller of n and the history's length, and the records are the history's tail |
| Batcher.LastNAppend | script.js:347-356 | pushing a record and dropping the oldest when over the limit keeps the last five of the whole history |
| Batcher.Session.UpdateGasHistory | script.js:343-357 | a record is pushed exactly when some result succeeded; the history stays the last five records and never exceeds five |
| Batcher.Session.TransferChunk | script.js:219-262 | the body of the chunk loop produces that chunk's outcome |
| Batcher.Session.TransferChunks | script.js:219-263 | the chunk loop appends the outcomes of all chunks in order |
| Batcher.Session.BatchTransferNFTs | script.js:213-264 | batchTransferNFTs appends the outcome of chunking the IDs by five |
| Batcher.Session.TransferToken | script.js:268-297 | the body of the per-ID loop produces that ID's outcome |
| Batcher.Session.IndividualTransfers | script.js:266-299 | individualTransfers appends the outcome of every ID in order |
| Batcher.Session.TransferTokens | script.js:174-187 | the probe and the chosen path produce the report of `Transfers` |
| Batcher.Session.TransferNFTs | script.js:151-198 | a whole run produces the report of `Run`, and the history gains that run's record |

## Left out

- Wallet connection, chain switching and `getNativeTokenInfo` talk to
  MetaMask and the network. `accounts[0]` is a constant of each class.
- `getGasPrice` / `getOptimalGasSettings` and the gas price sent with each
  transaction are opaque. Only the gas limits are modelled. Errors thrown
  while fetching the gas price, and the outer `try/catch` that would report
  them, are not modelled.
- The gas margins `Math.ceil(e * 1.3)` and `Math.ceil(e * 1.2)` are computed
  exactly on integers. Floating-point rounding of the product is not modelled.
- `avgGas` is kept as the sum and the count of the successful entries. The
  division and the `new Date()` timestamp of a record are not modelled.
- `loadUserNFTs`, `displayNFTs` and `sortNFTs` are left out.
  - They read the chain and fill the DOM.
  - The class `Dashboard` takes the loaded token IDs as given.
  - The reload after a completed transfer is not modelled.
- DOM updates are left out: status text, buttons, the selected count and
  the tokenIds field. The results table of `displayResults` is kept only as
  the report's entries and their gas total.
- In `public/script.js` a successful batch returns before `displayResults`.
  The model reports the same entries; it does not model what is on screen.
- The contract is a static oracle. `ownerOf`, `estimateGas` and `send` do
  not see transfers that the same run has already made. This matters in both
  dashboards when an ID appears twice. In `public/script.js` a valid ID typed
  twice reaches the per-ID fallback twice (public/script.js:619-648): the real
  chain would fail the second transfer, while the model gives two
  Transferred entries. In `script.js` the second lookup of a repeated ID
  would see the new owner.
- Batcher.FirstError: when several `ownerOf` lookups of a chunk reject,
  `Promise.all` rejects with whichever settles first, which depends on
  timing. The model takes the first rejection in chunk order.
- `web3.utils.isAddress` is a parameter, not modelled.
- `toLowerCase` is modelled for ASCII letters only, which is all a
  hexadecimal address holds.
- The `safeBatchTransferFrom(..., []).estimateGas` probe of
  `public/script.js` is recorded in the trace but decides nothing, as in the
  code.
- `checkBatchTransferSupport` in `script.js` assumes that `batchTransfer` is
  listed in the ABI, which it is. `contract.methods.multicall` is assumed to
  be present, because the contract object is built from that ABI.
- `scripts/deploy.js`, `scripts/deploySimpleBatch.js`, `server.js` and
  `hardhat.config.js` (deployment and static file serving) are not part of
  this model.
- Duplicate token IDs are kept: `Dashboard.OwnershipCounts` counts them in
  a multiset.
