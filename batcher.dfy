/** The first dashboard, script.js: `transferNFTs` probes the contract's
    `batchTransfer`; when the probe passes and there is more than one ID it
    cuts the IDs into chunks of five and sends one `batchTransfer` per chunk
    for the IDs of that chunk the account owns, and otherwise it checks and
    sends one `safeTransferFrom` per ID.  Every send carries the fixed gas
    limit of getOptimalGasSettings.  Afterwards `updateGasHistory` keeps the
    last five runs that transferred something. */
module Batcher {
  import opened Text
  import opened Chain

  /** `BATCH_SIZE`. */
  const BATCH_SIZE: nat := 5
  /** The `gasLimit` of getOptimalGasSettings. */
  const GAS_LIMIT: nat := 50000
  /** How many runs `gasHistory` keeps. */
  const HISTORY_LENGTH: nat := 5

  const NOT_OWNED: string := "Not owned by you"

  // -----------------------------------------------------------------------
  // Chunking

  /** `tokenIds.slice(start, end)` for `0 <= start <= end`: the end is
      clamped to the length. */
  function Slice(ids: seq<TokenId>, start: nat, end: nat): (r: seq<TokenId>)
    requires start <= |ids| && start <= end
    ensures r == ids[start..if end <= |ids| then end else |ids|]
  {
    if end <= |ids| then ids[start..end] else ids[start..]
  }

  /** The chunks from position `i` on. */
  function ChunksFrom(ids: seq<TokenId>, i: nat): seq<seq<TokenId>>
    decreases |ids| - i
  {
    if i >= |ids| then [] else [Slice(ids, i, i + BATCH_SIZE)] + ChunksFrom(ids, i + BATCH_SIZE)
  }

  /** `batches`. */
  function Chunks(ids: seq<TokenId>): seq<seq<TokenId>> {
    ChunksFrom(ids, 0)
  }

  function Flatten(batches: seq<seq<TokenId>>): seq<TokenId> {
    if batches == [] then [] else batches[0] + Flatten(batches[1..])
  }

  /** The chunks put back together give the IDs from `i` on. */
  lemma {:induction false} ChunksFromFlatten(ids: seq<TokenId>, i: nat)
    requires i <= |ids|
    ensures Flatten(ChunksFrom(ids, i)) == ids[i..]
    decreases |ids| - i
  {
    if i < |ids| {
      var chunk, rest := Slice(ids, i, i + BATCH_SIZE), ChunksFrom(ids, i + BATCH_SIZE);
      var cs := ChunksFrom(ids, i);
      assert cs[0] == chunk && cs[1..] == rest;
      assert Flatten(cs) == chunk + Flatten(rest);
      if i + BATCH_SIZE <= |ids| {
        ChunksFromFlatten(ids, i + BATCH_SIZE);
        SliceConcat(ids, i, i + BATCH_SIZE);
      } else {
        assert rest == [];
        assert chunk + [] == chunk;
      }
    }
  }

  /** Chunking loses, adds and reorders nothing. */
  lemma ChunksFlatten(ids: seq<TokenId>)
    ensures Flatten(Chunks(ids)) == ids
  {
    ChunksFromFlatten(ids, 0);
  }

  /** Every chunk holds one to five IDs, all but the last exactly five, and
      there are ceil((|ids| - i) / 5) of them. */
  lemma {:induction false} ChunksFromSizes(ids: seq<TokenId>, i: nat)
    requires i <= |ids|
    ensures var cs := ChunksFrom(ids, i);
      |cs| == (|ids| - i + BATCH_SIZE - 1) / BATCH_SIZE
      && (forall k :: 0 <= k < |cs| ==> 1 <= |cs[k]| <= BATCH_SIZE)
      && (forall k :: 0 <= k < |cs| - 1 ==> |cs[k]| == BATCH_SIZE)
    decreases |ids| - i
  {
    var cs := ChunksFrom(ids, i);
    if i < |ids| {
      if i + BATCH_SIZE <= |ids| {
        ChunksFromSizes(ids, i + BATCH_SIZE);
        assert forall k :: 1 <= k < |cs| ==> cs[k] == ChunksFrom(ids, i + BATCH_SIZE)[k - 1];
      } else {
        assert |cs| == 1;
      }
    }
  }

  lemma ChunksSizes(ids: seq<TokenId>)
    ensures var cs := Chunks(ids);
      |cs| == (|ids| + BATCH_SIZE - 1) / BATCH_SIZE
      && (forall k :: 0 <= k < |cs| ==> 1 <= |cs[k]| <= BATCH_SIZE)
      && (forall k :: 0 <= k < |cs| - 1 ==> |cs[k]| == BATCH_SIZE)
  {
    ChunksFromSizes(ids, 0);
  }

  /** The stepping loop that builds `batches`. */
  method MakeBatches(tokenIds: seq<TokenId>) returns (batches: seq<seq<TokenId>>)
    ensures batches == Chunks(tokenIds)
  {
    batches := [];
    var i := 0;
    while i < |tokenIds|
      invariant batches + ChunksFrom(tokenIds, i) == Chunks(tokenIds)
      decreases |tokenIds| - i
    {
      batches := batches + [Slice(tokenIds, i, i + BATCH_SIZE)];
      i := i + BATCH_SIZE;
    }
  }

  // -----------------------------------------------------------------------
  // One chunk

  /** What `Promise.all` of the ownerOf calls rejects with: the first failing
      lookup in chunk order, or None when all of them answered. */
  function FirstError(answers: seq<Result<Address>>): (r: Option<string>)
    ensures r == None <==> forall k :: 0 <= k < |answers| ==> answers[k].Ok?
    ensures r != None ==> exists k :: 0 <= k < |answers| && answers[k] == Err(r.value)
  {
    if answers == [] then None
    else match answers[0]
      case Err(m) => Some(m)
      case Ok(_) =>
        var r := FirstError(answers[1..]);
        assert forall k :: 1 <= k < |answers| ==> answers[1..][k - 1] == answers[k];
        r
  }

  /** The answers of the ownerOf calls of a chunk. */
  function OwnerAnswers(chain: Contract, ids: seq<TokenId>): (r: seq<Result<Address>>)
    ensures |r| == |ids| && forall k :: 0 <= k < |ids| ==> r[k] == chain.ownerOf(ids[k])
  {
    seq(|ids|, k requires 0 <= k < |ids| => chain.ownerOf(ids[k]))
  }

  /** The lookups of a chunk reject exactly when some ID's ownerOf call
      fails, and then with the message of one of those calls. */
  lemma LookupsSucceed(chain: Contract, ids: seq<TokenId>)
    ensures FirstError(OwnerAnswers(chain, ids)) == None <==> forall k :: 0 <= k < |ids| ==> chain.ownerOf(ids[k]).Ok?
    ensures FirstError(OwnerAnswers(chain, ids)) != None ==>
      exists k :: 0 <= k < |ids| && chain.ownerOf(ids[k]) == Err(FirstError(OwnerAnswers(chain, ids)).value)
  {
  }

  /** Whether the account owns `id`, owner compared ignoring case. */
  predicate Owns(chain: Contract, account: Address, id: TokenId) {
    chain.ownerOf(id).Ok? && SameAddress(chain.ownerOf(id).value, account)
  }

  /** `validBatch`: the IDs of the chunk the account owns, in order. */
  function OwnedIds(chain: Contract, account: Address, ids: seq<TokenId>): seq<TokenId>
    decreases |ids|
  {
    if ids == [] then []
    else
      var id := ids[|ids| - 1];
      OwnedIds(chain, account, ids[..|ids| - 1]) + (if Owns(chain, account, id) then [id] else [])
  }

  lemma {:induction false} OwnedIdsAre(chain: Contract, account: Address, ids: seq<TokenId>)
    ensures forall id :: id in OwnedIds(chain, account, ids) <==> id in ids && Owns(chain, account, id)
    ensures |OwnedIds(chain, account, ids)| <= |ids|
    decreases |ids|
  {
    if ids != [] {
      var init, id := ids[..|ids| - 1], ids[|ids| - 1];
      OwnedIdsAre(chain, account, init);
      assert forall y :: y in ids <==> y in init || y == id by {
        assert ids == init + [id];
      }
    }
  }

  datatype Outcome = Outcome(entries: seq<Entry>, calls: seq<Request>)

  /** One turn of the loop over `batches`. */
  function ChunkOutcome(chain: Contract, account: Address, recipient: Address, chunk: seq<TokenId>): Outcome {
    var checks := OwnerQueries(chunk);
    match FirstError(OwnerAnswers(chain, chunk))
    case Some(m) => Outcome(MessageEntries(chunk, Failed, m), checks)
    case None =>
      var owned := OwnedIds(chain, account, chunk);
      if owned == [] then Outcome(MessageEntries(chunk, Skipped, NOT_OWNED), checks)
      else
        var tx := BatchTransfer(recipient, owned);
        match chain.send(tx, GAS_LIMIT)
        case Ok(receipt) =>
          Outcome(SentEntries(owned, BatchTransferred, receipt.txHash, receipt.gasUsed), checks + [Send(tx, GAS_LIMIT)])
        case Err(m) => Outcome(MessageEntries(chunk, Failed, m), checks + [Send(tx, GAS_LIMIT)])
  }

  /** Only the entries of a chunk that went through carry gas. */
  lemma ChunkGasOnSentEntries(chain: Contract, account: Address, recipient: Address, chunk: seq<TokenId>)
    ensures var entries := ChunkOutcome(chain, account, recipient, chunk).entries;
      forall k :: 0 <= k < |entries| ==> entries[k].gasUsed == None || entries[k].status == BatchTransferred
  {
    var owned := OwnedIds(chain, account, chunk);
    var tx := BatchTransfer(recipient, owned);
    match FirstError(OwnerAnswers(chain, chunk))
    case Some(m) => MessageEntriesAre(chunk, Failed, m);
    case None =>
      if owned == [] {
        MessageEntriesAre(chunk, Skipped, NOT_OWNED);
      } else {
        match chain.send(tx, GAS_LIMIT)
        case Ok(receipt) => SentEntriesAre(owned, BatchTransferred, receipt.txHash, receipt.gasUsed);
        case Err(m) => MessageEntriesAre(chunk, Failed, m);
      }
  }

  /** Status of each entry a chunk gives: a failing lookup or send fails the
      whole chunk with the raw message; a chunk with no owned ID is all
      Skipped; otherwise the owned IDs, in chunk order, each get an entry,
      all Batch Transferred with the one hash and the undivided gas of the
      transaction. */
  lemma ChunkEntries(chain: Contract, account: Address, recipient: Address, chunk: seq<TokenId>)
    ensures var out := ChunkOutcome(chain, account, recipient, chunk);
      var owned := OwnedIds(chain, account, chunk);
      var tx := BatchTransfer(recipient, owned);
      match FirstError(OwnerAnswers(chain, chunk))
      case Some(m) =>
        (exists k :: 0 <= k < |chunk| && chain.ownerOf(chunk[k]) == Err(m))
        && |out.entries| == |chunk|
        && forall k :: 0 <= k < |chunk| ==> out.entries[k] == Entry(chunk[k], Failed, None, None, Some(m))
      case None =>
        if owned == [] then
          |out.entries| == |chunk|
          && forall k :: 0 <= k < |chunk| ==> out.entries[k] == Entry(chunk[k], Skipped, None, None, Some(NOT_OWNED))
        else if chain.send(tx, GAS_LIMIT).Ok? then
          var receipt := chain.send(tx, GAS_LIMIT).value;
          |out.entries| == |owned|
          && (forall k :: 0 <= k < |owned| ==>
                out.entries[k] == Entry(owned[k], BatchTransferred, Some(receipt.txHash), Some(receipt.gasUsed), None))
          && (forall e :: e in out.entries ==>
             e.status == BatchTransferred && e.txHash == Some(receipt.txHash) && e.gasUsed == Some(receipt.gasUsed))
          && forall id :: id in chunk ==> ((exists e :: e in out.entries && e.tokenId == id) <==> Owns(chain, account, id))
        else
          |out.entries| == |chunk|
          && forall k :: 0 <= k < |chunk| ==>
               out.entries[k] == Entry(chunk[k], Failed, None, None, Some(chain.send(tx, GAS_LIMIT).message))
  {
    var owned := OwnedIds(chain, account, chunk);
    OwnedIdsAre(chain, account, chunk);
    var tx := BatchTransfer(recipient, owned);
    match FirstError(OwnerAnswers(chain, chunk))
    case Some(m) => MessageEntriesAre(chunk, Failed, m);
    case None =>
      if owned == [] {
        MessageEntriesAre(chunk, Skipped, NOT_OWNED);
      } else if chain.send(tx, GAS_LIMIT).Err? {
        MessageEntriesAre(chunk, Failed, chain.send(tx, GAS_LIMIT).message);
      } else {
        var receipt := chain.send(tx, GAS_LIMIT).value;
        var entries := SentEntries(owned, BatchTransferred, receipt.txHash, receipt.gasUsed);
        SentEntriesAre(owned, BatchTransferred, receipt.txHash, receipt.gasUsed);
        forall id | id in chunk
          ensures (exists e :: e in entries && e.tokenId == id) <==> Owns(chain, account, id)
        {
          if Owns(chain, account, id) {
            var k :| 0 <= k < |owned| && owned[k] == id;
            assert entries[k].tokenId == id;
          }
        }
      }
  }

  /** Every ownerOf call of a chunk is issued before its one send, if any;
      the send goes out only when every lookup answered and some ID is owned. */
  lemma ChunkCalls(chain: Contract, account: Address, recipient: Address, chunk: seq<TokenId>)
    ensures var out := ChunkOutcome(chain, account, recipient, chunk);
      var owned := OwnedIds(chain, account, chunk);
      |out.calls| >= |chunk| && out.calls[..|chunk|] == OwnerQueries(chunk)
      && (|out.calls| > |chunk| <==> FirstError(OwnerAnswers(chain, chunk)) == None && owned != [])
      && (|out.calls| > |chunk| ==> out.calls[|chunk|..] == [Send(BatchTransfer(recipient, owned), GAS_LIMIT)])
  {
  }

  /** `batchTransfer` as script.js sends it gives every owned ID the whole gas
      of the transaction, so the total that displayResults shows counts that
      gas once per ID. */
  lemma ChunkGasCountedPerId(chain: Contract, account: Address, recipient: Address, chunk: seq<TokenId>)
    requires FirstError(OwnerAnswers(chain, chunk)) == None
    requires OwnedIds(chain, account, chunk) != []
    requires chain.send(BatchTransfer(recipient, OwnedIds(chain, account, chunk)), GAS_LIMIT).Ok?
    ensures var owned := OwnedIds(chain, account, chunk);
      var receipt := chain.send(BatchTransfer(recipient, owned), GAS_LIMIT).value;
      SumGas(ChunkOutcome(chain, account, recipient, chunk).entries) == |owned| * receipt.gasUsed
  {
    var owned := OwnedIds(chain, account, chunk);
    var receipt := chain.send(BatchTransfer(recipient, owned), GAS_LIMIT).value;
    SumGasSent(owned, BatchTransferred, receipt.txHash, receipt.gasUsed);
  }

  /** Results and requests of several steps, one after the other. */
  function Concat(outs: seq<Outcome>): Outcome
    decreases |outs|
  {
    if outs == [] then Outcome([], [])
    else
      var done := Concat(outs[..|outs| - 1]);
      Outcome(done.entries + outs[|outs| - 1].entries, done.calls + outs[|outs| - 1].calls)
  }

  lemma {:induction false} ConcatAppend(a: seq<Outcome>, b: seq<Outcome>)
    ensures Concat(a + b) == Outcome(Concat(a).entries + Concat(b).entries, Concat(a).calls + Concat(b).calls)
    decreases |b|
  {
    if b == [] {
      assert a + b == a;
    } else {
      assert (a + b)[..|a + b| - 1] == a + b[..|b| - 1];
      ConcatAppend(a, b[..|b| - 1]);
    }
  }

  /** The outcome of each chunk on its own, in chunk order. */
  function ChunkOutcomes(chain: Contract, account: Address, recipient: Address, batches: seq<seq<TokenId>>): (r: seq<Outcome>)
    ensures |r| == |batches|
    decreases |batches|
  {
    if batches == [] then []
    else (ChunkOutcomes(chain, account, recipient, batches[..|batches| - 1])
          + [ChunkOutcome(chain, account, recipient, batches[|batches| - 1])])
  }

  /** The loop over `batches`: the outcomes of the chunks, one after the
      other. */
  function ChunksOutcome(chain: Contract, account: Address, recipient: Address, batches: seq<seq<TokenId>>): Outcome {
    Concat(ChunkOutcomes(chain, account, recipient, batches))
  }

  /** The outcome of each chunk is the one it would have on its own. */
  lemma {:induction false} ChunkOutcomesAre(chain: Contract, account: Address, recipient: Address,
                                            batches: seq<seq<TokenId>>, k: nat)
    requires k < |batches|
    ensures ChunkOutcomes(chain, account, recipient, batches)[k] == ChunkOutcome(chain, account, recipient, batches[k])
    decreases |batches|
  {
    if k < |batches| - 1 {
      ChunkOutcomesAre(chain, account, recipient, batches[..|batches| - 1], k);
    }
  }

  lemma {:induction false} ChunkOutcomesAppend(chain: Contract, account: Address, recipient: Address,
                                               a: seq<seq<TokenId>>, b: seq<seq<TokenId>>)
    ensures ChunkOutcomes(chain, account, recipient, a + b)
         == ChunkOutcomes(chain, account, recipient, a) + ChunkOutcomes(chain, account, recipient, b)
    decreases |b|
  {
    if b == [] {
      assert a + b == a;
    } else {
      assert (a + b)[..|a + b| - 1] == a + b[..|b| - 1];
      ChunkOutcomesAppend(chain, account, recipient, a, b[..|b| - 1]);
    }
  }

  /** One more chunk appends its results and requests to those of the
      chunks before it. */
  lemma ChunksOutcomeStep(chain: Contract, account: Address, recipient: Address, batches: seq<seq<TokenId>>,
                          i: nat, last: Outcome)
    requires i < |batches|
    requires last == ChunkOutcome(chain, account, recipient, batches[i])
    ensures var done := ChunksOutcome(chain, account, recipient, batches[..i]);
      ChunksOutcome(chain, account, recipient, batches[..i + 1])
        == Outcome(done.entries + last.entries, done.calls + last.calls)
  {
    assert batches[..i + 1][..i] == batches[..i];
    var outs := ChunkOutcomes(chain, account, recipient, batches[..i + 1]);
    assert outs == ChunkOutcomes(chain, account, recipient, batches[..i]) + [last];
    assert outs[..i] == ChunkOutcomes(chain, account, recipient, batches[..i]);
  }

  /** Chunks do not affect each other: the outcome of two runs of chunks
      back to back is the two outcomes back to back. */
  lemma ChunksIndependent(chain: Contract, account: Address, recipient: Address,
                          a: seq<seq<TokenId>>, b: seq<seq<TokenId>>)
    ensures var ab := ChunksOutcome(chain, account, recipient, a + b);
      var oa := ChunksOutcome(chain, account, recipient, a);
      var ob := ChunksOutcome(chain, account, recipient, b);
      ab.entries == oa.entries + ob.entries && ab.calls == oa.calls + ob.calls
  {
    ChunkOutcomesAppend(chain, account, recipient, a, b);
    ConcatAppend(ChunkOutcomes(chain, account, recipient, a), ChunkOutcomes(chain, account, recipient, b));
  }

  // -----------------------------------------------------------------------
  // One ID at a time

  /** One turn of individualTransfers. */
  function IndividualOutcome(chain: Contract, account: Address, recipient: Address, id: TokenId): Outcome {
    match chain.ownerOf(id)
    case Err(m) => Outcome([FailedEntry(id, m)], [OwnerOf(id)])
    case Ok(owner) =>
      if !SameAddress(owner, account) then Outcome([SkippedEntry(id, NOT_OWNED)], [OwnerOf(id)])
      else
        var tx := SafeTransferFrom(account, recipient, id);
        match chain.send(tx, GAS_LIMIT)
        case Ok(receipt) =>
          Outcome([SentEntry(id, Transferred, receipt.txHash, receipt.gasUsed)], [OwnerOf(id), Send(tx, GAS_LIMIT)])
        case Err(m) => Outcome([FailedEntry(id, m)], [OwnerOf(id), Send(tx, GAS_LIMIT)])
  }

  function IndividualsOutcome(chain: Contract, account: Address, recipient: Address, ids: seq<TokenId>): Outcome
    decreases |ids|
  {
    if ids == [] then Outcome([], [])
    else
      var done := IndividualsOutcome(chain, account, recipient, ids[..|ids| - 1]);
      var last := IndividualOutcome(chain, account, recipient, ids[|ids| - 1]);
      Outcome(done.entries + last.entries, done.calls + last.calls)
  }

  /** One more ID appends its results and requests to those of the IDs
      before it. */
  lemma IndividualsOutcomeStep(chain: Contract, account: Address, recipient: Address, ids: seq<TokenId>,
                               i: nat, last: Outcome)
    requires i < |ids|
    requires last == IndividualOutcome(chain, account, recipient, ids[i])
    ensures var done := IndividualsOutcome(chain, account, recipient, ids[..i]);
      IndividualsOutcome(chain, account, recipient, ids[..i + 1])
        == Outcome(done.entries + last.entries, done.calls + last.calls)
  {
    assert ids[..i + 1][..i] == ids[..i];
  }

  /** What individualTransfers reports for one ID: Skipped when another
      account owns it, Transferred when its send went through, Failed
      otherwise. */
  predicate IndividualEntryFor(chain: Contract, account: Address, recipient: Address, id: TokenId, e: Entry) {
    e.tokenId == id
    && (e.status == Skipped <==> chain.ownerOf(id).Ok? && !SameAddress(chain.ownerOf(id).value, account))
    && (e.status == Transferred <==>
          Owns(chain, account, id) && chain.send(SafeTransferFrom(account, recipient, id), GAS_LIMIT).Ok?)
    && e.status in {Skipped, Transferred, Failed}
  }

  lemma IndividualOutcomeShape(chain: Contract, account: Address, recipient: Address, id: TokenId)
    ensures var out := IndividualOutcome(chain, account, recipient, id);
      |out.entries| == 1 && IndividualEntryFor(chain, account, recipient, id, out.entries[0])
  {
  }

  /** individualTransfers gives every ID exactly one entry, in order, whatever
      happens to the others (see IndividualEntryFor). */
  lemma {:induction false} IndividualsShape(chain: Contract, account: Address, recipient: Address, ids: seq<TokenId>)
    ensures var out := IndividualsOutcome(chain, account, recipient, ids);
      |out.entries| == |ids|
      && forall k :: 0 <= k < |ids| ==> IndividualEntryFor(chain, account, recipient, ids[k], out.entries[k])
    decreases |ids|
  {
    if ids != [] {
      var init := ids[..|ids| - 1];
      var done := IndividualsOutcome(chain, account, recipient, init);
      var last := IndividualOutcome(chain, account, recipient, ids[|ids| - 1]);
      IndividualsShape(chain, account, recipient, init);
      IndividualOutcomeShape(chain, account, recipient, ids[|ids| - 1]);
      assert IndividualsOutcome(chain, account, recipient, ids).entries == done.entries + last.entries;
    }
  }

  // -----------------------------------------------------------------------
  // A whole run

  /** Where a run of transferNFTs ends. */
  datatype Path =
    | MissingInput    // no recipient or no token IDs
    | InvalidAddress  // isAddress rejected the recipient
    | NoTokenIds      // the field held only commas and whitespace
    | Batched         // batchTransferNFTs ran
    | OneByOne        // individualTransfers ran

  datatype Report = Report(path: Path, results: seq<Entry>, calls: seq<Request>)

  /** checkBatchTransferSupport: the ABI lists `batchTransfer`, so the answer
      is that of `batchTransfer(accounts[0], []).call()`. */
  function Probe(account: Address): Tx {
    BatchTransfer(account, [])
  }

  /** transferNFTs past its input checks: probe, then take one of the two
      paths. */
  function Transfers(account: Address, recipient: Address, ids: seq<TokenId>, chain: Contract): Report {
    if chain.dryRun(Probe(account)) && |ids| > 1 then
      var out := ChunksOutcome(chain, account, recipient, Chunks(ids));
      Report(Batched, out.entries, [DryRun(Probe(account))] + out.calls)
    else
      var out := IndividualsOutcome(chain, account, recipient, ids);
      Report(OneByOne, out.entries, [DryRun(Probe(account))] + out.calls)
  }

  /** transferNFTs up to the results it hands to updateGasHistory. */
  function Run(account: Address, recipientField: string, tokenIdsField: string,
               isAddress: string -> bool, chain: Contract): Report
  {
    var recipient := Trim(recipientField);
    var input := Trim(tokenIdsField);
    var ids := ParseTokenIds(input);
    if recipient == [] || input == [] then Report(MissingInput, [], [])
    else if !isAddress(recipient) then Report(InvalidAddress, [], [])
    else if ids == [] then Report(NoTokenIds, [], [])
    else Transfers(account, recipient, ids, chain)
  }

  /** Whether the inputs pass the three checks of transferNFTs. */
  predicate InputsAccepted(recipientField: string, tokenIdsField: string, isAddress: string -> bool) {
    Trim(recipientField) != [] && Trim(tokenIdsField) != [] && isAddress(Trim(recipientField))
    && ParseTokenIds(Trim(tokenIdsField)) != []
  }

  /** A run whose inputs pass the checks is the probe and one of the two
      paths. */
  lemma RunAccepted(account: Address, recipientField: string, tokenIdsField: string,
                    isAddress: string -> bool, chain: Contract)
    requires InputsAccepted(recipientField, tokenIdsField, isAddress)
    ensures Run(account, recipientField, tokenIdsField, isAddress, chain)
         == Transfers(account, Trim(recipientField), ParseTokenIds(Trim(tokenIdsField)), chain)
  {
  }

  /** A run whose inputs fail a check does nothing. */
  lemma RunRejected(account: Address, recipientField: string, tokenIdsField: string,
                    isAddress: string -> bool, chain: Contract)
    requires !InputsAccepted(recipientField, tokenIdsField, isAddress)
    ensures var r := Run(account, recipientField, tokenIdsField, isAddress, chain);
      (r.path == MissingInput || r.path == InvalidAddress || r.path == NoTokenIds) && r.results == [] && r.calls == []
  {
    var recipient, input := Trim(recipientField), Trim(tokenIdsField);
    if recipient == [] || input == [] {
      assert Run(account, recipientField, tokenIdsField, isAddress, chain) == Report(MissingInput, [], []);
    } else if !isAddress(recipient) {
      assert Run(account, recipientField, tokenIdsField, isAddress, chain) == Report(InvalidAddress, [], []);
    } else {
      assert Run(account, recipientField, tokenIdsField, isAddress, chain) == Report(NoTokenIds, [], []);
    }
  }

  /** Past the input checks the probe is the first request, and the chunked
      path is taken exactly when it passed and there is more than one ID. */
  lemma TransfersPath(account: Address, recipient: Address, ids: seq<TokenId>, chain: Contract)
    ensures var r := Transfers(account, recipient, ids, chain);
      (r.path == Batched <==> chain.dryRun(Probe(account)) && |ids| > 1)
      && (r.path == Batched || r.path == OneByOne)
      && r.calls != [] && r.calls[0] == DryRun(Probe(account))
  {
    if chain.dryRun(Probe(account)) && |ids| > 1 {
      var out := ChunksOutcome(chain, account, recipient, Chunks(ids));
      assert ([DryRun(Probe(account))] + out.calls)[0] == DryRun(Probe(account));
    } else {
      var out := IndividualsOutcome(chain, account, recipient, ids);
      assert ([DryRun(Probe(account))] + out.calls)[0] == DryRun(Probe(account));
    }
  }

  /** The chunked path is taken exactly when the inputs pass their checks,
      the probe passed and there is more than one ID; on either path the
      probe is the first request, and a run stopped by a check has neither
      requests nor results. */
  lemma PathChoice(account: Address, recipientField: string, tokenIdsField: string,
                   isAddress: string -> bool, chain: Contract)
    ensures var r := Run(account, recipientField, tokenIdsField, isAddress, chain);
      var ids := ParseTokenIds(Trim(tokenIdsField));
      (r.path == Batched <==>
         (InputsAccepted(recipientField, tokenIdsField, isAddress) && chain.dryRun(Probe(account)) && |ids| > 1))
      && (r.path == Batched || r.path == OneByOne <==> InputsAccepted(recipientField, tokenIdsField, isAddress))
      && (r.path == Batched || r.path == OneByOne ==> r.calls != [] && r.calls[0] == DryRun(Probe(account)))
      && (r.path != Batched && r.path != OneByOne ==> r.calls == [] && r.results == [])
  {
    if InputsAccepted(recipientField, tokenIdsField, isAddress) {
      RunAccepted(account, recipientField, tokenIdsField, isAddress, chain);
      TransfersPath(account, Trim(recipientField), ParseTokenIds(Trim(tokenIdsField)), chain);
    } else {
      RunRejected(account, recipientField, tokenIdsField, isAddress, chain);
    }
  }

  /** On the one-by-one path every parsed ID gets exactly one entry, in
      order. */
  lemma OneByOneCoversEveryId(account: Address, recipientField: string, tokenIdsField: string,
                              isAddress: string -> bool, chain: Contract)
    requires Run(account, recipientField, tokenIdsField, isAddress, chain).path == OneByOne
    ensures var r := Run(account, recipientField, tokenIdsField, isAddress, chain);
      var ids := ParseTokenIds(Trim(tokenIdsField));
      |r.results| == |ids| && forall k :: 0 <= k < |ids| ==> r.results[k].tokenId == ids[k]
  {
    var recipient, ids := Trim(recipientField), ParseTokenIds(Trim(tokenIdsField));
    if !InputsAccepted(recipientField, tokenIdsField, isAddress) {
      RunRejected(account, recipientField, tokenIdsField, isAddress, chain);
    }
    RunAccepted(account, recipientField, tokenIdsField, isAddress, chain);
    TransfersPath(account, recipient, ids, chain);
    assert Run(account, recipientField, tokenIdsField, isAddress, chain).results
        == IndividualsOutcome(chain, account, recipient, ids).entries;
    IndividualsShape(chain, account, recipient, ids);
  }

  // -----------------------------------------------------------------------
  // Which results count as successful

  /** `r.status.includes('Transferred')`. */
  predicate Succeeded(e: Entry) {
    Contains(e.status.Label(), "Transferred")
  }

  lemma TransferredLabels()
    ensures Contains(Transferred.Label(), "Transferred")
    ensures Contains(BatchTransferred.Label(), "Transferred")
    ensures Contains(MulticallTransferred.Label(), "Transferred")
  {
    assert OccursAt("Transferred", "Transferred", 0);
    ContainsAt("Transferred", "Transferred", 0);
    assert OccursAt("Batch Transferred", "Transferred", 6);
    ContainsAt("Batch Transferred", "Transferred", 6);
    assert OccursAt("Multicall Transferred", "Transferred", 10);
    ContainsAt("Multicall Transferred", "Transferred", 10);
  }

  lemma UntransferredLabels()
    ensures !Contains(Skipped.Label(), "Transferred")
    ensures !Contains(Failed.Label(), "Transferred")
  {
    NotContainsMissing("Skipped", "Transferred", 'T');
    NotContainsMissing("Failed", "Transferred", 'T');
  }

  /** Exactly the three transferred statuses contain 'Transferred'. */
  lemma SucceededIff(e: Entry)
    ensures Succeeded(e) <==> e.status in {Transferred, BatchTransferred, MulticallTransferred}
  {
    TransferredLabels();
    UntransferredLabels();
  }

  /** `results.filter(r => r.status.includes('Transferred'))`. */
  function Successful(results: seq<Entry>): seq<Entry>
    decreases |results|
  {
    if results == [] then []
    else
      var e := results[|results| - 1];
      Successful(results[..|results| - 1]) + (if Succeeded(e) then [e] else [])
  }

  /** Entries that did not succeed carry no gas, so the gas of the successful
      ones is the whole total. */
  lemma {:induction false} SuccessfulGasIsTotal(results: seq<Entry>)
    requires forall k :: 0 <= k < |results| && !Succeeded(results[k]) ==> results[k].gasUsed == None
    ensures SumGas(Successful(results)) == SumGas(results)
    decreases |results|
  {
    if results != [] {
      var init, e := results[..|results| - 1], results[|results| - 1];
      SuccessfulGasIsTotal(init);
      if Succeeded(e) {
        SumGasAppend(Successful(init), [e]);
      } else {
        assert Successful(results) == Successful(init);
      }
    }
  }

  /** Entries of a run: only successful ones carry gas. */
  predicate GasOnlyOnSuccess(results: seq<Entry>) {
    forall k :: 0 <= k < |results| && !Succeeded(results[k]) ==> results[k].gasUsed == None
  }

  lemma GasOnlyOnSuccessAppend(a: seq<Entry>, b: seq<Entry>)
    requires GasOnlyOnSuccess(a) && GasOnlyOnSuccess(b)
    ensures GasOnlyOnSuccess(a + b)
  {
    assert forall k :: |a| <= k < |a + b| ==> (a + b)[k] == b[k - |a|];
  }

  lemma ChunkGasOnlyOnSuccess(chain: Contract, account: Address, recipient: Address, chunk: seq<TokenId>)
    ensures GasOnlyOnSuccess(ChunkOutcome(chain, account, recipient, chunk).entries)
  {
    var entries := ChunkOutcome(chain, account, recipient, chunk).entries;
    ChunkGasOnSentEntries(chain, account, recipient, chunk);
    forall k | 0 <= k < |entries| && entries[k].gasUsed != None
      ensures Succeeded(entries[k])
    {
      SucceededIff(entries[k]);
    }
  }

  lemma {:induction false} ChunksGasOnlyOnSuccess(chain: Contract, account: Address, recipient: Address,
                                                 batches: seq<seq<TokenId>>)
    ensures GasOnlyOnSuccess(ChunksOutcome(chain, account, recipient, batches).entries)
    decreases |batches|
  {
    if batches != [] {
      ChunksGasOnlyOnSuccess(chain, account, recipient, batches[..|batches| - 1]);
      ChunkGasOnlyOnSuccess(chain, account, recipient, batches[|batches| - 1]);
      GasOnlyOnSuccessAppend(ChunksOutcome(chain, account, recipient, batches[..|batches| - 1]).entries,
                             ChunkOutcome(chain, account, recipient, batches[|batches| - 1]).entries);
    }
  }

  lemma {:induction false} IndividualsGasOnlyOnSuccess(chain: Contract, account: Address, recipient: Address,
                                                      ids: seq<TokenId>)
    ensures GasOnlyOnSuccess(IndividualsOutcome(chain, account, recipient, ids).entries)
    decreases |ids|
  {
    if ids != [] {
      var last := IndividualOutcome(chain, account, recipient, ids[|ids| - 1]).entries;
      IndividualsGasOnlyOnSuccess(chain, account, recipient, ids[..|ids| - 1]);
      forall k | 0 <= k < |last| && last[k].gasUsed != None
        ensures Succeeded(last[k])
      {
        SucceededIff(last[k]);
      }
      GasOnlyOnSuccessAppend(IndividualsOutcome(chain, account, recipient, ids[..|ids| - 1]).entries, last);
    }
  }

  /** In every run the gas recorded for the successful transfers is all the
      gas of the run's results. */
  lemma RunGasIsSuccessfulGas(account: Address, recipientField: string, tokenIdsField: string,
                              isAddress: string -> bool, chain: Contract)
    ensures var results := Run(account, recipientField, tokenIdsField, isAddress, chain).results;
      SumGas(Successful(results)) == SumGas(results)
  {
    var results := Run(account, recipientField, tokenIdsField, isAddress, chain).results;
    var recipient, ids := Trim(recipientField), ParseTokenIds(Trim(tokenIdsField));
    if InputsAccepted(recipientField, tokenIdsField, isAddress) {
      RunAccepted(account, recipientField, tokenIdsField, isAddress, chain);
      if chain.dryRun(Probe(account)) && |ids| > 1 {
        assert results == ChunksOutcome(chain, account, recipient, Chunks(ids)).entries;
        ChunksGasOnlyOnSuccess(chain, account, recipient, Chunks(ids));
      } else {
        assert results == IndividualsOutcome(chain, account, recipient, ids).entries;
        IndividualsGasOnlyOnSuccess(chain, account, recipient, ids);
      }
    } else {
      RunRejected(account, recipientField, tokenIdsField, isAddress, chain);
    }
    SuccessfulGasIsTotal(results);
  }


  // -----------------------------------------------------------------------
  // gasHistory

  /** One `gasHistory` record: `avgGas` is `gasSum / count` and is kept as
      the two integers; the timestamp is not modelled. */
  datatype GasRecord = GasRecord(gasSum: nat, count: nat)

  /** The last `n` elements of `s`, or all of them if there are fewer. */
  function LastN(s: seq<GasRecord>, n: nat): (r: seq<GasRecord>)
    ensures |r| == if |s| <= n then |s| else n
    ensures r == s[|s| - |r|..]
    ensures |s| <= n ==> r == s
  {
    if |s| <= n then s else s[|s| - n..]
  }

  /** The record a run adds, if any. */
  function RecordOf(results: seq<Entry>): Option<GasRecord> {
    var successful := Successful(results);
    if |successful| > 0 then Some(GasRecord(SumGas(successful), |successful|)) else None
  }

  /** Appending one record and then keeping the last n is keeping the last n
      of the longer history. */
  lemma LastNAppend(s: seq<GasRecord>, x: GasRecord, n: nat)
    requires n > 0
    ensures var h := LastN(s, n) + [x];
      (if |h| > n then h[1..] else h) == LastN(s + [x], n)
  {
    if |s| >= n {
      var h := LastN(s, n) + [x];
      assert h[1..] == s[|s| - n + 1..] + [x];
      assert (s + [x])[|s| + 1 - n..] == s[|s| - n + 1..] + [x];
    }
  }

  // -----------------------------------------------------------------------
  // The page's state

  class Session {
    /** `accounts[0]`. */
    const account: Address
    /** `gasHistory`. */
    var gasHistory: seq<GasRecord>
    /** Every record ever pushed, oldest first. */
    ghost var allRecords: seq<GasRecord>

    ghost predicate Valid()
      reads this
    {
      gasHistory == LastN(allRecords, HISTORY_LENGTH)
    }

    constructor (account: Address)
      ensures Valid() && this.account == account && gasHistory == [] && allRecords == []
    {
      this.account := account;
      gasHistory := [];
      allRecords := [];
    }

    /** updateGasHistory: push a record when some result succeeded, then drop
      the oldest while there are more than five. */
    method UpdateGasHistory(results: seq<Entry>)
      requires Valid()
      modifies this`gasHistory, this`allRecords
      ensures Valid()
      ensures |gasHistory| <= HISTORY_LENGTH
      ensures allRecords == old(allRecords) + match RecordOf(results) case Some(rec) => [rec] case None => []
    {
      var successfulTransfers := Successful(results);
      if |successfulTransfers| > 0 {
        var rec := GasRecord(SumGas(successfulTransfers), |successfulTransfers|);
        LastNAppend(allRecords, rec, HISTORY_LENGTH);
        gasHistory := gasHistory + [rec];
        allRecords := allRecords + [rec];
        if |gasHistory| > HISTORY_LENGTH {
          gasHistory := gasHistory[1..];
        }
      }
    }

    /** The body of the loop over `batches`. */
    method TransferChunk(chain: Contract, recipient: Address, batch: seq<TokenId>)
      returns (entries: seq<Entry>, calls: seq<Request>)
      ensures Outcome(entries, calls) == ChunkOutcome(chain, account, recipient, batch)
    {
      // Promise.all(batch.map(tokenId => ownerOf(tokenId).call()))
      var ownershipChecks: seq<Result<Address>> := [];
      calls := [];
      var i := 0;
      while i < |batch|
        invariant 0 <= i <= |batch|
        invariant ownershipChecks == OwnerAnswers(chain, batch[..i])
        invariant calls == OwnerQueries(batch[..i])
      {
        assert batch[..i + 1][..i] == batch[..i];
        ownershipChecks := ownershipChecks + [chain.ownerOf(batch[i])];
        calls := calls + [OwnerOf(batch[i])];
        i := i + 1;
      }
      assert batch[..i] == batch;
      var failure := FirstError(ownershipChecks);
      if failure.Some? {
        entries := MessageEntries(batch, Failed, failure.value);
        return;
      }
      var validBatch := OwnedIds(chain, account, batch);
      if validBatch == [] {
        entries := MessageEntries(batch, Skipped, NOT_OWNED);
        return;
      }
      var tx := BatchTransfer(recipient, validBatch);
      calls := calls + [Send(tx, GAS_LIMIT)];
      match chain.send(tx, GAS_LIMIT) {
        case Ok(receipt) =>
          entries := SentEntries(validBatch, BatchTransferred, receipt.txHash, receipt.gasUsed);
        case Err(m) =>
          entries := MessageEntries(batch, Failed, m);
      }
    }

    /** One turn of the loop of batchTransferNFTs: chunk `i` appends its
        results and requests to those of the chunks before it. */
    method TransferNextChunk(chain: Contract, recipient: Address, batches: seq<seq<TokenId>>, i: nat,
                             results: seq<Entry>, calls: seq<Request>, doneResults: seq<Entry>, doneCalls: seq<Request>)
      returns (outResults: seq<Entry>, outCalls: seq<Request>)
      requires i < |batches|
      requires var done := ChunksOutcome(chain, account, recipient, batches[..i]);
        doneResults == results + done.entries && doneCalls == calls + done.calls
      ensures var done := ChunksOutcome(chain, account, recipient, batches[..i + 1]);
        outResults == results + done.entries && outCalls == calls + done.calls
    {
      var entries, chunkCalls := TransferChunk(chain, recipient, batches[i]);
      ChunksOutcomeStep(chain, account, recipient, batches, i, Outcome(entries, chunkCalls));
      ghost var done := ChunksOutcome(chain, account, recipient, batches[..i]);
      AppendAssoc(results, done.entries, entries);
      AppendAssoc(calls, done.calls, chunkCalls);
      outResults := doneResults + entries;
      outCalls := doneCalls + chunkCalls;
    }

    /** The loop of batchTransferNFTs over `batches`. */
    method TransferChunks(chain: Contract, recipient: Address, batches: seq<seq<TokenId>>,
                          results: seq<Entry>, calls: seq<Request>)
      returns (outResults: seq<Entry>, outCalls: seq<Request>)
      ensures var out := ChunksOutcome(chain, account, recipient, batches);
        outResults == results + out.entries && outCalls == calls + out.calls
    {
      outResults, outCalls := results, calls;
      var i := 0;
      while i < |batches|
        invariant 0 <= i <= |batches|
        invariant var done := ChunksOutcome(chain, account, recipient, batches[..i]);
          outResults == results + done.entries && outCalls == calls + done.calls
      {
        outResults, outCalls := TransferNextChunk(chain, recipient, batches, i, results, calls, outResults, outCalls);
        i := i + 1;
      }
      assert batches[..i] == batches;
    }

    /** batchTransferNFTs. */
    method BatchTransferNFTs(chain: Contract, recipient: Address, tokenIds: seq<TokenId>,
                             results: seq<Entry>, calls: seq<Request>)
      returns (outResults: seq<Entry>, outCalls: seq<Request>)
      ensures var out := ChunksOutcome(chain, account, recipient, Chunks(tokenIds));
        outResults == results + out.entries && outCalls == calls + out.calls
    {
      var batches := MakeBatches(tokenIds);
      outResults, outCalls := TransferChunks(chain, recipient, batches, results, calls);
    }

    /** The body of the loop of individualTransfers. */
    method TransferToken(chain: Contract, recipient: Address, tokenId: TokenId)
      returns (entries: seq<Entry>, calls: seq<Request>)
      ensures Outcome(entries, calls) == IndividualOutcome(chain, account, recipient, tokenId)
    {
      calls := [OwnerOf(tokenId)];
      match chain.ownerOf(tokenId) {
        case Err(m) =>
          entries := [FailedEntry(tokenId, m)];
        case Ok(owner) =>
          if ToLower(owner) != ToLower(account) {
            entries := [SkippedEntry(tokenId, NOT_OWNED)];
          } else {
            var tx := SafeTransferFrom(account, recipient, tokenId);
            calls := calls + [Send(tx, GAS_LIMIT)];
            match chain.send(tx, GAS_LIMIT) {
              case Ok(receipt) =>
                entries := [SentEntry(tokenId, Transferred, receipt.txHash, receipt.gasUsed)];
              case Err(m) =>
                entries := [FailedEntry(tokenId, m)];
            }
          }
      }
    }

    /** One turn of the loop of individualTransfers: ID `i` appends its
        result and requests to those of the IDs before it. */
    method TransferNextToken(chain: Contract, recipient: Address, tokenIds: seq<TokenId>, i: nat,
                             results: seq<Entry>, calls: seq<Request>, doneResults: seq<Entry>, doneCalls: seq<Request>)
      returns (outResults: seq<Entry>, outCalls: seq<Request>)
      requires i < |tokenIds|
      requires var done := IndividualsOutcome(chain, account, recipient, tokenIds[..i]);
        doneResults == results + done.entries && doneCalls == calls + done.calls
      ensures var done := IndividualsOutcome(chain, account, recipient, tokenIds[..i + 1]);
        outResults == results + done.entries && outCalls == calls + done.calls
    {
      var entries, tokenCalls := TransferToken(chain, recipient, tokenIds[i]);
      IndividualsOutcomeStep(chain, account, recipient, tokenIds, i, Outcome(entries, tokenCalls));
      ghost var done := IndividualsOutcome(chain, account, recipient, tokenIds[..i]);
      AppendAssoc(results, done.entries, entries);
      AppendAssoc(calls, done.calls, tokenCalls);
      outResults := doneResults + entries;
      outCalls := doneCalls + tokenCalls;
    }

    /** individualTransfers. */
    method IndividualTransfers(chain: Contract, recipient: Address, tokenIds: seq<TokenId>,
                               results: seq<Entry>, calls: seq<Request>)
      returns (outResults: seq<Entry>, outCalls: seq<Request>)
      ensures var out := IndividualsOutcome(chain, account, recipient, tokenIds);
        outResults == results + out.entries && outCalls == calls + out.calls
    {
      outResults, outCalls := results, calls;
      var i := 0;
      while i < |tokenIds|
        invariant 0 <= i <= |tokenIds|
        invariant var done := IndividualsOutcome(chain, account, recipient, tokenIds[..i]);
          outResults == results + done.entries && outCalls == calls + done.calls
      {
        outResults, outCalls := TransferNextToken(chain, recipient, tokenIds, i, results, calls, outResults, outCalls);
        i := i + 1;
      }
      assert tokenIds[..i] == tokenIds;
    }

    /** transferNFTs past its input checks. */
    method TransferTokens(chain: Contract, recipient: Address, tokenIds: seq<TokenId>)
      returns (path: Path, results: seq<Entry>, calls: seq<Request>)
      ensures Report(path, results, calls) == Transfers(account, recipient, tokenIds, chain)
    {
      var hasBatchTransfer := chain.dryRun(Probe(account));
      calls := [DryRun(Probe(account))];
      if hasBatchTransfer && |tokenIds| > 1 {
        results, calls := BatchTransferNFTs(chain, recipient, tokenIds, [], calls);
        path := Batched;
        EmptyAppend(ChunksOutcome(chain, account, recipient, Chunks(tokenIds)).entries);
      } else {
        results, calls := IndividualTransfers(chain, recipient, tokenIds, [], calls);
        path := OneByOne;
        EmptyAppend(IndividualsOutcome(chain, account, recipient, tokenIds).entries);
      }
    }

    /** transferNFTs, ending with updateGasHistory. */
    method TransferNFTs(recipientField: string, tokenIdsField: string, isAddress: string -> bool, chain: Contract)
      returns (path: Path, results: seq<Entry>, calls: seq<Request>)
      requires Valid()
      modifies this`gasHistory, this`allRecords
      ensures Valid() && |gasHistory| <= HISTORY_LENGTH
      ensures Report(path, results, calls) == Run(account, recipientField, tokenIdsField, isAddress, chain)
      ensures allRecords == old(allRecords) + match RecordOf(results) case Some(rec) => [rec] case None => []
    {
      var recipient := Trim(recipientField);
      var tokenIdsInput := Trim(tokenIdsField);
      results, calls := [], [];
      if recipient == [] || tokenIdsInput == [] {
        return MissingInput, results, calls;
      }
      if !isAddress(recipient) {
        return InvalidAddress, results, calls;
      }
      var tokenIds := ParseTokenIds(tokenIdsInput);
      if tokenIds == [] {
        return NoTokenIds, results, calls;
      }
      path, results, calls := TransferTokens(chain, recipient, tokenIds);
      UpdateGasHistory(results);
    }
  }
}
