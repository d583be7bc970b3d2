/** The token contract as both dashboards see it, and the result entries they
    build.  The contract is an oracle: each of its answers is a function of
    the request alone.  Every request a run issues is recorded, in order, in a
    trace of `Request`s, so that the order of calls can be stated. */
module Chain {
  import opened Text

  datatype Option<+T> = None | Some(value: T)

  /** The outcome of a call that may revert or throw; `Err` carries
      `error.message`. */
  datatype Result<+T> = Ok(value: T) | Err(message: string)

  type Address = string

  /** What an awaited `.send()` resolves to. */
  datatype Receipt = Receipt(txHash: string, gasUsed: nat)

  /** The contract functions the dashboards send, estimate or simulate. */
  datatype Tx =
    | SafeTransferFrom(from: Address, to: Address, tokenId: TokenId)
    | SafeBatchTransferFrom(from: Address, to: Address, tokenIds: seq<TokenId>)
    | Multicall(data: seq<Tx>)
    | BatchTransfer(to: Address, tokenIds: seq<TokenId>)

  /** One request to the contract. */
  datatype Request =
    | OwnerOf(tokenId: TokenId)        // ownerOf(tokenId).call()
    | EstimateGas(tx: Tx)              // tx.estimateGas({ from })
    | DryRun(tx: Tx)                   // tx.call()
    | Send(tx: Tx, gasLimit: nat)      // tx.send({ from, gasPrice, gas })

  /** The contract's answers.  `ownerOf` is the owner lookup of EIP-721's
      ERC721 interface; an `Err` is a lookup that reverts (a token that does
      not exist, or an ID that is not a number).  The gas price sent with
      every transaction is opaque and not part of the model. */
  datatype Contract = Contract(
    ownerOf: TokenId -> Result<Address>,
    estimateGas: Tx -> Result<nat>,
    dryRun: Tx -> bool,
    send: (Tx, nat) -> Result<Receipt>)

  /** The `status` strings of a result entry. */
  datatype Status = Skipped | Transferred | BatchTransferred | MulticallTransferred | Failed
  {
    function Label(): string {
      match this
      case Skipped => "Skipped"
      case Transferred => "Transferred"
      case BatchTransferred => "Batch Transferred"
      case MulticallTransferred => "Multicall Transferred"
      case Failed => "Failed"
    }
  }

  /** One row of `results`: `{ tokenId, status, txHash?, gasUsed?, message? }`. */
  datatype Entry = Entry(
    tokenId: TokenId,
    status: Status,
    txHash: Option<string>,
    gasUsed: Option<nat>,
    message: Option<string>)

  function SkippedEntry(tokenId: TokenId, message: string): Entry {
    Entry(tokenId, Skipped, None, None, Some(message))
  }

  function FailedEntry(tokenId: TokenId, message: string): Entry {
    Entry(tokenId, Failed, None, None, Some(message))
  }

  function SentEntry(tokenId: TokenId, status: Status, txHash: string, gasUsed: nat): Entry {
    Entry(tokenId, status, Some(txHash), Some(gasUsed), None)
  }

  /** Entries of IDs that went out in one transaction: each shares its hash
      and reports `gasUsed`. */
  function SentEntries(ids: seq<TokenId>, status: Status, txHash: string, gasUsed: nat): (r: seq<Entry>)
    ensures |r| == |ids|
  {
    if ids == [] then []
    else SentEntries(ids[..|ids| - 1], status, txHash, gasUsed) + [SentEntry(ids[|ids| - 1], status, txHash, gasUsed)]
  }

  lemma {:induction false} SentEntriesAre(ids: seq<TokenId>, status: Status, txHash: string, gasUsed: nat)
    ensures forall k :: 0 <= k < |ids| ==>
      SentEntries(ids, status, txHash, gasUsed)[k] == SentEntry(ids[k], status, txHash, gasUsed)
    decreases |ids|
  {
    if ids != [] {
      SentEntriesAre(ids[..|ids| - 1], status, txHash, gasUsed);
    }
  }

  /** `ids.forEach(tokenId => results.push({ tokenId, status, message }))`. */
  function MessageEntries(ids: seq<TokenId>, status: Status, message: string): (r: seq<Entry>)
    ensures |r| == |ids|
  {
    if ids == [] then []
    else MessageEntries(ids[..|ids| - 1], status, message) + [Entry(ids[|ids| - 1], status, None, None, Some(message))]
  }

  lemma {:induction false} MessageEntriesAre(ids: seq<TokenId>, status: Status, message: string)
    ensures forall k :: 0 <= k < |ids| ==>
      MessageEntries(ids, status, message)[k] == Entry(ids[k], status, None, None, Some(message))
    decreases |ids|
  {
    if ids != [] {
      MessageEntriesAre(ids[..|ids| - 1], status, message);
    }
  }

  /** One `ownerOf` query per ID, in order. */
  function OwnerQueries(ids: seq<TokenId>): (r: seq<Request>)
    ensures |r| == |ids|
  {
    if ids == [] then [] else OwnerQueries(ids[..|ids| - 1]) + [OwnerOf(ids[|ids| - 1])]
  }

  lemma {:induction false} OwnerQueriesAre(ids: seq<TokenId>)
    ensures forall k :: 0 <= k < |ids| ==> OwnerQueries(ids)[k] == OwnerOf(ids[k])
    decreases |ids|
  {
    if ids != [] {
      OwnerQueriesAre(ids[..|ids| - 1]);
    }
  }

  lemma OwnerQueriesOnly(ids: seq<TokenId>)
    ensures forall q :: q in OwnerQueries(ids) ==> q.OwnerOf?
  {
    OwnerQueriesAre(ids);
    var qs := OwnerQueries(ids);
    forall q | q in qs
      ensures q.OwnerOf?
    {
      var k :| 0 <= k < |qs| && qs[k] == q;
      assert q == OwnerOf(ids[k]);
    }
  }

  /** Gas limit for a batch send: `Math.ceil(estimatedGas * 1.3)`, computed
      on integers. */
  function BatchGasLimit(estimate: nat): (limit: nat)
    ensures 10 * limit >= 13 * estimate
    ensures 10 * limit < 13 * estimate + 10
  {
    (estimate * 13 + 9) / 10
  }

  /** Gas limit for a single send: `Math.ceil(estimatedGas * 1.2)`. */
  function SingleGasLimit(estimate: nat): (limit: nat)
    ensures 10 * limit >= 12 * estimate
    ensures 10 * limit < 12 * estimate + 10
  {
    (estimate * 12 + 9) / 10
  }

  /** `result.gasUsed || 0`. */
  function GasOf(e: Entry): nat {
    match e.gasUsed
    case Some(g) => g
    case None => 0
  }

  /** The total that displayResults accumulates, front to back. */
  function SumGas(results: seq<Entry>): nat {
    if results == [] then 0
    else SumGas(results[..|results| - 1]) + GasOf(results[|results| - 1])
  }

  /** The total gas of a report is the sum of the totals of its parts. */
  lemma {:induction false} SumGasAppend(a: seq<Entry>, b: seq<Entry>)
    ensures SumGas(a + b) == SumGas(a) + SumGas(b)
    decreases |b|
  {
    if b == [] {
      assert a + b == a;
    } else {
      assert (a + b)[..|a + b| - 1] == a + b[..|b| - 1];
      SumGasAppend(a, b[..|b| - 1]);
    }
  }

  /** Entries without `gasUsed` add nothing to the total. */
  lemma {:induction false} SumGasWithoutGas(results: seq<Entry>)
    requires forall k :: 0 <= k < |results| ==> results[k].gasUsed == None
    ensures SumGas(results) == 0
    decreases |results|
  {
    if results != [] {
      SumGasWithoutGas(results[..|results| - 1]);
    }
  }

  /** The IDs of one transaction add its gas once per ID to the total. */
  lemma {:induction false} SumGasSent(ids: seq<TokenId>, status: Status, txHash: string, gasUsed: nat)
    ensures SumGas(SentEntries(ids, status, txHash, gasUsed)) == |ids| * gasUsed
    decreases |ids|
  {
    if ids != [] {
      SumGasSent(ids[..|ids| - 1], status, txHash, gasUsed);
      assert (|ids| - 1) * gasUsed + gasUsed == |ids| * gasUsed;
    }
  }

  /** Entries that carry only a message add nothing to the total. */
  lemma {:induction false} SumGasMessages(ids: seq<TokenId>, status: Status, message: string)
    ensures SumGas(MessageEntries(ids, status, message)) == 0
    decreases |ids|
  {
    if ids != [] {
      SumGasMessages(ids[..|ids| - 1], status, message);
    }
  }

  /** The loop in displayResults: `totalGas += result.gasUsed || 0` for
      every result. */
  method TotalGas(results: seq<Entry>) returns (total: nat)
    ensures total == SumGas(results)
  {
    total := 0;
    var i := 0;
    while i < |results|
      invariant 0 <= i <= |results|
      invariant total == SumGas(results[..i])
    {
      assert results[..i + 1][..i] == results[..i];
      total := total + GasOf(results[i]);
      i := i + 1;
    }
    assert results[..i] == results;
  }
}
