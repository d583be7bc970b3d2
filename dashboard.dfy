/** The transfer dashboard of public/script.js: the selection of loaded NFTs
    (`selectedNFTs`) and `transferNFTs`, which parses the token IDs, checks the
    recipient, sorts the IDs into owned and rejected ones with `ownerOf`, tries
    `safeBatchTransferFrom`, then `multicall`, for more than one owned ID, and
    otherwise sends one `safeTransferFrom` per ID. */
module Dashboard {
  import opened Text
  import opened Chain

  const ZERO_ADDRESS: string := "0x0000000000000000000000000000000000000000"

  /** Messages of the Skipped entries. */
  const NOT_OWNED: string := "Not owned by you"
  const DOES_NOT_EXIST: string := "Token does not exist"

  /** OpenZeppelin ERC721 revert reasons and the texts they are shown as. */
  const REASON_NOT_APPROVED: string := "ERC721: transfer caller is not owner nor approved"
  const REASON_NON_RECEIVER: string := "ERC721: transfer to non ERC721Receiver implementer"
  const REASON_NOT_OWN: string := "ERC721: transfer of token that is not own"
  const NOT_APPROVED: string := "Not approved to transfer this token"
  const CANNOT_RECEIVE: string := "Recipient cannot receive NFTs"
  const OWNERSHIP_CHANGED: string := "Token ownership changed during transfer"
  const REVERTED: string := "Transaction reverted by contract"

  // -----------------------------------------------------------------------
  // Error messages of failed single transfers

  /** The message of a Failed entry: a revert is shown as one of four fixed
      texts, checked in a fixed order; any other error keeps its own message. */
  function NormalizeError(message: string): (r: string)
    ensures !Contains(message, "revert") ==> r == message
    ensures (Contains(message, "revert") && Contains(message, REASON_NOT_APPROVED)) ==> r == NOT_APPROVED
    ensures (Contains(message, "revert") && !Contains(message, REASON_NOT_APPROVED)
             && Contains(message, REASON_NON_RECEIVER)) ==> r == CANNOT_RECEIVE
    ensures (Contains(message, "revert") && !Contains(message, REASON_NOT_APPROVED)
             && !Contains(message, REASON_NON_RECEIVER) && Contains(message, REASON_NOT_OWN)) ==> r == OWNERSHIP_CHANGED
    ensures (Contains(message, "revert") && !Contains(message, REASON_NOT_APPROVED)
             && !Contains(message, REASON_NON_RECEIVER) && !Contains(message, REASON_NOT_OWN)) ==> r == REVERTED
  {
    if !Contains(message, "revert") then message
    else if Contains(message, REASON_NOT_APPROVED) then NOT_APPROVED
    else if Contains(message, REASON_NON_RECEIVER) then CANNOT_RECEIVE
    else if Contains(message, REASON_NOT_OWN) then OWNERSHIP_CHANGED
    else REVERTED
  }

  /** The plain texts do not mention "revert", so they are kept as they are. */
  /** NOT_APPROVED cut where no occurrence of "revert" could straddle. */
  lemma NotApprovedPieces()
    ensures NOT_APPROVED == "Not appro" + ("ved" + " to transfer this token")
  {
    assert NOT_APPROVED == "Not appro" + "ved" + " to transfer this token";
  }

  lemma NotApprovedIsPlain()
    ensures !Contains(NOT_APPROVED, "revert")
  {
    NotApprovedPieces();
    NotContainsThreePieces(NOT_APPROVED, "Not appro", "ved", " to transfer this token", "revert", 'v', 'v');
  }

  lemma CannotReceiveIsPlain()
    ensures !Contains(CANNOT_RECEIVE, "revert")
  {
    NotContainsTwoPieces(CANNOT_RECEIVE, "Recipient cannot recei", "ve NFTs", "revert", 'v', 'r');
  }

  lemma OwnershipChangedIsPlain()
    ensures !Contains(OWNERSHIP_CHANGED, "revert")
  {
    NotContainsMissing(OWNERSHIP_CHANGED, "revert", 'v');
  }

  /** The generic text mentions "revert" but is shorter than every
      OpenZeppelin reason, so it maps to itself. */
  lemma RevertedIsStable()
    ensures NormalizeError(REVERTED) == REVERTED
  {
    assert OccursAt(REVERTED, "revert", 12);
    ContainsAt(REVERTED, "revert", 12);
    assert |REVERTED| < |REASON_NOT_OWN| < |REASON_NOT_APPROVED| && |REVERTED| < |REASON_NON_RECEIVER|;
  }

  /** Normalising an already normalised message changes nothing. */
  lemma NormalizeErrorIdempotent(message: string)
    ensures NormalizeError(NormalizeError(message)) == NormalizeError(message)
  {
    if Contains(message, "revert") {
      NotApprovedIsPlain();
      CannotReceiveIsPlain();
      OwnershipChangedIsPlain();
      RevertedIsStable();
    }
  }

  // -----------------------------------------------------------------------
  // The selection: a JavaScript Set, which keeps insertion order

  predicate NoDuplicates(s: seq<TokenId>) {
    forall i, j :: 0 <= i < j < |s| ==> s[i] != s[j]
  }

  /** Set.prototype.add. */
  function SetAdd(s: seq<TokenId>, x: TokenId): (r: seq<TokenId>)
    ensures forall y :: y in r <==> y in s || y == x
    ensures NoDuplicates(s) ==> NoDuplicates(r)
    ensures x in s ==> r == s
    ensures x !in s ==> r == s + [x]
  {
    if x in s then s else s + [x]
  }

  /** Set.prototype.delete: the others stay, in their order. */
  function SetDelete(s: seq<TokenId>, x: TokenId): (r: seq<TokenId>)
    ensures forall y :: y in r <==> y in s && y != x
    ensures NoDuplicates(s) ==> NoDuplicates(r)
    ensures x !in s ==> r == s
  {
    if s == [] then []
    else if s[0] == x then SetDelete(s[1..], x)
    else
      var rest := SetDelete(s[1..], x);
      assert forall y :: y in rest ==> y in s[1..];
      assert NoDuplicates(s) ==> NoDuplicates(s[1..]) && s[0] !in s[1..];
      [s[0]] + rest
  }

  /** Reference for deletion: the IDs of `s` not among `ids`, in their
      order, read front to back. */
  function Without(s: seq<TokenId>, ids: seq<TokenId>): seq<TokenId>
    decreases |s|
  {
    if s == [] then []
    else (if s[0] in ids then [] else [s[0]]) + Without(s[1..], ids)
  }

  /** Deleting one ID keeps every other one, in order. */
  lemma {:induction false} DeleteIsWithout(s: seq<TokenId>, x: TokenId)
    ensures SetDelete(s, x) == Without(s, [x])
    decreases |s|
  {
    if s != [] {
      DeleteIsWithout(s[1..], x);
    }
  }

  /** In a set, deleting a present ID removes it from its one position. */
  lemma {:induction false} DeleteAt(s: seq<TokenId>, x: TokenId)
    requires NoDuplicates(s) && x in s
    ensures exists k :: 0 <= k < |s| && s[k] == x && SetDelete(s, x) == s[..k] + s[k + 1..]
    decreases |s|
  {
    if s[0] == x {
      assert x !in s[1..];
      assert SetDelete(s, x) == s[..0] + s[1..];
    } else {
      var t := s[1..];
      assert NoDuplicates(t);
      DeleteAt(t, x);
      var k :| 0 <= k < |t| && t[k] == x && SetDelete(t, x) == t[..k] + t[k + 1..];
      assert s[..k + 1] == [s[0]] + t[..k];
      assert s[k + 2..] == t[k + 1..];
      AppendAssoc([s[0]], t[..k], t[k + 1..]);
      assert s[k + 1] == x;
    }
  }

  /** Deleting one more ID from a filtered selection filters by both. */
  lemma {:induction false} WithoutOneMore(s: seq<TokenId>, ids: seq<TokenId>, x: TokenId)
    ensures Without(Without(s, ids), [x]) == Without(s, ids + [x])
    decreases |s|
  {
    if s != [] {
      WithoutOneMore(s[1..], ids, x);
      var head := if s[0] in ids then [] else [s[0]];
      WithoutAppend(head, Without(s[1..], ids), [x]);
      assert Without(head, [x]) == if s[0] in ids + [x] then [] else [s[0]];
    }
  }

  lemma {:induction false} WithoutAppend(a: seq<TokenId>, b: seq<TokenId>, ids: seq<TokenId>)
    ensures Without(a + b, ids) == Without(a, ids) + Without(b, ids)
    decreases |a|
  {
    if a == [] {
      assert a + b == b;
    } else {
      assert (a + b)[0] == a[0];
      assert (a + b)[1..] == a[1..] + b;
      WithoutAppend(a[1..], b, ids);
      AppendAssoc(if a[0] in ids then [] else [a[0]], Without(a[1..], ids), Without(b, ids));
    }
  }

  /** toggleNFTSelection. */
  function Toggled(s: seq<TokenId>, x: TokenId): seq<TokenId> {
    if x in s then SetDelete(s, x) else s + [x]
  }

  /** Adding then deleting an ID that was not there restores the selection. */
  lemma {:induction false} DeleteAppended(s: seq<TokenId>, x: TokenId)
    requires x !in s
    ensures SetDelete(s + [x], x) == s
    decreases |s|
  {
    if s == [] {
      assert SetDelete([x], x) == SetDelete([], x);
    } else {
      assert (s + [x])[1..] == s[1..] + [x];
      DeleteAppended(s[1..], x);
    }
  }

  /** Toggling the same ID twice gives back the same set of IDs; when the ID
      was not selected it gives back the very same order too (a selected ID
      comes back at the end). */
  lemma ToggleTwice(s: seq<TokenId>, x: TokenId)
    requires NoDuplicates(s)
    ensures forall y :: y in Toggled(Toggled(s, x), x) <==> y in s
    ensures x !in s ==> Toggled(Toggled(s, x), x) == s
  {
    if x !in s {
      DeleteAppended(s, x);
    }
  }

  /** `ids.forEach(id => set.add(id))`. */
  function AddAll(s: seq<TokenId>, ids: seq<TokenId>): (r: seq<TokenId>)
    ensures forall y :: y in r <==> y in s || y in ids
    ensures NoDuplicates(s) ==> NoDuplicates(r)
    decreases |ids|
  {
    if ids == [] then s
    else
      var r := SetAdd(AddAll(s, ids[..|ids| - 1]), ids[|ids| - 1]);
      assert forall y :: y in ids <==> y in ids[..|ids| - 1] || y == ids[|ids| - 1] by {
        assert ids == ids[..|ids| - 1] + [ids[|ids| - 1]];
      }
      r
  }

  /** toggleSelectAll: deselects everything when as many IDs are selected as
      are loaded, and otherwise selects exactly the loaded IDs. */
  function SelectAllToggled(selected: seq<TokenId>, loaded: seq<TokenId>): seq<TokenId> {
    if |selected| == |loaded| then [] else AddAll([], loaded)
  }

  /** Adding distinct new IDs appends them in order. */
  lemma {:induction false} AddAllDistinct(s: seq<TokenId>, ids: seq<TokenId>)
    requires NoDuplicates(ids)
    requires forall y :: y in ids ==> y !in s
    ensures AddAll(s, ids) == s + ids
    decreases |ids|
  {
    if ids != [] {
      var init := ids[..|ids| - 1];
      assert forall y :: y in init ==> y in ids;
      AddAllDistinct(s, init);
      assert ids[|ids| - 1] !in init;
      assert s + init + [ids[|ids| - 1]] == s + ids;
    }
  }

  /** What toggleSelectAll leaves: nothing, or exactly the loaded IDs. */
  lemma SelectAllContents(selected: seq<TokenId>, loaded: seq<TokenId>)
    ensures NoDuplicates(SelectAllToggled(selected, loaded))
    ensures |selected| == |loaded| ==> SelectAllToggled(selected, loaded) == []
    ensures |selected| != |loaded| ==>
      forall y :: y in SelectAllToggled(selected, loaded) <==> y in loaded
  {
  }

  /** Pressing the button twice, with distinct loaded IDs: a partial selection
      ends empty, a full one ends as all loaded IDs in loading order. */
  lemma SelectAllTwice(selected: seq<TokenId>, loaded: seq<TokenId>)
    requires NoDuplicates(loaded)
    ensures SelectAllToggled(SelectAllToggled(selected, loaded), loaded)
         == if |selected| == |loaded| && loaded != [] then loaded else []
  {
    AddAllDistinct([], loaded);
    assert [] + loaded == loaded;
  }

  // -----------------------------------------------------------------------
  // The ownership pass

  /** Why an ID is rejected, or None when the connected account owns it; owner
      and account are compared ignoring case. */
  function Verdict(chain: Contract, account: Address, tokenId: TokenId): Option<string> {
    match chain.ownerOf(tokenId)
    case Err(_) => Some(DOES_NOT_EXIST)
    case Ok(owner) => if SameAddress(owner, account) then None else Some(NOT_OWNED)
  }

  /** `validTokenIds`. */
  function ValidTokenIds(chain: Contract, account: Address, ids: seq<TokenId>): seq<TokenId>
    decreases |ids|
  {
    if ids == [] then []
    else
      var id := ids[|ids| - 1];
      ValidTokenIds(chain, account, ids[..|ids| - 1])
        + (if Verdict(chain, account, id) == None then [id] else [])
  }

  /** An entry of `invalidTokens`. */
  datatype Rejection = Rejection(tokenId: TokenId, message: string)

  /** `invalidTokens`. */
  function InvalidTokens(chain: Contract, account: Address, ids: seq<TokenId>): seq<Rejection>
    decreases |ids|
  {
    if ids == [] then []
    else
      var id := ids[|ids| - 1];
      InvalidTokens(chain, account, ids[..|ids| - 1])
        + (match Verdict(chain, account, id) case None => [] case Some(m) => [Rejection(id, m)])
  }

  function RejectedIds(invalid: seq<Rejection>): (r: seq<TokenId>)
    ensures |r| == |invalid|
  {
    if invalid == [] then [] else RejectedIds(invalid[..|invalid| - 1]) + [invalid[|invalid| - 1].tokenId]
  }

  lemma {:induction false} RejectedIdsAre(invalid: seq<Rejection>)
    ensures forall k :: 0 <= k < |invalid| ==> RejectedIds(invalid)[k] == invalid[k].tokenId
    decreases |invalid|
  {
    if invalid != [] {
      RejectedIdsAre(invalid[..|invalid| - 1]);
    }
  }

  /** The Skipped entries made from `invalidTokens`. */
  function SkippedEntries(invalid: seq<Rejection>): (r: seq<Entry>)
    ensures |r| == |invalid|
  {
    if invalid == [] then []
    else
      var last := invalid[|invalid| - 1];
      SkippedEntries(invalid[..|invalid| - 1]) + [SkippedEntry(last.tokenId, last.message)]
  }

  lemma {:induction false} SkippedEntriesAre(invalid: seq<Rejection>)
    ensures forall k :: 0 <= k < |invalid| ==>
      SkippedEntries(invalid)[k] == SkippedEntry(invalid[k].tokenId, invalid[k].message)
    decreases |invalid|
  {
    if invalid != [] {
      SkippedEntriesAre(invalid[..|invalid| - 1]);
    }
  }

  /** An ID is valid exactly when it was asked for and its owner is the
      account. */
  lemma {:induction false} ValidTokenIdsAre(chain: Contract, account: Address, ids: seq<TokenId>)
    ensures forall id :: id in ValidTokenIds(chain, account, ids) <==> id in ids && Verdict(chain, account, id) == None
    decreases |ids|
  {
    if ids != [] {
      var init, id := ids[..|ids| - 1], ids[|ids| - 1];
      ValidTokenIdsAre(chain, account, init);
      assert forall y :: y in ids <==> y in init || y == id by {
        assert ids == init + [id];
      }
    }
  }

  /** Every rejection names an ID that was asked for, with the reason for that
      ID; and every rejected ID has its rejection. */
  lemma {:induction false} InvalidTokensAre(chain: Contract, account: Address, ids: seq<TokenId>)
    ensures forall r :: r in InvalidTokens(chain, account, ids) ==>
      r.tokenId in ids && Verdict(chain, account, r.tokenId) == Some(r.message)
    ensures forall id :: id in ids && Verdict(chain, account, id) != None ==>
      Rejection(id, Verdict(chain, account, id).value) in InvalidTokens(chain, account, ids)
    decreases |ids|
  {
    if ids != [] {
      var init, id := ids[..|ids| - 1], ids[|ids| - 1];
      InvalidTokensAre(chain, account, init);
      assert forall y :: y in ids <==> y in init || y == id by {
        assert ids == init + [id];
      }
    }
  }

  /** The ownership pass sorts every ID into exactly one of the two lists. */
  lemma {:induction false} OwnershipSizes(chain: Contract, account: Address, ids: seq<TokenId>)
    ensures |ids| == |ValidTokenIds(chain, account, ids)| + |InvalidTokens(chain, account, ids)|
    decreases |ids|
  {
    if ids != [] {
      OwnershipSizes(chain, account, ids[..|ids| - 1]);
    }
  }

  /** No ID is lost or repeated: the valid and the rejected IDs together hold
      each ID as often as the input does. */
  lemma {:induction false} OwnershipCounts(chain: Contract, account: Address, ids: seq<TokenId>)
    ensures multiset(ids)
         == multiset(ValidTokenIds(chain, account, ids)) + multiset(RejectedIds(InvalidTokens(chain, account, ids)))
    decreases |ids|
  {
    if ids != [] {
      var init, id := ids[..|ids| - 1], ids[|ids| - 1];
      OwnershipCounts(chain, account, init);
      OwnershipStep(chain, account, ids);
      MultisetGrows(ids, init, ValidTokenIds(chain, account, ids), ValidTokenIds(chain, account, init),
                    RejectedIds(InvalidTokens(chain, account, ids)), RejectedIds(InvalidTokens(chain, account, init)),
                    id, Verdict(chain, account, id) == None);
    }
  }

  /** Appending one element to a sequence split into two parts, and the
      element to one of the parts, keeps the split. */
  lemma MultisetGrows<T>(s: seq<T>, s0: seq<T>, a: seq<T>, a0: seq<T>, b: seq<T>, b0: seq<T>, x: T, toA: bool)
    requires multiset(s0) == multiset(a0) + multiset(b0)
    requires s != [] && s0 == s[..|s| - 1] && x == s[|s| - 1]
    requires if toA then a == a0 + [x] && b == b0 else a == a0 && b == b0 + [x]
    ensures multiset(s) == multiset(a) + multiset(b)
  {
    assert s == s0 + [x];
  }

  /** What the last ID of the pass adds to each list. */
  lemma OwnershipStep(chain: Contract, account: Address, ids: seq<TokenId>)
    requires ids != []
    ensures var init, id := ids[..|ids| - 1], ids[|ids| - 1];
      if Verdict(chain, account, id) == None then
        ValidTokenIds(chain, account, ids) == ValidTokenIds(chain, account, init) + [id]
        && RejectedIds(InvalidTokens(chain, account, ids)) == RejectedIds(InvalidTokens(chain, account, init))
      else
        ValidTokenIds(chain, account, ids) == ValidTokenIds(chain, account, init)
        && RejectedIds(InvalidTokens(chain, account, ids)) == RejectedIds(InvalidTokens(chain, account, init)) + [id]
  {
    var init, id := ids[..|ids| - 1], ids[|ids| - 1];
    var valid0, invalid0 := ValidTokenIds(chain, account, init), InvalidTokens(chain, account, init);
    match Verdict(chain, account, id)
    case None =>
      assert InvalidTokens(chain, account, ids) == invalid0 + [];
      assert invalid0 + [] == invalid0;
    case Some(m) =>
      assert ValidTokenIds(chain, account, ids) == valid0 + [];
      assert valid0 + [] == valid0;
      assert InvalidTokens(chain, account, ids) == invalid0 + [Rejection(id, m)];
      RejectedIdsStep(invalid0, Rejection(id, m));
  }

  lemma RejectedIdsStep(invalid: seq<Rejection>, r: Rejection)
    ensures RejectedIds(invalid + [r]) == RejectedIds(invalid) + [r.tokenId]
  {
    assert (invalid + [r])[..|invalid|] == invalid;
  }

  /** The ownership pass keeps input order: the valid IDs of a concatenation
      are those of the parts, concatenated (and likewise the rejections). */
  lemma {:induction false} OwnershipKeepsOrder(chain: Contract, account: Address, a: seq<TokenId>, b: seq<TokenId>)
    ensures ValidTokenIds(chain, account, a + b) == ValidTokenIds(chain, account, a) + ValidTokenIds(chain, account, b)
    ensures InvalidTokens(chain, account, a + b) == InvalidTokens(chain, account, a) + InvalidTokens(chain, account, b)
    decreases |b|
  {
    if b == [] {
      assert a + b == a;
    } else {
      assert (a + b)[..|a + b| - 1] == a + b[..|b| - 1];
      OwnershipKeepsOrder(chain, account, a, b[..|b| - 1]);
    }
  }

  // -----------------------------------------------------------------------
  // The two batch mechanisms

  /** What one batch mechanism did: the receipt if it went through, and the
      requests it issued. */
  datatype Attempt = Attempt(receipt: Option<Receipt>, calls: seq<Request>)

  /** Estimate the batch transaction, then send it with the 30% margin. */
  function TryBatch(chain: Contract, tx: Tx): Attempt {
    match chain.estimateGas(tx)
    case Err(_) => Attempt(None, [EstimateGas(tx)])
    case Ok(estimate) =>
      var gas := BatchGasLimit(estimate);
      match chain.send(tx, gas)
      case Ok(receipt) => Attempt(Some(receipt), [EstimateGas(tx), Send(tx, gas)])
      case Err(_) => Attempt(None, [EstimateGas(tx), Send(tx, gas)])
  }

  /** `validTokenIds.map(id => safeTransferFrom(from, to, id).encodeABI())`. */
  function EncodedTransfers(from: Address, to: Address, ids: seq<TokenId>): (r: seq<Tx>)
    ensures |r| == |ids|
  {
    if ids == [] then [] else [SafeTransferFrom(from, to, ids[0])] + EncodedTransfers(from, to, ids[1..])
  }

  lemma {:induction false} EncodedTransfersAre(from: Address, to: Address, ids: seq<TokenId>)
    ensures forall k :: 0 <= k < |ids| ==> EncodedTransfers(from, to, ids)[k] == SafeTransferFrom(from, to, ids[k])
    decreases |ids|
  {
    if ids != [] {
      EncodedTransfersAre(from, to, ids[1..]);
    }
  }

  /** A batch mechanism that went through: the status it gives every ID, and
      its receipt. */
  datatype Landed = Landed(status: Status, receipt: Receipt)

  datatype BatchRun = BatchRun(landed: Option<Landed>, calls: seq<Request>)

  /** `safeBatchTransferFrom` first; `multicall` only when it failed. */
  function TryBatchMechanisms(chain: Contract, from: Address, to: Address, ids: seq<TokenId>): BatchRun {
    var first := TryBatch(chain, SafeBatchTransferFrom(from, to, ids));
    match first.receipt
    case Some(receipt) => BatchRun(Some(Landed(BatchTransferred, receipt)), first.calls)
    case None =>
      var second := TryBatch(chain, Multicall(EncodedTransfers(from, to, ids)));
      match second.receipt
      case Some(receipt) => BatchRun(Some(Landed(MulticallTransferred, receipt)), first.calls + second.calls)
      case None => BatchRun(None, first.calls + second.calls)
  }

  /** With `Math.floor(tx.gasUsed / n)` as the share of each of the n IDs,
      the shares add up to at most the gas of the transaction, and fall short
      of it by less than n. */
  lemma {:induction false} BatchGasShares(ids: seq<TokenId>, status: Status, txHash: string, gasUsed: nat)
    requires ids != []
    ensures SumGas(SentEntries(ids, status, txHash, gasUsed / |ids|)) <= gasUsed
    ensures gasUsed - SumGas(SentEntries(ids, status, txHash, gasUsed / |ids|)) < |ids|
  {
    SumGasSent(ids, status, txHash, gasUsed / |ids|);
    var n, q := |ids|, gasUsed / |ids|;
    assert n * q == q * n;
    assert gasUsed == n * q + gasUsed % n;
  }

  // -----------------------------------------------------------------------
  // One safeTransferFrom per ID

  datatype Step = Step(entry: Entry, calls: seq<Request>)

  /** Estimate, send with the 20% margin; either failure becomes a Failed
      entry with the normalised message. */
  function TransferOne(chain: Contract, from: Address, to: Address, tokenId: TokenId): Step {
    var tx := SafeTransferFrom(from, to, tokenId);
    match chain.estimateGas(tx)
    case Err(m) => Step(FailedEntry(tokenId, NormalizeError(m)), [EstimateGas(tx)])
    case Ok(estimate) =>
      var gas := SingleGasLimit(estimate);
      match chain.send(tx, gas)
      case Ok(receipt) =>
        Step(SentEntry(tokenId, Transferred, receipt.txHash, receipt.gasUsed), [EstimateGas(tx), Send(tx, gas)])
      case Err(m) =>
        Step(FailedEntry(tokenId, NormalizeError(m)), [EstimateGas(tx), Send(tx, gas)])
  }

  function IndividualEntries(chain: Contract, from: Address, to: Address, ids: seq<TokenId>): seq<Entry>
    decreases |ids|
  {
    if ids == [] then []
    else IndividualEntries(chain, from, to, ids[..|ids| - 1]) + [TransferOne(chain, from, to, ids[|ids| - 1]).entry]
  }

  function IndividualCalls(chain: Contract, from: Address, to: Address, ids: seq<TokenId>): seq<Request>
    decreases |ids|
  {
    if ids == [] then []
    else IndividualCalls(chain, from, to, ids[..|ids| - 1]) + TransferOne(chain, from, to, ids[|ids| - 1]).calls
  }

  /** The IDs of the Transferred entries, in order. */
  function TransferredIds(entries: seq<Entry>): seq<TokenId>
    decreases |entries|
  {
    if entries == [] then []
    else
      var e := entries[|entries| - 1];
      TransferredIds(entries[..|entries| - 1]) + (if e.status == Transferred then [e.tokenId] else [])
  }

  /** `ids.forEach(id => set.delete(id))`. */
  function RemoveAll(s: seq<TokenId>, ids: seq<TokenId>): (r: seq<TokenId>)
    ensures forall y :: y in r <==> y in s && y !in ids
    ensures NoDuplicates(s) ==> NoDuplicates(r)
    decreases |ids|
  {
    if ids == [] then s
    else
      var r := SetDelete(RemoveAll(s, ids[..|ids| - 1]), ids[|ids| - 1]);
      assert forall y :: y in ids <==> y in ids[..|ids| - 1] || y == ids[|ids| - 1] by {
        assert ids == ids[..|ids| - 1] + [ids[|ids| - 1]];
      }
      r
  }

  /** Deleting IDs one at a time removes exactly those IDs and keeps the
      order of the rest. */
  lemma {:induction false} RemoveAllIsWithout(s: seq<TokenId>, ids: seq<TokenId>)
    ensures RemoveAll(s, ids) == Without(s, ids)
    decreases |ids|
  {
    if ids == [] {
      WithoutNothing(s);
    } else {
      var init, x := ids[..|ids| - 1], ids[|ids| - 1];
      RemoveAllIsWithout(s, init);
      DeleteIsWithout(RemoveAll(s, init), x);
      WithoutOneMore(s, init, x);
      assert init + [x] == ids;
    }
  }

  lemma {:induction false} WithoutNothing(s: seq<TokenId>)
    ensures Without(s, []) == s
    decreases |s|
  {
    if s != [] {
      WithoutNothing(s[1..]);
    }
  }

  /** The individual fallback gives every ID exactly one entry, in order,
      Transferred with its own receipt or Failed with a normalised message. */
  lemma {:induction false} IndividualEntriesShape(chain: Contract, from: Address, to: Address, ids: seq<TokenId>)
    ensures |IndividualEntries(chain, from, to, ids)| == |ids|
    ensures forall k :: 0 <= k < |ids| ==>
      IndividualEntries(chain, from, to, ids)[k] == TransferOne(chain, from, to, ids[k]).entry
    ensures forall k :: 0 <= k < |ids| ==>
      var e := IndividualEntries(chain, from, to, ids)[k];
      e.tokenId == ids[k] && (e.status == Transferred || e.status == Failed)
    decreases |ids|
  {
    if ids != [] {
      IndividualEntriesShape(chain, from, to, ids[..|ids| - 1]);
    }
  }

  /** Only IDs whose own transfer went through count as transferred. */
  /** Some entry reports `id` as Transferred. */
  predicate WasTransferred(entries: seq<Entry>, id: TokenId) {
    exists k :: 0 <= k < |entries| && entries[k].tokenId == id && entries[k].status == Transferred
  }

  lemma {:induction false} TransferredIdsAre(entries: seq<Entry>)
    ensures forall id :: id in TransferredIds(entries) <==> WasTransferred(entries, id)
    decreases |entries|
  {
    if entries != [] {
      var init := entries[..|entries| - 1];
      TransferredIdsAre(init);
      assert forall k :: 0 <= k < |init| ==> init[k] == entries[k];
    }
  }

  /** Skipped entries in front change nothing about what was transferred. */
  lemma TransferredAfterSkips(skipped: seq<Entry>, entries: seq<Entry>)
    requires forall k :: 0 <= k < |skipped| ==> skipped[k].status == Skipped
    ensures forall id :: WasTransferred(skipped + entries, id) <==> WasTransferred(entries, id)
  {
    forall id ensures WasTransferred(skipped + entries, id) <==> WasTransferred(entries, id) {
      if WasTransferred(entries, id) {
        var k :| 0 <= k < |entries| && entries[k].tokenId == id && entries[k].status == Transferred;
        assert (skipped + entries)[|skipped| + k] == entries[k];
      }
      if WasTransferred(skipped + entries, id) {
        var k :| 0 <= k < |skipped + entries| && (skipped + entries)[k].tokenId == id
                 && (skipped + entries)[k].status == Transferred;
        assert k >= |skipped|;
        assert entries[k - |skipped|] == (skipped + entries)[k];
      }
    }
  }

  // -----------------------------------------------------------------------
  // Gas limits

  /** The margin a send gets: 20% for a single transfer, 30% for a batch. */
  function GasLimitFor(tx: Tx, estimate: nat): nat {
    if tx.SafeTransferFrom? then SingleGasLimit(estimate) else BatchGasLimit(estimate)
  }

  /** Every send is preceded directly by a successful estimate of the same
      transaction, and its gas limit is that estimate plus the margin. */
  predicate SendsAreEstimated(chain: Contract, calls: seq<Request>) {
    forall k :: 0 <= k < |calls| && calls[k].Send? ==>
      k > 0 && calls[k - 1] == EstimateGas(calls[k].tx)
      && chain.estimateGas(calls[k].tx).Ok?
      && calls[k].gasLimit == GasLimitFor(calls[k].tx, chain.estimateGas(calls[k].tx).value)
  }

  lemma SendsAreEstimatedAppend(chain: Contract, a: seq<Request>, b: seq<Request>)
    requires SendsAreEstimated(chain, a) && SendsAreEstimated(chain, b)
    requires b == [] || !b[0].Send?
    ensures SendsAreEstimated(chain, a + b)
  {
    forall k | 0 <= k < |a + b| && (a + b)[k].Send?
      ensures k > 0 && (a + b)[k - 1] == EstimateGas((a + b)[k].tx)
    {
      if k >= |a| {
        assert (a + b)[k] == b[k - |a|];
        if k > |a| {
          assert (a + b)[k - 1] == b[k - 1 - |a|];
        }
      }
    }
  }

  /** One single transfer estimates before it sends, with the 20% margin. */
  lemma TransferOneEstimated(chain: Contract, from: Address, to: Address, tokenId: TokenId)
    ensures var calls := TransferOne(chain, from, to, tokenId).calls;
      SendsAreEstimated(chain, calls) && calls != [] && !calls[0].Send?
  {
  }

  lemma {:induction false} IndividualCallsEstimated(chain: Contract, from: Address, to: Address, ids: seq<TokenId>)
    ensures SendsAreEstimated(chain, IndividualCalls(chain, from, to, ids))
    ensures IndividualCalls(chain, from, to, ids) == [] || !IndividualCalls(chain, from, to, ids)[0].Send?
    decreases |ids|
  {
    if ids != [] {
      IndividualCallsEstimated(chain, from, to, ids[..|ids| - 1]);
      TransferOneEstimated(chain, from, to, ids[|ids| - 1]);
      SendsAreEstimatedAppend(chain, IndividualCalls(chain, from, to, ids[..|ids| - 1]),
        TransferOne(chain, from, to, ids[|ids| - 1]).calls);
    }
  }

  lemma BatchCallsEstimated(chain: Contract, from: Address, to: Address, ids: seq<TokenId>)
    ensures SendsAreEstimated(chain, TryBatchMechanisms(chain, from, to, ids).calls)
    ensures TryBatchMechanisms(chain, from, to, ids).calls[0].EstimateGas?
  {
    var first := TryBatch(chain, SafeBatchTransferFrom(from, to, ids));
    if first.receipt.None? {
      var second := TryBatch(chain, Multicall(EncodedTransfers(from, to, ids)));
      SendsAreEstimatedAppend(chain, first.calls, second.calls);
    }
  }

  // -----------------------------------------------------------------------
  // A whole run of transferNFTs

  /** Where a run ends. */
  datatype Stop =
    | MissingInput      // no recipient, or no token IDs and nothing selected
    | InvalidAddress    // isAddress rejected the recipient
    | NoTokenIds        // the field held only commas and whitespace
    | ZeroRecipient     // the zero address, in any letter case
    | NoValidTokens     // no parsed ID is owned by the account
    | BatchDone         // a batch mechanism went through
    | Completed         // the individual transfers ran

  /** What a run leaves behind: `results`, every request to the contract in
      order, and `selectedNFTs`. */
  datatype Report = Report(stop: Stop, results: seq<Entry>, calls: seq<Request>, selected: seq<TokenId>)

  predicate IsEarlyStop(stop: Stop) {
    stop == MissingInput || stop == InvalidAddress || stop == NoTokenIds || stop == ZeroRecipient
  }

  /** The tokenIds field, or the selection joined with ',' when the field is empty. */
  function TokenIdsInput(selected: seq<TokenId>, tokenIdsField: string): string {
    var typed := Trim(tokenIdsField);
    if typed == [] && |selected| > 0 then Join(selected, ',') else typed
  }

  /** The input checks of transferNFTs, in order: the stop of the first one
      that fails, or None when they all pass. */
  function InputCheck(selected: seq<TokenId>, recipientField: string, tokenIdsField: string,
                      isAddress: string -> bool): Option<Stop>
  {
    var recipient := Trim(recipientField);
    var input := TokenIdsInput(selected, tokenIdsField);
    if recipient == [] || input == [] then Some(MissingInput)
    else if !isAddress(recipient) then Some(InvalidAddress)
    else if ParseTokenIds(input) == [] then Some(NoTokenIds)
    else if ToLower(recipient) == ZERO_ADDRESS then Some(ZeroRecipient)
    else None
  }

  /** transferNFTs; `isAddress` is web3.utils.isAddress. */
  function Run(account: Address, selected: seq<TokenId>, recipientField: string, tokenIdsField: string,
               isAddress: string -> bool, chain: Contract): Report
  {
    match InputCheck(selected, recipientField, tokenIdsField, isAddress)
    case Some(stop) => Report(stop, [], [], selected)
    case None => Transfer(account, selected, Trim(recipientField), ParseTokenIds(TokenIdsInput(selected, tokenIdsField)), chain)
  }

  /** The part of transferNFTs after the input checks. */
  function Transfer(account: Address, selected: seq<TokenId>, recipient: Address, ids: seq<TokenId>,
                    chain: Contract): Report
  {
    var valid := ValidTokenIds(chain, account, ids);
    var skipped := SkippedEntries(InvalidTokens(chain, account, ids));
    var checks := OwnerQueries(ids);
    if valid == [] then Report(NoValidTokens, skipped, checks, selected)
    else
      var probed := checks + [EstimateGas(SafeBatchTransferFrom(account, recipient, []))];
      var batch := if |valid| > 1 then TryBatchMechanisms(chain, account, recipient, valid) else BatchRun(None, []);
      match batch.landed
      case Some(l) =>
        Report(BatchDone,
               skipped + SentEntries(valid, l.status, l.receipt.txHash, l.receipt.gasUsed / |valid|),
               probed + batch.calls,
               RemoveAll(selected, valid))
      case None =>
        var entries := IndividualEntries(chain, account, recipient, valid);
        Report(Completed,
               skipped + entries,
               probed + batch.calls + IndividualCalls(chain, account, recipient, valid),
               RemoveAll(selected, TransferredIds(entries)))
  }

  /** Every input check of transferNFTs passes. */
  predicate InputsAccepted(selected: seq<TokenId>, recipientField: string, tokenIdsField: string,
                           isAddress: string -> bool)
  {
    InputCheck(selected, recipientField, tokenIdsField, isAddress) == None
  }

  /** The two ways Run ends, each as one equation. */
  lemma RunAccepted(account: Address, selected: seq<TokenId>, recipientField: string, tokenIdsField: string,
                    isAddress: string -> bool, chain: Contract)
    requires InputsAccepted(selected, recipientField, tokenIdsField, isAddress)
    ensures Run(account, selected, recipientField, tokenIdsField, isAddress, chain)
         == Transfer(account, selected, Trim(recipientField), ParseTokenIds(TokenIdsInput(selected, tokenIdsField)), chain)
  {
  }

  lemma RunRejected(account: Address, selected: seq<TokenId>, recipientField: string, tokenIdsField: string,
                    isAddress: string -> bool, chain: Contract)
    requires !InputsAccepted(selected, recipientField, tokenIdsField, isAddress)
    ensures var r := Run(account, selected, recipientField, tokenIdsField, isAddress, chain);
      Some(r.stop) == InputCheck(selected, recipientField, tokenIdsField, isAddress)
      && IsEarlyStop(r.stop) && r.results == [] && r.calls == [] && r.selected == selected
  {
  }

  // -----------------------------------------------------------------------
  // Properties of a run

  /** Past the input checks, a run with at least one parsed ID always asks
      the contract something and always reports something. */
  lemma TransferDoesSomething(account: Address, selected: seq<TokenId>, recipient: Address,
                              ids: seq<TokenId>, chain: Contract)
    requires ids != []
    ensures var r := Transfer(account, selected, recipient, ids, chain);
      !IsEarlyStop(r.stop) && r.calls != [] && r.results != []
  {
    var valid := ValidTokenIds(chain, account, ids);
    if valid == [] {
      OwnershipSizes(chain, account, ids);
      TransferWithoutValidIds(account, selected, recipient, ids, chain);
    } else if |valid| > 1 && TryBatchMechanisms(chain, account, recipient, valid).landed.Some? {
      TransferWithBatch(account, selected, recipient, ids, chain);
    } else {
      TransferWithoutBatch(account, selected, recipient, ids, chain);
    }
  }

  /** The input checks end the run before any request, with no entries and
      the selection untouched; a run that passes them always yields entries
      and issues requests. */
  lemma EarlyStopIffNothingHappens(account: Address, selected: seq<TokenId>, recipientField: string,
                                   tokenIdsField: string, isAddress: string -> bool, chain: Contract)
    ensures var r := Run(account, selected, recipientField, tokenIdsField, isAddress, chain);
      (IsEarlyStop(r.stop) <==> r.calls == []) && (IsEarlyStop(r.stop) <==> r.results == [])
      && (IsEarlyStop(r.stop) ==> r.selected == selected)
  {
    if InputsAccepted(selected, recipientField, tokenIdsField, isAddress) {
      RunAccepted(account, selected, recipientField, tokenIdsField, isAddress, chain);
      TransferDoesSomething(account, selected, Trim(recipientField),
                            ParseTokenIds(TokenIdsInput(selected, tokenIdsField)), chain);
    } else {
      RunRejected(account, selected, recipientField, tokenIdsField, isAddress, chain);
    }
  }

  /** A recipient that is, ignoring case, the zero address ends the run
      before any `ownerOf` call, with no entries. */
  lemma ZeroRecipientMakesNoCalls(account: Address, selected: seq<TokenId>, recipientField: string,
                                  tokenIdsField: string, isAddress: string -> bool, chain: Contract)
    requires ToLower(Trim(recipientField)) == ZERO_ADDRESS
    ensures var r := Run(account, selected, recipientField, tokenIdsField, isAddress, chain);
      r.calls == [] && r.results == [] && r.selected == selected
  {
    RunRejected(account, selected, recipientField, tokenIdsField, isAddress, chain);
  }

  /** After the input checks, the run first asks `ownerOf` for every parsed
      ID in order, and its results begin with one Skipped entry per rejected
      ID, in order; when no ID is valid that is all there is. */
  lemma OwnershipPassComesFirst(account: Address, selected: seq<TokenId>, recipient: Address,
                                ids: seq<TokenId>, chain: Contract)
    ensures var r := Transfer(account, selected, recipient, ids, chain);
      var invalid := InvalidTokens(chain, account, ids);
      OwnerQueries(ids) <= r.calls && SkippedEntries(invalid) <= r.results
      && forall k :: 0 <= k < |invalid| ==> r.results[k].status == Skipped
  {
    var valid := ValidTokenIds(chain, account, ids);
    var invalid := InvalidTokens(chain, account, ids);
    var skipped := SkippedEntries(invalid);
    var probed := OwnerQueries(ids) + [EstimateGas(SafeBatchTransferFrom(account, recipient, []))];
    SkippedEntriesAre(invalid);
    PrefixOfAppend(OwnerQueries(ids), [EstimateGas(SafeBatchTransferFrom(account, recipient, []))]);
    if valid == [] {
      TransferWithoutValidIds(account, selected, recipient, ids, chain);
    } else if |valid| > 1 && TryBatchMechanisms(chain, account, recipient, valid).landed.Some? {
      var batch := TryBatchMechanisms(chain, account, recipient, valid);
      var l := batch.landed.value;
      TransferWithBatch(account, selected, recipient, ids, chain);
      PrefixOfAppend(skipped, SentEntries(valid, l.status, l.receipt.txHash, l.receipt.gasUsed / |valid|));
      PrefixKept(OwnerQueries(ids), probed, batch.calls);
    } else {
      var batchCalls := if |valid| > 1 then TryBatchMechanisms(chain, account, recipient, valid).calls else [];
      TransferWithoutBatch(account, selected, recipient, ids, chain);
      PrefixOfAppend(skipped, IndividualEntries(chain, account, recipient, valid));
      PrefixKept(OwnerQueries(ids), probed, batchCalls);
      PrefixKept(OwnerQueries(ids), probed + batchCalls, IndividualCalls(chain, account, recipient, valid));
    }
  }

  lemma NoValidTokensEndsWithSkips(account: Address, selected: seq<TokenId>, recipient: Address,
                                   ids: seq<TokenId>, chain: Contract)
    requires ValidTokenIds(chain, account, ids) == []
    ensures var r := Transfer(account, selected, recipient, ids, chain);
      r.stop == NoValidTokens && r.results == SkippedEntries(InvalidTokens(chain, account, ids))
      && |r.results| == |ids| && r.calls == OwnerQueries(ids) && r.selected == selected
  {
    OwnershipSizes(chain, account, ids);
  }

  /** A request that belongs to a batch mechanism (not the empty probe). */
  predicate IsBatchRequest(q: Request) {
    (q.EstimateGas? || q.Send?)
    && ((q.tx.SafeBatchTransferFrom? && q.tx.tokenIds != []) || q.tx.Multicall?)
  }

  predicate IsSingleTransfer(q: Request) {
    (q.EstimateGas? || q.Send?) && q.tx.SafeTransferFrom?
  }

  lemma {:induction false} IndividualCallsAreSingle(chain: Contract, from: Address, to: Address, ids: seq<TokenId>)
    ensures forall q :: q in IndividualCalls(chain, from, to, ids) ==> IsSingleTransfer(q) && q.tx.tokenId in ids
    decreases |ids|
  {
    if ids != [] {
      IndividualCallsAreSingle(chain, from, to, ids[..|ids| - 1]);
    }
  }

  /** The three ways Transfer ends, each as one equation. */
  lemma TransferWithoutValidIds(account: Address, selected: seq<TokenId>, recipient: Address,
                                ids: seq<TokenId>, chain: Contract)
    requires ValidTokenIds(chain, account, ids) == []
    ensures Transfer(account, selected, recipient, ids, chain)
         == Report(NoValidTokens, SkippedEntries(InvalidTokens(chain, account, ids)), OwnerQueries(ids), selected)
  {
  }

  lemma TransferWithBatch(account: Address, selected: seq<TokenId>, recipient: Address,
                          ids: seq<TokenId>, chain: Contract)
    requires var valid := ValidTokenIds(chain, account, ids);
      |valid| > 1 && TryBatchMechanisms(chain, account, recipient, valid).landed.Some?
    ensures var valid := ValidTokenIds(chain, account, ids);
      var batch := TryBatchMechanisms(chain, account, recipient, valid);
      var l := batch.landed.value;
      Transfer(account, selected, recipient, ids, chain)
      == Report(BatchDone,
                SkippedEntries(InvalidTokens(chain, account, ids))
                + SentEntries(valid, l.status, l.receipt.txHash, l.receipt.gasUsed / |valid|),
                OwnerQueries(ids) + [EstimateGas(SafeBatchTransferFrom(account, recipient, []))] + batch.calls,
                RemoveAll(selected, valid))
  {
  }

  lemma TransferWithoutBatch(account: Address, selected: seq<TokenId>, recipient: Address,
                             ids: seq<TokenId>, chain: Contract)
    requires var valid := ValidTokenIds(chain, account, ids);
      valid != [] && (|valid| > 1 ==> TryBatchMechanisms(chain, account, recipient, valid).landed == None)
    ensures var valid := ValidTokenIds(chain, account, ids);
      var calls := OwnerQueries(ids) + [EstimateGas(SafeBatchTransferFrom(account, recipient, []))]
                   + (if |valid| > 1 then TryBatchMechanisms(chain, account, recipient, valid).calls else []);
      var entries := IndividualEntries(chain, account, recipient, valid);
      Transfer(account, selected, recipient, ids, chain)
      == Report(Completed,
                SkippedEntries(InvalidTokens(chain, account, ids)) + entries,
                calls + IndividualCalls(chain, account, recipient, valid),
                RemoveAll(selected, TransferredIds(entries)))
  {
  }

  /** What a run whose batch went through leaves behind. */
  lemma BatchDoneIs(account: Address, selected: seq<TokenId>, recipient: Address,
                    ids: seq<TokenId>, chain: Contract)
    requires Transfer(account, selected, recipient, ids, chain).stop == BatchDone
    ensures var r := Transfer(account, selected, recipient, ids, chain);
      var valid := ValidTokenIds(chain, account, ids);
      var batch := TryBatchMechanisms(chain, account, recipient, valid);
      |valid| > 1 && batch.landed.Some?
      && r.results == SkippedEntries(InvalidTokens(chain, account, ids))
                      + SentEntries(valid, batch.landed.value.status, batch.landed.value.receipt.txHash,
                                     batch.landed.value.receipt.gasUsed / |valid|)
      && r.calls == OwnerQueries(ids) + [EstimateGas(SafeBatchTransferFrom(account, recipient, []))] + batch.calls
      && r.selected == RemoveAll(selected, valid)
  {
  }

  /** A run with at most one valid ID never tries a batch mechanism. */
  lemma SingleIdNeverBatches(account: Address, selected: seq<TokenId>, recipient: Address,
                             ids: seq<TokenId>, chain: Contract)
    requires |ValidTokenIds(chain, account, ids)| <= 1
    ensures forall q :: q in Transfer(account, selected, recipient, ids, chain).calls ==> !IsBatchRequest(q)
  {
    var valid := ValidTokenIds(chain, account, ids);
    OwnerQueriesOnly(ids);
    if valid == [] {
      TransferWithoutValidIds(account, selected, recipient, ids, chain);
    } else {
      TransferWithoutBatch(account, selected, recipient, ids, chain);
      IndividualCallsAreSingle(chain, account, recipient, valid);
    }
  }

  /** `multicall` is estimated or sent only after `safeBatchTransferFrom`
      failed for the same IDs. */
  lemma MulticallOnlyAfterBatchFails(chain: Contract, from: Address, to: Address, ids: seq<TokenId>)
    requires exists q :: q in TryBatchMechanisms(chain, from, to, ids).calls && q.tx.Multicall?
    ensures TryBatch(chain, SafeBatchTransferFrom(from, to, ids)).receipt == None
  {
  }

  /** A batch mechanism asks only about batch transactions. */
  lemma BatchCallsAreBatch(chain: Contract, from: Address, to: Address, ids: seq<TokenId>)
    ensures forall q :: q in TryBatchMechanisms(chain, from, to, ids).calls ==>
      (q.EstimateGas? || q.Send?) && (q.tx == SafeBatchTransferFrom(from, to, ids) || q.tx.Multicall?)
  {
  }

  /** A batch that went through ends the run without any single transfer. */
  lemma BatchDoneSendsNoSingles(account: Address, selected: seq<TokenId>, recipient: Address,
                                ids: seq<TokenId>, chain: Contract)
    requires Transfer(account, selected, recipient, ids, chain).stop == BatchDone
    ensures forall q :: q in Transfer(account, selected, recipient, ids, chain).calls ==> !IsSingleTransfer(q)
  {
    var valid := ValidTokenIds(chain, account, ids);
    var probed := OwnerQueries(ids) + [EstimateGas(SafeBatchTransferFrom(account, recipient, []))];
    BatchDoneIs(account, selected, recipient, ids, chain);
    BatchCallsAreBatch(chain, account, recipient, valid);
    OwnerQueriesOnly(ids);
  }

  /** A batch that went through gives every valid ID one entry after the
      Skipped ones, all with its hash and the floor of its gas over the
      number of IDs (see SentEntries), adding up to at most its gas and
      missing less than one unit per ID; every valid ID leaves the selection
      and nothing else does. */
  lemma BatchSuccessReport(account: Address, selected: seq<TokenId>, recipient: Address,
                           ids: seq<TokenId>, chain: Contract)
    requires Transfer(account, selected, recipient, ids, chain).stop == BatchDone
    ensures var r := Transfer(account, selected, recipient, ids, chain);
      var valid := ValidTokenIds(chain, account, ids);
      var l := TryBatchMechanisms(chain, account, recipient, valid).landed.value;
      SumGas(r.results) <= l.receipt.gasUsed
      && l.receipt.gasUsed - SumGas(r.results) < |valid|
      && (forall y :: y in r.selected <==> y in selected && y !in valid)
  {
    var valid := ValidTokenIds(chain, account, ids);
    var skipped := SkippedEntries(InvalidTokens(chain, account, ids));
    var l := TryBatchMechanisms(chain, account, recipient, valid).landed.value;
    var batch := SentEntries(valid, l.status, l.receipt.txHash, l.receipt.gasUsed / |valid|);
    BatchDoneIs(account, selected, recipient, ids, chain);
    SumGasAppend(skipped, batch);
    SkippedEntriesAre(InvalidTokens(chain, account, ids));
    SumGasWithoutGas(skipped);
    BatchGasShares(valid, l.status, l.receipt.txHash, l.receipt.gasUsed);
  }

  /** What a run that fell back to single transfers leaves behind. */
  lemma CompletedIs(account: Address, selected: seq<TokenId>, recipient: Address,
                    ids: seq<TokenId>, chain: Contract)
    requires Transfer(account, selected, recipient, ids, chain).stop == Completed
    ensures var r := Transfer(account, selected, recipient, ids, chain);
      var valid := ValidTokenIds(chain, account, ids);
      var entries := IndividualEntries(chain, account, recipient, valid);
      valid != []
      && (|valid| > 1 ==> TryBatchMechanisms(chain, account, recipient, valid).landed == None)
      && r.results == SkippedEntries(InvalidTokens(chain, account, ids)) + entries
      && r.selected == RemoveAll(selected, TransferredIds(entries))
  {
  }

  /** Without a batch, the run adds exactly the entries of the single
      transfers (one per valid ID, see IndividualEntriesShape) after the
      Skipped ones; only IDs reported Transferred leave the selection. */
  lemma IndividualReport(account: Address, selected: seq<TokenId>, recipient: Address,
                         ids: seq<TokenId>, chain: Contract)
    requires Transfer(account, selected, recipient, ids, chain).stop == Completed
    ensures var r := Transfer(account, selected, recipient, ids, chain);
      var valid := ValidTokenIds(chain, account, ids);
      var skipped := SkippedEntries(InvalidTokens(chain, account, ids));
      r.results == skipped + IndividualEntries(chain, account, recipient, valid)
      && |r.results| == |skipped| + |valid|
      && (forall y :: y in r.selected <==> y in selected && !WasTransferred(r.results, y))
  {
    var valid := ValidTokenIds(chain, account, ids);
    var skipped := SkippedEntries(InvalidTokens(chain, account, ids));
    var entries := IndividualEntries(chain, account, recipient, valid);
    IndividualEntriesShape(chain, account, recipient, valid);
    TransferredIdsAre(entries);
    SkippedEntriesAre(InvalidTokens(chain, account, ids));
    TransferredAfterSkips(skipped, entries);
    CompletedIs(account, selected, recipient, ids, chain);
  }

  /** When every batch mechanism fails, the entries are those of the
      individual transfers alone: no ID lost or repeated. */
  lemma FailedBatchesFallBackToIndividual(account: Address, selected: seq<TokenId>, recipient: Address,
                                         ids: seq<TokenId>, chain: Contract)
    requires var valid := ValidTokenIds(chain, account, ids);
      valid != [] && TryBatchMechanisms(chain, account, recipient, valid).landed == None
    ensures var r := Transfer(account, selected, recipient, ids, chain);
      var valid := ValidTokenIds(chain, account, ids);
      r.stop == Completed
      && r.results == SkippedEntries(InvalidTokens(chain, account, ids)) + IndividualEntries(chain, account, recipient, valid)
  {
  }

  lemma TransferSendsAreEstimated(account: Address, selected: seq<TokenId>, recipient: Address,
                                  ids: seq<TokenId>, chain: Contract)
    ensures SendsAreEstimated(chain, Transfer(account, selected, recipient, ids, chain).calls)
  {
    var r := Transfer(account, selected, recipient, ids, chain);
    var valid := ValidTokenIds(chain, account, ids);
    var checks := OwnerQueries(ids);
    var probe := [EstimateGas(SafeBatchTransferFrom(account, recipient, []))];
    OwnerQueriesAre(ids);
    SendsAreEstimatedAppend(chain, checks, probe);
    if r.stop == BatchDone {
      BatchDoneIs(account, selected, recipient, ids, chain);
      BatchCallsEstimated(chain, account, recipient, valid);
      SendsAreEstimatedAppend(chain, checks + probe, TryBatchMechanisms(chain, account, recipient, valid).calls);
    } else if r.stop == Completed {
      var batch := if |valid| > 1 then TryBatchMechanisms(chain, account, recipient, valid) else BatchRun(None, []);
      if |valid| > 1 {
        BatchCallsEstimated(chain, account, recipient, valid);
      }
      SendsAreEstimatedAppend(chain, checks + probe, batch.calls);
      IndividualCallsEstimated(chain, account, recipient, valid);
      SendsAreEstimatedAppend(chain, checks + probe + batch.calls, IndividualCalls(chain, account, recipient, valid));
      assert r.calls == checks + probe + batch.calls + IndividualCalls(chain, account, recipient, valid);
    }
  }

  /** Every send of a run was estimated right before it, and carries the
      estimate plus 30% (batch) or 20% (single), rounded up. */
  lemma RunSendsAreEstimated(account: Address, selected: seq<TokenId>, recipientField: string,
                             tokenIdsField: string, isAddress: string -> bool, chain: Contract)
    ensures SendsAreEstimated(chain, Run(account, selected, recipientField, tokenIdsField, isAddress, chain).calls)
  {
    if InputsAccepted(selected, recipientField, tokenIdsField, isAddress) {
      RunAccepted(account, selected, recipientField, tokenIdsField, isAddress, chain);
      TransferSendsAreEstimated(account, selected, Trim(recipientField),
                                ParseTokenIds(TokenIdsInput(selected, tokenIdsField)), chain);
    } else {
      RunRejected(account, selected, recipientField, tokenIdsField, isAddress, chain);
    }
  }

  lemma IndividualStep(chain: Contract, from: Address, to: Address, ids: seq<TokenId>, i: nat)
    requires i < |ids|
    ensures IndividualEntries(chain, from, to, ids[..i + 1])
         == IndividualEntries(chain, from, to, ids[..i]) + [TransferOne(chain, from, to, ids[i]).entry]
    ensures IndividualCalls(chain, from, to, ids[..i + 1])
         == IndividualCalls(chain, from, to, ids[..i]) + TransferOne(chain, from, to, ids[i]).calls
  {
    assert ids[..i + 1][..i] == ids[..i];
  }

  lemma TransferredIdsStep(entries: seq<Entry>, entry: Entry)
    ensures TransferredIds(entries + [entry])
         == TransferredIds(entries) + (if entry.status == Transferred then [entry.tokenId] else [])
  {
    assert (entries + [entry])[..|entries|] == entries;
  }

  lemma RemoveAllStep(s: seq<TokenId>, ids: seq<TokenId>, x: TokenId)
    ensures RemoveAll(s, ids + [x]) == SetDelete(RemoveAll(s, ids), x)
  {
    assert (ids + [x])[..|ids|] == ids;
  }

  /** One more turn of the individual loop: what it appends to the results
      and to the requests, and what it takes out of the selection, keeps
      each of them equal to its specification on one more ID. */
  lemma IndividualLoopStep(chain: Contract, from: Address, to: Address, ids: seq<TokenId>, i: nat,
                           results: seq<Entry>, outResults: seq<Entry>, calls: seq<Request>, outCalls: seq<Request>,
                           selected: seq<TokenId>, current: seq<TokenId>, entry: Entry, stepCalls: seq<Request>)
    requires i < |ids|
    requires outResults == results + IndividualEntries(chain, from, to, ids[..i])
    requires outCalls == calls + IndividualCalls(chain, from, to, ids[..i])
    requires current == RemoveAll(selected, TransferredIds(IndividualEntries(chain, from, to, ids[..i])))
    requires Step(entry, stepCalls) == TransferOne(chain, from, to, ids[i])
    ensures outResults + [entry] == results + IndividualEntries(chain, from, to, ids[..i + 1])
    ensures outCalls + stepCalls == calls + IndividualCalls(chain, from, to, ids[..i + 1])
    ensures (if entry.status == Transferred then SetDelete(current, ids[i]) else current)
         == RemoveAll(selected, TransferredIds(IndividualEntries(chain, from, to, ids[..i + 1])))
  {
    var before := IndividualEntries(chain, from, to, ids[..i]);
    IndividualStep(chain, from, to, ids, i);
    AppendAssoc(results, before, [entry]);
    AppendAssoc(calls, IndividualCalls(chain, from, to, ids[..i]), stepCalls);
    TransferredIdsStep(before, entry);
    if entry.status == Transferred {
      RemoveAllStep(selected, TransferredIds(before), ids[i]);
    } else {
      assert TransferredIds(before) + [] == TransferredIds(before);
    }
  }

  // -----------------------------------------------------------------------
  // The dashboard's state

  class Dashboard {
    /** `accounts[0]`, the connected account. */
    const account: Address
    /** `selectedNFTs`. */
    var selected: seq<TokenId>
    /** The token IDs of `userNFTs`, as loadUserNFTs left them. */
    var loaded: seq<TokenId>

    ghost predicate Valid()
      reads this
    {
      NoDuplicates(selected)
    }

    constructor (account: Address, loaded: seq<TokenId>)
      ensures Valid()
      ensures this.account == account && selected == [] && this.loaded == loaded
    {
      this.account := account;
      selected := [];
      this.loaded := loaded;
    }

    method ToggleNFTSelection(tokenId: TokenId)
      requires Valid()
      modifies this`selected
      ensures Valid()
      ensures selected == Toggled(old(selected), tokenId)
    {
      if tokenId in selected {
        selected := SetDelete(selected, tokenId);
      } else {
        selected := selected + [tokenId];
      }
    }

    method ToggleSelectAll()
      requires Valid()
      modifies this`selected
      ensures Valid()
      ensures selected == SelectAllToggled(old(selected), loaded)
    {
      if |selected| == |loaded| {
        selected := [];
      } else {
        selected := [];
        var i := 0;
        while i < |loaded|
          invariant 0 <= i <= |loaded|
          invariant selected == AddAll([], loaded[..i])
        {
          assert loaded[..i + 1][..i] == loaded[..i];
          selected := SetAdd(selected, loaded[i]);
          i := i + 1;
        }
        assert loaded[..i] == loaded;
      }
    }

    /** The ownership loop: one `ownerOf` per ID, in order. */
    method CheckOwnership(chain: Contract, tokenIds: seq<TokenId>)
      returns (validTokenIds: seq<TokenId>, invalidTokens: seq<Rejection>, calls: seq<Request>)
      ensures validTokenIds == ValidTokenIds(chain, account, tokenIds)
      ensures invalidTokens == InvalidTokens(chain, account, tokenIds)
      ensures calls == OwnerQueries(tokenIds)
    {
      validTokenIds, invalidTokens, calls := [], [], [];
      var i := 0;
      while i < |tokenIds|
        invariant 0 <= i <= |tokenIds|
        invariant validTokenIds == ValidTokenIds(chain, account, tokenIds[..i])
        invariant invalidTokens == InvalidTokens(chain, account, tokenIds[..i])
        invariant calls == OwnerQueries(tokenIds[..i])
      {
        var tokenId := tokenIds[i];
        assert tokenIds[..i + 1][..i] == tokenIds[..i];
        calls := calls + [OwnerOf(tokenId)];
        match chain.ownerOf(tokenId) {
          case Ok(owner) =>
            if ToLower(owner) == ToLower(account) {
              validTokenIds := validTokenIds + [tokenId];
            } else {
              invalidTokens := invalidTokens + [Rejection(tokenId, NOT_OWNED)];
            }
          case Err(_) =>
            invalidTokens := invalidTokens + [Rejection(tokenId, DOES_NOT_EXIST)];
        }
        i := i + 1;
      }
      assert tokenIds[..i] == tokenIds;
    }

    /** `invalidTokens.forEach(...)`: one Skipped entry each. */
    static method PushSkipped(results: seq<Entry>, invalidTokens: seq<Rejection>) returns (out: seq<Entry>)
      ensures out == results + SkippedEntries(invalidTokens)
    {
      out := results;
      var i := 0;
      while i < |invalidTokens|
        invariant 0 <= i <= |invalidTokens|
        invariant out == results + SkippedEntries(invalidTokens[..i])
      {
        assert invalidTokens[..i + 1][..i] == invalidTokens[..i];
        out := out + [SkippedEntry(invalidTokens[i].tokenId, invalidTokens[i].message)];
        i := i + 1;
      }
      assert invalidTokens[..i] == invalidTokens;
    }

    /** `validTokenIds.forEach(...)` after a batch went through: one entry
      per ID with the shared hash and gas share, and the ID leaves the
      selection. */
    method RecordBatch(results: seq<Entry>, validTokenIds: seq<TokenId>, status: Status, receipt: Receipt)
      returns (out: seq<Entry>)
      requires Valid() && validTokenIds != []
      modifies this`selected
      ensures Valid()
      ensures out == results + SentEntries(validTokenIds, status, receipt.txHash, receipt.gasUsed / |validTokenIds|)
      ensures selected == RemoveAll(old(selected), validTokenIds)
    {
      out := results;
      var share := receipt.gasUsed / |validTokenIds|;
      var i := 0;
      while i < |validTokenIds|
        invariant 0 <= i <= |validTokenIds|
        invariant Valid()
        invariant out == results + SentEntries(validTokenIds[..i], status, receipt.txHash, share)
        invariant selected == RemoveAll(old(selected), validTokenIds[..i])
      {
        assert validTokenIds[..i + 1][..i] == validTokenIds[..i];
        out := out + [SentEntry(validTokenIds[i], status, receipt.txHash, share)];
        selected := SetDelete(selected, validTokenIds[i]);
        i := i + 1;
      }
      assert validTokenIds[..i] == validTokenIds;
    }

    /** The body of the individual loop for one ID: estimate, send with the
      20% margin, and turn an error into a Failed entry. */
    static method TransferOneToken(chain: Contract, from: Address, to: Address, tokenId: TokenId)
      returns (entry: Entry, calls: seq<Request>)
      ensures Step(entry, calls) == TransferOne(chain, from, to, tokenId)
    {
      var tx := SafeTransferFrom(from, to, tokenId);
      calls := [EstimateGas(tx)];
      match chain.estimateGas(tx) {
        case Err(m) =>
          entry := FailedEntry(tokenId, NormalizeError(m));
        case Ok(estimatedGas) =>
          var gas := SingleGasLimit(estimatedGas);
          calls := calls + [Send(tx, gas)];
          match chain.send(tx, gas) {
            case Ok(receipt) =>
              entry := SentEntry(tokenId, Transferred, receipt.txHash, receipt.gasUsed);
            case Err(m) =>
              entry := FailedEntry(tokenId, NormalizeError(m));
          }
      }
    }

    /** The individual loop: estimate, send, and record each ID; a failure
      never stops it. */
    method TransferIndividually(chain: Contract, recipient: Address, validTokenIds: seq<TokenId>,
                                results: seq<Entry>, calls: seq<Request>)
      returns (outResults: seq<Entry>, outCalls: seq<Request>)
      requires Valid()
      modifies this`selected
      ensures Valid()
      ensures outResults == results + IndividualEntries(chain, account, recipient, validTokenIds)
      ensures outCalls == calls + IndividualCalls(chain, account, recipient, validTokenIds)
      ensures selected == RemoveAll(old(selected),
                                    TransferredIds(IndividualEntries(chain, account, recipient, validTokenIds)))
    {
      outResults, outCalls := results, calls;
      var i := 0;
      while i < |validTokenIds|
        invariant 0 <= i <= |validTokenIds|
        invariant outResults == results + IndividualEntries(chain, account, recipient, validTokenIds[..i])
        invariant outCalls == calls + IndividualCalls(chain, account, recipient, validTokenIds[..i])
        invariant selected == RemoveAll(old(selected),
                                        TransferredIds(IndividualEntries(chain, account, recipient, validTokenIds[..i])))
      {
        var tokenId := validTokenIds[i];
        var entry, stepCalls := TransferOneToken(chain, account, recipient, tokenId);
        IndividualLoopStep(chain, account, recipient, validTokenIds, i, results, outResults, calls, outCalls,
                           old(selected), selected, entry, stepCalls);
        outCalls := outCalls + stepCalls;
        outResults := outResults + [entry];
        if entry.status == Transferred {
          selected := SetDelete(selected, tokenId);
        }
        i := i + 1;
      }
      assert validTokenIds[..i] == validTokenIds;
    }

    /** One batch mechanism as the code runs it. */
    static method SendBatch(chain: Contract, tx: Tx, calls: seq<Request>)
      returns (receipt: Option<Receipt>, outCalls: seq<Request>)
      ensures receipt == TryBatch(chain, tx).receipt
      ensures outCalls == calls + TryBatch(chain, tx).calls
    {
      outCalls := calls + [EstimateGas(tx)];
      receipt := None;
      match chain.estimateGas(tx) {
        case Err(_) =>
        case Ok(estimatedGas) =>
          var gas := BatchGasLimit(estimatedGas);
          outCalls := outCalls + [Send(tx, gas)];
          match chain.send(tx, gas) {
            case Ok(r) => receipt := Some(r);
            case Err(_) =>
          }
      }
    }

    /** The batch part of transferNFTs: `safeBatchTransferFrom`, then
      `multicall` if that failed; a batch that goes through records every ID. */
    method TryBatches(chain: Contract, recipient: Address, validTokenIds: seq<TokenId>,
                      results: seq<Entry>, calls: seq<Request>)
      returns (batchSuccess: bool, outResults: seq<Entry>, outCalls: seq<Request>)
      requires Valid() && validTokenIds != []
      modifies this`selected
      ensures Valid()
      ensures var batch := TryBatchMechanisms(chain, account, recipient, validTokenIds);
        batchSuccess == batch.landed.Some? && outCalls == calls + batch.calls
        && (batchSuccess ==>
              var l := batch.landed.value;
              outResults == results + SentEntries(validTokenIds, l.status, l.receipt.txHash,
                                                   l.receipt.gasUsed / |validTokenIds|)
              && selected == RemoveAll(old(selected), validTokenIds))
        && (!batchSuccess ==> outResults == results && selected == old(selected))
    {
      batchSuccess, outResults := false, results;
      var receipt;
      receipt, outCalls := SendBatch(chain, SafeBatchTransferFrom(account, recipient, validTokenIds), calls);
      if receipt.Some? {
        outResults := RecordBatch(outResults, validTokenIds, BatchTransferred, receipt.value);
        batchSuccess := true;
      }
      if !batchSuccess {
        var transferCalls := EncodedTransfers(account, recipient, validTokenIds);
        receipt, outCalls := SendBatch(chain, Multicall(transferCalls), outCalls);
        if receipt.Some? {
          outResults := RecordBatch(outResults, validTokenIds, MulticallTransferred, receipt.value);
          batchSuccess := true;
        }
      }
    }

    /** transferNFTs after the input checks. */
    method TransferTokens(recipient: Address, tokenIds: seq<TokenId>, chain: Contract)
      returns (stop: Stop, results: seq<Entry>, calls: seq<Request>)
      requires Valid()
      modifies this`selected
      ensures Valid()
      ensures Report(stop, results, calls, selected) == Transfer(account, old(selected), recipient, tokenIds, chain)
    {
      var validTokenIds, invalidTokens;
      validTokenIds, invalidTokens, calls := CheckOwnership(chain, tokenIds);
      results := PushSkipped([], invalidTokens);
      assert results == SkippedEntries(invalidTokens);
      if validTokenIds == [] {
        TransferWithoutValidIds(account, selected, recipient, tokenIds, chain);
        return NoValidTokens, results, calls;
      }

      // the capability probe whose answer is never read
      calls := calls + [EstimateGas(SafeBatchTransferFrom(account, recipient, []))];

      var batchSuccess := false;
      ghost var probed := calls;
      if |validTokenIds| > 1 {
        batchSuccess, results, calls := TryBatches(chain, recipient, validTokenIds, results, calls);
      } else {
        assert calls == probed + [];
      }
      if batchSuccess {
        TransferWithBatch(account, old(selected), recipient, tokenIds, chain);
        return BatchDone, results, calls;
      }
      TransferWithoutBatch(account, old(selected), recipient, tokenIds, chain);
      results, calls := TransferIndividually(chain, recipient, validTokenIds, results, calls);
      stop := Completed;
    }

    /** transferNFTs. */
    method TransferNFTs(recipientField: string, tokenIdsField: string, isAddress: string -> bool, chain: Contract)
      returns (stop: Stop, results: seq<Entry>, calls: seq<Request>)
      requires Valid()
      modifies this`selected
      ensures Valid()
      ensures Report(stop, results, calls, selected)
           == Run(account, old(selected), recipientField, tokenIdsField, isAddress, chain)
    {
      var recipient := Trim(recipientField);
      var tokenIds := ParseTokenIds(TokenIdsInput(selected, tokenIdsField));
      var check := InputCheck(selected, recipientField, tokenIdsField, isAddress);
      if check.Some? {
        RunRejected(account, selected, recipientField, tokenIdsField, isAddress, chain);
        return check.value, [], [];
      }
      RunAccepted(account, selected, recipientField, tokenIdsField, isAddress, chain);
      stop, results, calls := TransferTokens(recipient, tokenIds, chain);
    }
  }
}
