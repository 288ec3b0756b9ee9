/** Execution outcomes over JSON-RPC: by block receipts, by batches or one by one, falling back as the
    node refuses, with the capabilities other requests may change at any time. */
module Receipts {
  import opened Domain
  import opened Preparer

  const USIZE_MAX: int := 0xFFFF_FFFF_FFFF_FFFF
  const ISIZE_MAX: int := 0x7FFF_FFFF_FFFF_FFFF

  type Usize = n: int | 0 <= n <= USIZE_MAX

  datatype Receipt = Receipt(hash: Hash, succeeded: bool)

  /** A failed request; a node's error response may say that the method or that batching is missing. */
  datatype Failure = Failure(methodUnavailable: bool, batchUnsupported: bool)

  datatype Reply<+T> = Answer(value: T) | Failed(failure: Failure)

  datatype Capability = Unsure | Supported | Unsupported

  /** A receipt of the finalized chain, whichever transaction it is of. */
  predicate Truthful(src: Source, receipt: Receipt) {
    receipt.succeeded == src.succeeded(receipt.hash)
  }

  /** The requested receipt. */
  predicate Usable(hash: Hash, reply: Reply<Option<Receipt>>) {
    reply.Answer? && reply.value.Some? && reply.value.value.hash == hash
  }

  /** What is asked of a node. */
  datatype Request = OneReceipt(hash: Hash) | ReceiptBatch(hashes: seq<Hash>) | BlockReceipts(block: U64)

  /** The reply to one call of a batch is neither usable nor a refusal of batching. */
  predicate BadReply(hash: Hash, reply: Reply<Option<Receipt>>) {
    !Usable(hash, reply) && !(reply.Failed? && reply.failure.batchUnsupported)
  }

  predicate AnyBad(hashes: seq<Hash>, replies: seq<Reply<Option<Receipt>>>) {
    |hashes| == |replies| && exists k :: 0 <= k < |hashes| && BadReply(hashes[k], replies[k])
  }

  /** The node. It never lies about a status. `failed` says whether it left some request unanswered for which
      there is nothing to fall back to: by an error that refuses neither batching nor the method, or by a
      receipt that is missing or of another transaction. */
  class ReceiptNode {
    const src: Source
    ghost var failed: bool
    ghost var asked: seq<Request>

    constructor (src: Source)
      ensures this.src == src && !failed && asked == []
    {
      this.src, failed, asked := src, false, [];
    }

    method AnyReply() returns (r: Reply<Option<Receipt>>)
      ensures r.Answer? && r.value.Some? ==> Truthful(src, r.value.value)
    {
      var hash: Hash, failure: Failure := *, *;
      r := Answer(Some(Receipt(hash, src.succeeded(hash))));
      if * {
        r := Failed(failure);
      } else if * {
        r := Answer(None);
      }
    }

    method AskReceipt(hash: Hash) returns (r: Reply<Option<Receipt>>)
      modifies this
      ensures r.Answer? && r.value.Some? ==> Truthful(src, r.value.value)
      ensures failed <==> old(failed) || !Usable(hash, r)
      ensures asked == old(asked) + [OneReceipt(hash)]
    {
      r := AnyReply();
      failed := failed || !Usable(hash, r);
      asked := asked + [OneReceipt(hash)];
    }

    /** One reply per call of the batch, or one failure for all. */
    method AskBatch(hashes: seq<Hash>) returns (r: Reply<seq<Reply<Option<Receipt>>>>)
      modifies this
      ensures r.Answer? ==> |r.value| == |hashes|
      ensures r.Answer? ==> forall k :: 0 <= k < |hashes| && r.value[k].Answer? && r.value[k].value.Some? ==>
                              Truthful(src, r.value[k].value.value)
      ensures failed <==> old(failed) || if r.Answer? then AnyBad(hashes, r.value) else !r.failure.batchUnsupported
      ensures asked == old(asked) + [ReceiptBatch(hashes)]
    {
      asked := asked + [ReceiptBatch(hashes)];
      if * {
        var failure: Failure := *;
        failed := failed || !failure.batchUnsupported;
        return Failed(failure);
      }
      var replies: seq<Reply<Option<Receipt>>> := [];
      while |replies| < |hashes|
        invariant |replies| <= |hashes| && failed == old(failed) && asked == old(asked) + [ReceiptBatch(hashes)]
        invariant forall k :: 0 <= k < |replies| && replies[k].Answer? && replies[k].value.Some? ==> Truthful(src, replies[k].value.value)
      {
        var reply := AnyReply();
        replies := replies + [reply];
      }
      failed := failed || AnyBad(hashes, replies);
      r := Answer(replies);
    }

    /** All receipts of a block, or none when the node does not have the block. */
    method AskBlockReceipts(block: U64) returns (r: Reply<Option<seq<Receipt>>>)
      modifies this
      ensures r.Answer? && r.value.Some? ==> forall receipt :: receipt in r.value.value ==> Truthful(src, receipt)
      ensures failed <==> old(failed) || (r.Failed? && !r.failure.methodUnavailable)
      ensures asked == old(asked) + [BlockReceipts(block)]
    {
      asked := asked + [BlockReceipts(block)];
      if * {
        var failure: Failure := *;
        failed := failed || !failure.methodUnavailable;
        return Failed(failure);
      }
      if * {
        return Answer(None);
      }
      var receipts: seq<Receipt> := [];
      var more: nat := *;
      while more > 0
        invariant forall receipt :: receipt in receipts ==> Truthful(src, receipt)
      {
        var hash: Hash := *;
        receipts := receipts + [Receipt(hash, src.succeeded(hash))];
        more := more - 1;
      }
      r := Answer(Some(receipts));
    }
  }

  // ---- Single requests ----

  /** A receipt that is missing or of another transaction is refused. */
  function Checked(hash: Hash, receipt: Option<Receipt>): (r: Reply<Outcome>)
  {
    if receipt.None? || receipt.value.hash != hash then Failed(Failure(false, false))
    else Answer(Outcome(hash, receipt.value.succeeded))
  }

  method FetchReceipt(node: ReceiptNode, hash: Hash) returns (r: Reply<Outcome>)
    modifies node
    ensures r.Answer? ==> r.value == Outcome(hash, node.src.succeeded(hash))
    ensures node.failed <==> old(node.failed) || r.Failed?
    ensures node.asked == old(node.asked) + [OneReceipt(hash)]
  {
    var reply := node.AskReceipt(hash);
    if reply.Failed? {
      return Failed(reply.failure);
    }
    r := Checked(hash, reply.value);
  }

  method SingleReceipts(node: ReceiptNode, hashes: seq<Hash>) returns (r: Reply<seq<Outcome>>)
    modifies node
    ensures r.Answer? ==> r.value == OutcomesOf(node.src, hashes)
    ensures node.failed <==> old(node.failed) || r.Failed?
    ensures old(node.asked) <= node.asked && (r.Answer? ==> |node.asked| == |old(node.asked)| + |hashes|)
    ensures hashes != [] ==> |node.asked| > |old(node.asked)| && node.asked[|old(node.asked)|] == OneReceipt(hashes[0])
  {
    var out: seq<Outcome> := [];
    while |out| < |hashes|
      invariant |out| <= |hashes| && out == OutcomesOf(node.src, hashes[..|out|]) && node.failed == old(node.failed)
      invariant old(node.asked) <= node.asked && |node.asked| == |old(node.asked)| + |out|
      invariant out != [] ==> node.asked[|old(node.asked)|] == OneReceipt(hashes[0])
    {
      var fetched := FetchReceipt(node, hashes[|out|]);
      if fetched.Failed? {
        return Failed(fetched.failure);
      }
      out := out + [fetched.value];
    }
    assert hashes[..|hashes|] == hashes;
    r := Answer(out);
  }

  // ---- Batches ----

  /** From `from` on, the ranges follow each other without hole up to `upto`, each with 1 to `limit`
      elements. */
  predicate Consecutive(ranges: seq<(nat, nat)>, upto: nat, limit: nat) {
    if ranges == [] then upto == 0
    else
      var last := ranges[|ranges| - 1];
      last.1 == upto && last.0 < last.1 <= last.0 + limit && Consecutive(ranges[..|ranges| - 1], last.0, limit)
  }

  /** The batch ranges partition the input, and the upper bound never overflows: a second range exists
      only if the batch size is below a slice's length. */
  method BatchRanges(count: nat, batch: Usize) returns (ranges: seq<(nat, nat)>)
    requires batch >= 1 && count <= ISIZE_MAX
    ensures Consecutive(ranges, count, batch)
  {
    ranges := [];
    var start: nat := 0;
    while start < count
      invariant Consecutive(ranges, Min(start, count), batch)
      invariant start == 0 || batch <= start
    {
      var upper: Usize := start + batch;
      var range := (start, if upper < count then upper else count);
      assert (ranges + [range])[..|ranges|] == ranges;
      ranges := ranges + [range];
      start := start + batch;
    }
  }

  method FetchReceiptBatch(node: ReceiptNode, hashes: seq<Hash>) returns (r: Reply<seq<Outcome>>)
    modifies node
    ensures r.Answer? ==> r.value == OutcomesOf(node.src, hashes)
    ensures old(node.failed) || (r.Failed? && !r.failure.batchUnsupported) ==> node.failed
    ensures node.asked == old(node.asked) + [ReceiptBatch(hashes)]
  {
    var sent := node.AskBatch(hashes);
    if sent.Failed? {
      return Failed(sent.failure);
    }
    var out: seq<Outcome> := [];
    while |out| < |hashes|
      invariant |out| <= |hashes| && out == OutcomesOf(node.src, hashes[..|out|])
    {
      var waited := sent.value[|out|];
      assert BadReply(hashes[|out|], waited) ==> AnyBad(hashes, sent.value);
      if waited.Failed? {
        return Failed(waited.failure);
      }
      var checked := Checked(hashes[|out|], waited.value);
      if checked.Failed? {
        return Failed(checked.failure);
      }
      out := out + [checked.value];
    }
    assert hashes[..|hashes|] == hashes;
    r := Answer(out);
  }

  predicate SmallBatch(request: Request, batch: Usize) {
    request.ReceiptBatch? && 1 <= |request.hashes| <= batch
  }

  lemma {:induction false} RangeWithin(ranges: seq<(nat, nat)>, k: nat, upto: nat, limit: nat)
    requires Consecutive(ranges, upto, limit) && k < |ranges|
    ensures ranges[k].0 < ranges[k].1 <= upto && ranges[k].1 - ranges[k].0 <= limit
    ensures ranges[k].0 == if k == 0 then 0 else ranges[k - 1].1
    ensures k == |ranges| - 1 ==> ranges[k].1 == upto
    decreases |ranges|
  {
    var init := ranges[..|ranges| - 1];
    if k < |init| {
      RangeWithin(init, k, ranges[|ranges| - 1].0, limit);
    } else if init != [] {
      RangeWithin(init, |init| - 1, ranges[|ranges| - 1].0, limit);
    }
  }

  /** One request per range; a batch is never larger than the batch size. */
  method BatchedReceipts(node: ReceiptNode, hashes: seq<Hash>, batch: Usize) returns (r: Reply<seq<Outcome>>)
    requires batch >= 1 && |hashes| <= ISIZE_MAX
    modifies node
    ensures r.Answer? ==> r.value == OutcomesOf(node.src, hashes)
    ensures old(node.failed) || (r.Failed? && !r.failure.batchUnsupported) ==> node.failed
    ensures old(node.asked) <= node.asked
    ensures forall k :: |old(node.asked)| <= k < |node.asked| ==> SmallBatch(node.asked[k], batch)
    ensures hashes != [] ==> |node.asked| > |old(node.asked)|
  {
    var ranges := BatchRanges(|hashes|, batch);
    var out: seq<Outcome> := [];
    var k := 0;
    while k < |ranges|
      invariant 0 <= k <= |ranges|
      invariant |out| == (if k == 0 then 0 else ranges[k - 1].1) <= |hashes|
      invariant out == OutcomesOf(node.src, hashes[..|out|]) && (old(node.failed) ==> node.failed)
      invariant old(node.asked) <= node.asked && |node.asked| == |old(node.asked)| + k
      invariant forall i :: |old(node.asked)| <= i < |node.asked| ==> SmallBatch(node.asked[i], batch)
    {
      RangeWithin(ranges, k, |hashes|, batch);
      var (from, upto) := ranges[k];
      var fetched := FetchReceiptBatch(node, hashes[from..upto]);
      if fetched.Failed? {
        return Failed(fetched.failure);
      }
      assert hashes[..upto] == hashes[..from] + hashes[from..upto];
      out := out + fetched.value;
      k := k + 1;
    }
    if ranges != [] {
      RangeWithin(ranges, |ranges| - 1, |hashes|, batch);
    }
    assert hashes[..|hashes|] == hashes;
    r := Answer(out);
  }

  // ---- Block receipts ----

  /** The listed statuses; the last receipt of a transaction wins. */
  method StatusesOf(src: Source, receipts: seq<Receipt>) returns (statuses: map<Hash, bool>)
    requires forall receipt :: receipt in receipts ==> Truthful(src, receipt)
    ensures forall hash :: hash in statuses ==> statuses[hash] == src.succeeded(hash)
  {
    statuses := map[];
    for k := 0 to |receipts|
      invariant forall hash :: hash in statuses ==> statuses[hash] == src.succeeded(hash)
    {
      assert Truthful(src, receipts[k]);
      statuses := statuses[receipts[k].hash := receipts[k].succeeded];
    }
  }

  /** Takes each requested transaction's status out of the block's receipts; a block or a transaction the
      answer does not have counts as the method being unavailable. */
  method FetchBlockReceipts(node: ReceiptNode, block: U64, hashes: seq<Hash>) returns (r: Reply<seq<Outcome>>)
    modifies node
    ensures r.Answer? ==> r.value == OutcomesOf(node.src, hashes)
    ensures node.failed <==> old(node.failed) || (r.Failed? && !r.failure.methodUnavailable)
    ensures node.asked == old(node.asked) + [BlockReceipts(block)]
  {
    var reply := node.AskBlockReceipts(block);
    if reply.Failed? {
      return Failed(reply.failure);
    }
    if reply.value.None? {
      return Failed(Failure(true, false));
    }
    var statuses := StatusesOf(node.src, reply.value.value);
    var out: seq<Outcome> := [];
    while |out| < |hashes|
      invariant |out| <= |hashes| && out == OutcomesOf(node.src, hashes[..|out|])
      invariant forall hash :: hash in statuses ==> statuses[hash] == node.src.succeeded(hash)
    {
      var hash := hashes[|out|];
      if hash !in statuses {
        return Failed(Failure(true, false));
      }
      out := out + [Outcome(hash, statuses[hash])];
      statuses := statuses - {hash};
    }
    assert hashes[..|hashes|] == hashes;
    r := Answer(out);
  }

  // ---- The source ----

  class JsonRpcSource {
    const node: ReceiptNode
    const batch: Usize
    var transport: Option<Url>
    var batching: Capability
    var blockReceipts: Capability

    constructor (node: ReceiptNode, batch: Usize, transport: Option<Url>)
      ensures this.node == node && this.batch == batch && this.transport == transport
      ensures batching == Unsure && blockReceipts == Unsure
    {
      this.node, this.batch, this.transport := node, batch, transport;
      batching, blockReceipts := Unsure, Unsure;
    }

    /** Requests running beside this one, or a URL rotation, may store any capability. */
    method Concurrently()
      modifies this
      ensures transport.Some? <==> old(transport).Some?
    {
      if transport.Some? {
        var url: Url := *;
        transport := Some(url);
      }
      batching := *;
      blockReceipts := *;
    }

    /** Rotates the endpoint in place. Without a live transport that is refused and nothing changes;
        otherwise both capabilities of the new endpoint are to be probed. */
    method SetRpcUrl(url: Url) returns (ok: bool)
      modifies this
      ensures ok <==> old(transport).Some?
      ensures ok ==> transport == Some(url) && batching == Unsure && blockReceipts == Unsure
      ensures !ok ==> transport == old(transport) && batching == old(batching) && blockReceipts == old(blockReceipts)
    {
      if transport.None? {
        return false;
      }
      transport := Some(url);
      batching, blockReceipts := Unsure, Unsure;
      ok := true;
    }

    /** The block-receipts strategy; `None` means: fall back. */
    method TryBlockReceipts(block: U64, hashes: seq<Hash>) returns (r: Option<Reply<seq<Outcome>>>)
      modifies this, node
      ensures r.Some? && r.value.Answer? ==> r.value.value == OutcomesOf(node.src, hashes)
      ensures r.Some? && r.value.Failed? ==> node.failed
      ensures |hashes| <= batch || old(blockReceipts) == Unsupported ==> r.None? && batching == old(batching)
      ensures node.asked == old(node.asked) +
                            if |hashes| <= batch || old(blockReceipts) == Unsupported then [] else [BlockReceipts(block)]
    {
      if |hashes| <= batch || blockReceipts == Unsupported {
        return None;
      }
      var fetched := FetchBlockReceipts(node, block, hashes);
      Concurrently();
      if fetched.Answer? {
        blockReceipts := Supported;
        return Some(fetched);
      }
      if fetched.failure.methodUnavailable {
        blockReceipts := Unsupported;
        return None;
      }
      r := Some(fetched);
    }

    /** The batch strategy; `None` means: fall back. */
    method TryBatches(hashes: seq<Hash>) returns (r: Option<Reply<seq<Outcome>>>)
      requires batch >= 1 && |hashes| <= ISIZE_MAX
      modifies this, node
      ensures r.Some? && r.value.Answer? ==> r.value.value == OutcomesOf(node.src, hashes)
      ensures r.Some? && r.value.Failed? ==> node.failed && !r.value.failure.batchUnsupported
      ensures old(batching) == Unsupported ==> r.None? && node.asked == old(node.asked)
      ensures old(node.asked) <= node.asked
      ensures old(batching) != Unsupported && hashes != [] ==>
                |node.asked| > |old(node.asked)| && SmallBatch(node.asked[|old(node.asked)|], batch)
    {
      if batching == Unsupported {
        return None;
      }
      var fetched := BatchedReceipts(node, hashes, batch);
      Concurrently();
      if fetched.Answer? {
        batching := Supported;
        return Some(fetched);
      }
      if fetched.failure.batchUnsupported {
        batching := Unsupported;
        return None;
      }
      r := Some(fetched);
    }

    /** Whatever the capabilities say and whatever the node refuses: a success is one outcome per
        requested transaction, in request order, with the chain's status; only the node can fail it, and
        not by refusing batches or block receipts. What is tried first depends on the number of hashes and
        the capabilities. */
    method OptimizedReceipts(block: U64, hashes: seq<Hash>) returns (r: Reply<seq<Outcome>>)
      requires batch >= 1 && |hashes| <= ISIZE_MAX
      modifies this, node
      ensures r.Answer? ==> r.value == OutcomesOf(node.src, hashes)
      ensures r.Failed? ==> node.failed
      ensures hashes == [] ==> r.Answer? && node.asked == old(node.asked)
      ensures old(node.asked) <= node.asked && (hashes != [] ==> |node.asked| > |old(node.asked)|)
      ensures hashes != [] ==>
                var first := node.asked[|old(node.asked)|];
                if |hashes| == 1 then first.OneReceipt?
                else if |hashes| > batch && old(blockReceipts) != Unsupported then first == BlockReceipts(block)
                else if old(batching) != Unsupported then SmallBatch(first, batch)
                else first.OneReceipt?
    {
      if |hashes| == 0 {
        return Answer([]);
      }
      if |hashes| == 1 {
        r := SingleReceipts(node, hashes);
        return;
      }
      var whole := TryBlockReceipts(block, hashes);
      if whole.Some? {
        return whole.value;
      }
      var batched := TryBatches(hashes);
      if batched.Some? {
        return batched.value;
      }
      r := SingleReceipts(node, hashes);
    }
  }
}
