/** What a sink is handed for one committed block: every result with the monitor it belongs to, and its
    parameters in canonical form. */
module Sinks {
  import opened Domain
  import opened FilterCompiler
  import opened Indexer
  import opened Storage
  import opened StoredParams
  import opened Protocol

  datatype SinkResult =
    | SunkCall(monitor: nat, txHash: Hash, from: Address, to: Address, params: map<string, Json>)
    | SunkEvent(monitor: nat, txHash: Hash, emitter: Address, logIndex: U64, params: map<string, Json>)

  const VERSION: nat := 1

  datatype SinkBatch = SinkBatch(version: nat, chain: nat, block: U64, results: seq<SinkResult>)

  /** The encoded result is `x`, shown with monitor `m`: an event's emitter is the watched address. */
  predicate ShowsFor(e: SinkResult, x: Decoded, m: Monitor) {
    && EncodesFor(x, m)
    && e.monitor == x.monitor && e.txHash == x.txHash && e.params == Canonical(m.target.params, x.params)
    && match e
       case SunkCall(_, _, from, to, _) => x.DecodedCall? && from == x.from && to == x.to
       case SunkEvent(_, _, emitter, logIndex, _) => x.DecodedEvent? && emitter == m.target.address && logIndex == x.logIndex
  }

  predicate Shows(e: SinkResult, x: Decoded, monitors: seq<Monitor>) {
    exists k :: 0 <= k < |monitors| && ShowsFor(e, x, monitors[k])
  }

  predicate ShowsAll(encoded: seq<SinkResult>, results: seq<Decoded>, monitors: seq<Monitor>) {
    |encoded| == |results| && forall k :: 0 <= k < |results| ==> Shows(encoded[k], results[k], monitors)
  }

  /** Every result of the batch, in order, and nothing else. */
  predicate Carries(payload: SinkBatch, batch: Batch) {
    && payload.version == 1 && payload.chain == batch.chain && payload.block == batch.block
    && ShowsAll(payload.results, batch.results, batch.listed)
  }

  predicate CarriesAll(payloads: seq<SinkBatch>, sink: seq<Batch>) {
    |payloads| == |sink| && forall k :: 0 <= k < |sink| ==> Carries(payloads[k], sink[k])
  }

  /** The first listed monitor with the result's id. */
  method FindMonitor(monitors: seq<Monitor>, id: nat) returns (r: Option<Monitor>)
    requires DistinctIds(monitors)
    ensures r.Some? ==> r.value in monitors && r.value.id == id
    ensures r.Some? ==> forall k :: 0 <= k < |monitors| && monitors[k].id == id ==> monitors[k] == r.value
    ensures r.None? ==> forall k :: 0 <= k < |monitors| ==> monitors[k].id != id
  {
    var k := 0;
    while k < |monitors|
      invariant 0 <= k <= |monitors|
      invariant forall i :: 0 <= i < k ==> monitors[i].id != id
    {
      if monitors[k].id == id {
        return Some(monitors[k]);
      }
      k := k + 1;
    }
    r := None;
  }

  /** Fails exactly if no listed monitor of the result's kind and shape has its id. */
  method EncodeResult(x: Decoded, monitors: seq<Monitor>) returns (r: Result<SinkResult>)
    requires DistinctIds(monitors)
    ensures r.Ok? <==> Encodes(x, monitors)
    ensures r.Ok? ==> Shows(r.value, x, monitors)
  {
    var found := FindMonitor(monitors, x.monitor);
    if found.None? {
      return Err;
    }
    var m := found.value;
    if x.DecodedCall? != m.target.CallTarget? {
      return Err;
    }
    var params := CanonicalParams(m.target.params, x.params);
    if params.Err? {
      return Err;
    }
    var encoded := match x
      case DecodedCall(monitor, _, txHash, from, to, _) => SunkCall(monitor, txHash, from, to, params.value)
      case DecodedEvent(monitor, _, txHash, logIndex, _) => SunkEvent(monitor, txHash, m.target.address, logIndex, params.value);
    assert ShowsFor(encoded, x, m);
    r := Ok(encoded);
  }

  /** The batch of a committed block: none for an empty block, an error when a result has no listed
      monitor of its kind and shape. */
  method EncodeBatch(commit: BlockCommit) returns (r: Result<Option<SinkBatch>>)
    requires DistinctIds(commit.monitors)
    ensures r.Ok? <==> commit.results == [] || Encodable(commit)
    ensures r.Ok? ==> (r.value.None? <==> commit.results == [])
    ensures r.Ok? && r.value.Some? ==>
              && r.value.value.version == 1 && r.value.value.chain == commit.chain && r.value.value.block == commit.block
              && ShowsAll(r.value.value.results, commit.results, commit.monitors)
  {
    if commit.results == [] {
      return Ok(None);
    }
    var encoded: seq<SinkResult> := [];
    while |encoded| < |commit.results|
      invariant |encoded| <= |commit.results|
      invariant forall i :: 0 <= i < |encoded| ==> Encodes(commit.results[i], commit.monitors)
      invariant ShowsAll(encoded, commit.results[..|encoded|], commit.monitors)
    {
      var x := commit.results[|encoded|];
      assert x in commit.results;
      var one := EncodeResult(x, commit.monitors);
      if one.Err? {
        return Err;
      }
      encoded := encoded + [one.value];
    }
    assert commit.results[..|encoded|] == commit.results;
    r := Ok(Some(SinkBatch(VERSION, commit.chain, commit.block, encoded)));
  }

  /** One more batch, if there is one to hand over, and none otherwise. */
  predicate HandedOver(before: seq<SinkBatch>, after: seq<SinkBatch>, batch: Batch) {
    if batch.results == [] then after == before
    else
      && |after| == |before| + 1
      && after[..|before|] == before
      && Carries(after[|before|], batch)
  }

  lemma CarriesOneMore(before: seq<SinkBatch>, after: seq<SinkBatch>, sink: seq<Batch>, batch: Batch)
    requires CarriesAll(before, sink) && HandedOver(before, after, batch)
    ensures CarriesAll(after, if batch.results == [] then sink else sink + [batch])
  {
    forall k | 0 <= k < |sink|
      ensures k < |after| && Carries(after[k], sink[k])
    {
      assert batch.results != [] ==> after[..|before|][k] == after[k];
    }
  }
}
