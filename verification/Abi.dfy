/** ABI decoding as the indexer uses it. The byte-level decoder is a fixed function of wire layout and
    bytes; what the source adds is the split of event parameters into indexed and plain ones and their
    re-interleaving into ABI order. */
module Abi {
  import opened Domain

  type CallLayout = seq<AbiType>
  type EventLayout = seq<(AbiType, bool)>

  /** Topic values and body values of one log, each in ABI order. */
  datatype LogParts = LogParts(indexed: seq<Value>, body: seq<Value>)

  datatype Decoders = Decoders(
    call: (CallLayout, Bytes) -> Option<seq<Value>>,
    log: (EventLayout, Hash, seq<Hash>, Bytes) -> Option<LogParts>)

  function CallLayoutOf(params: seq<AbiParam>): CallLayout {
    seq(|params|, i requires 0 <= i < |params| => params[i].ty)
  }

  function EventLayoutOf(params: seq<AbiParam>): EventLayout {
    seq(|params|, i requires 0 <= i < |params| => (params[i].ty, params[i].indexed))
  }

  /** The parameters of a layout that are indexed (`want`) or plain (`!want`). */
  function Part(layout: EventLayout, want: bool): seq<AbiType> {
    if layout == [] then []
    else (if layout[0].1 == want then [layout[0].0] else []) + Part(layout[1..], want)
  }

  predicate Typed(values: seq<Value>, types: seq<AbiType>, hashed: bool) {
    |values| == |types| && forall i :: 0 <= i < |values| ==> HasType(values[i], types[i], hashed)
  }

  /** The byte-level decoder yields values of the types it is asked for. */
  ghost predicate WellTyped(d: Decoders) {
    && (forall layout, data :: d.call(layout, data).Some? ==> Typed(d.call(layout, data).value, layout, false))
    && (forall layout, topic0, topics, data :: d.log(layout, topic0, topics, data).Some? ==>
          var parts := d.log(layout, topic0, topics, data).value;
          Typed(parts.indexed, Part(layout, true), true) && Typed(parts.body, Part(layout, false), false))
  }

  /** Topics hold at most three indexed parameters beside the signature. */
  predicate Decodable(params: seq<AbiParam>) {
    |Part(EventLayoutOf(params), true)| <= 3
  }

  /** Takes the next topic value for an indexed parameter, the next body value for a plain one. */
  function Interleave(layout: EventLayout, parts: LogParts): Option<seq<Value>> {
    if layout == [] then Some([])
    else if layout[0].1 then
      if parts.indexed == [] then None
      else
        match Interleave(layout[1..], parts.(indexed := parts.indexed[1..]))
        case None => None
        case Some(rest) => Some([parts.indexed[0]] + rest)
    else
      if parts.body == [] then None
      else
        match Interleave(layout[1..], parts.(body := parts.body[1..]))
        case None => None
        case Some(rest) => Some([parts.body[0]] + rest)
  }

  function Prepend(values: seq<Value>, rest: Option<seq<Value>>): Option<seq<Value>> {
    match rest
    case None => None
    case Some(more) => Some(values + more)
  }

  lemma PrependOne(values: seq<Value>, v: Value, rest: Option<seq<Value>>)
    ensures Prepend(values + [v], rest) == Prepend(values, Prepend([v], rest))
  {
    if rest.Some? {
      assert values + [v] + rest.value == values + ([v] + rest.value);
    }
  }

  /** The decoder's two advancing iterators. */
  method InterleaveValues(layout: EventLayout, parts: LogParts) returns (r: Option<seq<Value>>)
    ensures r == Interleave(layout, parts)
  {
    var i, indexed, body := 0, 0, 0;
    var values: seq<Value> := [];
    ghost var left := parts;
    ghost var whole := Interleave(layout, parts);
    assert layout[0..] == layout;
    assert whole.Some? ==> [] + whole.value == whole.value;
    while i < |layout|
      invariant 0 <= i <= |layout| && 0 <= indexed <= |parts.indexed| && 0 <= body <= |parts.body|
      invariant left == LogParts(parts.indexed[indexed..], parts.body[body..])
      invariant Interleave(layout, parts) == Prepend(values, Interleave(layout[i..], left))
    {
      assert layout[i..][1..] == layout[i + 1..];
      var v;
      if layout[i].1 {
        if indexed == |parts.indexed| {
          return None;
        }
        v := parts.indexed[indexed];
        indexed := indexed + 1;
      } else {
        if body == |parts.body| {
          return None;
        }
        v := parts.body[body];
        body := body + 1;
      }
      ghost var next := LogParts(parts.indexed[indexed..], parts.body[body..]);
      assert next == if layout[i].1 then left.(indexed := left.indexed[1..]) else left.(body := left.body[1..]);
      PrependOne(values, v, Interleave(layout[i + 1..], next));
      values := values + [v];
      left := next;
      i := i + 1;
    }
    assert values + [] == values;
    r := Some(values);
  }

  /** The values of the parameters that are indexed (`want`) or plain. */
  function Pick(layout: EventLayout, values: seq<Value>, want: bool): seq<Value>
    requires |layout| == |values|
  {
    if layout == [] then []
    else (if layout[0].1 == want then [values[0]] else []) + Pick(layout[1..], values[1..], want)
  }

  /** Splitting values by the indexed flag and re-interleaving restores ABI order. */
  lemma {:induction false} InterleaveInvertsSplit(layout: EventLayout, values: seq<Value>)
    requires |layout| == |values|
    ensures Interleave(layout, LogParts(Pick(layout, values, true), Pick(layout, values, false))) == Some(values)
  {
    if layout == [] {
    } else {
      InterleaveInvertsSplit(layout[1..], values[1..]);
      var parts := LogParts(Pick(layout, values, true), Pick(layout, values, false));
      var rest := LogParts(Pick(layout[1..], values[1..], true), Pick(layout[1..], values[1..], false));
      if layout[0].1 {
        assert parts.(indexed := parts.indexed[1..]) == rest;
      } else {
        assert parts.(body := parts.body[1..]) == rest;
      }
      assert [values[0]] + values[1..] == values;
    }
  }

  /** The parts interleave to one value per parameter, each of its type, and splitting gives them back. */
  ghost predicate Restores(layout: EventLayout, parts: LogParts) {
    match Interleave(layout, parts)
    case None => false
    case Some(values) =>
      && |values| == |layout|
      && Pick(layout, values, true) == parts.indexed && Pick(layout, values, false) == parts.body
      && forall i :: 0 <= i < |values| ==> HasType(values[i], layout[i].0, layout[i].1)
  }

  lemma RestoresIndexed(layout: EventLayout, parts: LogParts)
    requires layout != [] && layout[0].1 && parts.indexed != [] && HasType(parts.indexed[0], layout[0].0, true)
    requires Restores(layout[1..], parts.(indexed := parts.indexed[1..]))
    ensures Restores(layout, parts)
  {
    var more := Interleave(layout[1..], parts.(indexed := parts.indexed[1..])).value;
    var values := [parts.indexed[0]] + more;
    assert values[1..] == more && Interleave(layout, parts) == Some(values);
    assert [parts.indexed[0]] + parts.indexed[1..] == parts.indexed;
    forall i | 0 <= i < |values|
      ensures HasType(values[i], layout[i].0, layout[i].1)
    {
      assert i > 0 ==> HasType(more[i - 1], layout[1..][i - 1].0, layout[1..][i - 1].1);
    }
  }

  lemma RestoresBody(layout: EventLayout, parts: LogParts)
    requires layout != [] && !layout[0].1 && parts.body != [] && HasType(parts.body[0], layout[0].0, false)
    requires Restores(layout[1..], parts.(body := parts.body[1..]))
    ensures Restores(layout, parts)
  {
    var more := Interleave(layout[1..], parts.(body := parts.body[1..])).value;
    var values := [parts.body[0]] + more;
    assert values[1..] == more && Interleave(layout, parts) == Some(values);
    assert [parts.body[0]] + parts.body[1..] == parts.body;
    forall i | 0 <= i < |values|
      ensures HasType(values[i], layout[i].0, layout[i].1)
    {
      assert i > 0 ==> HasType(more[i - 1], layout[1..][i - 1].0, layout[1..][i - 1].1);
    }
  }

  /** Conversely, interleaving well-typed parts always succeeds, in ABI order, each value with its
      parameter's type. */
  lemma {:induction false} InterleaveTyped(layout: EventLayout, parts: LogParts)
    requires Typed(parts.indexed, Part(layout, true), true)
    requires Typed(parts.body, Part(layout, false), false)
    ensures Restores(layout, parts)
  {
    if layout == [] {
    } else {
      assert Part(layout, layout[0].1)[1..] == Part(layout[1..], layout[0].1);
      if layout[0].1 {
        InterleaveTyped(layout[1..], parts.(indexed := parts.indexed[1..]));
        RestoresIndexed(layout, parts);
      } else {
        InterleaveTyped(layout[1..], parts.(body := parts.body[1..]));
        RestoresBody(layout, parts);
      }
    }
  }

  function DecodeLog(d: Decoders, layout: EventLayout, topic0: Hash, topics: seq<Hash>, data: Bytes): Option<seq<Value>> {
    match d.log(layout, topic0, topics, data)
    case None => None
    case Some(parts) => Interleave(layout, parts)
  }
}
