/** What a monitor is meant to find: told from the raw transactions and logs of a block and from the
    expression its filter was compiled from, without the index, the compiled filter or the decoder's
    helpers. */
module Findings {
  import opened Domain
  import opened Abi
  import opened FilterCompiler
  import opened FilterProofs

  /** The expression a monitor's filter was compiled from, or none for a filter that accepts everything. */
  ghost predicate Condition(m: Monitor, e: Option<Expression>) {
    if e.None? then m.filter == All
    else m.filter.Expr? && Compile(e.value, m.target).Some? && Compile(e.value, m.target).value.1 == m.filter.compiled
  }

  predicate Wanted(e: Option<Expression>, target: Target, ctx: Context) {
    e.Some? ==> Holds(e.value, target, ctx)
  }

  lemma HasCondition(m: Monitor) returns (e: Option<Expression>)
    requires CompiledFor(m.filter, m.target)
    ensures Condition(m, e)
  {
    if m.filter.Expr? {
      var x :| Compile(x, m.target).Some? && Compile(x, m.target).value.1 == m.filter.compiled;
      e := Some(x);
    } else {
      e := None;
    }
  }

  /** A call of the watched contract with the watched selector. */
  predicate WatchesCall(target: Target, tx: Transaction) {
    target.CallTarget? && tx.to == target.address && |tx.input| >= 4 && tx.input[..4] == target.selector
  }

  /** A log of the watched contract with the watched signature. */
  predicate WatchesLog(target: Target, log: Log) {
    target.EventTarget? && log.address == target.address && log.topics != [] && log.topics[0] == target.topic0
  }

  /** The call's arguments, decoded from behind the selector. */
  function Arguments(d: Decoders, target: Target, tx: Transaction): Option<seq<Value>>
    requires |tx.input| >= 4
  {
    d.call(seq(|target.params|, i requires 0 <= i < |target.params| => target.params[i].ty), tx.input[4..])
  }

  /** The event's parameters in ABI order. */
  function Parameters(d: Decoders, target: Target, log: Log): Option<seq<Value>>
    requires log.topics != []
  {
    var layout := seq(|target.params|, i requires 0 <= i < |target.params| => (target.params[i].ty, target.params[i].indexed));
    match d.log(layout, log.topics[0], log.topics, log.data)
    case None => None
    case Some(parts) => Interleave(layout, parts)
  }

  /** What a transaction and its outcome give a monitor. */
  function CallFinding(d: Decoders, m: Monitor, e: Option<Expression>, number: U64, tx: Transaction, succeeded: bool): seq<Decoded> {
    if !succeeded || !WatchesCall(m.target, tx) then []
    else
      match Arguments(d, m.target, tx)
      case None => []
      case Some(values) =>
        if Wanted(e, m.target, CallContext(number, tx.hash, tx.from, tx.to, values))
        then [DecodedCall(m.id, number, tx.hash, tx.from, tx.to, values)] else []
  }

  /** What a log gives a monitor. */
  function LogFinding(d: Decoders, m: Monitor, e: Option<Expression>, number: U64, log: Log): seq<Decoded> {
    if !WatchesLog(m.target, log) || log.txHash.None? || log.logIndex.None? then []
    else
      match Parameters(d, m.target, log)
      case None => []
      case Some(values) =>
        if Wanted(e, m.target, EventContext(number, log.txHash.value, log.address, log.logIndex.value, values))
        then [DecodedEvent(m.id, number, log.txHash.value, log.logIndex.value, values)] else []
  }

  /** Transactions with their outcomes, one after the other. */
  function CallFindings(d: Decoders, m: Monitor, e: Option<Expression>, number: U64, txs: seq<(Transaction, bool)>): seq<Decoded> {
    if txs == [] then []
    else
      var last := txs[|txs| - 1];
      CallFindings(d, m, e, number, txs[..|txs| - 1]) + CallFinding(d, m, e, number, last.0, last.1)
  }

  function LogFindings(d: Decoders, m: Monitor, e: Option<Expression>, number: U64, logs: seq<Log>): seq<Decoded> {
    if logs == [] then []
    else LogFindings(d, m, e, number, logs[..|logs| - 1]) + LogFinding(d, m, e, number, logs[|logs| - 1])
  }

  /** What decodes through a monitor's own schema fits its target. */
  lemma ArgumentsFit(d: Decoders, target: Target, number: U64, tx: Transaction)
    requires WellTyped(d) && target.CallTarget? && |tx.input| >= 4 && Arguments(d, target, tx).Some?
    ensures Fits(CallContext(number, tx.hash, tx.from, tx.to, Arguments(d, target, tx).value), target)
  {
    var types := seq(|target.params|, i requires 0 <= i < |target.params| => target.params[i].ty);
    assert Typed(d.call(types, tx.input[4..]).value, types, false);
    forall i | 0 <= i < |target.params|
      ensures HasType(Arguments(d, target, tx).value[i], target.params[i].ty, false)
    {
      assert HasType(Arguments(d, target, tx).value[i], types[i], false);
    }
  }

  lemma ParametersFit(d: Decoders, target: Target, number: U64, log: Log, hash: Hash, index: U64)
    requires WellTyped(d) && target.EventTarget? && log.topics != [] && Parameters(d, target, log).Some?
    ensures Fits(EventContext(number, hash, log.address, index, Parameters(d, target, log).value), target)
  {
    var layout := seq(|target.params|, i requires 0 <= i < |target.params| => (target.params[i].ty, target.params[i].indexed));
    InterleaveTyped(layout, d.log(layout, log.topics[0], log.topics, log.data).value);
    var values := Parameters(d, target, log).value;
    forall i | 0 <= i < |target.params|
      ensures HasType(values[i], target.params[i].ty, target.params[i].indexed)
    {
      assert HasType(values[i], layout[i].0, layout[i].1);
    }
  }

  lemma ConditionDecides(m: Monitor, e: Option<Expression>, ctx: Context)
    requires Condition(m, e) && Fits(ctx, m.target)
    ensures Evaluate(m.filter, ctx) == Ok(Wanted(e, m.target, ctx))
  {
    if e.Some? {
      CompileMeans(e.value, m.target, ctx);
    }
  }
}
