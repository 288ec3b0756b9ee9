/** The filter compiler: a JSON expression tree is checked against fixed limits, compiled to a typed
    tree, and rewritten to the canonical expression that is persisted and recompiled on every poll. */
module FilterCompiler {
  import opened Domain
  import opened Text

  const MAX_BYTES := 16 * 1024
  const MAX_NODES := 128
  const MAX_DEPTH := 16
  const MAX_CHILDREN := 32

  /** A JSON literal. Only strings and booleans can compile; of anything else only the length of its
      encoding matters. */
  datatype Json = JString(s: string) | JBool(b: bool) | JOther(encoded: nat)

  datatype Expression =
    | And(all: seq<Expression>)
    | Or(any: seq<Expression>)
    | Not(inner: Expression)
    | Compare(field: string, op: Operator, value: Json)

  datatype ValueType =
    | UintValue(bits: nat)
    | IntValue(bits: nat)
    | BoolValue
    | AddressValue
    | StringValue
    | BytesValue(size: Option<nat>)

  /** One decoded result as a filter sees it. */
  datatype Context =
    | CallContext(block: U64, txHash: Hash, from: Address, to: Address, params: seq<Value>)
    | EventContext(block: U64, txHash: Hash, emitter: Address, logIndex: U64, params: seq<Value>)

  predicate Ordered(op: Operator) {
    op.Gt? || op.Gte? || op.Lt? || op.Lte?
  }

  // ---- Limits ----

  /** Bytes of one character in a JSON string: escapes, then UTF-8. */
  function CharLength(c: char): nat {
    var code := c as int;
    if c == '"' || c == '\\' then 2
    else if code == 8 || code == 9 || code == 10 || code == 12 || code == 13 then 2
    else if code < 0x20 then 6
    else if code < 0x80 then 1
    else if code < 0x800 then 2
    else if code < 0x10000 then 3
    else 4
  }

  function TextLength(s: string): nat {
    if s == "" then 0 else CharLength(s[0]) + TextLength(s[1..])
  }

  function JsonLength(value: Json): nat {
    match value
    case JString(s) => 2 + TextLength(s)
    case JBool(b) => if b then 4 else 5
    case JOther(encoded) => encoded
  }

  function OperatorLength(op: Operator): nat {
    if op.Gte? || op.Lte? then 5 else 4
  }

  /** Length of the compact JSON encoding of an expression. */
  function EncodedLength(e: Expression): nat
    decreases e, 1
  {
    match e
    case And(all) => |"{'and':[]}"| + EncodedLengths(all)
    case Or(any) => |"{'or':[]}"| + EncodedLengths(any)
    case Not(inner) => |"{'not':}"| + EncodedLength(inner)
    case Compare(field, op, value) =>
      |"{'field':,'op':,'value':}"| + 2 + TextLength(field) + OperatorLength(op) + JsonLength(value)
  }

  function EncodedLengths(es: seq<Expression>): nat
    decreases es, 0
  {
    if es == [] then 0
    else EncodedLength(es[0]) + (if |es| > 1 then 1 else 0) + EncodedLengths(es[1..])
  }

  function Nodes(e: Expression): (n: nat)
    ensures n >= 1
    decreases e, 1
  {
    match e
    case And(all) => 1 + NodesOf(all)
    case Or(any) => 1 + NodesOf(any)
    case Not(inner) => 1 + Nodes(inner)
    case Compare(_, _, _) => 1
  }

  function NodesOf(es: seq<Expression>): nat
    decreases es, 0
  {
    if es == [] then 0 else NodesOf(es[..|es| - 1]) + Nodes(es[|es| - 1])
  }

  /** Every node at depth at most `room`. */
  predicate DepthWithin(e: Expression, room: int)
    decreases e
  {
    && room >= 1
    && match e
       case And(all) => forall x :: x in all ==> DepthWithin(x, room - 1)
       case Or(any) => forall x :: x in any ==> DepthWithin(x, room - 1)
       case Not(inner) => DepthWithin(inner, room - 1)
       case Compare(_, _, _) => true
  }

  predicate AritiesWithin(e: Expression)
    decreases e
  {
    match e
    case And(all) => 2 <= |all| <= MAX_CHILDREN && forall x :: x in all ==> AritiesWithin(x)
    case Or(any) => 2 <= |any| <= MAX_CHILDREN && forall x :: x in any ==> AritiesWithin(x)
    case Not(inner) => AritiesWithin(inner)
    case Compare(_, _, _) => true
  }

  predicate WithinLimits(e: Expression) {
    && EncodedLength(e) <= MAX_BYTES
    && Nodes(e) <= MAX_NODES
    && DepthWithin(e, MAX_DEPTH)
    && AritiesWithin(e)
  }

  /** The recursive visitor with its running node counter: it stops at the first node over a limit. */
  method Visit(e: Expression, depth: nat, nodes: nat) returns (ok: bool, counted: nat)
    requires nodes <= MAX_NODES
    ensures ok <==> nodes + Nodes(e) <= MAX_NODES && DepthWithin(e, MAX_DEPTH + 1 - depth) && AritiesWithin(e)
    ensures ok ==> counted == nodes + Nodes(e)
    decreases e, 1
  {
    counted := nodes + 1;
    if counted > MAX_NODES {
      return false, counted;
    }
    if depth > MAX_DEPTH {
      return false, counted;
    }
    match e
    case Not(inner) =>
      ok, counted := Visit(inner, depth + 1, counted);
    case And(all) =>
      ok, counted := VisitChildren(all, depth + 1, counted);
    case Or(any) =>
      ok, counted := VisitChildren(any, depth + 1, counted);
    case Compare(_, _, _) =>
      ok := true;
  }

  method VisitChildren(es: seq<Expression>, depth: nat, nodes: nat) returns (ok: bool, counted: nat)
    requires nodes <= MAX_NODES
    ensures ok <==>
            && 2 <= |es| <= MAX_CHILDREN
            && nodes + NodesOf(es) <= MAX_NODES
            && forall x :: x in es ==> DepthWithin(x, MAX_DEPTH + 1 - depth) && AritiesWithin(x)
    ensures ok ==> counted == nodes + NodesOf(es)
    decreases es, 0
  {
    counted := nodes;
    if !(2 <= |es| <= MAX_CHILDREN) {
      return false, counted;
    }
    var index := 0;
    while index < |es|
      invariant 0 <= index <= |es|
      invariant counted == nodes + NodesOf(es[..index]) <= MAX_NODES
      invariant forall x :: x in es[..index] ==> DepthWithin(x, MAX_DEPTH + 1 - depth) && AritiesWithin(x)
    {
      ok, counted := Visit(es[index], depth, counted);
      assert es[..index + 1] == es[..index] + [es[index]];
      assert es[..index + 1][..index] == es[..index];
      NodesPrefix(es, index + 1);
      if !ok {
        assert es[index] in es;
        return;
      }
      index := index + 1;
    }
    assert es[..|es|] == es;
    ok := true;
  }

  lemma {:induction false} NodesPrefix(es: seq<Expression>, k: nat)
    requires k <= |es|
    ensures NodesOf(es[..k]) <= NodesOf(es)
    decreases |es|
  {
    if k < |es| {
      NodesPrefix(es[..|es| - 1], k);
      assert es[..|es| - 1][..k] == es[..k];
    } else {
      assert es[..k] == es;
    }
  }

  method ValidateLimits(e: Expression) returns (ok: bool)
    ensures ok <==> WithinLimits(e)
    ensures ok <==> EncodedLength(e) <= 16384 && Nodes(e) <= 128 && DepthWithin(e, 16) && AritiesWithin(e)
  {
    if EncodedLength(e) > MAX_BYTES {
      return false;
    }
    var counted;
    ok, counted := Visit(e, 1, 0);
  }

  // ---- Compilation ----

  /** The type a parameter has for a filter; an event's indexed dynamic value is a 32-byte topic. */
  function ValueTypeOf(param: AbiParam, event: bool): ValueType {
    if event && param.indexed && (param.ty.StringType? || param.ty.BytesType?) then BytesValue(Some(32))
    else match param.ty
      case UintType(bits) => UintValue(bits)
      case IntType(bits) => IntValue(bits)
      case BoolType => BoolValue
      case AddressType => AddressValue
      case StringType => StringValue
      case BytesType => BytesValue(None)
      case FixedBytesType(size) => BytesValue(Some(size))
      case FunctionType => BytesValue(Some(24))
  }

  function FindParam(params: seq<AbiParam>, name: string): (r: Option<nat>)
    ensures r.Some? ==> r.value < |params| && params[r.value].name == name
    ensures r.Some? ==> forall i :: 0 <= i < r.value ==> params[i].name != name
    ensures r.None? ==> forall i :: 0 <= i < |params| ==> params[i].name != name
  {
    FindParamFrom(params, name, 0)
  }

  function FindParamFrom(params: seq<AbiParam>, name: string, from: nat): (r: Option<nat>)
    requires from <= |params|
    requires forall i :: 0 <= i < from ==> params[i].name != name
    ensures r.Some? ==> r.value < |params| && params[r.value].name == name
    ensures r.Some? ==> forall i :: 0 <= i < r.value ==> params[i].name != name
    ensures r.None? ==> forall i :: 0 <= i < |params| ==> params[i].name != name
    decreases |params| - from
  {
    if from == |params| then None
    else if params[from].name == name then Some(from)
    else FindParamFrom(params, name, from + 1)
  }

  const PARAMS_PREFIX := "params."

  function ResolveField(target: Target, field: string): Option<(Field, ValueType)> {
    if field == "block.number" then Some((BlockNumber, UintValue(64)))
    else if field == "tx.hash" then Some((TransactionHash, BytesValue(Some(32))))
    else if target.CallTarget? && field == "tx.from" then Some((CallFrom, AddressValue))
    else if target.CallTarget? && field == "tx.to" then Some((CallTo, AddressValue))
    else if target.EventTarget? && field == "event.emitter" then Some((EventEmitter, AddressValue))
    else if target.EventTarget? && field == "event.log_index" then Some((EventLogIndex, UintValue(64)))
    else if PARAMS_PREFIX <= field then
      match FindParam(target.params, field[|PARAMS_PREFIX|..])
      case None => None
      case Some(index) => Some((Parameter(index), ValueTypeOf(target.params[index], target.EventTarget?)))
    else None
  }

  /** The typed literal together with its canonical JSON. */
  function ParseValue(ty: ValueType, value: Json): Option<(Value, Json)> {
    match ty
    case UintValue(bits) =>
      if value.JString? && value.s != "" && IsDigits(value.s) && ParseNat(value.s) < Pow2(bits)
      then Some((Uint(ParseNat(value.s)), JString(PrintNat(ParseNat(value.s))))) else None
    case IntValue(bits) =>
      if value.JString? && IsSigned(value.s) && bits >= 1 && 0 - Pow2(bits - 1) <= ParseInt(value.s) < Pow2(bits - 1)
      then Some((Int(ParseInt(value.s)), JString(PrintInt(ParseInt(value.s))))) else None
    case BoolValue =>
      if value.JBool? then Some((Bool(value.b), value)) else None
    case AddressValue =>
      if value.JString? && Prefixed(value.s) && |value.s| == 42 && IsHex(value.s[2..])
      then Some((Addr(HexDecode(value.s[2..])), JString(HexText(HexDecode(value.s[2..]))))) else None
    case StringValue =>
      if value.JString? then Some((Text(value.s), value)) else None
    case BytesValue(size) =>
      if && value.JString? && Prefixed(value.s) && |value.s| % 2 == 0 && IsHex(value.s[2..])
         && (size.Some? ==> |HexDecode(value.s[2..])| == size.value)
      then Some((Raw(HexDecode(value.s[2..])), JString(HexText(HexDecode(value.s[2..]))))) else None
  }

  function Compile(e: Expression, target: Target): Option<(Expression, Compiled)>
    decreases e, 1
  {
    match e
    case And(all) =>
      (match CompileAll(all, target)
       case None => None
       case Some((sources, compiled)) => Some((And(sources), CAnd(compiled))))
    case Or(any) =>
      (match CompileAll(any, target)
       case None => None
       case Some((sources, compiled)) => Some((Or(sources), COr(compiled))))
    case Not(inner) =>
      (match Compile(inner, target)
       case None => None
       case Some((source, compiled)) => Some((Not(source), CNot(compiled))))
    case Compare(field, op, value) =>
      match ResolveField(target, field)
      case None => None
      case Some((resolved, ty)) =>
        if Ordered(op) && !ty.UintValue? && !ty.IntValue? then None
        else
          match ParseValue(ty, value)
          case None => None
          case Some((literal, canonical)) =>
            Some((Compare(field, op, canonical), CCompare(resolved, op, literal)))
  }

  function CompileAll(es: seq<Expression>, target: Target): (r: Option<(seq<Expression>, seq<Compiled>)>)
    ensures r.Some? ==> |r.value.0| == |r.value.1| == |es|
    decreases es, 0
  {
    if es == [] then Some(([], []))
    else
      match Compile(es[0], target)
      case None => None
      case Some((source, compiled)) =>
        match CompileAll(es[1..], target)
        case None => None
        case Some((sources, rest)) => Some(([source] + sources, [compiled] + rest))
  }

  function Prepare(e: Expression, target: Target): Option<(Expression, Compiled)> {
    if WithinLimits(e) then Compile(e, target) else None
  }

  // ---- Evaluation ----

  function ResolveValue(field: Field, ctx: Context): Result<Value> {
    match field
    case BlockNumber => Ok(Uint(ctx.block))
    case TransactionHash => Ok(Raw(ctx.txHash))
    case CallFrom => if ctx.CallContext? then Ok(Addr(ctx.from)) else Err
    case CallTo => if ctx.CallContext? then Ok(Addr(ctx.to)) else Err
    case EventEmitter => if ctx.EventContext? then Ok(Addr(ctx.emitter)) else Err
    case EventLogIndex => if ctx.EventContext? then Ok(Uint(ctx.logIndex)) else Err
    case Parameter(index) => if index < |ctx.params| then Ok(ctx.params[index]) else Err
  }

  /** Strict byte order on two byte strings, a proper prefix first. */
  predicate BytesLess(a: seq<int>, b: seq<int>) {
    if b == [] then false
    else if a == [] then true
    else a[0] < b[0] || (a[0] == b[0] && BytesLess(a[1..], b[1..]))
  }

  function Codes(s: string): seq<int> {
    seq(|s|, i requires 0 <= i < |s| => s[i] as int)
  }

  /** `left op right` once equality and strict order are known. */
  predicate Apply(op: Operator, equal: bool, less: bool, greater: bool) {
    match op
    case Eq => equal
    case Ne => !equal
    case Gt => greater
    case Gte => greater || equal
    case Lt => less
    case Lte => less || equal
  }

  function CompareValues(left: Value, op: Operator, right: Value): Result<bool> {
    match (left, right)
    case (Uint(a), Uint(b)) => Ok(Apply(op, a == b, a < b, a > b))
    case (Int(a), Int(b)) => Ok(Apply(op, a == b, a < b, a > b))
    case (Bool(a), Bool(b)) => Ok(Apply(op, a == b, !a && b, a && !b))
    case (Addr(a), Addr(b)) => Ok(Apply(op, a == b, BytesLess(a, b), BytesLess(b, a)))
    case (Text(a), Text(b)) => Ok(Apply(op, a == b, BytesLess(Codes(a), Codes(b)), BytesLess(Codes(b), Codes(a))))
    case (Raw(a), Raw(b)) => Ok(Apply(op, a == b, BytesLess(a, b), BytesLess(b, a)))
    case _ => Err
  }

  function EvaluateCompiled(c: Compiled, ctx: Context): Result<bool>
    decreases c, 1
  {
    match c
    case CAnd(all) => EvaluateAnd(all, ctx)
    case COr(any) => EvaluateOr(any, ctx)
    case CNot(inner) =>
      var value :- EvaluateCompiled(inner, ctx);
      Ok(!value)
    case CCompare(field, op, literal) =>
      var value :- ResolveValue(field, ctx);
      CompareValues(value, op, literal)
  }

  function EvaluateAnd(cs: seq<Compiled>, ctx: Context): Result<bool>
    decreases cs, 0
  {
    if cs == [] then Ok(true)
    else
      var first :- EvaluateCompiled(cs[0], ctx);
      if !first then Ok(false) else EvaluateAnd(cs[1..], ctx)
  }

  function EvaluateOr(cs: seq<Compiled>, ctx: Context): Result<bool>
    decreases cs, 0
  {
    if cs == [] then Ok(false)
    else
      var first :- EvaluateCompiled(cs[0], ctx);
      if first then Ok(true) else EvaluateOr(cs[1..], ctx)
  }

  function Evaluate(filter: Filter, ctx: Context): Result<bool> {
    match filter
    case All => Ok(true)
    case Expr(compiled) => EvaluateCompiled(compiled, ctx)
  }
}
