/** What compiling a filter promises: evaluation never fails and means what the expression says, and
    the canonical expression is a fixed point that always reloads within the limits. */
module FilterProofs {
  import opened Domain
  import opened Text
  import opened FilterCompiler

  // ---- Meaning of a source expression, without compiling it ----

  /** The value a field names in a result, looked up by name. */
  function Lookup(field: string, target: Target, ctx: Context): Option<Value> {
    if field == "block.number" then Some(Uint(ctx.block))
    else if field == "tx.hash" then Some(Raw(ctx.txHash))
    else if field == "tx.from" && ctx.CallContext? then Some(Addr(ctx.from))
    else if field == "tx.to" && ctx.CallContext? then Some(Addr(ctx.to))
    else if field == "event.emitter" && ctx.EventContext? then Some(Addr(ctx.emitter))
    else if field == "event.log_index" && ctx.EventContext? then Some(Uint(ctx.logIndex))
    else if PARAMS_PREFIX <= field then
      match FindParam(target.params, field[|PARAMS_PREFIX|..])
      case None => None
      case Some(index) => if index < |ctx.params| then Some(ctx.params[index]) else None
    else None
  }

  predicate IsHexText(value: Json) {
    value.JString? && Prefixed(value.s) && |value.s| % 2 == 0 && IsHex(value.s[2..])
  }

  /** `v op literal`, the literal read as the kind of value `v` is. */
  predicate LiteralHolds(v: Value, op: Operator, value: Json) {
    match v
    case Uint(n) => value.JString? && IsDigits(value.s) && NumberHolds(n, op, ParseNat(value.s))
    case Int(i) => value.JString? && IsSigned(value.s) && NumberHolds(i, op, ParseInt(value.s))
    case Bool(b) => value.JBool? && EqualityHolds(op, b == value.b)
    case Text(s) => value.JString? && EqualityHolds(op, s == value.s)
    case Addr(a) => IsHexText(value) && EqualityHolds(op, a == HexDecode(value.s[2..]))
    case Raw(b) => IsHexText(value) && EqualityHolds(op, b == HexDecode(value.s[2..]))
  }

  predicate NumberHolds(n: int, op: Operator, m: int) {
    && (op == Eq ==> n == m)
    && (op == Ne ==> n != m)
    && (op == Gt ==> n > m)
    && (op == Gte ==> n >= m)
    && (op == Lt ==> n < m)
    && (op == Lte ==> n <= m)
  }

  predicate EqualityHolds(op: Operator, equal: bool) {
    (op == Eq && equal) || (op == Ne && !equal)
  }

  predicate Holds(e: Expression, target: Target, ctx: Context)
    decreases e
  {
    match e
    case And(all) => forall x :: x in all ==> Holds(x, target, ctx)
    case Or(any) => exists x :: x in any && Holds(x, target, ctx)
    case Not(inner) => !Holds(inner, target, ctx)
    case Compare(field, op, value) =>
      var v := Lookup(field, target, ctx);
      v.Some? && LiteralHolds(v.value, op, value)
  }

  /** A result of the target's kind whose parameters have the schema's decoded types. */
  predicate Fits(ctx: Context, target: Target) {
    && ctx.CallContext? == target.CallTarget?
    && |ctx.params| == |target.params|
    && forall i :: 0 <= i < |ctx.params| ==>
         HasType(ctx.params[i], target.params[i].ty, target.EventTarget? && target.params[i].indexed)
  }

  /** The run-time kind of a field of type `ty`. */
  predicate Inhabits(v: Value, ty: ValueType) {
    match ty
    case UintValue(_) => v.Uint?
    case IntValue(_) => v.Int?
    case BoolValue => v.Bool?
    case AddressValue => v.Addr?
    case StringValue => v.Text?
    case BytesValue(_) => v.Raw?
  }

  lemma FieldMeans(field: string, target: Target, ctx: Context)
    requires Fits(ctx, target)
    requires ResolveField(target, field).Some?
    ensures var (resolved, ty) := ResolveField(target, field).value;
            var v := Lookup(field, target, ctx);
            v.Some? && ResolveValue(resolved, ctx) == Ok(v.value) && Inhabits(v.value, ty)
  {
  }

  lemma LiteralMeans(v: Value, ty: ValueType, op: Operator, value: Json)
    requires Inhabits(v, ty)
    requires ParseValue(ty, value).Some?
    requires Ordered(op) ==> ty.UintValue? || ty.IntValue?
    ensures CompareValues(v, op, ParseValue(ty, value).value.0) == Ok(LiteralHolds(v, op, value))
  {
  }

  lemma CompareMeans(field: string, op: Operator, value: Json, target: Target, ctx: Context)
    requires Fits(ctx, target)
    requires Compile(Compare(field, op, value), target).Some?
    ensures var c := Compile(Compare(field, op, value), target).value.1;
            EvaluateCompiled(c, ctx) == Ok(Holds(Compare(field, op, value), target, ctx))
  {
    var (resolved, ty) := ResolveField(target, field).value;
    FieldMeans(field, target, ctx);
    LiteralMeans(Lookup(field, target, ctx).value, ty, op, value);
  }

  /** Compiled evaluation never errors and agrees with the expression's own meaning. */
  lemma {:induction false} CompileMeans(e: Expression, target: Target, ctx: Context)
    requires Fits(ctx, target)
    requires Compile(e, target).Some?
    ensures EvaluateCompiled(Compile(e, target).value.1, ctx) == Ok(Holds(e, target, ctx))
    decreases e, 1
  {
    match e
    case And(all) => CompileAllMeans(all, target, ctx);
    case Or(any) => CompileAllMeans(any, target, ctx);
    case Not(inner) => CompileMeans(inner, target, ctx);
    case Compare(field, op, value) => CompareMeans(field, op, value, target, ctx);
  }

  lemma {:induction false} CompileAllMeans(es: seq<Expression>, target: Target, ctx: Context)
    requires Fits(ctx, target)
    requires CompileAll(es, target).Some?
    ensures var cs := CompileAll(es, target).value.1;
            && EvaluateAnd(cs, ctx) == Ok(forall x :: x in es ==> Holds(x, target, ctx))
            && EvaluateOr(cs, ctx) == Ok(exists x :: x in es && Holds(x, target, ctx))
    decreases es, 0
  {
    if es == [] {
    } else {
      var cs := CompileAll(es, target).value.1;
      var rest := CompileAll(es[1..], target).value.1;
      CompileMeans(es[0], target, ctx);
      CompileAllMeans(es[1..], target, ctx);
      assert cs[1..] == rest;
      assert forall x :: x in es <==> x == es[0] || x in es[1..];
    }
  }

  // ---- Which expressions compile ----

  /** The type of a field's value, if the target has the field. */
  ghost predicate FieldHasType(target: Target, field: string, ty: ValueType) {
    || (field == "block.number" && ty == UintValue(64))
    || (field == "tx.hash" && ty == BytesValue(Some(32)))
    || (target.CallTarget? && field in {"tx.from", "tx.to"} && ty == AddressValue)
    || (target.EventTarget? && field == "event.emitter" && ty == AddressValue)
    || (target.EventTarget? && field == "event.log_index" && ty == UintValue(64))
    || exists i: nat :: i < |target.params| && FirstNamed(target.params, i, field) && ParamHasType(target.params[i], target.EventTarget?, ty)
  }

  /** `params.` and the name, which no earlier parameter has. */
  predicate FirstNamed(params: seq<AbiParam>, i: nat, field: string)
    requires i < |params|
  {
    field == "params." + params[i].name && forall j :: 0 <= j < i ==> params[j].name != params[i].name
  }

  predicate ParamHasType(param: AbiParam, event: bool, ty: ValueType) {
    if event && param.indexed && param.ty in {StringType, BytesType} then ty == BytesValue(Some(32))
    else
      match ty
      case UintValue(bits) => param.ty == UintType(bits)
      case IntValue(bits) => param.ty == IntType(bits)
      case BoolValue => param.ty == BoolType
      case AddressValue => param.ty == AddressType
      case StringValue => param.ty == StringType
      case BytesValue(None) => param.ty == BytesType
      case BytesValue(Some(size)) => param.ty == FixedBytesType(size) || (param.ty == FunctionType && size == 24)
  }

  /** A literal of the type: decimal text within the width, a boolean, any text, or hexadecimal text of
      the size. */
  predicate IsLiteral(ty: ValueType, value: Json) {
    match ty
    case UintValue(bits) => value.JString? && value.s != "" && IsDigits(value.s) && ParseNat(value.s) < Pow2(bits)
    case IntValue(bits) =>
      value.JString? && IsSigned(value.s) && bits >= 1 && 0 - Pow2(bits - 1) <= ParseInt(value.s) < Pow2(bits - 1)
    case BoolValue => value.JBool?
    case AddressValue => IsHexText(value) && |value.s| == 42
    case StringValue => value.JString?
    case BytesValue(size) => IsHexText(value) && (size.Some? ==> |value.s| == 2 + 2 * size.value)
  }

  /** Every comparison names a field of the target, compares it with a literal of its type, and orders
      numbers only. */
  ghost predicate Accepts(e: Expression, target: Target)
    decreases e
  {
    match e
    case And(all) => forall x :: x in all ==> Accepts(x, target)
    case Or(any) => forall x :: x in any ==> Accepts(x, target)
    case Not(inner) => Accepts(inner, target)
    case Compare(field, op, value) =>
      exists ty :: FieldHasType(target, field, ty) && IsLiteral(ty, value) &&
                   (op in {Gt, Gte, Lt, Lte} ==> ty.UintValue? || ty.IntValue?)
  }

  /** A path names a parameter exactly if it is the prefix followed by its name. */
  lemma ParamNames(field: string, params: seq<AbiParam>)
    ensures forall i :: 0 <= i < |params| ==>
              (field == PARAMS_PREFIX + params[i].name <==> PARAMS_PREFIX <= field && params[i].name == field[|PARAMS_PREFIX|..])
  {
    forall i | 0 <= i < |params|
      ensures field == PARAMS_PREFIX + params[i].name <==> PARAMS_PREFIX <= field && params[i].name == field[|PARAMS_PREFIX|..]
    {
      assert (PARAMS_PREFIX + params[i].name)[|PARAMS_PREFIX|..] == params[i].name;
      assert PARAMS_PREFIX <= field ==> field == PARAMS_PREFIX + field[|PARAMS_PREFIX|..];
    }
  }

  lemma FieldResolves(target: Target, field: string, ty: ValueType)
    ensures ResolveField(target, field).Some? && ResolveField(target, field).value.1 == ty <==> FieldHasType(target, field, ty)
  {
    ParamNames(field, target.params);
    if PARAMS_PREFIX <= field {
      NotAParam(field);
    }
  }

  /** The field names this part of the result: the block, the hash, an address, the log index, or the value
      of the first parameter of that name. */
  ghost predicate Denotes(field: string, target: Target, ctx: Context, v: Value) {
    || (match ctx
        case CallContext(block, txHash, from, to, _) =>
          || (field == "block.number" && v == Uint(block))
          || (field == "tx.hash" && v == Raw(txHash))
          || (field == "tx.from" && v == Addr(from))
          || (field == "tx.to" && v == Addr(to))
        case EventContext(block, txHash, emitter, logIndex, _) =>
          || (field == "block.number" && v == Uint(block))
          || (field == "tx.hash" && v == Raw(txHash))
          || (field == "event.emitter" && v == Addr(emitter))
          || (field == "event.log_index" && v == Uint(logIndex)))
    || exists i: nat :: i < |target.params| && i < |ctx.params| && FirstNamed(target.params, i, field) && v == ctx.params[i]
  }

  lemma LookupDenotes(field: string, target: Target, ctx: Context, v: Value)
    requires Fits(ctx, target)
    ensures Lookup(field, target, ctx) == Some(v) <==> Denotes(field, target, ctx, v)
  {
    ParamNames(field, target.params);
    if PARAMS_PREFIX <= field {
      NotAParam(field);
    }
  }

  lemma NotAParam(field: string)
    requires PARAMS_PREFIX <= field
    ensures field !in {"block.number", "tx.hash", "tx.from", "tx.to", "event.emitter", "event.log_index"}
  {
    assert field[0] == 'p';
  }

  lemma LiteralParses(ty: ValueType, value: Json)
    ensures ParseValue(ty, value).Some? <==> IsLiteral(ty, value)
  {
  }

  lemma CompareAccepts(field: string, op: Operator, value: Json, target: Target)
    ensures Compile(Compare(field, op, value), target).Some? <==> Accepts(Compare(field, op, value), target)
  {
    forall ty
      ensures ResolveField(target, field).Some? && ResolveField(target, field).value.1 == ty <==> FieldHasType(target, field, ty)
      ensures ParseValue(ty, value).Some? <==> IsLiteral(ty, value)
    {
      FieldResolves(target, field, ty);
      LiteralParses(ty, value);
    }
  }

  /** An expression compiles exactly if every comparison in it is acceptable. */
  lemma {:induction false} CompileAccepts(e: Expression, target: Target)
    ensures Compile(e, target).Some? <==> Accepts(e, target)
    decreases e, 1
  {
    match e
    case And(all) => CompileAllAccepts(all, target);
    case Or(any) => CompileAllAccepts(any, target);
    case Not(inner) => CompileAccepts(inner, target);
    case Compare(field, op, value) => CompareAccepts(field, op, value, target);
  }

  lemma {:induction false} CompileAllAccepts(es: seq<Expression>, target: Target)
    ensures CompileAll(es, target).Some? <==> forall x :: x in es ==> Accepts(x, target)
    decreases es, 0
  {
    if es == [] {
    } else {
      CompileAccepts(es[0], target);
      CompileAllAccepts(es[1..], target);
      assert forall x :: x in es <==> x == es[0] || x in es[1..];
    }
  }

  /** A monitor's filter as every storage adapter loads it: none, or compiled against its target. */
  ghost predicate CompiledFor(filter: Filter, target: Target) {
    filter.Expr? ==>
      exists e :: Compile(e, target).Some? && Compile(e, target).value.1 == filter.compiled
  }

  lemma FilterNeverFails(filter: Filter, target: Target, ctx: Context)
    requires CompiledFor(filter, target)
    requires Fits(ctx, target)
    ensures Evaluate(filter, ctx).Ok?
  {
    if filter.Expr? {
      var e :| Compile(e, target).Some? && Compile(e, target).value.1 == filter.compiled;
      CompileMeans(e, target, ctx);
    }
  }

  /** Parameter names play no part: values decoded through any target of the same kind and wire
      layout fit. */
  lemma FitsSameLayout(ctx: Context, a: Target, b: Target)
    requires Fits(ctx, a)
    requires a.CallTarget? == b.CallTarget? && |a.params| == |b.params|
    requires forall i :: 0 <= i < |a.params| ==>
               a.params[i].ty == b.params[i].ty && (a.CallTarget? || a.params[i].indexed == b.params[i].indexed)
    ensures Fits(ctx, b)
  {
  }

  // ---- Canonicalisation ----

  lemma {:induction false} TextLengthAscii(s: string)
    requires IsSigned(s) || IsHex(s) || (Prefixed(s) && IsHex(s[2..]))
    ensures TextLength(s) == |s|
  {
    if s == "" {
    } else {
      assert IsHexDigit(s[0]) || s[0] == '-';
      if s[1..] != "" {
        if Prefixed(s) {
          assert s[1..][1..] == s[2..];
          assert s[1] == 'x';
          TextLengthAscii(s[2..]);
          assert s[1..] == [s[1]] + s[2..];
        } else {
          assert IsHex(s[1..]);
          TextLengthAscii(s[1..]);
        }
      }
    }
  }

  lemma CanonicalLiteral(ty: ValueType, value: Json)
    requires ParseValue(ty, value).Some?
    ensures var (literal, canonical) := ParseValue(ty, value).value;
            && ParseValue(ty, canonical) == Some((literal, canonical))
            && JsonLength(canonical) <= JsonLength(value)
  {
    match ty
    case UintValue(_) =>
      var n := ParseNat(value.s);
      ParsePrintNat(n);
      PrintParseShorter(value.s);
      TextLengthAscii(value.s);
      TextLengthAscii(PrintNat(n));
    case IntValue(_) =>
      var i := ParseInt(value.s);
      ParsePrintInt(i);
      PrintParseIntShorter(value.s);
      TextLengthAscii(value.s);
      TextLengthAscii(PrintInt(i));
    case AddressValue => CanonicalHex(value.s);
    case BytesValue(_) => CanonicalHex(value.s);
    case _ =>
  }

  lemma CanonicalHex(s: string)
    requires Prefixed(s) && |s| % 2 == 0 && IsHex(s[2..])
    ensures var t := HexText(HexDecode(s[2..]));
            && Prefixed(t) && |t| == |s| && IsHex(t[2..])
            && HexDecode(t[2..]) == HexDecode(s[2..])
            && TextLength(t) == TextLength(s)
  {
    var t := HexText(HexDecode(s[2..]));
    DecodeEncode(HexDecode(s[2..]));
    TextLengthAscii(s);
    TextLengthAscii(t);
  }

  /** Same tree, literals aside: what the limits other than the byte limit look at. */
  predicate SameShape(a: Expression, b: Expression)
    decreases a
  {
    match (a, b)
    case (And(x), And(y)) => |x| == |y| && forall i :: 0 <= i < |x| ==> SameShape(x[i], y[i])
    case (Or(x), Or(y)) => |x| == |y| && forall i :: 0 <= i < |x| ==> SameShape(x[i], y[i])
    case (Not(x), Not(y)) => SameShape(x, y)
    case (Compare(f, op, _), Compare(g, op', _)) => f == g && op == op'
    case _ => false
  }

  /** Compiling the canonical expression gives back the same expression and the same compiled tree;
      its encoding is no longer and its shape is unchanged. */
  lemma {:induction false} CanonicalFixedPoint(e: Expression, target: Target)
    requires Compile(e, target).Some?
    ensures var (canonical, compiled) := Compile(e, target).value;
            && Compile(canonical, target) == Some((canonical, compiled))
            && EncodedLength(canonical) <= EncodedLength(e)
            && SameShape(e, canonical)
    decreases e, 1
  {
    match e
    case And(all) => CanonicalFixedPoints(all, target);
    case Or(any) => CanonicalFixedPoints(any, target);
    case Not(inner) => CanonicalFixedPoint(inner, target);
    case Compare(field, op, value) =>
      var (_, ty) := ResolveField(target, field).value;
      CanonicalLiteral(ty, value);
  }

  lemma {:induction false} CanonicalFixedPoints(es: seq<Expression>, target: Target)
    requires CompileAll(es, target).Some?
    ensures var (sources, compiled) := CompileAll(es, target).value;
            && CompileAll(sources, target) == Some((sources, compiled))
            && EncodedLengths(sources) <= EncodedLengths(es)
            && forall i :: 0 <= i < |es| ==> SameShape(es[i], sources[i])
    decreases es, 0
  {
    if es == [] {
    } else {
      CanonicalFixedPoint(es[0], target);
      CanonicalFixedPoints(es[1..], target);
      var (sources, compiled) := CompileAll(es, target).value;
      var (tail, tailCompiled) := CompileAll(es[1..], target).value;
      assert sources[1..] == tail;
      forall i | 0 <= i < |es|
        ensures SameShape(es[i], sources[i])
      {
        if i > 0 {
          assert SameShape(es[1..][i - 1], tail[i - 1]);
        }
      }
    }
  }

  lemma {:induction false} ShapeKeepsNodes(a: Expression, b: Expression)
    requires SameShape(a, b)
    ensures Nodes(a) == Nodes(b)
    decreases a, 1
  {
    match a
    case And(all) => ShapesKeepNodes(all, b.all);
    case Or(any) => ShapesKeepNodes(any, b.any);
    case Not(inner) => ShapeKeepsNodes(inner, b.inner);
    case Compare(_, _, _) =>
  }

  lemma {:induction false} ShapesKeepNodes(a: seq<Expression>, b: seq<Expression>)
    requires |a| == |b| && forall i :: 0 <= i < |a| ==> SameShape(a[i], b[i])
    ensures NodesOf(a) == NodesOf(b)
    decreases a, 0
  {
    if a == [] {
    } else {
      ShapesKeepNodes(a[..|a| - 1], b[..|b| - 1]);
      ShapeKeepsNodes(a[|a| - 1], b[|b| - 1]);
    }
  }

  lemma {:induction false} ShapeKeepsBounds(a: Expression, b: Expression, room: int)
    requires SameShape(a, b)
    ensures DepthWithin(a, room) ==> DepthWithin(b, room)
    ensures AritiesWithin(a) ==> AritiesWithin(b)
    decreases a, 1
  {
    match a
    case And(all) => ShapesKeepBounds(all, b.all, room - 1);
    case Or(any) => ShapesKeepBounds(any, b.any, room - 1);
    case Not(inner) => ShapeKeepsBounds(inner, b.inner, room - 1);
    case Compare(_, _, _) =>
  }

  lemma {:induction false} ShapesKeepBounds(a: seq<Expression>, b: seq<Expression>, room: int)
    requires |a| == |b| && forall i :: 0 <= i < |a| ==> SameShape(a[i], b[i])
    ensures (forall x :: x in a ==> DepthWithin(x, room)) ==> (forall x :: x in b ==> DepthWithin(x, room))
    ensures (forall x :: x in a ==> AritiesWithin(x)) ==> (forall x :: x in b ==> AritiesWithin(x))
    decreases a, 0
  {
    forall i | 0 <= i < |a|
      ensures DepthWithin(a[i], room) ==> DepthWithin(b[i], room)
      ensures AritiesWithin(a[i]) ==> AritiesWithin(b[i])
    {
      ShapeKeepsBounds(a[i], b[i], room);
    }
  }

  /** Whatever was accepted once reloads: preparing the persisted expression succeeds within the
      limits and gives the same compiled filter. */
  lemma PersistedFilterReloads(e: Expression, target: Target)
    requires Prepare(e, target).Some?
    ensures var (canonical, compiled) := Prepare(e, target).value;
            Prepare(canonical, target) == Some((canonical, compiled))
  {
    CanonicalFixedPoint(e, target);
    var (canonical, _) := Compile(e, target).value;
    ShapeKeepsNodes(e, canonical);
    ShapeKeepsBounds(e, canonical, MAX_DEPTH);
  }

  /** The canonical expression means what the submitted one meant. */
  lemma CanonicalKeepsMeaning(e: Expression, target: Target, ctx: Context)
    requires Compile(e, target).Some?
    requires Fits(ctx, target)
    ensures Holds(Compile(e, target).value.0, target, ctx) == Holds(e, target, ctx)
  {
    CanonicalFixedPoint(e, target);
    CompileMeans(e, target, ctx);
    CompileMeans(Compile(e, target).value.0, target, ctx);
  }
}
