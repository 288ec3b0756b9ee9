/** Decoded parameters as they are stored and shown: one canonical JSON object, which both adapters read
    back exactly, and from which a filter preview recovers the decoded values. */
module StoredParams {
  import opened Domain
  import opened Text
  import opened FilterCompiler
  import opened FilterProofs
  import opened ResultColumns
  import Postgres

  // ---- The canonical object ----

  function CanonicalJson(v: Value): Json {
    match v
    case Uint(n) => JString(PrintNat(n))
    case Int(i) => JString(PrintInt(i))
    case Bool(b) => JBool(b)
    case Addr(a) => JString(HexText(a))
    case Text(s) => JString(s)
    case Raw(bytes) => JString(HexText(bytes))
  }

  /** Names paired with values; a later pair of the same name wins, as in every JSON object. */
  function Canonical(params: seq<AbiParam>, values: seq<Value>): map<string, Json>
    requires |params| == |values|
  {
    if params == [] then map[]
    else
      var n := |params| - 1;
      Canonical(params[..n], values[..n])[params[n].name := CanonicalJson(values[n])]
  }

  method CanonicalParams(params: seq<AbiParam>, values: seq<Value>) returns (r: Result<map<string, Json>>)
    ensures r.Ok? <==> |params| == |values|
    ensures r.Ok? ==> r.value == Canonical(params, values)
  {
    if |params| != |values| {
      return Err;
    }
    var fields: map<string, Json> := map[];
    for i := 0 to |params|
      invariant fields == Canonical(params[..i], values[..i])
    {
      assert params[..i + 1][..i] == params[..i] && values[..i + 1][..i] == values[..i];
      fields := fields[params[i].name := CanonicalJson(values[i])];
    }
    assert params[..|params|] == params && values[..|values|] == values;
    r := Ok(fields);
  }

  /** The object shows the value of the last parameter of each name. */
  lemma {:induction false} CanonicalAt(params: seq<AbiParam>, values: seq<Value>, i: nat)
    requires |params| == |values| && i < |params|
    requires forall k :: i < k < |params| ==> params[k].name != params[i].name
    ensures params[i].name in Canonical(params, values) && Canonical(params, values)[params[i].name] == CanonicalJson(values[i])
    decreases |params|
  {
    var n := |params| - 1;
    if i == n {
    } else {
      CanonicalAt(params[..n], values[..n], i);
    }
  }

  lemma {:induction false} CanonicalNames(params: seq<AbiParam>, values: seq<Value>, name: string)
    requires |params| == |values| && name in Canonical(params, values)
    ensures exists i :: 0 <= i < |params| && params[i].name == name
  {
    if params == [] {
    } else {
      var n := |params| - 1;
      if name != params[n].name {
        CanonicalNames(params[..n], values[..n], name);
        var i :| 0 <= i < n && params[..n][i].name == name;
        assert params[i].name == name;
      }
    }
  }

  /** With distinct names the object has exactly one entry per parameter. */
  lemma {:induction false} CanonicalKeys(params: seq<AbiParam>, values: seq<Value>)
    requires |params| == |values|
    requires forall j, k :: 0 <= j < k < |params| ==> params[j].name != params[k].name
    ensures |Canonical(params, values)| == |params|
  {
    if params == [] {
    } else {
      var n := |params| - 1;
      CanonicalKeys(params[..n], values[..n]);
      if params[n].name in Canonical(params[..n], values[..n]) {
        CanonicalNames(params[..n], values[..n], params[n].name);
      }
      assert Canonical(params, values).Keys == Canonical(params[..n], values[..n]).Keys + {params[n].name};
    }
  }

  // ---- PostgreSQL ----

  /** `BigintCell` is for identity and position only. */
  datatype Cell = NumericCell(i: int) | BigintCell(i: int) | BooleanCell(b: bool) | TextCell(s: string) | ByteaCell(bytes: Bytes)

  function CellOf(v: Value): Cell {
    match v
    case Uint(n) => NumericCell(n)
    case Int(i) => NumericCell(i)
    case Bool(b) => BooleanCell(b)
    case Addr(a) => ByteaCell(a)
    case Text(s) => TextCell(s)
    case Raw(bytes) => ByteaCell(bytes)
  }

  /** The cell holds the value itself: numbers as numbers, text as text, everything else as its bytes. */
  predicate CellShows(cell: Cell, v: Value) {
    match v
    case Uint(n) => cell.NumericCell? && cell.i == n
    case Int(i) => cell.NumericCell? && cell.i == i
    case Bool(b) => cell.BooleanCell? && cell.b == b
    case Addr(a) => cell.ByteaCell? && cell.bytes == a
    case Text(s) => cell.TextCell? && cell.s == s
    case Raw(bytes) => cell.ByteaCell? && cell.bytes == bytes
  }

  /** Binds one value per column, and no other column. */
  method WriteRow(params: seq<PgParam>, values: seq<Value>) returns (row: map<string, Cell>)
    requires |params| == |values| && DistinctColumns(params)
    ensures row.Keys == ColumnsOf(params)
    ensures forall i :: 0 <= i < |params| ==> params[i].column in row && row[params[i].column] == CellOf(values[i])
    ensures forall i :: 0 <= i < |params| ==> params[i].column in row && CellShows(row[params[i].column], values[i])
  {
    row := map[];
    for k := 0 to |params|
      invariant row.Keys == set i | 0 <= i < k :: params[i].column
      invariant forall i :: 0 <= i < k ==> params[i].column in row && row[params[i].column] == CellOf(values[i])
    {
      row := row[params[k].column := CellOf(values[k])];
    }
  }

  /** A cell decoded as its column's type; fails on a cell of another type. */
  function ReadCell(ty: ColumnType, cell: Cell): Option<Json> {
    match ty
    case NumericColumn => if cell.NumericCell? then Some(JString(PrintInt(cell.i))) else None
    case BooleanColumn => if cell.BooleanCell? then Some(JBool(cell.b)) else None
    case TextColumn => if cell.TextCell? then Some(JString(cell.s)) else None
    case ByteaColumn => if cell.ByteaCell? then Some(JString(HexText(cell.bytes))) else None
  }

  lemma CellReadsBack(param: AbiParam, v: Value)
    requires HasType(v, param.ty, param.indexed)
    ensures ReadCell(ColumnTypeOf(param), CellOf(v)) == Some(CanonicalJson(v))
  {
  }

  /** What was written for typed values reads back as the canonical object, whatever the columns are
      called and whether or not names repeat. */
  method ReadParams(row: map<string, Cell>, params: seq<PgParam>, ghost schema: seq<AbiParam>, ghost values: seq<Value>)
    returns (r: Result<map<string, Json>>)
    requires |schema| == |values| == |params|
    requires forall i :: 0 <= i < |params| ==>
               params[i].name == schema[i].name && params[i].ty == ColumnTypeOf(schema[i]) &&
               params[i].column in row && row[params[i].column] == CellOf(values[i]) &&
               HasType(values[i], schema[i].ty, schema[i].indexed)
    ensures r == Ok(Canonical(schema, values))
  {
    var fields: map<string, Json> := map[];
    for i := 0 to |params|
      invariant fields == Canonical(schema[..i], values[..i])
    {
      CellReadsBack(schema[i], values[i]);
      assert schema[..i + 1][..i] == schema[..i] && values[..i + 1][..i] == values[..i];
      var value := ReadCell(params[i].ty, row[params[i].column]);
      fields := fields[params[i].name := value.value];
    }
    assert schema[..|schema|] == schema && values[..|values|] == values;
    r := Ok(fields);
  }

  /** Naming, writing and reading together: stored params read back canonically from PostgreSQL. */
  method PostgresRoundTrip(kind: Postgres.ResultKind, schema: seq<AbiParam>, values: seq<Value>) returns (r: Result<map<string, Json>>)
    requires |schema| == |values| && forall i :: 0 <= i < |schema| ==> HasType(values[i], schema[i].ty, schema[i].indexed)
    ensures r == Ok(Canonical(schema, values))
  {
    var params := PostgresParams(kind, schema);
    var row := WriteRow(params, values);
    r := ReadParams(row, params, schema, values);
  }

  // ---- MongoDB ----

  datatype Bson = BString(s: string) | BBoolean(b: bool) | BBinary(bytes: Bytes)

  function BsonOf(v: Value): Bson {
    match v
    case Uint(n) => BString(PrintNat(n))
    case Int(i) => BString(PrintInt(i))
    case Bool(b) => BBoolean(b)
    case Addr(a) => BString(HexText(a))
    case Text(s) => BString(s)
    case Raw(bytes) => BBinary(bytes)
  }

  function BsonParams(params: seq<AbiParam>, values: seq<Value>): map<string, Bson>
    requires |params| == |values|
  {
    if params == [] then map[]
    else
      var n := |params| - 1;
      BsonParams(params[..n], values[..n])[params[n].name := BsonOf(values[n])]
  }

  /** The element holds the value itself: numbers as decimal text, an address as hex text, bytes as bytes. */
  predicate BsonShows(element: Bson, v: Value) {
    match v
    case Uint(n) => element.BString? && IsDigits(element.s) && ParseNat(element.s) == n
    case Int(i) => element.BString? && IsSigned(element.s) && ParseInt(element.s) == i
    case Bool(b) => element.BBoolean? && element.b == b
    case Addr(a) => element.BString? && IsHexText(JString(element.s)) && HexDecode(element.s[2..]) == a
    case Text(s) => element.BString? && element.s == s
    case Raw(bytes) => element.BBinary? && element.bytes == bytes
  }

  lemma BsonOfShows(v: Value)
    ensures BsonShows(BsonOf(v), v)
  {
    match v
    case Uint(n) => ParsePrintNat(n);
    case Int(i) => ParsePrintInt(i);
    case Addr(a) => HexReadsBack(a);
    case _ =>
  }

  /** The document shows the value of the last parameter of each name. */
  lemma {:induction false} BsonAt(params: seq<AbiParam>, values: seq<Value>, i: nat)
    requires |params| == |values| && i < |params|
    requires forall k :: i < k < |params| ==> params[k].name != params[i].name
    ensures params[i].name in BsonParams(params, values) && BsonShows(BsonParams(params, values)[params[i].name], values[i])
    decreases |params|
  {
    var n := |params| - 1;
    if i == n {
      BsonOfShows(values[n]);
    } else {
      BsonAt(params[..n], values[..n], i);
    }
  }

  function JsonOfBson(value: Bson): Json {
    match value
    case BString(s) => JString(s)
    case BBoolean(b) => JBool(b)
    case BBinary(bytes) => JString(HexText(bytes))
  }

  function BsonParamsToJson(document: map<string, Bson>): map<string, Json> {
    map name | name in document :: JsonOfBson(document[name])
  }

  /** Stored params read back canonically from MongoDB. */
  lemma {:induction false} MongoRoundTrip(params: seq<AbiParam>, values: seq<Value>)
    requires |params| == |values|
    ensures BsonParamsToJson(BsonParams(params, values)) == Canonical(params, values)
  {
    if params == [] {
    } else {
      var n := |params| - 1;
      MongoRoundTrip(params[..n], values[..n]);
      assert JsonOfBson(BsonOf(values[n])) == CanonicalJson(values[n]);
    }
  }

  // ---- Filter preview ----

  predicate DistinctNames(params: seq<AbiParam>) {
    forall j, k :: 0 <= j < k < |params| ==> params[j].name != params[k].name
  }

  predicate Parses(param: AbiParam, event: bool, sample: map<string, Json>) {
    param.name in sample && ParseValue(ValueTypeOf(param, event), sample[param.name]).Some?
  }

  function NamesOf(params: seq<AbiParam>): set<string> {
    set i | 0 <= i < |params| :: params[i].name
  }

  /** The values of the first parameters, parsed from the sample. */
  ghost predicate Sampled(params: seq<AbiParam>, event: bool, sample: map<string, Json>, values: seq<Value>) {
    && |values| <= |params|
    && forall i :: 0 <= i < |values| ==> SampledAt(params[i], event, sample, values[i])
  }

  predicate SampledAt(param: AbiParam, event: bool, sample: map<string, Json>, v: Value) {
    Parses(param, event, sample) && v == ParseValue(ValueTypeOf(param, event), sample[param.name]).value.0
  }

  lemma NamesMore(params: seq<AbiParam>, k: nat)
    requires k < |params| && DistinctNames(params[..k])
    ensures NamesOf(params[..k + 1]) == NamesOf(params[..k]) + {params[k].name}
    ensures params[k].name !in NamesOf(params[..k]) ==> DistinctNames(params[..k + 1])
    ensures params[k].name in NamesOf(params[..k]) ==> !DistinctNames(params)
  {
  }

  /** Takes each parameter out of the sample by name; every name must be there once, and nothing else. */
  method DecodeSample(params: seq<AbiParam>, event: bool, sample: map<string, Json>) returns (r: Result<seq<Value>>)
    ensures r.Ok? <==> |sample| == |params| && DistinctNames(params) && forall i :: 0 <= i < |params| ==> Parses(params[i], event, sample)
    ensures r.Ok? ==> |r.value| == |params| && Sampled(params, event, sample, r.value)
  {
    if |sample| != |params| {
      return Err;
    }
    var left := sample;
    var values: seq<Value> := [];
    assert sample - NamesOf(params[..0]) == sample;
    while |values| < |params|
      invariant Sampled(params, event, sample, values)
      invariant left == sample - NamesOf(params[..|values|]) && DistinctNames(params[..|values|])
    {
      var k := |values|;
      var param := params[k];
      NamesMore(params, k);
      if param.name !in left {
        assert !DistinctNames(params) || !Parses(params[k], event, sample);
        return Err;
      }
      var parsed := ParseValue(ValueTypeOf(param, event), left[param.name]);
      if parsed.None? {
        assert !Parses(params[k], event, sample);
        return Err;
      }
      left := left - {param.name};
      assert left == sample - NamesOf(params[..k + 1]);
      values := values + [parsed.value.0];
    }
    assert params[..|params|] == params;
    assert forall i :: 0 <= i < |params| ==> SampledAt(params[i], event, sample, values[i]);
    r := Ok(values);
  }

  lemma ParsedHasType(param: AbiParam, event: bool, value: Json)
    requires ParseValue(ValueTypeOf(param, event), value).Some?
    ensures HasType(ParseValue(ValueTypeOf(param, event), value).value.0, param.ty, event && param.indexed)
  {
  }

  lemma HexReadsBack(b: Bytes)
    ensures var t := HexText(b);
            Prefixed(t) && |t| == 2 + 2 * |b| && IsHex(t[2..]) && HexDecode(t[2..]) == b
  {
    DecodeEncode(b);
  }

  lemma NumberParses(ty: ValueType, v: Value)
    requires match ty
             case UintValue(bits) => v.Uint? && v.n < Pow2(bits)
             case IntValue(bits) => v.Int? && bits >= 1 && 0 - Pow2(bits - 1) <= v.i < Pow2(bits - 1)
             case _ => false
    ensures ParseValue(ty, CanonicalJson(v)) == Some((v, CanonicalJson(v)))
  {
    if v.Uint? {
      ParsePrintNat(v.n);
    } else {
      ParsePrintInt(v.i);
    }
  }

  lemma BytesParse(ty: ValueType, v: Value)
    requires (ty.AddressValue? && v.Addr?) || (ty.BytesValue? && v.Raw? && (ty.size.Some? ==> |v.bytes| == ty.size.value))
    ensures ParseValue(ty, CanonicalJson(v)) == Some((v, CanonicalJson(v)))
  {
    HexReadsBack(if v.Addr? then v.a else v.bytes);
  }

  lemma CanonicalParses(param: AbiParam, event: bool, v: Value)
    requires HasType(v, param.ty, event && param.indexed)
    ensures ParseValue(ValueTypeOf(param, event), CanonicalJson(v)) == Some((v, CanonicalJson(v)))
  {
    var ty := ValueTypeOf(param, event);
    match ty
    case UintValue(_) => NumberParses(ty, v);
    case IntValue(_) => NumberParses(ty, v);
    case AddressValue => BytesParse(ty, v);
    case BytesValue(_) => BytesParse(ty, v);
    case _ =>
  }

  /** Feeding a stored result's params back as a preview sample recovers the decoded values. */
  method SampleInvertsCanonical(params: seq<AbiParam>, event: bool, values: seq<Value>) returns (r: Result<seq<Value>>)
    requires |params| == |values| && DistinctNames(params)
    requires forall i :: 0 <= i < |params| ==> HasType(values[i], params[i].ty, event && params[i].indexed)
    ensures r == Ok(values)
  {
    var sample := CanonicalParams(params, values);
    CanonicalKeys(params, values);
    forall i | 0 <= i < |params|
      ensures SampledAt(params[i], event, sample.value, values[i])
    {
      CanonicalAt(params, values, i);
      CanonicalParses(params[i], event, values[i]);
    }
    r := DecodeSample(params, event, sample.value);
    assert forall i :: 0 <= i < |params| ==> SampledAt(params[i], event, sample.value, r.value[i]) && r.value[i] == values[i];
    assert r.value == values;
  }

  datatype Sample =
    | CallSample(block: U64, txHash: Hash, from: Address, to: Address, params: map<string, Json>)
    | EventSample(block: U64, txHash: Hash, emitter: Address, logIndex: U64, params: map<string, Json>)

  function ContextOf(sample: Sample, values: seq<Value>): Context {
    match sample
    case CallSample(block, txHash, from, to, _) => CallContext(block, txHash, from, to, values)
    case EventSample(block, txHash, emitter, logIndex, _) => EventContext(block, txHash, emitter, logIndex, values)
  }

  /** Previews a filter on a sample. It fails only on an expression that would not be accepted or a sample
      that does not fit the target; otherwise it answers what the submitted expression means. */
  method Preview(target: Target, expression: Expression, sample: Sample) returns (r: Result<(Expression, bool)>, ghost values: seq<Value>)
    ensures r.Ok? ==> Prepare(expression, target).Some? && r.value.0 == Prepare(expression, target).value.0
    ensures r.Ok? && sample.CallSample? ==>
              var ctx := CallContext(sample.block, sample.txHash, sample.from, sample.to, values);
              Fits(ctx, target) && r.value.1 == Holds(expression, target, ctx)
    ensures r.Ok? && sample.EventSample? ==>
              var ctx := EventContext(sample.block, sample.txHash, sample.emitter, sample.logIndex, values);
              Fits(ctx, target) && r.value.1 == Holds(expression, target, ctx)
    ensures r.Ok? ==> Sampled(target.params, target.EventTarget?, sample.params, values) && |values| == |target.params|
    ensures r.Ok? <==>
              && Prepare(expression, target).Some? && sample.CallSample? == target.CallTarget?
              && |sample.params| == |target.params| && DistinctNames(target.params)
              && forall i :: 0 <= i < |target.params| ==> Parses(target.params[i], target.EventTarget?, sample.params)
  {
    values := [];
    var prepared := Prepare(expression, target);
    if prepared.None? || sample.CallSample? != target.CallTarget? {
      return Err, values;
    }
    var decoded := DecodeSample(target.params, target.EventTarget?, sample.params);
    if decoded.Err? {
      return Err, values;
    }
    values := decoded.value;
    forall i | 0 <= i < |values|
      ensures HasType(values[i], target.params[i].ty, target.EventTarget? && target.params[i].indexed)
    {
      assert SampledAt(target.params[i], target.EventTarget?, sample.params, values[i]);
      ParsedHasType(target.params[i], target.EventTarget?, sample.params[target.params[i].name]);
    }
    CompileMeans(expression, target, ContextOf(sample, values));
    var matches := EvaluateCompiled(prepared.value.1, ContextOf(sample, decoded.value));
    r := Ok((prepared.value.0, matches.value));
  }
}
