/** The domain types every other module shares: widths, ABI types and values, monitors with their
    range and cursor, and the source data a worker reads. */
module Domain {

  const U64_MAX: int := 0xFFFF_FFFF_FFFF_FFFF
  const I64_MAX: int := 0x7FFF_FFFF_FFFF_FFFF

  type U64 = n: int | 0 <= n <= U64_MAX
  type Byte = n: int | 0 <= n < 256
  type Bytes = seq<Byte>
  type Address = b: Bytes | |b| == 20 witness seq(20, _ => 0)
  type Hash = b: Bytes | |b| == 32 witness seq(32, _ => 0)
  type Selector = b: Bytes | |b| == 4 witness seq(4, _ => 0)
  type Url = nat

  datatype Option<+T> = None | Some(value: T)

  datatype Result<+T> = Ok(value: T) | Err {
    predicate IsFailure() { Err? }
    function PropagateFailure<U>(): Result<U> requires Err? { Err }
    function Extract(): T requires Ok? { value }
  }

  /** Rust's `u64::saturating_add`. */
  function SaturatingAdd(a: U64, b: U64): (r: U64)
    ensures a + b <= U64_MAX ==> r == a + b
    ensures r >= a && r >= b
  {
    if a + b > U64_MAX then U64_MAX else a + b
  }

  /** Rust's `u64::saturating_sub`. */
  function SaturatingSub(a: U64, b: U64): (r: U64)
    ensures b <= a ==> r + b == a
    ensures a <= b ==> r == 0
  {
    if a < b then 0 else a - b
  }

  function Min(a: int, b: int): (r: int)
    ensures r <= a && r <= b && (r == a || r == b)
  {
    if a <= b then a else b
  }

  function Pow2(n: nat): (r: nat)
    ensures r >= 1
  {
    if n == 0 then 1 else 2 * Pow2(n - 1)
  }

  // ---- ABI ----

  datatype AbiType =
    | UintType(bits: nat)
    | IntType(bits: nat)
    | BoolType
    | AddressType
    | StringType
    | BytesType
    | FixedBytesType(size: nat)
    | FunctionType

  datatype AbiParam = AbiParam(name: string, ty: AbiType, indexed: bool)

  datatype Value =
    | Uint(n: nat)
    | Int(i: int)
    | Bool(b: bool)
    | Addr(a: Address)
    | Text(s: string)
    | Raw(bytes: Bytes)

  /** What the decoder yields for one parameter. An indexed `string` or `bytes` is only seen as the
      32-byte topic that hashes it. */
  predicate HasType(v: Value, ty: AbiType, hashed: bool) {
    match ty
    case UintType(bits) => v.Uint? && v.n < Pow2(bits)
    case IntType(bits) => v.Int? && bits >= 1 && 0 - Pow2(bits - 1) <= v.i < Pow2(bits - 1)
    case BoolType => v.Bool?
    case AddressType => v.Addr?
    case StringType => if hashed then v.Raw? && |v.bytes| == 32 else v.Text?
    case BytesType => v.Raw? && (hashed ==> |v.bytes| == 32)
    case FixedBytesType(size) => v.Raw? && |v.bytes| == size
    case FunctionType => v.Raw? && |v.bytes| == 24
  }

  // ---- Monitors ----

  datatype Target =
    | CallTarget(address: Address, selector: Selector, params: seq<AbiParam>)
    | EventTarget(address: Address, topic0: Hash, params: seq<AbiParam>)

  datatype Operator = Eq | Ne | Gt | Gte | Lt | Lte

  datatype Field =
    | BlockNumber
    | TransactionHash
    | CallFrom
    | CallTo
    | EventEmitter
    | EventLogIndex
    | Parameter(index: nat)

  datatype Compiled =
    | CAnd(all: seq<Compiled>)
    | COr(any: seq<Compiled>)
    | CNot(inner: Compiled)
    | CCompare(field: Field, op: Operator, literal: Value)

  datatype Filter = All | Expr(compiled: Compiled)

  datatype Monitor = Monitor(
    id: nat,
    chain: nat,
    target: Target,
    start: U64,
    end: Option<U64>,
    cursor: Option<U64>,
    completed: bool,
    enabled: bool,
    filter: Filter)
  {
    predicate Covers(block: U64) {
      && enabled
      && !completed
      && block >= start
      && (end.Some? ==> block <= end.value)
    }

    function NextBlock(): U64 {
      CursorNext(cursor, start)
    }

    predicate NeedsBlock(block: U64) {
      Covers(block) && (cursor.Some? ==> cursor.value < block)
    }

    /** Enabled and not finished: what a poll keeps. */
    predicate Active() {
      enabled && !completed
    }
  }

  function CursorNext(cursor: Option<U64>, start: U64): U64 {
    match cursor
    case None => start
    case Some(block) => SaturatingAdd(block, 1)
  }

  // ---- Source data ----

  datatype Transaction = Transaction(hash: Hash, from: Address, to: Address, input: Bytes)

  datatype Block = Block(number: U64, transactions: seq<Transaction>)

  datatype Outcome = Outcome(hash: Hash, succeeded: bool)

  datatype Log = Log(
    block: Option<U64>,
    txHash: Option<Hash>,
    logIndex: Option<U64>,
    address: Address,
    topics: seq<Hash>,
    data: Bytes,
    removed: bool)

  datatype LogTarget = LogTarget(address: Address, topic0: Hash)

  datatype Decoded =
    | DecodedCall(monitor: nat, block: U64, txHash: Hash, from: Address, to: Address, params: seq<Value>)
    | DecodedEvent(monitor: nat, block: U64, txHash: Hash, logIndex: U64, params: seq<Value>)

  datatype BlockPlan = BlockPlan(block: U64, indices: seq<nat>)

  predicate Ascending(s: seq<nat>) {
    forall i, j :: 0 <= i < j < |s| ==> s[i] < s[j]
  }

  predicate AscendingPlans(plans: seq<BlockPlan>) {
    forall i, j :: 0 <= i < j < |plans| ==> plans[i].block < plans[j].block
  }
}
