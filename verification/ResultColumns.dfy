/** Naming the parameter columns of a result table. */
module ResultColumns {
  import opened Domain
  import opened Text
  import opened Postgres

  datatype ColumnType = NumericColumn | BooleanColumn | TextColumn | ByteaColumn

  datatype PgParam = PgParam(name: string, column: string, ty: ColumnType)

  /** An indexed string or bytes value is stored as the 32-byte topic it was seen as. */
  function ColumnTypeOf(param: AbiParam): ColumnType {
    if param.indexed && (param.ty.StringType? || param.ty.BytesType?) then ByteaColumn
    else match param.ty
      case UintType(_) => NumericColumn
      case IntType(_) => NumericColumn
      case BoolType => BooleanColumn
      case AddressType => ByteaColumn
      case StringType => TextColumn
      case BytesType => ByteaColumn
      case FixedBytesType(_) => ByteaColumn
      case FunctionType => ByteaColumn
  }

  function Reserved(kind: ResultKind): set<string> {
    match kind
    case CallResults => {"tx_hash", "block_number"}
    case EventResults => {"tx_hash", "log_index", "block_number"}
  }

  function BaseOf(kind: ResultKind, name: string): string {
    if name in Reserved(kind) then name + "_param" else name
  }

  /** The `n`-th name tried for a base. */
  function Candidate(base: string, n: nat): string {
    if n == 0 then base else base + "_" + PrintNat(n)
  }

  lemma CandidatesDiffer(base: string, a: nat, b: nat)
    requires a != b
    ensures Candidate(base, a) != Candidate(base, b)
  {
    if a > 0 && b > 0 && Candidate(base, a) == Candidate(base, b) {
      var front := |base| + 1;
      assert Candidate(base, a)[front..] == PrintNat(a) && Candidate(base, b)[front..] == PrintNat(b);
      PrintNatInjective(a, b);
    }
  }

  /** No candidate is one of the fixed columns: a reserved base is renamed, and a suffixed name ends in a
      digit. */
  lemma NeverReserved(kind: ResultKind, name: string, n: nat)
    ensures Candidate(BaseOf(kind, name), n) !in Reserved(kind)
  {
    var base := BaseOf(kind, name);
    var candidate := Candidate(base, n);
    if n > 0 {
      var digits := PrintNat(n);
      assert candidate[|candidate| - 1] == digits[|digits| - 1];
      assert IsDigit(candidate[|candidate| - 1]);
    } else if name in Reserved(kind) {
      assert candidate == name + "_param" && |candidate| == |name| + 6;
      assert candidate[|candidate| - 1] == 'm';
    }
  }

  /** The first `n` names tried for a base. */
  function Tried(base: string, n: nat): set<string> {
    if n == 0 then {} else Tried(base, n - 1) + {Candidate(base, n - 1)}
  }

  lemma {:induction false} TriedHas(base: string, n: nat, k: nat)
    requires k < n
    ensures Candidate(base, k) in Tried(base, n)
  {
    if k == n - 1 {
    } else {
      TriedHas(base, n - 1, k);
    }
  }

  /** A later name was not tried before. */
  lemma {:induction false} LaterIsFresh(base: string, n: nat, m: nat)
    requires n <= m
    ensures Candidate(base, m) !in Tried(base, n)
  {
    if n == 0 {
    } else {
      LaterIsFresh(base, n - 1, m);
      CandidatesDiffer(base, n - 1, m);
    }
  }

  lemma TakenIsProgress(base: string, used: set<string>, n: nat)
    requires Tried(base, n) <= used && Candidate(base, n) in used
    ensures Tried(base, n + 1) <= used && |used - Tried(base, n + 1)| < |used - Tried(base, n)|
  {
    LaterIsFresh(base, n, n);
    assert Tried(base, n + 1) == Tried(base, n) + {Candidate(base, n)};
    assert used - Tried(base, n + 1) == used - Tried(base, n) - {Candidate(base, n)};
  }

  /** The first free name for a base. Each name that is taken is another element of `used`, so the search
      ends. */
  method FreeColumn(base: string, used: set<string>) returns (column: string, ghost n: nat)
    ensures column == Candidate(base, n) && column !in used
    ensures forall k: nat :: k < n ==> Candidate(base, k) in used
  {
    column := base;
    n := 0;
    var suffix := 1;
    assert Tried(base, 0) == {};
    while column in used
      invariant column == Candidate(base, n) && suffix == n + 1
      invariant Tried(base, n) <= used
      decreases |used - Tried(base, n)|
    {
      TakenIsProgress(base, used, n);
      column := base + "_" + PrintNat(suffix);
      suffix := suffix + 1;
      n := n + 1;
    }
    forall k: nat | k < n
      ensures Candidate(base, k) in used
    {
      TriedHas(base, n, k);
    }
  }

  predicate DistinctColumns(params: seq<PgParam>) {
    forall i, j :: 0 <= i < j < |params| ==> params[i].column != params[j].column
  }

  function ColumnsOf(params: seq<PgParam>): set<string> {
    set i | 0 <= i < |params| :: params[i].column
  }

  /** For every parameter list, duplicates and suffix collisions included: naming ends, keeps names and
      order, and gives pairwise distinct columns, none of them a fixed one. */
  method PostgresParams(kind: ResultKind, params: seq<AbiParam>) returns (r: seq<PgParam>)
    ensures |r| == |params|
    ensures forall i :: 0 <= i < |r| ==> r[i].name == params[i].name && r[i].ty == ColumnTypeOf(params[i])
    ensures DistinctColumns(r) && ColumnsOf(r) !! Reserved(kind)
    ensures forall i :: 0 <= i < |r| && params[i].name !in Reserved(kind) && (forall j :: 0 <= j < i ==> r[j].column != params[i].name) ==>
              r[i].column == params[i].name
  {
    r := [];
    var used: set<string> := {};
    while |r| < |params|
      invariant |r| <= |params| && used == ColumnsOf(r)
      invariant forall i :: 0 <= i < |r| ==> r[i].name == params[i].name && r[i].ty == ColumnTypeOf(params[i])
      invariant DistinctColumns(r) && used !! Reserved(kind)
      invariant forall i :: 0 <= i < |r| && params[i].name !in Reserved(kind) && (forall j :: 0 <= j < i ==> r[j].column != params[i].name) ==>
                  r[i].column == params[i].name
    {
      var param := params[|r|];
      var column, n := FreeColumn(BaseOf(kind, param.name), used);
      NeverReserved(kind, param.name, n);
      assert n > 0 ==> Candidate(BaseOf(kind, param.name), 0) in used;
      ColumnsMore(r, PgParam(param.name, column, ColumnTypeOf(param)));
      used := used + {column};
      r := r + [PgParam(param.name, column, ColumnTypeOf(param))];
    }
  }

  lemma ColumnsMore(params: seq<PgParam>, more: PgParam)
    requires DistinctColumns(params) && more.column !in ColumnsOf(params)
    ensures DistinctColumns(params + [more]) && ColumnsOf(params + [more]) == ColumnsOf(params) + {more.column}
  {
    var next := params + [more];
    assert next[|params|] == more;
    forall i | 0 <= i < |params|
      ensures params[i].column in ColumnsOf(params) && params[i].column in ColumnsOf(next)
    {
      assert next[i] == params[i];
    }
    assert more.column in ColumnsOf(next);
  }

  lemma {:induction false} ColumnCount(params: seq<PgParam>)
    requires DistinctColumns(params)
    ensures |ColumnsOf(params)| == |params|
  {
    if params == [] {
      assert ColumnsOf(params) == {};
    } else {
      var init, last := params[..|params| - 1], params[|params| - 1];
      ColumnCount(init);
      ColumnsMore(init, last);
      assert init + [last] == params;
    }
  }

  /** A row binds exactly its own columns: the fixed ones and one for each parameter. */
  lemma RowWidth(kind: ResultKind, params: seq<PgParam>)
    requires DistinctColumns(params) && ColumnsOf(params) !! Reserved(kind)
    ensures |Reserved(kind) + ColumnsOf(params)| == |params| + FixedColumns(kind)
  {
    ColumnCount(params);
    assert |Reserved(kind)| == FixedColumns(kind);
    assert |Reserved(kind) + ColumnsOf(params)| == |Reserved(kind)| + |ColumnsOf(params)|;
  }
}
