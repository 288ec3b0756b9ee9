/** The compact JSON encoding of an expression, byte by byte: what the byte limit of a filter measures. */
module FilterEncoding {
  import opened Domain
  import opened Text
  import opened FilterCompiler

  /** A character in UTF-8. */
  function Utf8(c: char): Bytes {
    var code := c as int;
    if code < 0x80 then [code]
    else if code < 0x800 then [0xC0 + code / 0x40, 0x80 + code % 0x40]
    else if code < 0x10000 then [0xE0 + code / 0x1000, 0x80 + code / 0x40 % 0x40, 0x80 + code % 0x40]
    else [0xF0 + code / 0x40000, 0x80 + code / 0x1000 % 0x40, 0x80 + code / 0x40 % 0x40, 0x80 + code % 0x40]
  }

  function Ascii(s: string): (b: Bytes)
    ensures |b| == |s|
  {
    if s == "" then [] else [if (s[0] as int) < 0x80 then s[0] as int else 0] + Ascii(s[1..])
  }

  /** A character inside a JSON string: quote, backslash and the named control characters have two-byte
      escapes, other control characters six-byte ones. */
  function Escaped(c: char): Bytes {
    var code := c as int;
    if c == '"' then Ascii("\\\"")
    else if c == '\\' then Ascii("\\\\")
    else if code == 0x08 then Ascii("\\b")
    else if code == 0x09 then Ascii("\\t")
    else if code == 0x0A then Ascii("\\n")
    else if code == 0x0C then Ascii("\\f")
    else if code == 0x0D then Ascii("\\r")
    else if code < 0x20 then Ascii("\\u00" + [HexDigit(code / 16), HexDigit(code % 16)])
    else Utf8(c)
  }

  function EscapedText(s: string): Bytes {
    if s == "" then [] else Escaped(s[0]) + EscapedText(s[1..])
  }

  function Quoted(s: string): Bytes {
    Ascii("\"") + EscapedText(s) + Ascii("\"")
  }

  function EncodeOperator(op: Operator): Bytes {
    match op
    case Eq => Quoted("eq")
    case Ne => Quoted("ne")
    case Gt => Quoted("gt")
    case Gte => Quoted("gte")
    case Lt => Quoted("lt")
    case Lte => Quoted("lte")
  }

  /** Only the length of other literals is known. */
  function EncodeJson(value: Json): Bytes {
    match value
    case JString(s) => Quoted(s)
    case JBool(b) => Ascii(if b then "true" else "false")
    case JOther(encoded) => seq(encoded, _ => 0)
  }

  function EncodeComparison(field: Bytes, op: Bytes, value: Bytes): (b: Bytes)
    ensures |b| == |field| + |op| + |value| + 25
  {
    Ascii("{\"field\":") + field + Ascii(",\"op\":") + op + Ascii(",\"value\":") + value + Ascii("}")
  }

  function EncodeAnd(list: Bytes): (b: Bytes)
    ensures |b| == |list| + 10
  {
    Ascii("{\"and\":[") + list + Ascii("]}")
  }

  function EncodeOr(list: Bytes): (b: Bytes)
    ensures |b| == |list| + 9
  {
    Ascii("{\"or\":[") + list + Ascii("]}")
  }

  function EncodeNot(inner: Bytes): (b: Bytes)
    ensures |b| == |inner| + 8
  {
    Ascii("{\"not\":") + inner + Ascii("}")
  }

  function Encode(e: Expression): Bytes
    decreases e, 1
  {
    match e
    case And(all) => EncodeAnd(EncodeList(all))
    case Or(any) => EncodeOr(EncodeList(any))
    case Not(inner) => EncodeNot(Encode(inner))
    case Compare(field, op, value) => EncodeComparison(Quoted(field), EncodeOperator(op), EncodeJson(value))
  }

  function EncodeList(es: seq<Expression>): Bytes
    decreases es, 0
  {
    if es == [] then []
    else Encode(es[0]) + Ascii(if |es| > 1 then "," else "") + EncodeList(es[1..])
  }

  lemma EscapedLength(c: char)
    ensures |Escaped(c)| == CharLength(c)
  {
  }

  lemma {:induction false} EscapedTextLength(s: string)
    ensures |EscapedText(s)| == TextLength(s)
  {
    if s == "" {
    } else {
      EscapedLength(s[0]);
      EscapedTextLength(s[1..]);
    }
  }

  lemma PlainLength(s: string)
    requires s in {"eq", "ne", "gt", "gte", "lt", "lte"}
    ensures |Quoted(s)| == 2 + |s|
  {
    EscapedTextLength(s);
    assert TextLength(s) == |s| by {
      assert s[1..][1..] == s[2..];
      assert |s| == 3 ==> s[2..][1..] == "";
    }
  }

  lemma OperatorEncoded(op: Operator)
    ensures |EncodeOperator(op)| == OperatorLength(op)
  {
    PlainLength("eq");
    PlainLength("ne");
    PlainLength("gt");
    PlainLength("gte");
    PlainLength("lt");
    PlainLength("lte");
  }

  lemma QuotedLength(s: string)
    ensures |Quoted(s)| == 2 + TextLength(s)
  {
    EscapedTextLength(s);
  }

  lemma JsonEncoded(value: Json)
    ensures |EncodeJson(value)| == JsonLength(value)
  {
    if value.JString? {
      QuotedLength(value.s);
    }
  }

  lemma ComparisonLength(field: string, op: Operator, value: Json)
    ensures EncodedLength(Compare(field, op, value)) == 27 + TextLength(field) + OperatorLength(op) + JsonLength(value)
  {
    assert |"{'field':,'op':,'value':}"| == 25;
  }

  lemma CompareEncoded(field: string, op: Operator, value: Json)
    ensures |EncodeComparison(Quoted(field), EncodeOperator(op), EncodeJson(value))| == EncodedLength(Compare(field, op, value))
  {
    QuotedLength(field);
    OperatorEncoded(op);
    JsonEncoded(value);
    ComparisonLength(field, op, value);
  }

  lemma CombinatorLength(es: seq<Expression>, e: Expression)
    ensures EncodedLength(And(es)) == EncodedLengths(es) + 10
    ensures EncodedLength(Or(es)) == EncodedLengths(es) + 9
    ensures EncodedLength(Not(e)) == EncodedLength(e) + 8
  {
    assert |"{'and':[]}"| == 10 && |"{'or':[]}"| == 9 && |"{'not':}"| == 8;
  }

  /** The length the limit looks at is that of the encoding. */
  lemma {:induction false} EncodedIsLength(e: Expression)
    ensures |Encode(e)| == EncodedLength(e)
    decreases e, 1
  {
    match e
    case And(all) =>
      EncodedListIsLength(all);
      CombinatorLength(all, e);
    case Or(any) =>
      EncodedListIsLength(any);
      CombinatorLength(any, e);
    case Not(inner) =>
      EncodedIsLength(inner);
      CombinatorLength([], inner);
    case Compare(field, op, value) => CompareEncoded(field, op, value);
  }

  lemma {:induction false} EncodedListIsLength(es: seq<Expression>)
    ensures |EncodeList(es)| == EncodedLengths(es)
    decreases es, 0
  {
    if es == [] {
    } else {
      EncodedIsLength(es[0]);
      EncodedListIsLength(es[1..]);
    }
  }
}
