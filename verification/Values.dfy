/** The dynamically typed values of the program (Go's `any`), and what happens to
    them when they are written as JSON text and read back. */
module Values {

  datatype Option<+T> = None | Some(value: T)

  /** Go's `int` and `int64` on a 64-bit platform. */
  predicate InInt64(n: int) {
    -0x8000_0000_0000_0000 <= n <= 0x7fff_ffff_ffff_ffff
  }

  type Int64 = n: int | InInt64(n)

  /** The text of a `json.Number`: plain digits, or a text with a point or an exponent. */
  datatype Literal = Digits(n: int) | Decimal(r: real)

  /** `Maps` is `[]map[string]any` and `Strs` is `[]string`: Go keeps them apart from
      `List`, which is `[]any`.  A Go string is the sequence of its bytes. */
  datatype Value =
    | Null
    | Bool(b: bool)
    | Str(s: string)
    | Int(i: Int64)
    | Float(r: real)
    | Number(lit: Literal)
    | List(items: seq<Value>)
    | Maps(maps: seq<Value>)
    | Strs(strs: seq<string>)
    | Obj(fields: map<string, Value>)

  /** `json.Number.Int64`: fails on a point, an exponent, or a number out of range. */
  function LiteralInt64(lit: Literal): Option<Int64> {
    match lit
    case Digits(n) => if InInt64(n) then Some(n) else None
    case Decimal(_) => None
  }

  /** `json.Number.Float64`, with a `float64` taken as a real number. */
  function LiteralFloat64(lit: Literal): real {
    match lit
    case Digits(n) => n as real
    case Decimal(r) => r
  }

  /** How `json.Marshal` writes a `float64`: whole numbers below 1e21 have no point. */
  function FloatText(r: real): Literal {
    if r.Floor as real == r && -1000000000000000000000.0 < r < 1000000000000000000000.0
    then Digits(r.Floor)
    else Decimal(r)
  }

  /** The tree that comes back when `v` is marshalled and then decoded with `UseNumber`. */
  function Reread(v: Value): Value {
    match v
    case Int(i) => Number(Digits(i))
    case Float(r) => Number(FloatText(r))
    case List(vs) => List(seq(|vs|, i requires 0 <= i < |vs| => Reread(vs[i])))
    case Maps(vs) => List(seq(|vs|, i requires 0 <= i < |vs| => Reread(vs[i])))
    case Strs(ss) => List(seq(|ss|, i requires 0 <= i < |ss| => Str(ss[i])))
    case Obj(f) => Obj(map k | k in f :: Reread(f[k]))
    case _ => v
  }

  function RereadAll(vs: seq<Value>): (r: seq<Value>)
    ensures |r| == |vs|
  {
    seq(|vs|, i requires 0 <= i < |vs| => Reread(vs[i]))
  }

  /** `g` is the table `f` read back. */
  ghost predicate Rereads(f: map<string, Value>, g: map<string, Value>) {
    g.Keys == f.Keys && forall k | k in f :: g[k] == Reread(f[k])
  }

  lemma RereadFields(f: map<string, Value>)
    ensures Reread(Obj(f)).Obj? && Rereads(f, Reread(Obj(f)).fields)
  {
  }

  /** The trees that decoding JSON text with `UseNumber` can give. */
  predicate IsJson(v: Value) {
    match v
    case Int(_) => false
    case Float(_) => false
    case Maps(_) => false
    case Strs(_) => false
    case List(vs) => forall i | 0 <= i < |vs| :: IsJson(vs[i])
    case Obj(f) => forall k | k in f :: IsJson(f[k])
    case _ => true
  }

  /** What has been read from text once is not changed by another trip through text. */
  lemma {:induction false} RereadIsJson(v: Value)
    ensures IsJson(Reread(v))
    ensures IsJson(v) ==> Reread(v) == v
  {
    match v
    case List(vs) =>
      forall i | 0 <= i < |vs| ensures IsJson(Reread(vs[i])) && (IsJson(v) ==> Reread(vs[i]) == vs[i]) {
        RereadIsJson(vs[i]);
      }
      if IsJson(v) {
        assert Reread(v).items == vs;
      }
    case Maps(vs) =>
      forall i | 0 <= i < |vs| ensures IsJson(Reread(vs[i])) {
        RereadIsJson(vs[i]);
      }
    case Obj(f) =>
      forall k | k in f ensures IsJson(Reread(f[k])) && (IsJson(v) ==> Reread(f[k]) == f[k]) {
        RereadIsJson(f[k]);
      }
      if IsJson(v) {
        assert Reread(v).fields == f;
      }
    case _ =>
  }

  /** What text makes of a number: `json.Number` reads an integer exactly in the range of
      64 bits, and a `float64` is written without a point exactly if it is whole and under
      1e21; its value is not lost. */
  lemma NumbersAsText(n: int, r: real)
    ensures LiteralInt64(Digits(n)) == (if -9223372036854775808 <= n <= 9223372036854775807 then Some(n) else None)
    ensures LiteralInt64(Decimal(r)) == None
    ensures LiteralFloat64(Digits(n)) == n as real && LiteralFloat64(Decimal(r)) == r
    ensures LiteralFloat64(FloatText(r)) == r
    ensures FloatText(r) == Digits(n) <==> r == n as real && -1000000000000000000000 < n < 1000000000000000000000
  {
  }

  /** What text makes of the other values. */
  lemma ValuesAsText(b: bool, t: string, n: Int64, r: real, lit: Literal, ss: seq<string>, vs: seq<Value>)
    ensures Reread(Null) == Null && Reread(Bool(b)) == Bool(b) && Reread(Str(t)) == Str(t)
    ensures Reread(Int(n)) == Number(Digits(n)) && Reread(Float(r)) == Number(FloatText(r))
    ensures Reread(Number(lit)) == Number(lit)
    ensures Reread(Strs(ss)).List? && |Reread(Strs(ss)).items| == |ss|
    ensures forall i | 0 <= i < |ss| :: Reread(Strs(ss)).items[i] == Str(ss[i])
    ensures Reread(List(vs)) == Reread(Maps(vs)) && Reread(List(vs)).List? && |Reread(List(vs)).items| == |vs|
    ensures forall i | 0 <= i < |vs| :: Reread(List(vs)).items[i] == Reread(vs[i])
  {
  }

  lemma RereadAllIsJson(vs: seq<Value>)
    ensures IsJson(List(RereadAll(vs)))
    ensures IsJson(List(vs)) ==> RereadAll(vs) == vs
  {
    RereadIsJson(List(vs));
    assert Reread(List(vs)) == List(RereadAll(vs));
  }
}
