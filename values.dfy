/**
 * Fixed-width integers, the value types WasmEdge reports, the value cells it
 * takes and returns, and the conversions between the SQL side's int64 and
 * those cells.
 */
module WasmValues {

  const TWO_31: int := 0x8000_0000
  const TWO_32: int := 0x1_0000_0000
  const TWO_63: int := 0x8000_0000_0000_0000
  const TWO_64: int := 0x1_0000_0000_0000_0000

  /** C++ int32_t, int64_t, uint32_t and uint64_t. */
  type i32 = x: int | -0x8000_0000 <= x < 0x8000_0000
  type i64 = x: int | -0x8000_0000_0000_0000 <= x < 0x8000_0000_0000_0000
  type u32 = x: int | 0 <= x < 0x1_0000_0000
  type u64 = x: int | 0 <= x < 0x1_0000_0000_0000_0000

  /** WasmEdge_ValType: the numeric, vector and reference value types. */
  datatype ValType = I32 | I64 | F32 | F64 | V128 | FuncRef | ExternRef

  /** A WasmEdge_Value: its type tag and the low 64 bits of its 128-bit payload. */
  datatype Value = Value(ty: ValType, cell: u64)

  /** The two kind names the catalog stores for I32 and I64 slots. */
  const INTEGER: string := "integer"
  const BIGINT: string := "bigint"

  predicate IsKind(s: string) {
    s == INTEGER || s == BIGINT
  }

  /** Reads a 32-bit pattern as a two's-complement int32_t. */
  function Signed32(bits: int): (r: i32)
    requires 0 <= bits < TWO_32
    ensures r % TWO_32 == bits
    ensures r >= 0 <==> bits < TWO_31
  {
    if bits < TWO_31 then bits else bits - TWO_32
  }

  /** Reads a 64-bit pattern as a two's-complement int64_t. */
  function Signed64(bits: u64): (r: i64)
    ensures r % TWO_64 == bits
    ensures r >= 0 <==> bits < TWO_63
  {
    if bits < TWO_63 then bits else bits - TWO_64
  }

  /** The implicit int64_t to int32_t conversion: only the low 32 bits survive. */
  function Wrap32(x: int): (r: i32)
    ensures (x - r) % TWO_32 == 0
  {
    Signed32(x % TWO_32)
  }

  /** Wrap32 leaves a value alone exactly when it already fits in 32 bits. */
  lemma Wrap32Fixes(x: int)
    ensures Wrap32(x) == x <==> -TWO_31 <= x < TWO_31
  {
  }

  /** WasmEdge_ValueGenI32 and WasmEdge_ValueGenI64. */
  function GenI32(x: i32): Value {
    Value(I32, x % TWO_32)
  }

  function GenI64(x: i64): Value {
    Value(I64, x % TWO_64)
  }

  /** WasmEdge_ValueGetI32 and WasmEdge_ValueGetI64: they read the payload whatever the tag. */
  function GetI32(v: Value): i32 {
    Signed32(v.cell % TWO_32)
  }

  function GetI64(v: Value): i64 {
    Signed64(v.cell)
  }

  lemma GetGenI32(x: i32)
    ensures GetI32(GenI32(x)) == x
  {
  }

  lemma GetGenI64(x: i64)
    ensures GetI64(GenI64(x)) == x
  {
  }

  /** The value passed for one argument: an "integer" slot gets an I32, any other slot an I64. */
  function MarshalArg(kind: string, x: i64): Value {
    if kind == INTEGER then GenI32(Wrap32(x)) else GenI64(x)
  }

  /** The int64 a result cell is widened to: sign-extended from 32 bits for an "integer" result. */
  function UnmarshalResult(kind: string, v: Value): i64 {
    if kind == INTEGER then GetI32(v) else GetI64(v)
  }

  /**
   * What the guest reads from a marshalled argument: the argument wrapped to
   * 32 bits in an "integer" slot, the argument itself in any other slot.
   */
  lemma MarshalArgSeenByGuest(kind: string, x: i64)
    ensures kind == INTEGER ==> MarshalArg(kind, x).ty == I32 && GetI32(MarshalArg(kind, x)) == Wrap32(x)
    ensures kind != INTEGER ==> MarshalArg(kind, x).ty == I64 && GetI64(MarshalArg(kind, x)) == x
  {
    if kind == INTEGER {
      GetGenI32(Wrap32(x));
    } else {
      GetGenI64(x);
    }
  }

  /** Marshalling then unmarshalling with one kind is the identity on the values that kind holds. */
  lemma MarshalRoundTrip(kind: string, x: i64)
    ensures UnmarshalResult(kind, MarshalArg(kind, x)) == (if kind == INTEGER then Wrap32(x) else x)
    ensures kind == INTEGER && -TWO_31 <= x < TWO_31 ==> UnmarshalResult(kind, MarshalArg(kind, x)) == x
  {
    MarshalArgSeenByGuest(kind, x);
    Wrap32Fixes(x);
  }

  /** A guest result of the catalogued kind comes back unchanged as an int64. */
  lemma UnmarshalGuestResult(y: i64)
    ensures -TWO_31 <= y < TWO_31 ==> UnmarshalResult(INTEGER, GenI32(y)) == y
    ensures UnmarshalResult(BIGINT, GenI64(y)) == y
  {
    if -TWO_31 <= y < TWO_31 {
      GetGenI32(y);
    }
    GetGenI64(y);
  }

  /** An "integer" result keeps only the low 32 bits of the cell, sign-extended. */
  lemma UnmarshalIntegerSignExtends(v: Value)
    ensures -TWO_31 <= UnmarshalResult(INTEGER, v) < TWO_31
    ensures UnmarshalResult(INTEGER, v) % TWO_32 == v.cell % TWO_32
  {
  }
}
