/**
 * Type kinds and the primitive schema table (primitiveSchema, parser.go).
 * The name-to-kind table swaggerMapTypes is not part of this model: it is a
 * parameter of every operation that consults it.
 */
module Kinds {
  import opened GoStrings

  /** The kinds of Go's reflect package. */
  datatype Kind =
    | Invalid | Bool | Int | Int8 | Int16 | Int32 | Int64
    | Uint | Uint8 | Uint16 | Uint32 | Uint64 | Uintptr
    | Float32 | Float64 | Complex64 | Complex128
    | Array | Chan | Func | Interface | Map | Pointer | Slice | String | Struct | UnsafePointer

  /** reflect.Kind.String() */
  function KindName(k: Kind): string {
    match k
    case Invalid => "invalid"
    case Bool => "bool"
    case Int => "int"
    case Int8 => "int8"
    case Int16 => "int16"
    case Int32 => "int32"
    case Int64 => "int64"
    case Uint => "uint"
    case Uint8 => "uint8"
    case Uint16 => "uint16"
    case Uint32 => "uint32"
    case Uint64 => "uint64"
    case Uintptr => "uintptr"
    case Float32 => "float32"
    case Float64 => "float64"
    case Complex64 => "complex64"
    case Complex128 => "complex128"
    case Array => "array"
    case Chan => "chan"
    case Func => "func"
    case Interface => "interface"
    case Map => "map"
    case Pointer => "ptr"
    case Slice => "slice"
    case String => "string"
    case Struct => "struct"
    case UnsafePointer => "unsafe.Pointer"
  }

  /** Indexing swaggerMapTypes: a name the table does not know reads as the zero
    * Kind, Invalid. */
  function LookupKind(kinds: map<string, Kind>, name: string): (k: Kind)
    ensures name !in kinds ==> k == Invalid
    ensures name in kinds ==> k == kinds[name]
  {
    if name in kinds then kinds[name] else Invalid
  }

  /** The kinds the primitive table knows. */
  predicate IsPrimitiveKind(k: Kind) {
    k in {Int, Int64, Bool, String, Float32, Float64, Slice}
  }

  /** primitiveSchema: (type, format, ok) for a kind; `t` is the declared type
    * name, used only for Slice. */
  function PrimitiveSchema(kind: Kind, t: string): (r: (string, string, bool))
    ensures r.2 <==> IsPrimitiveKind(kind)
    ensures !r.2 ==> r.0 == "" && r.1 == ""
    ensures kind == Slice ==> r == (ReplaceAll(t, "[]", ""), "", true)
    ensures kind == Int ==> r == ("integer", "int32", true)
    ensures kind == Int64 ==> r == ("integer", "int64", true)
    ensures kind == Bool ==> r == ("boolean", "boolean", true)
    ensures kind == String ==> r == ("string", "", true)
    ensures kind == Float32 ==> r == ("number", "float", true)
    ensures kind == Float64 ==> r == ("number", "double", true)
  {
    match kind
    case Int => ("integer", "int32", true)
    case Int64 => ("integer", "int64", true)
    case Bool => ("boolean", "boolean", true)
    case String => ("string", "", true)
    case Float32 => ("number", "float", true)
    case Float64 => ("number", "double", true)
    case Slice => (ReplaceAll(t, "[]", ""), "", true)
    case _ => ("", "", false)
  }

  /** Apart from Slice, the table ignores the type name and never maps two kinds
    * to the same (type, format) pair. */
  lemma PrimitiveTableInjective(k1: Kind, k2: Kind, t1: string, t2: string)
    requires IsPrimitiveKind(k1) && IsPrimitiveKind(k2) && k1 != Slice && k2 != Slice
    ensures PrimitiveSchema(k1, t1) == PrimitiveSchema(k1, t2)
    ensures PrimitiveSchema(k1, t1) == PrimitiveSchema(k2, t2) <==> k1 == k2
  {
  }

  /** The (type, format) pair a parameter or schema falls back to: the table's
    * answer, or the kind's name with format "UNKNOWN" when the table fails. */
  function TypeFormat(kind: Kind, t: string): (tf: (string, string))
    ensures IsPrimitiveKind(kind) ==> tf == (PrimitiveSchema(kind, t).0, PrimitiveSchema(kind, t).1)
    ensures !IsPrimitiveKind(kind) ==> tf == (KindName(kind), "UNKNOWN")
  {
    var (ftype, format, ok) := PrimitiveSchema(kind, t);
    if ok then (ftype, format) else (KindName(kind), "UNKNOWN")
  }
}
