/**
 * The part of Go's `go/types` model that the analysis reads: the resolved type
 * of a declaration, as `exprType` builds it or as the type checker's symbol
 * snapshot hands it back.
 */
module GoTypes {

  /** The kinds of `*types.Basic`, in the order `go/types` declares them. */
  datatype BasicKind =
    | Invalid
    | Bool
    | Int | Int8 | Int16 | Int32 | Int64
    | Uint | Uint8 | Uint16 | Uint32 | Uint64 | Uintptr
    | Float32 | Float64
    | Complex64 | Complex128
    | String
    | UnsafePointer
    | UntypedBool | UntypedInt | UntypedRune | UntypedFloat | UntypedComplex | UntypedString | UntypedNil

  /**
   * A resolved type. `exprType` itself only builds `Slice`, `Pointer` and
   * `Struct`; the other shapes reach the analysis through the definition,
   * use and universe lookups.
   */
  datatype Ty =
    | Basic(kind: BasicKind)
    | Slice(elem: Ty)
    | Pointer(base: Ty)
    | Struct(fields: seq<Var>)
    | Array(len: nat, elem: Ty)
    | Map(key: Ty, elem: Ty)
    | Chan(elem: Ty)
    | Signature
    | Interface
    | Named(name: string, underlying: Ty)

  /** A struct field, as `types.NewVar` makes it. */
  datatype Var = Var(name: string, typ: Ty)

}
