/** Type expressions as the Go parser spells them (`ast.Expr` in a type position). */
module TypeAst {

  /** The type-expression shapes `exprType` gives up on. */
  datatype ExprShape =
    | MapType         // map[K]V
    | FuncType        // func(...) ...
    | ChanType        // chan T
    | InterfaceType   // interface{ ... }
    | QualifiedName   // pkg.T (an *ast.SelectorExpr)
    | Ellipsis        // ...T in a variadic parameter
    | ParenType       // (T)
    | GenericInstance // List[T] (an *ast.IndexExpr)

  datatype TypeExpr =
    | Ident(id: nat, name: string)           // `id` stands for the identity of the *ast.Ident node
    | ArrayType(sized: bool, elt: TypeExpr)  // [N]T when sized, []T otherwise
    | StarExpr(x: TypeExpr)                  // *T
    | StructType(fields: seq<FieldGroup>)    // struct{ ... }
    | OtherExpr(shape: ExprShape)

  /** One entry of a field list: `a, b T` has two names; an embedded field has none. */
  datatype FieldGroup = FieldGroup(names: seq<string>, typ: TypeExpr)

}

/**
 * Function bodies as trees of syntax nodes, each tagged with its `go/ast`
 * node type; the node types no counter looks at and no example needs share
 * the tag `OtherNode`.
 */
module BodyAst {

  datatype NodeKind =
    | BlockStmt | ExprStmt | AssignStmt | IncDecStmt | DeclStmt | ReturnStmt
    | BranchStmt | GoStmt | DeferStmt | SendStmt | LabeledStmt
    | IfStmt | SwitchStmt | TypeSwitchStmt | SelectStmt | CaseClause | CommClause
    | ForStmt | RangeStmt
    | BinaryExpr | UnaryExpr | CallExpr | Ident | BasicLit | CompositeLit | FuncLit
    | SelectorExpr | IndexExpr | SliceExpr | StarExpr | ParenExpr | KeyValueExpr
    | TypeAssertExpr | TypeExpr | GenDecl | ValueSpec
    | OtherNode  // EmptyStmt, Ellipsis, IndexListExpr, a function literal's FuncType, FieldList and Field, the Bad* nodes, ...

  /** A syntax node with its non-nil children, in the order `ast.Walk` visits them. */
  datatype Node = Node(kind: NodeKind, children: seq<Node>)

}

/** A function declaration, the unit the analysis reports on. */
module DeclAst {
  import opened Optional
  import opened TypeAst
  import opened BodyAst

  /**
   * `params` and `results` are the field lists of the signature (`nil` when
   * absent); `body` is the function's block.
   */
  datatype FuncDecl = FuncDecl(
    name: string,
    params: Option<seq<FieldGroup>>,
    results: Option<seq<FieldGroup>>,
    body: Node)

}
