# complex_lint analysis engine, in Dafny

complex_lint reads one Go source file and prints a complexity record for every
function declared in it:

- the input state space, a coarse count of the values its parameters can hold;
- the output state space, the same count for its results;
- the branching factor, the number of `if`, `switch`, `for` and `range` statements;
- the operational complexity, the number of binary operations, calls and assignments;
- the number of local assignments.

This project models the engine behind that record (everything in `main.go`
except `main`). It proves what each part computes.

- `Resolver` (resolver.dfy) is `exprType`. It turns a type expression of the
  syntax tree into a resolved type, or into nothing (Go's nil).
  - The symbol snapshot is an explicit `Context` value. It holds the
    `TypesInfo.Defs` and `TypesInfo.Uses` maps keyed by identifier node, the
    type declarations an identifier is bound to (by name), and the universe.
  - `Resolve` guards against re-entering a type declaration it is already
    expanding. `ExprTypeAsWritten` is the unguarded Go recursion, run on a
    fuel budget.
  - An inline struct whose fields repeat a non-blank name makes
    `types.NewStruct` panic (main.go:50), and the panic ends the whole run.
    `Panics` says when resolution panics. `Resolve` gives the answer of every
    resolution that does not.
- `StateSpace` (state_space.dfy) is `typeStateSpace` and its fold over a
  parameter or result list, shared by `analyzeInputStateSpace` and
  `analyzeOutputStateSpace`.
- `Metrics` (metrics.dfy) holds the three counters.
  - `ast.Inspect` is `Inspect`, an explicit-stack walk that returns the
    pre-order visit sequence. Each counter loops over that sequence.
  - A counter is specified as a count over the multiset of node kinds in the
    body.
- `Analysis` (analysis.dfy) is the record `main` assembles for one declaration
  (main.go:189-193), or the crash that ends the run when resolving a
  parameter or result type panics.
- `Scenarios` (scenarios.dfy) holds worked examples. They include the two
  functions of the repository's sample input `example.go`, as syntax trees,
  with the records the analysis gives them.
- The data model: `GoTypes` (go_types.dfy) is the part of `go/types` the engine
  meets. `TypeAst`, `BodyAst` and `DeclAst` (ast.dfy) are the syntax trees.
  `Optional` (optional.dfy) is an option type.

## Model

| member | source | states |
|---|---|---|
| Resolver.ExprType | main.go:14-53 | The method panics exactly when `Panics` says so, and otherwise computes the guarded resolution `Resolve` |
| Resolver.CollectFields | main.go:41-49 | The struct case's nested loops panic exactly when resolving some group's type panics. Otherwise they collect the fields `ResolveFields` describes, in order |
| Resolver.AppendGroup | main.go:45-47 | The inner loop appends one field per name, in order, each with the group's type |
| Resolver.NewStruct | main.go:50 | `types.NewStruct` panics exactly when two fields share a name other than the blank `_` |
| Resolver.IdentifierOrder | main.go:16-30 | An identifier is taken from Defs first, then Uses, then its bound type declaration, then the universe. A bound declaration decides the answer even when it does not resolve. The identifier is unresolved exactly when every step fails |
| Resolver.AgreesWithAsWritten | main.go:14-53 | Whenever Go's unguarded recursion comes to an end, on any budget, the guarded resolver panics exactly when Go panics. Otherwise it returns the same type or the same nil |
| Resolver.AsWrittenMonotone | main.go:23-25 | A run of the unguarded recursion that returns or panics on a budget ends the same way on every larger budget |
| Resolver.WrappingShapes | main.go:32-39 | Array types, fixed-length or not, resolve to a slice of their element type, and star expressions to a pointer to their base. Each is nil when the inner type is nil. Every other shape resolves to nil |
| Resolver.GroupFields | main.go:44-47 | A field group adds one field per name, each with the group's type and in order. A group whose type did not resolve adds nothing |
| Resolver.StructFields | main.go:40-50 | An inline struct that does not panic resolves to a struct, never nil. Every field comes from a group that declares its name and whose type resolved to the field's type. There are at most as many fields as declared names, and exactly as many when every named group resolves |
| Resolver.AsWrittenDivergesOnSelfReference | main.go:23-25 | On `type Node struct { val int; next *Node }`, Go's recursion runs out of every budget: it never returns |
| Resolver.SelfReferenceResolves | main.go:23-25 | On the same declaration the guarded resolver returns `struct{ val int }`, dropping the cyclic field, and does not panic |
| Resolver.DuplicateFieldsPanic | main.go:40-50 | On `struct{ a int; a string }`, Go's `exprType` panics on every budget, and `Panics` holds |
| Resolver.BlankFieldsMayRepeat | main.go:50 | `struct{ _, _ int }` does not panic and resolves to two blank int fields |
| StateSpace.StateSpace | main.go:55-84 | The state space of every type is at least 1 |
| StateSpace.FieldsStateSpace | main.go:75-81 | The product over a struct's fields is at least 1 |
| StateSpace.TypeStateSpace | main.go:55-84 | The method, with the struct case multiplying in a loop, computes `StateSpace` |
| StateSpace.PolicyTable | main.go:57-83 | bool is worth 2. int, uint64 and string are worth 10. Every other basic kind is worth 1. A slice is worth 100 times its element, a pointer the same as its base, and an empty struct 1. A two-field struct is worth the product of its fields. Named, interface, array, map, chan and signature types are worth 1 |
| StateSpace.FieldsStateSpaceAppend | main.go:75-81 | Concatenating two field lists multiplies their state spaces |
| StateSpace.FieldsStateSpacePermutation | main.go:75-81 | Reordering a struct's fields does not change its state space |
| StateSpace.ListStateSpace | main.go:90-97 | The product over a signature's field groups is at least 1 |
| StateSpace.FieldListStateSpace | main.go:88-99 | The loop shared by both signature analyses panics exactly when resolving some group's type panics. Otherwise it computes the product over the groups in list order. A missing list gives 1, and the result is at least 1 |
| StateSpace.AnalyzeInputStateSpace | main.go:87-100 | Panics exactly when resolving a parameter type panics. Otherwise the input state space is the product over the parameter groups, and at least 1 |
| StateSpace.AnalyzeOutputStateSpace | main.go:103-116 | Panics exactly when resolving a result type panics. Otherwise the output state space is the product over the result groups, and at least 1 |
| StateSpace.ListStateSpaceAppend | main.go:90-97 | Splitting a parameter list splits its state space into a product of the two parts |
| StateSpace.UnresolvedGroupIsNeutral | main.go:92-95 | A group whose type does not resolve can be removed without changing the product |
| Metrics.ForestPreorderAppend | main.go:121 | Walking two lists of subtrees one after the other visits the first list's nodes, then the second's |
| Metrics.Inspect | main.go:121-127 | The walk visits every node of the body exactly once, in pre-order |
| Metrics.AnalyzeBranching | main.go:119-129 | The branching factor is the number of if, switch, for and range statements of the body, at any depth |
| Metrics.AnalyzeWTFComplexity | main.go:132-142 | The operational complexity is the number of binary expressions, calls and assignment statements of the body, at any depth |
| Metrics.CountLocalAssignment | main.go:145-155 | The local count is the number of assignment statements of the body, and never exceeds the operational complexity |
| Metrics.NoBranchesWhenAbsent | main.go:119-129 | The branching factor is 0 exactly when no node of the body is an if, switch, for or range statement |
| Metrics.NoOperationsWhenAbsent | main.go:132-142 | The operational complexity is 0 exactly when no node of the body is a binary expression, call or assignment |
| Metrics.NoAssignmentsWhenAbsent | main.go:145-155 | The local count is 0 exactly when no node of the body is an assignment statement |
| Metrics.LeafOccurrences | main.go:121-127 | A node with no children counts only itself |
| Metrics.AddChild | main.go:121-127 | Adding a child subtree to a node adds exactly that subtree's counts, for all three counters |
| Metrics.SubtreeCounted | main.go:121-127 | Every subtree of the body, however deep, is counted in full by each counter |
| Analysis.AnalyzeFunction | main.go:189-193 | The analysis crashes exactly when resolving a parameter or result type panics. Otherwise the record holds the five analyses of the declaration: both state spaces are at least 1, and 0 <= local assignments <= operational complexity |
| Scenarios.ConditionalWithAssignment | main.go:87-155 | `func f(b bool, xs []int) int { if b == c { n = 1 } }` gets input 2000, output 10, branching 1, operations 2 and local assignments 1 |
| Scenarios.EmptyFunction | main.go:87-155 | `func f() {}` gets 1, 1, 0, 0, 0 |
| Scenarios.UnresolvedParameter | main.go:92-95 | A parameter of an unknown type contributes 1 |
| Scenarios.DuplicateFieldParameter | main.go:87-100 | Resolving the parameter of `func f(p struct{ a int; a string })` panics, so the analysis of `f` crashes |
| Scenarios.OkAndNameResolves | main.go:40-50 | `struct{ ok bool; s string }` resolves field by field to the universe's bool and string |
| Scenarios.InlineStructParameter | main.go:75-81 | A parameter of type `struct{ ok bool; s string }` is worth 2 * 10 |
| Scenarios.GroupedParametersCountOnce | main.go:91-95 | `a, b int` is worth 10 but `a int, b int` is worth 100: a group counts once, whatever its names |
| Scenarios.LoopWithNestedConditionals | main.go:119-129 | A loop holding an if nested in an if has branching factor 3 |
| Scenarios.ElseIfChainCounts | main.go:123 | Each `if` of an else-if chain counts as a branch |
| Scenarios.TypeSwitchAndSelectCounts | main.go:123 | A type switch and a select are not branches, but the type switch's `v := y.(type)` counts as an assignment and an operation |
| Scenarios.SampleInputReports | example.go:8-36 | `ProcessData` gets 1000, 1000, 3, 9, 2 and `processSingleValue` gets 10, 10, 1, 7, 0 |
| Scenarios.SampleInputCompletes | example.go:8-36 | Resolving the parameter and result types of both sample functions never panics, so both are reported |

## Left out

- `main` (main.go:157-203) is not modelled. It parses flags, reads and parses the file, loads the package, loops over the declarations and prints. Only the per-function record is modelled (`Analysis.AnalyzeFunction`).
- The libraries `go/ast`, `go/types` and `golang.org/x/tools/go/packages` are replaced by datatypes. The symbol snapshot is an explicit input: the Defs and Uses maps keyed by identifier node, type declarations by name, and the universe by name. Which snapshot the program loads is not modelled. (It parses the file a second time, so the identifier nodes in it are not those of the loaded package.)
- The binding `x.Obj` of an identifier to a type declaration is flattened to a map from names to declarations. Nested scopes, and declarations that are not types, are not modelled.
- `Resolver.Universe` lists the predeclared types, `comparable` included. The universe's other objects (`true`, `false`, `iota`, `nil` and the built-in functions) are not part of this model: an identifier naming one is unresolved here, where Go gets a type from it.
- Resolver.Resolve: re-entering a type declaration already being expanded gives nil. Go instead recurses forever (see Findings). `Resolver.AgreesWithAsWritten` proves the two agree wherever Go returns.
- StateSpace.StateSpace: integers are unbounded. Go's `int` products wrap around on overflow, which is not modelled.
- The diagnostic `fmt.Printf` for an unpriced basic kind (main.go:68) is a side effect only. Only the resulting value 1 is modelled.
- `ast.Inspect` is modelled as a walk that returns the visit sequence, which each counter then consumes. The callback always returns true, so nothing is pruned. The shared closure state is a local variable of the counter.
- A `FuncDecl` without a body (an external declaration) is not modelled. For one, Go computes both state spaces, then `ast.Inspect` in `analyzeBranching` (main.go:121) dereferences the nil `*ast.BlockStmt` and the run panics.
- `BodyAst.NodeKind` names the node types the counters and the examples need. Every other node type `ast.Inspect` visits (EmptyStmt, Ellipsis, IndexListExpr, the parts of a function literal's type, the Bad* nodes, ...) is the one kind `OtherNode`, which no counter counts.
- `types.NewStruct` compares field identities, which for an unexported name include the package. `exprType` passes no package, so the model compares names.
- The resolver never produces the array, map, chan, signature or interface types of `GoTypes` itself. They enter only through Defs, Uses and the universe.

## Findings

| source | as written | input that shows it | evidently intended | confidence | as-written member | corrected member |
|---|---|---|---|---|---|---|
| main.go:23-25 | `exprType` resolves a bound type declaration by recursing into it with no record of the declarations already being expanded, so a type that refers to itself recurses without end | `type Node struct { val int; next *Node }` with `func f(n Node)`, when `Node` is in neither Defs nor Uses | the cyclic field resolves to nil and is dropped, and `Node` resolves to `struct{ val int }` | high, not executed | Resolver.AsWrittenDivergesOnSelfReference | Resolver.SelfReferenceResolves |
