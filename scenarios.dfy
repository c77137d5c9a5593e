/**
 * Worked examples: small function declarations with the record the analysis
 * gives them, including the two functions of the repository's sample input
 * (example.go:8-23 and example.go:25-36), written out as syntax trees.
 *
 * Bodies are written over their operand leaves: `x` stands for an identifier
 * and `lit` for a basic literal. Each count holds for any operands in which
 * nothing is counted, and the records instantiate them with leaf nodes.
 */
module Scenarios {
  import opened Optional
  import opened GoTypes
  import T = TypeAst
  import opened BodyAst
  import opened DeclAst
  import Resolver
  import opened StateSpace
  import opened Metrics
  import opened Analysis


  function Leaf(k: NodeKind): Node
  {
    Node(k, [])
  }

  const Id: Node := Leaf(Ident)
  const Lit: Node := Leaf(BasicLit)

  /** The three counters of a body, at once. */
  predicate Counts(body: Node, branches: nat, operations: nat, assignments: nat)
  {
    BranchingFactor(body) == branches && OperationalComplexity(body) == operations && LocalAssignments(body) == assignments
  }

  /** Operands in which nothing is counted. */
  predicate Uncounted(x: Node, lit: Node)
  {
    Counts(x, 0, 0, 0) && Counts(lit, 0, 0, 0)
  }

  lemma LeafCounts(k: NodeKind)
    ensures Counts(Leaf(k), Branches(multiset{k}), Operations(multiset{k}), Assignments(multiset{k}))
  {
    LeafOccurrences(k);
  }

  lemma LeavesUncounted()
    ensures Uncounted(Id, Lit)
  {
    LeafCounts(Ident);
    LeafCounts(BasicLit);
  }

  // A node counts itself and then its children's subtrees, for one to four children.

  lemma Counts1(k: NodeKind, a: Node)
    ensures BranchingFactor(Node(k, [a])) == Branches(multiset{k}) + BranchingFactor(a)
    ensures OperationalComplexity(Node(k, [a])) == Operations(multiset{k}) + OperationalComplexity(a)
    ensures LocalAssignments(Node(k, [a])) == Assignments(multiset{k}) + LocalAssignments(a)
  {
    LeafOccurrences(k);
    AddChild(k, [], a);
    assert [] + [a] == [a];
  }

  lemma Counts2(k: NodeKind, a: Node, b: Node)
    ensures BranchingFactor(Node(k, [a, b])) == Branches(multiset{k}) + BranchingFactor(a) + BranchingFactor(b)
    ensures OperationalComplexity(Node(k, [a, b])) == Operations(multiset{k}) + OperationalComplexity(a) + OperationalComplexity(b)
    ensures LocalAssignments(Node(k, [a, b])) == Assignments(multiset{k}) + LocalAssignments(a) + LocalAssignments(b)
  {
    Counts1(k, a);
    AddChild(k, [a], b);
    assert [a] + [b] == [a, b];
  }

  lemma Counts3(k: NodeKind, a: Node, b: Node, c: Node)
    ensures BranchingFactor(Node(k, [a, b, c])) == Branches(multiset{k}) + BranchingFactor(a) + BranchingFactor(b) + BranchingFactor(c)
    ensures OperationalComplexity(Node(k, [a, b, c]))
         == Operations(multiset{k}) + OperationalComplexity(a) + OperationalComplexity(b) + OperationalComplexity(c)
    ensures LocalAssignments(Node(k, [a, b, c])) == Assignments(multiset{k}) + LocalAssignments(a) + LocalAssignments(b) + LocalAssignments(c)
  {
    Counts2(k, a, b);
    AddChild(k, [a, b], c);
    assert [a, b] + [c] == [a, b, c];
  }

  lemma Counts4(k: NodeKind, a: Node, b: Node, c: Node, d: Node)
    ensures BranchingFactor(Node(k, [a, b, c, d]))
         == Branches(multiset{k}) + BranchingFactor(a) + BranchingFactor(b) + BranchingFactor(c) + BranchingFactor(d)
    ensures OperationalComplexity(Node(k, [a, b, c, d]))
         == Operations(multiset{k}) + OperationalComplexity(a) + OperationalComplexity(b) + OperationalComplexity(c) + OperationalComplexity(d)
    ensures LocalAssignments(Node(k, [a, b, c, d]))
         == Assignments(multiset{k}) + LocalAssignments(a) + LocalAssignments(b) + LocalAssignments(c) + LocalAssignments(d)
  {
    Counts3(k, a, b, c);
    AddChild(k, [a, b, c], d);
    assert [a, b, c] + [d] == [a, b, c, d];
  }

  /** The record of a declaration, field by field. */
  lemma ReportFields(f: FuncDecl, ctx: Resolver.Context, inputs: int, outputs: int, branches: int, operations: int, assignments: int)
    requires SignatureStateSpace(f.params, ctx) == inputs && SignatureStateSpace(f.results, ctx) == outputs
    requires BranchingFactor(f.body) == branches && OperationalComplexity(f.body) == operations
    requires LocalAssignments(f.body) == assignments
    ensures ReportOf(f, ctx) == Report(f.name, inputs, outputs, branches, operations, assignments)
  {
  }

  /** `{ if b == c { n = 1 } }`: one condition holding one comparison and one assignment. */
  function ConditionalBody(x: Node, lit: Node): Node
  {
    Node(BlockStmt, [
      Node(IfStmt, [
        Node(BinaryExpr, [x, x]),
        Node(BlockStmt, [Node(AssignStmt, [x, lit])])])])
  }

  lemma ConditionalBodyCounts(x: Node, lit: Node)
    requires Uncounted(x, lit)
    ensures Counts(ConditionalBody(x, lit), 1, 2, 1)
  {
    var assign := Node(AssignStmt, [x, lit]);
    Counts2(AssignStmt, x, lit);
    var thenBlock := Node(BlockStmt, [assign]);
    Counts1(BlockStmt, assign);
    var test := Node(BinaryExpr, [x, x]);
    Counts2(BinaryExpr, x, x);
    var cond := Node(IfStmt, [test, thenBlock]);
    Counts2(IfStmt, test, thenBlock);
    Counts1(BlockStmt, cond);
  }

  /** `b bool, xs []int` is worth 2 * 1000; the single `int` result is worth 10. */
  lemma ConditionalSignature()
    ensures SignatureStateSpace(Some([T.FieldGroup(["b"], T.Ident(1, "bool")), T.FieldGroup(["xs"], T.ArrayType(false, T.Ident(2, "int")))]), Resolver.UniverseOnly) == 2000
    ensures SignatureStateSpace(Some([T.FieldGroup([], T.Ident(3, "int"))]), Resolver.UniverseOnly) == 10
  {
    var params := [T.FieldGroup(["b"], T.Ident(1, "bool")), T.FieldGroup(["xs"], T.ArrayType(false, T.Ident(2, "int")))];
    assert params[..1][..0] == [];
    assert ListStateSpace(params[..1], Resolver.UniverseOnly) == 2;
    assert Resolver.ResolveType(params[1].typ, Resolver.UniverseOnly) == Some(Slice(Basic(Int)));
    assert GroupStateSpace(params[1], Resolver.UniverseOnly) == 1000;
  }

  /** `func f(b bool, xs []int) int { if b == c { n = 1 } }` */
  lemma ConditionalWithAssignment()
    ensures var f := FuncDecl("f",
        Some([T.FieldGroup(["b"], T.Ident(1, "bool")), T.FieldGroup(["xs"], T.ArrayType(false, T.Ident(2, "int")))]),
        Some([T.FieldGroup([], T.Ident(3, "int"))]),
        ConditionalBody(Id, Lit));
      ReportOf(f, Resolver.UniverseOnly) == Report("f", 2000, 10, 1, 2, 1)
  {
    var f := FuncDecl("f",
      Some([T.FieldGroup(["b"], T.Ident(1, "bool")), T.FieldGroup(["xs"], T.ArrayType(false, T.Ident(2, "int")))]),
      Some([T.FieldGroup([], T.Ident(3, "int"))]),
      ConditionalBody(Id, Lit));
    ConditionalSignature();
    LeavesUncounted();
    ConditionalBodyCounts(Id, Lit);
    ReportFields(f, Resolver.UniverseOnly, 2000, 10, 1, 2, 1);
  }

  /** `func f() {}`: every number is neutral. */
  lemma EmptyFunction()
    ensures ReportOf(FuncDecl("f", Some([]), None, Leaf(BlockStmt)), Resolver.UniverseOnly) == Report("f", 1, 1, 0, 0, 0)
  {
    LeafCounts(BlockStmt);
  }

  /** `func f(x Unknown)`: an unresolved parameter type contributes the neutral factor. */
  lemma UnresolvedParameter()
    ensures SignatureStateSpace(Some([T.FieldGroup(["x"], T.Ident(1, "Unknown"))]), Resolver.UniverseOnly) == 1
  {
  }

  /**
   * `func f(p struct{ a int; a string })`: resolving the parameter's type
   * panics, so the analysis of `f` crashes instead of reporting.
   */
  lemma DuplicateFieldParameter()
    ensures SignaturePanics(Some([T.FieldGroup(["p"], Resolver.DuplicateFields)]), Resolver.UniverseOnly)
  {
    Resolver.DuplicateFieldsPanic(0);
    assert T.FieldGroup(["p"], Resolver.DuplicateFields) in [T.FieldGroup(["p"], Resolver.DuplicateFields)];
  }

  /** `struct{ ok bool; s string }` */
  const OkAndName: T.TypeExpr := T.StructType([T.FieldGroup(["ok"], T.Ident(1, "bool")), T.FieldGroup(["s"], T.Ident(2, "string"))])

  /** The inline struct resolves field by field to the universe's types. */
  lemma OkAndNameResolves()
    ensures Resolver.ResolveType(OkAndName, Resolver.UniverseOnly) == Some(Struct([Var("ok", Basic(Bool)), Var("s", Basic(String))]))
  {
    var groups := OkAndName.fields;
    assert groups[..1][..0] == [];
    assert Resolver.Resolve(T.Ident(1, "bool"), Resolver.UniverseOnly, {}) == Some(Basic(Bool));
    assert Resolver.Resolve(T.Ident(2, "string"), Resolver.UniverseOnly, {}) == Some(Basic(String));
    assert Resolver.GroupFields(["ok"], Some(Basic(Bool))) == [Var("ok", Basic(Bool))];
    assert Resolver.GroupFields(["s"], Some(Basic(String))) == [Var("s", Basic(String))];
    assert Resolver.ResolveFields(groups[..1], Resolver.UniverseOnly, {}) == [Var("ok", Basic(Bool))];
    assert Resolver.ResolveFields(groups, Resolver.UniverseOnly, {}) == [Var("ok", Basic(Bool))] + [Var("s", Basic(String))];
    assert [Var("ok", Basic(Bool))] + [Var("s", Basic(String))] == [Var("ok", Basic(Bool)), Var("s", Basic(String))];
    assert Resolver.Resolve(OkAndName, Resolver.UniverseOnly, {}) == Some(Struct(Resolver.ResolveFields(groups, Resolver.UniverseOnly, {})));
  }

  /** `func f(p struct{ ok bool; s string })`: the fields' state spaces multiply. */
  lemma InlineStructParameter()
    ensures SignatureStateSpace(Some([T.FieldGroup(["p"], OkAndName)]), Resolver.UniverseOnly) == 20
  {
    OkAndNameResolves();
    var fields := [Var("ok", Basic(Bool)), Var("s", Basic(String))];
    assert fields[..1][..0] == [];
    assert FieldsStateSpace(fields) == 20;
    var group := T.FieldGroup(["p"], OkAndName);
    assert GroupStateSpace(group, Resolver.UniverseOnly) == 20;
    assert [group][..0] == [];
    assert ListStateSpace([group], Resolver.UniverseOnly) == ListStateSpace([], Resolver.UniverseOnly) * 20;
  }

  /**
   * `a, b int` is one group and contributes once, while `a int, b int`
   * contributes per parameter: the same signature gets two values.
   */
  lemma GroupedParametersCountOnce()
    ensures SignatureStateSpace(Some([T.FieldGroup(["a", "b"], T.Ident(1, "int"))]), Resolver.UniverseOnly) == 10
    ensures SignatureStateSpace(Some([T.FieldGroup(["a"], T.Ident(1, "int")), T.FieldGroup(["b"], T.Ident(2, "int"))]), Resolver.UniverseOnly) == 100
  {
    var split := [T.FieldGroup(["a"], T.Ident(1, "int")), T.FieldGroup(["b"], T.Ident(2, "int"))];
    assert split[..1][..0] == [];
  }

  /** `{ for i < 10 { if p { if q {} } } }` */
  function LoopBody(x: Node, lit: Node): Node
  {
    Node(BlockStmt, [Node(ForStmt, [Node(BinaryExpr, [x, lit]), Node(BlockStmt, [NestedConditionals(x)])])])
  }

  /** `if p { if q {} }` */
  function NestedConditionals(x: Node): Node
  {
    Node(IfStmt, [x, Node(BlockStmt, [Node(IfStmt, [x, Leaf(BlockStmt)])])])
  }

  lemma NestedConditionalsCounts(x: Node, lit: Node)
    requires Uncounted(x, lit)
    ensures Counts(NestedConditionals(x), 2, 0, 0)
  {
    LeafCounts(BlockStmt);
    var inner := Node(IfStmt, [x, Leaf(BlockStmt)]);
    Counts2(IfStmt, x, Leaf(BlockStmt));
    var innerBlock := Node(BlockStmt, [inner]);
    Counts1(BlockStmt, inner);
    Counts2(IfStmt, x, innerBlock);
  }

  /** A loop holding two nested conditionals counts three, whatever the nesting. */
  lemma LoopWithNestedConditionals(x: Node, lit: Node)
    requires Uncounted(x, lit)
    ensures Counts(LoopBody(x, lit), 3, 1, 0)
  {
    NestedConditionalsCounts(x, lit);
    var outerBlock := Node(BlockStmt, [NestedConditionals(x)]);
    Counts1(BlockStmt, NestedConditionals(x));
    var test := Node(BinaryExpr, [x, lit]);
    Counts2(BinaryExpr, x, lit);
    var loop := Node(ForStmt, [test, outerBlock]);
    Counts2(ForStmt, test, outerBlock);
    Counts1(BlockStmt, loop);
  }

  /** `if p {} else if q {}`: the inner `if` is the outer one's else branch. */
  function ElseIfChain(x: Node): Node
  {
    Node(IfStmt, [x, Leaf(BlockStmt), Node(IfStmt, [x, Leaf(BlockStmt)])])
  }

  /** `{ switch v := y.(type) { case int: }; select { case <-c: } }` */
  function TypeSwitchAndSelect(x: Node): Node
  {
    Node(BlockStmt, [TypeSwitchOnValue(x), SelectOnReceive(x)])
  }

  /** Each `if` of an else-if chain counts. */
  lemma ElseIfChainCounts(x: Node, lit: Node)
    requires Uncounted(x, lit)
    ensures Counts(ElseIfChain(x), 2, 0, 0)
  {
    LeafCounts(BlockStmt);
    var elseIf := Node(IfStmt, [x, Leaf(BlockStmt)]);
    Counts2(IfStmt, x, Leaf(BlockStmt));
    Counts3(IfStmt, x, Leaf(BlockStmt), elseIf);
  }

  /** `switch v := y.(type) { case int: }` */
  function TypeSwitchOnValue(x: Node): Node
  {
    Node(TypeSwitchStmt, [Node(AssignStmt, [x, Node(TypeAssertExpr, [x])]), Node(BlockStmt, [Node(CaseClause, [x])])])
  }

  lemma TypeSwitchOnValueCounts(x: Node, lit: Node)
    requires Uncounted(x, lit)
    ensures Counts(TypeSwitchOnValue(x), 0, 1, 1)
  {
    var assertion := Node(TypeAssertExpr, [x]);
    Counts1(TypeAssertExpr, x);
    var assign := Node(AssignStmt, [x, assertion]);
    Counts2(AssignStmt, x, assertion);
    var clause := Node(CaseClause, [x]);
    Counts1(CaseClause, x);
    var cases := Node(BlockStmt, [clause]);
    Counts1(BlockStmt, clause);
    Counts2(TypeSwitchStmt, assign, cases);
  }

  /** A type switch and a select do not count as branching, though the type switch's `v := y.(type)` counts as an assignment. */
  lemma TypeSwitchAndSelectCounts(x: Node, lit: Node)
    requires Uncounted(x, lit)
    ensures Counts(TypeSwitchAndSelect(x), 0, 1, 1)
  {
    TypeSwitchOnValueCounts(x, lit);
    SelectOnReceiveCounts(x, lit);
    Counts2(BlockStmt, TypeSwitchOnValue(x), SelectOnReceive(x));
  }

  /** `select { case <-c: }` */
  function SelectOnReceive(x: Node): Node
  {
    Node(SelectStmt, [Node(BlockStmt, [Node(CommClause, [Node(ExprStmt, [Node(UnaryExpr, [x])])])])])
  }

  lemma SelectOnReceiveCounts(x: Node, lit: Node)
    requires Uncounted(x, lit)
    ensures Counts(SelectOnReceive(x), 0, 0, 0)
  {
    var receive := Node(UnaryExpr, [x]);
    Counts1(UnaryExpr, x);
    var stmt := Node(ExprStmt, [receive]);
    Counts1(ExprStmt, receive);
    var comm := Node(CommClause, [stmt]);
    Counts1(CommClause, stmt);
    var comms := Node(BlockStmt, [comm]);
    Counts1(BlockStmt, comm);
    Counts1(SelectStmt, comms);
  }

  /** `if len(data) == 0 { return nil, errors.New("no data provided") }` */
  function NoDataGuard(x: Node, lit: Node): Node
  {
    Node(IfStmt, [LenIsZero(x, lit), Node(BlockStmt, [ReturnError(x, lit)])])
  }

  /** `len(data) == 0` */
  function LenIsZero(x: Node, lit: Node): Node
  {
    Node(BinaryExpr, [Node(CallExpr, [x, x]), lit])
  }

  /** `return nil, errors.New("no data provided")` */
  function ReturnError(x: Node, lit: Node): Node
  {
    Node(ReturnStmt, [x, Node(CallExpr, [Node(SelectorExpr, [x, x]), lit])])
  }

  /** `result := make([]int, len(data))` */
  function MakeResult(x: Node): Node
  {
    Node(AssignStmt, [x, Node(CallExpr, [x, Node(TypeExpr, [x]), Node(CallExpr, [x, x])])])
  }

  /** `var err error` */
  function DeclareErr(x: Node): Node
  {
    Node(DeclStmt, [Node(GenDecl, [Node(ValueSpec, [x, x])])])
  }

  /** `result[i], err = processSingleValue(value)` */
  function ProcessOne(x: Node): Node
  {
    Node(AssignStmt, [Node(IndexExpr, [x, x]), x, Node(CallExpr, [x, x])])
  }

  /** `if err != nil { return nil, err }` */
  function ErrGuard(x: Node): Node
  {
    Node(IfStmt, [Node(BinaryExpr, [x, x]), Node(BlockStmt, [Node(ReturnStmt, [x, x])])])
  }

  /** `for i, value := range data { var err error; ...; if err != nil { ... } }` */
  function RangeLoop(x: Node): Node
  {
    Node(RangeStmt, [x, x, x, Node(BlockStmt, [DeclareErr(x), ProcessOne(x), ErrGuard(x)])])
  }

  /** The body of `ProcessData`, statement by statement; the last is `return result, nil`. */
  function ProcessDataBody(x: Node, lit: Node): Node
  {
    Node(BlockStmt, [NoDataGuard(x, lit), MakeResult(x), RangeLoop(x), Node(ReturnStmt, [x, x])])
  }

  /** `func ProcessData(data []int) ([]int, error)` of the sample input. */
  const ProcessData: FuncDecl := FuncDecl(
    "ProcessData",
    Some([T.FieldGroup(["data"], T.ArrayType(false, T.Ident(1, "int")))]),
    Some([T.FieldGroup([], T.ArrayType(false, T.Ident(2, "int"))), T.FieldGroup([], T.Ident(3, "error"))]),
    ProcessDataBody(Id, Lit))

  lemma ReturnErrorCounts(x: Node, lit: Node)
    requires Uncounted(x, lit)
    ensures Counts(ReturnError(x, lit), 0, 1, 0)
  {
    var selector := Node(SelectorExpr, [x, x]);
    Counts2(SelectorExpr, x, x);
    var newError := Node(CallExpr, [selector, lit]);
    Counts2(CallExpr, selector, lit);
    Counts2(ReturnStmt, x, newError);
  }

  lemma NoDataGuardCounts(x: Node, lit: Node)
    requires Uncounted(x, lit)
    ensures Counts(NoDataGuard(x, lit), 1, 3, 0)
  {
    LenIsZeroCounts(x, lit);
    ReturnErrorCounts(x, lit);
    var block := Node(BlockStmt, [ReturnError(x, lit)]);
    Counts1(BlockStmt, ReturnError(x, lit));
    Counts2(IfStmt, LenIsZero(x, lit), block);
  }

  lemma LenIsZeroCounts(x: Node, lit: Node)
    requires Uncounted(x, lit)
    ensures Counts(LenIsZero(x, lit), 0, 2, 0)
  {
    var lenCall := Node(CallExpr, [x, x]);
    Counts2(CallExpr, x, x);
    Counts2(BinaryExpr, lenCall, lit);
  }

  lemma MakeResultCounts(x: Node, lit: Node)
    requires Uncounted(x, lit)
    ensures Counts(MakeResult(x), 0, 3, 1)
  {
    var sliceType := Node(TypeExpr, [x]);
    Counts1(TypeExpr, x);
    var lenCall := Node(CallExpr, [x, x]);
    Counts2(CallExpr, x, x);
    var makeCall := Node(CallExpr, [x, sliceType, lenCall]);
    Counts3(CallExpr, x, sliceType, lenCall);
    Counts2(AssignStmt, x, makeCall);
  }

  lemma DeclareErrCounts(x: Node, lit: Node)
    requires Uncounted(x, lit)
    ensures Counts(DeclareErr(x), 0, 0, 0)
  {
    var spec := Node(ValueSpec, [x, x]);
    Counts2(ValueSpec, x, x);
    var decl := Node(GenDecl, [spec]);
    Counts1(GenDecl, spec);
    Counts1(DeclStmt, decl);
  }

  lemma ProcessOneCounts(x: Node, lit: Node)
    requires Uncounted(x, lit)
    ensures Counts(ProcessOne(x), 0, 2, 1)
  {
    var index := Node(IndexExpr, [x, x]);
    Counts2(IndexExpr, x, x);
    var call := Node(CallExpr, [x, x]);
    Counts2(CallExpr, x, x);
    Counts3(AssignStmt, index, x, call);
  }

  lemma ErrGuardCounts(x: Node, lit: Node)
    requires Uncounted(x, lit)
    ensures Counts(ErrGuard(x), 1, 1, 0)
  {
    var test := Node(BinaryExpr, [x, x]);
    Counts2(BinaryExpr, x, x);
    var ret := Node(ReturnStmt, [x, x]);
    Counts2(ReturnStmt, x, x);
    var block := Node(BlockStmt, [ret]);
    Counts1(BlockStmt, ret);
    Counts2(IfStmt, test, block);
  }

  lemma RangeLoopCounts(x: Node, lit: Node)
    requires Uncounted(x, lit)
    ensures Counts(RangeLoop(x), 2, 3, 1)
  {
    DeclareErrCounts(x, lit);
    ProcessOneCounts(x, lit);
    ErrGuardCounts(x, lit);
    var loopBlock := Node(BlockStmt, [DeclareErr(x), ProcessOne(x), ErrGuard(x)]);
    Counts3(BlockStmt, DeclareErr(x), ProcessOne(x), ErrGuard(x));
    Counts4(RangeStmt, x, x, x, loopBlock);
  }

  /** ProcessData: two ifs and a range loop; two comparisons, five calls and two assignments. */
  lemma ProcessDataBodyCounts(x: Node, lit: Node)
    requires Uncounted(x, lit)
    ensures Counts(ProcessDataBody(x, lit), 3, 9, 2)
  {
    NoDataGuardCounts(x, lit);
    MakeResultCounts(x, lit);
    RangeLoopCounts(x, lit);
    var ret := Node(ReturnStmt, [x, x]);
    Counts2(ReturnStmt, x, x);
    Counts4(BlockStmt, NoDataGuard(x, lit), MakeResult(x), RangeLoop(x), ret);
  }

  /** `case value > N: return value op M, nil` */
  function ValueCase(x: Node, lit: Node): Node
  {
    Node(CaseClause, [Node(BinaryExpr, [x, lit]), Node(ReturnStmt, [Node(BinaryExpr, [x, lit]), x])])
  }

  /** `default: return 0, fmt.Errorf("invalid data value: %d", value)` */
  function DefaultCase(x: Node, lit: Node): Node
  {
    Node(CaseClause, [Node(ReturnStmt, [lit, Node(CallExpr, [Node(SelectorExpr, [x, x]), lit, x])])])
  }

  /** The body of `processSingleValue`: a tagless switch of three cases and a default. */
  function ProcessSingleValueBody(x: Node, lit: Node): Node
  {
    var v := ValueCase(x, lit);
    Node(BlockStmt, [Node(SwitchStmt, [Node(BlockStmt, [v, v, v, DefaultCase(x, lit)])])])
  }

  /** `func processSingleValue(value int) (int, error)` of the sample input. */
  const ProcessSingleValue: FuncDecl := FuncDecl(
    "processSingleValue",
    Some([T.FieldGroup(["value"], T.Ident(1, "int"))]),
    Some([T.FieldGroup([], T.Ident(2, "int")), T.FieldGroup([], T.Ident(3, "error"))]),
    ProcessSingleValueBody(Id, Lit))

  lemma ValueCaseCounts(x: Node, lit: Node)
    requires Uncounted(x, lit)
    ensures Counts(ValueCase(x, lit), 0, 2, 0)
  {
    var test := Node(BinaryExpr, [x, lit]);
    Counts2(BinaryExpr, x, lit);
    var ret := Node(ReturnStmt, [test, x]);
    Counts2(ReturnStmt, test, x);
    Counts2(CaseClause, test, ret);
  }

  lemma DefaultCaseCounts(x: Node, lit: Node)
    requires Uncounted(x, lit)
    ensures Counts(DefaultCase(x, lit), 0, 1, 0)
  {
    var selector := Node(SelectorExpr, [x, x]);
    Counts2(SelectorExpr, x, x);
    var errorf := Node(CallExpr, [selector, lit, x]);
    Counts3(CallExpr, selector, lit, x);
    var defaultReturn := Node(ReturnStmt, [lit, errorf]);
    Counts2(ReturnStmt, lit, errorf);
    Counts1(CaseClause, defaultReturn);
  }

  /** processSingleValue: one switch; three comparisons, three arithmetic operations and one call. */
  lemma ProcessSingleValueBodyCounts(x: Node, lit: Node)
    requires Uncounted(x, lit)
    ensures Counts(ProcessSingleValueBody(x, lit), 1, 7, 0)
  {
    ValueCaseCounts(x, lit);
    DefaultCaseCounts(x, lit);
    var v := ValueCase(x, lit);
    var cases := Node(BlockStmt, [v, v, v, DefaultCase(x, lit)]);
    Counts4(BlockStmt, v, v, v, DefaultCase(x, lit));
    var switchStmt := Node(SwitchStmt, [cases]);
    Counts1(SwitchStmt, cases);
    Counts1(BlockStmt, switchStmt);
  }

  /** `[]int` is worth 1000 and `error`, a named type, is neutral. */
  lemma ProcessDataSignature()
    ensures SignatureStateSpace(ProcessData.params, Resolver.UniverseOnly) == 1000
    ensures SignatureStateSpace(ProcessData.results, Resolver.UniverseOnly) == 1000
  {
    var results := ProcessData.results.value;
    assert results[..1][..0] == [];
    assert ListStateSpace(results[..1], Resolver.UniverseOnly) == 1000;
    assert GroupStateSpace(results[1], Resolver.UniverseOnly) == 1;
  }

  /** `int` is worth 10 and `error` is neutral. */
  lemma ProcessSingleValueSignature()
    ensures SignatureStateSpace(ProcessSingleValue.params, Resolver.UniverseOnly) == 10
    ensures SignatureStateSpace(ProcessSingleValue.results, Resolver.UniverseOnly) == 10
  {
    var results := ProcessSingleValue.results.value;
    assert results[..1][..0] == [];
    assert ListStateSpace(results[..1], Resolver.UniverseOnly) == 10;
    assert GroupStateSpace(results[1], Resolver.UniverseOnly) == 1;
  }

  /** The records the analysis gives the two functions of the sample input. */
  lemma SampleInputReports()
    ensures ReportOf(ProcessData, Resolver.UniverseOnly) == Report("ProcessData", 1000, 1000, 3, 9, 2)
    ensures ReportOf(ProcessSingleValue, Resolver.UniverseOnly) == Report("processSingleValue", 10, 10, 1, 7, 0)
  {
    ProcessDataSignature();
    ProcessSingleValueSignature();
    LeavesUncounted();
    ProcessDataBodyCounts(Id, Lit);
    ProcessSingleValueBodyCounts(Id, Lit);
    ReportFields(ProcessData, Resolver.UniverseOnly, 1000, 1000, 3, 9, 2);
    ReportFields(ProcessSingleValue, Resolver.UniverseOnly, 10, 10, 1, 7, 0);
  }

  /** Resolving the sample input's signatures never panics: both functions are reported. */
  lemma SampleInputCompletes()
    ensures !SignaturePanics(ProcessData.params, Resolver.UniverseOnly)
    ensures !SignaturePanics(ProcessData.results, Resolver.UniverseOnly)
    ensures !SignaturePanics(ProcessSingleValue.params, Resolver.UniverseOnly)
    ensures !SignaturePanics(ProcessSingleValue.results, Resolver.UniverseOnly)
  {
    var ctx := Resolver.UniverseOnly;
    forall g | g in ProcessData.params.value + ProcessData.results.value
                 + ProcessSingleValue.params.value + ProcessSingleValue.results.value
      ensures !Resolver.PanicsType(g.typ, ctx)
    {
      assert g.typ.Ident? || (g.typ.ArrayType? && g.typ.elt.Ident?);
    }
  }
}
