/**
 * The structural counters `analyzeBranching`, `analyzeWTFComplexity` and
 * `countLocalAssignment` (main.go:118-155). Each walks the whole function
 * body with `ast.Inspect` and counts the nodes of some kinds; what a counter
 * returns is the number of occurrences of its kinds among all nodes of the
 * body, at any depth.
 */
module Metrics {
  import opened BodyAst

  /** The order in which `ast.Inspect` visits the nodes of a tree: a node, then its children's subtrees in order. */
  function Preorder(n: Node): seq<NodeKind>
    decreases n
  {
    [n.kind] + ForestPreorder(n.children)
  }

  function ForestPreorder(ns: seq<Node>): seq<NodeKind>
    decreases ns
  {
    if ns == [] then [] else Preorder(ns[0]) + ForestPreorder(ns[1..])
  }

  lemma {:induction false} ForestPreorderAppend(a: seq<Node>, b: seq<Node>)
    ensures ForestPreorder(a + b) == ForestPreorder(a) + ForestPreorder(b)
    decreases a
  {
    if a == [] {
      assert a + b == b;
    } else {
      assert (a + b)[1..] == a[1..] + b;
      ForestPreorderAppend(a[1..], b);
    }
  }

  /**
   * `ast.Inspect` over a body whose callback always answers true: every node
   * is visited once, in pre-order. The walk keeps a stack of the subtrees
   * still to visit; the visit sequence is returned to the counters, which
   * play the callback.
   */
  method Inspect(body: Node) returns (visited: seq<NodeKind>)
    ensures visited == Preorder(body)
  {
    visited := [];
    var pending := [body];
    assert pending[1..] == [];
    while pending != []
      invariant visited + ForestPreorder(pending) == Preorder(body)
      decreases |ForestPreorder(pending)|
    {
      var n := pending[0];
      ForestPreorderAppend(n.children, pending[1..]);
      visited := visited + [n.kind];
      pending := n.children + pending[1..];
    }
  }

  /** The kinds `analyzeBranching` counts: if, expression switch, for and range; not type switches or select. */
  predicate IsBranching(k: NodeKind)
  {
    k == IfStmt || k == SwitchStmt || k == ForStmt || k == RangeStmt
  }

  /** The kinds `analyzeWTFComplexity` counts: binary operations, calls and assignments. */
  predicate IsOperation(k: NodeKind)
  {
    k == BinaryExpr || k == CallExpr || k == AssignStmt
  }

  /** The kind `countLocalAssignment` counts: assignment statements (`=`, `:=`, `+=`, ...). */
  predicate IsAssignment(k: NodeKind)
  {
    k == AssignStmt
  }

  /** How often each node kind occurs in a body, at any depth. */
  function Occurrences(body: Node): multiset<NodeKind>
  {
    multiset(Preorder(body))
  }

  function Branches(m: multiset<NodeKind>): nat
  {
    m[IfStmt] + m[SwitchStmt] + m[ForStmt] + m[RangeStmt]
  }

  function Operations(m: multiset<NodeKind>): nat
  {
    m[BinaryExpr] + m[CallExpr] + m[AssignStmt]
  }

  function Assignments(m: multiset<NodeKind>): nat
  {
    m[AssignStmt]
  }

  function BranchingFactor(body: Node): nat
  {
    Branches(Occurrences(body))
  }

  function OperationalComplexity(body: Node): nat
  {
    Operations(Occurrences(body))
  }

  function LocalAssignments(body: Node): nat
  {
    Assignments(Occurrences(body))
  }

  /** `analyzeBranching`: one per if, switch, for and range statement of the body. */
  method AnalyzeBranching(body: Node) returns (factor: nat)
    ensures factor == BranchingFactor(body)
  {
    var visited := Inspect(body);
    factor := 0;
    for i := 0 to |visited|
      invariant factor == Branches(multiset(visited[..i]))
    {
      assert visited[..i + 1] == visited[..i] + [visited[i]];
      if IsBranching(visited[i]) {
        factor := factor + 1;
      }
    }
    assert visited[..|visited|] == visited;
  }

  /** `analyzeWTFComplexity`: one per binary expression, call and assignment of the body. */
  method AnalyzeWTFComplexity(body: Node) returns (complexity: nat)
    ensures complexity == OperationalComplexity(body)
  {
    var visited := Inspect(body);
    complexity := 0;
    for i := 0 to |visited|
      invariant complexity == Operations(multiset(visited[..i]))
    {
      assert visited[..i + 1] == visited[..i] + [visited[i]];
      if IsOperation(visited[i]) {
        complexity := complexity + 1;
      }
    }
    assert visited[..|visited|] == visited;
  }

  /** `countLocalAssignment`: one per assignment statement of the body. */
  method CountLocalAssignment(body: Node) returns (localVars: nat)
    ensures localVars == LocalAssignments(body)
    ensures localVars <= OperationalComplexity(body)
  {
    var visited := Inspect(body);
    localVars := 0;
    for i := 0 to |visited|
      invariant localVars == Assignments(multiset(visited[..i]))
    {
      assert visited[..i + 1] == visited[..i] + [visited[i]];
      if IsAssignment(visited[i]) {
        localVars := localVars + 1;
      }
    }
    assert visited[..|visited|] == visited;
  }

  /** The branching factor is zero exactly when the body holds no if, switch, for or range statement. */
  lemma NoBranchesWhenAbsent(body: Node)
    ensures BranchingFactor(body) == 0 <==> forall k :: k in Preorder(body) ==> !IsBranching(k)
  {
    var s := Preorder(body);
    assert forall k :: k in s <==> multiset(s)[k] > 0;
    assert (IfStmt in s || SwitchStmt in s || ForStmt in s || RangeStmt in s) <==> BranchingFactor(body) > 0;
    assert (forall k :: k in s ==> !IsBranching(k)) <==> !(IfStmt in s || SwitchStmt in s || ForStmt in s || RangeStmt in s);
  }

  /** The operational complexity is zero exactly when the body holds no binary expression, call or assignment. */
  lemma NoOperationsWhenAbsent(body: Node)
    ensures OperationalComplexity(body) == 0 <==> forall k :: k in Preorder(body) ==> !IsOperation(k)
  {
    var s := Preorder(body);
    assert forall k :: k in s <==> multiset(s)[k] > 0;
    assert (BinaryExpr in s || CallExpr in s || AssignStmt in s) <==> OperationalComplexity(body) > 0;
    assert (forall k :: k in s ==> !IsOperation(k)) <==> !(BinaryExpr in s || CallExpr in s || AssignStmt in s);
  }

  /** The local count is zero exactly when the body holds no assignment statement. */
  lemma NoAssignmentsWhenAbsent(body: Node)
    ensures LocalAssignments(body) == 0 <==> forall k :: k in Preorder(body) ==> !IsAssignment(k)
  {
    var s := Preorder(body);
    assert forall k :: k in s <==> multiset(s)[k] > 0;
    assert AssignStmt in s <==> LocalAssignments(body) > 0;
    assert (forall k :: k in s ==> !IsAssignment(k)) <==> AssignStmt !in s;
  }

  /** A leaf counts only itself. */
  lemma LeafOccurrences(k: NodeKind)
    ensures Occurrences(Node(k, [])) == multiset{k}
  {
    assert Preorder(Node(k, [])) == [k];
  }

  /**
   * Appending a child subtree adds exactly that subtree's occurrences: every
   * node counts once, whatever its depth.
   */
  lemma AddChild(k: NodeKind, children: seq<Node>, child: Node)
    ensures Occurrences(Node(k, children + [child])) == Occurrences(Node(k, children)) + Occurrences(child)
    ensures BranchingFactor(Node(k, children + [child])) == BranchingFactor(Node(k, children)) + BranchingFactor(child)
    ensures OperationalComplexity(Node(k, children + [child])) == OperationalComplexity(Node(k, children)) + OperationalComplexity(child)
    ensures LocalAssignments(Node(k, children + [child])) == LocalAssignments(Node(k, children)) + LocalAssignments(child)
  {
    ForestPreorderAppend(children, [child]);
    assert ForestPreorder([child]) == Preorder(child) by {
      assert [child][1..] == [];
    }
  }

  /** `s` is `t` or a subtree of one of `t`'s children. */
  ghost predicate Contains(t: Node, s: Node)
    decreases t
  {
    s == t || exists i :: 0 <= i < |t.children| && Contains(t.children[i], s)
  }

  /** Every node of a subtree, however deep, is counted in the whole tree. */
  lemma {:induction false} SubtreeCounted(t: Node, s: Node)
    requires Contains(t, s)
    ensures Occurrences(s) <= Occurrences(t)
    ensures BranchingFactor(s) <= BranchingFactor(t)
    ensures OperationalComplexity(s) <= OperationalComplexity(t)
    ensures LocalAssignments(s) <= LocalAssignments(t)
    decreases t
  {
    if s != t {
      var i :| 0 <= i < |t.children| && Contains(t.children[i], s);
      var cs := t.children;
      SubtreeCounted(cs[i], s);
      assert cs == cs[..i] + [cs[i]] + cs[i + 1..];
      ForestPreorderAppend(cs[..i] + [cs[i]], cs[i + 1..]);
      ForestPreorderAppend(cs[..i], [cs[i]]);
      assert [cs[i]][1..] == [];
      assert multiset(ForestPreorder(cs)) == multiset(ForestPreorder(cs[..i])) + Occurrences(cs[i])
                                            + multiset(ForestPreorder(cs[i + 1..]));
      assert Occurrences(t) == multiset{t.kind} + multiset(ForestPreorder(cs));
    }
  }

}
