/**
 * The state-space estimator `typeStateSpace` (main.go:55-84) and its two folds
 * over a signature, `analyzeInputStateSpace` and `analyzeOutputStateSpace`
 * (main.go:87-116): a coarse count of the values a type can hold, multiplied
 * over a parameter or result list.
 */
module StateSpace {
  import opened Optional
  import opened GoTypes
  import opened TypeAst
  import opened DeclAst
  import opened Resolver

  /** The value of a boolean. */
  const BoolSpace := 2
  /** The stand-in value of `int`, `uint64` and `string`. */
  const NumberSpace := 10
  /** The stand-in factor for the unknown length of a slice. */
  const SliceLengthFactor := 100

  /** Basic kinds: only bool, int, uint64 and string are priced; every other kind is neutral. */
  function BasicStateSpace(k: BasicKind): nat
  {
    match k
    case Bool => BoolSpace
    case Int => NumberSpace
    case Uint64 => NumberSpace
    case String => NumberSpace
    case _ => 1
  }

  /**
   * The state space of a resolved type: never below 1, so that an unknown or
   * empty type is the neutral factor of every product it enters.
   */
  function StateSpace(t: Ty): (r: nat)
    ensures r >= 1
    decreases t
  {
    match t
    case Basic(k) => BasicStateSpace(k)
    case Slice(elem) => StateSpace(elem) * SliceLengthFactor
    case Pointer(base) => StateSpace(base)
    case Struct(fields) => FieldsStateSpace(fields)
    case _ => 1
  }

  /** The product of the fields' state spaces, taken from the first field to the last. */
  function FieldsStateSpace(fields: seq<Var>): (r: nat)
    ensures r >= 1
    decreases fields
  {
    if fields == [] then 1
    else
      var space := FieldsStateSpace(fields[..|fields| - 1]);
      var last := StateSpace(fields[|fields| - 1].typ);
      MultiplyPositive(space, last);
      space * last
  }

  lemma MultiplyPositive(a: nat, b: nat)
    requires a >= 1 && b >= 1
    ensures a * b >= a && a * b >= b
  {
  }

  /** `typeStateSpace`, with the struct case multiplying over the fields in a loop. */
  method TypeStateSpace(t: Ty) returns (space: int)
    ensures space == StateSpace(t)
    decreases t
  {
    match t {
      case Basic(k) =>
        match k {
          case Bool => return 2;
          case Int => return 10;
          case Uint64 => return 10;
          case String => return 10;
          case _ =>
        }
      case Slice(elem) =>
        var elemSpace := TypeStateSpace(elem);
        return elemSpace * 100;
      case Pointer(base) =>
        space := TypeStateSpace(base);
        return;
      case Struct(fields) =>
        space := 1;
        for i := 0 to |fields|
          invariant space == FieldsStateSpace(fields[..i])
        {
          var fieldSpace := TypeStateSpace(fields[i].typ);
          assert fields[..i + 1][..i] == fields[..i];
          space := space * fieldSpace;
        }
        assert fields[..|fields|] == fields;
        return;
      case _ =>
    }
    return 1;
  }

  /** Concatenating field lists multiplies their state spaces. */
  lemma {:induction false} FieldsStateSpaceAppend(a: seq<Var>, b: seq<Var>)
    ensures FieldsStateSpace(a + b) == FieldsStateSpace(a) * FieldsStateSpace(b)
    decreases b
  {
    if b == [] {
      assert a + b == a;
    } else {
      var init := b[..|b| - 1];
      FieldsStateSpaceAppend(a, init);
      assert (a + b)[..|a + b| - 1] == a + init;
      assert (a + b)[|a + b| - 1] == b[|b| - 1];
      MultiplyAssociative(FieldsStateSpace(a), FieldsStateSpace(init), StateSpace(b[|b| - 1].typ));
    }
  }

  /** The order of a struct's fields does not change its state space. */
  lemma {:induction false} FieldsStateSpacePermutation(a: seq<Var>, b: seq<Var>)
    requires multiset(a) == multiset(b)
    ensures FieldsStateSpace(a) == FieldsStateSpace(b)
    decreases |a|
  {
    if a != [] {
      var init, x := a[..|a| - 1], a[|a| - 1];
      assert a == init + [x];
      assert x in multiset(b);
      var k :| 0 <= k < |b| && b[k] == x;
      var rest := b[..k] + b[k + 1..];
      assert b == b[..k] + [x] + b[k + 1..];
      assert multiset(a) == multiset(init) + multiset{x};
      assert multiset(b) == multiset(b[..k]) + multiset{x} + multiset(b[k + 1..]);
      assert multiset(rest) == multiset(b[..k]) + multiset(b[k + 1..]);
      assert multiset(init) == multiset(a) - multiset{x};
      assert multiset(init) == multiset(rest);
      FieldsStateSpacePermutation(init, rest);
      FieldsStateSpaceAppend(b[..k] + [x], b[k + 1..]);
      FieldsStateSpaceAppend(b[..k], [x]);
      FieldsStateSpaceAppend(b[..k], b[k + 1..]);
      assert [x][..0] == [];
      calc {
        FieldsStateSpace(b);
        FieldsStateSpace(b[..k]) * StateSpace(x.typ) * FieldsStateSpace(b[k + 1..]);
        { MultiplyCommutesRight(FieldsStateSpace(b[..k]), StateSpace(x.typ), FieldsStateSpace(b[k + 1..])); }
        FieldsStateSpace(b[..k]) * FieldsStateSpace(b[k + 1..]) * StateSpace(x.typ);
        FieldsStateSpace(rest) * StateSpace(x.typ);
        FieldsStateSpace(a);
      }
    }
  }

  lemma MultiplyCommutesRight(x: int, y: int, z: int)
    ensures x * y * z == x * z * y
  {
  }

  lemma MultiplyAssociative(x: int, y: int, z: int)
    ensures x * y * z == x * (y * z)
  {
  }

  /** The policy table: one statement per row of it. */
  lemma PolicyTable(t: Ty, fields: seq<Var>, f1: Var, f2: Var)
    ensures StateSpace(Basic(Bool)) == 2
    ensures StateSpace(Basic(Int)) == 10 && StateSpace(Basic(Uint64)) == 10 && StateSpace(Basic(String)) == 10
    ensures forall k :: k !in {Bool, Int, Uint64, String} ==> StateSpace(Basic(k)) == 1
    ensures StateSpace(Slice(t)) == 100 * StateSpace(t)
    ensures StateSpace(Pointer(t)) == StateSpace(t)
    ensures StateSpace(Struct([])) == 1
    ensures StateSpace(Struct([f1, f2])) == StateSpace(f1.typ) * StateSpace(f2.typ)
    ensures !(t.Basic? || t.Slice? || t.Pointer? || t.Struct?) ==> StateSpace(t) == 1
  {
    assert [f1, f2][..1] == [f1];
    assert [f1][..0] == [];
    assert FieldsStateSpace([f1]) == StateSpace(f1.typ);
  }

  /** What one field group of a signature contributes: an unresolved type contributes 1. */
  function GroupStateSpace(group: FieldGroup, ctx: Context): nat
  {
    match ResolveType(group.typ, ctx)
    case None => 1
    case Some(t) => StateSpace(t)
  }

  /** The product over a field list's groups, in list order; each group counts once, whatever its names. */
  function ListStateSpace(groups: seq<FieldGroup>, ctx: Context): (r: nat)
    ensures r >= 1
  {
    if groups == [] then 1
    else
      var space := ListStateSpace(groups[..|groups| - 1], ctx);
      var last := GroupStateSpace(groups[|groups| - 1], ctx);
      MultiplyPositive(space, last);
      space * last
  }

  /** The state space of a signature's field list; a missing list gives 1. */
  function SignatureStateSpace(list: Option<seq<FieldGroup>>, ctx: Context): nat
  {
    match list
    case None => 1
    case Some(groups) => ListStateSpace(groups, ctx)
  }

  /** Whether resolving the type of some group of a signature's field list panics. */
  predicate SignaturePanics(list: Option<seq<FieldGroup>>, ctx: Context)
  {
    list.Some? && exists g :: g in list.value && PanicsType(g.typ, ctx)
  }

  /**
   * The loop shared by `analyzeInputStateSpace` and `analyzeOutputStateSpace`.
   * `panicked` says that resolving some group's type panicked, which ends the
   * run; `space` then means nothing.
   */
  method FieldListStateSpace(list: Option<seq<FieldGroup>>, ctx: Context) returns (space: int, panicked: bool)
    ensures panicked <==> SignaturePanics(list, ctx)
    ensures !panicked ==> space == SignatureStateSpace(list, ctx)
    ensures space >= 1
  {
    space, panicked := 1, false;
    if list.Some? {
      var groups := list.value;
      for i := 0 to |groups|
        invariant space == ListStateSpace(groups[..i], ctx)
        invariant forall k :: 0 <= k < i ==> !PanicsType(groups[k].typ, ctx)
      {
        var typ;
        typ, panicked := ExprType(groups[i].typ, ctx, {});
        if panicked {
          assert groups[i] in groups;
          return;
        }
        assert groups[..i + 1][..i] == groups[..i];
        if typ.Some? {
          var typeSpace := TypeStateSpace(typ.value);
          space := space * typeSpace;
        }
      }
      assert groups[..|groups|] == groups;
      forall g | g in groups
        ensures !PanicsType(g.typ, ctx)
      {
        var k :| 0 <= k < |groups| && groups[k] == g;
      }
    }
  }

  /** `analyzeInputStateSpace`: the product over the parameter list, unless resolving a parameter type panics. */
  method AnalyzeInputStateSpace(f: FuncDecl, ctx: Context) returns (space: int, panicked: bool)
    ensures panicked <==> SignaturePanics(f.params, ctx)
    ensures !panicked ==> space == SignatureStateSpace(f.params, ctx)
    ensures space >= 1
  {
    space, panicked := FieldListStateSpace(f.params, ctx);
  }

  /** `analyzeOutputStateSpace`: the product over the result list, unless resolving a result type panics. */
  method AnalyzeOutputStateSpace(f: FuncDecl, ctx: Context) returns (space: int, panicked: bool)
    ensures panicked <==> SignaturePanics(f.results, ctx)
    ensures !panicked ==> space == SignatureStateSpace(f.results, ctx)
    ensures space >= 1
  {
    space, panicked := FieldListStateSpace(f.results, ctx);
  }

  /**
   * Splitting a field list splits its state space into a product, and a
   * group whose type does not resolve leaves the product unchanged.
   */
  lemma {:induction false} ListStateSpaceAppend(a: seq<FieldGroup>, b: seq<FieldGroup>, ctx: Context)
    ensures ListStateSpace(a + b, ctx) == ListStateSpace(a, ctx) * ListStateSpace(b, ctx)
    decreases b
  {
    if b == [] {
      assert a + b == a;
    } else {
      var init := b[..|b| - 1];
      ListStateSpaceAppend(a, init, ctx);
      assert (a + b)[..|a + b| - 1] == a + init;
      assert (a + b)[|a + b| - 1] == b[|b| - 1];
      MultiplyAssociative(ListStateSpace(a, ctx), ListStateSpace(init, ctx), GroupStateSpace(b[|b| - 1], ctx));
    }
  }

  lemma UnresolvedGroupIsNeutral(a: seq<FieldGroup>, g: FieldGroup, b: seq<FieldGroup>, ctx: Context)
    requires ResolveType(g.typ, ctx).None?
    ensures ListStateSpace(a + [g] + b, ctx) == ListStateSpace(a + b, ctx)
  {
    ListStateSpaceAppend(a + [g], b, ctx);
    ListStateSpaceAppend(a, b, ctx);
    assert (a + [g])[..|a + [g]| - 1] == a;
  }

}
