/**
 * The type resolver `exprType` (main.go:14-53): from a type expression of the
 * syntax tree to a resolved type, or to nothing (Go's nil) when it cannot tell.
 *
 * The Go function recurses into a local type declaration without remembering
 * that it is already expanding it, so a self-referential declaration makes it
 * recurse forever. `Resolve` carries the set of declarations being expanded
 * and answers None on re-entry; `ExprTypeAsWritten` is the Go recursion as
 * written, run on a fuel budget, and `AgreesWithAsWritten` proves that the two
 * give the same answer whenever the Go recursion comes to an end.
 *
 * An inline struct whose collected fields repeat a non-blank name makes
 * `types.NewStruct` panic, which ends the run; `Panics` says when that
 * happens, and `Resolve` gives the answer of every run that does not panic.
 */
module Resolver {
  import opened Optional
  import opened GoTypes
  import opened TypeAst

  /**
   * The read-only symbol snapshot the resolver consults:
   * - `defs` and `uses` are `TypesInfo.Defs` and `TypesInfo.Uses`, keyed by
   *   identifier node, giving the type of the object found there;
   * - `typeDecls` are the type declarations an identifier can be bound to by
   *   the parser (`x.Obj` of kind `ast.Typ`), by name;
   * - `universe` is `types.Universe`, by name.
   */
  datatype Context = Context(
    defs: map<nat, Ty>,
    uses: map<nat, Ty>,
    typeDecls: map<string, TypeExpr>,
    universe: map<string, Ty>)

  /**
   * The predeclared types of Go's universe scope. Its other objects (the
   * constants `true`, `false` and `iota`, `nil` and the built-in functions)
   * are not part of this model.
   */
  const Universe: map<string, Ty> := map[
    "bool" := Basic(Bool), "int" := Basic(Int), "int8" := Basic(Int8),
    "int16" := Basic(Int16), "int32" := Basic(Int32), "rune" := Basic(Int32),
    "int64" := Basic(Int64), "uint" := Basic(Uint), "uint8" := Basic(Uint8),
    "byte" := Basic(Uint8), "uint16" := Basic(Uint16), "uint32" := Basic(Uint32),
    "uint64" := Basic(Uint64), "uintptr" := Basic(Uintptr),
    "float32" := Basic(Float32), "float64" := Basic(Float64),
    "complex64" := Basic(Complex64), "complex128" := Basic(Complex128),
    "string" := Basic(String), "error" := Named("error", Interface), "any" := Interface,
    "comparable" := Named("comparable", Interface)]

  /** The fields one field group adds when its type resolved to `t`: one per name, in order. */
  function GroupFields(names: seq<string>, t: Option<Ty>): (fs: seq<Var>)
    ensures t.None? ==> fs == []
    ensures t.Some? ==>
      |fs| == |names| && forall k :: 0 <= k < |fs| ==> fs[k] == Var(names[k], t.value)
  {
    match t
    case None => []
    case Some(ty) => seq(|names|, k requires 0 <= k < |names| => Var(names[k], ty))
  }

  /**
   * Resolution of `e` while the type declarations named in `expanding` are
   * being expanded. An identifier tries, in order, its definition, its use,
   * the type declaration it is bound to (whose result is final, found or
   * not) and the universe.
   */
  function Resolve(e: TypeExpr, ctx: Context, expanding: set<string>): Option<Ty>
    decreases ctx.typeDecls.Keys - expanding, e
  {
    match e
    case Ident(id, name) =>
      if id in ctx.defs then Some(ctx.defs[id])
      else if id in ctx.uses then Some(ctx.uses[id])
      else if name in ctx.typeDecls then
        if name in expanding then None
        else Resolve(ctx.typeDecls[name], ctx, expanding + {name})
      else if name in ctx.universe then Some(ctx.universe[name])
      else None
    case ArrayType(_, elt) =>
      (match Resolve(elt, ctx, expanding)
       case Some(t) => Some(Slice(t))
       case None => None)
    case StarExpr(x) =>
      (match Resolve(x, ctx, expanding)
       case Some(t) => Some(Pointer(t))
       case None => None)
    case StructType(groups) => Some(Struct(ResolveFields(groups, ctx, expanding)))
    case OtherExpr(_) => None
  }

  /** The fields of an inline struct: groups whose type does not resolve are dropped. */
  function ResolveFields(groups: seq<FieldGroup>, ctx: Context, expanding: set<string>): seq<Var>
    decreases ctx.typeDecls.Keys - expanding, groups
  {
    if groups == [] then []
    else
      var last := groups[|groups| - 1];
      ResolveFields(groups[..|groups| - 1], ctx, expanding)
        + GroupFields(last.names, Resolve(last.typ, ctx, expanding))
  }

  /** Resolution of a type expression from the top, nothing being expanded yet. */
  function ResolveType(e: TypeExpr, ctx: Context): Option<Ty>
  {
    Resolve(e, ctx, {})
  }

  /**
   * Whether `types.NewStruct` accepts a field list: no two fields share a
   * name, except the blank name `_`, which may repeat.
   */
  predicate DistinctFieldNames(fs: seq<Var>)
  {
    forall i, j :: 0 <= i < j < |fs| && fs[i].name != "_" ==> fs[i].name != fs[j].name
  }

  /**
   * Whether resolving `e` panics: somewhere on the way an inline struct
   * collects two fields with the same non-blank name, and `types.NewStruct`
   * panics on them. The panic ends the whole run.
   */
  predicate Panics(e: TypeExpr, ctx: Context, expanding: set<string>)
    decreases ctx.typeDecls.Keys - expanding, e
  {
    match e
    case Ident(id, name) =>
      id !in ctx.defs && id !in ctx.uses && name in ctx.typeDecls && name !in expanding
      && Panics(ctx.typeDecls[name], ctx, expanding + {name})
    case ArrayType(_, elt) => Panics(elt, ctx, expanding)
    case StarExpr(x) => Panics(x, ctx, expanding)
    case StructType(groups) =>
      (exists g :: g in groups && Panics(g.typ, ctx, expanding))
      || !DistinctFieldNames(ResolveFields(groups, ctx, expanding))
    case OtherExpr(_) => false
  }

  /** Whether resolving `e` from the top panics. */
  predicate PanicsType(e: TypeExpr, ctx: Context)
  {
    Panics(e, ctx, {})
  }

  /**
   * The order in which an identifier is looked up: a definition wins over a
   * use, a use over a type declaration, a type declaration over the universe.
   * A bound type declaration decides the answer even when it does not
   * resolve, and an identifier found nowhere is unresolved.
   */
  lemma IdentifierOrder(id: nat, name: string, ctx: Context)
    ensures id in ctx.defs ==> ResolveType(Ident(id, name), ctx) == Some(ctx.defs[id])
    ensures id !in ctx.defs && id in ctx.uses ==> ResolveType(Ident(id, name), ctx) == Some(ctx.uses[id])
    ensures id !in ctx.defs && id !in ctx.uses && name in ctx.typeDecls ==>
      ResolveType(Ident(id, name), ctx) == Resolve(ctx.typeDecls[name], ctx, {name})
    ensures id !in ctx.defs && id !in ctx.uses && name !in ctx.typeDecls && name in ctx.universe ==>
      ResolveType(Ident(id, name), ctx) == Some(ctx.universe[name])
    ensures ResolveType(Ident(id, name), ctx).None? <==>
      id !in ctx.defs && id !in ctx.uses &&
      (if name in ctx.typeDecls then Resolve(ctx.typeDecls[name], ctx, {name}).None? else name !in ctx.universe)
  {
    assert {} + {name} == {name};
  }

  /**
   * `types.NewStruct`'s check of the field names: a set of the non-blank
   * names seen so far, and a panic on the first name seen twice.
   */
  method NewStruct(fields: seq<Var>) returns (panicked: bool)
    ensures panicked <==> !DistinctFieldNames(fields)
  {
    var seen: set<string> := {};
    for k := 0 to |fields|
      invariant seen == set j | 0 <= j < k && fields[j].name != "_" :: fields[j].name
      invariant DistinctFieldNames(fields[..k])
    {
      var name := fields[k].name;
      if name != "_" {
        if name in seen {
          var j :| 0 <= j < k && fields[j].name != "_" && fields[j].name == name;
          assert fields[j].name == fields[k].name;
          return true;
        }
        seen := seen + {name};
      }
      assert fields[..k + 1][..k] == fields[..k];
    }
    assert fields[..|fields|] == fields;
    return false;
  }

  /**
   * `exprType`, with the struct case building its field list by appending in
   * two nested loops. `panicked` says that the run ended in a panic, in which
   * case `r` means nothing.
   */
  method ExprType(e: TypeExpr, ctx: Context, expanding: set<string>) returns (r: Option<Ty>, panicked: bool)
    ensures panicked <==> Panics(e, ctx, expanding)
    ensures !panicked ==> r == Resolve(e, ctx, expanding)
    decreases ctx.typeDecls.Keys - expanding, e
  {
    panicked := false;
    match e {
      case Ident(id, name) =>
        if id in ctx.defs {
          return Some(ctx.defs[id]), false;
        }
        if id in ctx.uses {
          return Some(ctx.uses[id]), false;
        }
        if name in ctx.typeDecls {
          if name in expanding {
            return None, false;
          }
          r, panicked := ExprType(ctx.typeDecls[name], ctx, expanding + {name});
          return;
        }
        if name in ctx.universe {
          return Some(ctx.universe[name]), false;
        }
        return None, false;
      case ArrayType(_, elt) =>
        var elemType;
        elemType, panicked := ExprType(elt, ctx, expanding);
        if panicked {
          return None, true;
        }
        if elemType.Some? {
          return Some(Slice(elemType.value)), false;
        }
        return None, false;
      case StarExpr(x) =>
        var baseType;
        baseType, panicked := ExprType(x, ctx, expanding);
        if panicked {
          return None, true;
        }
        if baseType.Some? {
          return Some(Pointer(baseType.value)), false;
        }
        return None, false;
      case StructType(groups) =>
        var fields;
        fields, panicked := CollectFields(groups, ctx, expanding);
        if panicked {
          return None, true;
        }
        panicked := NewStruct(fields);
        if panicked {
          return None, true;
        }
        return Some(Struct(fields)), false;
      case OtherExpr(_) =>
        return None, false;
    }
  }

  /**
   * The struct case's two nested loops: the fields of every group whose type
   * resolves, one per name, appended in order. `panicked` says that resolving
   * some group's type panicked, in which case `fields` means nothing.
   */
  method CollectFields(groups: seq<FieldGroup>, ctx: Context, expanding: set<string>) returns (fields: seq<Var>, panicked: bool)
    ensures panicked <==> exists g :: g in groups && Panics(g.typ, ctx, expanding)
    ensures !panicked ==> fields == ResolveFields(groups, ctx, expanding)
    decreases ctx.typeDecls.Keys - expanding, groups
  {
    fields := [];
    for i := 0 to |groups|
      invariant fields == ResolveFields(groups[..i], ctx, expanding)
      invariant forall k :: 0 <= k < i ==> !Panics(groups[k].typ, ctx, expanding)
    {
      var field := groups[i];
      var fieldType;
      fieldType, panicked := ExprType(field.typ, ctx, expanding);
      if panicked {
        assert field in groups;
        return;
      }
      if fieldType.Some? {
        fields := AppendGroup(fields, field.names, fieldType.value);
      }
      assert groups[..i + 1][..i] == groups[..i];
    }
    assert groups[..|groups|] == groups;
    forall g | g in groups
      ensures !Panics(g.typ, ctx, expanding)
    {
      var k :| 0 <= k < |groups| && groups[k] == g;
    }
    panicked := false;
  }

  /** The inner loop of the struct case: one field per name, appended in order. */
  method AppendGroup(fields: seq<Var>, names: seq<string>, t: Ty) returns (extended: seq<Var>)
    ensures extended == fields + GroupFields(names, Some(t))
  {
    extended := fields;
    for j := 0 to |names|
      invariant extended == fields + GroupFields(names[..j], Some(t))
    {
      extended := extended + [Var(names[j], t)];
    }
    assert names[..|names|] == names;
  }

  /**
   * The outcome of a computation run on a budget: its value, the budget ran
   * out first, or it panicked.
   */
  datatype Run<T> = Finished(value: T) | OutOfFuel | Panicked

  /**
   * `exprType` as written, with no guard against re-entering a type
   * declaration; each expansion of a declaration spends one unit of `fuel`.
   * It diverges on an input when it is OutOfFuel for every budget. A struct
   * whose collected fields repeat a non-blank name panics in
   * `types.NewStruct`, and the panic propagates out of every enclosing call.
   */
  function ExprTypeAsWritten(e: TypeExpr, ctx: Context, fuel: nat): Run<Option<Ty>>
    decreases fuel, e
  {
    match e
    case Ident(id, name) =>
      if id in ctx.defs then Finished(Some(ctx.defs[id]))
      else if id in ctx.uses then Finished(Some(ctx.uses[id]))
      else if name in ctx.typeDecls then
        if fuel == 0 then OutOfFuel else ExprTypeAsWritten(ctx.typeDecls[name], ctx, fuel - 1)
      else if name in ctx.universe then Finished(Some(ctx.universe[name]))
      else Finished(None)
    case ArrayType(_, elt) =>
      (match ExprTypeAsWritten(elt, ctx, fuel)
       case OutOfFuel => OutOfFuel
       case Panicked => Panicked
       case Finished(t) => Finished(if t.Some? then Some(Slice(t.value)) else None))
    case StarExpr(x) =>
      (match ExprTypeAsWritten(x, ctx, fuel)
       case OutOfFuel => OutOfFuel
       case Panicked => Panicked
       case Finished(t) => Finished(if t.Some? then Some(Pointer(t.value)) else None))
    case StructType(groups) =>
      (match FieldsAsWritten(groups, ctx, fuel)
       case OutOfFuel => OutOfFuel
       case Panicked => Panicked
       case Finished(fs) => if DistinctFieldNames(fs) then Finished(Some(Struct(fs))) else Panicked)
    case OtherExpr(_) => Finished(None)
  }

  /** The struct case of `ExprTypeAsWritten`: every group is resolved, in order, until one does not return. */
  function FieldsAsWritten(groups: seq<FieldGroup>, ctx: Context, fuel: nat): Run<seq<Var>>
    decreases fuel, groups
  {
    if groups == [] then Finished([])
    else
      var last := groups[|groups| - 1];
      match FieldsAsWritten(groups[..|groups| - 1], ctx, fuel)
      case OutOfFuel => OutOfFuel
      case Panicked => Panicked
      case Finished(fs) =>
        match ExprTypeAsWritten(last.typ, ctx, fuel)
        case OutOfFuel => OutOfFuel
        case Panicked => Panicked
        case Finished(t) => Finished(fs + GroupFields(last.names, t))
  }

  /** A run that comes to an end, by returning or by panicking, ends the same way with any larger budget. */
  lemma {:induction false} AsWrittenMonotone(e: TypeExpr, ctx: Context, fuel: nat, more: nat)
    requires fuel <= more
    requires !ExprTypeAsWritten(e, ctx, fuel).OutOfFuel?
    ensures ExprTypeAsWritten(e, ctx, more) == ExprTypeAsWritten(e, ctx, fuel)
    decreases fuel, e
  {
    match e
    case Ident(id, name) =>
      if id !in ctx.defs && id !in ctx.uses && name in ctx.typeDecls {
        AsWrittenMonotone(ctx.typeDecls[name], ctx, fuel - 1, more - 1);
      }
    case ArrayType(_, elt) =>
      AsWrittenMonotone(elt, ctx, fuel, more);
    case StarExpr(x) =>
      AsWrittenMonotone(x, ctx, fuel, more);
    case StructType(groups) =>
      FieldsAsWrittenMonotone(groups, ctx, fuel, more);
    case OtherExpr(_) =>
  }

  lemma {:induction false} FieldsAsWrittenMonotone(groups: seq<FieldGroup>, ctx: Context, fuel: nat, more: nat)
    requires fuel <= more
    requires !FieldsAsWritten(groups, ctx, fuel).OutOfFuel?
    ensures FieldsAsWritten(groups, ctx, more) == FieldsAsWritten(groups, ctx, fuel)
    decreases fuel, groups
  {
    if groups != [] {
      FieldsAsWrittenMonotone(groups[..|groups| - 1], ctx, fuel, more);
      if FieldsAsWritten(groups[..|groups| - 1], ctx, fuel).Finished? {
        AsWrittenMonotone(groups[|groups| - 1].typ, ctx, fuel, more);
      }
    }
  }

  /** The smallest budget on which a run that comes to an end already does. */
  ghost function LeastFuel(e: TypeExpr, ctx: Context, fuel: nat): (g: nat)
    requires !ExprTypeAsWritten(e, ctx, fuel).OutOfFuel?
    ensures g <= fuel && !ExprTypeAsWritten(e, ctx, g).OutOfFuel?
    ensures g == 0 || ExprTypeAsWritten(e, ctx, g - 1).OutOfFuel?
  {
    if fuel == 0 || ExprTypeAsWritten(e, ctx, fuel - 1).OutOfFuel? then fuel
    else LeastFuel(e, ctx, fuel - 1)
  }

  /**
   * The declarations being expanded are ones whose as-written run does not
   * come to an end on the budget left below the current one: re-entering one
   * of them cannot happen inside a run that does.
   */
  ghost predicate Unfinished(expanding: set<string>, ctx: Context, fuel: nat)
  {
    forall n :: n in expanding && n in ctx.typeDecls ==>
      fuel == 0 || ExprTypeAsWritten(ctx.typeDecls[n], ctx, fuel - 1).OutOfFuel?
  }

  lemma {:induction false} AgreesWhileExpanding(e: TypeExpr, ctx: Context, fuel: nat, expanding: set<string>)
    requires !ExprTypeAsWritten(e, ctx, fuel).OutOfFuel?
    requires Unfinished(expanding, ctx, fuel)
    ensures Panics(e, ctx, expanding) <==> ExprTypeAsWritten(e, ctx, fuel).Panicked?
    ensures ExprTypeAsWritten(e, ctx, fuel).Finished? ==>
      Resolve(e, ctx, expanding) == ExprTypeAsWritten(e, ctx, fuel).value
    decreases ctx.typeDecls.Keys - expanding, e
  {
    match e
    case Ident(id, name) =>
      if id !in ctx.defs && id !in ctx.uses && name in ctx.typeDecls {
        var decl := ctx.typeDecls[name];
        if name in expanding {
          assert false;
        } else {
          var g := LeastFuel(decl, ctx, fuel - 1);
          AsWrittenMonotone(decl, ctx, g, fuel - 1);
          forall n | n in expanding + {name} && n in ctx.typeDecls
            ensures g == 0 || ExprTypeAsWritten(ctx.typeDecls[n], ctx, g - 1).OutOfFuel?
          {
            if n != name && g != 0 && !ExprTypeAsWritten(ctx.typeDecls[n], ctx, g - 1).OutOfFuel? {
              AsWrittenMonotone(ctx.typeDecls[n], ctx, g - 1, fuel - 1);
              assert false;
            }
          }
          AgreesWhileExpanding(decl, ctx, g, expanding + {name});
        }
      }
    case ArrayType(_, elt) =>
      AgreesWhileExpanding(elt, ctx, fuel, expanding);
    case StarExpr(x) =>
      AgreesWhileExpanding(x, ctx, fuel, expanding);
    case StructType(groups) =>
      FieldsAgreeWhileExpanding(groups, ctx, fuel, expanding);
    case OtherExpr(_) =>
  }

  lemma {:induction false} FieldsAgreeWhileExpanding(groups: seq<FieldGroup>, ctx: Context, fuel: nat, expanding: set<string>)
    requires !FieldsAsWritten(groups, ctx, fuel).OutOfFuel?
    requires Unfinished(expanding, ctx, fuel)
    ensures (exists g :: g in groups && Panics(g.typ, ctx, expanding)) <==> FieldsAsWritten(groups, ctx, fuel).Panicked?
    ensures FieldsAsWritten(groups, ctx, fuel).Finished? ==>
      ResolveFields(groups, ctx, expanding) == FieldsAsWritten(groups, ctx, fuel).value
    decreases ctx.typeDecls.Keys - expanding, groups
  {
    if groups != [] {
      var init, last := groups[..|groups| - 1], groups[|groups| - 1];
      assert groups == init + [last];
      FieldsAgreeWhileExpanding(init, ctx, fuel, expanding);
      if FieldsAsWritten(init, ctx, fuel).Finished? {
        AgreesWhileExpanding(last.typ, ctx, fuel, expanding);
        if Panics(last.typ, ctx, expanding) {
          assert last in groups;
        }
      } else {
        var g :| g in init && Panics(g.typ, ctx, expanding);
        assert g in groups;
      }
    }
  }

  /**
   * On every input where Go's `exprType` comes to an end, the guarded
   * resolver panics exactly when Go panics, and otherwise returns the same
   * type (or the same nil).
   */
  lemma AgreesWithAsWritten(e: TypeExpr, ctx: Context, fuel: nat)
    requires !ExprTypeAsWritten(e, ctx, fuel).OutOfFuel?
    ensures PanicsType(e, ctx) <==> ExprTypeAsWritten(e, ctx, fuel).Panicked?
    ensures ExprTypeAsWritten(e, ctx, fuel).Finished? ==> ResolveType(e, ctx) == ExprTypeAsWritten(e, ctx, fuel).value
  {
    AgreesWhileExpanding(e, ctx, fuel, {});
  }

  /**
   * Array types, sized or not, resolve to a slice of the element type and
   * star expressions to a pointer to the base type, or to nothing when the
   * inner type does not resolve; every other non-identifier shape that is
   * not a struct resolves to nothing.
   */
  lemma WrappingShapes(inner: TypeExpr, sized: bool, shape: ExprShape, ctx: Context, expanding: set<string>)
    ensures var t := Resolve(inner, ctx, expanding);
      && Resolve(ArrayType(sized, inner), ctx, expanding) == (if t.Some? then Some(Slice(t.value)) else None)
      && Resolve(StarExpr(inner), ctx, expanding) == (if t.Some? then Some(Pointer(t.value)) else None)
    ensures Resolve(OtherExpr(shape), ctx, expanding) == None
  {
  }

  /** The number of names an inline struct declares. */
  function NameCount(groups: seq<FieldGroup>): nat
  {
    if groups == [] then 0 else NameCount(groups[..|groups| - 1]) + |groups[|groups| - 1].names|
  }

  /**
   * The answer for an inline struct is always a struct (whether Go gets it
   * or panics in `types.NewStruct` is `Panics`). Each of its fields comes
   * from a group whose type resolved to the field's type and that declares
   * the field's name; it has one field per declared name exactly when no
   * group that declares a name has a type that fails to resolve.
   */
  lemma {:induction false} StructFields(groups: seq<FieldGroup>, ctx: Context, expanding: set<string>)
    ensures Resolve(StructType(groups), ctx, expanding) == Some(Struct(ResolveFields(groups, ctx, expanding)))
    ensures forall v :: v in ResolveFields(groups, ctx, expanding) ==>
      exists g :: g in groups && v.name in g.names && Resolve(g.typ, ctx, expanding) == Some(v.typ)
    ensures |ResolveFields(groups, ctx, expanding)| <= NameCount(groups)
    ensures |ResolveFields(groups, ctx, expanding)| == NameCount(groups) <==>
      forall g :: g in groups && g.names != [] ==> Resolve(g.typ, ctx, expanding).Some?
  {
    if groups != [] {
      var init, last := groups[..|groups| - 1], groups[|groups| - 1];
      StructFields(init, ctx, expanding);
      var fs := ResolveFields(groups, ctx, expanding);
      var t := Resolve(last.typ, ctx, expanding);
      assert fs == ResolveFields(init, ctx, expanding) + GroupFields(last.names, t);
      forall v | v in fs
        ensures exists g :: g in groups && v.name in g.names && Resolve(g.typ, ctx, expanding) == Some(v.typ)
      {
        if v in ResolveFields(init, ctx, expanding) {
          var g :| g in init && v.name in g.names && Resolve(g.typ, ctx, expanding) == Some(v.typ);
          assert g in groups;
        } else {
          var k :| 0 <= k < |GroupFields(last.names, t)| && GroupFields(last.names, t)[k] == v;
          assert v.name == last.names[k];
          assert last in groups;
        }
      }
      if forall g :: g in groups && g.names != [] ==> Resolve(g.typ, ctx, expanding).Some? {
        assert forall g :: g in init ==> g in groups;
      }
      if forall g :: g in init && g.names != [] ==> Resolve(g.typ, ctx, expanding).Some? {
        if last.names != [] && t.None? {
          assert |fs| < NameCount(groups);
        }
      } else {
        var g :| g in init && g.names != [] && Resolve(g.typ, ctx, expanding).None?;
        assert g in groups;
      }
    }
  }

  /**
   * A type declaration that refers to itself through a field, as in
   * `type Node struct { val int; next *Node }`.
   */
  const SelfReferentialDecl: TypeExpr :=
    StructType([FieldGroup(["val"], Ident(1, "int")), FieldGroup(["next"], StarExpr(Ident(2, "Node")))])

  /** A snapshot in which only the parser's binding of `Node` and the universe are available. */
  const SelfReferentialContext: Context :=
    Context(map[], map[], map["Node" := SelfReferentialDecl], Universe)

  /** Go's `exprType` never returns on a use of `Node`, whatever budget it is given. */
  lemma {:induction false} AsWrittenDivergesOnSelfReference(id: nat, fuel: nat)
    requires id !in SelfReferentialContext.defs && id !in SelfReferentialContext.uses
    ensures ExprTypeAsWritten(Ident(id, "Node"), SelfReferentialContext, fuel) == OutOfFuel
    decreases fuel
  {
    var ctx := SelfReferentialContext;
    if fuel > 0 {
      AsWrittenDivergesOnSelfReference(2, fuel - 1);
      var groups := SelfReferentialDecl.fields;
      var first := [FieldGroup(["val"], Ident(1, "int"))];
      assert first[..0] == [];
      assert FieldsAsWritten(first[..0], ctx, fuel - 1) == Finished([]);
      assert ExprTypeAsWritten(Ident(1, "int"), ctx, fuel - 1) == Finished(Some(Basic(Int)));
      assert FieldsAsWritten(first, ctx, fuel - 1).Finished?;
      assert groups[..1] == first;
      assert ExprTypeAsWritten(StarExpr(Ident(2, "Node")), ctx, fuel - 1) == OutOfFuel;
      assert FieldsAsWritten(groups, ctx, fuel - 1) == OutOfFuel;
    }
  }

  /** The guarded resolver gives `Node` the fields it can price, drops the cyclic one, and does not panic. */
  lemma SelfReferenceResolves()
    ensures ResolveType(Ident(0, "Node"), SelfReferentialContext) == Some(Struct([Var("val", Basic(Int))]))
    ensures !PanicsType(Ident(0, "Node"), SelfReferentialContext)
  {
    var ctx := SelfReferentialContext;
    var groups := SelfReferentialDecl.fields;
    assert Resolve(Ident(1, "int"), ctx, {"Node"}) == Some(Basic(Int));
    assert Resolve(StarExpr(Ident(2, "Node")), ctx, {"Node"}) == None;
    assert groups[..1][..0] == [];
    assert ResolveFields(groups[..1], ctx, {"Node"}) == [Var("val", Basic(Int))];
    assert ResolveFields(groups, ctx, {"Node"}) == [Var("val", Basic(Int))];
    assert Resolve(SelfReferentialDecl, ctx, {"Node"}) == Some(Struct([Var("val", Basic(Int))]));
    assert {} + {"Node"} == {"Node"};
    assert ctx.typeDecls["Node"] == SelfReferentialDecl;
    assert !Panics(Ident(1, "int"), ctx, {"Node"}) && !Panics(StarExpr(Ident(2, "Node")), ctx, {"Node"});
    forall g | g in groups
      ensures !Panics(g.typ, ctx, {"Node"})
    {
      assert g == groups[0] || g == groups[1];
    }
    assert !Panics(SelfReferentialDecl, ctx, {"Node"});
  }

  /** A snapshot with no definitions, uses or type declarations: only the universe. */
  const UniverseOnly: Context := Context(map[], map[], map[], Universe)

  /** `struct{ a int; a string }`: two fields named `a`. */
  const DuplicateFields: TypeExpr :=
    StructType([FieldGroup(["a"], Ident(1, "int")), FieldGroup(["a"], Ident(2, "string"))])

  /**
   * Go's `exprType` panics on a struct that repeats a field name, whatever
   * its budget, and the guarded resolver says so.
   */
  lemma DuplicateFieldsPanic(fuel: nat)
    ensures ExprTypeAsWritten(DuplicateFields, UniverseOnly, fuel) == Panicked
    ensures PanicsType(DuplicateFields, UniverseOnly)
  {
    var ctx := UniverseOnly;
    var groups := DuplicateFields.fields;
    var first := [FieldGroup(["a"], Ident(1, "int"))];
    assert first[..0] == [];
    assert FieldsAsWritten(first[..0], ctx, fuel) == Finished([]);
    assert ExprTypeAsWritten(Ident(1, "int"), ctx, fuel) == Finished(Some(Basic(Int)));
    var init := FieldsAsWritten(first, ctx, fuel);
    assert init.Finished? && |init.value| == 1 && init.value[0].name == "a";
    assert groups[..1] == first;
    assert ExprTypeAsWritten(Ident(2, "string"), ctx, fuel) == Finished(Some(Basic(String)));
    var fs := FieldsAsWritten(groups, ctx, fuel);
    assert fs.Finished? && fs.value[0].name == "a" && fs.value[1].name == "a";
    AgreesWithAsWritten(DuplicateFields, ctx, fuel);
  }

  /** The blank name may repeat: `struct{ _, _ int }` resolves without a panic. */
  lemma BlankFieldsMayRepeat()
    ensures !PanicsType(StructType([FieldGroup(["_", "_"], Ident(1, "int"))]), UniverseOnly)
    ensures ResolveType(StructType([FieldGroup(["_", "_"], Ident(1, "int"))]), UniverseOnly)
      == Some(Struct([Var("_", Basic(Int)), Var("_", Basic(Int))]))
  {
    var groups := [FieldGroup(["_", "_"], Ident(1, "int"))];
    assert groups[..0] == [];
    assert Resolve(Ident(1, "int"), UniverseOnly, {}) == Some(Basic(Int));
    assert ResolveFields(groups, UniverseOnly, {}) == [Var("_", Basic(Int)), Var("_", Basic(Int))];
  }

}
