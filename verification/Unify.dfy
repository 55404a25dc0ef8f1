/** Type variables: binding the variables of a native contract so that an actual type fits it. */
module Unification {
  import opened Json
  import opened Types
  import opened Assign

  type Subst = map<string, Type>

  /** The order an object type's fields are met in. */
  type FieldOrder = Type -> seq<string>

  ghost predicate Orders(order: FieldOrder) {
    forall ty: Type :: ty.Object? ==> forall name :: name in order(ty) <==> name in ty.fields
  }

  predicate HasVars(ty: Type) {
    match ty
    case Var(_) => true
    case List(of, _, _) => HasVars(of)
    case Object(fields, open) =>
      (exists name :: name in fields && HasVars(fields[name].ty)) || (open.Some? && HasVars(open.value))
    case _ => false
  }

  /** The type with every variable replaced by its binding; an unbound variable becomes unknown. */
  function Substitute(ty: Type, subst: Subst): Type {
    match ty
    case Var(name) => if name in subst then subst[name] else Unknown
    case List(of, max, empty) => List(Substitute(of, subst), max, empty)
    case Object(fields, open) =>
      if !HasVars(ty) then ty
      else Object(map name | name in fields :: fields[name].(ty := Substitute(fields[name].ty, subst)),
                  if open.Some? then Some(Substitute(open.value, subst)) else None)
    case _ => ty
  }

  /** What a call of unify answers: whether the actual type fits, and the bindings it leaves behind. */
  datatype Unified = Unified(ok: bool, subst: Subst)

  /** A variable binds to the first type it meets; of a later one and the one it has, the wider stays. */
  function BindVar(name: string, actual: Type, subst: Subst): Unified {
    if name !in subst then Unified(true, subst[name := actual])
    else if Assignable(actual, subst[name]) then Unified(true, subst)
    else if !Assignable(subst[name], actual) then Unified(false, subst)
    else Unified(true, subst[name := actual])
  }

  function UnifyTypes(pattern: Type, actual: Type, subst: Subst, order: FieldOrder): Unified
    decreases pattern, 1, 0
  {
    if pattern.Var? then BindVar(pattern.name, actual, subst)
    else if !HasVars(pattern) then Unified(Assignable(actual, pattern), subst)
    else if pattern.List? then
      if !actual.List? then Unified(false, subst)
      else if actual.empty then Unified(true, subst)
      else UnifyTypes(pattern.of, actual.of, subst, order)
    else if pattern.Object? && actual.Object? then UnifyFields(pattern, actual, order(pattern), subst, order)
    else Unified(Assignable(actual, pattern), subst)
  }

  function UnifyFields(pattern: Type, actual: Type, names: seq<string>, subst: Subst, order: FieldOrder): Unified
    requires pattern.Object? && actual.Object?
    decreases pattern, 0, |names|
  {
    if names == [] then Unified(true, subst)
    else
      var first := UnifyField(pattern, actual, names[0], subst, order);
      if first.ok then UnifyFields(pattern, actual, names[1..], first.subst, order) else first
  }

  function UnifyField(pattern: Type, actual: Type, name: string, subst: Subst, order: FieldOrder): Unified
    requires pattern.Object? && actual.Object?
    decreases pattern, 0, 0
  {
    if name !in pattern.fields then Unified(true, subst)
    else if name !in actual.fields then Unified(!pattern.fields[name].required, subst)
    else UnifyTypes(pattern.fields[name].ty, actual.fields[name].ty, subst, order)
  }

  /** The bindings of one call site, extended in place as each of its inputs is unified. */
  class Bindings {
    var subst: Subst
    const order: FieldOrder

    constructor (order: FieldOrder)
      ensures subst == map[] && this.order == order
    {
      this.subst := map[];
      this.order := order;
    }

    method UnifyVar(name: string, actual: Type) returns (ok: bool)
      modifies this
      ensures Unified(ok, subst) == BindVar(name, actual, old(subst))
    {
      if name !in subst {
        subst := subst[name := actual];
        return true;
      }
      if Assignable(actual, subst[name]) {
        return true;
      }
      if !Assignable(subst[name], actual) {
        return false;
      }
      subst := subst[name := actual];
      ok := true;
    }

    method Unify(pattern: Type, actual: Type) returns (ok: bool)
      modifies this
      ensures Unified(ok, subst) == UnifyTypes(pattern, actual, old(subst), order)
      decreases pattern, 1
    {
      if pattern.Var? {
        ok := UnifyVar(pattern.name, actual);
      } else if !HasVars(pattern) {
        ok := Assignable(actual, pattern);
      } else if pattern.List? {
        if !actual.List? {
          ok := false;
        } else if actual.empty {
          ok := true;
        } else {
          ok := Unify(pattern.of, actual.of);
        }
      } else if pattern.Object? && actual.Object? {
        ok := UnifyObject(pattern, actual);
      } else {
        ok := Assignable(actual, pattern);
      }
    }

    method UnifyObject(pattern: Type, actual: Type) returns (ok: bool)
      requires pattern.Object? && actual.Object?
      modifies this
      ensures Unified(ok, subst) == UnifyFields(pattern, actual, order(pattern), old(subst), order)
      decreases pattern, 0
    {
      var names := order(pattern);
      for i := 0 to |names|
        invariant UnifyFields(pattern, actual, names, old(subst), order)
               == UnifyFields(pattern, actual, names[i..], subst, order)
      {
        assert names[i..][0] == names[i] && names[i..][1..] == names[i + 1..];
        var name := names[i];
        if name in pattern.fields {
          if name !in actual.fields {
            if pattern.fields[name].required {
              return false;
            }
          } else {
            var fits := Unify(pattern.fields[name].ty, actual.fields[name].ty);
            if !fits {
              return false;
            }
          }
        }
      }
      ok := true;
    }
  }

  // ---- what unification keeps -------------------------------------------------------------------

  ghost predicate JudgedSubst(subst: Subst) {
    forall name :: name in subst ==> Judged(subst[name])
  }

  /** Bindings only widen: each type bound before feeds the type bound after. */
  ghost predicate Widens(before: Subst, after: Subst) {
    forall name :: name in before ==> name in after && Assignable(before[name], after[name])
  }

  /** Every type met at a variable's position feeds that variable's binding, and what has no variable is met as it is. */
  predicate Bound(pattern: Type, actual: Type, subst: Subst)
    decreases pattern
  {
    if pattern.Var? then pattern.name in subst && Assignable(actual, subst[pattern.name])
    else if !HasVars(pattern) then Assignable(actual, pattern)
    else
      match (pattern, actual)
      case (List(of, _, _), List(of', _, empty)) => empty || Bound(of, of', subst)
      case (Object(fields, _), Object(fields', _)) =>
        forall name :: name in fields ==>
          if name in fields' then Bound(fields[name].ty, fields'[name].ty, subst) else !fields[name].required
      case _ => false
  }

  lemma WidensTransitive(a: Subst, b: Subst, c: Subst)
    requires JudgedSubst(a) && JudgedSubst(b) && JudgedSubst(c) && Widens(a, b) && Widens(b, c)
    ensures Widens(a, c)
  {
    forall name | name in a ensures Assignable(a[name], c[name]) {
      AssignableIsTransitive(a[name], b[name], c[name]);
    }
  }

  lemma FeedsItself(ty: Type)
    requires Judged(ty)
    ensures Assignable(ty, ty)
  {
    JudgedIsReflexive(ty);
    ShortcutAgrees(ty, false);
  }

  lemma WidensItself(subst: Subst)
    requires JudgedSubst(subst)
    ensures Widens(subst, subst)
  {
    forall name | name in subst ensures Assignable(subst[name], subst[name]) {
      FeedsItself(subst[name]);
    }
  }

  /** What was met stays met: a type that fed a variable's binding feeds every later, wider one. */
  lemma {:induction false} BoundStays(pattern: Type, actual: Type, before: Subst, after: Subst)
    requires JudgedSubst(before) && JudgedSubst(after) && Judged(actual)
    requires Widens(before, after) && Bound(pattern, actual, before)
    ensures Bound(pattern, actual, after)
    decreases pattern
  {
    if pattern.Var? {
      AssignableIsTransitive(actual, before[pattern.name], after[pattern.name]);
    } else if HasVars(pattern) {
      match (pattern, actual)
      case (List(of, _, _), List(of', _, empty)) =>
        if !empty {
          BoundStays(of, of', before, after);
        }
      case (Object(fields, _), Object(fields', _)) =>
        forall name | name in fields && name in fields' ensures Bound(fields[name].ty, fields'[name].ty, after) {
          BoundStays(fields[name].ty, fields'[name].ty, before, after);
        }
    }
  }

  lemma BindVarBinds(name: string, actual: Type, subst: Subst)
    requires JudgedSubst(subst) && Judged(actual) && BindVar(name, actual, subst).ok
    ensures
      var after := BindVar(name, actual, subst).subst;
      JudgedSubst(after) && Widens(subst, after) && name in after && Assignable(actual, after[name])
  {
    var after := BindVar(name, actual, subst).subst;
    FeedsItself(actual);
    WidensItself(subst);
    if after != subst {
      RebindWidens(name, actual, subst);
    }
  }

  lemma RebindWidens(name: string, actual: Type, subst: Subst)
    requires JudgedSubst(subst) && Judged(actual)
    requires name in subst ==> Assignable(subst[name], actual)
    ensures JudgedSubst(subst[name := actual]) && Widens(subst, subst[name := actual])
  {
    WidensItself(subst);
    var after := subst[name := actual];
    forall other | other in after ensures Judged(after[other]) {
      assert other != name ==> after[other] == subst[other];
    }
    forall other | other in subst ensures Assignable(subst[other], after[other]) {
      assert other != name ==> after[other] == subst[other];
    }
  }

  /** A call that succeeds only widens the bindings, and leaves every type it met feeding its variable's binding. */
  lemma {:induction false} UnifyBinds(pattern: Type, actual: Type, subst: Subst, order: FieldOrder)
    requires Orders(order) && JudgedSubst(subst) && Judged(actual) && UnifyTypes(pattern, actual, subst, order).ok
    ensures
      var after := UnifyTypes(pattern, actual, subst, order).subst;
      JudgedSubst(after) && Widens(subst, after) && Bound(pattern, actual, after)
    decreases pattern, 1, 0
  {
    WidensItself(subst);
    if pattern.Var? {
      BindVarBinds(pattern.name, actual, subst);
    } else if HasVars(pattern) {
      if pattern.List? {
        if !actual.empty {
          UnifyBinds(pattern.of, actual.of, subst, order);
        }
      } else if actual.Object? {
        FieldsBind(pattern, actual, order(pattern), subst, order);
      }
    }
  }

  lemma {:induction false} FieldsBind(pattern: Type, actual: Type, names: seq<string>, subst: Subst, order: FieldOrder)
    requires pattern.Object? && actual.Object?
    requires Orders(order) && JudgedSubst(subst) && Judged(actual)
    requires UnifyFields(pattern, actual, names, subst, order).ok
    ensures
      var after := UnifyFields(pattern, actual, names, subst, order).subst;
      JudgedSubst(after) && Widens(subst, after) &&
      forall name :: name in names && name in pattern.fields ==>
        if name in actual.fields then Bound(pattern.fields[name].ty, actual.fields[name].ty, after)
        else !pattern.fields[name].required
    decreases pattern, 0, |names|
  {
    WidensItself(subst);
    if names != [] {
      var name, first := names[0], UnifyField(pattern, actual, names[0], subst, order);
      if name in pattern.fields && name in actual.fields {
        UnifyBinds(pattern.fields[name].ty, actual.fields[name].ty, subst, order);
      }
      FieldsBind(pattern, actual, names[1..], first.subst, order);
      var after := UnifyFields(pattern, actual, names, subst, order).subst;
      WidensTransitive(subst, first.subst, after);
      if name in pattern.fields && name in actual.fields {
        BoundStays(pattern.fields[name].ty, actual.fields[name].ty, first.subst, after);
      }
    }
  }

  /** One call of unify: the pattern a contract declares at an input, and the type given there. */
  datatype Given = Given(pattern: Type, actual: Type)

  /** Successive calls over one set of bindings, stopping at the first that fails. */
  function UnifyEach(given: seq<Given>, subst: Subst, order: FieldOrder): Unified {
    if given == [] then Unified(true, subst)
    else
      var first := UnifyTypes(given[0].pattern, given[0].actual, subst, order);
      if first.ok then UnifyEach(given[1..], first.subst, order) else first
  }

  /** Over any number of successful calls, every type met at a variable's position feeds its final binding. */
  lemma {:induction false} UnifyEachBinds(given: seq<Given>, subst: Subst, order: FieldOrder)
    requires Orders(order) && JudgedSubst(subst) && UnifyEach(given, subst, order).ok
    requires forall i :: 0 <= i < |given| ==> Judged(given[i].actual)
    ensures
      var final := UnifyEach(given, subst, order).subst;
      JudgedSubst(final) && Widens(subst, final) &&
      forall i :: 0 <= i < |given| ==> Bound(given[i].pattern, given[i].actual, final)
  {
    WidensItself(subst);
    if given != [] {
      var first := UnifyTypes(given[0].pattern, given[0].actual, subst, order);
      UnifyBinds(given[0].pattern, given[0].actual, subst, order);
      UnifyEachBinds(given[1..], first.subst, order);
      var final := UnifyEach(given, subst, order).subst;
      WidensTransitive(subst, first.subst, final);
      BoundStays(given[0].pattern, given[0].actual, first.subst, final);
      forall i | 0 <= i < |given| ensures Bound(given[i].pattern, given[i].actual, final) {
        if i > 0 {
          assert given[i] == given[1..][i - 1];
        }
      }
    }
  }

  // ---- whether the actual type fits the substituted pattern -------------------------------------

  lemma {:induction false} SubstituteNothing(ty: Type, subst: Subst)
    requires !HasVars(ty)
    ensures Substitute(ty, subst) == ty
  {
    if ty.List? {
      SubstituteNothing(ty.of, subst);
    }
  }

  /** No type of a type reference anywhere. */
  predicate NoReference(ty: Type) {
    match ty
    case Reference => false
    case List(of, _, _) => NoReference(of)
    case Object(fields, open) =>
      (forall name :: name in fields ==> NoReference(fields[name].ty)) && (open.Some? ==> NoReference(open.value))
    case _ => true
  }

  /** A type has variables exactly where it is not judged, type references apart; with judged bindings written in, it is. */
  lemma {:induction false} VariablesAreGone(ty: Type, subst: Subst)
    requires NoReference(ty)
    ensures HasVars(ty) <==> !Judged(ty)
    ensures JudgedSubst(subst) ==> Judged(Substitute(ty, subst))
  {
    match ty
    case List(of, _, _) => VariablesAreGone(of, subst);
    case Object(fields, open) =>
      forall name | name in fields
        ensures HasVars(fields[name].ty) <==> !Judged(fields[name].ty)
        ensures JudgedSubst(subst) ==> Judged(Substitute(fields[name].ty, subst))
      {
        VariablesAreGone(fields[name].ty, subst);
      }
      if open.Some? {
        VariablesAreGone(open.value, subst);
      }
    case _ =>
  }

  /**
   * What unify leaves unread where a pattern with variables meets an object: whether a required field is given
   * required, what is given beyond the fields, and what an open object may give.
   */
  predicate Covers(pattern: Type, actual: Type, subst: Subst)
    decreases pattern
  {
    if pattern.Var? || !HasVars(pattern) then true
    else
      match (pattern, actual)
      case (List(of, _, _), List(of', _, empty)) => empty || Covers(of, of', subst)
      case (Object(fields, open), Object(fields', open')) =>
        (forall name :: name in fields ==>
          if name in fields' then
            (fields[name].required ==> fields'[name].required) && Covers(fields[name].ty, fields'[name].ty, subst)
          else open'.Some? ==> Assignable(open'.value, Substitute(fields[name].ty, subst))) &&
        if open.None? then open'.None? && fields'.Keys <= fields.Keys
        else Substitute(open.value, subst).Unknown? || ExtrasFit(actual, Substitute(pattern, subst))
      case _ => false
  }

  /**
   * Unify succeeding does not alone make the actual type fit: it fits the pattern with its bindings written in
   * exactly when it also covers what unify leaves unread.
   */
  lemma {:induction false} BoundFitsExactly(pattern: Type, actual: Type, subst: Subst)
    requires JudgedSubst(subst) && Judged(actual) && Unmarked(pattern) && Bound(pattern, actual, subst)
    ensures Assignable(actual, Substitute(pattern, subst)) <==> Covers(pattern, actual, subst)
    decreases pattern
  {
    if !HasVars(pattern) {
      SubstituteNothing(pattern, subst);
    } else if !pattern.Var? {
      match (pattern, actual)
      case (List(of, _, _), List(of', _, empty)) =>
        if !empty {
          BoundFitsExactly(of, of', subst);
        }
      case (Object(fields, open), Object(fields', open')) =>
        var written := Substitute(pattern, subst);
        forall name | name in fields
          ensures FieldFits(actual, written, name, false) <==>
            if name in fields' then
              (fields[name].required ==> fields'[name].required) && Covers(fields[name].ty, fields'[name].ty, subst)
            else open'.Some? ==> Assignable(open'.value, Substitute(fields[name].ty, subst))
        {
          if name in fields' {
            BoundFitsExactly(fields[name].ty, fields'[name].ty, subst);
          }
        }
        assert written.fields.Keys == fields.Keys;
    }
  }

  /** An optional field feeds a required one of a pattern with a variable, though it does not feed the type written in. */
  lemma OptionalFeedsRequired(order: FieldOrder)
    requires Orders(order)
    ensures
      var pattern := Object(map["a" := Field(Var("$T"), true)], None);
      var actual := Object(map["a" := Field(STRING, false)], None);
      var answer := UnifyTypes(pattern, actual, map[], order);
      answer.ok && Bound(pattern, actual, answer.subst) && !Assignable(actual, Substitute(pattern, answer.subst))
  {
    var pattern := Object(map["a" := Field(Var("$T"), true)], None);
    var actual := Object(map["a" := Field(STRING, false)], None);
    assert HasVars(pattern) by {
      assert "a" in pattern.fields && HasVars(pattern.fields["a"].ty);
    }
    var names := order(pattern);
    forall n: nat, subst: Subst | n <= |names| && (subst == map[] || subst == map["$T" := STRING])
      ensures UnifyFields(pattern, actual, names[n..], subst, order).ok
    {
      FieldsOfOne(pattern, actual, names[n..], subst, order);
    }
    assert names[0..] == names;
    UnifyBinds(pattern, actual, map[], order);
    BoundFitsExactly(pattern, actual, UnifyTypes(pattern, actual, map[], order).subst);
  }

  lemma {:induction false} FieldsOfOne(pattern: Type, actual: Type, names: seq<string>, subst: Subst, order: FieldOrder)
    requires pattern == Object(map["a" := Field(Var("$T"), true)], None)
    requires actual == Object(map["a" := Field(STRING, false)], None)
    requires subst == map[] || subst == map["$T" := STRING]
    ensures UnifyFields(pattern, actual, names, subst, order).ok
  {
    if names != [] {
      var first := UnifyField(pattern, actual, names[0], subst, order);
      assert first.subst == subst || first.subst == map["$T" := STRING];
      FieldsOfOne(pattern, actual, names[1..], first.subst, order);
    }
  }
}
