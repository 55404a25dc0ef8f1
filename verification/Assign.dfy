/** Assignability: whether every value of one type satisfies another. */
module Assign {
  import opened Json
  import opened Types

  /** Anything feeds unknown or a variable, and a variable feeds anything. */
  predicate Unjudged(from: Type, to: Type) {
    to.Unknown? || to.Var? || from.Var?
  }

  predicate EnumFits(from: Option<seq<string>>, to: Option<seq<string>>) {
    to.None? || (from.Some? && forall i :: 0 <= i < |from.value| ==> from.value[i] in to.value)
  }

  /** The one judgement: `trims` says whether a closed object drops what it does not declare. */
  predicate Fits(from: Type, to: Type, trims: bool)
    decreases from, to, 1
  {
    if Unjudged(from, to) then true
    else if to.Reference? then from.String?
    else if from.Unknown? then false
    else
      match (from, to)
      case (String(a), String(b)) => EnumFits(a, b)
      case (Number, Number) => true
      case (Boolean, Boolean) => true
      case (Blob, Blob) => true
      case (List(of, _, empty), List(of', _, empty')) => empty || (!empty' && Fits(of, of', trims))
      case (Object(fields, open), Object(fields', open')) =>
        (forall name :: name in fields' ==> FieldFits(from, to, name, trims)) &&
        if open'.None? then trims || (open.None? && fields.Keys <= fields'.Keys)
        else open'.value.Unknown? || ExtrasFit(from, to)
      case _ => false
  }

  /** One field `to` declares: given by name, or admitted through what `from` is open to. */
  predicate FieldFits(from: Type, to: Type, name: string, trims: bool)
    requires from.Object? && to.Object? && name in to.fields
    decreases from, to, 0
  {
    var wanted := to.fields[name];
    if name in from.fields then
      (wanted.required ==> from.fields[name].required) && Fits(from.fields[name].ty, wanted.ty, trims)
    else
      !wanted.required && (from.open.Some? ==> Fits(from.open.value, wanted.ty, trims))
  }

  /** What `from` has beyond the fields of `to` must fit what `to` is open to; nothing there is ever trimmed. */
  predicate ExtrasFit(from: Type, to: Type)
    requires from.Object? && to.Object? && to.open.Some?
    decreases from, to, 0
  {
    (forall name :: name in from.fields && name !in to.fields ==>
      Fits(from.fields[name].ty, to.open.value, false)) &&
    (from.open.Some? ==> Fits(from.open.value, to.open.value, false))
  }

  predicate Assignable(from: Type, to: Type) {
    Fits(from, to, false)
  }

  predicate AssignableTrimmed(from: Type, to: Type) {
    Fits(from, to, true)
  }

  /** What an object type says of one key: its declared field's type, else what it is open to. */
  function PartOf(ty: Type, name: string): Type
    requires ty.Object? && (name in ty.fields || ty.open.Some?)
  {
    if name in ty.fields then ty.fields[name].ty else ty.open.value
  }

  /** Key by key, what an object may carry feeds what the object it feeds says of that key. */
  lemma PartFits(from: Type, to: Type, name: string)
    requires from.Object? && to.Object? && Assignable(from, to)
    requires name in from.fields || from.open.Some?
    ensures (name in to.fields || to.open.Some?) && Assignable(PartOf(from, name), PartOf(to, name))
  {
    if name in to.fields {
      assert FieldFits(from, to, name, false);
    } else if !to.open.value.Unknown? {
      assert ExtrasFit(from, to);
    }
  }

  /** Soundness: a value of a type is one of every type the judgement lets it feed. */
  lemma {:induction false} AssignableIsSound(value: Json, from: Type, to: Type, handles: bool)
    requires Judged(from) && Judged(to) && Assignable(from, to)
    requires Inhabits(value, from, handles)
    ensures Inhabits(value, to, handles)
    decreases from
  {
    match (from, to)
    case (List(of, _, _), List(of', _, _)) =>
      forall i | 0 <= i < |value.items| ensures Inhabits(value.items[i], of', handles) {
        AssignableIsSound(value.items[i], of, of', handles);
      }
    case (Object(fields, open), Object(fields', open')) =>
      forall name | name in value.fields
        ensures name in fields' ==> Inhabits(value.fields[name], fields'[name].ty, handles)
        ensures name !in fields' ==> open'.Some? && Inhabits(value.fields[name], open'.value, handles)
      {
        PartFits(from, to, name);
        AssignableIsSound(value.fields[name], PartOf(from, name), PartOf(to, name), handles);
      }
      forall name | name in fields' && name !in value.fields ensures !fields'[name].required {
        assert FieldFits(from, to, name, false);
      }
    case _ =>
  }

  /**
   * Soundness at run time: what conforms to a type with no empty mark conforms to every type it feeds exactly when
   * its lists are within that type's bounds, which assignability does not read.
   */
  lemma AssignableAtRunTime(value: Json, from: Type, to: Type)
    requires Judged(from) && Judged(to) && Unmarked(from)
    requires Assignable(from, to) && Conforms(value, from)
    ensures Conforms(value, to) <==> WithinBounds(value, to)
  {
    ConformingInhabits(value, from);
    AssignableIsSound(value, from, to, false);
    InhabitantConforms(value, to, false);
  }

  /** The two places assignability is laxer than the run-time check: a list's bound, and the mark of a literal `[]`. */
  lemma AssignableIgnoresBounds()
    ensures
      var two := Arr([Str("a"), Str("b")]);
      var one := List(STRING, Some(1), false);
      Assignable(List(STRING, None, false), one) && Conforms(two, List(STRING, None, false)) && !Conforms(two, one)
    ensures
      var numbers := List(Number, None, false);
      Assignable(EMPTY_LIST, numbers) && Conforms(Arr([Null]), EMPTY_LIST) && !Conforms(Arr([Null]), numbers)
  {
    var two := Arr([Str("a"), Str("b")]);
    assert Conforms(two, List(STRING, None, false));
    assert Conforms(Arr([Null]), EMPTY_LIST);
    assert !Conforms(Arr([Null]).items[0], Number);
  }

  /** No type of a type reference where the judgement looks: below a list marked empty it does not. */
  predicate Reflexive(ty: Type) {
    match ty
    case Reference => false
    case List(of, _, empty) => empty || Reflexive(of)
    case Object(fields, open) =>
      (forall name :: name in fields ==> Reflexive(fields[name].ty)) && (open.Some? ==> Reflexive(open.value))
    case _ => true
  }

  /**
   * The shortcut that answers at once for one and the same object type agrees with the structural judgement exactly
   * for types that hold no type of a type reference: the judgement answers that such a type does not feed itself.
   */
  lemma {:induction false} ShortcutAgrees(ty: Type, trims: bool)
    ensures Fits(ty, ty, trims) <==> Reflexive(ty)
    decreases ty
  {
    match ty
    case List(of, _, _) => ShortcutAgrees(of, trims);
    case Object(fields, open) =>
      forall name | name in fields
        ensures FieldFits(ty, ty, name, trims) <==> Reflexive(fields[name].ty)
      {
        ShortcutAgrees(fields[name].ty, trims);
      }
      if open.Some? {
        ShortcutAgrees(open.value, false);
      }
    case _ =>
  }

  lemma {:induction false} JudgedIsReflexive(ty: Type)
    requires Judged(ty)
    ensures Reflexive(ty)
  {
    match ty
    case List(of, _, _) => JudgedIsReflexive(of);
    case Object(fields, open) =>
      forall name | name in fields ensures Reflexive(fields[name].ty) {
        JudgedIsReflexive(fields[name].ty);
      }
      if open.Some? {
        JudgedIsReflexive(open.value);
      }
    case _ =>
  }

  /** Transitivity: what feeds a type feeds whatever that type feeds. */
  lemma {:induction false} AssignableIsTransitive(a: Type, b: Type, c: Type)
    requires Judged(a) && Judged(b) && Judged(c)
    requires Assignable(a, b) && Assignable(b, c)
    ensures Assignable(a, c)
    decreases a, b, c, 1
  {
    match (a, b, c)
    case (List(x, _, _), List(y, _, _), List(z, _, _)) =>
      if !a.empty {
        AssignableIsTransitive(x, y, z);
      }
    case (Object(_, _), Object(_, _), Object(_, _)) =>
      forall name | name in c.fields ensures FieldFits(a, c, name, false) {
        assert FieldFits(b, c, name, false);
        assert name in b.fields ==> FieldFits(a, b, name, false);
        if name in a.fields || a.open.Some? {
          PartTransitive(a, b, c, name);
        }
      }
      if c.open.Some? && !c.open.value.Unknown? {
        forall name | name in a.fields && name !in c.fields
          ensures Assignable(a.fields[name].ty, c.open.value)
        {
          PartTransitive(a, b, c, name);
        }
        if a.open.Some? {
          assert b.open.value.Unknown? || ExtrasFit(a, b);
          assert ExtrasFit(b, c);
          AssignableIsTransitive(a.open.value, b.open.value, c.open.value);
        }
      }
    case _ =>
  }

  lemma {:induction false} PartTransitive(a: Type, b: Type, c: Type, name: string)
    requires a.Object? && b.Object? && c.Object? && (name in a.fields || a.open.Some?)
    requires Judged(a) && Judged(b) && Judged(c)
    requires Assignable(a, b) && Assignable(b, c)
    ensures (name in c.fields || c.open.Some?) && Assignable(PartOf(a, name), PartOf(c, name))
    decreases a, b, c, 0
  {
    PartFits(a, b, name);
    PartFits(b, c, name);
    AssignableIsTransitive(PartOf(a, name), PartOf(b, name), PartOf(c, name));
  }

  // ---- nothing is refused without cause ---------------------------------------------------------

  /** No blob and no empty enumeration anywhere: the types told apart by what their values look like. */
  predicate Tellable(ty: Type) {
    match ty
    case Blob => false
    case String(allowed) => allowed.Some? ==> allowed.value != []
    case List(of, _, _) => Tellable(of)
    case Object(fields, open) =>
      (forall name :: name in fields ==> Tellable(fields[name].ty)) && (open.Some? ==> Tellable(open.value))
    case _ => true
  }

  /** A value of a type: of an object, one with every field the type declares. */
  function Sample(ty: Type): Json {
    match ty
    case String(allowed) => Str(if allowed.Some? && allowed.value != [] then allowed.value[0] else "")
    case Number => Num("0")
    case Boolean => Bool(true)
    case List(_, _, _) => Arr([])
    case Object(fields, _) => Obj(map name | name in fields :: Sample(fields[name].ty))
    case _ => Null
  }

  lemma {:induction false} SampleInhabits(ty: Type, handles: bool)
    requires Judged(ty) && Tellable(ty)
    ensures Inhabits(Sample(ty), ty, handles)
  {
    if ty.Object? {
      forall name | name in ty.fields ensures Inhabits(Sample(ty.fields[name].ty), ty.fields[name].ty, handles) {
        SampleInhabits(ty.fields[name].ty, handles);
      }
    }
  }

  /** A text that is none of some. */
  lemma {:induction false} AnotherText(texts: set<string>) returns (text: string)
    ensures forall other :: other in texts ==> |other| < |text|
  {
    if texts == {} {
      text := "a";
    } else {
      var one :| one in texts;
      var rest := AnotherText(texts - {one});
      text := (if |one| < |rest| then rest else one) + "a";
    }
  }

  /** An object of a type with one key given a value: the key's own field, or one more that the type is open to. */
  lemma WithPart(ty: Type, name: string, part: Json, handles: bool) returns (value: Json)
    requires ty.Object? && Judged(ty) && Tellable(ty) && (name in ty.fields || ty.open.Some?)
    requires Inhabits(part, PartOf(ty, name), handles)
    ensures Inhabits(value, ty, handles) && value.Obj? && name in value.fields && value.fields[name] == part
  {
    SampleInhabits(ty, handles);
    value := Obj(Sample(ty).fields[name := part]);
  }

  /** An object of a type without a field it does not require. */
  lemma WithoutField(ty: Type, name: string, handles: bool) returns (value: Json)
    requires ty.Object? && Judged(ty) && Tellable(ty) && (name in ty.fields ==> !ty.fields[name].required)
    ensures Inhabits(value, ty, handles) && value.Obj? && name !in value.fields
  {
    SampleInhabits(ty, handles);
    value := Obj(Sample(ty).fields - {name});
  }

  /** A value of a type that is none of one it does not feed. */
  lemma {:induction false} Unfed(from: Type, to: Type, handles: bool) returns (value: Json)
    requires Judged(from) && Judged(to) && Tellable(from) && Tellable(to) && !Assignable(from, to)
    ensures Inhabits(value, from, handles) && !Inhabits(value, to, handles)
    decreases from, 1
  {
    SampleInhabits(from, handles);
    value := Sample(from);
    match (from, to)
    case (Unknown, _) => value := if to.String? then Null else Str("");
    case (String(a), String(b)) =>
      if a.None? {
        var text := AnotherText(set other | other in b.value);
        value := Str(text);
      } else {
        var i :| 0 <= i < |a.value| && a.value[i] !in b.value;
        value := Str(a.value[i]);
      }
    case (List(of, _, _), List(of', _, empty')) =>
      if empty' {
        SampleInhabits(of, handles);
        value := Arr([Sample(of)]);
      } else {
        var part := Unfed(of, of', handles);
        value := Arr([part]);
        assert value.items[0] == part;
      }
    case (Object(_, _), Object(_, _)) => value := UnfedObject(from, to, handles);
    case _ =>
  }

  lemma UnfedObject(from: Type, to: Type, handles: bool) returns (value: Json)
    requires from.Object? && to.Object? && Judged(from) && Judged(to) && Tellable(from) && Tellable(to) && !Assignable(from, to)
    ensures Inhabits(value, from, handles) && !Inhabits(value, to, handles)
    decreases from, 0
  {
    if name :| name in to.fields && !FieldFits(from, to, name, false) {
      if to.fields[name].required && (name in from.fields ==> !from.fields[name].required) {
        value := WithoutField(from, name, handles);
      } else {
        var part := Unfed(PartOf(from, name), to.fields[name].ty, handles);
        value := WithPart(from, name, part, handles);
      }
    } else if to.open.None? {
      var name: string;
      if from.open.Some? {
        name := AnotherText(from.fields.Keys + to.fields.Keys);
      } else {
        name :| name in from.fields && name !in to.fields;
      }
      SampleInhabits(PartOf(from, name), handles);
      value := WithPart(from, name, Sample(PartOf(from, name)), handles);
    } else {
      assert !ExtrasFit(from, to);
      var name: string;
      if key :| key in from.fields && key !in to.fields && !Assignable(from.fields[key].ty, to.open.value) {
        name := key;
      } else {
        name := AnotherText(from.fields.Keys + to.fields.Keys);
      }
      var part := Unfed(PartOf(from, name), to.open.value, handles);
      value := WithPart(from, name, part, handles);
    }
  }

  /**
   * Assignability is exactly what it asks: of types told apart by what their values look like, one feeds another if and
   * only if every value of the one is a value of the other.
   */
  lemma AssignableIsExact(from: Type, to: Type, handles: bool)
    requires Judged(from) && Judged(to) && Tellable(from) && Tellable(to)
    ensures Assignable(from, to) <==> forall value :: Inhabits(value, from, handles) ==> Inhabits(value, to, handles)
  {
    if Assignable(from, to) {
      forall value | Inhabits(value, from, handles) ensures Inhabits(value, to, handles) {
        AssignableIsSound(value, from, to, handles);
      }
    } else {
      var value := Unfed(from, to, handles);
    }
  }

  /**
   * Where it refuses without cause: every blob's handle is a value of the object open to anything, which a blob does not
   * feed, and no value at all is one of an empty enumeration, which feeds no number.
   */
  lemma RefusedWithoutCause(handles: bool)
    ensures var anything := Object(map[], Some(Unknown));
      !Assignable(Blob, anything) && forall value :: Inhabits(value, Blob, handles) ==> Inhabits(value, anything, handles)
    ensures var none := String(Some([]));
      !Assignable(none, Number) && forall value :: !Inhabits(value, none, handles)
  {
  }
}
