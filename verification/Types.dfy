/** The type system a checker reasons with, and what it means for a value to be of a type. */
module Types {
  import opened Json

  datatype Field = Field(ty: Type, required: bool, secret: bool := false)

  /**
   * `max` bounds a list at run time only; `empty` marks the type of a literal `[]`. `open` is what an object
   * admits beyond its fields, nothing when it is closed. `Reference` is the type of a value that names a type.
   */
  datatype Type =
    | String(allowed: Option<seq<string>>)
    | Number
    | Boolean
    | Blob
    | Unknown
    | List(of: Type, max: Option<nat>, empty: bool)
    | Object(fields: map<string, Field>, open: Option<Type>)
    | Var(name: string)
    | Reference

  const STRING := String(None)
  const EMPTY_LIST := List(Unknown, None, true)
  const BLOB_HANDLE := Object(
    map["id" := Field(STRING, true), "contentType" := Field(STRING, true),
        "size" := Field(Number, true), "filename" := Field(STRING, false)],
    None)

  predicate IsBlobHandle(value: Json) {
    value.Obj? &&
    "id" in value.fields && value.fields["id"].Str? &&
    "contentType" in value.fields && value.fields["contentType"].Str? &&
    "size" in value.fields && value.fields["size"].Num?
  }

  predicate Alnum(c: char) {
    'a' <= c <= 'z' || 'A' <= c <= 'Z' || '0' <= c <= '9'
  }

  predicate NameChar(c: char) {
    Alnum(c) || c == '_' || c == '.' || c == '-'
  }

  /** A character of a shape's path: one of a name, or a slash that a name follows. */
  predicate IsPathAt(text: string, i: int) {
    0 <= i < |text| && (NameChar(text[i]) || (text[i] == '/' && i + 1 < |text| && NameChar(text[i + 1])))
  }

  predicate IsPathText(text: string) {
    forall i {:trigger IsPathAt(text, i)} :: 0 <= i < |text| ==> IsPathAt(text, i)
  }

  predicate IsScalarWord(text: string) {
    text in ["string", "number", "boolean", "blob", "unknown", "type"]
  }

  predicate IsVariable(text: string) {
    |text| >= 2 && text[0] == '$' && 'A' <= text[1] <= 'Z' && forall i :: 2 <= i < |text| ==> Alnum(text[i])
  }

  predicate IsShapeRef(text: string) {
    var n := |text|;
    n >= 6 && text[0] == '@' && text[n - 5..] == ".json" && IsPathText(text[1..n - 5])
  }

  /** The type reference grammar: a scalar word, a variable or a shape's path, each optionally as a list. */
  predicate IsTypeRef(text: string)
    decreases |text|
  {
    var n := |text|;
    if n >= 2 && text[n - 2..] == "[]" then IsTypeRef(text[..n - 2])
    else IsScalarWord(text) || IsVariable(text) || IsShapeRef(text)
  }

  /** The run-time check of a value against a type. */
  predicate Conforms(value: Json, ty: Type)
    decreases ty
  {
    match ty
    case Unknown => true
    case Var(_) => true
    case Reference => value.Str? && IsTypeRef(value.s)
    case String(allowed) => value.Str? && (allowed.Some? ==> value.s in allowed.value)
    case Number => value.Num?
    case Boolean => value.Bool?
    case Blob => IsBlobHandle(value)
    case List(of, max, _) =>
      value.Arr? && (max.Some? ==> |value.items| <= max.value) &&
      forall i :: 0 <= i < |value.items| ==> Conforms(value.items[i], of)
    case Object(fields, open) =>
      value.Obj? &&
      (forall name :: name in fields ==>
        if name in value.fields then Conforms(value.fields[name], fields[name].ty) else !fields[name].required) &&
      (forall name :: name in value.fields && name !in fields ==>
        open.Some? && Conforms(value.fields[name], open.value))
  }

  /**
   * What a value of a type is, apart from the length of its lists: `[]` is the one value of a literal empty
   * list's type. With `handles`, a blob's handle carries a `filename` only as text.
   */
  predicate Inhabits(value: Json, ty: Type, handles: bool)
    decreases ty
  {
    match ty
    case List(of, _, empty) =>
      value.Arr? && (empty ==> value.items == []) &&
      forall i :: 0 <= i < |value.items| ==> Inhabits(value.items[i], of, handles)
    case Object(fields, open) =>
      value.Obj? &&
      (forall name :: name in fields ==>
        if name in value.fields then Inhabits(value.fields[name], fields[name].ty, handles)
        else !fields[name].required) &&
      (forall name :: name in value.fields && name !in fields ==>
        open.Some? && Inhabits(value.fields[name], open.value, handles))
    case Blob =>
      IsBlobHandle(value) && (handles && "filename" in value.fields ==> value.fields["filename"].Str?)
    case _ => Conforms(value, ty)
  }

  /** Every list of the value is within the bound the type gives it. */
  predicate WithinBounds(value: Json, ty: Type)
    decreases ty
  {
    match ty
    case List(of, max, _) =>
      value.Arr? ==>
        (max.Some? ==> |value.items| <= max.value) &&
        forall i :: 0 <= i < |value.items| ==> WithinBounds(value.items[i], of)
    case Object(fields, open) =>
      value.Obj? ==>
        (forall name :: name in fields && name in value.fields ==>
          WithinBounds(value.fields[name], fields[name].ty)) &&
        (forall name :: name in value.fields && name !in fields && open.Some? ==>
          WithinBounds(value.fields[name], open.value))
    case _ => true
  }

  /** No variable and no type of a type reference anywhere: what the judgements below decide about. */
  predicate Judged(ty: Type) {
    match ty
    case Var(_) => false
    case Reference => false
    case List(of, _, _) => Judged(of)
    case Object(fields, open) =>
      (forall name :: name in fields ==> Judged(fields[name].ty)) && (open.Some? ==> Judged(open.value))
    case _ => true
  }

  /** No list of the type is marked as a literal `[]`'s. */
  predicate Unmarked(ty: Type) {
    match ty
    case List(of, _, empty) => !empty && Unmarked(of)
    case Object(fields, open) =>
      (forall name :: name in fields ==> Unmarked(fields[name].ty)) && (open.Some? ==> Unmarked(open.value))
    case _ => true
  }

  /** What conforms to a type with no empty mark is one of its values. */
  lemma {:induction false} ConformingInhabits(value: Json, ty: Type)
    requires Unmarked(ty) && Conforms(value, ty)
    ensures Inhabits(value, ty, false)
    decreases ty
  {
    match ty
    case List(of, _, _) =>
      forall i | 0 <= i < |value.items| ensures Inhabits(value.items[i], of, false) {
        ConformingInhabits(value.items[i], of);
      }
    case Object(fields, open) =>
      forall name | name in value.fields
        ensures name in fields ==> Inhabits(value.fields[name], fields[name].ty, false)
        ensures name !in fields ==> open.Some? && Inhabits(value.fields[name], open.value, false)
      {
        ConformingInhabits(value.fields[name], if name in fields then fields[name].ty else open.value);
      }
    case _ =>
  }

  /** A value of a type conforms at run time exactly when its lists are within the type's bounds. */
  lemma {:induction false} InhabitantConforms(value: Json, ty: Type, handles: bool)
    requires Inhabits(value, ty, handles)
    ensures Conforms(value, ty) <==> WithinBounds(value, ty)
    decreases ty
  {
    match ty
    case List(of, _, _) =>
      forall i | 0 <= i < |value.items|
        ensures Conforms(value.items[i], of) <==> WithinBounds(value.items[i], of)
      {
        InhabitantConforms(value.items[i], of, handles);
      }
    case Object(fields, open) =>
      forall name | name in value.fields
        ensures name in fields ==>
          (Conforms(value.fields[name], fields[name].ty) <==> WithinBounds(value.fields[name], fields[name].ty))
        ensures name !in fields ==>
          open.Some? && (Conforms(value.fields[name], open.value) <==> WithinBounds(value.fields[name], open.value))
      {
        InhabitantConforms(value.fields[name], if name in fields then fields[name].ty else open.value, handles);
      }
    case _ =>
  }
}
