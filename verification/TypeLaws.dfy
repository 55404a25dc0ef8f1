/** What the checker says of types, held against their values from both sides: trimming, reading a path, naming a type. */
module TypeLaws {
  import opened Json
  import opened Outcomes
  import opened Types
  import opened Assign
  import opened ValueTypes

  // ---- trimming ---------------------------------------------------------------------------------

  /** A value of a type that is none of another once pruned to it, where the one does not feed the other trimmed. */
  lemma {:induction false} Untrimmable(from: Type, to: Type, handles: bool) returns (value: Json)
    requires Judged(from) && Judged(to) && Tellable(from) && Tellable(to) && !AssignableTrimmed(from, to)
    ensures Inhabits(value, from, handles) && !Inhabits(Prune(value, to), to, handles)
    decreases from, 1
  {
    SampleInhabits(from, handles);
    value := Sample(from);
    match (from, to)
    case (Unknown, _) => value := if to.String? then Null else Str("");
    case (String(a), String(b)) => value := Unfed(from, to, handles);
    case (List(of, _, _), List(of', _, empty')) =>
      SampleInhabits(of, handles);
      var part := Sample(of);
      if !empty' {
        part := Untrimmable(of, of', handles);
      }
      value := Arr([part]);
      assert Prune(value, to).items[0] == Prune(part, of');
    case (Object(_, _), Object(_, _)) => value := UntrimmableObject(from, to, handles);
    case _ =>
  }

  lemma {:induction false} UntrimmableObject(from: Type, to: Type, handles: bool) returns (value: Json)
    requires from.Object? && to.Object? && Judged(from) && Judged(to) && Tellable(from) && Tellable(to)
    requires !AssignableTrimmed(from, to)
    ensures Inhabits(value, from, handles) && !Inhabits(Prune(value, to), to, handles)
    decreases from, 0
  {
    if name :| name in to.fields && !FieldFits(from, to, name, true) {
      if to.fields[name].required && (name in from.fields ==> !from.fields[name].required) {
        value := WithoutField(from, name, handles);
        assert name !in Prune(value, to).fields;
      } else {
        var part := Untrimmable(PartOf(from, name), to.fields[name].ty, handles);
        value := WithPart(from, name, part, handles);
        assert Prune(value, to).fields[name] == Prune(part, to.fields[name].ty);
      }
    } else {
      assert to.open.Some? && !ExtrasFit(from, to);
      var name: string;
      if key :| key in from.fields && key !in to.fields && !Assignable(from.fields[key].ty, to.open.value) {
        name := key;
      } else {
        name := AnotherText(from.fields.Keys + to.fields.Keys);
      }
      var part := Unfed(PartOf(from, name), to.open.value, handles);
      value := WithPart(from, name, part, handles);
      assert Prune(value, to).fields[name] == part;
    }
  }

  /**
   * Trimmed assignability is exactly what it asks: of types told apart by what their values look like, one feeds another
   * once trimmed if and only if every value of the one, pruned to the other, is a value of it.
   */
  lemma TrimmedIsExact(from: Type, to: Type, handles: bool)
    requires Judged(from) && Judged(to) && Tellable(from) && Tellable(to)
    ensures AssignableTrimmed(from, to) <==>
      forall value :: Inhabits(value, from, handles) ==> Inhabits(Prune(value, to), to, handles)
  {
    if AssignableTrimmed(from, to) {
      forall value | Inhabits(value, from, handles) ensures Inhabits(Prune(value, to), to, handles) {
        TrimmedIsSound(value, from, to, handles);
      }
    } else {
      var value := Untrimmable(from, to, handles);
    }
  }

  // ---- reading a path ---------------------------------------------------------------------------

  /** No blob, empty enumeration, variable, type of a type reference or literal empty list, and nothing unknown. */
  predicate Plain(ty: Type) {
    match ty
    case String(allowed) => allowed.Some? ==> allowed.value != []
    case Number => true
    case Boolean => true
    case List(of, _, empty) => !empty && Plain(of)
    case Object(fields, open) =>
      (forall name :: name in fields ==> Plain(fields[name].ty)) && (open.Some? ==> Plain(open.value))
    case _ => false
  }

  lemma {:induction false} PlainIsTellable(ty: Type)
    requires Plain(ty)
    ensures Judged(ty) && Tellable(ty)
  {
    match ty
    case List(of, _, _) => PlainIsTellable(of);
    case Object(fields, open) =>
      forall name | name in fields ensures Judged(fields[name].ty) && Tellable(fields[name].ty) {
        PlainIsTellable(fields[name].ty);
      }
      if open.Some? {
        PlainIsTellable(open.value);
      }
    case _ =>
  }

  /** A list of a type that holds a member at an index. */
  lemma WithItem(ty: Type, i: nat, part: Json) returns (value: Json)
    requires ty.List? && Plain(ty) && Inhabits(part, ty.of, true)
    ensures Inhabits(value, ty, true) && value.Arr? && i < |value.items| && value.items[i] == part
  {
    PlainIsTellable(ty);
    SampleInhabits(ty.of, true);
    value := Arr(seq(i + 1, k requires 0 <= k < i + 1 => if k == i then part else Sample(ty.of)));
  }

  /** Whatever is of the type found at a path is what some value holds there. */
  lemma {:induction false} SomeHolds(current: Read, path: Path, part: Json) returns (value: Json)
    requires Plain(current.ty) && ReadFrom(current, path).Some? && Inhabits(part, ReadFrom(current, path).value.ty, true)
    ensures Inhabits(value, current.ty, true) && ReadPath(Some(value), path) == Some(part)
    decreases |path|
  {
    if path == [] {
      value := part;
    } else {
      PlainIsTellable(current.ty);
      var below := SomeHolds(ReadInto(current, path[0]).value, path[1..], part);
      if current.ty.List? {
        value := WithItem(current.ty, IndexOf(path[0]), below);
      } else {
        value := WithPart(current.ty, path[0], below, true);
      }
    }
  }

  /** Where what is read may be missing, some value has nothing there. */
  lemma {:induction false} SomeLacks(current: Read, path: Path) returns (value: Json)
    requires Plain(current.ty) && !current.optional && ReadFrom(current, path).Some? && ReadFrom(current, path).value.optional
    ensures Inhabits(value, current.ty, true) && ReadPath(Some(value), path) == None
    decreases |path|
  {
    PlainIsTellable(current.ty);
    var next := ReadInto(current, path[0]).value;
    if !next.optional {
      var below := SomeLacks(next, path[1..]);
      value := WithPart(current.ty, path[0], below, true);
    } else {
      if current.ty.List? {
        value := Arr([]);
      } else {
        value := WithoutField(current.ty, path[0], true);
      }
      assert StepInto(value, path[0]).None? && ReadPath(None, path[1..]).None?;
    }
  }

  /** Where a read is refused, no value has anything. */
  lemma {:induction false} NoneHolds(value: Json, current: Read, path: Path)
    requires Plain(current.ty) && ReadFrom(current, path).None? && Inhabits(value, current.ty, true)
    ensures ReadPath(Some(value), path).None?
    decreases |path|
  {
    var next, step := ReadInto(current, path[0]), StepInto(value, path[0]);
    if step.None? {
      assert ReadPath(None, path[1..]).None?;
    } else {
      if current.ty.Object? && path[0] !in current.ty.fields {
        assert Inhabits(value.fields[path[0]], current.ty.open.value, true);
      }
      NoneHolds(step.value, next.value, path[1..]);
    }
  }

  /**
   * What a checker says of a read is exactly so of plain types: the type it finds is that of all that values hold there
   * and of nothing else, the read is optional if and only if some value has nothing there, and it is refused only where
   * no value has anything.
   */
  lemma TypeAtIsExact(ty: Type, path: Path)
    requires Plain(ty)
    ensures TypeAt(ty, path).Some? ==> forall part ::
      Inhabits(part, TypeAt(ty, path).value.ty, true) <==>
      exists value :: Inhabits(value, ty, true) && ReadPath(Some(value), path) == Some(part)
    ensures TypeAt(ty, path).Some? ==>
      (TypeAt(ty, path).value.optional <==> exists value :: Inhabits(value, ty, true) && ReadPath(Some(value), path) == None)
    ensures TypeAt(ty, path).None? ==> forall value :: Inhabits(value, ty, true) ==> ReadPath(Some(value), path).None?
  {
    hide Inhabits, ReadFrom, Plain;
    if TypeAt(ty, path).None? {
      forall value | Inhabits(value, ty, true) ensures ReadPath(Some(value), path).None? {
        NoneHolds(value, Read(ty, false), path);
      }
    } else {
      forall value | Inhabits(value, ty, true) ensures Answers(ReadPath(Some(value), path), TypeAt(ty, path).value, true) {
        ReadPathIsTyped(value, ty, path);
      }
      forall part | Inhabits(part, TypeAt(ty, path).value.ty, true)
        ensures exists value :: Inhabits(value, ty, true) && ReadPath(Some(value), path) == Some(part)
      {
        var value := SomeHolds(Read(ty, false), path, part);
      }
      if TypeAt(ty, path).value.optional {
        var value := SomeLacks(Read(ty, false), path);
      }
    }
  }

  // ---- what is not judged -----------------------------------------------------------------------

  /**
   * A variable feeds anything and takes anything, and unknown takes anything; the type of a type reference feeds nothing
   * else, though each is a text; and it takes exactly the types whose every value is a text.
   */
  lemma OutsideTheJudgement(ty: Type, name: string, trims: bool, handles: bool)
    ensures Fits(Var(name), ty, trims) && Fits(ty, Var(name), trims) && Fits(ty, Unknown, trims)
    ensures Fits(Reference, ty, trims) <==> ty.Unknown? || ty.Var?
    ensures Judged(ty) && Tellable(ty) ==>
      (Fits(ty, Reference, trims) <==> forall value :: Inhabits(value, ty, handles) ==> value.Str?)
  {
    if Judged(ty) && Tellable(ty) {
      SampleInhabits(ty, handles);
      assert ty.String? ==> forall value :: Inhabits(value, ty, handles) ==> value.Str?;
      assert !ty.String? ==> !Sample(ty).Str?;
    }
  }

  /** The member that types a list: the first that is no literal empty list, or the first where each is one. */
  lemma {:induction false} FirstTellingIsFirst(types: seq<Type>)
    requires types != []
    ensures (forall i :: 0 <= i < |types| ==> IsEmptyList(types[i])) ==> FirstTelling(types) == types[0]
    ensures forall i :: 0 <= i < |types| && !IsEmptyList(types[i]) && (forall j :: 0 <= j < i ==> IsEmptyList(types[j])) ==>
      FirstTelling(types) == types[i]
  {
    if |types| > 1 {
      FirstTellingIsFirst(types[1..]);
      assert forall i :: 0 < i < |types| ==> types[i] == types[1..][i - 1];
      forall i | 0 < i < |types| && !IsEmptyList(types[i]) && (forall j :: 0 <= j < i ==> IsEmptyList(types[j]))
        ensures FirstTelling(types) == types[i]
      {
        assert types[1..][i - 1] == types[i] && forall j :: 0 <= j < i - 1 ==> types[1..][j] == types[j + 1];
      }
    }
  }

  // ---- naming a type ----------------------------------------------------------------------------

  predicate IsName(text: string) {
    forall i :: 0 <= i < |text| ==> NameChar(text[i])
  }

  /** The names of a path but its first, each after a slash. */
  function Slashed(names: seq<string>): string {
    if names == [] then "" else "/" + names[0] + Slashed(names[1..])
  }

  /** A path to a shape: a name that may be empty, then others that may not. */
  ghost predicate IsPath(text: string, first: string, rest: seq<string>) {
    IsName(first) && text == first + Slashed(rest) && forall i :: 0 <= i < |rest| ==> rest[i] != "" && IsName(rest[i])
  }

  lemma {:induction false} PathIsSplit(text: string) returns (first: string, rest: seq<string>)
    requires IsPathText(text)
    ensures IsPath(text, first, rest)
    ensures text != "" && NameChar(text[0]) ==> first != ""
  {
    if text == "" {
      first, rest := "", [];
    } else {
      var more := text[1..];
      assert IsPathAt(text, 0);
      forall i | 0 <= i < |more| ensures IsPathAt(more, i) {
        assert IsPathAt(text, i + 1);
      }
      var first', rest' := PathIsSplit(more);
      if NameChar(text[0]) {
        first, rest := [text[0]] + first', rest';
        assert text == first + Slashed(rest);
      } else {
        assert NameChar(text[1]);
        first, rest := "", [first'] + rest';
        assert rest[1..] == rest' && text == "/" + more;
        assert Slashed(rest) == "/" + first' + Slashed(rest');
        assert text == first + Slashed(rest);
      }
    }
  }

  lemma {:induction false} PathIsText(text: string, first: string, rest: seq<string>)
    requires IsPath(text, first, rest)
    ensures IsPathText(text)
    decreases |rest|
  {
    if rest == [] {
      assert text == first;
    } else {
      var more := rest[0] + Slashed(rest[1..]);
      PathIsText(more, rest[0], rest[1..]);
      assert text == first + "/" + more;
      assert more[0] == rest[0][0] && NameChar(more[0]);
      forall i | 0 <= i < |text| ensures IsPathAt(text, i) {
        if i < |first| {
          assert text[i] == first[i];
        } else if i == |first| {
          assert text[i] == '/' && text[i + 1] == more[0];
        } else {
          assert IsPathAt(more, i - |first| - 1);
        }
      }
    }
  }

  lemma ReferenceByPath(path: string)
    ensures IsTypeRef("@" + path + ".json") <==> IsPathText(path)
  {
    hide IsPathText;
    var text := "@" + path + ".json";
    var n := |text|;
    assert text[n - 5..] == ".json" && text[n - 1] == 'n' && text[0] == '@' && text[1..n - 5] == path;
    NoWord(text);
  }

  lemma NoWord(text: string)
    requires text != "" && text[0] in {'@', '$'}
    ensures !IsScalarWord(text)
  {
  }

  lemma ReferenceByVariable(first: char, more: string)
    requires forall i :: 0 <= i < |more| ==> more[i] != ']'
    ensures IsTypeRef("$" + [first] + more) <==> 'A' <= first <= 'Z' && forall i :: 0 <= i < |more| ==> Alnum(more[i])
  {
    hide Alnum, IsScalarWord, IsVariable, IsPathText;
    var text := "$" + [first] + more;
    assert text[0] == '$' && text[1] == first;
    assert text[|text| - 2..] != "[]" by {
      assert if more == "" then text[|text| - 2..][0] == '$' else text[|text| - 2..][1] == more[|more| - 1];
    }
    NoWord(text);
    VariableIs(first, more);
  }

  lemma VariableIs(first: char, more: string)
    ensures IsVariable("$" + [first] + more) <==> 'A' <= first <= 'Z' && forall i :: 0 <= i < |more| ==> Alnum(more[i])
  {
    hide Alnum;
    var text := "$" + [first] + more;
    assert text[0] == '$' && text[1] == first;
    assert forall i :: 2 <= i < |text| ==> text[i] == more[i - 2];
    assert forall i :: 0 <= i < |more| ==> text[i + 2] == more[i];
  }

  lemma ReferenceByList(text: string)
    ensures IsTypeRef(text + "[]") <==> IsTypeRef(text)
  {
    hide IsScalarWord, IsVariable, IsShapeRef;
    var list := text + "[]";
    assert list[|list| - 2..] == "[]" && list[..|list| - 2] == text;
    assert IsTypeRef(list) <==> IsTypeRef(list[..|list| - 2]);
  }

  lemma ReferenceByWord(text: string)
    requires text != "" && text[0] !in {'@', '$'} && text[|text| - 1] != ']'
    ensures IsTypeRef(text) <==> text in ["string", "number", "boolean", "blob", "unknown", "type"]
  {
    hide IsPathText, Alnum;
  }

  /**
   * The grammar of type references: a scalar's word; a variable, `$` and a capital and then letters and digits; a shape's
   * path, names between slashes of which only the first may be empty; and whatever is one, as a list.
   */
  lemma TypeRefsAre(path: string, first: char, more: string, text: string)
    ensures IsTypeRef("@" + path + ".json") <==> exists name, rest :: IsPath(path, name, rest)
    ensures (forall i :: 0 <= i < |more| ==> more[i] != ']') ==>
      (IsTypeRef("$" + [first] + more) <==> 'A' <= first <= 'Z' && forall i :: 0 <= i < |more| ==> Alnum(more[i]))
    ensures IsTypeRef(text + "[]") <==> IsTypeRef(text)
    ensures text != "" && text[0] !in {'@', '$'} && text[|text| - 1] != ']' ==>
      (IsTypeRef(text) <==> text in ["string", "number", "boolean", "blob", "unknown", "type"])
  {
    hide IsTypeRef, IsPath, Alnum;
    ReferenceByPath(path);
    if IsPathText(path) {
      var name, rest := PathIsSplit(path);
    }
    forall name, rest | IsPath(path, name, rest) ensures IsPathText(path) {
      PathIsText(path, name, rest);
    }
    if forall i :: 0 <= i < |more| ==> more[i] != ']' {
      ReferenceByVariable(first, more);
    }
    ReferenceByList(text);
    if text != "" && text[0] !in {'@', '$'} && text[|text| - 1] != ']' {
      ReferenceByWord(text);
    }
  }
}
