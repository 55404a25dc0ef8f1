/** Types against values: pruning a value to a type, reading a path through one, and the type a literal has. */
module ValueTypes {
  import opened Json
  import opened Outcomes
  import opened Types
  import opened Assign

  // ---- pruning ----------------------------------------------------------------------------------

  /** The value with the keys a closed object type does not declare dropped, at every depth the type declares. */
  function Prune(value: Json, ty: Type): Json
    decreases ty
  {
    if ty.List? && value.Arr? then
      Arr(seq(|value.items|, i requires 0 <= i < |value.items| => Prune(value.items[i], ty.of)))
    else if ty.Object? && value.Obj? then
      Obj(map name | name in value.fields && (name in ty.fields || ty.open.Some?) ::
            if name in ty.fields then Prune(value.fields[name], ty.fields[name].ty) else value.fields[name])
    else value
  }

  /** Some of an object's keys, pruned. */
  function PrunedKeys(fields: map<string, Json>, ty: Type, names: set<string>): map<string, Json>
    requires ty.Object?
  {
    map name | name in names && name in fields && (name in ty.fields || ty.open.Some?) ::
      if name in ty.fields then Prune(fields[name], ty.fields[name].ty) else fields[name]
  }

  lemma PrunedMore(fields: map<string, Json>, ty: Type, names: set<string>, name: string)
    requires ty.Object? && name in fields && name !in names
    ensures PrunedKeys(fields, ty, names + {name}) ==
      if name in ty.fields then PrunedKeys(fields, ty, names)[name := Prune(fields[name], ty.fields[name].ty)]
      else if ty.open.Some? then PrunedKeys(fields, ty, names)[name := fields[name]]
      else PrunedKeys(fields, ty, names)
  {
    hide Prune;
  }

  lemma PrunedAll(fields: map<string, Json>, ty: Type)
    requires ty.Object?
    ensures Prune(Obj(fields), ty) == Obj(PrunedKeys(fields, ty, fields.Keys))
  {
  }

  lemma PrunedItems(items: seq<Json>, pruned: seq<Json>, ty: Type)
    requires ty.List? && |pruned| == |items| && forall i :: 0 <= i < |items| ==> pruned[i] == Prune(items[i], ty.of)
    ensures Prune(Arr(items), ty) == Arr(pruned)
  {
  }

  /** The recursion over a list, item by item. */
  method PruneItems(items: seq<Json>, ty: Type) returns (out: seq<Json>)
    requires ty.List?
    ensures Arr(out) == Prune(Arr(items), ty)
    decreases ty, 0
  {
    hide Prune;
    out := [];
    for i := 0 to |items|
      invariant |out| == i && forall j :: 0 <= j < i ==> out[j] == Prune(items[j], ty.of)
    {
      var item := PruneValue(items[i], ty.of);
      out := out + [item];
    }
    PrunedItems(items, out, ty);
  }

  /** The recursion that writes each key that stays into a new object. */
  method PruneValue(value: Json, ty: Type) returns (out: Json)
    ensures out == Prune(value, ty)
    decreases ty, 1
  {
    if ty.List? && value.Arr? {
      var items := PruneItems(value.items, ty);
      return Arr(items);
    }
    if !(ty.Object? && value.Obj?) {
      return value;
    }
    hide Prune, PrunedKeys;
    var kept: map<string, Json> := map[];
    var done, left := {}, value.fields.Keys;
    assert kept == PrunedKeys(value.fields, ty, done) by { NonePruned(value.fields, ty); }
    while left != {}
      invariant left !! done && left + done == value.fields.Keys
      invariant kept == PrunedKeys(value.fields, ty, done)
      decreases |left|
    {
      var name :| name in left;
      PrunedMore(value.fields, ty, done, name);
      if name in ty.fields {
        var pruned := PruneValue(value.fields[name], ty.fields[name].ty);
        kept := kept[name := pruned];
      } else if ty.open.Some? {
        kept := kept[name := value.fields[name]];
      }
      done, left := done + {name}, left - {name};
    }
    PrunedAll(value.fields, ty);
    assert done == value.fields.Keys;
    return Obj(kept);
  }

  lemma NonePruned(fields: map<string, Json>, ty: Type)
    requires ty.Object?
    ensures PrunedKeys(fields, ty, {}) == map[]
  {
  }

  /** A trim that a type accepts is sound: the pruned value is one of the type it was pruned to. */
  lemma {:induction false} TrimmedIsSound(value: Json, from: Type, to: Type, handles: bool)
    requires Judged(from) && Judged(to) && AssignableTrimmed(from, to)
    requires Inhabits(value, from, handles)
    ensures Inhabits(Prune(value, to), to, handles)
    decreases from
  {
    match (from, to)
    case (List(of, _, _), List(of', _, _)) =>
      forall i | 0 <= i < |value.items| ensures Inhabits(Prune(value.items[i], of'), of', handles) {
        TrimmedIsSound(value.items[i], of, of', handles);
      }
    case (Object(fields, open), Object(fields', open')) =>
      forall name | name in value.fields && name in fields'
        ensures Inhabits(Prune(value.fields[name], fields'[name].ty), fields'[name].ty, handles)
      {
        assert FieldFits(from, to, name, true);
        TrimmedIsSound(value.fields[name], PartOf(from, name), fields'[name].ty, handles);
      }
      forall name | name in value.fields && name !in fields' && open'.Some?
        ensures Inhabits(value.fields[name], open'.value, handles)
      {
        if !open'.value.Unknown? {
          assert ExtrasFit(from, to);
          AssignableIsSound(value.fields[name], PartOf(from, name), open'.value, handles);
        }
      }
      forall name | name in fields' && name !in value.fields ensures !fields'[name].required {
        assert FieldFits(from, to, name, true);
      }
    case _ =>
  }

  /** Pruning keeps a value's lists within the bounds they were within. */
  lemma {:induction false} PruneKeepsBounds(value: Json, ty: Type)
    ensures WithinBounds(Prune(value, ty), ty) <==> WithinBounds(value, ty)
    decreases ty
  {
    if ty.List? && value.Arr? {
      forall i | 0 <= i < |value.items|
        ensures WithinBounds(Prune(value.items[i], ty.of), ty.of) <==> WithinBounds(value.items[i], ty.of)
      {
        PruneKeepsBounds(value.items[i], ty.of);
      }
      var pruned := Prune(value, ty).items;
      assert forall i :: 0 <= i < |value.items| ==> pruned[i] == Prune(value.items[i], ty.of);
    } else if ty.Object? && value.Obj? {
      var pruned := Prune(value, ty).fields;
      forall name | name in value.fields && name in ty.fields
        ensures WithinBounds(pruned[name], ty.fields[name].ty) <==> WithinBounds(value.fields[name], ty.fields[name].ty)
      {
        PruneKeepsBounds(value.fields[name], ty.fields[name].ty);
      }
    }
  }

  /**
   * The run-time form: what conforms to a type with no empty mark, pruned to a type it feeds once trimmed, conforms
   * to that type exactly when its own lists are within that type's bounds.
   */
  lemma TrimmedAtRunTime(value: Json, from: Type, to: Type)
    requires Judged(from) && Judged(to) && Unmarked(from)
    requires AssignableTrimmed(from, to) && Conforms(value, from)
    ensures Conforms(Prune(value, to), to) <==> WithinBounds(value, to)
  {
    ConformingInhabits(value, from);
    TrimmedIsSound(value, from, to, false);
    InhabitantConforms(Prune(value, to), to, false);
    PruneKeepsBounds(value, to);
  }

  /** Pruning takes nothing from a value that already conforms. */
  lemma {:induction false} PruneKeepsConforming(value: Json, ty: Type)
    requires Conforms(value, ty)
    ensures Prune(value, ty) == value
    decreases ty
  {
    if ty.List? {
      forall i | 0 <= i < |value.items| ensures Prune(value.items[i], ty.of) == value.items[i] {
        PruneKeepsConforming(value.items[i], ty.of);
      }
    } else if ty.Object? {
      forall name | name in value.fields && name in ty.fields
        ensures Prune(value.fields[name], ty.fields[name].ty) == value.fields[name]
      {
        PruneKeepsConforming(value.fields[name], ty.fields[name].ty);
      }
      assert Prune(value, ty).fields == value.fields;
    }
  }

  lemma {:induction false} PruneIsIdempotent(value: Json, ty: Type)
    ensures Prune(Prune(value, ty), ty) == Prune(value, ty)
    decreases ty
  {
    var once := Prune(value, ty);
    if ty.List? && value.Arr? {
      forall i | 0 <= i < |value.items| ensures Prune(once.items[i], ty.of) == once.items[i] {
        PruneIsIdempotent(value.items[i], ty.of);
      }
    } else if ty.Object? && value.Obj? {
      forall name | name in value.fields && name in ty.fields
        ensures Prune(once.fields[name], ty.fields[name].ty) == once.fields[name]
      {
        PruneIsIdempotent(value.fields[name], ty.fields[name].ty);
      }
      assert Prune(once, ty).fields == once.fields;
    }
  }

  // ---- reading a path ---------------------------------------------------------------------------

  /** What a read of a type finds: the type there, and whether it may be missing. */
  datatype Read = Read(ty: Type, optional: bool)

  /** One step of a read; nothing where the checker refuses it. */
  function ReadInto(current: Read, segment: string): Option<Read> {
    var ty := if current.ty.Blob? then BLOB_HANDLE else current.ty;
    match ty
    case List(of, _, _) => if IsIndex(segment) then Some(Read(of, true)) else None
    case Object(fields, open) =>
      if segment in fields then Some(Read(fields[segment].ty, current.optional || !fields[segment].required))
      else if open.Some? then Some(Read(open.value, true))
      else None
    case _ => None
  }

  function ReadFrom(current: Read, path: Path): Option<Read>
    decreases |path|
  {
    if path == [] then Some(current)
    else
      var next := ReadInto(current, path[0]);
      if next.None? then None else ReadFrom(next.value, path[1..])
  }

  function TypeAt(ty: Type, path: Path): Option<Read> {
    ReadFrom(Read(ty, false), path)
  }

  /** The loop that follows a path through a type with one mutable read. */
  method FollowType(ty: Type, path: Path) returns (answer: Option<Read>)
    ensures answer == TypeAt(ty, path)
  {
    var current := Read(ty, false);
    for i := 0 to |path|
      invariant TypeAt(ty, path) == ReadFrom(current, path[i..])
    {
      assert path[i..][0] == path[i] && path[i..][1..] == path[i + 1..];
      var next := ReadInto(current, path[i]);
      if next.None? {
        return None;
      }
      current := next.value;
    }
    answer := Some(current);
  }

  /** A value that may be missing is a value of what was read where it is there, and missing only where that may be. */
  predicate Answers(value: Option<Json>, read: Read, handles: bool) {
    if value.Some? then Inhabits(value.value, read.ty, handles) else read.optional
  }

  /** Reading is type safe: a path read through a value of a type finds a value of the type `typeAt` finds there. */
  lemma {:induction false} ReadFromIsTyped(value: Option<Json>, current: Read, path: Path)
    requires Answers(value, current, true) && ReadFrom(current, path).Some?
    ensures Answers(ReadPath(value, path), ReadFrom(current, path).value, true)
    decreases |path|
  {
    if path != [] {
      var next := ReadInto(current, path[0]).value;
      if value.Some? {
        assert Answers(StepInto(value.value, path[0]), ReadInto(current, path[0]).value, true) by {
          if current.ty.Object? && path[0] in value.value.fields && path[0] !in current.ty.fields {
            assert Inhabits(value.value.fields[path[0]], current.ty.open.value, true);
          }
        }
        ReadFromIsTyped(StepInto(value.value, path[0]), next, path[1..]);
      } else {
        assert ReadInto(current, path[0]).value.optional;
        ReadFromIsTyped(None, next, path[1..]);
        assert ReadPath(None, path[1..]).None?;
      }
    }
  }

  lemma ReadPathIsTyped(value: Json, ty: Type, path: Path)
    requires Inhabits(value, ty, true) && TypeAt(ty, path).Some?
    ensures Answers(ReadPath(Some(value), path), TypeAt(ty, path).value, true)
  {
    ReadFromIsTyped(Some(value), Read(ty, false), path);
  }

  lemma LastDigit(n: nat)
    ensures var digit := ['0', '1', '2', '3', '4', '5', '6', '7', '8', '9'][n % 10];
      '0' <= digit <= '9' && (digit - '0') as nat == n % 10 &&
      Digits(n) == (if n < 10 then "" else Digits(n / 10)) + [digit]
  {
  }

  /** An index written out is read back. */
  lemma {:induction false} DigitsAreIndex(n: nat)
    ensures IsIndex(Digits(n)) && IndexOf(Digits(n)) == n
  {
    hide Digits;
    LastDigit(n);
    var text := Digits(n);
    if n >= 10 {
      DigitsAreIndex(n / 10);
      assert text[..|text| - 1] == Digits(n / 10);
    } else {
      assert text[..|text| - 1] == "";
    }
  }

  lemma {:induction false} HandlesForgotten(value: Json, ty: Type)
    requires Inhabits(value, ty, true)
    ensures Inhabits(value, ty, false)
    decreases ty
  {
    match ty
    case List(of, _, _) =>
      forall i | 0 <= i < |value.items| ensures Inhabits(value.items[i], of, false) {
        HandlesForgotten(value.items[i], of);
      }
    case Object(fields, open) =>
      forall name | name in value.fields
        ensures name in fields ==> Inhabits(value.fields[name], fields[name].ty, false)
        ensures name !in fields ==> open.Some? && Inhabits(value.fields[name], open.value, false)
      {
        HandlesForgotten(value.fields[name], if name in fields then fields[name].ty else open.value);
      }
    case _ =>
  }

  /** What is read at the path is there, and is no value of the type found there. */
  predicate Mistyped(value: Json, current: Read, path: Path) {
    ReadFrom(current, path).Some? && ReadPath(Some(value), path).Some? &&
    !Inhabits(ReadPath(Some(value), path).value, ReadFrom(current, path).value.ty, false)
  }

  lemma MistypedDeeper(value: Json, current: Read, segment: string, path: Path)
    requires ReadInto(current, segment).Some? && StepInto(value, segment).Some?
    requires Mistyped(StepInto(value, segment).value, ReadInto(current, segment).value, path)
    ensures Mistyped(value, current, [segment] + path)
  {
    assert ([segment] + path)[1..] == path;
  }

  lemma ItemIsNot(value: Json, ty: Type) returns (i: nat)
    requires ty.List? && Inhabits(value, ty, false) && !Inhabits(value, ty, true)
    ensures value.Arr? && i < |value.items|
    ensures Inhabits(value.items[i], ty.of, false) && !Inhabits(value.items[i], ty.of, true)
  {
    i :| i < |value.items| && !Inhabits(value.items[i], ty.of, true);
  }

  /** What an object's type says of a key it admits. */
  function Under(ty: Type, name: string): (under: Type)
    requires ty.Object? && (name in ty.fields || ty.open.Some?)
    ensures under < ty
  {
    if name in ty.fields then ty.fields[name].ty else ty.open.value
  }

  lemma FieldIsNot(value: Json, ty: Type) returns (name: string)
    requires ty.Object? && Inhabits(value, ty, false) && !Inhabits(value, ty, true)
    ensures value.Obj? && name in value.fields && (name in ty.fields || ty.open.Some?)
    ensures Inhabits(value.fields[name], Under(ty, name), false) && !Inhabits(value.fields[name], Under(ty, name), true)
  {
    name :| name in value.fields && !Inhabits(value.fields[name], Under(ty, name), true);
  }

  /** A handle somewhere in the value that is not well formed is met by some path. */
  lemma {:induction false} HandleIsMet(value: Json, current: Read) returns (path: Path)
    requires Inhabits(value, current.ty, false) && !Inhabits(value, current.ty, true)
    ensures Mistyped(value, current, path)
    decreases current.ty
  {
    hide Mistyped, Inhabits, Under;
    var ty := current.ty;
    if ty.List? {
      var i := ItemIsNot(value, ty);
      var rest := HandleIsMet(value.items[i], Read(ty.of, true));
      ItemIsRead(value, current, i);
      MistypedDeeper(value, current, Digits(i), rest);
      path := [Digits(i)] + rest;
    } else if ty.Object? {
      var name := FieldIsNot(value, ty);
      FieldIsRead(value, current, name);
      var rest := HandleIsMet(value.fields[name], ReadInto(current, name).value);
      MistypedDeeper(value, current, name, rest);
      path := [name] + rest;
    } else {
      OnlyBlobs(value, ty);
      FilenameIsMet(value, current);
      path := ["filename"];
    }
  }

  lemma ItemIsRead(value: Json, current: Read, i: nat)
    requires current.ty.List? && value.Arr? && i < |value.items|
    ensures ReadInto(current, Digits(i)) == Some(Read(current.ty.of, true)) && StepInto(value, Digits(i)) == Some(value.items[i])
  {
    DigitsAreIndex(i);
  }

  lemma FieldIsRead(value: Json, current: Read, name: string)
    requires current.ty.Object? && value.Obj? && name in value.fields && (name in current.ty.fields || current.ty.open.Some?)
    ensures ReadInto(current, name).Some? && ReadInto(current, name).value.ty == Under(current.ty, name)
    ensures StepInto(value, name) == Some(value.fields[name])
  {
  }

  lemma OnlyBlobs(value: Json, ty: Type)
    requires !ty.List? && !ty.Object? && Inhabits(value, ty, false) && !Inhabits(value, ty, true)
    ensures ty.Blob?
  {
    hide Conforms;
  }

  lemma FilenameIsMet(value: Json, current: Read)
    requires current.ty.Blob? && Inhabits(value, Blob, false) && !Inhabits(value, Blob, true)
    ensures Mistyped(value, current, ["filename"])
  {
    var next := Read(STRING, true);
    assert ReadInto(current, "filename") == Some(Read(STRING, current.optional || true));
    assert ReadFrom(next, []) == Some(next) && ReadPath(StepInto(value, "filename"), []) == StepInto(value, "filename");
    MistypedDeeper(value, current, "filename", []);
    assert ["filename"] + [] == ["filename"];
  }

  /**
   * Reading is type safe of exactly the values whose handles are well formed: what is read of a value is, at every path
   * the checker follows, a value of the type found there or missing where it may be, if and only if the value is one of
   * the type with every handle's file name text.
   */
  lemma TypedAtEveryPath(value: Json, ty: Type)
    ensures (forall path :: TypeAt(ty, path).Some? ==> Answers(ReadPath(Some(value), path), TypeAt(ty, path).value, false)) <==>
      Inhabits(value, ty, true)
  {
    hide Inhabits, ReadFrom;
    if Inhabits(value, ty, true) {
      forall path | TypeAt(ty, path).Some?
        ensures Answers(ReadPath(Some(value), path), TypeAt(ty, path).value, false)
      {
        ReadPathIsTyped(value, ty, path);
        if ReadPath(Some(value), path).Some? {
          HandlesForgotten(ReadPath(Some(value), path).value, TypeAt(ty, path).value.ty);
        }
      }
    } else if Inhabits(value, ty, false) {
      var path := HandleIsMet(value, Read(ty, false));
      assert !Answers(ReadPath(Some(value), path), TypeAt(ty, path).value, false);
    } else {
      NothingRead(value, ty);
      assert !Answers(ReadPath(Some(value), []), TypeAt(ty, []).value, false);
    }
  }

  lemma NothingRead(value: Json, ty: Type)
    ensures TypeAt(ty, []) == Some(Read(ty, false)) && ReadPath(Some(value), []) == Some(value)
  {
  }

  /** Why handles must be well formed: the run-time check of a blob does not look at its file name. */
  lemma FilenameIsUnchecked()
    ensures
      var handle := Obj(map["id" := Str("1"), "contentType" := Str("t"), "size" := Num("0"), "filename" := Num("5")]);
      Conforms(handle, Blob) && TypeAt(Blob, ["filename"]) == Some(Read(STRING, true)) &&
      ReadPath(Some(handle), ["filename"]) == Some(Num("5")) && !Conforms(Num("5"), STRING)
  {
    var handle := Obj(map["id" := Str("1"), "contentType" := Str("t"), "size" := Num("0"), "filename" := Num("5")]);
    assert ReadInto(Read(Blob, false), "filename") == Some(Read(STRING, true));
    assert ReadFrom(Read(STRING, true), []) == Some(Read(STRING, true));
    assert ["filename"][1..] == [];
    assert StepInto(handle, "filename") == Some(Num("5"));
    assert ReadPath(Some(Num("5")), []) == Some(Num("5"));
  }

  // ---- the type of a literal --------------------------------------------------------------------

  function TypeOfValue(value: Json): Type {
    match value
    case Null => Unknown
    case Str(s) => String(Some([s]))
    case Num(_) => Number
    case Bool(_) => Boolean
    case Arr(items) =>
      if items == [] then EMPTY_LIST
      else List(Widen(seq(|items|, i requires 0 <= i < |items| => TypeOfValue(items[i]))), None, false)
    case Obj(fields) => Object(map name | name in fields :: Field(TypeOfValue(fields[name]), true), None)
  }

  predicate IsEmptyList(ty: Type) {
    ty.List? && ty.empty
  }

  predicate SameKind(a: Type, b: Type) {
    || (a.String? && b.String?) || (a.Number? && b.Number?) || (a.Boolean? && b.Boolean?) || (a.Blob? && b.Blob?)
    || (a.Unknown? && b.Unknown?) || (a.List? && b.List?) || (a.Object? && b.Object?) || (a.Var? && b.Var?)
    || (a.Reference? && b.Reference?)
  }

  /** The first member that is not an empty list's type, else the first. */
  function FirstTelling(types: seq<Type>): (ty: Type)
    requires types != []
    ensures ty in types
    ensures IsEmptyList(ty) ==> ty == types[0] && forall i :: 0 <= i < |types| ==> IsEmptyList(types[i])
  {
    if !IsEmptyList(types[0]) || |types| == 1 then types[0]
    else
      var rest := FirstTelling(types[1..]);
      assert forall i :: 1 <= i < |types| ==> types[i] == types[1..][i - 1];
      if IsEmptyList(rest) then types[0] else rest
  }

  function Widen(types: seq<Type>): Type
    requires types != []
  {
    var first := FirstTelling(types);
    if exists i :: 0 <= i < |types| && !SameKind(types[i], first) then Unknown
    else if first.String? then STRING
    else first
  }

  /** Every list of the literal holds members that its item type takes. */
  predicate Uniform(value: Json) {
    match value
    case Arr(items) =>
      forall i :: 0 <= i < |items| ==>
        Uniform(items[i]) && Assignable(TypeOfValue(items[i]), TypeOfValue(value).of)
    case Obj(fields) => forall name :: name in fields ==> Uniform(fields[name])
    case _ => true
  }

  /** A literal's own type is judged: it names no variable. */
  lemma {:induction false} LiteralIsJudged(value: Json)
    ensures Judged(TypeOfValue(value)) && Telling(TypeOfValue(value))
  {
    match value
    case Arr(items) =>
      if items != [] {
        var types := seq(|items|, i requires 0 <= i < |items| => TypeOfValue(items[i]));
        forall i | 0 <= i < |items| ensures Judged(types[i]) && Telling(types[i]) {
          LiteralIsJudged(items[i]);
        }
        assert FirstTelling(types) in types;
      }
    case Obj(fields) =>
      forall name | name in fields ensures Judged(TypeOfValue(fields[name])) && Telling(TypeOfValue(fields[name])) {
        LiteralIsJudged(fields[name]);
      }
    case _ =>
  }

  /** A literal of uniform lists is a value of the type it is told to have. */
  lemma {:induction false} LiteralIsTyped(value: Json, handles: bool)
    requires Uniform(value)
    ensures Inhabits(value, TypeOfValue(value), handles)
  {
    match value
    case Arr(items) =>
      LiteralIsJudged(value);
      forall i | 0 <= i < |items| ensures Inhabits(items[i], TypeOfValue(value).of, handles) {
        LiteralIsTyped(items[i], handles);
        LiteralIsJudged(items[i]);
        AssignableIsSound(items[i], TypeOfValue(items[i]), TypeOfValue(value).of, handles);
      }
    case Obj(fields) =>
      forall name | name in fields ensures Inhabits(fields[name], TypeOfValue(fields[name]), handles) {
        LiteralIsTyped(fields[name], handles);
      }
    case _ =>
  }

  /** No blob and no list straight of an enum: a literal's type widens its members' strings, and never is a blob. */
  predicate Telling(ty: Type) {
    match ty
    case Blob => false
    case List(of, _, _) => (of.String? ==> of.allowed.None?) && Telling(of)
    case Object(fields, open) =>
      (forall name :: name in fields ==> Telling(fields[name].ty)) && (open.Some? ==> Telling(open.value))
    case _ => true
  }

  /** Where every member's type fits, so does the type the list of them widens to. */
  lemma WidenFits(types: seq<Type>, to: Type)
    requires types != [] && (to.String? ==> to.allowed.None?) && Judged(to)
    requires forall i :: 0 <= i < |types| ==> Judged(types[i]) && Assignable(types[i], to)
    ensures Assignable(Widen(types), to)
  {
    var first := FirstTelling(types);
    if i :| 0 <= i < |types| && !SameKind(types[i], first) {
      var j :| 0 <= j < |types| && types[j] == first;
      assert Assignable(types[i], to) && Assignable(types[j], to);
      assert to.Unknown?;
    }
  }

  /**
   * A literal's type is principal: a literal of uniform lists is a value of a type exactly when the type it is told
   * to have feeds that type.
   */
  lemma {:induction false} LiteralIsPrincipal(value: Json, ty: Type, handles: bool)
    requires Uniform(value) && Judged(ty) && Telling(ty)
    ensures Inhabits(value, ty, handles) <==> Assignable(TypeOfValue(value), ty)
    decreases value
  {
    LiteralIsJudged(value);
    if Assignable(TypeOfValue(value), ty) {
      LiteralIsTyped(value, handles);
      AssignableIsSound(value, TypeOfValue(value), ty, handles);
    } else if Inhabits(value, ty, handles) {
      match value
      case Arr(items) =>
        if items != [] {
          var types := seq(|items|, i requires 0 <= i < |items| => TypeOfValue(items[i]));
          if ty.List? {
            forall i | 0 <= i < |items| ensures Judged(types[i]) && Assignable(types[i], ty.of) {
              LiteralIsPrincipal(items[i], ty.of, handles);
              LiteralIsJudged(items[i]);
            }
            WidenFits(types, ty.of);
          }
        }
      case Obj(fields) =>
        if ty.Object? {
          var told := TypeOfValue(value);
          forall name | name in fields && (name in ty.fields || ty.open.Some?)
            ensures Assignable(TypeOfValue(fields[name]), PartOf(ty, name))
          {
            LiteralIsPrincipal(fields[name], PartOf(ty, name), handles);
          }
          forall name | name in ty.fields ensures FieldFits(told, ty, name, false) {
          }
          assert ty.open.Some? && !ty.open.value.Unknown? ==> ExtrasFit(told, ty);
        }
      case _ =>
    }
  }

  /** A list whose members are uniform is a value of the type it is told to have exactly when it is uniform itself. */
  lemma UniformIsExact(items: seq<Json>, handles: bool)
    requires forall i :: 0 <= i < |items| ==> Uniform(items[i])
    ensures Inhabits(Arr(items), TypeOfValue(Arr(items)), handles) <==> Uniform(Arr(items))
  {
    if Uniform(Arr(items)) {
      LiteralIsTyped(Arr(items), handles);
    } else {
      var ty := TypeOfValue(Arr(items));
      LiteralIsJudged(Arr(items));
      forall i | 0 <= i < |items|
        ensures Inhabits(items[i], ty.of, handles) <==> Assignable(TypeOfValue(items[i]), ty.of)
      {
        LiteralIsPrincipal(items[i], ty.of, handles);
      }
    }
  }

  /** A list of two unlike objects is not a value of the type it is told to have: the first member sets it. */
  lemma MixedObjectsAreMistyped()
    ensures
      var mixed := Arr([Obj(map["a" := Num("1")]), Obj(map["b" := Num("2")])]);
      !Conforms(mixed, TypeOfValue(mixed))
  {
    var mixed := Arr([Obj(map["a" := Num("1")]), Obj(map["b" := Num("2")])]);
    var types := seq(2, i requires 0 <= i < 2 => TypeOfValue(mixed.items[i]));
    assert forall i :: 0 <= i < 2 ==> types[i].Object?;
    assert TypeOfValue(mixed).of == types[0];
    assert "a" in types[0].fields && types[0].fields["a"].required;
    assert !Conforms(mixed.items[1], types[0]);
  }
}
