/** Authored values: how one is typed where it is written, how it lowers to a kernel source, and that both agree. */
module Lowering {
  import opened Json
  import opened Sources
  import opened Types
  import opened Assign
  import opened ValueTypes

  /** A value as a document writes it, its templates parsed. `Whole` is a text that is one template and nothing else. */
  datatype Doc =
    | DNull
    | DBool(b: bool)
    | DNum(text: string)
    | Plain(text: string)
    | Whole(root: string, path: Path)
    | Joined(parts: seq<Part>)
    | DList(members: seq<Doc>)
    | DObject(fields: map<string, Doc>)

  /** A piece of text with templates in it: literal text, or a template with the text that spells it. */
  datatype Part = Literal(text: string) | Template(root: string, path: Path, spelled: string)

  // ---- cutting a text at its templates ----------------------------------------------------------

  /** One template found in a text: where its spelling starts and ends, and what it reads. */
  datatype Match = Match(start: nat, end: nat, root: string, path: Path)

  /** The matches of one text: each inside it, none overlapping, in order from `last` on. */
  predicate Ordered(text: string, matches: seq<Match>, last: nat)
    decreases |matches|
  {
    matches == [] ||
    (last <= matches[0].start < matches[0].end <= |text| && Ordered(text, matches[1..], matches[0].end))
  }

  /** The text from `last` on, cut into the pieces between the templates and the templates. */
  function Cut(text: string, matches: seq<Match>, last: nat): seq<Part>
    requires last <= |text| && Ordered(text, matches, last)
    decreases |matches|
  {
    if matches == [] then
      if last < |text| then [Literal(text[last..])] else []
    else
      var m := matches[0];
      (if m.start > last then [Literal(text[last..m.start])] else [])
      + [Template(m.root, m.path, text[m.start..m.end])]
      + Cut(text, matches[1..], m.end)
  }

  function Spell(parts: seq<Part>): string {
    if parts == [] then ""
    else (if parts[0].Literal? then parts[0].text else parts[0].spelled) + Spell(parts[1..])
  }

  function TemplatesOf(parts: seq<Part>): seq<(string, Path)> {
    if parts == [] then []
    else (if parts[0].Template? then [(parts[0].root, parts[0].path)] else []) + TemplatesOf(parts[1..])
  }

  lemma {:induction false} SpellConcat(a: seq<Part>, b: seq<Part>)
    ensures Spell(a + b) == Spell(a) + Spell(b)
    ensures TemplatesOf(a + b) == TemplatesOf(a) + TemplatesOf(b)
  {
    if a == [] {
      assert a + b == b;
    } else {
      assert (a + b)[0] == a[0] && (a + b)[1..] == a[1..] + b;
      SpellConcat(a[1..], b);
      Associates(if a[0].Literal? then a[0].text else a[0].spelled, Spell(a[1..]), Spell(b));
      Associates(if a[0].Template? then [(a[0].root, a[0].path)] else [], TemplatesOf(a[1..]), TemplatesOf(b));
    }
  }

  lemma SpellOne(part: Part)
    ensures Spell([part]) == if part.Literal? then part.text else part.spelled
    ensures TemplatesOf([part]) == if part.Template? then [(part.root, part.path)] else []
  {
    assert [part][1..] == [];
  }

  function ReadsOf(matches: seq<Match>): seq<(string, Path)> {
    if matches == [] then [] else [(matches[0].root, matches[0].path)] + ReadsOf(matches[1..])
  }

  /** A cut loses nothing: spelled out again it is the text. */
  lemma {:induction false} CutIsWhole(text: string, matches: seq<Match>, last: nat)
    requires last <= |text| && Ordered(text, matches, last)
    ensures Spell(Cut(text, matches, last)) == text[last..]
    decreases |matches|
  {
    if matches == [] {
      SpellOne(Literal(text[last..]));
    } else {
      var m := matches[0];
      var before := if m.start > last then [Literal(text[last..m.start])] else [];
      var middle := Template(m.root, m.path, text[m.start..m.end]);
      CutIsWhole(text, matches[1..], m.end);
      SpellConcat(before + [middle], Cut(text, matches[1..], m.end));
      SpellConcat(before, [middle]);
      SpellOne(Literal(text[last..m.start]));
      SpellOne(middle);
      Slices(text, last, m.start, m.end);
    }
  }

  lemma Slices(text: string, a: nat, b: nat, c: nat)
    requires a <= b <= c <= |text|
    ensures text[a..b] + text[b..c] + text[c..] == text[a..]
  {
  }

  /** A cut's templates are the matches, in order. */
  lemma {:induction false} CutKeepsTemplates(text: string, matches: seq<Match>, last: nat)
    requires last <= |text| && Ordered(text, matches, last)
    ensures TemplatesOf(Cut(text, matches, last)) == ReadsOf(matches)
    decreases |matches|
  {
    hide Spell;
    if matches == [] {
      SpellOne(Literal(text[last..]));
    } else {
      var m := matches[0];
      var before := if m.start > last then [Literal(text[last..m.start])] else [];
      var middle := Template(m.root, m.path, text[m.start..m.end]);
      var rest := Cut(text, matches[1..], m.end);
      CutKeepsTemplates(text, matches[1..], m.end);
      SpellConcat(before + [middle], rest);
      SpellConcat(before, [middle]);
      SpellOne(Literal(text[last..m.start]));
      SpellOne(middle);
      assert Cut(text, matches, last) == before + [middle] + rest;
      assert TemplatesOf(before) == [];
    }
  }

  // ---- lowering ---------------------------------------------------------------------------------

  /** The roots a value may read where it is written, and how each lowers. */
  datatype Roots = Roots(
    resolvers: map<string, Path>,
    consts: Option<map<string, Json>>,
    context: bool,
    nodes: bool,
    aliases: map<string, string>)

  function Aliased(named: string, roots: Roots): string {
    if named in roots.aliases then roots.aliases[named] else named
  }

  /** One template as a source; nothing where lowering throws. */
  function LowerRef(named: string, path: Path, roots: Roots): Option<Source> {
    if named in roots.resolvers then Some(Ref("context", roots.resolvers[named] + path))
    else if named == "in" then Some(Ref(Aliased(named, roots), path))
    else if named == "const" && roots.consts.Some? then
      Some(Value(if path == [] then None else ReadPath(Lookup(roots.consts.value, path[0]), path[1..])))
    else if named == "context" && roots.context then Some(Ref(Aliased(named, roots), path))
    else if roots.nodes then Some(Ref(Aliased(named, roots), path))
    else None
  }

  function LowerPart(part: Part, roots: Roots): Option<Piece> {
    match part
    case Literal(text) => Some(Text(text))
    case Template(root, path, _) =>
      var source := LowerRef(root, path, roots);
      if source.Some? then Some(Hole(source.value)) else None
  }

  function LowerParts(parts: seq<Part>, roots: Roots): Option<seq<Piece>> {
    if parts == [] then Some([])
    else
      var first := LowerPart(parts[0], roots);
      var rest := LowerParts(parts[1..], roots);
      if first.Some? && rest.Some? then Some([first.value] + rest.value) else None
  }

  lemma {:induction false} LowerPartsConcat(a: seq<Part>, b: seq<Part>, roots: Roots)
    ensures LowerParts(a + b, roots) ==
      if LowerParts(a, roots).Some? && LowerParts(b, roots).Some?
      then Some(LowerParts(a, roots).value + LowerParts(b, roots).value) else None
  {
    if a == [] {
      assert a + b == b;
      assert LowerParts(b, roots).Some? ==> [] + LowerParts(b, roots).value == LowerParts(b, roots).value;
    } else {
      assert (a + b)[0] == a[0] && (a + b)[1..] == a[1..] + b;
      LowerPartsConcat(a[1..], b, roots);
      var first, rest := LowerPart(a[0], roots), LowerParts(a[1..], roots);
      if first.Some? && rest.Some? && LowerParts(b, roots).Some? {
        assert [first.value] + rest.value + LowerParts(b, roots).value
            == [first.value] + (rest.value + LowerParts(b, roots).value);
      }
    }
  }

  /** Lowering what is left, after the pieces already built. */
  function Then(built: seq<Piece>, rest: Option<seq<Piece>>): Option<seq<Piece>> {
    if rest.Some? then Some(built + rest.value) else None
  }

  lemma ThenIsMonoid(a: seq<Piece>, b: seq<Piece>, rest: Option<seq<Piece>>)
    ensures Then(a, Then(b, rest)) == Then(a + b, rest) && Then([], rest) == rest
  {
    if rest.Some? {
      assert a + (b + rest.value) == a + b + rest.value && [] + rest.value == rest.value;
    }
  }

  /** The piece of text before the first match, then the match, then the rest: as the loop takes them. */
  lemma LowerCutStep(text: string, matches: seq<Match>, last: nat, roots: Roots)
    requires last <= |text| && Ordered(text, matches, last) && matches != []
    ensures
      var m := matches[0];
      var before := if m.start > last then [Text(text[last..m.start])] else [];
      LowerParts(Cut(text, matches, last), roots) ==
      if LowerRef(m.root, m.path, roots).None? then None
      else Then(before + [Hole(LowerRef(m.root, m.path, roots).value)],
                LowerParts(Cut(text, matches[1..], m.end), roots))
  {
    var m := matches[0];
    var before := if m.start > last then [Literal(text[last..m.start])] else [];
    var lowered := if m.start > last then [Text(text[last..m.start])] else [];
    var middle := Template(m.root, m.path, text[m.start..m.end]);
    var rest := Cut(text, matches[1..], m.end);
    assert Cut(text, matches, last) == before + ([middle] + rest);
    LowerLiteral(text[last..m.start], roots);
    assert LowerParts(before, roots) == Some(lowered);
    LowerPartsConcat(before, [middle] + rest, roots);
    assert LowerParts([middle] + rest, roots) ==
          if LowerRef(middle.root, middle.path, roots).None? then None
          else Then([Hole(LowerRef(middle.root, middle.path, roots).value)], LowerParts(rest, roots)) by {
      assert ([middle] + rest)[1..] == rest;
    }
    if LowerRef(m.root, m.path, roots).Some? {
      ThenIsMonoid(lowered, [Hole(LowerRef(m.root, m.path, roots).value)], LowerParts(rest, roots));
    }
  }

  lemma LowerLiteral(text: string, roots: Roots)
    ensures LowerParts([Literal(text)], roots) == Some([Text(text)])
  {
    assert [Literal(text)][1..] == [];
    assert LowerParts([], roots) == Some([]) && [Text(text)] + [] == [Text(text)];
  }

  /** The loop that cuts a text at its matches, lowering each template as it meets it. */
  method LowerText(text: string, matches: seq<Match>, roots: Roots) returns (pieces: Option<seq<Piece>>)
    requires Ordered(text, matches, 0)
    ensures pieces == LowerParts(Cut(text, matches, 0), roots)
  {
    var built: seq<Piece> := [];
    var last: nat := 0;
    assert matches[0..] == matches;
    ThenIsMonoid([], [], LowerParts(Cut(text, matches, 0), roots));
    for i := 0 to |matches|
      invariant last <= |text| && Ordered(text, matches[i..], last)
      invariant LowerParts(Cut(text, matches, 0), roots) == Then(built, LowerParts(Cut(text, matches[i..], last), roots))
    {
      var m := matches[i];
      assert matches[i..][0] == m && matches[i..][1..] == matches[i + 1..];
      LowerCutStep(text, matches[i..], last, roots);
      ghost var before := built;
      if m.start > last {
        built := built + [Text(text[last..m.start])];
      }
      var source := LowerRef(m.root, m.path, roots);
      if source.None? {
        return None;
      }
      ghost var step := (if m.start > last then [Text(text[last..m.start])] else []) + [Hole(source.value)];
      built := built + [Hole(source.value)];
      assert built == before + step;
      ThenIsMonoid(before, step, LowerParts(Cut(text, matches[i + 1..], m.end), roots));
      last := m.end;
    }
    assert matches[|matches|..] == [] && built + [] == built;
    if last < |text| {
      LowerLiteral(text[last..], roots);
      built := built + [Text(text[last..])];
    }
    pieces := Some(built);
  }

  /** One value as a source. */
  function LowerValue(doc: Doc, roots: Roots): Option<Source> {
    match doc
    case DNull => Some(Value(Some(Null)))
    case DBool(b) => Some(Value(Some(Bool(b))))
    case DNum(text) => Some(Value(Some(Num(text))))
    case Plain(text) => Some(Value(Some(Str(text))))
    case Whole(root, path) => LowerRef(root, path, roots)
    case Joined(parts) =>
      var pieces := LowerParts(parts, roots);
      if pieces.Some? then Some(Concat(pieces.value)) else None
    case DList(members) =>
      if forall i :: 0 <= i < |members| ==> LowerValue(members[i], roots).Some? then
        Some(Sources.List(seq(|members|, i requires 0 <= i < |members| && LowerValue(members[i], roots).Some? =>
          LowerValue(members[i], roots).value)))
      else None
    case DObject(fields) =>
      if forall name :: name in fields ==> LowerValue(fields[name], roots).Some? then
        Some(Sources.Object(map name | name in fields && LowerValue(fields[name], roots).Some? ::
          LowerValue(fields[name], roots).value))
      else None
  }

  // ---- typing -----------------------------------------------------------------------------------

  /** What a root read at a path is typed as where a value is written; nothing where it cannot be read. */
  type Resolve = (string, Path) -> Option<Read>

  predicate IsScalar(ty: Type) {
    ty.String? || ty.Number? || ty.Boolean? || ty.Unknown?
  }

  /** Text with templates: every read a scalar; may be missing where any read may. */
  function TextRead(parts: seq<Part>, resolve: Resolve): Option<Read> {
    if parts == [] then Some(Read(STRING, false))
    else
      var rest := TextRead(parts[1..], resolve);
      match parts[0]
      case Literal(_) => rest
      case Template(root, path, _) =>
        var read := resolve(root, path);
        if read.None? || !IsScalar(read.value.ty) || rest.None? then None
        else Some(Read(STRING, read.value.optional || rest.value.optional))
  }

  /** The type of a value; nothing where it cannot be typed. */
  function ValueRead(doc: Doc, resolve: Resolve): Option<Read> {
    match doc
    case DNull => Some(Read(TypeOfValue(Null), false))
    case DBool(b) => Some(Read(TypeOfValue(Bool(b)), false))
    case DNum(text) => Some(Read(TypeOfValue(Num(text)), false))
    case Plain(text) => Some(Read(TypeOfValue(Str(text)), false))
    case Whole(root, path) => resolve(root, path)
    case Joined(parts) => TextRead(parts, resolve)
    case DList(members) =>
      if members == [] then Some(Read(EMPTY_LIST, false))
      else if forall i :: 0 <= i < |members| ==> ValueRead(members[i], resolve).Some? then
        Some(Read(Types.List(FirstTelling(MemberTypes(members, resolve)), None, false), false))
      else None
    case DObject(fields) =>
      if forall name :: name in fields ==> ValueRead(fields[name], resolve).Some? then
        Some(Read(Types.Object(map name | name in fields && ValueRead(fields[name], resolve).Some? ::
          Field(ValueRead(fields[name], resolve).value.ty, !ValueRead(fields[name], resolve).value.optional), None), false))
      else None
  }

  function MemberTypes(members: seq<Doc>, resolve: Resolve): seq<Type>
    requires forall i :: 0 <= i < |members| ==> ValueRead(members[i], resolve).Some?
  {
    seq(|members|, i requires 0 <= i < |members| && ValueRead(members[i], resolve).Some? =>
      ValueRead(members[i], resolve).value.ty)
  }

  // ---- the loops that type ----------------------------------------------------------------------

  /** The loop over a text's templates, which stops at the first that cannot be read into text. */
  method TypeText(parts: seq<Part>, resolve: Resolve) returns (read: Option<Read>)
    ensures read == TextRead(parts, resolve)
  {
    var optional := false;
    TextIsText(parts, resolve);
    for i := 0 to |parts|
      invariant TextRead(parts, resolve) == Besides(optional, TextRead(parts[i..], resolve))
    {
      assert parts[i..][0] == parts[i] && parts[i..][1..] == parts[i + 1..];
      if parts[i].Template? {
        var at := resolve(parts[i].root, parts[i].path);
        if at.None? || !IsScalar(at.value.ty) {
          return None;
        }
        optional := optional || at.value.optional;
      }
    }
    return Some(Read(STRING, optional));
  }

  lemma {:induction false} TextIsText(parts: seq<Part>, resolve: Resolve)
    ensures TextRead(parts, resolve).Some? ==> TextRead(parts, resolve).value.ty == STRING
  {
    if parts != [] {
      TextIsText(parts[1..], resolve);
    }
  }

  /** What is left of a text typed, beside what was typed before it. */
  function Besides(optional: bool, rest: Option<Read>): Option<Read> {
    if rest.None? then None else Some(Read(STRING, optional || rest.value.optional))
  }

  /** A list types by its members, each of which must type. */
  method TypeList(doc: Doc, resolve: Resolve) returns (read: Option<Read>)
    requires doc.DList?
    ensures read == ValueRead(doc, resolve)
    decreases doc, 0
  {
    var members := doc.members;
    if members == [] {
      return Some(Read(EMPTY_LIST, false));
    }
    var types: seq<Type> := [];
    for i := 0 to |members|
      invariant |types| == i
      invariant forall j :: 0 <= j < i ==>
        ValueRead(members[j], resolve).Some? && types[j] == ValueRead(members[j], resolve).value.ty
    {
      var one := TypeValue(members[i], resolve);
      if one.None? {
        return None;
      }
      types := types + [one.value.ty];
    }
    assert types == MemberTypes(members, resolve);
    return Some(Read(Types.List(FirstTelling(types), None, false), false));
  }

  /** The fields some of an object's members type as. */
  function TypedAmong(fields: map<string, Doc>, resolve: Resolve, names: set<string>): map<string, Field> {
    map name | name in names && name in fields && ValueRead(fields[name], resolve).Some? ::
      Field(ValueRead(fields[name], resolve).value.ty, !ValueRead(fields[name], resolve).value.optional)
  }

  lemma TypedMore(fields: map<string, Doc>, resolve: Resolve, names: set<string>, name: string)
    requires name in fields && ValueRead(fields[name], resolve).Some?
    ensures var read := ValueRead(fields[name], resolve).value;
      TypedAmong(fields, resolve, names + {name}) ==
        TypedAmong(fields, resolve, names)[name := Field(read.ty, !read.optional)]
    ensures TypedAmong(fields, resolve, {}) == map[]
  {
    hide ValueRead;
  }

  lemma TypedAll(fields: map<string, Doc>, resolve: Resolve)
    ensures TypedAmong(fields, resolve, {}) == map[]
    ensures ValueRead(DObject(fields), resolve) ==
      if forall name :: name in fields ==> ValueRead(fields[name], resolve).Some?
      then Some(Read(Types.Object(TypedAmong(fields, resolve, fields.Keys), None), false)) else None
  {
    assert forall name :: name in fields <==> name in fields.Keys;
    if forall name :: name in fields ==> ValueRead(fields[name], resolve).Some? {
      assert ValueRead(DObject(fields), resolve).value.ty.fields == TypedAmong(fields, resolve, fields.Keys);
    }
  }

  /** An object types field by field; a member that may be missing is an optional field. */
  method TypeObject(doc: Doc, resolve: Resolve) returns (read: Option<Read>)
    requires doc.DObject?
    ensures read == ValueRead(doc, resolve)
    decreases doc, 0
  {
    hide ValueRead, TypedAmong;
    var fields := doc.fields;
    TypedAll(fields, resolve);
    var typed: map<string, Field> := map[];
    var done, left := {}, fields.Keys;
    while left != {}
      invariant left !! done && left + done == fields.Keys
      invariant forall name :: name in done ==> ValueRead(fields[name], resolve).Some?
      invariant typed == TypedAmong(fields, resolve, done)
      decreases |left|
    {
      var name :| name in left;
      var one := TypeValue(fields[name], resolve);
      if one.None? {
        return None;
      }
      TypedMore(fields, resolve, done, name);
      typed := typed[name := Field(one.value.ty, !one.value.optional)];
      done, left := done + {name}, left - {name};
    }
    assert done == fields.Keys;
    return Some(Read(Types.Object(typed, None), false));
  }

  /** A value by what it is: a literal, a template, text, a list or an object. */
  method TypeValue(doc: Doc, resolve: Resolve) returns (read: Option<Read>)
    ensures read == ValueRead(doc, resolve)
    decreases doc, 1
  {
    match doc
    case DNull => return Some(Read(TypeOfValue(Null), false));
    case DBool(b) => return Some(Read(TypeOfValue(Bool(b)), false));
    case DNum(text) => return Some(Read(TypeOfValue(Num(text)), false));
    case Plain(text) => return Some(Read(TypeOfValue(Str(text)), false));
    case Whole(root, path) => return resolve(root, path);
    case Joined(parts) => read := TypeText(parts, resolve);
    case DList(_) => read := TypeList(doc, resolve);
    case DObject(_) => read := TypeObject(doc, resolve);
  }

  /** Every list of the value holds members that the member type it is given takes. */
  predicate MembersFit(doc: Doc, resolve: Resolve) {
    match doc
    case DList(members) =>
      forall i :: 0 <= i < |members| ==>
        MembersFit(members[i], resolve) &&
        (ValueRead(doc, resolve).Some? ==>
          Judged(ValueRead(doc, resolve).value.ty.of) &&
          ValueRead(members[i], resolve).Some? && Judged(ValueRead(members[i], resolve).value.ty) &&
          Assignable(ValueRead(members[i], resolve).value.ty, ValueRead(doc, resolve).value.ty.of))
    case DObject(fields) => forall name :: name in fields ==> MembersFit(fields[name], resolve)
    case _ => true
  }

  /** Whatever is typed at a root lowers, and the source it lowers to yields what it is typed as. */
  ghost predicate ResolveHolds(resolve: Resolve, roots: Roots, values: Values) {
    forall root, path :: resolve(root, path).Some? ==>
      LowerRef(root, path, roots).Some? &&
      Answers(ReadSource(LowerRef(root, path, roots).value, values), resolve(root, path).value, true)
  }

  lemma {:induction false} TypedTextLowers(parts: seq<Part>, resolve: Resolve, roots: Roots, values: Values)
    requires ResolveHolds(resolve, roots, values) && TextRead(parts, resolve).Some?
    ensures LowerParts(parts, roots).Some? && TextRead(parts, resolve).value.ty == STRING
  {
    if parts != [] {
      TypedTextLowers(parts[1..], resolve, roots, values);
    }
  }

  /**
   * Typing survives lowering: where the roots hold values of their types, an authored value typed as T lowers, and
   * the source it lowers to yields a value of T, and yields nothing only where the read may be missing.
   */
  lemma {:induction false} TypingSurvivesLowering(doc: Doc, resolve: Resolve, roots: Roots, values: Values)
    requires ResolveHolds(resolve, roots, values)
    requires ValueRead(doc, resolve).Some? && MembersFit(doc, resolve)
    ensures LowerValue(doc, roots).Some?
    ensures Answers(ReadSource(LowerValue(doc, roots).value, values), ValueRead(doc, resolve).value, true)
  {
    match doc
    case Joined(parts) => TypedTextLowers(parts, resolve, roots, values);
    case DList(members) =>
      forall i | 0 <= i < |members|
        ensures Survives(members[i], resolve, roots, values)
      {
        TypingSurvivesLowering(members[i], resolve, roots, values);
      }
      ListSurvives(members, resolve, roots, values);
    case DObject(fields) =>
      forall name | name in fields
        ensures Survives(fields[name], resolve, roots, values)
      {
        TypingSurvivesLowering(fields[name], resolve, roots, values);
      }
      ObjectSurvives(fields, resolve, roots, values);
    case _ =>
  }

  ghost predicate Survives(doc: Doc, resolve: Resolve, roots: Roots, values: Values)
    requires ValueRead(doc, resolve).Some?
  {
    LowerValue(doc, roots).Some? &&
    Answers(ReadSource(LowerValue(doc, roots).value, values), ValueRead(doc, resolve).value, true)
  }

  lemma ListSurvives(members: seq<Doc>, resolve: Resolve, roots: Roots, values: Values)
    requires ValueRead(DList(members), resolve).Some? && MembersFit(DList(members), resolve)
    requires forall i :: 0 <= i < |members| ==> ValueRead(members[i], resolve).Some?
    requires forall i :: 0 <= i < |members| ==> Survives(members[i], resolve, roots, values)
    ensures Survives(DList(members), resolve, roots, values)
  {
    var source := LowerValue(DList(members), roots).value;
    ListIsTyped(source.parts, members, ValueRead(DList(members), resolve).value.ty.of, resolve, values);
  }

  lemma ObjectSurvives(fields: map<string, Doc>, resolve: Resolve, roots: Roots, values: Values)
    requires ValueRead(DObject(fields), resolve).Some?
    requires forall name :: name in fields ==> ValueRead(fields[name], resolve).Some?
    requires forall name :: name in fields ==> Survives(fields[name], resolve, roots, values)
    ensures Survives(DObject(fields), resolve, roots, values)
  {
    hide Inhabits, Conforms;
    var source := LowerValue(DObject(fields), roots).value;
    var read := ValueRead(DObject(fields), resolve).value.ty;
    var value := ReadSource(source, values).value;
    assert source.members.Keys == fields.Keys == read.fields.Keys;
    forall name | name in read.fields
      ensures if name in value.fields then Inhabits(value.fields[name], read.fields[name].ty, true)
              else !read.fields[name].required
    {
      assert Survives(fields[name], resolve, roots, values);
    }
    ObjectInhabits(value.fields, read.fields);
  }

  lemma ObjectInhabits(value: map<string, Json>, fields: map<string, Field>)
    requires value.Keys <= fields.Keys
    requires forall name :: name in fields ==>
      if name in value then Inhabits(value[name], fields[name].ty, true) else !fields[name].required
    ensures Inhabits(Obj(value), Types.Object(fields, None), true)
  {
  }

  /** The members a list yields, those that yield nothing left out, are of the type each member feeds. */
  lemma {:induction false} ListIsTyped(
      parts: seq<Source>, members: seq<Doc>, of: Type, resolve: Resolve, values: Values)
    requires |parts| == |members| && (members != [] ==> Judged(of))
    requires forall i :: 0 <= i < |members| ==>
      ValueRead(members[i], resolve).Some? &&
      Judged(ValueRead(members[i], resolve).value.ty) && Assignable(ValueRead(members[i], resolve).value.ty, of) &&
      Answers(ReadSource(parts[i], values), ValueRead(members[i], resolve).value, true)
    ensures forall j :: 0 <= j < |ReadList(parts, values)| ==> Inhabits(ReadList(parts, values)[j], of, true)
    ensures members == [] ==> ReadList(parts, values) == []
  {
    if parts != [] {
      ListIsTyped(parts[1..], members[1..], of, resolve, values);
      var first := ReadSource(parts[0], values);
      if first.Some? {
        AssignableIsSound(first.value, ValueRead(members[0], resolve).value.ty, of, true);
      }
    }
  }

  // ---- the roots a graph reads ------------------------------------------------------------------

  /** What a checker holds of the roots of a graph: its input, its constants, its resolvers and its nodes' answers. */
  datatype RootTypes = RootTypes(
    input: Option<Type>,
    consts: map<string, Type>,
    resolvers: map<string, Read>,
    nodes: map<string, Type>)

  /** A read continued below a typed root: the root's optionality carries into what is read beneath it. */
  function ReadAt(base: Read, path: Path): Option<Read> {
    var read := TypeAt(base.ty, path);
    if read.None? then None else Some(Read(read.value.ty, base.optional || read.value.optional))
  }

  function RootRead(types: RootTypes, root: string, path: Path): Option<Read> {
    if root == "in" then
      if types.input.Some? then TypeAt(types.input.value, path) else None
    else if root == "const" then
      if path != [] && path[0] in types.consts then TypeAt(types.consts[path[0]], path[1..]) else None
    else if root == "context" then None
    else if root in types.resolvers then ReadAt(types.resolvers[root], path)
    else if root in types.nodes then TypeAt(types.nodes[root], path)
    else None
  }

  function GraphResolve(types: RootTypes): Resolve {
    (root, path) => RootRead(types, root, path)
  }

  ghost predicate HoldsAt(values: Values, root: string, ty: Type) {
    root in values && Inhabits(values[root], ty, true)
  }

  /** The roots hold values of their types, and no resolver takes the name of another root. */
  ghost predicate RootsHold(types: RootTypes, roots: Roots, values: Values) {
    (types.input.Some? ==> HoldsAt(values, Aliased("in", roots), types.input.value)) &&
    (forall name :: name in types.consts ==>
      roots.consts.Some? && HoldsAt(roots.consts.value, name, types.consts[name])) &&
    roots.resolvers.Keys == types.resolvers.Keys &&
    roots.resolvers.Keys !! {"in", "const", "context"} &&
    (forall name :: name in types.resolvers ==>
      Answers(ReadPath(Lookup(values, "context"), roots.resolvers[name]), types.resolvers[name], true)) &&
    (forall name :: name in types.nodes ==> roots.nodes && HoldsAt(values, Aliased(name, roots), types.nodes[name]))
  }

  lemma RootReadHolds(types: RootTypes, roots: Roots, values: Values)
    requires RootsHold(types, roots, values)
    ensures ResolveHolds(GraphResolve(types), roots, values)
  {
    forall root, path | RootRead(types, root, path).Some?
      ensures LowerRef(root, path, roots).Some?
      ensures Answers(ReadSource(LowerRef(root, path, roots).value, values), RootRead(types, root, path).value, true)
    {
      if root == "in" {
        ReadPathIsTyped(values[Aliased("in", roots)], types.input.value, path);
      } else if root == "const" {
        ReadPathIsTyped(roots.consts.value[path[0]], types.consts[path[0]], path[1..]);
      } else if root in types.resolvers {
        ResolverReadHolds(types.resolvers[root], roots.resolvers[root], path, values);
      } else {
        ReadPathIsTyped(values[Aliased(root, roots)], types.nodes[root], path);
      }
    }
  }

  lemma ResolverReadHolds(base: Read, at: Path, path: Path, values: Values)
    requires Answers(ReadPath(Lookup(values, "context"), at), base, true) && ReadAt(base, path).Some?
    ensures Answers(ReadSource(Ref("context", at + path), values), ReadAt(base, path).value, true)
  {
    ReadPathConcat(Lookup(values, "context"), at, path);
    var held := ReadPath(Lookup(values, "context"), at);
    if held.Some? {
      ReadPathIsTyped(held.value, base.ty, path);
    } else {
      assert ReadPath(None, path).None?;
    }
  }

  /** The whole of it for a graph: a value its checker types as T runs as a value of T. */
  lemma GraphValuesAreTyped(doc: Doc, types: RootTypes, roots: Roots, values: Values)
    requires RootsHold(types, roots, values)
    requires ValueRead(doc, GraphResolve(types)).Some?
    requires MembersFit(doc, GraphResolve(types))
    ensures LowerValue(doc, roots).Some?
    ensures
      Answers(ReadSource(LowerValue(doc, roots).value, values),
              ValueRead(doc, GraphResolve(types)).value, true)
  {
    RootReadHolds(types, roots, values);
    TypingSurvivesLowering(doc, GraphResolve(types), roots, values);
  }
}
