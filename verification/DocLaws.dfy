/** What an authored value means where it is written, and that lowering it keeps that meaning. */
module DocLaws {
  import opened Json
  import opened Sources
  import opened ReadLaws
  import opened Types
  import opened Assign
  import opened ValueTypes
  import opened Lowering
  import opened TypeLaws

  // ---- what a document means --------------------------------------------------------------------

  /** A root that may be read where the value is written. */
  predicate Readable(root: string, roots: Roots) {
    root in roots.resolvers || root == "in" || (root == "const" && roots.consts.Some?) ||
    (root == "context" && roots.context) || roots.nodes
  }

  /**
   * What a template reads: a resolver's name, below what the resolver reads of the context; a constant, what is baked for
   * it; and any other name, below the root of that name or the one it is renamed to.
   */
  function Told(root: string, path: Path, roots: Roots, values: Values): Option<Json> {
    if root in roots.resolvers then ReadPath(ReadPath(Lookup(values, "context"), roots.resolvers[root]), path)
    else if root == "const" && roots.consts.Some? then
      if path == [] then None else ReadPath(Lookup(roots.consts.value, path[0]), path[1..])
    else ReadPath(Lookup(values, if root in roots.aliases then roots.aliases[root] else root), path)
  }

  /** A value as text put into text: nothing where it is missing or null. */
  function Spoken(value: Option<Json>): string {
    if value.None? || value.value.Null? then "" else TextOf(value.value)
  }

  /** Text with templates in it, each replaced by what it reads. */
  function SpokenParts(parts: seq<Part>, roots: Roots, values: Values): string {
    if parts == [] then ""
    else
      (match parts[0]
       case Literal(text) => text
       case Template(root, path, _) => Spoken(Told(root, path, roots, values))) +
      SpokenParts(parts[1..], roots, values)
  }

  /** What a document means over the values there are, without lowering it: a literal is itself. */
  function Meant(doc: Doc, roots: Roots, values: Values): Option<Json>
    decreases doc, 1
  {
    match doc
    case DNull => Some(Null)
    case DBool(b) => Some(Bool(b))
    case DNum(text) => Some(Num(text))
    case Plain(text) => Some(Str(text))
    case Whole(root, path) => Told(root, path, roots, values)
    case Joined(parts) => Some(Str(SpokenParts(parts, roots, values)))
    case DList(members) => Some(Arr(MeantEach(members, roots, values)))
    case DObject(fields) => Some(Obj(
      map name | name in fields && Meant(fields[name], roots, values).Some? :: Meant(fields[name], roots, values).value))
  }

  /** The members of a list that mean something. */
  function MeantEach(members: seq<Doc>, roots: Roots, values: Values): seq<Json>
    decreases members, 0
  {
    if members == [] then []
    else
      var first := Meant(members[0], roots, values);
      (if first.Some? then [first.value] else []) + MeantEach(members[1..], roots, values)
  }

  /** Every template of a document is one that may be read. */
  predicate AllReadable(doc: Doc, roots: Roots) {
    match doc
    case Whole(root, _) => Readable(root, roots)
    case Joined(parts) => forall i :: 0 <= i < |parts| && parts[i].Template? ==> Readable(parts[i].root, roots)
    case DList(members) => forall i :: 0 <= i < |members| ==> AllReadable(members[i], roots)
    case DObject(fields) => forall name :: name in fields ==> AllReadable(fields[name], roots)
    case _ => true
  }

  // ---- lowering keeps it ------------------------------------------------------------------------

  /** A template lowers where it may be read, and the source it lowers to yields what it reads. */
  lemma TemplateLowers(root: string, path: Path, roots: Roots, values: Values)
    ensures LowerRef(root, path, roots).Some? <==> Readable(root, roots)
    ensures LowerRef(root, path, roots).Some? ==>
      ReadSource(LowerRef(root, path, roots).value, values) == Told(root, path, roots, values)
  {
    if root in roots.resolvers {
      ReadPathConcat(Lookup(values, "context"), roots.resolvers[root], path);
    }
  }

  lemma {:induction false} PartsLower(parts: seq<Part>, roots: Roots, values: Values)
    ensures LowerParts(parts, roots).Some? <==> forall i :: 0 <= i < |parts| && parts[i].Template? ==> Readable(parts[i].root, roots)
    ensures LowerParts(parts, roots).Some? ==>
      ReadText(LowerParts(parts, roots).value, values) == SpokenParts(parts, roots, values)
  {
    hide Readable, Told, LowerRef;
    if parts != [] {
      PartsLower(parts[1..], roots, values);
      assert forall i :: 0 < i < |parts| ==> parts[i] == parts[1..][i - 1];
      if parts[0].Template? {
        TemplateLowers(parts[0].root, parts[0].path, roots, values);
      }
      if LowerParts(parts, roots).Some? {
        var pieces := LowerParts(parts, roots).value;
        assert pieces[1..] == LowerParts(parts[1..], roots).value;
      }
    }
  }

  /**
   * Lowering preserves meaning: a document lowers if and only if each of its templates may be read where it is written,
   * and the source it lowers to yields, over any values, what the document means.
   */
  lemma {:induction false} LoweringPreserves(doc: Doc, roots: Roots, values: Values)
    ensures LowerValue(doc, roots).Some? <==> AllReadable(doc, roots)
    ensures LowerValue(doc, roots).Some? ==> ReadSource(LowerValue(doc, roots).value, values) == Meant(doc, roots, values)
  {
    match doc
    case Whole(root, path) => TemplateLowers(root, path, roots, values);
    case Joined(parts) => PartsLower(parts, roots, values);
    case DList(members) =>
      forall i | 0 <= i < |members|
        ensures LowerValue(members[i], roots).Some? <==> AllReadable(members[i], roots)
        ensures LowerValue(members[i], roots).Some? ==>
          ReadSource(LowerValue(members[i], roots).value, values) == Meant(members[i], roots, values)
      {
        LoweringPreserves(members[i], roots, values);
      }
      if LowerValue(doc, roots).Some? {
        ListMeans(members, LowerValue(doc, roots).value.parts, roots, values);
      }
    case DObject(fields) =>
      forall name | name in fields
        ensures LowerValue(fields[name], roots).Some? <==> AllReadable(fields[name], roots)
        ensures LowerValue(fields[name], roots).Some? ==>
          ReadSource(LowerValue(fields[name], roots).value, values) == Meant(fields[name], roots, values)
      {
        LoweringPreserves(fields[name], roots, values);
      }
      if LowerValue(doc, roots).Some? {
        assert ReadSource(LowerValue(doc, roots).value, values).value.fields == Meant(doc, roots, values).value.fields;
      }
    case _ =>
  }

  lemma {:induction false} ListMeans(members: seq<Doc>, parts: seq<Source>, roots: Roots, values: Values)
    requires |parts| == |members|
    requires forall i :: 0 <= i < |members| ==> ReadSource(parts[i], values) == Meant(members[i], roots, values)
    ensures ReadList(parts, values) == MeantEach(members, roots, values)
  {
    hide ReadSource, Meant;
    if members != [] {
      ListMeans(members[1..], parts[1..], roots, values);
    }
  }

  // ---- text -------------------------------------------------------------------------------------

  /** A text with the span of each match replaced by what it reads, and everything between left where it stood. */
  function Filled(text: string, matches: seq<Match>, last: nat, roots: Roots, values: Values): string
    requires last <= |text| && Ordered(text, matches, last)
    decreases |matches|
  {
    if matches == [] then text[last..]
    else
      var m := matches[0];
      text[last..m.start] + Spoken(Told(m.root, m.path, roots, values)) + Filled(text, matches[1..], m.end, roots, values)
  }

  lemma SpokenMore(part: Part, rest: seq<Part>, roots: Roots, values: Values)
    ensures SpokenParts([part] + rest, roots, values) ==
      (if part.Literal? then part.text else Spoken(Told(part.root, part.path, roots, values))) + SpokenParts(rest, roots, values)
    ensures SpokenParts([], roots, values) == ""
  {
    hide Told, Spoken;
    assert ([part] + rest)[1..] == rest;
  }

  lemma CutFirst(text: string, matches: seq<Match>, last: nat)
    requires last <= |text| && Ordered(text, matches, last) && matches != []
    ensures var m := matches[0];
      var rest := [Template(m.root, m.path, text[m.start..m.end])] + Cut(text, matches[1..], m.end);
      Cut(text, matches, last) == if m.start > last then [Literal(text[last..m.start])] + rest else rest
  {
  }

  /** The text before the first match, what the match reads as, and the rest: as a cut takes them. */
  lemma CutIsSpoken(text: string, matches: seq<Match>, last: nat, roots: Roots, values: Values)
    requires last <= |text| && Ordered(text, matches, last) && matches != []
    ensures var m := matches[0];
      SpokenParts(Cut(text, matches, last), roots, values) ==
      text[last..m.start] + Spoken(Told(m.root, m.path, roots, values)) + SpokenParts(Cut(text, matches[1..], m.end), roots, values)
  {
    hide Told, Spoken, SpokenParts, Cut;
    CutFirst(text, matches, last);
    var m := matches[0];
    var rest, middle := Cut(text, matches[1..], m.end), Template(m.root, m.path, text[m.start..m.end]);
    SpokenMore(middle, rest, roots, values);
    SpokenMore(Literal(text[last..m.start]), [middle] + rest, roots, values);
    Associates(text[last..m.start], Spoken(Told(m.root, m.path, roots, values)), SpokenParts(rest, roots, values));
  }

  lemma {:induction false} PartsAreFilled(text: string, matches: seq<Match>, last: nat, roots: Roots, values: Values)
    requires last <= |text| && Ordered(text, matches, last)
    ensures SpokenParts(Cut(text, matches, last), roots, values) == Filled(text, matches, last, roots, values)
    decreases |matches|
  {
    hide Told, Spoken, SpokenParts;
    if matches == [] {
      SpokenMore(Literal(text[last..]), [], roots, values);
      assert [Literal(text[last..])] + [] == [Literal(text[last..])];
    } else {
      CutIsSpoken(text, matches, last, roots, values);
      PartsAreFilled(text, matches[1..], matches[0].end, roots, values);
    }
  }

  /**
   * Text across lowering: a text cut at its templates, lowered and read, is the text with each template's span replaced by
   * what that template reads as, everything between them standing where it stood.
   */
  lemma TextIsFilled(text: string, matches: seq<Match>, roots: Roots, values: Values)
    requires Ordered(text, matches, 0) && LowerParts(Cut(text, matches, 0), roots).Some?
    ensures ReadSource(Concat(LowerParts(Cut(text, matches, 0), roots).value), values) ==
      Some(Str(Filled(text, matches, 0, roots, values)))
  {
    PartsLower(Cut(text, matches, 0), roots, values);
    PartsAreFilled(text, matches, 0, roots, values);
  }

  // ---- a literal --------------------------------------------------------------------------------

  /** A value as a document with no template writes it. */
  function DocOf(value: Json): Doc {
    match value
    case Null => DNull
    case Bool(b) => DBool(b)
    case Num(text) => DNum(text)
    case Str(s) => Plain(s)
    case Arr(items) => DList(seq(|items|, i requires 0 <= i < |items| => DocOf(items[i])))
    case Obj(fields) => DObject(map name | name in fields :: DocOf(fields[name]))
  }

  /** The round trip of a literal: a value written as a document, lowered and read, is the value, whatever may be read. */
  lemma {:induction false} LiteralReadsBack(value: Json, roots: Roots, values: Values)
    ensures LowerValue(DocOf(value), roots).Some?
    ensures ReadSource(LowerValue(DocOf(value), roots).value, values) == Some(value)
  {
    LoweringPreserves(DocOf(value), roots, values);
    match value
    case Arr(items) =>
      forall i | 0 <= i < |items|
        ensures AllReadable(DocOf(items[i]), roots) && Meant(DocOf(items[i]), roots, values) == Some(items[i])
      {
        LiteralReadsBack(items[i], roots, values);
        LoweringPreserves(DocOf(items[i]), roots, values);
      }
      ItemsMean(items, DocOf(value).members, roots, values);
    case Obj(fields) =>
      forall name | name in fields
        ensures AllReadable(DocOf(fields[name]), roots) && Meant(DocOf(fields[name]), roots, values) == Some(fields[name])
      {
        LiteralReadsBack(fields[name], roots, values);
        LoweringPreserves(DocOf(fields[name]), roots, values);
      }
      assert Meant(DocOf(value), roots, values).value.fields == fields;
    case _ =>
  }

  lemma {:induction false} ItemsMean(items: seq<Json>, members: seq<Doc>, roots: Roots, values: Values)
    requires |members| == |items| && forall i :: 0 <= i < |items| ==> Meant(members[i], roots, values) == Some(items[i])
    ensures MeantEach(members, roots, values) == items
  {
    hide Meant;
    if items != [] {
      ItemsMean(items[1..], members[1..], roots, values);
    }
  }

  // ---- what may be put into text ----------------------------------------------------------------

  /** What may be put into text is what is neither a list nor an object, whatever value of the type it is; or is unknown. */
  lemma ScalarsAreText(ty: Type, handles: bool)
    requires Types.Judged(ty) && Tellable(ty) && !ty.Unknown?
    ensures IsScalar(ty) <==> forall value :: Inhabits(value, ty, handles) ==> !value.Arr? && !value.Obj?
  {
    SampleInhabits(ty, handles);
  }

  // ---- what a graph's checker refuses -----------------------------------------------------------

  /** The type a graph's checker holds of what a template starts from, and the path read below it. */
  function RootOf(types: RootTypes, root: string, path: Path): Option<(Type, Path)> {
    if root == "in" && types.input.Some? then Some((types.input.value, path))
    else if root == "const" && path != [] && path[0] in types.consts then Some((types.consts[path[0]], path[1..]))
    else if root in {"in", "const", "context"} then None
    else if root in types.resolvers then Some((types.resolvers[root].ty, path))
    else if root in types.nodes then Some((types.nodes[root], path))
    else None
  }

  /** Where a checker refuses to read below a root whose type is plain, the template reads nothing at run time. */
  lemma RefusedReadsNothing(types: RootTypes, roots: Roots, values: Values, root: string, path: Path)
    requires RootsHold(types, roots, values) && RootRead(types, root, path).None?
    requires RootOf(types, root, path).Some? && TypeLaws.Plain(RootOf(types, root, path).value.0)
    ensures Told(root, path, roots, values).None?
  {
    hide Inhabits, ReadPath, ReadFrom, TypeLaws.Plain;
    var (ty, below) := RootOf(types, root, path).value;
    TypeAtIsExact(ty, below);
    NothingIsRead(below);
  }

  lemma {:induction false} NothingIsRead(path: Path)
    ensures ReadPath(None, path).None?
  {
  }

  /** A read below a root that may itself be missing may be missing exactly where some value of that root has nothing there. */
  lemma ReadBelowIsExact(base: Read, path: Path)
    requires TypeLaws.Plain(base.ty)
    ensures ReadAt(base, path).Some? <==> TypeAt(base.ty, path).Some?
    ensures ReadAt(base, path).Some? ==>
      (ReadAt(base, path).value.ty == TypeAt(base.ty, path).value.ty &&
        (ReadAt(base, path).value.optional <==> exists value :: Answers(value, base, true) && ReadPath(value, path) == None))
  {
    hide Inhabits, ReadPath, ReadFrom, TypeLaws.Plain;
    TypeAtIsExact(base.ty, path);
    NothingIsRead(path);
    if ReadAt(base, path).Some? {
      if base.optional {
        assert Answers(None, base, true);
      } else if TypeAt(base.ty, path).value.optional {
        var value :| Inhabits(value, base.ty, true) && ReadPath(Some(value), path) == None;
        assert Answers(Some(value), base, true);
      }
    }
  }
}
