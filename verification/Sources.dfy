/** Reading kernel sources: which roots a source names, and the value it yields over the values settled so far. */
module Sources {
  import opened Json

  datatype Source =
    | Ref(ref: string, path: Path)
    | List(parts: seq<Source>)
    | Object(members: map<string, Source>)
    | Value(value: Option<Json>)
    | Concat(pieces: seq<Piece>)

  /** Text with sources interpolated: literal text, or a source read as text. */
  datatype Piece = Text(text: string) | Hole(source: Source)

  type Values = map<string, Json>

  /** The roots the embedder supplies rather than a node computes. */
  const PSEUDO: set<string> := {"in", "const", "context"}

  function Lookup(values: Values, key: string): Option<Json> {
    if key in values then Some(values[key]) else None
  }

  function ReadSource(source: Source, values: Values): Option<Json>
    decreases source, 1
  {
    match source
    case Value(value) => value
    case Ref(ref, path) => ReadPath(Lookup(values, ref), path)
    case List(parts) => Some(Arr(ReadList(parts, values)))
    case Concat(pieces) => Some(Str(ReadText(pieces, values)))
    case Object(members) => Some(Obj(
      map key | key in members && ReadSource(members[key], values).Some? :: ReadSource(members[key], values).value))
  }

  /** Every part read, those that yield nothing left out. */
  function ReadList(parts: seq<Source>, values: Values): seq<Json>
    decreases parts, 0
  {
    if parts == [] then []
    else
      var first := ReadSource(parts[0], values);
      (if first.Some? then [first.value] else []) + ReadList(parts[1..], values)
  }

  function ReadPiece(piece: Piece, values: Values): string
    decreases piece, 1
  {
    match piece
    case Text(text) => text
    case Hole(source) =>
      var read := ReadSource(source, values);
      if read.None? || read.value.Null? then "" else TextOf(read.value)
  }

  function ReadText(pieces: seq<Piece>, values: Values): string
    decreases pieces, 0
  {
    if pieces == [] then "" else ReadPiece(pieces[0], values) + ReadText(pieces[1..], values)
  }

  /** Every named source read; a key whose source yields nothing is left out. */
  function ReadAll(members: map<string, Source>, values: Values): map<string, Json> {
    ReadSource(Object(members), values).value.fields
  }

  /** Every root a source reads. */
  function RefsOf(source: Source): set<string>
    decreases source, 1
  {
    match source
    case Ref(ref, _) => {ref}
    case Value(_) => {}
    case List(parts) => RefsOfList(parts)
    case Concat(pieces) => RefsOfPieces(pieces)
    case Object(members) => set key, ref | key in members && ref in RefsOf(members[key]) :: ref
  }

  function RefsOfList(parts: seq<Source>): set<string>
    decreases parts, 0
  {
    if parts == [] then {} else RefsOf(parts[0]) + RefsOfList(parts[1..])
  }

  function RefsOfPieces(pieces: seq<Piece>): set<string>
    decreases pieces, 0
  {
    if pieces == [] then {}
    else RefsOfPiece(pieces[0]) + RefsOfPieces(pieces[1..])
  }

  function RefsOfPiece(piece: Piece): set<string>
    decreases piece, 1
  {
    match piece
    case Text(_) => {}
    case Hole(source) => RefsOf(source)
  }

  /** Every path a source reads, under the root it starts from. */
  function RootPaths(source: Source): set<(string, Path)>
    decreases source, 1
  {
    match source
    case Ref(ref, path) => {(ref, path)}
    case Value(_) => {}
    case List(parts) => RootPathsOfList(parts)
    case Concat(pieces) => RootPathsOfPieces(pieces)
    case Object(members) => set key, path | key in members && path in RootPaths(members[key]) :: path
  }

  function RootPathsOfList(parts: seq<Source>): set<(string, Path)>
    decreases parts, 0
  {
    if parts == [] then {} else RootPaths(parts[0]) + RootPathsOfList(parts[1..])
  }

  function RootPathsOfPieces(pieces: seq<Piece>): set<(string, Path)>
    decreases pieces, 0
  {
    if pieces == [] then {}
    else RootPathsOfPiece(pieces[0]) + RootPathsOfPieces(pieces[1..])
  }

  function RootPathsOfPiece(piece: Piece): set<(string, Path)>
    decreases piece, 1
  {
    match piece
    case Text(_) => {}
    case Hole(source) => RootPaths(source)
  }

  function RefsOfAll(members: map<string, Source>): set<string> {
    RefsOf(Object(members))
  }

  ghost predicate AgreeOn(refs: set<string>, one: Values, other: Values) {
    forall ref :: ref in refs ==> Lookup(one, ref) == Lookup(other, ref)
  }

  /** A source sees only the roots it names: values that agree on them are read alike. */
  lemma {:induction false} ReadDependsOnRefs(source: Source, one: Values, other: Values)
    requires AgreeOn(RefsOf(source), one, other)
    ensures ReadSource(source, one) == ReadSource(source, other)
    decreases source, 1
  {
    match source
    case Ref(ref, _) => assert ref in RefsOf(source);
    case Value(_) =>
    case List(parts) => ReadListDependsOnRefs(parts, one, other);
    case Concat(pieces) => ReadTextDependsOnRefs(pieces, one, other);
    case Object(members) =>
      forall key | key in members
        ensures ReadSource(members[key], one) == ReadSource(members[key], other)
      {
        ReadDependsOnRefs(members[key], one, other);
      }
      assert ReadAll(members, one) == ReadAll(members, other);
  }

  lemma {:induction false} ReadListDependsOnRefs(parts: seq<Source>, one: Values, other: Values)
    requires AgreeOn(RefsOfList(parts), one, other)
    ensures ReadList(parts, one) == ReadList(parts, other)
    decreases parts, 0
  {
    if parts != [] {
      ReadDependsOnRefs(parts[0], one, other);
      ReadListDependsOnRefs(parts[1..], one, other);
    }
  }

  lemma {:induction false} ReadTextDependsOnRefs(pieces: seq<Piece>, one: Values, other: Values)
    requires AgreeOn(RefsOfPieces(pieces), one, other)
    ensures ReadText(pieces, one) == ReadText(pieces, other)
    decreases pieces, 0
  {
    if pieces != [] {
      ReadPieceDependsOnRefs(pieces[0], one, other);
      ReadTextDependsOnRefs(pieces[1..], one, other);
    }
  }

  lemma {:induction false} ReadPieceDependsOnRefs(piece: Piece, one: Values, other: Values)
    requires AgreeOn(RefsOfPiece(piece), one, other)
    ensures ReadPiece(piece, one) == ReadPiece(piece, other)
    decreases piece, 1
  {
    if piece.Hole? {
      ReadDependsOnRefs(piece.source, one, other);
    }
  }

  // ---- the loops --------------------------------------------------------------------------------

  /** The loop that reads each named source and writes down what it yields. */
  method ReadEach(members: map<string, Source>, values: Values) returns (out: map<string, Json>)
    ensures out == ReadAll(members, values)
  {
    out := map[];
    var left := members.Keys;
    while left != {}
      invariant left <= members.Keys
      invariant out == map key | key in members && key !in left && ReadSource(members[key], values).Some? ::
        ReadSource(members[key], values).value
      decreases |left|
    {
      var key :| key in left;
      var value := ReadSource(members[key], values);
      if value.Some? {
        out := out[key := value.value];
      }
      left := left - {key};
    }
  }

  /** The roots some members of an object read. */
  function RefsAmong(members: map<string, Source>, keys: set<string>): set<string> {
    set key, ref | key in keys && key in members && ref in RefsOf(members[key]) :: ref
  }

  /** The walk that adds each root it meets to the set it was handed. */
  method CollectRefs(source: Source, out: set<string>) returns (all: set<string>)
    ensures all == out + RefsOf(source)
    decreases source, 1
  {
    match source
    case Ref(ref, _) => return out + {ref};
    case Value(_) => return out;
    case List(_) => all := CollectListRefs(source, out);
    case Concat(_) => all := CollectTextRefs(source, out);
    case Object(_) => all := CollectMemberRefs(source, out);
  }

  method CollectListRefs(source: Source, out: set<string>) returns (all: set<string>)
    requires source.List?
    ensures all == out + RefsOf(source)
    decreases source, 0
  {
    var parts := source.parts;
    all := out;
    for i := 0 to |parts|
      invariant all + RefsOfList(parts[i..]) == out + RefsOfList(parts)
    {
      assert parts[i..][0] == parts[i] && parts[i..][1..] == parts[i + 1..];
      all := CollectRefs(parts[i], all);
    }
    assert parts[|parts|..] == [];
  }

  method CollectTextRefs(source: Source, out: set<string>) returns (all: set<string>)
    requires source.Concat?
    ensures all == out + RefsOf(source)
    decreases source, 0
  {
    var pieces := source.pieces;
    all := out;
    for i := 0 to |pieces|
      invariant all + RefsOfPieces(pieces[i..]) == out + RefsOfPieces(pieces)
    {
      assert pieces[i..][0] == pieces[i] && pieces[i..][1..] == pieces[i + 1..];
      if pieces[i].Hole? {
        all := CollectRefs(pieces[i].source, all);
      }
    }
    assert pieces[|pieces|..] == [];
  }

  method CollectMemberRefs(source: Source, out: set<string>) returns (all: set<string>)
    requires source.Object?
    ensures all == out + RefsOf(source)
    decreases source, 0
  {
    hide RefsOf;
    var members := source.members;
    RefsAmongAll(members);
    all := out;
    var done, left := {}, members.Keys;
    while left != {}
      invariant left !! done && left + done == members.Keys
      invariant all == out + RefsAmong(members, done)
      decreases |left|
    {
      var key :| key in left;
      all := CollectRefs(members[key], all);
      done, left := done + {key}, left - {key};
    }
    assert done == members.Keys;
  }

  lemma RefsAmongAll(members: map<string, Source>)
    ensures RefsOf(Object(members)) == RefsAmong(members, members.Keys)
  {
  }
}
