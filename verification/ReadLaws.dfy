/** What reading does, said without the functions that read: which reads a source holds, and how text is put together. */
module ReadLaws {
  import opened Json
  import opened Sources

  // ---- which reads a source holds ---------------------------------------------------------------

  /** A source written somewhere inside another, or the other itself. */
  predicate Occurs(part: Source, whole: Source)
    decreases whole
  {
    part == whole ||
    match whole
    case List(parts) => exists i :: 0 <= i < |parts| && Occurs(part, parts[i])
    case Concat(pieces) => exists i :: 0 <= i < |pieces| && pieces[i].Hole? && Occurs(part, pieces[i].source)
    case Object(members) => exists key :: key in members && Occurs(part, members[key])
    case _ => false
  }

  /** The paths a source reads are those of the reads written in it: none is missed and none is made up. */
  lemma {:induction false} PathsAre(source: Source, ref: string, path: Path)
    ensures (ref, path) in RootPaths(source) <==> Occurs(Ref(ref, path), source)
    decreases source
  {
    match source
    case List(parts) =>
      ListPathsAre(parts, (ref, path));
      forall i | 0 <= i < |parts| ensures (ref, path) in RootPaths(parts[i]) <==> Occurs(Ref(ref, path), parts[i]) {
        PathsAre(parts[i], ref, path);
      }
    case Concat(pieces) =>
      TextPathsAre(pieces, (ref, path));
      forall i | 0 <= i < |pieces| && pieces[i].Hole?
        ensures (ref, path) in RootPaths(pieces[i].source) <==> Occurs(Ref(ref, path), pieces[i].source)
      {
        assert pieces[i] < source;
        PathsAre(pieces[i].source, ref, path);
      }
    case Object(members) =>
      forall key | key in members ensures (ref, path) in RootPaths(members[key]) <==> Occurs(Ref(ref, path), members[key]) {
        PathsAre(members[key], ref, path);
      }
    case _ =>
  }

  lemma {:induction false} ListPathsAre(parts: seq<Source>, path: (string, Path))
    ensures path in RootPathsOfList(parts) <==> exists i :: 0 <= i < |parts| && path in RootPaths(parts[i])
  {
    if parts != [] {
      ListPathsAre(parts[1..], path);
      assert forall i :: 0 < i < |parts| ==> parts[i] == parts[1..][i - 1];
    }
  }

  lemma {:induction false} TextPathsAre(pieces: seq<Piece>, path: (string, Path))
    ensures path in RootPathsOfPieces(pieces) <==>
      exists i :: 0 <= i < |pieces| && pieces[i].Hole? && path in RootPaths(pieces[i].source)
  {
    if pieces != [] {
      TextPathsAre(pieces[1..], path);
      assert forall i :: 0 < i < |pieces| ==> pieces[i] == pieces[1..][i - 1];
    }
  }

  /** The roots a source reads are those of the reads written in it. */
  lemma {:induction false} RefsAre(source: Source, ref: string)
    ensures ref in RefsOf(source) <==> exists path :: Occurs(Ref(ref, path), source)
    decreases source
  {
    match source
    case Ref(_, path) => assert Occurs(Ref(ref, path), source) <==> ref == source.ref;
    case Value(_) =>
    case List(parts) =>
      ListRefsAre(parts, ref);
      forall i | 0 <= i < |parts| ensures ref in RefsOf(parts[i]) <==> exists path :: Occurs(Ref(ref, path), parts[i]) {
        RefsAre(parts[i], ref);
      }
    case Concat(pieces) =>
      TextRefsAre(pieces, ref);
      forall i | 0 <= i < |pieces| && pieces[i].Hole?
        ensures ref in RefsOf(pieces[i].source) <==> exists path :: Occurs(Ref(ref, path), pieces[i].source)
      {
        assert pieces[i] < source;
        RefsAre(pieces[i].source, ref);
      }
    case Object(members) =>
      forall key | key in members ensures ref in RefsOf(members[key]) <==> exists path :: Occurs(Ref(ref, path), members[key]) {
        RefsAre(members[key], ref);
      }
  }

  lemma {:induction false} ListRefsAre(parts: seq<Source>, ref: string)
    ensures ref in RefsOfList(parts) <==> exists i :: 0 <= i < |parts| && ref in RefsOf(parts[i])
  {
    if parts != [] {
      ListRefsAre(parts[1..], ref);
      assert forall i :: 0 < i < |parts| ==> parts[i] == parts[1..][i - 1];
    }
  }

  lemma {:induction false} TextRefsAre(pieces: seq<Piece>, ref: string)
    ensures ref in RefsOfPieces(pieces) <==>
      exists i :: 0 <= i < |pieces| && pieces[i].Hole? && ref in RefsOf(pieces[i].source)
  {
    if pieces != [] {
      TextRefsAre(pieces[1..], ref);
      assert forall i :: 0 < i < |pieces| ==> pieces[i] == pieces[1..][i - 1];
    }
  }

  // ---- how text is put together -----------------------------------------------------------------

  /** Text reads piece by piece from front to back, literal text as it stands. */
  lemma {:induction false} TextReadsInOrder(a: seq<Piece>, b: seq<Piece>, values: Values, text: string)
    ensures ReadText(a + b, values) == ReadText(a, values) + ReadText(b, values)
    ensures ReadText([Text(text)], values) == text
  {
    assert [Text(text)][1..] == [];
    if a == [] {
      assert a + b == b;
    } else {
      assert (a + b)[0] == a[0] && (a + b)[1..] == a[1..] + b;
      TextReadsInOrder(a[1..], b, values, text);
      Associates(ReadPiece(a[0], values), ReadText(a[1..], values), ReadText(b, values));
    }
  }

  /** A hole in a text reads as its source does: nothing where it is missing or null, a text as it is. */
  lemma HoleReadsAsText(source: Source, values: Values)
    ensures var read := ReadSource(source, values);
      ReadText([Hole(source)], values) == if read.None? || read.value == Null then "" else TextOf(read.value)
  {
    assert [Hole(source)][1..] == [];
  }

  /** A list reads member by member from front to back, a member that yields nothing left out. */
  lemma {:induction false} ListReadsInOrder(a: seq<Source>, b: seq<Source>, values: Values, part: Source)
    ensures ReadList(a + b, values) == ReadList(a, values) + ReadList(b, values)
    ensures ReadList([part], values) == if ReadSource(part, values).Some? then [ReadSource(part, values).value] else []
  {
    assert [part][1..] == [];
    if a == [] {
      assert a + b == b;
    } else {
      assert (a + b)[0] == a[0] && (a + b)[1..] == a[1..] + b;
      ListReadsInOrder(a[1..], b, values, part);
      var first := ReadSource(a[0], values);
      Associates(if first.Some? then [first.value] else [], ReadList(a[1..], values), ReadList(b, values));
    }
  }

  /**
   * A value as text: a list's members between commas, a null among them as nothing; a scalar as it is written; and an
   * object as one and the same text whatever it holds.
   */
  lemma {:induction false} ValueIsText(a: seq<Json>, b: seq<Json>, one: Json, fields: map<string, Json>)
    requires a != [] && b != []
    ensures TextOf(Arr(a + b)) == TextOf(Arr(a)) + "," + TextOf(Arr(b))
    ensures TextOf(Arr([one])) == if one.Null? then "" else TextOf(one)
    ensures TextOf(Arr([])) == "" && TextOf(Obj(fields)) == "[object Object]"
    ensures one.Str? ==> TextOf(one) == one.s
    ensures one.Num? ==> TextOf(one) == one.text
    ensures one.Bool? ==> TextOf(one) == if one.b then "true" else "false"
  {
    if |a| == 1 {
      assert (a + b)[1..] == b;
    } else {
      assert (a + b)[0] == a[0] && (a + b)[1..] == a[1..] + b;
      ValueIsText(a[1..], b, one, fields);
      var first := if a[0].Null? then "" else TextOf(a[0]);
      Associates(first + ",", JoinItems(a[1..]), "," + JoinItems(b));
      Associates(first + "," + JoinItems(a[1..]), ",", JoinItems(b));
      Associates(JoinItems(a[1..]), ",", JoinItems(b));
    }
  }
}
