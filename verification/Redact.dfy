/** Report redaction: a redacted copy of a value, and the paths a type marks secret. */
module Redaction {
  import opened Json
  import opened Types

  const SECRET := Str("«secret»")

  type Paths = set<Path>

  /** One path's value replaced where the path leads somewhere, in each element of any list met on the way. */
  function RedactAt(value: Json, path: Path): Json
    requires path != []
    decreases value
  {
    match value
    case Arr(items) => Arr(seq(|items|, i requires 0 <= i < |items| => RedactAt(items[i], path)))
    case Obj(fields) =>
      if path[0] in fields then
        Obj(fields[path[0] := if |path| > 1 then RedactAt(fields[path[0]], path[1..]) else SECRET])
      else value
    case _ => value
  }

  /** The listed paths taken one by one; a path of no segments redacts the whole value. */
  function RedactEach(value: Json, paths: seq<Path>): Json
    decreases |paths|
  {
    if paths == [] then value
    else if paths[0] == [] then SECRET
    else RedactEach(RedactAt(value, paths[0]), paths[1..])
  }

  /** The loop over the paths, over one mutable copy. */
  method RedactValue(value: Json, paths: seq<Path>) returns (copy: Json)
    ensures copy == RedactEach(value, paths)
  {
    copy := value;
    for i := 0 to |paths|
      invariant RedactEach(value, paths) == RedactEach(copy, paths[i..])
    {
      assert paths[i..][0] == paths[i] && paths[i..][1..] == paths[i + 1..];
      if paths[i] == [] {
        return SECRET;
      }
      copy := RedactAt(copy, paths[i]);
    }
  }

  // ---- redaction by a set of paths --------------------------------------------------------------

  /** The paths below one field. */
  ghost function Below(paths: Paths, name: string): Paths {
    set path | path in paths && path != [] && path[0] == name :: path[1..]
  }

  /** Every path of a set replaced at once: what redaction means, whatever order the paths come in. */
  ghost function Redact(value: Json, paths: Paths): Json
    decreases value
  {
    if [] in paths then SECRET
    else
      match value
      case Arr(items) => Arr(seq(|items|, i requires 0 <= i < |items| => Redact(items[i], paths)))
      case Obj(fields) => Obj(map name | name in fields :: Redact(fields[name], Below(paths, name)))
      case _ => value
  }

  ghost function PathSet(paths: seq<Path>): Paths {
    set i | 0 <= i < |paths| :: paths[i]
  }

  /** Redaction composes as the union of the paths. */
  lemma {:induction false} RedactUnion(value: Json, a: Paths, b: Paths)
    ensures Redact(Redact(value, a), b) == Redact(value, a + b)
    decreases value
  {
    if [] !in a && [] !in b {
      match value
      case Arr(items) =>
        forall i | 0 <= i < |items| ensures Redact(Redact(items[i], a), b) == Redact(items[i], a + b) {
          RedactUnion(items[i], a, b);
        }
        assert Redact(Redact(value, a), b).items == Redact(value, a + b).items;
      case Obj(fields) =>
        forall name | name in fields
          ensures Redact(Redact(fields[name], Below(a, name)), Below(b, name)) == Redact(fields[name], Below(a + b, name))
        {
          RedactUnion(fields[name], Below(a, name), Below(b, name));
          assert Below(a + b, name) == Below(a, name) + Below(b, name);
        }
        assert Redact(Redact(value, a), b).fields == Redact(value, a + b).fields;
      case _ =>
    }
  }

  lemma {:induction false} RedactNothing(value: Json)
    ensures Redact(value, {}) == value
    decreases value
  {
    match value
    case Arr(items) =>
      forall i | 0 <= i < |items| ensures Redact(items[i], {}) == items[i] {
        RedactNothing(items[i]);
      }
      assert Redact(value, {}).items == items;
    case Obj(fields) =>
      forall name | name in fields ensures Redact(fields[name], Below({}, name)) == fields[name] {
        RedactNothing(fields[name]);
        assert Below({}, name) == {};
      }
      assert Redact(value, {}).fields == fields;
    case _ =>
  }

  lemma {:induction false} RedactOne(value: Json, path: Path)
    requires path != []
    ensures Redact(value, {path}) == RedactAt(value, path)
    decreases value
  {
    match value
    case Arr(items) =>
      forall i | 0 <= i < |items| ensures Redact(items[i], {path}) == RedactAt(items[i], path) {
        RedactOne(items[i], path);
      }
      assert Redact(value, {path}).items == RedactAt(value, path).items;
    case Obj(fields) =>
      forall name | name in fields && name != path[0] ensures Redact(fields[name], Below({path}, name)) == fields[name] {
        assert Below({path}, name) == {};
        RedactNothing(fields[name]);
      }
      assert Below({path}, path[0]) == {path[1..]};
      assert |path| == 1 ==> path[1..] == [];
      if path[0] in fields && |path| > 1 {
        RedactOne(fields[path[0]], path[1..]);
      }
      assert Redact(value, {path}).fields == RedactAt(value, path).fields;
    case _ =>
  }

  /** The list of paths means the set of them: neither their order nor a repeat changes what a report shows. */
  lemma {:induction false} RedactEachIsRedact(value: Json, paths: seq<Path>)
    ensures RedactEach(value, paths) == Redact(value, PathSet(paths))
    decreases |paths|
  {
    if paths == [] {
      assert PathSet(paths) == {};
      RedactNothing(value);
    } else {
      assert PathSet(paths) == {paths[0]} + PathSet(paths[1..]) by {
        forall path | path in PathSet(paths) ensures path in {paths[0]} + PathSet(paths[1..]) {
          var i :| 0 <= i < |paths| && paths[i] == path;
          assert i > 0 ==> paths[1..][i - 1] == path;
        }
        assert forall i :: 0 <= i < |paths[1..]| ==> paths[1..][i] == paths[i + 1];
      }
      if paths[0] != [] {
        RedactEachIsRedact(RedactAt(value, paths[0]), paths[1..]);
        RedactOne(value, paths[0]);
        RedactUnion(value, {paths[0]}, PathSet(paths[1..]));
      }
    }
  }

  /** Redacting again by the same paths, in any order, changes nothing; by more, shows what the union shows. */
  lemma RedactTwice(value: Json, first: seq<Path>, second: seq<Path>)
    ensures RedactEach(RedactEach(value, first), second) == RedactEach(value, first + second)
    ensures PathSet(second) <= PathSet(first) ==> RedactEach(RedactEach(value, first), second) == RedactEach(value, first)
  {
    RedactEachIsRedact(value, first);
    RedactEachIsRedact(RedactEach(value, first), second);
    RedactEachIsRedact(value, first + second);
    RedactUnion(value, PathSet(first), PathSet(second));
    assert PathSet(first + second) == PathSet(first) + PathSet(second) by {
      forall path | path in PathSet(first) + PathSet(second) ensures path in PathSet(first + second) {
        if path in PathSet(first) {
          var i :| 0 <= i < |first| && first[i] == path;
          assert (first + second)[i] == path;
        } else {
          var i :| 0 <= i < |second| && second[i] == path;
          assert (first + second)[|first| + i] == path;
        }
      }
    }
    if PathSet(second) <= PathSet(first) {
      assert PathSet(first) + PathSet(second) == PathSet(first);
    }
  }

  // ---- noninterference --------------------------------------------------------------------------

  /** Two values that differ at most where a path of the set leads. */
  ghost predicate DifferAtMost(one: Json, other: Json, paths: Paths)
    decreases one
  {
    [] in paths ||
    match one
    case Arr(items) =>
      other.Arr? && |items| == |other.items| &&
      forall i :: 0 <= i < |items| ==> DifferAtMost(items[i], other.items[i], paths)
    case Obj(fields) =>
      other.Obj? && fields.Keys == other.fields.Keys &&
      forall name :: name in fields ==> DifferAtMost(fields[name], other.fields[name], Below(paths, name))
    case _ => one == other
  }

  /**
   * Noninterference, exactly: a report shows two values the same exactly when they differ at most where the paths
   * lead. What lies there cannot be told from the report, and nothing else is hidden.
   */
  lemma {:induction false} RedactIsExact(one: Json, other: Json, paths: Paths)
    ensures Redact(one, paths) == Redact(other, paths) <==> DifferAtMost(one, other, paths)
    decreases one
  {
    if [] !in paths {
      var r, r' := Redact(one, paths), Redact(other, paths);
      match one
      case Arr(items) =>
        if other.Arr? && |items| == |other.items| {
          forall i | 0 <= i < |items|
            ensures r.items[i] == r'.items[i] <==> DifferAtMost(items[i], other.items[i], paths)
          {
            RedactIsExact(items[i], other.items[i], paths);
          }
        } else if other.Arr? {
          assert |r.items| != |r'.items|;
        }
      case Obj(fields) =>
        if other.Obj? && fields.Keys == other.fields.Keys {
          forall name | name in fields
            ensures r.fields[name] == r'.fields[name] <==>
              DifferAtMost(fields[name], other.fields[name], Below(paths, name))
          {
            RedactIsExact(fields[name], other.fields[name], Below(paths, name));
          }
          assert r.fields.Keys == r'.fields.Keys == fields.Keys;
        } else if other.Obj? {
          assert r.fields.Keys == fields.Keys && r'.fields.Keys == other.fields.Keys;
        }
      case _ =>
    }
  }

  // ---- the paths a type marks secret ------------------------------------------------------------

  /** How deep the walk goes into a type, a list counting as one level. */
  const SECRET_DEPTH: nat := 6

  /** Every path to a secret field inside a type, down to a depth. */
  ghost function SecretSet(ty: Type, depth: nat): Paths
    decreases ty
  {
    if depth > SECRET_DEPTH then {}
    else
      match ty
      case List(of, _, _) => SecretSet(of, depth + 1)
      case Object(fields, _) =>
        (set name | name in fields && fields[name].secret :: [name]) +
        (set name, path | name in fields && !fields[name].secret && path in SecretSet(fields[name].ty, depth + 1) :: [name] + path)
      case _ => {}
  }

  ghost function Prefixed(prefix: Path, paths: Paths): Paths {
    set path | path in paths :: prefix + path
  }

  lemma PathSetSnoc(out: seq<Path>, path: Path)
    ensures PathSet(out + [path]) == PathSet(out) + {path}
  {
    forall other | other in PathSet(out) + {path} ensures other in PathSet(out + [path]) {
      if other in PathSet(out) {
        var i :| 0 <= i < |out| && out[i] == other;
        assert (out + [path])[i] == other;
      } else {
        assert (out + [path])[|out|] == other;
      }
    }
  }

  /** The paths one field of an object type adds. */
  ghost function FieldPaths(ty: Type, name: string, depth: nat): Paths
    requires ty.Object? && name in ty.fields
  {
    if ty.fields[name].secret then {[name]}
    else set path | path in SecretSet(ty.fields[name].ty, depth + 1) :: [name] + path
  }

  ghost function FieldsPaths(ty: Type, names: set<string>, depth: nat): Paths
    requires ty.Object? && names <= ty.fields.Keys
  {
    set name, path | name in names && path in FieldPaths(ty, name, depth) :: path
  }

  lemma ObjectPaths(ty: Type, depth: nat)
    requires ty.Object? && depth <= SECRET_DEPTH
    ensures SecretSet(ty, depth) == FieldsPaths(ty, ty.fields.Keys, depth)
  {
    forall path | path in FieldsPaths(ty, ty.fields.Keys, depth) ensures path in SecretSet(ty, depth) {
      var name :| name in ty.fields && path in FieldPaths(ty, name, depth);
    }
    forall path | path in SecretSet(ty, depth) ensures path in FieldsPaths(ty, ty.fields.Keys, depth) {
      if name :| name in ty.fields && ty.fields[name].secret && path == [name] {
        assert path in FieldPaths(ty, name, depth);
      } else {
        var name, rest :| name in ty.fields && !ty.fields[name].secret &&
          rest in SecretSet(ty.fields[name].ty, depth + 1) && path == [name] + rest;
        assert path in FieldPaths(ty, name, depth);
      }
    }
  }

  /** The walk that pushes each path it finds onto the list it was handed. */
  method SecretPaths(ty: Type, prefix: Path, out: seq<Path>, depth: nat) returns (found: seq<Path>)
    ensures out <= found
    ensures PathSet(found) == PathSet(out) + Prefixed(prefix, SecretSet(ty, depth))
    decreases ty
  {
    found := out;
    if depth > SECRET_DEPTH {
      return;
    }
    if ty.List? {
      found := SecretPaths(ty.of, prefix, found, depth + 1);
    }
    if !ty.Object? {
      return;
    }
    var left := ty.fields.Keys;
    while left != {}
      invariant left <= ty.fields.Keys && out <= found
      invariant PathSet(found) == PathSet(out) + Prefixed(prefix, FieldsPaths(ty, ty.fields.Keys - left, depth))
    {
      var name :| name in left;
      ghost var before := ty.fields.Keys - left;
      ghost var seen := found;
      if ty.fields[name].secret {
        PathSetSnoc(found, prefix + [name]);
        found := found + [prefix + [name]];
      } else {
        found := SecretPaths(ty.fields[name].ty, prefix + [name], found, depth + 1);
      }
      assert PathSet(found) == PathSet(seen) + Prefixed(prefix, FieldPaths(ty, name, depth)) by {
        FieldPrefixed(ty, name, prefix, depth);
      }
      MorePaths(ty, before, name, prefix, depth);
      left := left - {name};
      assert ty.fields.Keys - left == before + {name};
    }
    assert ty.fields.Keys - left == ty.fields.Keys;
    ObjectPaths(ty, depth);
  }

  lemma FieldPrefixed(ty: Type, name: string, prefix: Path, depth: nat)
    requires ty.Object? && name in ty.fields
    ensures Prefixed(prefix, FieldPaths(ty, name, depth)) ==
      if ty.fields[name].secret then {prefix + [name]}
      else Prefixed(prefix + [name], SecretSet(ty.fields[name].ty, depth + 1))
  {
    if !ty.fields[name].secret {
      var below := SecretSet(ty.fields[name].ty, depth + 1);
      forall path | path in Prefixed(prefix + [name], below)
        ensures path in Prefixed(prefix, FieldPaths(ty, name, depth))
      {
        var rest :| rest in below && path == prefix + [name] + rest;
        assert [name] + rest in FieldPaths(ty, name, depth) && path == prefix + ([name] + rest);
      }
      forall path | path in Prefixed(prefix, FieldPaths(ty, name, depth))
        ensures path in Prefixed(prefix + [name], below)
      {
        var rest :| rest in below && path == prefix + ([name] + rest);
        assert path == prefix + [name] + rest;
      }
    }
  }

  lemma MorePaths(ty: Type, names: set<string>, name: string, prefix: Path, depth: nat)
    requires ty.Object? && names <= ty.fields.Keys && name in ty.fields
    ensures Prefixed(prefix, FieldsPaths(ty, names + {name}, depth)) ==
      Prefixed(prefix, FieldsPaths(ty, names, depth)) + Prefixed(prefix, FieldPaths(ty, name, depth))
  {
    assert FieldsPaths(ty, names + {name}, depth) == FieldsPaths(ty, names, depth) + FieldPaths(ty, name, depth) by {
      forall path | path in FieldPaths(ty, name, depth) ensures path in FieldsPaths(ty, names + {name}, depth) {
        assert name in names + {name};
      }
    }
  }

  /**
   * Two values that differ at most in fields a type marks secret, reached through declared fields and list
   * elements and no deeper than the walk goes.
   */
  ghost predicate DifferInSecrets(one: Json, other: Json, ty: Type, depth: nat)
    decreases ty
  {
    one == other ||
    (depth <= SECRET_DEPTH &&
      match ty
      case List(of, _, _) =>
        one.Arr? && other.Arr? && |one.items| == |other.items| &&
        forall i :: 0 <= i < |one.items| ==> DifferInSecrets(one.items[i], other.items[i], of, depth + 1)
      case Object(fields, _) =>
        one.Obj? && other.Obj? && one.fields.Keys == other.fields.Keys &&
        forall name :: name in one.fields ==>
          if name !in fields then one.fields[name] == other.fields[name]
          else fields[name].secret || DifferInSecrets(one.fields[name], other.fields[name], fields[name].ty, depth + 1)
      case _ => false)
  }

  lemma {:induction false} SameDiffersAtMost(value: Json, paths: Paths)
    ensures DifferAtMost(value, value, paths)
    decreases value
  {
    match value
    case Arr(items) =>
      forall i | 0 <= i < |items| ensures DifferAtMost(items[i], items[i], paths) {
        SameDiffersAtMost(items[i], paths);
      }
    case Obj(fields) =>
      forall name | name in fields ensures DifferAtMost(fields[name], fields[name], Below(paths, name)) {
        SameDiffersAtMost(fields[name], Below(paths, name));
      }
    case _ =>
  }

  lemma SecretBelow(ty: Type, name: string, depth: nat)
    requires ty.Object? && name in ty.fields && depth <= SECRET_DEPTH
    ensures Below(SecretSet(ty, depth), name) ==
      if ty.fields[name].secret then {[]} else SecretSet(ty.fields[name].ty, depth + 1)
  {
    var paths := SecretSet(ty, depth);
    if ty.fields[name].secret {
      assert [name] in paths && [name][1..] == [];
    } else {
      forall path | path in SecretSet(ty.fields[name].ty, depth + 1) ensures path in Below(paths, name) {
        assert [name] + path in paths && ([name] + path)[1..] == path;
      }
    }
    forall path | path in Below(paths, name)
      ensures path in if ty.fields[name].secret then {[]} else SecretSet(ty.fields[name].ty, depth + 1)
    {
      var whole :| whole in paths && whole != [] && whole[0] == name && whole[1..] == path;
    }
  }

  lemma {:induction false} NoEmptySecretPath(ty: Type, depth: nat)
    ensures [] !in SecretSet(ty, depth)
  {
    if ty.List? {
      NoEmptySecretPath(ty.of, depth + 1);
    }
  }

  lemma {:induction false} SecretsDifferAtMost(one: Json, other: Json, ty: Type, depth: nat)
    requires DifferInSecrets(one, other, ty, depth)
    ensures DifferAtMost(one, other, SecretSet(ty, depth))
    decreases ty
  {
    if one == other {
      SameDiffersAtMost(one, SecretSet(ty, depth));
    } else {
      match ty
      case List(of, _, _) =>
        forall i | 0 <= i < |one.items|
          ensures DifferAtMost(one.items[i], other.items[i], SecretSet(ty, depth))
        {
          SecretsDifferAtMost(one.items[i], other.items[i], of, depth + 1);
        }
      case Object(fields, _) =>
        forall name | name in one.fields
          ensures DifferAtMost(one.fields[name], other.fields[name], Below(SecretSet(ty, depth), name))
        {
          if name !in fields {
            SameDiffersAtMost(one.fields[name], Below(SecretSet(ty, depth), name));
          } else {
            SecretBelow(ty, name, depth);
            if !fields[name].secret {
              SecretsDifferAtMost(one.fields[name], other.fields[name], fields[name].ty, depth + 1);
            }
          }
        }
    }
  }

  lemma DifferNowhere(one: Json, other: Json)
    requires DifferAtMost(one, other, {})
    ensures one == other
  {
    RedactIsExact(one, other, {});
    RedactNothing(one);
    RedactNothing(other);
  }

  /** Values of a type that differ at most at its secret paths differ in its secret fields alone. */
  lemma {:induction false} OnlySecretsDiffer(one: Json, other: Json, ty: Type, depth: nat)
    requires Conforms(one, ty) && Conforms(other, ty) && DifferAtMost(one, other, SecretSet(ty, depth))
    ensures DifferInSecrets(one, other, ty, depth)
    decreases ty
  {
    NoEmptySecretPath(ty, depth);
    if depth > SECRET_DEPTH || (!ty.List? && !ty.Object?) {
      DifferNowhere(one, other);
    } else if ty.List? {
      forall i | 0 <= i < |one.items| ensures DifferInSecrets(one.items[i], other.items[i], ty.of, depth + 1) {
        OnlySecretsDiffer(one.items[i], other.items[i], ty.of, depth + 1);
      }
    } else {
      forall name | name in one.fields
        ensures if name !in ty.fields then one.fields[name] == other.fields[name]
          else ty.fields[name].secret || DifferInSecrets(one.fields[name], other.fields[name], ty.fields[name].ty, depth + 1)
      {
        if name !in ty.fields {
          assert Below(SecretSet(ty, depth), name) == {};
          DifferNowhere(one.fields[name], other.fields[name]);
        } else if !ty.fields[name].secret {
          SecretBelow(ty, name, depth);
          OnlySecretsDiffer(one.fields[name], other.fields[name], ty.fields[name].ty, depth + 1);
        }
      }
    }
  }

  /**
   * Redaction is noninterfering: whatever list of paths the walk over a type finds, two values that differ only in
   * fields the type marks secret are one and the same in a report; and of two values of the type, only such are.
   */
  lemma RedactionIsNoninterfering(one: Json, other: Json, ty: Type, paths: seq<Path>)
    requires PathSet(paths) == SecretSet(ty, 0)
    ensures DifferInSecrets(one, other, ty, 0) ==> RedactEach(one, paths) == RedactEach(other, paths)
    ensures Conforms(one, ty) && Conforms(other, ty) && RedactEach(one, paths) == RedactEach(other, paths) ==>
      DifferInSecrets(one, other, ty, 0)
  {
    RedactIsExact(one, other, SecretSet(ty, 0));
    RedactEachIsRedact(one, paths);
    RedactEachIsRedact(other, paths);
    if DifferInSecrets(one, other, ty, 0) {
      SecretsDifferAtMost(one, other, ty, 0);
    } else if Conforms(one, ty) && Conforms(other, ty) && DifferAtMost(one, other, SecretSet(ty, 0)) {
      OnlySecretsDiffer(one, other, ty, 0);
    }
  }

  /** Every field a type marks secret shows the marker. */
  lemma SecretsAreMarked(value: Json, ty: Type, depth: nat, name: string)
    requires ty.Object? && name in ty.fields && ty.fields[name].secret && depth <= 6
    requires value.Obj? && name in value.fields
    ensures Redact(value, SecretSet(ty, depth)).Obj?
    ensures Redact(value, SecretSet(ty, depth)).fields[name] == Str("«secret»")
  {
    NoEmptySecretPath(ty, depth);
    SecretBelow(ty, name, depth);
  }
}
