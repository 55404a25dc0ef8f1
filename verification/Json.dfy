/** The values that flow through a run: JSON without `undefined`, which is an absent option. */
module Json {

  datatype Option<+T> = None | Some(value: T)

  /** A number is carried as the text JavaScript writes for it: nothing here computes with one. */
  datatype Json =
    | Null
    | Bool(b: bool)
    | Num(text: string)
    | Str(s: string)
    | Arr(items: seq<Json>)
    | Obj(fields: map<string, Json>)

  type Path = seq<string>

  predicate IsIndex(segment: string) {
    segment != "" && forall i :: 0 <= i < |segment| ==> '0' <= segment[i] <= '9'
  }

  function IndexOf(segment: string): nat
    requires forall i :: 0 <= i < |segment| ==> '0' <= segment[i] <= '9'
  {
    if segment == "" then 0
    else IndexOf(segment[..|segment| - 1]) * 10 + (segment[|segment| - 1] - '0') as nat
  }

  /** One step of a read: the element an index names, the field a name names, nothing anywhere else. */
  function StepInto(value: Json, segment: string): Option<Json> {
    match value
    case Arr(items) =>
      if IsIndex(segment) && IndexOf(segment) < |items| then Some(items[IndexOf(segment)]) else None
    case Obj(fields) => if segment in fields then Some(fields[segment]) else None
    case _ => None
  }

  /** The value at a path inside a value; nothing once the path leaves it. */
  function ReadPath(value: Option<Json>, path: Path): Option<Json>
    decreases |path|
  {
    if path == [] || value.None? then value else ReadPath(StepInto(value.value, path[0]), path[1..])
  }

  /** The loop that walks a path with one mutable cursor. */
  method WalkPath(value: Option<Json>, path: Path) returns (current: Option<Json>)
    ensures current == ReadPath(value, path)
  {
    current := value;
    for i := 0 to |path|
      invariant ReadPath(value, path) == ReadPath(current, path[i..])
    {
      if current.None? {
        return;
      }
      assert path[i..][0] == path[i] && path[i..][1..] == path[i + 1..];
      current := StepInto(current.value, path[i]);
    }
  }

  lemma Associates<T>(a: seq<T>, b: seq<T>, c: seq<T>)
    ensures a + (b + c) == a + b + c
  {
  }

  lemma {:induction false} ReadPathConcat(value: Option<Json>, first: Path, rest: Path)
    ensures ReadPath(value, first + rest) == ReadPath(ReadPath(value, first), rest)
    decreases |first|
  {
    if first == [] {
      assert first + rest == rest;
    } else if value.Some? {
      assert (first + rest)[0] == first[0] && (first + rest)[1..] == first[1..] + rest;
      ReadPathConcat(StepInto(value.value, first[0]), first[1..], rest);
    }
  }

  /** What `String(value)` writes: a list's members joined by commas, nulls in it as nothing, any object alike. */
  function TextOf(value: Json): string
    decreases value, 1
  {
    match value
    case Null => "null"
    case Bool(b) => if b then "true" else "false"
    case Num(text) => text
    case Str(s) => s
    case Arr(items) => JoinItems(items)
    case Obj(_) => "[object Object]"
  }

  function JoinItems(items: seq<Json>): string
    decreases items, 0
  {
    if items == [] then ""
    else
      var first := if items[0].Null? then "" else TextOf(items[0]);
      if |items| == 1 then first else first + "," + JoinItems(items[1..])
  }
}
