/** multipart/form-data read from a stream fed in chunks (RFC 2046 section 5.1.1, RFC 7578 section 4). */
module Multipart {
  import opened Json

  type Bytes = seq<bv8>

  const CR: bv8 := 13
  const LF: bv8 := 10
  const DASH: bv8 := 45
  const CRLF2: Bytes := [CR, LF, CR, LF]
  const DASHES: Bytes := [DASH, DASH]

  // ---- searching --------------------------------------------------------------------------------

  predicate Occurs(text: Bytes, pattern: Bytes, at: int) {
    0 <= at && at + |pattern| <= |text| && text[at..at + |pattern|] == pattern
  }

  function SearchFrom(text: Bytes, pattern: Bytes, at: nat): (found: Option<nat>)
    requires at <= |text|
    ensures found.Some? ==>
      at <= found.value && Occurs(text, pattern, found.value) &&
      forall j :: at <= j < found.value ==> !Occurs(text, pattern, j)
    ensures found.None? ==> forall j :: at <= j ==> !Occurs(text, pattern, j)
    decreases |text| - at
  {
    if Occurs(text, pattern, at) then Some(at)
    else if at == |text| then None
    else SearchFrom(text, pattern, at + 1)
  }

  /** Where a pattern first occurs. */
  function FirstAt(text: Bytes, pattern: Bytes): (found: Option<nat>)
    ensures found.Some? ==>
      Occurs(text, pattern, found.value) && forall j :: 0 <= j < found.value ==> !Occurs(text, pattern, j)
    ensures found.None? ==> forall j :: 0 <= j ==> !Occurs(text, pattern, j)
  {
    SearchFrom(text, pattern, 0)
  }

  lemma FirstAtIs(text: Bytes, pattern: Bytes, at: nat)
    requires Occurs(text, pattern, at) && forall j :: 0 <= j < at ==> !Occurs(text, pattern, j)
    ensures FirstAt(text, pattern) == Some(at)
  {
    var found := FirstAt(text, pattern);
    assert found.Some?;
  }

  lemma OccursInPrefix(text: Bytes, more: Bytes, pattern: Bytes, at: int)
    requires 0 <= at && at + |pattern| <= |text|
    ensures Occurs(text + more, pattern, at) <==> Occurs(text, pattern, at)
  {
    assert (text + more)[at..at + |pattern|] == text[at..at + |pattern|];
  }

  lemma OccursInSuffix(text: Bytes, from: nat, pattern: Bytes, at: int)
    requires from <= |text| && 0 <= at
    ensures Occurs(text[from..], pattern, at) <==> Occurs(text, pattern, from + at)
  {
    if from + at + |pattern| <= |text| {
      assert text[from..][at..at + |pattern|] == text[from + at..from + at + |pattern|];
    }
  }

  /** Where nothing occurs before `from`, the search of the rest finds what the search of the whole finds. */
  lemma FirstAtRest(text: Bytes, from: nat, pattern: Bytes)
    requires from <= |text| && forall j :: 0 <= j < from ==> !Occurs(text, pattern, j)
    ensures FirstAt(text, pattern).None? <==> FirstAt(text[from..], pattern).None?
    ensures FirstAt(text, pattern).Some? ==>
      FirstAt(text, pattern).value >= from &&
      FirstAt(text[from..], pattern) == Some(FirstAt(text, pattern).value - from)
  {
    var whole, rest := FirstAt(text, pattern), FirstAt(text[from..], pattern);
    if whole.Some? {
      OccursInSuffix(text, from, pattern, whole.value - from);
      forall j | 0 <= j < whole.value - from ensures !Occurs(text[from..], pattern, j) {
        OccursInSuffix(text, from, pattern, j);
      }
      FirstAtIs(text[from..], pattern, whole.value - from);
    } else if rest.Some? {
      OccursInSuffix(text, from, pattern, rest.value);
    }
  }

  /** A first occurrence stays the first however much follows. */
  lemma FirstAtGrows(text: Bytes, more: Bytes, pattern: Bytes)
    requires FirstAt(text, pattern).Some?
    ensures FirstAt(text + more, pattern) == FirstAt(text, pattern)
  {
    var at := FirstAt(text, pattern).value;
    forall j | 0 <= j <= at ensures Occurs(text + more, pattern, j) <==> Occurs(text, pattern, j) {
      OccursInPrefix(text, more, pattern, j);
    }
    FirstAtIs(text + more, pattern, at);
  }

  // ---- the walk ---------------------------------------------------------------------------------

  datatype Mode = Preamble | Headers | Body

  /** One part read: its raw header bytes, and its bytes. */
  datatype Part = Part(head: Bytes, body: Bytes)

  /** Where the walk is: what is held of the stream, the part being read, and the parts read. */
  datatype State = State(mode: Mode, window: Bytes, head: Bytes, taken: Bytes, parts: seq<Part>)

  const START := State(Preamble, [], [], [], [])

  /** A line end, two dashes and the boundary. */
  predicate IsDelimiter(d: Bytes) {
    |d| >= 4 && d[..4] == [CR, LF, DASH, DASH]
  }

  /** One step of the walk, and whether it goes on. */
  datatype Stepped = Stepped(state: State, more: bool)

  function SkipPreamble(s: State, d: Bytes): Stepped
    requires IsDelimiter(d)
  {
    var first := FirstAt(s.window, d[2..]);
    if first.None? then
      Stepped(s.(window := s.window[if |s.window| > |d| then |s.window| - |d| else 0..]), false)
    else
      Stepped(s.(window := s.window[first.value + |d| - 2..], mode := Headers), true)
  }

  predicate AtClose(window: Bytes) {
    DASHES <= window
  }

  function ReadHeaders(s: State): Stepped {
    if AtClose(s.window) then Stepped(s.(window := []), false)
    else
      var end := FirstAt(s.window, CRLF2);
      if end.None? then Stepped(s, false)
      else
        Stepped(s.(head := s.window[..end.value], taken := [], window := s.window[end.value + 4..], mode := Body), true)
  }

  function ReadBody(s: State, d: Bytes): Stepped
    requires IsDelimiter(d)
  {
    var at := FirstAt(s.window, d);
    if at.None? then
      var safe := if |s.window| >= |d| then |s.window| - (|d| - 1) else 0;
      Stepped(s.(taken := s.taken + s.window[..safe], window := s.window[safe..]), false)
    else
      Stepped(s.(parts := s.parts + [Part(s.head, s.taken + s.window[..at.value])],
                 head := [], taken := [], window := s.window[at.value + |d|..], mode := Headers), true)
  }

  function Step(s: State, d: Bytes): (next: Stepped)
    requires IsDelimiter(d)
    ensures next.more ==> |next.state.window| < |s.window|
  {
    match s.mode
    case Preamble => SkipPreamble(s, d)
    case Headers => ReadHeaders(s)
    case Body => ReadBody(s, d)
  }

  /** Steps until one needs more of the stream. */
  function Drain(s: State, d: Bytes): State
    requires IsDelimiter(d)
    decreases |s.window|
  {
    var next := Step(s, d);
    if next.more then Drain(next.state, d) else next.state
  }

  /** What is left to do after a step: drain on, or nothing. */
  function Left(s: State, more: bool, d: Bytes): State
    requires IsDelimiter(d)
  {
    if more then Drain(s, d) else s
  }

  lemma DrainStep(s: State, d: Bytes)
    requires IsDelimiter(d)
    ensures Drain(s, d) == Left(Step(s, d).state, Step(s, d).more, d)
    ensures Step(s, d).more ==> |Step(s, d).state.window| < |s.window|
    ensures s.mode.Preamble? && Step(s, d).more ==> Step(s, d).state.mode.Headers?
    ensures s.mode.Headers? && Step(s, d).more ==> Step(s, d).state.mode.Body?
  {
  }

  function FeedState(s: State, chunk: Bytes, d: Bytes): State
    requires IsDelimiter(d)
  {
    Drain(s.(window := s.window + chunk), d)
  }

  /** The parts once the stream has ended: a part still being read ends there. */
  function Ended(s: State): seq<Part> {
    if s.mode.Body? then s.parts + [Part(s.head, s.taken)] else s.parts
  }

  /** The walk as it runs: its window, its state and the part being read are fields. */
  class MultipartParts {
    const delimiter: Bytes
    var mode: Mode
    var window: Bytes
    var head: Bytes
    var taken: Bytes
    var parts: seq<Part>

    function At(): State
      reads this
    {
      State(mode, window, head, taken, parts)
    }

    constructor (boundary: Bytes)
      ensures delimiter == [CR, LF, DASH, DASH] + boundary && IsDelimiter(delimiter) && At() == START
    {
      delimiter := [CR, LF, DASH, DASH] + boundary;
      mode, window, head, taken, parts := Preamble, [], [], [], [];
    }

    method Feed(chunk: Bytes)
      requires IsDelimiter(delimiter)
      modifies this
      ensures At() == FeedState(old(At()), chunk, delimiter)
    {
      window := window + chunk;
      ghost var target := FeedState(old(At()), chunk, delimiter);
      var more := true;
      while more
        invariant Left(At(), more, delimiter) == target
        decreases more, |window|
      {
        if mode.Preamble? {
          DrainStep(At(), delimiter);
          more := TakePreamble();
        }
        if more && mode.Headers? {
          DrainStep(At(), delimiter);
          more := TakeHeaders();
        }
        if more {
          DrainStep(At(), delimiter);
          more := TakeBody();
        }
      }
    }

    method TakePreamble() returns (more: bool)
      requires IsDelimiter(delimiter) && mode.Preamble?
      modifies this
      ensures Stepped(At(), more) == Step(old(At()), delimiter)
    {
      var first := FirstAt(window, delimiter[2..]);
      if first.None? {
        window := window[if |window| > |delimiter| then |window| - |delimiter| else 0..];
        return false;
      }
      window := window[first.value + |delimiter| - 2..];
      mode := Headers;
      more := true;
    }

    method TakeHeaders() returns (more: bool)
      requires IsDelimiter(delimiter) && mode.Headers?
      modifies this
      ensures Stepped(At(), more) == Step(old(At()), delimiter)
    {
      if DASHES <= window {
        window := [];
        return false;
      }
      var end := FirstAt(window, CRLF2);
      if end.None? {
        return false;
      }
      head, taken := window[..end.value], [];
      window := window[end.value + 4..];
      mode := Body;
      more := true;
    }

    method TakeBody() returns (more: bool)
      requires IsDelimiter(delimiter) && mode.Body?
      modifies this
      ensures Stepped(At(), more) == Step(old(At()), delimiter)
    {
      var at := FirstAt(window, delimiter);
      if at.None? {
        var safe := if |window| >= |delimiter| then |window| - (|delimiter| - 1) else 0;
        taken := taken + window[..safe];
        window := window[safe..];
        return false;
      }
      parts := parts + [Part(head, taken + window[..at.value])];
      head, taken := [], [];
      window := window[at.value + |delimiter|..];
      mode := Headers;
      more := true;
    }

    method End() returns (all: seq<Part>)
      modifies this
      ensures all == Ended(old(At()))
    {
      if mode.Body? {
        parts := parts + [Part(head, taken)];
        head, taken := [], [];
      }
      all := parts;
    }
  }

  // ---- what is held -----------------------------------------------------------------------------

  /** Between chunks no more of a body is held than might start a delimiter. */
  lemma {:induction false} WindowIsBounded(s: State, d: Bytes)
    requires IsDelimiter(d)
    ensures Drain(s, d).mode.Body? ==> |Drain(s, d).window| <= |d| - 1
    ensures Drain(s, d).mode.Preamble? ==> |Drain(s, d).window| <= |d|
    decreases |s.window|
  {
    if Step(s, d).more {
      WindowIsBounded(Step(s, d).state, d);
    }
  }

  // ---- cutting ----------------------------------------------------------------------------------

  /** Whether draining a state reaches the closing boundary, where the walk drops whatever else it holds. */
  predicate Closes(s: State, d: Bytes)
    requires IsDelimiter(d)
    decreases |s.window|
  {
    (s.mode.Headers? && AtClose(s.window)) || (Step(s, d).more && Closes(Step(s, d).state, d))
  }

  /** What follows the closing boundary in the window it is reached in. */
  function Epilogue(s: State, d: Bytes): Bytes
    requires IsDelimiter(d) && Closes(s, d)
    decreases |s.window|
  {
    if s.mode.Headers? && AtClose(s.window) then s.window[2..] else Epilogue(Step(s, d).state, d)
  }

  function More(s: State, more: Bytes): State {
    s.(window := s.window + more)
  }

  /** A step that goes on takes the same step however much follows, and leaves what follows behind it. */
  lemma StepGrows(s: State, more: Bytes, d: Bytes)
    requires IsDelimiter(d) && Step(s, d).more
    ensures Step(More(s, more), d) == Stepped(More(Step(s, d).state, more), true)
  {
    hide FirstAt;
    match s.mode
    case Preamble =>
      FirstAtGrows(s.window, more, d[2..]);
      DropGrows(s.window, more, FirstAt(s.window, d[2..]).value + |d| - 2);
    case Headers => HeadGrows(s, more);
    case Body => BodyGrows(s, more, d);
  }

  lemma DropGrows(window: Bytes, more: Bytes, from: nat)
    requires from <= |window|
    ensures (window + more)[from..] == window[from..] + more && (window + more)[..from] == window[..from]
  {
  }

  lemma HeadGrows(s: State, more: Bytes)
    requires s.mode.Headers? && ReadHeaders(s).more
    ensures ReadHeaders(More(s, more)) == Stepped(More(ReadHeaders(s).state, more), true)
  {
    hide FirstAt;
    FirstAtGrows(s.window, more, CRLF2);
    var end := FirstAt(s.window, CRLF2).value;
    DropGrows(s.window, more, end);
    DropGrows(s.window, more, end + 4);
    DropGrows(s.window, more, 2);
  }

  lemma BodyGrows(s: State, more: Bytes, d: Bytes)
    requires IsDelimiter(d) && s.mode.Body? && ReadBody(s, d).more
    ensures ReadBody(More(s, more), d) == Stepped(More(ReadBody(s, d).state, more), true)
  {
    hide FirstAt;
    FirstAtGrows(s.window, more, d);
    var at := FirstAt(s.window, d).value;
    DropGrows(s.window, more, at);
    DropGrows(s.window, more, at + |d|);
  }

  /** A step that stops short of the closing boundary loses nothing: what follows is read as if it had been there. */
  lemma StopResumes(s: State, more: Bytes, d: Bytes)
    requires IsDelimiter(d) && !Step(s, d).more && !(s.mode.Headers? && AtClose(s.window))
    ensures Drain(More(Step(s, d).state, more), d) == Drain(More(s, more), d)
    ensures Closes(More(Step(s, d).state, more), d) <==> Closes(More(s, more), d)
    ensures Closes(More(s, more), d) ==> Epilogue(More(Step(s, d).state, more), d) == Epilogue(More(s, more), d)
  {
    if s.mode.Preamble? {
      PreambleResumes(s, more, d);
    } else if s.mode.Body? {
      BodyResumes(s, more, d);
    }
  }

  lemma PreambleResumes(s: State, more: Bytes, d: Bytes)
    requires IsDelimiter(d) && s.mode.Preamble? && !Step(s, d).more
    ensures Step(More(Step(s, d).state, more), d) == Step(More(s, more), d)
  {
    hide FirstAt;
    var w, t := s.window, s.window + more;
    var from := if |w| > |d| then |w| - |d| else 0;
    NothingBefore(w, more, d[2..], from);
    FirstAtRest(t, from, d[2..]);
    assert w[from..] + more == t[from..];
    if FirstAt(t, d[2..]).Some? {
      var at := FirstAt(t, d[2..]).value;
      assert t[from..][at - from + |d| - 2..] == t[at + |d| - 2..];
    }
  }

  lemma BodyResumes(s: State, more: Bytes, d: Bytes)
    requires IsDelimiter(d) && s.mode.Body? && !Step(s, d).more
    ensures Step(More(Step(s, d).state, more), d) == Step(More(s, more), d)
  {
    var w, t := s.window, s.window + more;
    var from := if |w| >= |d| then |w| - (|d| - 1) else 0;
    NothingBefore(w, more, d, from);
    assert w[from..] + more == t[from..];
    assert w[..from] == t[..from];
    BodySkips(s.(window := t), from, d);
  }

  /** Bytes where no delimiter starts may be taken before the rest is searched. */
  lemma BodySkips(s: State, from: nat, d: Bytes)
    requires IsDelimiter(d) && s.mode.Body? && from <= |s.window|
    requires from == 0 || from + |d| <= |s.window| + 1
    requires forall j :: 0 <= j < from ==> !Occurs(s.window, d, j)
    ensures Step(s.(taken := s.taken + s.window[..from], window := s.window[from..]), d) == Step(s, d)
  {
    var t := s.window;
    FirstAtRest(t, from, d);
    if FirstAt(t, d).Some? {
      PartEnds(s, from, FirstAt(t, d).value, d);
    } else {
      NoneEnds(s, from, d);
    }
  }

  lemma NoneEnds(s: State, from: nat, d: Bytes)
    requires IsDelimiter(d) && s.mode.Body? && from <= |s.window|
    requires from == 0 || from + |d| <= |s.window| + 1
    requires FirstAt(s.window, d).None? && FirstAt(s.window[from..], d).None?
    ensures Step(s.(taken := s.taken + s.window[..from], window := s.window[from..]), d) == Step(s, d)
  {
    hide FirstAt;
    var t := s.window;
    var upto := if |t| >= |d| then |t| - (|d| - 1) else 0;
    TakeTwice(s.taken, t, from, upto);
    assert t[from..][upto - from..] == t[upto..];
    assert Step(s, d).state == s.(taken := s.taken + t[..upto], window := t[upto..]);
  }

  lemma PartEnds(s: State, from: nat, at: nat, d: Bytes)
    requires IsDelimiter(d) && s.mode.Body? && from <= at && at + |d| <= |s.window|
    requires FirstAt(s.window, d) == Some(at) && FirstAt(s.window[from..], d) == Some(at - from)
    ensures Step(s.(taken := s.taken + s.window[..from], window := s.window[from..]), d) == Step(s, d)
  {
    hide FirstAt;
    TakeTwice(s.taken, s.window, from, at);
    assert s.window[from..][at - from + |d|..] == s.window[at + |d|..];
  }

  lemma TakeTwice(taken: Bytes, t: Bytes, from: nat, upto: nat)
    requires from <= upto <= |t|
    ensures taken + t[..from] + t[from..][..upto - from] == taken + t[..upto]
  {
  }

  lemma NothingBefore(w: Bytes, more: Bytes, pattern: Bytes, from: nat)
    requires FirstAt(w, pattern).None? && from <= |w| && (from > 0 ==> from + |pattern| <= |w| + 1)
    ensures forall j :: 0 <= j < from ==> !Occurs(w + more, pattern, j)
  {
    forall j | 0 <= j < from ensures !Occurs(w + more, pattern, j) {
      OccursInPrefix(w, more, pattern, j);
    }
  }

  /** Draining, then draining what follows, is draining the whole: up to the closing boundary a cut is invisible. */
  lemma {:induction false} DrainResumes(s: State, more: Bytes, d: Bytes)
    requires IsDelimiter(d) && !Closes(s, d)
    ensures Drain(More(Drain(s, d), more), d) == Drain(More(s, more), d)
    ensures Closes(More(Drain(s, d), more), d) <==> Closes(More(s, more), d)
    ensures Closes(More(s, more), d) ==> Epilogue(More(Drain(s, d), more), d) == Epilogue(More(s, more), d)
    decreases |s.window|
  {
    if Step(s, d).more {
      StepGrows(s, more, d);
      DrainResumes(Step(s, d).state, more, d);
    } else {
      StopResumes(s, more, d);
    }
  }

  /** Past the closing boundary, what follows in the same window is dropped with it. */
  lemma {:induction false} CloseGrows(s: State, more: Bytes, d: Bytes)
    requires IsDelimiter(d) && Closes(s, d)
    ensures Closes(More(s, more), d) && Drain(More(s, more), d) == Drain(s, d)
    ensures Epilogue(More(s, more), d) == Epilogue(s, d) + more
    ensures Drain(s, d).mode.Headers? && Drain(s, d).window == []
    decreases |s.window|
  {
    if !(s.mode.Headers? && AtClose(s.window)) {
      StepGrows(s, more, d);
      CloseGrows(Step(s, d).state, more, d);
    }
  }

  function Flatten(chunks: seq<Bytes>): Bytes {
    if chunks == [] then [] else chunks[0] + Flatten(chunks[1..])
  }

  function FeedEach(s: State, chunks: seq<Bytes>, d: Bytes): State
    requires IsDelimiter(d)
    decreases |chunks|
  {
    if chunks == [] then s else FeedEach(FeedState(s, chunks[0], d), chunks[1..], d)
  }

  /** A state between two chunks: nothing in it can be read further before more comes. */
  predicate Idle(s: State, d: Bytes)
    requires IsDelimiter(d)
  {
    !Step(s, d).more && Step(s, d).state == s && !(s.mode.Headers? && AtClose(s.window))
  }

  lemma {:induction false} DrainedIsIdle(s: State, d: Bytes)
    requires IsDelimiter(d)
    ensures Idle(Drain(s, d), d)
    decreases |s.window|
  {
    if Step(s, d).more {
      DrainedIsIdle(Step(s, d).state, d);
    } else if !(s.mode.Headers? && AtClose(s.window)) {
      var w := s.window;
      match s.mode
      case Preamble =>
        var from := if |w| > |d| then |w| - |d| else 0;
        NothingBefore(w, [], d[2..], from);
        assert w + [] == w;
        FirstAtRest(w, from, d[2..]);
      case Headers =>
      case Body =>
        var from := if |w| >= |d| then |w| - (|d| - 1) else 0;
        NothingBefore(w, [], d, from);
        assert w + [] == w;
        FirstAtRest(w, from, d);
        assert s.taken + w[..from] + [] == s.taken + w[..from];
    }
  }

  lemma MoreTwice(s: State, a: Bytes, b: Bytes)
    ensures More(More(s, a), b) == More(s, a + b) && More(s, []) == s
  {
    assert s.window + a + b == s.window + (a + b) && s.window + [] == s.window;
  }

  lemma IdleIsOpen(s: State, d: Bytes)
    requires IsDelimiter(d) && Idle(s, d)
    ensures !Closes(s, d) && Drain(s, d) == s
  {
  }

  /** A body that never reaches a closing boundary leaves the very same state however it is cut. */
  lemma {:induction false} OpenCuts(s: State, chunks: seq<Bytes>, d: Bytes)
    requires IsDelimiter(d) && Idle(s, d) && !Closes(More(s, Flatten(chunks)), d)
    ensures FeedEach(s, chunks, d) == FeedState(s, Flatten(chunks), d)
    decreases |chunks|
  {
    MoreTwice(s, [], []);
    if chunks == [] {
      IdleIsOpen(s, d);
    } else {
      var first, rest := chunks[0], Flatten(chunks[1..]);
      MoreTwice(s, first, rest);
      if Closes(More(s, first), d) {
        CloseGrows(More(s, first), rest, d);
      }
      DrainResumes(More(s, first), rest, d);
      DrainedIsIdle(More(s, first), d);
      OpenCuts(Drain(More(s, first), d), chunks[1..], d);
    }
  }

  lemma NoneInSuffix(text: Bytes, from: nat, pattern: Bytes)
    requires from <= |text| && FirstAt(text, pattern).None?
    ensures FirstAt(text[from..], pattern).None?
  {
    FirstAtRest(text, from, pattern);
  }

  lemma NoneInPrefix(text: Bytes, upto: nat, pattern: Bytes)
    requires upto <= |text| && (FirstAt(text, pattern).Some? ==> upto < FirstAt(text, pattern).value + |pattern|)
    ensures FirstAt(text[..upto], pattern).None?
  {
    var found := FirstAt(text[..upto], pattern);
    assert text == text[..upto] + text[upto..];
    if found.Some? {
      FirstAtGrows(text[..upto], text[upto..], pattern);
    }
  }

  /** Past the closing boundary nothing more is read while no blank line comes. */
  lemma {:induction false} PastClose(s: State, chunks: seq<Bytes>, d: Bytes)
    requires IsDelimiter(d) && s.mode.Headers? && FirstAt(s.window + Flatten(chunks), CRLF2).None?
    ensures FeedEach(s, chunks, d).mode.Headers? && FeedEach(s, chunks, d).parts == s.parts
    decreases |chunks|
  {
    if chunks != [] {
      var all, rest := s.window + Flatten(chunks), Flatten(chunks[1..]);
      var held := s.window + chunks[0];
      assert all == held + rest;
      assert all[..|held|] == held && all[|held|..] == rest;
      NoneInPrefix(all, |held|, CRLF2);
      NoneInSuffix(all, |held|, CRLF2);
      var next := FeedState(s, chunks[0], d);
      assert next == s.(window := held) || next == s.(window := []);
      assert [] + rest == rest;
      PastClose(next, chunks[1..], d);
    }
  }

  /** A body whose epilogue holds no blank line gives the same parts however it is cut. */
  lemma {:induction false} ClosedCuts(s: State, chunks: seq<Bytes>, d: Bytes)
    requires IsDelimiter(d) && Idle(s, d) && Closes(More(s, Flatten(chunks)), d)
    requires FirstAt(Epilogue(More(s, Flatten(chunks)), d), CRLF2).None?
    ensures Ended(FeedEach(s, chunks, d)) == Ended(FeedState(s, Flatten(chunks), d))
    decreases |chunks|
  {
    MoreTwice(s, [], []);
    if chunks == [] {
      IdleIsOpen(s, d);
    } else {
      var first, rest := chunks[0], Flatten(chunks[1..]);
      MoreTwice(s, first, rest);
      if Closes(More(s, first), d) {
        CloseGrows(More(s, first), rest, d);
        var dropped := Epilogue(More(s, first), d);
        assert (dropped + rest)[|dropped|..] == rest;
        NoneInSuffix(dropped + rest, |dropped|, CRLF2);
        assert [] + rest == rest;
        PastClose(Drain(More(s, first), d), chunks[1..], d);
      } else {
        DrainResumes(More(s, first), rest, d);
        DrainedIsIdle(More(s, first), d);
        ClosedCuts(Drain(More(s, first), d), chunks[1..], d);
      }
    }
  }

  /** The closing boundary is reached by what comes before the epilogue alone. */
  lemma {:induction false} ClosesBefore(s: State, d: Bytes)
    requires IsDelimiter(d) && Closes(s, d)
    ensures
      var dropped := Epilogue(s, d);
      var n := |s.window| - |dropped|;
      0 <= n && s.window[n..] == dropped &&
      Closes(Without(s, |dropped|), d) && Epilogue(Without(s, |dropped|), d) == []
    decreases |s.window|
  {
    hide Step, Drain;
    if s.mode.Headers? && AtClose(s.window) {
      CloseAlone(s, d);
    } else {
      var next := Step(s, d).state;
      ClosesBefore(next, d);
      StepOfCut(s, |Epilogue(next, d)|, d);
      MoreIsOpen(Without(s, |Epilogue(next, d)|), d);
    }
  }

  lemma MoreIsOpen(s: State, d: Bytes)
    requires IsDelimiter(d) && Step(s, d).more
    ensures !(s.mode.Headers? && AtClose(s.window))
  {
  }

  lemma CloseAlone(s: State, d: Bytes)
    requires IsDelimiter(d) && s.mode.Headers? && AtClose(s.window)
    ensures Closes(Without(s, |s.window| - 2), d) && Epilogue(Without(s, |s.window| - 2), d) == []
  {
    assert DASHES <= s.window[..2] && s.window[..2][2..] == [];
  }

  function Without(s: State, last: nat): State
    requires last <= |s.window|
  {
    s.(window := s.window[..|s.window| - last])
  }

  lemma StepOfCut(s: State, last: nat, d: Bytes)
    requires IsDelimiter(d) && Step(s, d).more && last <= |Step(s, d).state.window|
    ensures Step(Without(s, last), d) == Stepped(Without(Step(s, d).state, last), true)
    ensures s.window[|s.window| - last..] == Step(s, d).state.window[|Step(s, d).state.window| - last..]
  {
    hide Step;
    var next, n := Step(s, d).state, |s.window| - last;
    StepCuts(s, n, d);
    StepGrows(Without(s, last), s.window[n..], d);
    assert More(Without(s, last), s.window[n..]) == s by {
      assert s.window[..n] + s.window[n..] == s.window;
    }
    assert Step(Without(s, last), d).state.window + s.window[n..] == next.window;
  }

  /** A step that goes on reads no further than where the rest it leaves begins. */
  lemma StepCuts(s: State, n: nat, d: Bytes)
    requires IsDelimiter(d) && Step(s, d).more
    requires |s.window| - |Step(s, d).state.window| <= n <= |s.window|
    ensures Step(s.(window := s.window[..n]), d).more
    ensures s.window[n..] == Step(s, d).state.window[n - (|s.window| - |Step(s, d).state.window|)..]
  {
    hide FirstAt;
    var w := s.window;
    var pattern := match s.mode case Preamble => d[2..] case Headers => CRLF2 case Body => d;
    var at := FirstAt(w, pattern).value;
    assert |w| - |Step(s, d).state.window| == at + |pattern|;
    assert w == w[..n] + w[n..];
    forall j | 0 <= j <= at ensures Occurs(w[..n], pattern, j) <==> Occurs(w, pattern, j) {
      OccursInPrefix(w[..n], w[n..], pattern, j);
    }
    FirstAtIs(w[..n], pattern, at);
  }

  lemma {:induction false} EndedGrows(s: State, d: Bytes)
    requires IsDelimiter(d)
    ensures |Ended(Drain(s, d))| >= |Ended(s)|
    decreases |s.window|
  {
    if Step(s, d).more {
      EndedGrows(Step(s, d).state, d);
    }
  }

  lemma FeedThree(s: State, a: Bytes, b: Bytes, c: Bytes, d: Bytes)
    requires IsDelimiter(d)
    ensures FeedEach(s, [a, b, c], d) == FeedState(FeedState(FeedState(s, a, d), b, d), c, d)
    ensures Flatten([a, b, c]) == a + b + c
  {
    assert [a, b, c][1..] == [b, c] && [b, c][1..] == [c] && [c][1..] == [];
    assert Flatten([c]) == c + [] == c;
    assert Flatten([b, c]) == b + c;
    assert FeedEach(FeedState(FeedState(s, a, d), b, d), [c], d) == FeedState(FeedState(FeedState(s, a, d), b, d), c, d);
    assert FeedEach(FeedState(s, a, d), [b, c], d) == FeedState(FeedState(FeedState(s, a, d), b, d), c, d);
  }

  /** A blank line among the headers is read as the head of one more part. */
  lemma HeadIsRead(s: State, d: Bytes)
    requires IsDelimiter(d) && s.mode.Headers? && !AtClose(s.window) && FirstAt(s.window, CRLF2).Some?
    ensures |Ended(Drain(s, d))| > |s.parts|
  {
    EndedGrows(Step(s, d).state, d);
  }

  /** What is held of an epilogue fed up to its blank line. */
  function HeldOf(epilogue: Bytes, at: nat): Bytes
    requires at <= |epilogue|
  {
    if AtClose(epilogue[..at]) then [] else epilogue[..at]
  }

  lemma FeedBeforeBlankLine(s: State, epilogue: Bytes, at: nat, d: Bytes)
    requires IsDelimiter(d) && s.mode.Headers? && s.window == [] && FirstAt(epilogue, CRLF2) == Some(at)
    ensures FeedState(s, epilogue[..at], d) == s.(window := HeldOf(epilogue, at))
  {
    NoneInPrefix(epilogue, at, CRLF2);
    assert [] + epilogue[..at] == epilogue[..at];
  }

  /** What is held of an epilogue cut before its blank line, and what follows, still show the blank line. */
  lemma BlankLineShows(epilogue: Bytes, at: nat)
    requires FirstAt(epilogue, CRLF2) == Some(at)
    ensures !AtClose(HeldOf(epilogue, at) + epilogue[at..])
    ensures FirstAt(HeldOf(epilogue, at) + epilogue[at..], CRLF2).Some?
  {
    assert epilogue[at..at + 4] == CRLF2 && epilogue[at] == CRLF2[0];
    if AtClose(epilogue[..at]) {
      assert [] + epilogue[at..] == epilogue[at..];
      FirstAtRest(epilogue, at, CRLF2);
    } else {
      assert epilogue[..at] + epilogue[at..] == epilogue;
    }
  }

  ghost predicate CutsAlike(body: Bytes, d: Bytes)
    requires IsDelimiter(d)
  {
    forall chunks: seq<Bytes> :: Flatten(chunks) == body ==>
      Ended(FeedEach(START, chunks, d)) == Ended(FeedState(START, body, d))
  }

  /**
   * Parsing does not depend on how a body is cut into chunks exactly when no blank line follows its closing boundary:
   * the walk stays among the headers there, and reads whatever a later chunk brings.
   */
  lemma CuttingIsInvisible(body: Bytes, d: Bytes)
    requires IsDelimiter(d)
    ensures CutsAlike(body, d) <==>
      (Closes(More(START, body), d) ==> FirstAt(Epilogue(More(START, body), d), CRLF2).None?)
  {
    DrainedIsIdle(START, d);
    NothingYet(d);
    if Closes(More(START, body), d) ==> FirstAt(Epilogue(More(START, body), d), CRLF2).None? {
      forall chunks: seq<Bytes> | Flatten(chunks) == body
        ensures Ended(FeedEach(START, chunks, d)) == Ended(FeedState(START, body, d))
      {
        if Closes(More(START, body), d) {
          ClosedCuts(START, chunks, d);
        } else {
          OpenCuts(START, chunks, d);
        }
      }
    } else {
      BadCut(body, d);
    }
  }

  lemma NothingYet(d: Bytes)
    requires IsDelimiter(d)
    ensures Idle(START, d)
  {
  }

  /** Cut right after its closing boundary, a window leaves the walk where the whole of it does. */
  lemma CutAtClose(s: State, d: Bytes) returns (n: nat)
    requires IsDelimiter(d) && Closes(s, d)
    ensures n <= |s.window| && s.window[n..] == Epilogue(s, d)
    ensures Drain(s.(window := s.window[..n]), d) == Drain(s, d)
    ensures Drain(s, d).mode.Headers? && Drain(s, d).window == []
  {
    hide Step, FirstAt, Drain;
    ClosesBefore(s, d);
    n := |s.window| - |Epilogue(s, d)|;
    var cut := s.(window := s.window[..n]);
    CloseGrows(cut, s.window[n..], d);
    assert More(cut, s.window[n..]) == s by {
      assert s.window[..n] + s.window[n..] == s.window;
    }
  }

  lemma FromStart(body: Bytes)
    ensures More(START, body) == START.(window := body)
  {
    assert [] + body == body;
  }

  lemma BadCut(body: Bytes, d: Bytes)
    requires IsDelimiter(d) && Closes(More(START, body), d)
    requires FirstAt(Epilogue(More(START, body), d), CRLF2).Some?
    ensures !CutsAlike(body, d)
  {
    hide Step, Drain, Closes, Epilogue, FeedEach;
    var whole := More(START, body);
    FromStart(body);
    var n := CutAtClose(whole, d);
    FromStart(body[..n]);
    var epilogue := Epilogue(whole, d);
    assert body[..n] + epilogue == body;
    BadCutAt(body[..n], epilogue, FirstAt(epilogue, CRLF2).value, Drain(whole, d), d);
  }

  lemma BadCutAt(start: Bytes, epilogue: Bytes, at: nat, closed: State, d: Bytes)
    requires IsDelimiter(d) && FirstAt(epilogue, CRLF2) == Some(at)
    requires closed.mode.Headers? && closed.window == []
    requires FeedState(START, start, d) == closed && FeedState(START, start + epilogue, d) == closed
    ensures !CutsAlike(start + epilogue, d)
  {
    hide Drain, FirstAt, FeedEach;
    var b, c := epilogue[..at], epilogue[at..];
    EpilogueIsRead(closed, epilogue, at, d);
    FeedThree(START, start, b, c, d);
    assert start + b + c == start + epilogue by {
      assert b + c == epilogue;
    }
    CutsApart(start + epilogue, [start, b, c], d);
  }

  lemma EpilogueIsRead(closed: State, epilogue: Bytes, at: nat, d: Bytes)
    requires IsDelimiter(d) && closed.mode.Headers? && closed.window == [] && FirstAt(epilogue, CRLF2) == Some(at)
    ensures |Ended(FeedState(FeedState(closed, epilogue[..at], d), epilogue[at..], d))| > |closed.parts|
  {
    FeedBeforeBlankLine(closed, epilogue, at, d);
    BlankLineShows(epilogue, at);
    HeadIsRead(closed.(window := HeldOf(epilogue, at) + epilogue[at..]), d);
  }

  lemma CutsApart(body: Bytes, chunks: seq<Bytes>, d: Bytes)
    requires IsDelimiter(d) && Flatten(chunks) == body
    requires Ended(FeedEach(START, chunks, d)) != Ended(FeedState(START, body, d))
    ensures !CutsAlike(body, d)
  {
  }

  // ---- the round trip ---------------------------------------------------------------------------

  function EncodeParts(parts: seq<Part>, d: Bytes): Bytes {
    if parts == [] then [] else parts[0].head + [13, 10, 13, 10] + (parts[0].body + d + EncodeParts(parts[1..], d))
  }

  /** A body as a client writes it, byte by byte: a preamble, the first boundary, each part up to the next, the closing one. */
  function Encode(preamble: Bytes, parts: seq<Part>, epilogue: Bytes, d: Bytes): Bytes
    requires IsDelimiter(d)
  {
    preamble + d[2..] + (EncodeParts(parts, d) + ([45, 45] + epilogue))
  }

  /** The first occurrence of a pattern in a text it is written after is where it is written. */
  predicate Delimits(text: Bytes, pattern: Bytes) {
    FirstAt(text + pattern, pattern) == Some(|text|)
  }

  predicate WellFormed(part: Part, d: Bytes) {
    !AtClose(part.head + CRLF2) && Delimits(part.head, CRLF2) && Delimits(part.body, d)
  }

  /** A boundary without a carriage return delimits every body that does not hold the delimiter. */
  lemma BoundaryDelimits(body: Bytes, boundary: Bytes)
    requires 13 !in boundary
    requires FirstAt(body, [13, 10, 45, 45] + boundary).None?
    ensures IsDelimiter([13, 10, 45, 45] + boundary) && Delimits(body, [13, 10, 45, 45] + boundary)
  {
    hide FirstAt;
    var d := [CR, LF, DASH, DASH] + boundary;
    var text := body + d;
    assert text[|body|..|body| + |d|] == d;
    forall j | 0 <= j < |body| ensures !Occurs(text, d, j) {
      if j + |d| <= |body| {
        OccursInPrefix(body, d, d, j);
      } else {
        var k := |body| - j;
        Straddles(body, d, j);
        assert k >= 4 ==> d[k] == boundary[k - 4];
        assert d[k] != CR;
      }
    }
    FirstAtIs(text, d, |body|);
  }

  lemma Straddles(body: Bytes, d: Bytes, j: nat)
    requires j < |body| < j + |d|
    ensures Occurs(body + d, d, j) ==> d[|body| - j] == d[0]
  {
    var text := body + d;
    if Occurs(text, d, j) {
      assert text[j..j + |d|][|body| - j] == text[|body|];
    }
  }

  lemma DelimitsAhead(text: Bytes, pattern: Bytes, rest: Bytes)
    requires Delimits(text, pattern)
    ensures FirstAt(text + pattern + rest, pattern) == Some(|text|)
    ensures (text + pattern + rest)[..|text|] == text
    ensures (text + pattern + rest)[|text| + |pattern|..] == rest
  {
    hide FirstAt;
    FirstAtGrows(text + pattern, rest, pattern);
  }

  lemma PartIsRead(s: State, part: Part, rest: Bytes, d: Bytes)
    requires IsDelimiter(d) && s.mode.Headers? && WellFormed(part, d)
    requires s.window == part.head + CRLF2 + (part.body + d + rest)
    ensures Step(s, d).more && Step(Step(s, d).state, d) == Stepped(State(Headers, rest, [], [], s.parts + [part]), true)
    ensures !AtClose(s.window)
  {
    hide FirstAt;
    DelimitsAhead(part.head, CRLF2, part.body + d + rest);
    DelimitsAhead(part.body, d, rest);
    var head := part.head + CRLF2;
    assert s.window[..2] == head[..2];
    assert [] + part.body == part.body;
  }

  lemma {:induction false} PartsAreRead(s: State, parts: seq<Part>, epilogue: Bytes, d: Bytes)
    requires IsDelimiter(d) && s.mode.Headers? && s.head == [] && s.taken == []
    requires forall i :: 0 <= i < |parts| ==> WellFormed(parts[i], d)
    requires s.window == EncodeParts(parts, d) + (DASHES + epilogue)
    ensures Closes(s, d) && Epilogue(s, d) == epilogue
    ensures Drain(s, d) == State(Headers, [], [], [], s.parts + parts)
    decreases |parts|
  {
    hide Step, Drain, Closes, Epilogue, WellFormed;
    if parts == [] {
      assert s.parts + parts == s.parts;
      assert s.window == DASHES + epilogue;
      CloseIsRead(s, epilogue, d);
    } else {
      var rest := EncodeParts(parts[1..], d) + (DASHES + epilogue);
      Regroup(parts[0].head + CRLF2, parts[0].body + d, EncodeParts(parts[1..], d), DASHES + epilogue);
      PartIsRead(s, parts[0], rest, d);
      var next := State(Headers, rest, [], [], s.parts + [parts[0]]);
      PartsAreRead(next, parts[1..], epilogue, d);
      TwoSteps(s, next, d);
      assert s.parts + [parts[0]] + parts[1..] == s.parts + parts;
    }
  }

  lemma Regroup(a: Bytes, b: Bytes, c: Bytes, tail: Bytes)
    ensures a + (b + c) + tail == a + (b + (c + tail))
  {
  }

  lemma CloseIsRead(s: State, epilogue: Bytes, d: Bytes)
    requires IsDelimiter(d) && s.mode.Headers? && s.window == DASHES + epilogue
    ensures Closes(s, d) && Epilogue(s, d) == epilogue && Drain(s, d) == s.(window := [])
  {
  }

  lemma TwoSteps(s: State, next: State, d: Bytes)
    requires IsDelimiter(d) && s.mode.Headers? && !AtClose(s.window)
    requires Step(s, d).more && Step(Step(s, d).state, d) == Stepped(next, true)
    ensures Drain(s, d) == Drain(next, d) && (Closes(s, d) <==> Closes(next, d))
    ensures Closes(next, d) ==> Epilogue(s, d) == Epilogue(next, d)
  {
    var between := Step(s, d).state;
    assert between.mode.Body?;
    assert Drain(between, d) == Drain(next, d);
  }

  /**
   * The round trip: a body written around parts its boundary delimits is read back as those parts, and stops at its
   * closing boundary.
   */
  lemma EncodedIsRead(preamble: Bytes, parts: seq<Part>, epilogue: Bytes, d: Bytes)
    requires IsDelimiter(d) && Delimits(preamble, d[2..])
    requires forall i :: 0 <= i < |parts| ==> WellFormed(parts[i], d)
    ensures
      var s := More(START, Encode(preamble, parts, epilogue, d));
      Closes(s, d) && Epilogue(s, d) == epilogue && Ended(Drain(s, d)) == parts
  {
    hide FirstAt;
    var body := Encode(preamble, parts, epilogue, d);
    var rest := EncodeParts(parts, d) + (DASHES + epilogue);
    FromStart(body);
    DelimitsAhead(preamble, d[2..], rest);
    var next := START.(window := rest, mode := Headers);
    assert Step(START.(window := body), d) == Stepped(next, true);
    PartsAreRead(next, parts, epilogue, d);
    assert [] + parts == parts;
  }

  /** And so it is in whatever chunks it comes, where no blank line follows its closing boundary. */
  lemma EncodedIsReadInChunks(preamble: Bytes, parts: seq<Part>, epilogue: Bytes, d: Bytes, chunks: seq<Bytes>)
    requires IsDelimiter(d) && Delimits(preamble, d[2..])
    requires forall i :: 0 <= i < |parts| ==> WellFormed(parts[i], d)
    requires FirstAt(epilogue, CRLF2).None?
    requires Flatten(chunks) == Encode(preamble, parts, epilogue, d)
    ensures Ended(FeedEach(START, chunks, d)) == parts
  {
    hide FirstAt, Drain, FeedEach;
    EncodedIsRead(preamble, parts, epilogue, d);
    CuttingIsInvisible(Encode(preamble, parts, epilogue, d), d);
    assert CutsAlike(Encode(preamble, parts, epilogue, d), d);
  }
}
