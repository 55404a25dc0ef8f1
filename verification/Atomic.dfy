/** The scope of an atomic graph's run: at most one transaction, on one connection, settled once at its boundary. */
module Atomicity {
  import opened Json

  /** What a scope holds: the connection, and the transaction opened on it, by the number its opener gave it. */
  datatype Transaction = Transaction(connection: string, participant: nat)

  datatype Joined = Shares(participant: nat) | TwoConnections(held: string, asked: string)

  datatype Settling = Committed(participant: nat) | RolledBack(participant: nat)

  // ---- one scope --------------------------------------------------------------------------------

  /** The transaction once a join has asked for one: the first opens it. */
  function Holding(held: Option<Transaction>, connection: string, number: nat): Option<Transaction> {
    if held.None? then Some(Transaction(connection, number)) else held
  }

  function JoinOf(held: Option<Transaction>, connection: string, number: nat): Joined {
    if held.Some? && held.value.connection != connection then TwoConnections(held.value.connection, connection)
    else Shares(Holding(held, connection, number).value.participant)
  }

  /** The scope of one run. */
  class AtomicScope {
    var held: Option<Transaction>
    /** How many transactions it has opened, and how many it has settled. */
    ghost var opens: nat
    ghost var settlings: seq<Settling>

    ghost predicate Valid()
      reads this
    {
      opens == if held.Some? then 1 else 0
    }

    constructor ()
      ensures Valid() && held == None && settlings == []
    {
      held := None;
      opens, settlings := 0, [];
    }

    /** The transaction on a connection: opened by the first join, the same for every later one there. */
    method JoinOn(connection: string, number: nat) returns (joined: Joined)
      requires Valid()
      modifies this
      ensures Valid() && settlings == old(settlings) && held == Holding(old(held), connection, number)
      ensures joined == JoinOf(old(held), connection, number)
    {
      if held.None? {
        held := Some(Transaction(connection, number));
        opens := opens + 1;
      } else if held.value.connection != connection {
        return TwoConnections(held.value.connection, connection);
      }
      return Shares(held.value.participant);
    }

    /** End the transaction, if one was opened: commit when the run answered, roll back otherwise. */
    method Settle(commit: bool)
      requires Valid()
      modifies this
      ensures Valid() && held == old(held) && settlings == old(settlings) + SettlingOf(held, commit)
    {
      if held.Some? {
        settlings := settlings + [if commit then Committed(held.value.participant) else RolledBack(held.value.participant)];
      }
    }
  }

  function SettlingOf(held: Option<Transaction>, commit: bool): seq<Settling> {
    if held.None? then []
    else [if commit then Committed(held.value.participant) else RolledBack(held.value.participant)]
  }

  // ---- runs, nested and side by side ------------------------------------------------------------

  /** A run by its number; a scope goes by the number of the outermost run that made it. */
  type RunId = nat

  /** A run: the one whose node started it, how deep that is, the scope it carries, and whether it was done once over. */
  datatype Run = Run(parent: Option<RunId>, depth: nat, scope: RunId, over: Option<bool>)

  /** A join there was: the run it came from, the scope that run carries, the connection it asked for and what it got. */
  datatype Entry = Entry(run: RunId, scope: RunId, connection: string, joined: Joined)

  /** Every run of atomic graphs, what each scope holds and has settled, how many transactions were opened, and every join. */
  datatype State = State(
    runs: map<RunId, Run>,
    held: map<RunId, Transaction>,
    settled: map<RunId, seq<Settling>>,
    openings: nat,
    log: seq<Entry>)

  const NONE: State := State(map[], map[], map[], 0, [])

  function HeldBy(s: State, scope: RunId): Option<Transaction> {
    if scope in s.held then Some(s.held[scope]) else None
  }

  function SettledBy(s: State, scope: RunId): seq<Settling> {
    if scope in s.settled then s.settled[scope] else []
  }

  predicate Going(s: State, id: RunId) {
    id in s.runs && s.runs[id].over.None?
  }

  /** A run begins, outermost or below another; a node of a run joins; a run is over, all its nodes having settled. */
  datatype Step = Begins(id: RunId, parent: Option<RunId>) | Joins(id: RunId, connection: string) | Ends(id: RunId, done: bool)

  predicate Enabled(s: State, step: Step) {
    match step
    case Begins(id, parent) => id !in s.runs && (parent.Some? ==> Going(s, parent.value))
    case Joins(id, _) => Going(s, id)
    case Ends(id, _) => Going(s, id) && forall r :: r in s.runs && s.runs[r].parent == Some(id) ==> !Going(s, r)
  }

  /** A run below another carries its scope; an outermost one makes its own, and settles it as it ends. */
  function After(s: State, step: Step): State
    requires Enabled(s, step)
  {
    match step
    case Begins(id, None) => s.(runs := s.runs[id := Run(None, 0, id, None)])
    case Begins(id, Some(p)) => s.(runs := s.runs[id := Run(Some(p), s.runs[p].depth + 1, s.runs[p].scope, None)])
    case Joins(id, connection) =>
      var scope := s.runs[id].scope;
      var was := HeldBy(s, scope);
      s.(held := s.held[scope := Holding(was, connection, s.openings).value],
         openings := if was.None? then s.openings + 1 else s.openings,
         log := s.log + [Entry(id, scope, connection, JoinOf(was, connection, s.openings))])
    case Ends(id, done) =>
      var ended := s.(runs := s.runs[id := s.runs[id].(over := Some(done))]);
      if s.runs[id].scope == id
      then ended.(settled := s.settled[id := SettledBy(s, id) + SettlingOf(HeldBy(s, id), done)])
      else ended
  }

  ghost predicate Trace(states: seq<State>, steps: seq<Step>) {
    |states| == |steps| + 1 && states[0] == NONE &&
    forall i :: 0 <= i < |steps| ==> Enabled(states[i], steps[i]) && states[i + 1] == After(states[i], steps[i])
  }

  // ---- what every state keeps -------------------------------------------------------------------

  /** A run carries its own scope or that of the run above it, which is going while it is. */
  predicate Nests(s: State, id: RunId)
    requires id in s.runs
  {
    var run := s.runs[id];
    if run.parent.None? then run.scope == id
    else
      run.parent.value in s.runs && var above := s.runs[run.parent.value];
      run.depth == above.depth + 1 && run.scope == above.scope && (run.over.None? ==> above.over.None?) &&
      run.scope in s.runs && s.runs[run.scope].parent.None?
  }

  ghost predicate Tree(s: State) {
    forall id :: id in s.runs ==> Nests(s, id)
  }

  ghost predicate IsFirst(log: seq<Entry>, scope: RunId, i: nat) {
    i < |log| && log[i].scope == scope && forall j :: 0 <= j < i ==> log[j].scope != scope
  }

  /** Every join got what its scope holds, or was refused for it; what a scope holds is what its first join opened. */
  ghost predicate Shared(s: State) {
    (forall i :: 0 <= i < |s.log| ==>
      s.log[i].scope in s.held && s.log[i].joined == JoinOf(Some(s.held[s.log[i].scope]), s.log[i].connection, 0)) &&
    (forall scope :: scope in s.held ==>
      exists i: nat :: IsFirst(s.log, scope, i) && s.log[i].connection == s.held[scope].connection)
  }

  /** As many transactions were opened as scopes hold one, each with its own. */
  ghost predicate Numbered(s: State) {
    s.held.Keys <= s.runs.Keys && Counted(s.held, s.openings)
  }

  ghost predicate Counted(held: map<RunId, Transaction>, openings: nat) {
    openings == |held| &&
    (forall scope :: scope in held ==> held[scope].participant < openings) &&
    (forall a, b :: a in held && b in held && held[a].participant == held[b].participant ==> a == b)
  }

  /** A scope is settled once its outermost run is over and not before; no other run settles anything. */
  ghost predicate Settles(s: State) {
    (forall id :: id in s.settled ==> id in s.runs && s.runs[id].parent.None?) &&
    (forall id :: id in s.runs && s.runs[id].parent.None? ==>
      SettledBy(s, id) == if s.runs[id].over.None? then [] else SettlingOf(HeldBy(s, id), s.runs[id].over.value))
  }

  ghost predicate Inv(s: State) {
    Tree(s) && Shared(s) && Numbered(s) && Settles(s)
  }

  /** While a run is going, so is the outermost run whose scope it carries. */
  lemma {:induction false} ScopeIsOpen(s: State, id: RunId)
    requires Tree(s) && Going(s, id)
    ensures Going(s, s.runs[id].scope) && s.runs[s.runs[id].scope].parent.None?
    decreases s.runs[id].depth
  {
    assert Nests(s, id);
    if s.runs[id].parent.Some? {
      ScopeIsOpen(s, s.runs[id].parent.value);
    }
  }

  lemma TreeKeeps(s: State, step: Step)
    requires Tree(s) && Enabled(s, step)
    ensures Tree(After(s, step))
  {
    var s' := After(s, step);
    forall id | id in s'.runs ensures Nests(s', id) {
      if id in s.runs {
        assert Nests(s, id);
      } else {
        var parent := step.parent;
        if parent.Some? {
          assert Nests(s, parent.value);
        }
      }
    }
  }

  /** What a join leaves of what is held. */
  lemma JoinHolds(s: State, step: Step)
    requires Enabled(s, step) && step.Joins?
    ensures var s', scope := After(s, step), s.runs[step.id].scope;
      s'.runs == s.runs && s'.settled == s.settled &&
      s'.log == s.log + [Entry(step.id, scope, step.connection, JoinOf(HeldBy(s, scope), step.connection, s.openings))] &&
      if scope in s.held then s'.held == s.held && s'.openings == s.openings
      else s'.held == s.held[scope := Transaction(step.connection, s.openings)] && s'.openings == s.openings + 1
  {
  }

  /** A beginning or an ending leaves what is held and what was joined. */
  lemma OthersHold(s: State, step: Step)
    requires Enabled(s, step) && !step.Joins?
    ensures var s' := After(s, step);
      s'.held == s.held && s'.openings == s.openings && s'.log == s.log && s.runs.Keys <= s'.runs.Keys
  {
  }

  lemma SharedKeeps(s: State, step: Step)
    requires Shared(s) && Enabled(s, step)
    ensures Shared(After(s, step))
  {
    hide After, Enabled;
    if step.Joins? {
      JoinHolds(s, step);
      var s' := After(s, step);
      forall other | other in s'.held
        ensures exists i: nat :: IsFirst(s'.log, other, i) && s'.log[i].connection == s'.held[other].connection
      {
        if other in s.held {
          var i: nat :| IsFirst(s.log, other, i) && s.log[i].connection == s.held[other].connection;
          assert IsFirst(s'.log, other, i) && s'.log[i] == s.log[i];
        } else {
          assert IsFirst(s'.log, other, |s.log|);
        }
      }
    } else {
      OthersHold(s, step);
    }
  }

  lemma NumberedKeeps(s: State, step: Step)
    requires Tree(s) && Numbered(s) && Enabled(s, step)
    ensures Numbered(After(s, step))
  {
    hide After, Tree, Enabled, Counted;
    if step.Joins? {
      JoinHolds(s, step);
      ScopeIsThere(s, step);
      OneMore(s.held, s.openings, s.runs[step.id].scope, step.connection);
    } else {
      OthersHold(s, step);
    }
  }

  lemma OneMore(held: map<RunId, Transaction>, openings: nat, scope: RunId, connection: string)
    requires Counted(held, openings)
    ensures scope !in held ==> Counted(held[scope := Transaction(connection, openings)], openings + 1)
  {
    if scope !in held {
      assert held[scope := Transaction(connection, openings)].Keys == held.Keys + {scope};
    }
  }

  lemma ScopeIsThere(s: State, step: Step)
    requires Tree(s) && Enabled(s, step) && !step.Begins?
    ensures step.id in s.runs && Nests(s, step.id) && s.runs[step.id].scope in s.runs
    ensures s.runs[s.runs[step.id].scope].parent.None?
  {
  }

  lemma SettlesKeeps(s: State, step: Step)
    requires Tree(s) && Settles(s) && Enabled(s, step)
    ensures Settles(After(s, step))
  {
    match step
    case Begins(id, parent) => BeginSettlesNothing(s, step);
    case Joins(id, _) =>
      hide After, Tree;
      ScopeIsOpen(s, id);
      JoinHolds(s, step);
    case Ends(id, _) => EndSettles(s, step);
  }

  lemma BeginSettlesNothing(s: State, step: Step)
    requires Settles(s) && Enabled(s, step) && step.Begins?
    ensures Settles(After(s, step))
  {
    hide SettlingOf;
  }

  lemma EndSettles(s: State, step: Step)
    requires Tree(s) && Settles(s) && Enabled(s, step) && step.Ends?
    ensures Settles(After(s, step))
  {
    hide Tree, SettlingOf;
    ScopeIsThere(s, step);
  }

  lemma {:induction false} TraceKeeps(states: seq<State>, steps: seq<Step>, n: nat)
    requires Trace(states, steps) && n < |states|
    ensures Inv(states[n])
  {
    if n > 0 {
      TraceKeeps(states, steps, n - 1);
      TreeKeeps(states[n - 1], steps[n - 1]);
      SharedKeeps(states[n - 1], steps[n - 1]);
      NumberedKeeps(states[n - 1], steps[n - 1]);
      SettlesKeeps(states[n - 1], steps[n - 1]);
    }
  }

  // ---- what it comes to -------------------------------------------------------------------------

  /** Some node of a run, or of one nested in it, joined. */
  predicate AnyJoined(s: State, scope: RunId) {
    exists i :: 0 <= i < |s.log| && s.log[i].scope == scope
  }

  /**
   * In every interleaving of beginnings, joins and endings, an outermost run that is over has settled one transaction
   * if any node of it or of a run nested in it joined, and none otherwise; it committed it if and only if it was done.
   */
  lemma SettledOnce(states: seq<State>, steps: seq<Step>, n: nat, id: RunId)
    requires Trace(states, steps) && n < |states| && id in states[n].runs && states[n].runs[id].parent.None?
    ensures id in states[n].held <==> AnyJoined(states[n], id)
    ensures SettledBy(states[n], id) ==
      match states[n].runs[id].over
      case None => []
      case Some(done) =>
        if !AnyJoined(states[n], id) then []
        else if done then [Committed(states[n].held[id].participant)]
        else [RolledBack(states[n].held[id].participant)]
  {
    hide Trace, Tree, Shared, Numbered, AnyJoined, IsFirst;
    TraceKeeps(states, steps, n);
    HeldIfJoined(states[n], id);
  }

  lemma HeldIfJoined(s: State, scope: RunId)
    requires Shared(s)
    ensures scope in s.held <==> AnyJoined(s, scope)
  {
    if scope in s.held {
      var i: nat :| IsFirst(s.log, scope, i) && s.log[i].connection == s.held[scope].connection;
    }
  }

  /** A run nested in another settles nothing, whatever became of it, and never comes to settle anything. */
  lemma NestedSettlesNothing(states: seq<State>, steps: seq<Step>, n: nat, id: RunId)
    requires Trace(states, steps) && n < |states| && id in states[n].runs && states[n].runs[id].parent.Some?
    ensures SettledBy(states[n], id) == []
    ensures n < |steps| && steps[n].Ends? && steps[n].id == id ==> states[n + 1].settled == states[n].settled
  {
    TraceKeeps(states, steps, n);
    assert Nests(states[n], id);
  }

  /** Once a scope is settled no node joins it: every run that carries it is over. */
  lemma NoJoinAfterSettling(states: seq<State>, steps: seq<Step>, n: nat, id: RunId, connection: string)
    requires Trace(states, steps) && n < |states| && id in states[n].runs && SettledBy(states[n], states[n].runs[id].scope) != []
    ensures !Enabled(states[n], Joins(id, connection))
  {
    TraceKeeps(states, steps, n);
    if Going(states[n], id) {
      ScopeIsOpen(states[n], id);
    }
  }

  /**
   * Of all the joins there were in one scope, in whatever order and from whichever run: those on the connection of the
   * first share the one transaction it opened; every other is told both connections. No two scopes share one.
   */
  lemma JoinsShare(states: seq<State>, steps: seq<Step>, n: nat, first: nat, i: nat)
    requires Trace(states, steps) && n < |states|
    requires first < |states[n].log| && i < |states[n].log| && IsFirst(states[n].log, states[n].log[first].scope, first)
    requires states[n].log[i].scope == states[n].log[first].scope
    ensures var s, own := states[n], states[n].log[first].connection;
      s.log[i].scope in s.held && s.log[i].joined ==
        if s.log[i].connection == own then Shares(s.held[s.log[i].scope].participant)
        else TwoConnections(own, s.log[i].connection)
    ensures forall other :: other in states[n].held && other != states[n].log[i].scope ==>
      states[n].held[other].participant != states[n].held[states[n].log[i].scope].participant
  {
    TraceKeeps(states, steps, n);
    var s, scope := states[n], states[n].log[i].scope;
    var j: nat :| IsFirst(s.log, scope, j) && s.log[j].connection == s.held[scope].connection;
    assert j == first;
  }

  /** A scope's transaction is never replaced: at most one is ever opened in it. */
  lemma {:induction false} TransactionStands(states: seq<State>, steps: seq<Step>, m: nat, n: nat, scope: RunId)
    requires Trace(states, steps) && m <= n < |states| && scope in states[m].held
    ensures scope in states[n].held && states[n].held[scope] == states[m].held[scope]
    ensures states[n].openings == |states[n].held|
    decreases n - m
  {
    hide Tree, Shared, Settles, IsFirst;
    TraceKeeps(states, steps, n);
    if m < n {
      TransactionStands(states, steps, m, n - 1, scope);
      assert scope in After(states[n - 1], steps[n - 1]).held && After(states[n - 1], steps[n - 1]).held[scope] == states[n - 1].held[scope];
    }
  }

  // ---- the boundary -----------------------------------------------------------------------------

  /** What one node asks of the scope it finds, and what it is told. */
  method JoinEach(scope: AtomicScope, connections: seq<string>, number: nat) returns (joined: seq<Joined>)
    requires scope.Valid()
    modifies scope
    ensures scope.Valid() && scope.settlings == old(scope.settlings)
    ensures |joined| == |connections|
    ensures connections != [] ==> scope.held == Holding(old(scope.held), connections[0], number)
    ensures connections == [] ==> scope.held == old(scope.held)
    ensures forall i :: 0 <= i < |joined| ==> joined[i] == JoinOf(scope.held, connections[i], number)
  {
    joined := [];
    for i := 0 to |connections|
      invariant scope.Valid() && scope.settlings == old(scope.settlings) && |joined| == i
      invariant scope.held == if i == 0 then old(scope.held) else Holding(old(scope.held), connections[0], number)
      invariant forall j :: 0 <= j < i ==> joined[j] == JoinOf(scope.held, connections[j], number)
    {
      var got := scope.JoinOn(connections[i], number);
      joined := joined + [got];
    }
  }

  /** A run in the scope around it, or in one of its own that it settles once it is over. */
  method InScope(outer: AtomicScope?, connections: seq<string>, done: bool, number: nat) returns (scope: AtomicScope)
    requires outer != null ==> outer.Valid()
    modifies outer
    ensures outer != null ==> scope == outer && outer.Valid() && outer.settlings == old(outer.settlings)
    ensures outer != null ==>
      outer.held == if connections == [] then old(outer.held) else Holding(old(outer.held), connections[0], number)
    ensures outer == null ==> fresh(scope)
    ensures outer == null ==>
      scope.settlings == if connections == [] then [] else [if done then Committed(number) else RolledBack(number)]
  {
    if outer != null {
      var _ := JoinEach(outer, connections, number);
      return outer;
    }
    scope := new AtomicScope();
    var _ := JoinEach(scope, connections, number);
    scope.Settle(done);
  }
}
