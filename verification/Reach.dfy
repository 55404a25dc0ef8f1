/** What a run can reach, found statically: two walks of a call relation that may turn back on itself. */
module Reach {
  import opened Json

  /** A call as a document writes it: what it names, the literal reason it gives if any, and where it is written. */
  datatype Site = Site(run: string, reason: Option<string>, file: string, node: string)

  /** What a profile's binding meets a domain operation with. */
  datatype Met = Unmet | ByGraph(path: string) | ByCall(site: Site)

  datatype Operation = Operation(native: bool, refuses: bool, met: Met)

  /** A graph: its calls in order, and the nodes of it that are guarded. */
  datatype Graph = Graph(calls: seq<Site>, guards: seq<string>)

  /** A loaded tree under one profile: references by canonical key, operations by key, graphs by path. */
  datatype Scope = Scope(keys: map<string, string>, ops: map<string, Operation>, graphs: map<string, Graph>)

  datatype Refusal = Refusal(reason: string, file: string, node: string)

  /** What a walk has gathered: as sequences, in the order it found them, and the graphs it has entered. */
  datatype Found = Found(
    operations: seq<string>, effects: seq<Site>, refusals: seq<Refusal>, entered: seq<string>, seen: set<string>)

  const NOTHING := Found([], [], [], [], {})

  /**
   * Which of the two walks: the one that reads refusals ends at an operation that refuses; the one that reads the
   * reach goes on through it.
   */
  datatype Kind = Refusals | Reaching

  function KeyOf(scope: Scope, run: string): Option<string> {
    if run in scope.keys && scope.keys[run] in scope.ops then Some(scope.keys[run]) else None
  }

  predicate Ends(scope: Scope, kind: Kind, key: string)
    requires key in scope.ops
  {
    kind.Refusals? && scope.ops[key].refuses
  }

  /** The domain operation a call goes on to, if it goes on. */
  function Onward(scope: Scope, kind: Kind, site: Site): (key: Option<string>)
    ensures key.Some? ==> key.value in scope.ops && !scope.ops[key.value].native
  {
    var key := KeyOf(scope, site.run);
    if key.None? || Ends(scope, kind, key.value) || scope.ops[key.value].native then None else key
  }

  predicate IsEffect(scope: Scope, kind: Kind, site: Site) {
    var key := KeyOf(scope, site.run);
    key.Some? && !Ends(scope, kind, key.value) && scope.ops[key.value].native
  }

  predicate GivesReason(scope: Scope, kind: Kind, site: Site) {
    var key := KeyOf(scope, site.run);
    key.Some? && Ends(scope, kind, key.value) && site.reason.Some?
  }

  function ReasonOf(site: Site): Refusal
    requires site.reason.Some?
  {
    Refusal(site.reason.value, site.file, site.node)
  }

  /** No operation delegates to itself, however far: every delegation falls in rank. */
  ghost predicate Delegates(scope: Scope, rank: map<string, nat>, top: nat) {
    rank.Keys == scope.ops.Keys && (forall key :: key in rank ==> rank[key] < top) &&
    forall key :: key in scope.ops && scope.ops[key].met.ByCall? ==>
      var next := KeyOf(scope, scope.ops[key].met.site.run);
      next.Some? ==> rank[next.value] < rank[key]
  }

  function Unseen(scope: Scope, found: Found): set<string> {
    scope.graphs.Keys - found.seen
  }

  function GuardRefusals(file: string, guards: seq<string>): (refusals: seq<Refusal>)
    ensures |refusals| == |guards| && forall i :: 0 <= i < |guards| ==> refusals[i] == Refusal("invariant", file, guards[i])
  {
    seq(|guards|, i requires 0 <= i < |guards| => Refusal("invariant", file, guards[i]))
  }

  // ---- the walk ---------------------------------------------------------------------------------

  /** A domain operation: recorded, then followed into whatever meets it. */
  ghost function WalkOperation(scope: Scope, rank: map<string, nat>, top: nat, kind: Kind, found: Found, key: string): (f: Found)
    requires Delegates(scope, rank, top) && key in scope.ops
    ensures found.seen <= f.seen
    decreases Unseen(scope, found), 2 * rank[key] + 1, 0
  {
    var here := found.(operations := found.operations + [key]);
    match scope.ops[key].met
    case Unmet => here
    case ByGraph(path) => WalkGraph(scope, rank, top, kind, here, path)
    case ByCall(site) => WalkCall(scope, rank, top, kind, here, site)
  }

  ghost function Height(scope: Scope, rank: map<string, nat>, site: Site): nat
    requires rank.Keys == scope.ops.Keys
  {
    var key := KeyOf(scope, site.run);
    if key.Some? then 2 * rank[key.value] + 2 else 0
  }

  /** One call site: the reason where the operation refuses, the site itself where it is native, else the operation. */
  ghost function WalkCall(scope: Scope, rank: map<string, nat>, top: nat, kind: Kind, found: Found, site: Site): (f: Found)
    requires Delegates(scope, rank, top)
    ensures found.seen <= f.seen
    decreases Unseen(scope, found), Height(scope, rank, site), 0
  {
    if GivesReason(scope, kind, site) then found.(refusals := found.refusals + [ReasonOf(site)])
    else if IsEffect(scope, kind, site) then found.(effects := found.effects + [site])
    else if Onward(scope, kind, site).Some? then
      WalkOperation(scope, rank, top, kind, found, Onward(scope, kind, site).value)
    else found
  }

  ghost function WalkCalls(scope: Scope, rank: map<string, nat>, top: nat, kind: Kind, found: Found, calls: seq<Site>): (f: Found)
    requires Delegates(scope, rank, top)
    ensures found.seen <= f.seen
    decreases Unseen(scope, found), 2 * top + 3, |calls|
  {
    if calls == [] then found
    else
      var first := WalkCall(scope, rank, top, kind, found, calls[0]);
      assert Unseen(scope, first) <= Unseen(scope, found);
      WalkCalls(scope, rank, top, kind, first, calls[1..])
  }

  function Entering(scope: Scope, found: Found, path: string): Found
    requires path in scope.graphs
  {
    found.(
      seen := found.seen + {path}, entered := found.entered + [path],
      refusals := found.refusals + GuardRefusals(path, scope.graphs[path].guards))
  }

  /** Every node of a graph not yet entered, each call followed on. */
  ghost function WalkGraph(scope: Scope, rank: map<string, nat>, top: nat, kind: Kind, found: Found, path: string): (f: Found)
    requires Delegates(scope, rank, top)
    ensures found.seen <= f.seen
    decreases Unseen(scope, found), 0, 0
  {
    if path in found.seen then found
    else if path !in scope.graphs then found.(seen := found.seen + {path})
    else
      assert path in Unseen(scope, found) && path !in Unseen(scope, Entering(scope, found, path));
      WalkCalls(scope, rank, top, kind, Entering(scope, found, path), scope.graphs[path].calls)
  }

  // ---- what it reaches --------------------------------------------------------------------------

  /** Sets of what may be reached. */
  datatype Reached = Reached(ops: set<string>, effects: set<Site>, refusals: set<Refusal>, graphs: set<string>)

  /** A call's consequence is among what is reached. */
  ghost predicate CallIn(scope: Scope, kind: Kind, r: Reached, site: Site) {
    (GivesReason(scope, kind, site) ==> ReasonOf(site) in r.refusals) &&
    (IsEffect(scope, kind, site) ==> site in r.effects) &&
    (Onward(scope, kind, site).Some? ==> Onward(scope, kind, site).value in r.ops)
  }

  /**
   * What a call leads to, said of the tree: of a name it does not know, nothing; of an operation that refuses, on the walk
   * that reads refusals, the literal reason given where it is written, if one is; of a native operation, the call itself;
   * and of any other, that operation.
   */
  lemma CallLeadsTo(scope: Scope, kind: Kind, r: Reached, site: Site)
    ensures CallIn(scope, kind, r, site) <==>
      (site.run in scope.keys && scope.keys[site.run] in scope.ops ==>
        var op := scope.ops[scope.keys[site.run]];
        if kind == Refusals && op.refuses then
          site.reason.Some? ==> Refusal(site.reason.value, site.file, site.node) in r.refusals
        else if op.native then site in r.effects
        else scope.keys[site.run] in r.ops)
  {
  }

  ghost predicate OperationIn(scope: Scope, kind: Kind, r: Reached, key: string)
    requires key in scope.ops
  {
    match scope.ops[key].met
    case Unmet => true
    case ByGraph(path) => path in r.graphs
    case ByCall(site) => CallIn(scope, kind, r, site)
  }

  ghost predicate GraphIn(scope: Scope, kind: Kind, r: Reached, path: string) {
    path in scope.graphs ==>
      (forall i :: 0 <= i < |scope.graphs[path].calls| ==> CallIn(scope, kind, r, scope.graphs[path].calls[i])) &&
      (forall i :: 0 <= i < |scope.graphs[path].guards| ==> Refusal("invariant", path, scope.graphs[path].guards[i]) in r.refusals)
  }

  /** Closed under binding, graph call and delegation, but for what is still being walked. */
  ghost predicate ClosedBut(scope: Scope, kind: Kind, r: Reached, ops: set<string>, graphs: set<string>) {
    r.ops <= scope.ops.Keys &&
    (forall key :: key in r.ops && key !in ops ==> OperationIn(scope, kind, r, key)) &&
    (forall path :: path in r.graphs && path !in graphs ==> GraphIn(scope, kind, r, path))
  }

  ghost predicate Closed(scope: Scope, kind: Kind, r: Reached) {
    ClosedBut(scope, kind, r, {}, {})
  }

  ghost predicate Within(r: Reached, all: Reached) {
    r.ops <= all.ops && r.effects <= all.effects && r.refusals <= all.refusals && r.graphs <= all.graphs
  }

  function ReachedBy(found: Found): Reached {
    Reached(
      (set key | key in found.operations), (set site | site in found.effects),
      (set refusal | refusal in found.refusals), found.seen)
  }

  lemma CallInMore(scope: Scope, kind: Kind, r: Reached, all: Reached, site: Site)
    requires Within(r, all) && CallIn(scope, kind, r, site)
    ensures CallIn(scope, kind, all, site)
  {
    hide KeyOf, Ends;
  }

  lemma ClosedMore(scope: Scope, kind: Kind, r: Reached, all: Reached, key: string, path: string)
    requires Within(r, all)
    ensures key in scope.ops && OperationIn(scope, kind, r, key) ==> OperationIn(scope, kind, all, key)
    ensures GraphIn(scope, kind, r, path) ==> GraphIn(scope, kind, all, path)
  {
    hide CallIn;
    if key in scope.ops && scope.ops[key].met.ByCall? && OperationIn(scope, kind, r, key) {
      CallInMore(scope, kind, r, all, scope.ops[key].met.site);
    }
    if GraphIn(scope, kind, r, path) && path in scope.graphs {
      forall i | 0 <= i < |scope.graphs[path].calls| ensures CallIn(scope, kind, all, scope.graphs[path].calls[i]) {
        CallInMore(scope, kind, r, all, scope.graphs[path].calls[i]);
      }
    }
  }

  lemma OpensMore(scope: Scope, kind: Kind, r: Reached, all: Reached, ops: set<string>, graphs: set<string>)
    requires ClosedBut(scope, kind, r, ops, graphs) && Within(r, all) && all.ops <= scope.ops.Keys
    ensures ClosedBut(scope, kind, all, ops + (all.ops - r.ops), graphs + (all.graphs - r.graphs))
  {
    hide OperationIn, GraphIn;
    forall key | key in r.ops && key !in ops ensures OperationIn(scope, kind, all, key) {
      ClosedMore(scope, kind, r, all, key, "");
    }
    forall path | path in r.graphs && path !in graphs ensures GraphIn(scope, kind, all, path) {
      ClosedMore(scope, kind, r, all, "", path);
    }
  }

  lemma Shut(scope: Scope, kind: Kind, r: Reached, ops: set<string>, graphs: set<string>, key: string)
    requires ClosedBut(scope, kind, r, ops + {key}, graphs) && key in scope.ops && OperationIn(scope, kind, r, key)
    ensures ClosedBut(scope, kind, r, ops, graphs)
  {
    hide OperationIn, GraphIn;
  }

  lemma ShutGraph(scope: Scope, kind: Kind, r: Reached, ops: set<string>, graphs: set<string>, path: string)
    requires ClosedBut(scope, kind, r, ops, graphs + {path}) && GraphIn(scope, kind, r, path)
    ensures ClosedBut(scope, kind, r, ops, graphs)
  {
    hide OperationIn, GraphIn;
  }

  lemma {:induction false} OperationCloses(
      scope: Scope, rank: map<string, nat>, top: nat, kind: Kind, found: Found, key: string, ops: set<string>, graphs: set<string>)
    requires Delegates(scope, rank, top) && key in scope.ops && ClosedBut(scope, kind, ReachedBy(found), ops, graphs)
    ensures var f := WalkOperation(scope, rank, top, kind, found, key);
      ClosedBut(scope, kind, ReachedBy(f), ops, graphs) && Within(ReachedBy(found), ReachedBy(f)) && key in ReachedBy(f).ops
    decreases Unseen(scope, found), 2 * rank[key] + 1, 0
  {
    hide OperationIn, GraphIn, ClosedBut, Delegates;
    RanksHold(scope, rank, top);
    var here := found.(operations := found.operations + [key]);
    var f := WalkOperation(scope, rank, top, kind, found, key);
    RecordCloses(scope, kind, found, key, ops, graphs);
    assert Unseen(scope, here) == Unseen(scope, found);
    match scope.ops[key].met
    case Unmet =>
      UnmetIn(scope, kind, ReachedBy(f), key);
      Shut(scope, kind, ReachedBy(f), ops, graphs, key);
    case ByGraph(path) =>
      GraphCloses(scope, rank, top, kind, here, path, ops + {key}, graphs);
      MetByGraph(scope, kind, ReachedBy(f), key);
      Shut(scope, kind, ReachedBy(f), ops, graphs, key);
    case ByCall(site) =>
      DelegationFalls(scope, rank, top, key);
      CallCloses(scope, rank, top, kind, here, site, ops + {key}, graphs);
      MetByCall(scope, kind, ReachedBy(f), key);
      Shut(scope, kind, ReachedBy(f), ops, graphs, key);
  }

  lemma RecordCloses(scope: Scope, kind: Kind, found: Found, key: string, ops: set<string>, graphs: set<string>)
    requires key in scope.ops && ClosedBut(scope, kind, ReachedBy(found), ops, graphs)
    ensures var r := ReachedBy(found.(operations := found.operations + [key]));
      ClosedBut(scope, kind, r, ops + {key}, graphs) && Within(ReachedBy(found), r) && key in r.ops
  {
    hide OperationIn, GraphIn;
    var r := ReachedBy(found.(operations := found.operations + [key]));
    forall k | k in ReachedBy(found).ops && k !in ops ensures OperationIn(scope, kind, r, k) {
      ClosedMore(scope, kind, ReachedBy(found), r, k, "");
    }
    forall path | path in r.graphs && path !in graphs ensures GraphIn(scope, kind, r, path) {
      ClosedMore(scope, kind, ReachedBy(found), r, "", path);
    }
  }

  lemma UnmetIn(scope: Scope, kind: Kind, r: Reached, key: string)
    requires key in scope.ops && scope.ops[key].met.Unmet?
    ensures OperationIn(scope, kind, r, key)
  {
  }

  lemma MetByGraph(scope: Scope, kind: Kind, r: Reached, key: string)
    requires key in scope.ops && scope.ops[key].met.ByGraph? && scope.ops[key].met.path in r.graphs
    ensures OperationIn(scope, kind, r, key)
  {
  }

  lemma MetByCall(scope: Scope, kind: Kind, r: Reached, key: string)
    requires key in scope.ops && scope.ops[key].met.ByCall? && CallIn(scope, kind, r, scope.ops[key].met.site)
    ensures OperationIn(scope, kind, r, key)
  {
  }

  lemma DelegationFalls(scope: Scope, rank: map<string, nat>, top: nat, key: string)
    requires Delegates(scope, rank, top) && key in scope.ops && scope.ops[key].met.ByCall?
    ensures Height(scope, rank, scope.ops[key].met.site) < 2 * rank[key] + 1
  {
  }

  lemma {:induction false} CallCloses(
      scope: Scope, rank: map<string, nat>, top: nat, kind: Kind, found: Found, site: Site, ops: set<string>, graphs: set<string>)
    requires Delegates(scope, rank, top) && ClosedBut(scope, kind, ReachedBy(found), ops, graphs)
    ensures var f := WalkCall(scope, rank, top, kind, found, site);
      ClosedBut(scope, kind, ReachedBy(f), ops, graphs) && Within(ReachedBy(found), ReachedBy(f)) &&
      CallIn(scope, kind, ReachedBy(f), site)
    decreases Unseen(scope, found), Height(scope, rank, site), 0
  {
    hide ClosedBut, Delegates;
    if GivesReason(scope, kind, site) || IsEffect(scope, kind, site) {
      NotedCloses(scope, kind, found, WalkCall(scope, rank, top, kind, found, site), ops, graphs);
    } else if Onward(scope, kind, site).Some? {
      RanksHold(scope, rank, top);
      OperationCloses(scope, rank, top, kind, found, Onward(scope, kind, site).value, ops, graphs);
    }
  }

  lemma RanksHold(scope: Scope, rank: map<string, nat>, top: nat)
    requires Delegates(scope, rank, top)
    ensures rank.Keys == scope.ops.Keys && forall key :: key in rank ==> rank[key] < top
  {
  }

  /** An effect or a reason recorded closes what was closed. */
  lemma NotedCloses(scope: Scope, kind: Kind, found: Found, f: Found, ops: set<string>, graphs: set<string>)
    requires ClosedBut(scope, kind, ReachedBy(found), ops, graphs) && Within(ReachedBy(found), ReachedBy(f))
    requires f.operations == found.operations && f.seen == found.seen
    ensures ClosedBut(scope, kind, ReachedBy(f), ops, graphs)
  {
    hide OperationIn, GraphIn;
    OpensMore(scope, kind, ReachedBy(found), ReachedBy(f), ops, graphs);
    assert ops + (ReachedBy(f).ops - ReachedBy(found).ops) == ops;
    assert graphs + (ReachedBy(f).graphs - ReachedBy(found).graphs) == graphs;
  }

  lemma {:induction false} CallsClose(
      scope: Scope, rank: map<string, nat>, top: nat, kind: Kind, found: Found, calls: seq<Site>, ops: set<string>, graphs: set<string>)
    requires Delegates(scope, rank, top) && ClosedBut(scope, kind, ReachedBy(found), ops, graphs)
    ensures var f := WalkCalls(scope, rank, top, kind, found, calls);
      ClosedBut(scope, kind, ReachedBy(f), ops, graphs) && Within(ReachedBy(found), ReachedBy(f)) &&
      forall i :: 0 <= i < |calls| ==> CallIn(scope, kind, ReachedBy(f), calls[i])
    decreases Unseen(scope, found), 2 * top + 3, |calls|
  {
    hide ClosedBut, Delegates, CallIn, ReachedBy;
    if calls != [] {
      var first := WalkCall(scope, rank, top, kind, found, calls[0]);
      HeightIsBelow(scope, rank, top, calls[0]);
      CallCloses(scope, rank, top, kind, found, calls[0], ops, graphs);
      assert Unseen(scope, first) <= Unseen(scope, found);
      CallsClose(scope, rank, top, kind, first, calls[1..], ops, graphs);
      var f := WalkCalls(scope, rank, top, kind, found, calls);
      CallInMore(scope, kind, ReachedBy(first), ReachedBy(f), calls[0]);
      forall i | 0 <= i < |calls| ensures CallIn(scope, kind, ReachedBy(f), calls[i]) {
        if i > 0 {
          assert calls[i] == calls[1..][i - 1];
        }
      }
    }
  }

  lemma HeightIsBelow(scope: Scope, rank: map<string, nat>, top: nat, site: Site)
    requires Delegates(scope, rank, top)
    ensures Height(scope, rank, site) < 2 * top + 3
  {
  }

  lemma {:induction false} GraphCloses(
      scope: Scope, rank: map<string, nat>, top: nat, kind: Kind, found: Found, path: string, ops: set<string>, graphs: set<string>)
    requires Delegates(scope, rank, top) && ClosedBut(scope, kind, ReachedBy(found), ops, graphs)
    ensures var f := WalkGraph(scope, rank, top, kind, found, path);
      ClosedBut(scope, kind, ReachedBy(f), ops, graphs) && Within(ReachedBy(found), ReachedBy(f)) && path in ReachedBy(f).graphs
    decreases Unseen(scope, found), 0, 0
  {
    hide ClosedBut, Delegates, CallIn, OperationIn;
    var f := WalkGraph(scope, rank, top, kind, found, path);
    if path !in found.seen {
      if path in scope.graphs {
        var here := Entering(scope, found, path);
        assert path in Unseen(scope, found) && path !in Unseen(scope, here) && Unseen(scope, here) <= Unseen(scope, found);
        EnteringCloses(scope, kind, found, path, ops, graphs);
        CallsClose(scope, rank, top, kind, here, scope.graphs[path].calls, ops, graphs + {path});
        GuardsAreIn(scope, found, path);
        assert GraphIn(scope, kind, ReachedBy(f), path);
        ShutGraph(scope, kind, ReachedBy(f), ops, graphs, path);
      } else {
        MissingCloses(scope, kind, found, path, ops, graphs);
      }
    }
  }

  lemma EnteringCloses(scope: Scope, kind: Kind, found: Found, path: string, ops: set<string>, graphs: set<string>)
    requires path in scope.graphs && ClosedBut(scope, kind, ReachedBy(found), ops, graphs)
    ensures var r := ReachedBy(Entering(scope, found, path));
      ClosedBut(scope, kind, r, ops, graphs + {path}) && Within(ReachedBy(found), r)
  {
    hide OperationIn, GraphIn;
    var r := ReachedBy(Entering(scope, found, path));
    assert Within(ReachedBy(found), r);
    forall k | k in r.ops && k !in ops ensures OperationIn(scope, kind, r, k) {
      ClosedMore(scope, kind, ReachedBy(found), r, k, "");
    }
    forall p | p in r.graphs && p !in graphs + {path} ensures GraphIn(scope, kind, r, p) {
      ClosedMore(scope, kind, ReachedBy(found), r, "", p);
    }
  }

  lemma GuardsAreIn(scope: Scope, found: Found, path: string)
    requires path in scope.graphs
    ensures forall i :: 0 <= i < |scope.graphs[path].guards| ==>
      Refusal("invariant", path, scope.graphs[path].guards[i]) in ReachedBy(Entering(scope, found, path)).refusals
  {
    var guards := scope.graphs[path].guards;
    forall i | 0 <= i < |guards|
      ensures Refusal("invariant", path, guards[i]) in ReachedBy(Entering(scope, found, path)).refusals
    {
      assert GuardRefusals(path, guards)[i] == Refusal("invariant", path, guards[i]);
      assert GuardRefusals(path, guards)[i] in Entering(scope, found, path).refusals;
    }
  }

  lemma MissingCloses(scope: Scope, kind: Kind, found: Found, path: string, ops: set<string>, graphs: set<string>)
    requires path !in scope.graphs && ClosedBut(scope, kind, ReachedBy(found), ops, graphs)
    ensures var r := ReachedBy(found.(seen := found.seen + {path}));
      ClosedBut(scope, kind, r, ops, graphs) && Within(ReachedBy(found), r)
  {
    hide OperationIn;
    var r := ReachedBy(found.(seen := found.seen + {path}));
    forall k | k in r.ops && k !in ops ensures OperationIn(scope, kind, r, k) {
      ClosedMore(scope, kind, ReachedBy(found), r, k, "");
    }
    forall p | p in r.graphs && p !in graphs ensures GraphIn(scope, kind, r, p) {
      ClosedMore(scope, kind, ReachedBy(found), r, "", p);
    }
  }

  // ---- and no more than it must -----------------------------------------------------------------

  lemma ClosedAt(scope: Scope, kind: Kind, all: Reached, key: string, path: string)
    requires Closed(scope, kind, all)
    ensures key in all.ops ==> key in scope.ops && OperationIn(scope, kind, all, key)
    ensures path in all.graphs ==> GraphIn(scope, kind, all, path)
  {
    hide OperationIn, GraphIn;
  }

  lemma {:induction false} OperationWithin(
      scope: Scope, rank: map<string, nat>, top: nat, kind: Kind, found: Found, key: string, all: Reached)
    requires Delegates(scope, rank, top) && Closed(scope, kind, all) && Within(ReachedBy(found), all)
    requires key in scope.ops && key in all.ops
    ensures Within(ReachedBy(WalkOperation(scope, rank, top, kind, found, key)), all)
    decreases Unseen(scope, found), 2 * rank[key] + 1, 0
  {
    hide Closed, Delegates, GraphIn;
    RanksHold(scope, rank, top);
    var here := found.(operations := found.operations + [key]);
    assert Unseen(scope, here) == Unseen(scope, found);
    ClosedAt(scope, kind, all, key, "");
    match scope.ops[key].met
    case Unmet =>
    case ByGraph(path) => GraphWithin(scope, rank, top, kind, here, path, all);
    case ByCall(site) =>
      DelegationFalls(scope, rank, top, key);
      CallWithin(scope, rank, top, kind, here, site, all);
  }

  lemma {:induction false} CallWithin(
      scope: Scope, rank: map<string, nat>, top: nat, kind: Kind, found: Found, site: Site, all: Reached)
    requires Delegates(scope, rank, top) && Closed(scope, kind, all) && Within(ReachedBy(found), all)
    requires CallIn(scope, kind, all, site)
    ensures Within(ReachedBy(WalkCall(scope, rank, top, kind, found, site)), all)
    decreases Unseen(scope, found), Height(scope, rank, site), 0
  {
    hide Closed, Delegates;
    if !GivesReason(scope, kind, site) && !IsEffect(scope, kind, site) && Onward(scope, kind, site).Some? {
      RanksHold(scope, rank, top);
      OperationWithin(scope, rank, top, kind, found, Onward(scope, kind, site).value, all);
    }
  }

  lemma {:induction false} CallsWithin(
      scope: Scope, rank: map<string, nat>, top: nat, kind: Kind, found: Found, calls: seq<Site>, all: Reached)
    requires Delegates(scope, rank, top) && Closed(scope, kind, all) && Within(ReachedBy(found), all)
    requires forall i :: 0 <= i < |calls| ==> CallIn(scope, kind, all, calls[i])
    ensures Within(ReachedBy(WalkCalls(scope, rank, top, kind, found, calls)), all)
    decreases Unseen(scope, found), 2 * top + 3, |calls|
  {
    hide Closed, Delegates, CallIn, ReachedBy;
    if calls != [] {
      var first := WalkCall(scope, rank, top, kind, found, calls[0]);
      HeightIsBelow(scope, rank, top, calls[0]);
      CallWithin(scope, rank, top, kind, found, calls[0], all);
      assert Unseen(scope, first) <= Unseen(scope, found);
      CallsWithin(scope, rank, top, kind, first, calls[1..], all);
    }
  }

  lemma {:induction false} GraphWithin(
      scope: Scope, rank: map<string, nat>, top: nat, kind: Kind, found: Found, path: string, all: Reached)
    requires Delegates(scope, rank, top) && Closed(scope, kind, all) && Within(ReachedBy(found), all) && path in all.graphs
    ensures Within(ReachedBy(WalkGraph(scope, rank, top, kind, found, path)), all)
    decreases Unseen(scope, found), 0, 0
  {
    hide Closed, Delegates, CallIn;
    if path !in found.seen && path in scope.graphs {
      var here := Entering(scope, found, path);
      assert path in Unseen(scope, found) && path !in Unseen(scope, here) && Unseen(scope, here) <= Unseen(scope, found);
      ClosedAt(scope, kind, all, "", path);
      assert Within(ReachedBy(Entering(scope, found, path)), all) by {
        var guards := scope.graphs[path].guards;
        forall refusal | refusal in GuardRefusals(path, guards) ensures refusal in all.refusals {
          var i :| 0 <= i < |guards| && GuardRefusals(path, guards)[i] == refusal;
        }
      }
      CallsWithin(scope, rank, top, kind, here, scope.graphs[path].calls, all);
    }
  }

  // ---- the least closure ------------------------------------------------------------------------

  /** Some roots and everything they reach. */
  ghost predicate Reaches(scope: Scope, kind: Kind, roots: seq<Site>, r: Reached) {
    Closed(scope, kind, r) && forall i :: 0 <= i < |roots| ==> CallIn(scope, kind, r, roots[i])
  }

  lemma NothingIsClosed(scope: Scope, kind: Kind)
    ensures ClosedBut(scope, kind, ReachedBy(NOTHING), {}, {})
  {
  }

  /**
   * A walk from some roots, on a call relation with any cycles through graphs, gathers exactly the least closure:
   * what it finds is closed under binding, graph call and delegation, and is within everything that is.
   */
  lemma WalkIsLeast(scope: Scope, rank: map<string, nat>, top: nat, kind: Kind, roots: seq<Site>)
    requires Delegates(scope, rank, top)
    ensures var r := ReachedBy(WalkCalls(scope, rank, top, kind, NOTHING, roots));
      Reaches(scope, kind, roots, r) && forall all :: Reaches(scope, kind, roots, all) ==> Within(r, all)
  {
    hide Delegates, CallIn, WalkCalls, ClosedBut;
    NothingIsClosed(scope, kind);
    CallsClose(scope, rank, top, kind, NOTHING, roots, {}, {});
    forall all | Reaches(scope, kind, roots, all)
      ensures Within(ReachedBy(WalkCalls(scope, rank, top, kind, NOTHING, roots)), all)
    {
      CallsWithin(scope, rank, top, kind, NOTHING, roots, all);
    }
  }

  /** The walk that starts at an operation, as the reasons of a trigger are read. */
  lemma OperationIsLeast(scope: Scope, rank: map<string, nat>, top: nat, kind: Kind, key: string)
    requires Delegates(scope, rank, top) && key in scope.ops
    ensures var r := ReachedBy(WalkOperation(scope, rank, top, kind, NOTHING, key));
      Closed(scope, kind, r) && key in r.ops && forall all :: Closed(scope, kind, all) && key in all.ops ==> Within(r, all)
  {
    hide Delegates, CallIn, WalkOperation, ClosedBut;
    NothingIsClosed(scope, kind);
    OperationCloses(scope, rank, top, kind, NOTHING, key, {}, {});
    forall all | Closed(scope, kind, all) && key in all.ops
      ensures Within(ReachedBy(WalkOperation(scope, rank, top, kind, NOTHING, key)), all)
    {
      OperationWithin(scope, rank, top, kind, NOTHING, key, all);
    }
  }

  /**
   * A walk that goes on from further roots, over the graphs the first entered, gathers what one walk from all the
   * roots would: so what only it finds is what only the further roots reach.
   */
  lemma BeyondIsDifference(scope: Scope, rank: map<string, nat>, top: nat, kind: Kind, roots: seq<Site>, further: seq<Site>)
    requires Delegates(scope, rank, top)
    ensures var walked := WalkCalls(scope, rank, top, kind, NOTHING, roots);
      ReachedBy(WalkCalls(scope, rank, top, kind, walked, further)) ==
      ReachedBy(WalkCalls(scope, rank, top, kind, NOTHING, roots + further))
  {
    hide Delegates, CallIn, WalkCalls, ClosedBut, ReachedBy;
    NothingIsClosed(scope, kind);
    var walked := WalkCalls(scope, rank, top, kind, NOTHING, roots);
    var both := WalkCalls(scope, rank, top, kind, walked, further);
    var one := WalkCalls(scope, rank, top, kind, NOTHING, roots + further);
    CallsClose(scope, rank, top, kind, NOTHING, roots, {}, {});
    CallsClose(scope, rank, top, kind, walked, further, {}, {});
    forall i | 0 <= i < |roots + further| ensures CallIn(scope, kind, ReachedBy(both), (roots + further)[i]) {
      if i < |roots| {
        CallInMore(scope, kind, ReachedBy(walked), ReachedBy(both), roots[i]);
      }
    }
    CallsWithinNothing(scope, rank, top, kind, roots + further, ReachedBy(both));
    CallsClose(scope, rank, top, kind, NOTHING, roots + further, {}, {});
    forall i | 0 <= i < |roots| ensures CallIn(scope, kind, ReachedBy(one), roots[i]) {
      assert (roots + further)[i] == roots[i];
    }
    forall i | 0 <= i < |further| ensures CallIn(scope, kind, ReachedBy(one), further[i]) {
      assert (roots + further)[|roots| + i] == further[i];
    }
    CallsWithinNothing(scope, rank, top, kind, roots, ReachedBy(one));
    CallsWithin(scope, rank, top, kind, walked, further, ReachedBy(one));
    assert ReachedBy(both) == ReachedBy(one);
  }

  lemma CallsWithinNothing(scope: Scope, rank: map<string, nat>, top: nat, kind: Kind, roots: seq<Site>, all: Reached)
    requires Delegates(scope, rank, top) && Closed(scope, kind, all)
    requires forall i :: 0 <= i < |roots| ==> CallIn(scope, kind, all, roots[i])
    ensures Within(ReachedBy(WalkCalls(scope, rank, top, kind, NOTHING, roots)), all)
  {
    hide Delegates, CallIn, WalkCalls, Closed;
    CallsWithin(scope, rank, top, kind, NOTHING, roots, all);
  }

  // ---- each graph once --------------------------------------------------------------------------

  /** No graph is entered twice, and every graph entered is remembered. */
  predicate EnteredOnce(found: Found) {
    (forall i, j :: 0 <= i < j < |found.entered| ==> found.entered[i] != found.entered[j]) &&
    forall i :: 0 <= i < |found.entered| ==> found.entered[i] in found.seen
  }

  lemma {:induction false} OperationEntersOnce(scope: Scope, rank: map<string, nat>, top: nat, kind: Kind, found: Found, key: string)
    requires Delegates(scope, rank, top) && key in scope.ops && EnteredOnce(found)
    ensures EnteredOnce(WalkOperation(scope, rank, top, kind, found, key))
    decreases Unseen(scope, found), 2 * rank[key] + 1, 0
  {
    hide Delegates;
    RanksHold(scope, rank, top);
    var here := found.(operations := found.operations + [key]);
    assert Unseen(scope, here) == Unseen(scope, found);
    match scope.ops[key].met
    case Unmet =>
    case ByGraph(path) => GraphEntersOnce(scope, rank, top, kind, here, path);
    case ByCall(site) =>
      DelegationFalls(scope, rank, top, key);
      CallEntersOnce(scope, rank, top, kind, here, site);
  }

  lemma {:induction false} CallEntersOnce(scope: Scope, rank: map<string, nat>, top: nat, kind: Kind, found: Found, site: Site)
    requires Delegates(scope, rank, top) && EnteredOnce(found)
    ensures EnteredOnce(WalkCall(scope, rank, top, kind, found, site))
    decreases Unseen(scope, found), Height(scope, rank, site), 0
  {
    hide Delegates;
    if !GivesReason(scope, kind, site) && !IsEffect(scope, kind, site) && Onward(scope, kind, site).Some? {
      RanksHold(scope, rank, top);
      OperationEntersOnce(scope, rank, top, kind, found, Onward(scope, kind, site).value);
    }
  }

  lemma {:induction false} CallsEnterOnce(scope: Scope, rank: map<string, nat>, top: nat, kind: Kind, found: Found, calls: seq<Site>)
    requires Delegates(scope, rank, top) && EnteredOnce(found)
    ensures EnteredOnce(WalkCalls(scope, rank, top, kind, found, calls))
    decreases Unseen(scope, found), 2 * top + 3, |calls|
  {
    hide Delegates, EnteredOnce;
    if calls != [] {
      var first := WalkCall(scope, rank, top, kind, found, calls[0]);
      HeightIsBelow(scope, rank, top, calls[0]);
      CallEntersOnce(scope, rank, top, kind, found, calls[0]);
      assert Unseen(scope, first) <= Unseen(scope, found);
      CallsEnterOnce(scope, rank, top, kind, first, calls[1..]);
    }
  }

  lemma {:induction false} GraphEntersOnce(scope: Scope, rank: map<string, nat>, top: nat, kind: Kind, found: Found, path: string)
    requires Delegates(scope, rank, top) && EnteredOnce(found)
    ensures EnteredOnce(WalkGraph(scope, rank, top, kind, found, path))
    decreases Unseen(scope, found), 0, 0
  {
    hide Delegates;
    if path !in found.seen && path in scope.graphs {
      var here := Entering(scope, found, path);
      assert path in Unseen(scope, found) && path !in Unseen(scope, here) && Unseen(scope, here) <= Unseen(scope, found);
      CallsEnterOnce(scope, rank, top, kind, here, scope.graphs[path].calls);
    }
  }

  // ---- the two walks ----------------------------------------------------------------------------

  /** Only native operations refuse. */
  ghost predicate OnlyNativeRefuse(scope: Scope) {
    forall key :: key in scope.ops && scope.ops[key].refuses ==> scope.ops[key].native
  }

  lemma SameOnward(scope: Scope, site: Site)
    requires OnlyNativeRefuse(scope)
    ensures Onward(scope, Refusals, site) == Onward(scope, Reaching, site)
    ensures IsEffect(scope, Refusals, site) ==> IsEffect(scope, Reaching, site)
    ensures GivesReason(scope, Refusals, site) ==> IsEffect(scope, Reaching, site)
    ensures !GivesReason(scope, Reaching, site)
  {
  }

  /** What the reach walk finds, with the reasons its refusing sites give. */
  function WithReasons(scope: Scope, r: Reached): Reached {
    r.(refusals := r.refusals + set site | site in r.effects && GivesReason(scope, Refusals, site) :: ReasonOf(site))
  }

  lemma ReasonsClose(scope: Scope, roots: seq<Site>, r: Reached)
    requires OnlyNativeRefuse(scope) && Reaches(scope, Reaching, roots, r)
    ensures Reaches(scope, Refusals, roots, WithReasons(scope, r))
  {
    hide Onward, IsEffect, GivesReason;
    forall site | CallIn(scope, Reaching, r, site) ensures CallIn(scope, Refusals, WithReasons(scope, r), site) {
      SameOnward(scope, site);
    }
  }

  lemma ReachCloses(scope: Scope, roots: seq<Site>, r: Reached, all: Reached)
    requires OnlyNativeRefuse(scope) && Reaches(scope, Refusals, roots, r) && Reaches(scope, Reaching, roots, all)
    requires r.ops <= all.ops && r.graphs <= all.graphs
    ensures Reaches(scope, Reaching, roots, all.(ops := r.ops, graphs := r.graphs))
  {
    hide Onward, IsEffect, GivesReason;
    var both := all.(ops := r.ops, graphs := r.graphs);
    forall site | CallIn(scope, Refusals, r, site) && CallIn(scope, Reaching, all, site) ensures CallIn(scope, Reaching, both, site) {
      SameOnward(scope, site);
    }
  }

  /** Where only native operations refuse, the two walks follow the same domain operations and enter the same graphs. */
  lemma WalksAgree(scope: Scope, rank: map<string, nat>, top: nat, roots: seq<Site>)
    requires Delegates(scope, rank, top) && OnlyNativeRefuse(scope)
    ensures var one := ReachedBy(WalkCalls(scope, rank, top, Refusals, NOTHING, roots));
      var other := ReachedBy(WalkCalls(scope, rank, top, Reaching, NOTHING, roots));
      one.ops == other.ops && one.graphs == other.graphs
  {
    hide Delegates, WalkCalls, ReachedBy, Reaches;
    var one := ReachedBy(WalkCalls(scope, rank, top, Refusals, NOTHING, roots));
    var other := ReachedBy(WalkCalls(scope, rank, top, Reaching, NOTHING, roots));
    WalkIsLeast(scope, rank, top, Refusals, roots);
    WalkIsLeast(scope, rank, top, Reaching, roots);
    ReasonsClose(scope, roots, other);
    assert Within(one, WithReasons(scope, other));
    ReachCloses(scope, roots, one, other);
    assert Within(other, other.(ops := one.ops, graphs := one.graphs));
  }

  // ---- the walk as it descends ------------------------------------------------------------------

  /** One walk under one profile: it pushes what it finds and remembers the graphs it has entered. */
  class Walk {
    const scope: Scope
    const kind: Kind
    ghost const rank: map<string, nat>
    ghost const top: nat
    var operations: seq<string>
    var effects: seq<Site>
    var refusals: seq<Refusal>
    var entered: seq<string>
    var seen: set<string>

    function At(): Found
      reads this
    {
      Found(operations, effects, refusals, entered, seen)
    }

    ghost predicate Valid() {
      Delegates(scope, rank, top)
    }

    constructor (scope: Scope, kind: Kind, ghost rank: map<string, nat>, ghost top: nat)
      requires Delegates(scope, rank, top)
      ensures this.scope == scope && this.kind == kind && this.rank == rank && this.top == top && Valid() && At() == NOTHING
    {
      this.scope, this.kind, this.rank, this.top := scope, kind, rank, top;
      operations, effects, refusals, entered, seen := [], [], [], [], {};
    }

    method FollowOperation(key: string)
      requires Valid() && key in scope.ops
      modifies this
      ensures At() == WalkOperation(scope, rank, top, kind, old(At()), key)
      decreases Unseen(scope, At()), 2 * rank[key] + 1, 0
    {
      hide Delegates;
      RanksHold(scope, rank, top);
      operations := operations + [key];
      assert Unseen(scope, At()) == Unseen(scope, old(At()));
      match scope.ops[key].met
      case Unmet =>
      case ByGraph(path) => EnterGraph(path);
      case ByCall(site) =>
        DelegationFalls(scope, rank, top, key);
        FollowCall(site);
    }

    method FollowCall(site: Site)
      requires Valid()
      modifies this
      ensures At() == WalkCall(scope, rank, top, kind, old(At()), site)
      decreases Unseen(scope, At()), Height(scope, rank, site), 0
    {
      hide Delegates;
      RanksHold(scope, rank, top);
      var key := KeyOf(scope, site.run);
      if key.None? {
        return;
      }
      if kind.Refusals? && scope.ops[key.value].refuses {
        if site.reason.Some? {
          refusals := refusals + [ReasonOf(site)];
        }
        return;
      }
      if scope.ops[key.value].native {
        effects := effects + [site];
        return;
      }
      FollowOperation(key.value);
    }

    method EnterGraph(path: string)
      requires Valid()
      modifies this
      ensures At() == WalkGraph(scope, rank, top, kind, old(At()), path)
      decreases Unseen(scope, At()), 0, 0
    {
      hide Delegates, WalkCall;
      if path in seen {
        return;
      }
      seen := seen + {path};
      if path !in scope.graphs {
        return;
      }
      ghost var before := old(At());
      entered := entered + [path];
      refusals := refusals + GuardRefusals(path, scope.graphs[path].guards);
      assert At() == Entering(scope, before, path);
      assert path in Unseen(scope, before) && path !in Unseen(scope, At()) && Unseen(scope, At()) <= Unseen(scope, before);
      ghost var start := At();
      var calls := scope.graphs[path].calls;
      for i := 0 to |calls|
        invariant start.seen <= seen
        invariant WalkCalls(scope, rank, top, kind, At(), calls[i..]) == WalkCalls(scope, rank, top, kind, start, calls)
      {
        assert calls[i..][0] == calls[i] && calls[i..][1..] == calls[i + 1..];
        assert Unseen(scope, At()) <= Unseen(scope, start);
        FollowCall(calls[i]);
      }
    }
  }
}
