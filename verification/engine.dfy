/** `Pipe.execute` (src/sweetshop/pipe.py): a breadth-first walk of the node
    graph from the start node. Every dequeued node runs its worker on the
    envelope it was enqueued with; each successor whose condition accepts
    the result is enqueued with that result; a node that enqueues nothing
    contributes its result as a final result, and the first final result
    is the answer.

    The source loop has no bound (a cyclic graph runs forever); here it is
    given `fuel`, one unit per dequeued node, and reports when it runs out. */
module Execution {
  import opened Base
  import opened Workers
  import opened Graphs
  import opened Nodes
  import opened Pipes

  /** Successor `m` is taken for result `v`: it has no condition, or its
      condition returns a true value. */
  predicate Passes(g: PipeGraph, m: NodeId, v: Value)
    requires m < |g|
  {
    g[m].condition.None? || g[m].condition.value(v) == Returned(true)
  }

  /** The condition of successor `m` raises on `v`. */
  predicate RaisesOn(g: PipeGraph, m: NodeId, v: Value)
    requires m < |g|
  {
    g[m].condition.Some? && g[m].condition.value(v).Raised?
  }

  /** The successor loop: the successors taken for `v`, in order, or the
      exception of the first condition that raises. A raising condition is
      outside the `try` around the node, so it escapes unwrapped. */
  function Admit(g: PipeGraph, succs: seq<NodeId>, v: Value): (r: Result<seq<NodeId>>)
    requires AllIn(g, succs)
    ensures r.Ok? ==> AllIn(g, r.value) && |r.value| <= |succs|
    ensures r.Err? ==> r.error.Thrown?
    decreases |succs|
  {
    if succs == [] then Ok([])
    else
      var m := succs[0];
      if RaisesOn(g, m, v) then Err(Thrown(g[m].condition.value(v).message))
      else
        match Admit(g, succs[1..], v)
        case Err(e) => Err(e)
        case Ok(rest) => if Passes(g, m, v) then Ok([m] + rest) else Ok(rest)
  }

  /** The taken successors keep the order of `next_nodes`, each is taken
      exactly as often as it occurs there when its condition holds and never
      otherwise. */
  lemma {:induction false} AdmitFilters(g: PipeGraph, succs: seq<NodeId>, v: Value)
    requires AllIn(g, succs)
    requires Admit(g, succs, v).Ok?
    ensures Subsequence(Admit(g, succs, v).value, succs)
    ensures forall m: NodeId :: m < |g| ==>
      Count(Admit(g, succs, v).value, m) == (if Passes(g, m, v) then Count(succs, m) else 0)
    decreases |succs|
  {
    if succs != [] {
      var m := succs[0];
      var rest := Admit(g, succs[1..], v).value;
      AdmitFilters(g, succs[1..], v);
      if Passes(g, m, v) {
        assert ([m] + rest)[1..] == rest;
      }
    }
  }

  /** The loop fails exactly when some condition raises, and then with the
      exception of the first one that does. */
  lemma {:induction false} AdmitRaises(g: PipeGraph, succs: seq<NodeId>, v: Value)
    requires AllIn(g, succs)
    ensures Admit(g, succs, v).Ok? <==> forall i :: 0 <= i < |succs| ==> !RaisesOn(g, succs[i], v)
    ensures Admit(g, succs, v).Err? ==> exists i :: (0 <= i < |succs| && RaisesOn(g, succs[i], v)
      && (forall j :: 0 <= j < i ==> !RaisesOn(g, succs[j], v))
      && Admit(g, succs, v).error == Thrown(g[succs[i]].condition.value(v).message))
    decreases |succs|
  {
    if succs != [] && !RaisesOn(g, succs[0], v) {
      AdmitRaises(g, succs[1..], v);
      if Admit(g, succs[1..], v).Err? {
        var i :| 0 <= i < |succs[1..]| && RaisesOn(g, succs[1..][i], v)
          && (forall j :: 0 <= j < i ==> !RaisesOn(g, succs[1..][j], v))
          && Admit(g, succs[1..], v).error == Thrown(g[succs[1..][i]].condition.value(v).message);
        forall j | 0 <= j < i + 1 ensures !RaisesOn(g, succs[j], v) {
          if j > 0 { assert succs[j] == succs[1..][j - 1]; }
        }
        assert succs[i + 1] == succs[1..][i];
      } else {
        forall i | 0 <= i < |succs| ensures !RaisesOn(g, succs[i], v) {
          if i > 0 { assert succs[i] == succs[1..][i - 1]; }
        }
      }
    }
  }

  /** One dequeued node: its result and the successors it enqueues. A
      failing worker is reported as the node's failure; a raising condition
      is passed through as it is. */
  function Visit(g: PipeGraph, n: NodeId, d: Value): (r: Result<(Value, seq<NodeId>)>)
    requires Closed(g) && n < |g|
    ensures r.Ok? ==> RunNode(g, n, d) == Ok(r.value.0)
    ensures r.Ok? ==> Admit(g, g[n].next, r.value.0) == Ok(r.value.1) && AllIn(g, r.value.1)
    ensures RunNode(g, n, d).Err? ==> r == Err(NodeFailed(n, RunNode(g, n, d).error))
    ensures RunNode(g, n, d).Ok? && Admit(g, g[n].next, RunNode(g, n, d).value).Err? ==>
      r == Err(Admit(g, g[n].next, RunNode(g, n, d).value).error) && r.error.Thrown?
  {
    match RunNode(g, n, d)
    case Err(e) => Err(NodeFailed(n, e))
    case Ok(v) =>
      match Admit(g, g[n].next, v)
      case Err(e) => Err(e)
      case Ok(s) => Ok((v, s))
  }

  datatype Halt = Drained | Aborted(error: Error) | OutOfFuel

  /** The loop's state: the queue of (node, envelope) pairs still to run,
      the nodes dequeued so far, in order, and the final results so far. */
  datatype Walk = Walk(queue: seq<(NodeId, Value)>, visited: seq<NodeId>, terminals: seq<Value>)

  /** Where a walk ended: the nodes it dequeued, the final results it
      collected, and why it stopped. */
  datatype Traversal = Traversal(visited: seq<NodeId>, terminals: seq<Value>, halt: Halt)

  /** Every queued node is in the arena. */
  predicate QueueIn(g: PipeGraph, queue: seq<(NodeId, Value)>) {
    forall i :: 0 <= i < |queue| ==> queue[i].0 < |g|
  }

  /** The queue entries a node adds: each taken successor with its result. */
  function Enqueue(s: seq<NodeId>, v: Value): (q: seq<(NodeId, Value)>)
    ensures |q| == |s|
    ensures forall i :: 0 <= i < |s| ==> q[i] == (s[i], v)
  {
    seq(|s|, i requires 0 <= i < |s| => (s[i], v))
  }

  /** One iteration of the loop: dequeue, run, enqueue the taken
      successors, and record the result as final when none was taken. */
  function Step(g: PipeGraph, w: Walk): (r: Result<Walk>)
    requires Closed(g) && QueueIn(g, w.queue) && w.queue != []
    ensures r.Err? ==> Visit(g, w.queue[0].0, w.queue[0].1) == Err(r.error)
    ensures r.Err? ==> (r.error.NodeFailed? && r.error.node == w.queue[0].0) || r.error.Thrown?
    ensures r.Ok? ==> QueueIn(g, r.value.queue) && r.value.visited == w.visited + [w.queue[0].0]
    ensures r.Ok? ==>
      var out := Visit(g, w.queue[0].0, w.queue[0].1);
      && out.Ok?
      && r.value.queue == w.queue[1..] + Enqueue(out.value.1, out.value.0)
      && r.value.terminals == w.terminals + (if out.value.1 == [] then [out.value.0] else [])
  {
    var n, d := w.queue[0].0, w.queue[0].1;
    match Visit(g, n, d)
    case Err(e) => Err(e)
    case Ok(out) =>
      var v, s := out.0, out.1;
      var rest := w.queue[1..] + Enqueue(s, v);
      assert QueueIn(g, rest) by {
        forall i | 0 <= i < |rest| ensures rest[i].0 < |g| {
          if i >= |w.queue| - 1 { assert rest[i] == (s[i - (|w.queue| - 1)], v); }
        }
      }
      Ok(Walk(rest, w.visited + [n], w.terminals + (if s == [] then [v] else [])))
  }

  /** The `while queue` loop, `fuel` iterations at most. */
  function Traverse(g: PipeGraph, w: Walk, fuel: nat): (t: Traversal)
    requires Closed(g) && QueueIn(g, w.queue)
    decreases fuel
  {
    if w.queue == [] then Traversal(w.visited, w.terminals, Drained)
    else if fuel == 0 then Traversal(w.visited, w.terminals, OutOfFuel)
    else
      match Step(g, w)
      case Err(e) => Traversal(w.visited + [w.queue[0].0], w.terminals, Aborted(e))
      case Ok(w1) => Traverse(g, w1, fuel - 1)
  }

  /** One iteration of the loop. */
  lemma TraverseUnfold(g: PipeGraph, w: Walk, fuel: nat)
    requires Closed(g) && QueueIn(g, w.queue)
    ensures w.queue == [] ==> Traverse(g, w, fuel) == Traversal(w.visited, w.terminals, Drained)
    ensures w.queue != [] && fuel > 0 ==>
      match Step(g, w)
      case Err(e) => Traverse(g, w, fuel) == Traversal(w.visited + [w.queue[0].0], w.terminals, Aborted(e))
      case Ok(w1) => Traverse(g, w, fuel) == Traverse(g, w1, fuel - 1)
  { }

  /** What any run of the loop leaves: the dequeued nodes and the final
      results only grow, one node per iteration at most; an empty queue
      drains at once and an exhausted bound stops the loop; a loop that
      drains after dequeuing anything has a final result; and an abort is
      the failure of the last dequeued node or a raising condition. */
  lemma {:induction false} TraverseShape(g: PipeGraph, w: Walk, fuel: nat)
    requires Closed(g) && QueueIn(g, w.queue)
    ensures var t := Traverse(g, w, fuel);
      && w.visited <= t.visited && w.terminals <= t.terminals
      && |t.visited| <= |w.visited| + fuel
      && (w.queue == [] ==> t == Traversal(w.visited, w.terminals, Drained))
      && (w.queue != [] && fuel == 0 ==> t == Traversal(w.visited, w.terminals, OutOfFuel))
      && (t.halt == Drained && (w.queue != [] || w.terminals != []) ==> t.terminals != [])
      && (t.halt.Aborted? ==> t.halt.error.NodeFailed? || t.halt.error.Thrown?)
      && (t.halt.Aborted? && t.halt.error.NodeFailed? ==>
            |t.visited| > |w.visited| && t.halt.error.node == t.visited[|t.visited| - 1])
    decreases fuel
  {
    if w.queue != [] && fuel > 0 {
      match Step(g, w)
      case Err(e) =>
      case Ok(w1) =>
        TraverseShape(g, w1, fuel - 1);
    }
  }

  /** `final_results[0]` once the loop has stopped. */
  function Outcome(t: Traversal): Result<Value> {
    match t.halt
    case Drained => if t.terminals == [] then Err(NoFinalResult) else Ok(t.terminals[0])
    case Aborted(e) => Err(e)
    case OutOfFuel => Err(FuelExhausted)
  }

  /** The walk `pipe.execute(data)` starts: the start node with the input. */
  function Initial(start: NodeId, data: Value): Walk {
    Walk([(start, data)], [], [])
  }

  /** `pipe.execute(data)`. The first final result is returned; the
      `IndexError` of an empty result list can never happen, because the last
      node the loop dequeues enqueued nothing and so left its result. */
  function Run(p: Pipe, data: Value, fuel: nat): (r: Result<Value>)
    requires Valid(p)
    ensures r == Err(NoStartNode) <==> p.start.None?
    ensures r != Err(NoFinalResult)
    ensures p.start.Some? && fuel == 0 ==> r == Err(FuelExhausted)
  {
    if p.start.None? then Err(NoStartNode)
    else
      TraverseShape(p.graph, Initial(p.start.value, data), fuel);
      Outcome(Traverse(p.graph, Initial(p.start.value, data), fuel))
  }

  /** The walk's result does not depend on how much fuel it had, once it had
      enough: the bound only ever stops a walk, it never changes one. */
  lemma {:induction false} MoreFuel(g: PipeGraph, w: Walk, fuel: nat, more: nat)
    requires Closed(g) && QueueIn(g, w.queue)
    requires fuel <= more
    requires Traverse(g, w, fuel).halt != OutOfFuel
    ensures Traverse(g, w, more) == Traverse(g, w, fuel)
    decreases fuel
  {
    if w.queue != [] && fuel > 0 {
      match Step(g, w)
      case Err(_) =>
      case Ok(w1) => MoreFuel(g, w1, fuel - 1, more - 1);
    }
  }

  // ---------------------------------------------------------------------
  // Linear pipes

  /** `ns` is a chain in `g`: each node's only successor is the next one,
      which has no condition, and the last node has no successors. */
  ghost predicate Chain(g: PipeGraph, ns: seq<NodeId>) {
    && ns != [] && AllIn(g, ns)
    && (forall i :: 0 <= i < |ns| - 1 ==> g[ns[i]].next == [ns[i + 1]])
    && (forall i :: 1 <= i < |ns| ==> g[ns[i]].condition.None?)
    && g[ns[|ns| - 1]].next == []
  }

  /** Running the workers of `ns` one after another, each on the previous
      result, stopping at the first failure. */
  function Compose(g: PipeGraph, ns: seq<NodeId>, d: Value): Result<Value>
    requires AllIn(g, ns)
    decreases |ns|
  {
    if ns == [] then Ok(d)
    else
      match RunNode(g, ns[0], d)
      case Err(e) => Err(NodeFailed(ns[0], e))
      case Ok(v) => Compose(g, ns[1..], v)
  }

  /** `ns` is the path the walk from `ns[0]` on `d` follows: each node on
      it, as long as none has failed, takes exactly the next node of `ns` as
      its only successor, and the last one takes none. */
  ghost predicate Threaded(g: PipeGraph, ns: seq<NodeId>, d: Value)
    requires Closed(g) && AllIn(g, ns)
    decreases |ns|
  {
    && ns != []
    && match RunNode(g, ns[0], d)
       case Err(_) => true
       case Ok(v) =>
         && Admit(g, g[ns[0]].next, v) == Ok(if |ns| == 1 then [] else [ns[1]])
         && (|ns| > 1 ==> Threaded(g, ns[1..], v))
  }

  /** One iteration at the head of a path: the head runs and either fails,
      finishes the walk with its result, or hands it to the next node. */
  lemma ThreadedHead(g: PipeGraph, ns: seq<NodeId>, d: Value, visited: seq<NodeId>)
    requires Closed(g) && AllIn(g, ns) && Threaded(g, ns, d)
    ensures QueueIn(g, [(ns[0], d)])
    ensures var w := Walk([(ns[0], d)], visited, []);
      match RunNode(g, ns[0], d)
      case Err(e) => Step(g, w) == Err(NodeFailed(ns[0], e))
      case Ok(v) =>
        if |ns| == 1 then Step(g, w) == Ok(Walk([], visited + [ns[0]], [v]))
        else Step(g, w) == Ok(Walk([(ns[1], v)], visited + [ns[0]], []))
  {
    var n := ns[0];
    assert [(n, d)][1..] == [];
    match RunNode(g, n, d)
    case Err(e) =>
    case Ok(v) =>
      if |ns| == 1 {
        assert Visit(g, n, d) == Ok((v, []));
        assert [(n, d)][1..] + Enqueue([], v) == [];
        assert [] + [v] == [v];
      } else {
        var m := ns[1];
        assert Visit(g, n, d) == Ok((v, [m]));
        assert [(n, d)][1..] + Enqueue([m], v) == [(m, v)];
        var none: seq<Value> := [];
        assert none + [] == none;
      }
  }

  /** The walk from the head of a path, node by node: each node runs,
      the first failure aborts, and the last node's result is the one final
      result. */
  function PathWalk(g: PipeGraph, ns: seq<NodeId>, d: Value, visited: seq<NodeId>): (t: Traversal)
    requires AllIn(g, ns) && ns != []
    decreases |ns|
  {
    match RunNode(g, ns[0], d)
    case Err(e) => Traversal(visited + [ns[0]], [], Aborted(NodeFailed(ns[0], e)))
    case Ok(v) =>
      if |ns| == 1 then Traversal(visited + [ns[0]], [v], Drained)
      else PathWalk(g, ns[1..], v, visited + [ns[0]])
  }

  /** Along its path, with fuel for every node, the breadth-first walk is
      the node-by-node walk. */
  lemma {:induction false} TraversePath(g: PipeGraph, ns: seq<NodeId>, d: Value, visited: seq<NodeId>, fuel: nat)
    requires Closed(g) && AllIn(g, ns) && Threaded(g, ns, d) && |ns| <= fuel
    ensures QueueIn(g, [(ns[0], d)])
    ensures Traverse(g, Walk([(ns[0], d)], visited, []), fuel) == PathWalk(g, ns, d, visited)
    decreases |ns|
  {
    ThreadedHead(g, ns, d, visited);
    var w := Walk([(ns[0], d)], visited, []);
    TraverseUnfold(g, w, fuel);
    match RunNode(g, ns[0], d)
    case Err(e) =>
    case Ok(v) =>
      if |ns| == 1 {
        TraverseUnfold(g, Walk([], visited + [ns[0]], [v]), fuel - 1);
      } else {
        assert AllIn(g, ns[1..]);
        TraversePath(g, ns[1..], v, visited + [ns[0]], fuel - 1);
      }
  }

  /** The node-by-node walk ends as the composition of the path's workers. */
  lemma {:induction false} PathWalkComposes(g: PipeGraph, ns: seq<NodeId>, d: Value, visited: seq<NodeId>)
    requires AllIn(g, ns) && ns != []
    ensures Outcome(PathWalk(g, ns, d, visited)) == Compose(g, ns, d)
    decreases |ns|
  {
    match RunNode(g, ns[0], d)
    case Err(e) =>
    case Ok(v) =>
      if |ns| == 1 {
        assert Compose(g, ns[1..], v) == Ok(v);
      } else {
        PathWalkComposes(g, ns[1..], v, visited + [ns[0]]);
      }
  }

  /** When no worker on the path fails, the node-by-node walk dequeues
      exactly the path. */
  lemma {:induction false} PathWalkVisits(g: PipeGraph, ns: seq<NodeId>, d: Value, visited: seq<NodeId>)
    requires AllIn(g, ns) && ns != [] && Compose(g, ns, d).Ok?
    ensures PathWalk(g, ns, d, visited).visited == visited + ns
    decreases |ns|
  {
    var v := RunNode(g, ns[0], d).value;
    if |ns| == 1 {
      assert ns == [ns[0]];
    } else {
      PathWalkVisits(g, ns[1..], v, visited + [ns[0]]);
      AppendHeadTail(visited, ns);
    }
  }

  /** Along its path the breadth-first walk is plain function composition. */
  lemma TraverseThreaded(g: PipeGraph, ns: seq<NodeId>, d: Value, visited: seq<NodeId>, fuel: nat)
    requires Closed(g) && AllIn(g, ns) && Threaded(g, ns, d) && |ns| <= fuel
    ensures QueueIn(g, [(ns[0], d)])
    ensures Outcome(Traverse(g, Walk([(ns[0], d)], visited, []), fuel)) == Compose(g, ns, d)
  {
    TraversePath(g, ns, d, visited, fuel);
    PathWalkComposes(g, ns, d, visited);
  }

  /** When no node on its path fails, the walk dequeues exactly the nodes
      of the path: no other node runs. */
  lemma ThreadedVisits(g: PipeGraph, ns: seq<NodeId>, d: Value, visited: seq<NodeId>, fuel: nat)
    requires Closed(g) && AllIn(g, ns) && Threaded(g, ns, d) && |ns| <= fuel
    requires Compose(g, ns, d).Ok?
    ensures QueueIn(g, [(ns[0], d)])
    ensures Traverse(g, Walk([(ns[0], d)], visited, []), fuel).visited == visited + ns
  {
    TraversePath(g, ns, d, visited, fuel);
    PathWalkVisits(g, ns, d, visited);
  }

  /** A path is extended at its head by a node that hands its result to
      exactly the path's first node. */
  lemma ThreadedCons(g: PipeGraph, n: NodeId, rest: seq<NodeId>, d: Value, v: Value)
    requires Closed(g) && n < |g| && AllIn(g, rest) && rest != []
    requires RunNode(g, n, d) == Ok(v) && Admit(g, g[n].next, v) == Ok([rest[0]])
    requires Threaded(g, rest, v)
    ensures AllIn(g, [n] + rest) && Threaded(g, [n] + rest, d)
  {
    assert ([n] + rest)[1..] == rest;
  }

  /** A node whose result nothing takes is a path of its own. */
  lemma ThreadedLast(g: PipeGraph, n: NodeId, d: Value)
    requires Closed(g) && n < |g|
    requires RunNode(g, n, d).Ok? ==> Admit(g, g[n].next, RunNode(g, n, d).value) == Ok([])
    ensures AllIn(g, [n]) && Threaded(g, [n], d)
  {
  }

  /** Composition past a node that does not fail. */
  lemma ComposeCons(g: PipeGraph, n: NodeId, rest: seq<NodeId>, d: Value, v: Value)
    requires n < |g| && AllIn(g, rest) && RunNode(g, n, d) == Ok(v)
    ensures AllIn(g, [n] + rest) && Compose(g, [n] + rest, d) == Compose(g, rest, v)
  {
    assert ([n] + rest)[1..] == rest;
  }

  /** The nodes `pipe.execute(data)` runs, in the order it runs them. */
  function Ran(p: Pipe, data: Value, fuel: nat): (vs: seq<NodeId>)
    requires Valid(p)
    ensures |vs| <= fuel
    ensures p.start.None? ==> vs == []
  {
    if p.start.None? then []
    else
      TraverseShape(p.graph, Initial(p.start.value, data), fuel);
      Traverse(p.graph, Initial(p.start.value, data), fuel).visited
  }

  /** When no worker on the path from the start node fails, exactly the
      path's nodes run. */
  lemma RanThreaded(p: Pipe, ns: seq<NodeId>, d: Value, fuel: nat)
    requires Valid(p) && ns != [] && AllIn(p.graph, ns) && p.start == Some(ns[0])
    requires Threaded(p.graph, ns, d) && |ns| <= fuel && Compose(p.graph, ns, d).Ok?
    ensures Ran(p, d, fuel) == ns
  {
    ThreadedVisits(p.graph, ns, d, [], fuel);
  }

  /** `pipe.execute(data)` along the path from the start node is the
      composition of the path's workers. */
  lemma RunThreaded(p: Pipe, ns: seq<NodeId>, d: Value, fuel: nat)
    requires Valid(p) && ns != [] && AllIn(p.graph, ns) && p.start == Some(ns[0])
    requires Threaded(p.graph, ns, d) && |ns| <= fuel
    ensures Run(p, d, fuel) == Compose(p.graph, ns, d)
  {
    TraverseThreaded(p.graph, ns, d, [], fuel);
  }

  /** A chain is the path of every walk along it. */
  lemma {:induction false} ChainThreaded(g: PipeGraph, ns: seq<NodeId>, d: Value)
    requires Closed(g) && Chain(g, ns)
    ensures Threaded(g, ns, d)
    decreases |ns|
  {
    var n := ns[0];
    match RunNode(g, n, d)
    case Err(_) =>
    case Ok(v) =>
      if |ns| == 1 {
        assert Admit(g, g[n].next, v) == Ok([]);
      } else {
        var m := ns[1];
        assert g[n].next == [m];
        assert !RaisesOn(g, m, v) && Passes(g, m, v);
        assert Admit(g, [m], v) == Ok([m] + []) by {
          assert [m][1..] == [];
        }
        assert [m] + [] == [m];
        assert Chain(g, ns[1..]) by {
          forall i | 0 <= i < |ns[1..]| - 1 ensures g[ns[1..][i]].next == [ns[1..][i + 1]] {
            assert ns[1..][i] == ns[i + 1];
          }
        }
        ChainThreaded(g, ns[1..], v);
      }
  }

  /** On a chain the breadth-first walk is plain function composition. */
  lemma {:induction false} TraverseChain(g: PipeGraph, ns: seq<NodeId>, d: Value, visited: seq<NodeId>, fuel: nat)
    requires Closed(g) && Chain(g, ns) && |ns| <= fuel
    ensures QueueIn(g, [(ns[0], d)])
    ensures Outcome(Traverse(g, Walk([(ns[0], d)], visited, []), fuel)) == Compose(g, ns, d)
  {
    ChainThreaded(g, ns, d);
    TraverseThreaded(g, ns, d, visited, fuel);
  }

  /** `Compose` reads only the nodes' workers and configurations. */
  lemma {:induction false} ComposeSamePayload(g: PipeGraph, h: PipeGraph, ns: seq<NodeId>, d: Value)
    requires AllIn(g, ns) && |h| == |g|
    requires forall m :: 0 <= m < |g| ==> h[m].payload == g[m].payload
    ensures Compose(h, ns, d) == Compose(g, ns, d)
    decreases |ns|
  {
    if ns != [] {
      assert RunNode(h, ns[0], d) == RunNode(g, ns[0], d);
      match RunNode(g, ns[0], d)
      case Err(_) =>
      case Ok(v) => ComposeSamePayload(g, h, ns[1..], v);
    }
  }

  /** A chain adds nothing to a node outside it. */
  lemma {:induction false} ChainSuccOutside(c: NodeId, ns: seq<NodeId>, m: NodeId)
    requires m != c && m !in ns
    ensures ChainSucc(c, ns, m) == []
    decreases |ns|
  {
    if ns != [] {
      ChainSuccOutside(ns[0], ns[1..], m);
    }
  }

  /** Removing the head of a sequence of distinct elements leaves distinct
      elements without the head. */
  lemma DistinctCons(c: NodeId, ns: seq<NodeId>)
    requires Distinct([c] + ns)
    ensures Distinct(ns) && c !in ns
  {
    var all := [c] + ns;
    forall i, j | 0 <= i < j < |ns| ensures ns[i] != ns[j] {
      assert all[i + 1] != all[j + 1];
    }
    forall i | 0 <= i < |ns| ensures ns[i] != c {
      assert all[0] != all[i + 1];
    }
  }

  /** Along a chain of distinct nodes, each node gets exactly the next one
      as its new successor and the last node gets none. */
  lemma {:induction false} ChainSuccDistinct(c: NodeId, ns: seq<NodeId>)
    requires Distinct([c] + ns)
    ensures forall i :: 0 <= i < |ns| ==> ChainSucc(c, ns, ([c] + ns)[i]) == [ns[i]]
    ensures ChainSucc(c, ns, ([c] + ns)[|ns|]) == []
    decreases |ns|
  {
    if ns != [] {
      var all := [c] + ns;
      var rest := ns[1..];
      var chain := [ns[0]] + rest;
      HeadTail(ns);
      DistinctCons(c, ns);
      ChainSuccDistinct(ns[0], rest);
      ChainSuccOutside(ns[0], rest, c);
      forall i | 0 <= i < |ns| ensures ChainSucc(c, ns, all[i]) == [ns[i]] {
        if i == 0 {
          assert ChainSucc(c, ns, c) == [ns[0]] + ChainSucc(ns[0], rest, c);
        } else {
          assert all[i] == chain[i - 1] && all[i] != c;
          assert ChainSucc(c, ns, all[i]) == [] + ChainSucc(ns[0], rest, chain[i - 1]);
        }
      }
      assert all[|ns|] == chain[|rest|] && all[|ns|] != c;
      assert ChainSucc(c, ns, all[|ns|]) == [] + ChainSucc(ns[0], rest, chain[|rest|]);
    }
  }

  /** The calls `start_with(n0).then(n1)...then(nk)`. */
  function LinearCmds(ns: seq<NodeId>): seq<Cmd>
    requires ns != []
  {
    [DoStart(ns[0])] + ThenCmds(ns[1..])
  }

  /** Laying a chain through fresh, distinct nodes makes them a chain. */
  lemma {:induction false} LaidChainIsChain(g: PipeGraph, r: PipeGraph, ns: seq<NodeId>)
    requires ns != [] && AllIn(g, ns) && Distinct(ns)
    requires forall i :: 0 <= i < |ns| ==> g[ns[i]].next == []
    requires ChainLaid(g, r, ns[0], ns[1..])
    ensures Chain(r, ns)
  {
    var tail := ns[1..];
    assert [ns[0]] + tail == ns;
    ChainSuccDistinct(ns[0], tail);
    forall i | 0 <= i < |ns| - 1 ensures r[ns[i]].next == [ns[i + 1]] {
      assert ChainSucc(ns[0], tail, ns[i]) == [tail[i]];
    }
    forall i | 1 <= i < |ns| ensures r[ns[i]].condition.None? {
      assert ns[i] in tail by { assert ns[i] == tail[i - 1]; }
    }
    assert ChainSucc(ns[0], tail, ns[|ns| - 1]) == [];
  }

  /** Building from fresh, distinct nodes with `start_with` and a run of
      `then` calls lays exactly the chain through them, from the start node,
      and changes no node's worker or configuration. */
  lemma {:induction false} LinearPipeIsChain(dataType: string, g: PipeGraph, ns: seq<NodeId>)
    requires Closed(g) && ns != [] && AllIn(g, ns) && Distinct(ns)
    requires forall i :: 0 <= i < |ns| ==> g[ns[i]].next == []
    ensures CmdsIn(|g|, LinearCmds(ns))
    ensures var b := Build(NewPipe(dataType, g), LinearCmds(ns));
      && b.Ok? && b.value.start == Some(ns[0]) && Chain(b.value.graph, ns)
      && |b.value.graph| == |g|
      && (forall m :: 0 <= m < |g| ==> b.value.graph[m].payload == g[m].payload)
  {
    var p0 := NewPipe(dataType, g);
    var p1 := StartWith(p0, ns[0]);
    assert AllIn(g, ns[1..]);
    ThenChain(p1, ns[1..]);
    BuildCons(p0, DoStart(ns[0]), ThenCmds(ns[1..]));
    LaidChainIsChain(g, Build(p1, ThenCmds(ns[1..])).value.graph, ns);
  }

  /** A pipe built from fresh, distinct nodes by `start_with` and a run of
      `then` calls executes its workers in order, each on the previous
      result, and returns the last one's result or the first failure. */
  lemma {:induction false} LinearPipeRuns(dataType: string, g: PipeGraph, ns: seq<NodeId>, data: Value, fuel: nat)
    requires Closed(g) && ns != [] && AllIn(g, ns) && Distinct(ns)
    requires forall i :: 0 <= i < |ns| ==> g[ns[i]].next == []
    requires |ns| <= fuel
    ensures CmdsIn(|g|, LinearCmds(ns))
    ensures var b := Build(NewPipe(dataType, g), LinearCmds(ns));
      b.Ok? && Run(b.value, data, fuel) == Compose(g, ns, data)
  {
    LinearPipeIsChain(dataType, g, ns);
    var r := Build(NewPipe(dataType, g), LinearCmds(ns)).value;
    TraverseChain(r.graph, ns, data, [], fuel);
    ComposeSamePayload(g, r.graph, ns, data);
  }
}
