/** The older context-threading design (src/pipeline.py): `PipelineNode`
    and `Pipeline`. Nodes read their keyword inputs, resolving result keys
    against a shared ordered context, and write their result back under
    their own key. Execution is a breadth-first walk from the start nodes in
    which a node's condition is checked against the context when the node
    is dequeued, and every successor of a node that ran is enqueued. */
module Pipelines {
  import opened Base
  import opened Graphs
  import Dicts
  import opened ResultRefs

  /** A value passed as an input or produced by a worker. */
  datatype Val = Str(s: string) | Num(n: int)

  /** The shared `OrderedDict` context, and a node's `inputs`/`outputs`. */
  type Ctx = Dicts.Dict<Val>

  /** `worker.run(**inputs)`: returns a value or raises (re-raised as is). */
  type RunFn = Ctx -> Call<Val>

  /** A node condition, called with the whole context. */
  type Guard = Ctx -> Call<bool>

  /** A `PipelineNode` without its graph links: its id (a uuid4 string,
      supplied by the caller), its worker, its inputs and its outputs. */
  datatype Step = Step(id: string, run: RunFn, inputs: Ctx, outputs: Ctx)

  type FlowGraph = Graph<Step, Guard>

  /** Every node's inputs are a well-formed dictionary. */
  ghost predicate InputsValid(g: FlowGraph) {
    forall n :: 0 <= n < |g| ==> Dicts.Valid(g[n].payload.inputs)
  }

  /** `PipelineNode(worker, inputs)`: `inputs` defaults to the empty dict;
      the outputs start empty and the node has no links. */
  function NewStep(g: FlowGraph, id: string, run: RunFn, inputs: Option<Ctx>): (r: (FlowGraph, NodeId))
    requires inputs.Some? ==> Dicts.Valid(inputs.value)
    ensures r.1 == |g| && |r.0| == |g| + 1 && r.0[..|g|] == g
    ensures r.0[r.1].payload.id == id && r.0[r.1].payload.run == run
    ensures r.0[r.1].payload.inputs == (if inputs.Some? then inputs.value else Dicts.Empty())
    ensures r.0[r.1].payload.outputs == Dicts.Empty()
    ensures r.0[r.1].next == [] && r.0[r.1].condition.None?
    ensures Closed(g) ==> Closed(r.0)
    ensures InputsValid(g) ==> InputsValid(r.0)
  {
    var ins := if inputs.Some? then inputs.value else Dicts.Empty();
    AddNode(g, Step(id, run, ins, Dicts.Empty()))
  }

  datatype Pipeline = Pipeline(name: string, id: string, graph: FlowGraph, starts: seq<NodeId>)

  ghost predicate Valid(p: Pipeline) {
    && Closed(p.graph)
    && InputsValid(p.graph)
    && AllIn(p.graph, p.starts)
    && Distinct(p.starts)
  }

  /** `Pipeline(name)`: an empty or missing name becomes "Pipeline". */
  function NewPipeline(name: Option<string>, id: string, g: FlowGraph): (p: Pipeline)
    requires Closed(g) && InputsValid(g)
    ensures Valid(p) && p.graph == g && p.starts == [] && p.id == id
    ensures name.Some? && name.value != "" ==> p.name == name.value
    ensures name.None? || name.value == "" ==> p.name == "Pipeline"
  {
    Pipeline(if name.Some? && name.value != "" then name.value else "Pipeline", id, g, [])
  }

  /** `set_start(node)`: a node already among the start nodes is not added
      again; a new one goes last. */
  function SetStart(p: Pipeline, n: NodeId): (r: Pipeline)
    requires Valid(p) && n < |p.graph|
    ensures Valid(r) && r.graph == p.graph
    ensures n in p.starts ==> r.starts == p.starts
    ensures n !in p.starts ==> r.starts == p.starts + [n]
    ensures forall m :: m in r.starts <==> m in p.starts || m == n
  {
    if n in p.starts then p else p.(starts := p.starts + [n])
  }

  /** Adding a start node twice is adding it once. */
  lemma SetStartIdempotent(p: Pipeline, n: NodeId)
    requires Valid(p) && n < |p.graph|
    ensures SetStart(SetStart(p, n), n) == SetStart(p, n)
  {
  }

  /** `connect(from, to, condition)` */
  function Connect(p: Pipeline, from: NodeId, to: NodeId, cond: Option<Guard>): (r: Pipeline)
    requires Valid(p) && from < |p.graph| && to < |p.graph|
    ensures Valid(r) && r.starts == p.starts
    ensures Linked(p.graph, r.graph, [from], to, cond)
  {
    p.(graph := AddNext(p.graph, from, to, cond))
  }

  /** `fork(from, tos)`: `from` gains every target, in order, and every
      target loses its condition. */
  function ForkTo(p: Pipeline, from: NodeId, tos: seq<NodeId>): (r: Pipeline)
    requires Valid(p) && from < |p.graph| && AllIn(p.graph, tos)
    ensures Valid(r) && r.starts == p.starts && |r.graph| == |p.graph|
    ensures r.graph[from].next == p.graph[from].next + tos
    ensures forall m :: 0 <= m < |p.graph| && m != from ==> r.graph[m].next == p.graph[m].next
    ensures forall m :: 0 <= m < |p.graph| && m in tos ==> r.graph[m].condition.None?
    ensures forall m :: 0 <= m < |p.graph| && m !in tos ==> r.graph[m].condition == p.graph[m].condition
  {
    ForkNext(p.graph, from, tos);
    ForkOthers(p.graph, from, tos);
    ForkConditions(p.graph, from, tos);
    p.(graph := Fork(p.graph, from, tos))
  }

  /** `merge(froms, to)`: every source gains `to` as its last successor. */
  function MergeInto(p: Pipeline, froms: seq<NodeId>, to: NodeId): (r: Pipeline)
    requires Valid(p) && AllIn(p.graph, froms) && to < |p.graph|
    ensures Valid(r) && r.starts == p.starts
    ensures Linked(p.graph, r.graph, froms, to, None)
  {
    p.(graph := LinkInto(p.graph, froms, to))
  }

  // ---------------------------------------------------------------------
  // Running one node

  /** The input loop's rule for one value: a string that matches the
      result-key pattern is looked up in the context and kept as it is when
      the key is absent; any other value is passed literally. */
  function Resolve(v: Val, ctx: Ctx): Val {
    if v.Str? && IsResultRef(v.s) then
      match Dicts.Get(ctx, v.s)
      case Some(x) => x
      case None => v
    else v
  }

  /** The first `n` inputs, resolved, in their order. */
  function ResolveFirst(inputs: Ctx, ctx: Ctx, n: nat): (r: Ctx)
    requires Dicts.Valid(inputs) && n <= |inputs.keys|
    ensures Dicts.Valid(r) && r.keys == inputs.keys[..n]
    ensures forall i :: 0 <= i < n ==>
      Dicts.Get(r, inputs.keys[i]) == Some(Resolve(inputs.entries[inputs.keys[i]], ctx))
  {
    if n == 0 then Dicts.Empty()
    else
      var prev := ResolveFirst(inputs, ctx, n - 1);
      var k := inputs.keys[n - 1];
      assert k !in prev.keys by {
        forall i | 0 <= i < n - 1 ensures inputs.keys[i] != k {}
      }
      TakeSnoc(inputs.keys, n);
      Dicts.Put(prev, k, Resolve(inputs.entries[k], ctx))
  }

  /** The keyword arguments a node is called with: the same keys in the
      same order, each value resolved against the context. */
  function ResolveInputs(inputs: Ctx, ctx: Ctx): (r: Ctx)
    requires Dicts.Valid(inputs)
    ensures Dicts.Valid(r) && r.keys == inputs.keys
    ensures forall k :: k in inputs.entries ==> Dicts.Get(r, k) == Some(Resolve(inputs.entries[k], ctx))
  {
    var r := ResolveFirst(inputs, ctx, |inputs.keys|);
    assert inputs.keys[..|inputs.keys|] == inputs.keys;
    forall k | k in inputs.entries ensures Dicts.Get(r, k) == Some(Resolve(inputs.entries[k], ctx)) {
      var i :| 0 <= i < |inputs.keys| && inputs.keys[i] == k;
    }
    r
  }

  /** `node.execute(context)`: the worker's result, and the context with
      that result under the node's own key. */
  function RunStep(g: FlowGraph, n: NodeId, ctx: Ctx): (r: Result<(Val, Ctx)>)
    requires n < |g| && InputsValid(g) && Dicts.Valid(ctx)
    ensures r.Err? <==> g[n].payload.run(ResolveInputs(g[n].payload.inputs, ctx)).Raised?
    ensures r.Err? ==> r.error == Thrown(g[n].payload.run(ResolveInputs(g[n].payload.inputs, ctx)).message)
    ensures r.Ok? ==> g[n].payload.run(ResolveInputs(g[n].payload.inputs, ctx)) == Returned(r.value.0)
    ensures r.Ok? ==> (Dicts.Valid(r.value.1)
      && Dicts.Get(r.value.1, ResultKey(g[n].payload.id)) == Some(r.value.0)
      && (forall k :: k != ResultKey(g[n].payload.id) ==> Dicts.Get(r.value.1, k) == Dicts.Get(ctx, k)))
  {
    var step := g[n].payload;
    match step.run(ResolveInputs(step.inputs, ctx))
    case Raised(m) => Err(Thrown(m))
    case Returned(v) => Ok((v, Dicts.Put(ctx, ResultKey(step.id), v)))
  }

  /** A node's `outputs` after it has run with result `v`. */
  function OutputsOf(v: Val): (o: Ctx)
    ensures Dicts.Valid(o) && o.keys == ["result"] && Dicts.Get(o, "result") == Some(v)
  {
    Dicts.Put(Dicts.Empty(), "result", v)
  }

  // ---------------------------------------------------------------------
  // Pipeline.execute

  /** The loop's state: the queue, the context, the last result of every
      node that has run (its `outputs["result"]`), and which dequeued nodes
      ran or were skipped, in order. The links do not change while the
      pipeline runs, so the graph is a fixed parameter. */
  datatype Flow = Flow(queue: seq<NodeId>, ctx: Ctx, results: map<NodeId, Val>,
                       ran: seq<NodeId>, skipped: seq<NodeId>)

  ghost predicate FlowValid(g: FlowGraph, f: Flow) {
    AllIn(g, f.queue) && AllIn(g, f.ran) && Dicts.Valid(f.ctx)
  }

  /** The result keys of the nodes in `ran`. */
  function RanKeys(g: FlowGraph, ran: seq<NodeId>): set<string> {
    set i | 0 <= i < |ran| && ran[i] < |g| :: ResultKey(g[ran[i]].payload.id)
  }

  /** Running one more node adds its key. */
  lemma RanKeysSnoc(g: FlowGraph, ran: seq<NodeId>, n: NodeId)
    requires n < |g|
    ensures RanKeys(g, ran + [n]) == RanKeys(g, ran) + {ResultKey(g[n].payload.id)}
  {
    var r := ran + [n];
    forall k | k in RanKeys(g, r)
      ensures k in RanKeys(g, ran) + {ResultKey(g[n].payload.id)}
    {
      var i :| 0 <= i < |r| && r[i] < |g| && k == ResultKey(g[r[i]].payload.id);
      if i < |ran| { assert r[i] == ran[i]; }
    }
    forall k | k in RanKeys(g, ran) + {ResultKey(g[n].payload.id)}
      ensures k in RanKeys(g, r)
    {
      if k in RanKeys(g, ran) {
        var i :| 0 <= i < |ran| && ran[i] < |g| && k == ResultKey(g[ran[i]].payload.id);
        assert r[i] == ran[i];
      } else {
        assert r[|ran|] == n;
      }
    }
  }

  /** The context holds a key exactly for each node that has run. */
  ghost predicate KeysOfRan(g: FlowGraph, f: Flow) {
    forall k :: k in f.ctx.entries <==> k in RanKeys(g, f.ran)
  }

  /** The node the loop runs when its condition allows: the queue loses its
      head and gains every successor, in order, without looking at their
      conditions. */
  function Fire(g: FlowGraph, f: Flow): (r: Result<Flow>)
    requires Closed(g) && InputsValid(g) && FlowValid(g, f) && f.queue != []
    ensures r.Err? ==> r.error.Thrown? && RunStep(g, f.queue[0], f.ctx) == Err(r.error)
    ensures r.Ok? ==> FlowValid(g, r.value)
    ensures r.Ok? ==> r.value.queue == f.queue[1..] + g[f.queue[0]].next
    ensures r.Ok? ==> r.value.ran == f.ran + [f.queue[0]] && r.value.skipped == f.skipped
    ensures r.Ok? ==>
      var out := RunStep(g, f.queue[0], f.ctx);
      && out.Ok? && r.value.ctx == out.value.1
      && r.value.results == f.results[f.queue[0] := out.value.0]
  {
    var n := f.queue[0];
    match RunStep(g, n, f.ctx)
    case Err(e) => Err(e)
    case Ok(out) =>
      var q := f.queue[1..] + g[n].next;
      AllInAppend(g, f.queue[1..], g[n].next);
      Ok(Flow(q, out.1, f.results[n := out.0], f.ran + [n], f.skipped))
  }

  /** One iteration: a dequeued node whose condition is false on the
      current context is skipped — not run, successors not enqueued — and a
      raising condition escapes. */
  function Tick(g: FlowGraph, f: Flow): (r: Result<Flow>)
    requires Closed(g) && InputsValid(g) && FlowValid(g, f) && f.queue != []
    ensures r.Err? ==> r.error.Thrown?
    ensures r.Ok? ==> FlowValid(g, r.value)
    ensures g[f.queue[0]].condition.Some? && g[f.queue[0]].condition.value(f.ctx) == Returned(false) ==>
      r == Ok(f.(queue := f.queue[1..], skipped := f.skipped + [f.queue[0]]))
    ensures g[f.queue[0]].condition.Some? && g[f.queue[0]].condition.value(f.ctx).Raised? ==>
      r == Err(Thrown(g[f.queue[0]].condition.value(f.ctx).message))
    ensures (g[f.queue[0]].condition.None? || g[f.queue[0]].condition.value(f.ctx) == Returned(true)) ==>
      r == Fire(g, f)
  {
    var n := f.queue[0];
    match g[n].condition
    case None => Fire(g, f)
    case Some(c) =>
      match c(f.ctx)
      case Raised(m) => Err(Thrown(m))
      case Returned(ok) =>
        if ok then Fire(g, f) else Ok(f.(queue := f.queue[1..], skipped := f.skipped + [n]))
  }

  /** Running a node adds its key to the context and nothing else. */
  lemma FireKeepsKeys(g: FlowGraph, f: Flow)
    requires Closed(g) && InputsValid(g) && FlowValid(g, f) && f.queue != [] && KeysOfRan(g, f)
    ensures Fire(g, f).Ok? ==> KeysOfRan(g, Fire(g, f).value)
  {
    if Fire(g, f).Ok? {
      RanKeysSnoc(g, f.ran, f.queue[0]);
    }
  }

  /** The dequeued node's condition lets it run. */
  predicate Admitted(g: FlowGraph, f: Flow)
    requires AllIn(g, f.queue) && f.queue != []
  {
    g[f.queue[0]].condition.None? || g[f.queue[0]].condition.value(f.ctx) == Returned(true)
  }

  /** Each iteration keeps the context's keys those of the nodes that ran. */
  lemma TickKeepsKeys(g: FlowGraph, f: Flow)
    requires Closed(g) && InputsValid(g) && FlowValid(g, f) && f.queue != []
    ensures Tick(g, f).Ok? && KeysOfRan(g, f) ==> KeysOfRan(g, Tick(g, f).value)
  {
    if Admitted(g, f) && KeysOfRan(g, f) {
      FireKeepsKeys(g, f);
    }
  }

  // ---------------------------------------------------------------------
  // Node results

  /** Node ids are pairwise distinct, as uuid4 strings are. */
  ghost predicate DistinctIds(g: FlowGraph) {
    forall a, b :: 0 <= a < |g| && 0 <= b < |g| && a != b ==> g[a].payload.id != g[b].payload.id
  }

  /** A node has a recorded result exactly when it has run, and that result
      is the one the context holds under the node's key. */
  ghost predicate ResultsOfRan(g: FlowGraph, f: Flow) {
    && (forall m :: m in f.results <==> m in f.ran)
    && (forall m :: m in f.results && m < |g| ==>
          Dicts.Get(f.ctx, ResultKey(g[m].payload.id)) == Some(f.results[m]))
  }

  /** Running a node records its result, under its own key, and leaves
      every other node's result where it was. */
  lemma FireKeepsResults(g: FlowGraph, f: Flow)
    requires Closed(g) && InputsValid(g) && FlowValid(g, f) && f.queue != []
    requires DistinctIds(g) && ResultsOfRan(g, f)
    ensures Fire(g, f).Ok? ==> ResultsOfRan(g, Fire(g, f).value)
  {
    if Fire(g, f).Ok? {
      var f1 := Fire(g, f).value;
      var n := f.queue[0];
      var key := ResultKey(g[n].payload.id);
      forall m | m in f1.results && m < |g|
        ensures Dicts.Get(f1.ctx, ResultKey(g[m].payload.id)) == Some(f1.results[m])
      {
        if m != n {
          assert ResultKey(g[m].payload.id) != key by {
            if ResultKey(g[m].payload.id) == key {
              ResultKeyInjective(g[m].payload.id, g[n].payload.id);
            }
          }
        }
      }
    }
  }

  lemma TickKeepsResults(g: FlowGraph, f: Flow)
    requires Closed(g) && InputsValid(g) && FlowValid(g, f) && f.queue != []
    ensures Tick(g, f).Ok? && DistinctIds(g) && ResultsOfRan(g, f) ==> ResultsOfRan(g, Tick(g, f).value)
  {
    if Admitted(g, f) && DistinctIds(g) && ResultsOfRan(g, f) {
      FireKeepsResults(g, f);
    }
  }

  // ---------------------------------------------------------------------
  // The loop

  /** The `while queue` loop, `fuel` iterations at most. It keeps both
      invariants above: the context's keys are those of the nodes that ran,
      and each node that ran has its result recorded under its own key. */
  function Drain(g: FlowGraph, f: Flow, fuel: nat): (r: Result<Flow>)
    requires Closed(g) && InputsValid(g) && FlowValid(g, f)
    ensures r.Ok? ==> FlowValid(g, r.value) && r.value.queue == []
    ensures r.Ok? ==> f.ran <= r.value.ran && f.skipped <= r.value.skipped
    ensures r.Err? ==> r.error.Thrown? || r.error == FuelExhausted
    ensures f.queue == [] ==> r == Ok(f)
    ensures r.Ok? && KeysOfRan(g, f) ==> KeysOfRan(g, r.value)
    ensures r.Ok? && DistinctIds(g) && ResultsOfRan(g, f) ==> ResultsOfRan(g, r.value)
    decreases fuel
  {
    if f.queue == [] then Ok(f)
    else if fuel == 0 then Err(FuelExhausted)
    else
      match Tick(g, f)
      case Err(e) => Err(e)
      case Ok(f1) =>
        TickKeepsKeys(g, f);
        TickKeepsResults(g, f);
        Drain(g, f1, fuel - 1)
  }

  /** The walk `execute()` starts: the start nodes in order, an empty
      context, nothing run yet. */
  function Seed(p: Pipeline): Flow {
    Flow(p.starts, Dicts.Empty(), map[], [], [])
  }

  /** A node's `outputs` once a run has ended with `results`: set from its
      last result if it ran, as they were before otherwise. */
  function OutputsAfter(g: FlowGraph, results: map<NodeId, Val>, n: NodeId): (o: Ctx)
    requires n < |g|
    ensures n in results ==> o.keys == ["result"] && Dicts.Get(o, "result") == Some(results[n])
    ensures n !in results ==> o == g[n].payload.outputs
  {
    if n in results then OutputsOf(results[n]) else g[n].payload.outputs
  }

  /** `pipeline.execute()`: the final context, and the last result of
      every node that ran (see `OutputsAfter`). */
  function Execute(p: Pipeline, fuel: nat): (r: Result<(Ctx, map<NodeId, Val>)>)
    requires Valid(p)
    ensures p.starts == [] ==> r == Ok((Dicts.Empty(), map[]))
    ensures r.Err? ==> r.error.Thrown? || r.error == FuelExhausted
    ensures r.Ok? ==> Dicts.Valid(r.value.0)
  {
    match Drain(p.graph, Seed(p), fuel)
    case Err(e) => Err(e)
    case Ok(f) => Ok((f.ctx, f.results))
  }

  /** After a run the context has a key exactly for each node that ran. */
  lemma ExecuteKeys(p: Pipeline, fuel: nat)
    requires Valid(p)
    ensures var d := Drain(p.graph, Seed(p), fuel);
      d.Ok? ==> (Execute(p, fuel) == Ok((d.value.ctx, d.value.results))
        && d.value.ctx.entries.Keys == RanKeys(p.graph, d.value.ran))
  {
  }

  /** After a run, a node's `outputs["result"]` is set exactly when it ran,
      and it is then the value the context holds under the node's key;
      every other node keeps its outputs. */
  lemma ExecuteOutputs(p: Pipeline, fuel: nat)
    requires Valid(p) && DistinctIds(p.graph)
    ensures var d := Drain(p.graph, Seed(p), fuel);
      d.Ok? ==> forall n :: 0 <= n < |p.graph| ==>
        && (n in d.value.ran <==> n in d.value.results)
        && (n in d.value.ran ==>
              Dicts.Get(OutputsAfter(p.graph, d.value.results, n), "result")
                == Dicts.Get(d.value.ctx, ResultKey(p.graph[n].payload.id)))
        && (n !in d.value.ran ==> OutputsAfter(p.graph, d.value.results, n) == p.graph[n].payload.outputs)
  {
  }
}
