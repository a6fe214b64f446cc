/** `Node` (src/sweetshop/pipe.py) and `Worker.cfg` (src/sweetshop/worker.py):
    a vertex of a pipe graph binds a worker and a frozen keyword
    configuration; its condition is a predicate on the envelope produced by
    the node that leads to it. */
module Nodes {
  import opened Base
  import opened Workers
  import opened Graphs

  /** A condition: called with an envelope, it returns a truth value or raises. */
  type Cond = Value -> Call<bool>

  /** What a pipe node runs: its worker with its configuration. */
  datatype Job = Job(worker: Worker, config: Config)

  type PipeGraph = Graph<Job, Cond>

  /** `Node(worker, config)`: `config or {}`, so a missing configuration is
      the empty one. */
  function NewNode(g: PipeGraph, w: Worker, config: Option<Config>): (r: (PipeGraph, NodeId))
    ensures r.1 == |g| && |r.0| == |g| + 1 && r.0[..|g|] == g
    ensures r.0[r.1].payload.worker == w
    ensures config.None? ==> r.0[r.1].payload.config == map[]
    ensures config.Some? ==> r.0[r.1].payload.config == config.value
    ensures r.0[r.1].next == [] && r.0[r.1].condition.None?
    ensures Closed(g) ==> Closed(r.0)
  {
    var c := if config.Some? then config.value else map[];
    AddNode(g, Job(w, c))
  }

  /** `worker.cfg(**kwargs)`: a fresh node for `w` whose configuration is
      exactly `kwargs`, with no successors and no condition. */
  function Cfg(g: PipeGraph, w: Worker, kwargs: Config): (r: (PipeGraph, NodeId))
    ensures r.1 == |g| && |r.0| == |g| + 1 && r.0[..|g|] == g
    ensures r.0[r.1].payload == Job(w, kwargs)
    ensures r.0[r.1].next == [] && r.0[r.1].condition.None?
    ensures Closed(g) ==> Closed(r.0)
    ensures Closed(g) ==> forall n, k :: 0 <= n < |g| && 0 <= k < |g[n].next| ==> r.0[n].next[k] != r.1
  {
    NewNode(g, w, Some(kwargs))
  }

  /** `node.execute(data)`: the worker applied to the envelope with the
      node's configuration as keyword arguments. */
  function RunNode(g: PipeGraph, n: NodeId, data: Value): (r: Result<Value>)
    requires n < |g|
    ensures r.Ok? ==> r.value.cls == g[n].payload.worker.dataType
    ensures r.Ok? ==> g[n].payload.worker.func([data], g[n].payload.config) == Returned(r.value)
    ensures data.cls != g[n].payload.worker.dataType ==>
      r == Err(BadArgument(g[n].payload.worker.dataType, data.cls))
  {
    Execute(g[n].payload.worker, [data], g[n].payload.config)
  }
}
