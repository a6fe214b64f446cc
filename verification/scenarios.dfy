/** Concrete pipes run end to end: the workers of tests/common/digital_data.py
    on integer envelopes, wired with the fluent calls of tests/unit/test_pipe.py
    and example.py, and the results those pipes produce.

    Each scenario starts from an arena of fresh, unlinked nodes — what a
    series of `worker.cfg(...)` calls leaves (`CfgUnlinked`) — and is split
    into the graph the builder calls lay and the walk over that graph. */
module Scenarios {
  import opened Base
  import opened Workers
  import opened Graphs
  import opened Nodes
  import opened Pipes
  import opened Execution

  const Digital: string := "DigitalData"

  function Dig(x: int): Value {
    Value(Digital, x)
  }

  /** A Python function of one positional parameter: any other call shape
      raises the interpreter's `TypeError`. */
  function Unary(name: string, f: int -> int): Fn {
    (args: seq<Value>, kw: Config) =>
      if |args| == 1 && kw == map[] then Returned(Dig(f(args[0].value)))
      else Raised(name + "() got unexpected arguments")
  }

  /** `add_one(data)` */
  const AddOne: Worker := Worker("add_one", Unary("add_one", x => x + 1), Digital)

  /** `multiply_by_two(data)` */
  const MultiplyByTwo: Worker := Worker("multiply_by_two", Unary("multiply_by_two", x => x * 2), Digital)

  /** `add_value(data, value)`, its second argument given by keyword. */
  const AddValue: Worker := Worker("add_value",
    (args: seq<Value>, kw: Config) =>
      if |args| == 1 && |kw| == 1 && "value" in kw then Returned(Dig(args[0].value + kw["value"]))
      else Raised("add_value() got unexpected arguments"),
    Digital)

  /** `failing_func()` of the failure test: it takes no parameter, so the
      node's call with the envelope raises before its body runs. */
  const Failing: Worker := Worker("failing_func",
    (args: seq<Value>, kw: Config) =>
      if |args| == 0 && kw == map[] then Raised("Intentional Failure")
      else Raised(ArityMessage),
    Digital)

  const ArityMessage: string := "failing_func() takes 0 positional arguments but 1 was given"

  /** `lambda d: d.value > 0` and `lambda d: d.value < 0` */
  const Positive: Cond := (d: Value) => Returned(d.value > 0)
  const Negative: Cond := (d: Value) => Returned(d.value < 0)

  function AddValueJob(k: int): Job {
    Job(AddValue, map["value" := k])
  }

  /** `g` holds exactly the nodes `jobs`, none linked and none guarded. */
  ghost predicate Unlinked(g: PipeGraph, jobs: seq<Job>) {
    |g| == |jobs| && forall i :: 0 <= i < |g| ==> g[i] == Vertex(jobs[i], [], None)
  }

  /** Every `worker.cfg(**kwargs)` appends one fresh node: an arena built by
      `cfg` calls alone is unlinked, its nodes numbered in call order. */
  lemma CfgUnlinked(g: PipeGraph, jobs: seq<Job>, w: Worker, kwargs: Config)
    requires Unlinked(g, jobs)
    ensures Cfg(g, w, kwargs).1 == |jobs|
    ensures Unlinked(Cfg(g, w, kwargs).0, jobs + [Job(w, kwargs)])
  {
  }

  lemma RunsAddOne(g: PipeGraph, n: NodeId, x: int)
    requires n < |g| && g[n].payload == Job(AddOne, map[])
    ensures RunNode(g, n, Dig(x)) == Ok(Dig(x + 1))
  {
  }

  lemma RunsMultiplyByTwo(g: PipeGraph, n: NodeId, x: int)
    requires n < |g| && g[n].payload == Job(MultiplyByTwo, map[])
    ensures RunNode(g, n, Dig(x)) == Ok(Dig(x * 2))
  {
  }

  lemma RunsAddValue(g: PipeGraph, n: NodeId, k: int, x: int)
    requires n < |g| && g[n].payload == AddValueJob(k)
    ensures RunNode(g, n, Dig(x)) == Ok(Dig(x + k))
  {
  }

  lemma RunsFailing(g: PipeGraph, n: NodeId, x: int)
    requires n < |g| && g[n].payload == Job(Failing, map[])
    ensures RunNode(g, n, Dig(x)) == Err(Thrown(ArityMessage))
  {
  }

  /** A single successor is taken exactly when its condition holds. */
  lemma AdmitOne(g: PipeGraph, m: NodeId, v: Value)
    requires m < |g| && !RaisesOn(g, m, v)
    ensures Admit(g, [m], v) == if Passes(g, m, v) then Ok([m]) else Ok([])
  {
    assert [m][1..] == [] && [m] + [] == [m];
  }

  /** One iteration of the loop once the dequeued node's visit is known. */
  lemma TraverseVisit(g: PipeGraph, w: Walk, v: Value, s: seq<NodeId>, next: Walk, fuel: nat)
    requires Closed(g) && QueueIn(g, w.queue) && w.queue != [] && fuel > 0
    requires Visit(g, w.queue[0].0, w.queue[0].1) == Ok((v, s))
    requires next == Walk(w.queue[1..] + Enqueue(s, v), w.visited + [w.queue[0].0],
                          w.terminals + (if s == [] then [v] else []))
    ensures QueueIn(g, next.queue)
    ensures Traverse(g, w, fuel) == Traverse(g, next, fuel - 1)
  {
    TraverseUnfold(g, w, fuel);
  }

  /** Of two successors, each is taken exactly when its condition holds. */
  lemma AdmitTwo(g: PipeGraph, m1: NodeId, m2: NodeId, v: Value)
    requires m1 < |g| && m2 < |g| && !RaisesOn(g, m1, v) && !RaisesOn(g, m2, v)
    ensures Admit(g, [m1, m2], v) ==
      Ok((if Passes(g, m1, v) then [m1] else []) + (if Passes(g, m2, v) then [m2] else []))
  {
    assert [m1, m2][1..] == [m2];
    AdmitOne(g, m2, v);
    var rest := if Passes(g, m2, v) then [m2] else [];
    assert [] + rest == rest;
  }

  // ---------------------------------------------------------------------
  // Two nodes in sequence

  /** `start_with(a).then(b)`: `a` is linked to `b`, which ends the pipe. */
  lemma PairBuilt(g: PipeGraph, a: Job, b: Job)
    requires Unlinked(g, [a, b])
    ensures Closed(g)
    ensures var r := Then(StartWith(NewPipe(Digital, g), 0), 1);
      && r.Ok? && r.value.start == Some(0) && |r.value.graph| == 2
      && r.value.graph[0] == Vertex(a, [1], None)
      && r.value.graph[1] == Vertex(b, [], None)
  {
    assert Count([0], 0) == 1 && Count([0], 1) == 0;
  }

  /** `start_with(a).branch().end_branch().then(b)`: a branch with no arm
      leaves no tip to merge, so `then` links `a` to `b` as if the branch
      had never been opened. */
  lemma ZeroArmBuilt(g: PipeGraph, a: Job, b: Job)
    requires Unlinked(g, [a, b])
    ensures Closed(g)
    ensures EndBranch(Branch(StartWith(NewPipe(Digital, g), 0))).Ok?
    ensures var r := Then(EndBranch(Branch(StartWith(NewPipe(Digital, g), 0))).value, 1);
      && r.Ok? && r.value.start == Some(0) && |r.value.graph| == 2
      && r.value.graph[0] == Vertex(a, [1], None)
      && r.value.graph[1] == Vertex(b, [], None)
  {
    assert Count([0], 0) == 1 && Count([0], 1) == 0;
  }

  /** The walk over two linked nodes from the first: the second takes the
      first's result, and its own result is the answer. */
  lemma PairWalk(p: Pipe, a: Job, b: Job, x: int, y: int, z: int, fuel: nat)
    requires Valid(p) && p.start == Some(0) && |p.graph| == 2 && fuel >= 2
    requires p.graph[0] == Vertex(a, [1], None) && p.graph[1] == Vertex(b, [], None)
    requires RunNode(p.graph, 0, Dig(x)) == Ok(Dig(y)) && RunNode(p.graph, 1, Dig(y)) == Ok(Dig(z))
    ensures Run(p, Dig(x), fuel) == Ok(Dig(z))
  {
    var h := p.graph;
    AdmitOne(h, 1, Dig(y));
    ThreadedLast(h, 1, Dig(y));
    ThreadedCons(h, 0, [1], Dig(x), Dig(y));
    ComposeCons(h, 0, [1], Dig(x), Dig(y));
    ComposeCons(h, 1, [], Dig(y), Dig(z));
    RunThreaded(p, [0] + [1], Dig(x), fuel);
  }

  /** The same walk when the second node's worker fails: the failure is
      reported as that node's. */
  lemma PairWalkFails(p: Pipe, a: Job, b: Job, x: int, y: int, e: Error, fuel: nat)
    requires Valid(p) && p.start == Some(0) && |p.graph| == 2 && fuel >= 2
    requires p.graph[0] == Vertex(a, [1], None) && p.graph[1] == Vertex(b, [], None)
    requires RunNode(p.graph, 0, Dig(x)) == Ok(Dig(y)) && RunNode(p.graph, 1, Dig(y)) == Err(e)
    ensures Run(p, Dig(x), fuel) == Err(NodeFailed(1, e))
  {
    var h := p.graph;
    AdmitOne(h, 1, Dig(y));
    ThreadedLast(h, 1, Dig(y));
    ThreadedCons(h, 0, [1], Dig(x), Dig(y));
    ComposeCons(h, 0, [1], Dig(x), Dig(y));
    RunThreaded(p, [0] + [1], Dig(x), fuel);
  }

  const SimpleJobs: seq<Job> := [Job(AddOne, map[]), AddValueJob(5)]

  /** `start_with(add_one).then(add_value(value=5))` run on 5 gives
      `(5 + 1) + 5 = 11`. */
  lemma SimpleRuns(g: PipeGraph, fuel: nat)
    requires Unlinked(g, SimpleJobs) && fuel >= 2
    ensures Closed(g)
    ensures var r := Then(StartWith(NewPipe(Digital, g), 0), 1);
      r.Ok? && Run(r.value, Dig(5), fuel) == Ok(Dig(11))
  {
    PairBuilt(g, SimpleJobs[0], SimpleJobs[1]);
    var p := Then(StartWith(NewPipe(Digital, g), 0), 1).value;
    RunsAddOne(p.graph, 0, 5);
    RunsAddValue(p.graph, 1, 5, 6);
    PairWalk(p, SimpleJobs[0], SimpleJobs[1], 5, 6, 11, fuel);
  }

  const ZeroArmJobs: seq<Job> := [Job(AddOne, map[]), Job(MultiplyByTwo, map[])]

  /** `start_with(add_one).branch().end_branch().then(multiply_by_two)` run
      on 5 gives `(5 + 1) * 2 = 12`. */
  lemma ZeroArmRuns(g: PipeGraph, fuel: nat)
    requires Unlinked(g, ZeroArmJobs) && fuel >= 2
    ensures Closed(g)
    ensures EndBranch(Branch(StartWith(NewPipe(Digital, g), 0))).Ok?
    ensures var r := Then(EndBranch(Branch(StartWith(NewPipe(Digital, g), 0))).value, 1);
      r.Ok? && Run(r.value, Dig(5), fuel) == Ok(Dig(12))
  {
    ZeroArmBuilt(g, ZeroArmJobs[0], ZeroArmJobs[1]);
    var p := Then(EndBranch(Branch(StartWith(NewPipe(Digital, g), 0))).value, 1).value;
    RunsAddOne(p.graph, 0, 5);
    RunsMultiplyByTwo(p.graph, 1, 6);
    PairWalk(p, ZeroArmJobs[0], ZeroArmJobs[1], 5, 6, 12, fuel);
  }

  const FailureJobs: seq<Job> := [Job(AddOne, map[]), Job(Failing, map[])]

  /** `start_with(add_one).then(failing_func)` run on 5: the second node's
      call raises, and `execute` reports it as that node's failure (a
      `RuntimeError`, by `ClassOf`). */
  lemma FailureRaises(g: PipeGraph, fuel: nat)
    requires Unlinked(g, FailureJobs) && fuel >= 2
    ensures Closed(g)
    ensures var r := Then(StartWith(NewPipe(Digital, g), 0), 1);
      && r.Ok?
      && Run(r.value, Dig(5), fuel) == Err(NodeFailed(1, Thrown(ArityMessage)))
  {
    PairBuilt(g, FailureJobs[0], FailureJobs[1]);
    var p := Then(StartWith(NewPipe(Digital, g), 0), 1).value;
    RunsAddOne(p.graph, 0, 5);
    RunsFailing(p.graph, 1, 6);
    PairWalkFails(p, FailureJobs[0], FailureJobs[1], 5, 6, Thrown(ArityMessage), fuel);
  }

  // ---------------------------------------------------------------------
  // One conditional arm, merged into the node after the branch

  /** `start_with(add_one).branch().on(cond, multiply_by_two).end_branch()
      .then(add_value(value=5))`, an error stopping the chain as the raised
      exception would. */
  function OneArmPipe(g: PipeGraph, cond: Cond): (r: Result<Pipe>)
    requires Closed(g) && |g| == 3
    ensures r.Ok? ==> Valid(r.value)
  {
    match On(Branch(StartWith(NewPipe(Digital, g), 0)), cond, 1)
    case Err(e) => Err(e)
    case Ok(q) =>
      match EndBranch(q)
      case Err(e) => Err(e)
      case Ok(q2) => Then(q2, 2)
  }

  /** After `on`: the arm hangs off the branch point under its condition. */
  lemma OneArmOpened(g: PipeGraph, a: Job, b: Job, c: Job, cond: Cond)
    requires Unlinked(g, [a, b, c])
    ensures Closed(g)
    ensures var r := On(Branch(StartWith(NewPipe(Digital, g), 0)), cond, 1);
      && r.Ok? && r.value.start == Some(0) && r.value.current == Some(1)
      && r.value.branchNode == Some(0) && r.value.branchEnds == [] && |r.value.graph| == 3
      && r.value.graph[0] == Vertex(a, [1], None)
      && r.value.graph[1] == Vertex(b, [], Some(cond))
      && r.value.graph[2] == Vertex(c, [], None)
  {
    assert Count([0], 0) == 1 && Count([0], 1) == 0 && Count([0], 2) == 0;
  }

  /** After `end_branch().then(...)`: the arm's tip is merged into the last node. */
  lemma OneArmMerged(q: Pipe, a: Job, b: Job, c: Job, cond: Cond)
    requires Valid(q) && q.start == Some(0) && q.current == Some(1)
    requires q.branchNode == Some(0) && q.branchEnds == [] && |q.graph| == 3
    requires q.graph[0] == Vertex(a, [1], None)
    requires q.graph[1] == Vertex(b, [], Some(cond))
    requires q.graph[2] == Vertex(c, [], None)
    ensures EndBranch(q).Ok?
    ensures var r := Then(EndBranch(q).value, 2);
      && r.Ok? && r.value.start == Some(0) && |r.value.graph| == 3
      && r.value.graph[0] == Vertex(a, [1], None)
      && r.value.graph[1] == Vertex(b, [2], Some(cond))
      && r.value.graph[2] == Vertex(c, [], None)
  {
    assert Count([1], 0) == 0 && Count([1], 1) == 1 && Count([1], 2) == 0;
  }

  /** The graph the one-arm calls lay. */
  lemma OneArmBuilt(g: PipeGraph, a: Job, b: Job, c: Job, cond: Cond)
    requires Unlinked(g, [a, b, c])
    ensures Closed(g) && |g| == 3
    ensures var r := OneArmPipe(g, cond);
      && r.Ok? && r.value.start == Some(0) && |r.value.graph| == 3
      && r.value.graph[0] == Vertex(a, [1], None)
      && r.value.graph[1] == Vertex(b, [2], Some(cond))
      && r.value.graph[2] == Vertex(c, [], None)
  {
    OneArmOpened(g, a, b, c, cond);
    OneArmMerged(On(Branch(StartWith(NewPipe(Digital, g), 0)), cond, 1).value, a, b, c, cond);
  }

  const OneArmJobs: seq<Job> := [Job(AddOne, map[]), Job(MultiplyByTwo, map[]), AddValueJob(5)]

  /** When the arm's condition holds, the walk runs all three nodes:
      `(5 + 1) * 2 + 5 = 17`. */
  lemma OneArmTakenWalk(p: Pipe, fuel: nat)
    requires Valid(p) && p.start == Some(0) && |p.graph| == 3 && fuel >= 3
    requires p.graph[0] == Vertex(OneArmJobs[0], [1], None)
    requires p.graph[1] == Vertex(OneArmJobs[1], [2], Some(Positive))
    requires p.graph[2] == Vertex(OneArmJobs[2], [], None)
    ensures Run(p, Dig(5), fuel) == Ok(Dig(17))
    ensures Ran(p, Dig(5), fuel) == [0, 1, 2]
  {
    var h := p.graph;
    RunsAddOne(h, 0, 5);
    RunsMultiplyByTwo(h, 1, 6);
    RunsAddValue(h, 2, 5, 12);
    AdmitOne(h, 1, Dig(6));
    AdmitOne(h, 2, Dig(12));
    ThreadedLast(h, 2, Dig(12));
    ThreadedCons(h, 1, [2], Dig(6), Dig(12));
    ThreadedCons(h, 0, [1] + [2], Dig(5), Dig(6));
    ComposeCons(h, 2, [], Dig(12), Dig(17));
    ComposeCons(h, 1, [2], Dig(6), Dig(12));
    ComposeCons(h, 0, [1] + [2], Dig(5), Dig(6));
    var path := [0] + ([1] + [2]);
    RunThreaded(p, path, Dig(5), fuel);
    RanThreaded(p, path, Dig(5), fuel);
    assert path == [0, 1, 2];
  }

  /** The pipe of the branch test run on 5 gives 17. */
  lemma OneArmRuns(g: PipeGraph, fuel: nat)
    requires Unlinked(g, OneArmJobs) && fuel >= 3
    ensures Closed(g) && |g| == 3
    ensures var r := OneArmPipe(g, Positive);
      r.Ok? && Run(r.value, Dig(5), fuel) == Ok(Dig(17))
  {
    OneArmBuilt(g, OneArmJobs[0], OneArmJobs[1], OneArmJobs[2], Positive);
    OneArmTakenWalk(OneArmPipe(g, Positive).value, fuel);
  }

  /** When the arm's condition fails, `add_one` takes no successor, so its
      result is final and neither the arm nor the node after the branch
      runs: the walk gives 6. */
  lemma OneArmSkippedWalk(p: Pipe, fuel: nat)
    requires Valid(p) && p.start == Some(0) && |p.graph| == 3 && fuel >= 1
    requires p.graph[0] == Vertex(OneArmJobs[0], [1], None)
    requires p.graph[1] == Vertex(OneArmJobs[1], [2], Some(Negative))
    requires p.graph[2] == Vertex(OneArmJobs[2], [], None)
    ensures Run(p, Dig(5), fuel) == Ok(Dig(6))
    ensures Ran(p, Dig(5), fuel) == [0]
  {
    var h := p.graph;
    RunsAddOne(h, 0, 5);
    AdmitOne(h, 1, Dig(6));
    ThreadedLast(h, 0, Dig(5));
    ComposeCons(h, 0, [], Dig(5), Dig(6));
    RunThreaded(p, [0] + [], Dig(5), fuel);
    RanThreaded(p, [0] + [], Dig(5), fuel);
    assert [0] + [] == [0];
  }

  /** The pipe with the arm under `d.value < 0`, run on 5, gives 6, not the
      11 that would follow if the node after the branch ran. */
  lemma OneArmSkipped(g: PipeGraph, fuel: nat)
    requires Unlinked(g, OneArmJobs) && fuel >= 1
    ensures Closed(g) && |g| == 3
    ensures var r := OneArmPipe(g, Negative);
      r.Ok? && Run(r.value, Dig(5), fuel) == Ok(Dig(6)) && Ran(r.value, Dig(5), fuel) == [0]
  {
    OneArmBuilt(g, OneArmJobs[0], OneArmJobs[1], OneArmJobs[2], Negative);
    OneArmSkippedWalk(OneArmPipe(g, Negative).value, fuel);
  }

  // ---------------------------------------------------------------------
  // Two conditional arms, merged into the node after the branch

  /** `start_with(add_one).branch().on(c1, add_value(value=10))
      .on(c2, add_value(value=-10)).end_branch().then(multiply_by_two)`. */
  function TwoArmPipe(g: PipeGraph, c1: Cond, c2: Cond): (r: Result<Pipe>)
    requires Closed(g) && |g| == 4
    ensures r.Ok? ==> Valid(r.value)
  {
    match On(Branch(StartWith(NewPipe(Digital, g), 0)), c1, 1)
    case Err(e) => Err(e)
    case Ok(q1) =>
      match On(q1, c2, 2)
      case Err(e) => Err(e)
      case Ok(q2) =>
        match EndBranch(q2)
        case Err(e) => Err(e)
        case Ok(q3) => Then(q3, 3)
  }

  /** After the first `on`. */
  lemma TwoArmFirst(g: PipeGraph, a: Job, b: Job, c: Job, d: Job, c1: Cond)
    requires Unlinked(g, [a, b, c, d])
    ensures Closed(g)
    ensures var r := On(Branch(StartWith(NewPipe(Digital, g), 0)), c1, 1);
      && r.Ok? && r.value.start == Some(0) && r.value.current == Some(1)
      && r.value.branchNode == Some(0) && r.value.branchEnds == [] && |r.value.graph| == 4
      && r.value.graph[0] == Vertex(a, [1], None)
      && r.value.graph[1] == Vertex(b, [], Some(c1))
      && r.value.graph[2] == Vertex(c, [], None)
      && r.value.graph[3] == Vertex(d, [], None)
  {
    assert Count([0], 0) == 1 && Count([0], 1) == 0 && Count([0], 2) == 0 && Count([0], 3) == 0;
  }

  /** After the second `on`: the first arm's tip is pending. */
  lemma TwoArmSecond(q: Pipe, a: Job, b: Job, c: Job, d: Job, c1: Cond, c2: Cond)
    requires Valid(q) && q.start == Some(0) && q.current == Some(1)
    requires q.branchNode == Some(0) && q.branchEnds == [] && |q.graph| == 4
    requires q.graph[0] == Vertex(a, [1], None)
    requires q.graph[1] == Vertex(b, [], Some(c1))
    requires q.graph[2] == Vertex(c, [], None)
    requires q.graph[3] == Vertex(d, [], None)
    ensures var r := On(q, c2, 2);
      && r.Ok? && r.value.start == Some(0) && r.value.current == Some(2)
      && r.value.branchNode == Some(0) && r.value.branchEnds == [1] && |r.value.graph| == 4
      && r.value.graph[0] == Vertex(a, [1, 2], None)
      && r.value.graph[1] == Vertex(b, [], Some(c1))
      && r.value.graph[2] == Vertex(c, [], Some(c2))
      && r.value.graph[3] == Vertex(d, [], None)
  {
    assert Count([0], 0) == 1 && Count([0], 1) == 0 && Count([0], 2) == 0 && Count([0], 3) == 0;
    assert [1] + [2] == [1, 2];
  }

  /** After `end_branch().then(...)`: both tips are merged into the last node. */
  lemma TwoArmMerged(q: Pipe, a: Job, b: Job, c: Job, d: Job, c1: Cond, c2: Cond)
    requires Valid(q) && q.start == Some(0) && q.current == Some(2)
    requires q.branchNode == Some(0) && q.branchEnds == [1] && |q.graph| == 4
    requires q.graph[0] == Vertex(a, [1, 2], None)
    requires q.graph[1] == Vertex(b, [], Some(c1))
    requires q.graph[2] == Vertex(c, [], Some(c2))
    requires q.graph[3] == Vertex(d, [], None)
    ensures EndBranch(q).Ok?
    ensures EndBranch(q).value.branchEnds == [1, 2]
    ensures var r := Then(EndBranch(q).value, 3);
      && r.Ok? && r.value.start == Some(0) && |r.value.graph| == 4
      && r.value.graph[0] == Vertex(a, [1, 2], None)
      && r.value.graph[1] == Vertex(b, [3], Some(c1))
      && r.value.graph[2] == Vertex(c, [3], Some(c2))
      && r.value.graph[3] == Vertex(d, [], None)
  {
    assert [1] + [2] == [1, 2];
    assert Count([1, 2], 0) == 0 && Count([1, 2], 1) == 1 && Count([1, 2], 2) == 1 && Count([1, 2], 3) == 0;
  }

  /** The graph the two-arm calls lay. */
  lemma TwoArmBuilt(g: PipeGraph, a: Job, b: Job, c: Job, d: Job, c1: Cond, c2: Cond)
    requires Unlinked(g, [a, b, c, d])
    ensures Closed(g) && |g| == 4
    ensures var r := TwoArmPipe(g, c1, c2);
      && r.Ok? && r.value.start == Some(0) && |r.value.graph| == 4
      && r.value.graph[0] == Vertex(a, [1, 2], None)
      && r.value.graph[1] == Vertex(b, [3], Some(c1))
      && r.value.graph[2] == Vertex(c, [3], Some(c2))
      && r.value.graph[3] == Vertex(d, [], None)
  {
    TwoArmFirst(g, a, b, c, d, c1);
    var q1 := On(Branch(StartWith(NewPipe(Digital, g), 0)), c1, 1).value;
    TwoArmSecond(q1, a, b, c, d, c1, c2);
    TwoArmMerged(On(q1, c2, 2).value, a, b, c, d, c1, c2);
  }

  const TwoArmJobs: seq<Job> := [Job(AddOne, map[]), AddValueJob(10), AddValueJob(-10), Job(MultiplyByTwo, map[])]

  /** Only the arm whose condition holds runs: `((5 + 1) + 10) * 2 = 32`,
      and the `add_value(value=-10)` node never runs. */
  lemma TwoArmWalk(p: Pipe, fuel: nat)
    requires Valid(p) && p.start == Some(0) && |p.graph| == 4 && fuel >= 3
    requires p.graph[0] == Vertex(TwoArmJobs[0], [1, 2], None)
    requires p.graph[1] == Vertex(TwoArmJobs[1], [3], Some(Positive))
    requires p.graph[2] == Vertex(TwoArmJobs[2], [3], Some(Negative))
    requires p.graph[3] == Vertex(TwoArmJobs[3], [], None)
    ensures Run(p, Dig(5), fuel) == Ok(Dig(32))
    ensures Ran(p, Dig(5), fuel) == [0, 1, 3]
  {
    var h := p.graph;
    RunsAddOne(h, 0, 5);
    RunsAddValue(h, 1, 10, 6);
    RunsMultiplyByTwo(h, 3, 16);
    AdmitTwo(h, 1, 2, Dig(6));
    assert [1] + [] == [1];
    AdmitOne(h, 3, Dig(16));
    ThreadedLast(h, 3, Dig(16));
    ThreadedCons(h, 1, [3], Dig(6), Dig(16));
    ThreadedCons(h, 0, [1] + [3], Dig(5), Dig(6));
    ComposeCons(h, 3, [], Dig(16), Dig(32));
    ComposeCons(h, 1, [3], Dig(6), Dig(16));
    ComposeCons(h, 0, [1] + [3], Dig(5), Dig(6));
    var path := [0] + ([1] + [3]);
    RunThreaded(p, path, Dig(5), fuel);
    RanThreaded(p, path, Dig(5), fuel);
    assert path == [0, 1, 3];
  }

  /** The pipe of the multiple-conditions test run on 5 gives 32. */
  lemma TwoArmRuns(g: PipeGraph, fuel: nat)
    requires Unlinked(g, TwoArmJobs) && fuel >= 3
    ensures Closed(g) && |g| == 4
    ensures var r := TwoArmPipe(g, Positive, Negative);
      r.Ok? && Run(r.value, Dig(5), fuel) == Ok(Dig(32)) && Ran(r.value, Dig(5), fuel) == [0, 1, 3]
  {
    TwoArmBuilt(g, TwoArmJobs[0], TwoArmJobs[1], TwoArmJobs[2], TwoArmJobs[3], Positive, Negative);
    TwoArmWalk(TwoArmPipe(g, Positive, Negative).value, fuel);
  }

  // ---------------------------------------------------------------------
  // Two arms taken, neither merged: two final results

  /** `start_with(add_one).branch().on(c1, multiply_by_two)
      .on(c2, add_value(value=10)).end_branch()`: both arms end the pipe. */
  function OpenArmsPipe(g: PipeGraph, c1: Cond, c2: Cond): (r: Result<Pipe>)
    requires Closed(g) && |g| == 3
    ensures r.Ok? ==> Valid(r.value)
  {
    match On(Branch(StartWith(NewPipe(Digital, g), 0)), c1, 1)
    case Err(e) => Err(e)
    case Ok(q1) =>
      match On(q1, c2, 2)
      case Err(e) => Err(e)
      case Ok(q2) => EndBranch(q2)
  }

  /** After the first `on`. */
  lemma OpenArmsFirst(g: PipeGraph, a: Job, b: Job, c: Job, c1: Cond)
    requires Unlinked(g, [a, b, c])
    ensures Closed(g)
    ensures var r := On(Branch(StartWith(NewPipe(Digital, g), 0)), c1, 1);
      && r.Ok? && r.value.start == Some(0) && r.value.current == Some(1)
      && r.value.branchNode == Some(0) && r.value.branchEnds == [] && |r.value.graph| == 3
      && r.value.graph[0] == Vertex(a, [1], None)
      && r.value.graph[1] == Vertex(b, [], Some(c1))
      && r.value.graph[2] == Vertex(c, [], None)
  {
    assert Count([0], 0) == 1 && Count([0], 1) == 0 && Count([0], 2) == 0;
  }

  /** After the second `on` and `end_branch()`: both arms hang off the
      branch point and nothing follows them. */
  lemma OpenArmsEnded(q: Pipe, a: Job, b: Job, c: Job, c1: Cond, c2: Cond)
    requires Valid(q) && q.start == Some(0) && q.current == Some(1)
    requires q.branchNode == Some(0) && q.branchEnds == [] && |q.graph| == 3
    requires q.graph[0] == Vertex(a, [1], None)
    requires q.graph[1] == Vertex(b, [], Some(c1))
    requires q.graph[2] == Vertex(c, [], None)
    ensures On(q, c2, 2).Ok?
    ensures var r := EndBranch(On(q, c2, 2).value);
      && r.Ok? && r.value.start == Some(0) && r.value.branchEnds == [1, 2] && |r.value.graph| == 3
      && r.value.graph[0] == Vertex(a, [1, 2], None)
      && r.value.graph[1] == Vertex(b, [], Some(c1))
      && r.value.graph[2] == Vertex(c, [], Some(c2))
  {
    assert Count([0], 0) == 1 && Count([0], 1) == 0 && Count([0], 2) == 0;
    assert [1] + [2] == [1, 2];
  }

  /** The graph the open-arms calls lay. */
  lemma OpenArmsBuilt(g: PipeGraph, a: Job, b: Job, c: Job, c1: Cond, c2: Cond)
    requires Unlinked(g, [a, b, c])
    ensures Closed(g) && |g| == 3
    ensures var r := OpenArmsPipe(g, c1, c2);
      && r.Ok? && r.value.start == Some(0) && |r.value.graph| == 3
      && r.value.graph[0] == Vertex(a, [1, 2], None)
      && r.value.graph[1] == Vertex(b, [], Some(c1))
      && r.value.graph[2] == Vertex(c, [], Some(c2))
  {
    OpenArmsFirst(g, a, b, c, c1);
    OpenArmsEnded(On(Branch(StartWith(NewPipe(Digital, g), 0)), c1, 1).value, a, b, c, c1, c2);
  }

  const OpenArmsJobs: seq<Job> := [Job(AddOne, map[]), Job(MultiplyByTwo, map[]), AddValueJob(10)]

  /** The graph the open-arms calls lay for these jobs under `d.value > 0`. */
  ghost predicate OpenArmsGraph(h: PipeGraph) {
    && |h| == 3
    && h[0] == Vertex(OpenArmsJobs[0], [1, 2], None)
    && h[1] == Vertex(OpenArmsJobs[1], [], Some(Positive))
    && h[2] == Vertex(OpenArmsJobs[2], [], Some(Positive))
  }

  /** `add_one` takes both arms; each arm's node takes nothing. */
  lemma OpenArmsVisits(h: PipeGraph)
    requires Closed(h) && OpenArmsGraph(h)
    ensures Visit(h, 0, Dig(5)) == Ok((Dig(6), [1, 2]))
    ensures Visit(h, 1, Dig(6)) == Ok((Dig(12), []))
    ensures Visit(h, 2, Dig(6)) == Ok((Dig(16), []))
  {
    RunsAddOne(h, 0, 5);
    RunsMultiplyByTwo(h, 1, 6);
    RunsAddValue(h, 2, 10, 6);
    AdmitTwo(h, 1, 2, Dig(6));
    assert [1] + [2] == [1, 2];
  }

  /** With only the second arm left to run, the walk runs it, collects its
      result after the first arm's, and drains. */
  lemma OpenArmsLastArm(h: PipeGraph, fuel: nat)
    requires Closed(h) && OpenArmsGraph(h) && fuel >= 1
    ensures QueueIn(h, [(2, Dig(6))])
    ensures Traverse(h, Walk([(2, Dig(6))], [0, 1], [Dig(12)]), fuel)
         == Traversal([0, 1, 2], [Dig(12), Dig(16)], Drained)
  {
    OpenArmsVisits(h);
    var w2 := Walk([(2, Dig(6))], [0, 1], [Dig(12)]);
    var w3 := Walk([], [0, 1, 2], [Dig(12), Dig(16)]);
    assert w2.queue[1..] + Enqueue([], Dig(16)) == w3.queue;
    assert w2.visited + [2] == w3.visited && w2.terminals + [Dig(16)] == w3.terminals;
    TraverseVisit(h, w2, Dig(16), [], w3, fuel);
    TraverseUnfold(h, w3, fuel - 1);
  }

  /** With both arms queued, the walk runs the first arm, whose result is
      final, and then the second. */
  lemma OpenArmsBothArms(h: PipeGraph, fuel: nat)
    requires Closed(h) && OpenArmsGraph(h) && fuel >= 2
    ensures QueueIn(h, [(1, Dig(6)), (2, Dig(6))])
    ensures Traverse(h, Walk([(1, Dig(6)), (2, Dig(6))], [0], []), fuel)
         == Traversal([0, 1, 2], [Dig(12), Dig(16)], Drained)
  {
    OpenArmsVisits(h);
    var w1 := Walk([(1, Dig(6)), (2, Dig(6))], [0], []);
    var w2 := Walk([(2, Dig(6))], [0, 1], [Dig(12)]);
    assert w1.queue[1..] + Enqueue([], Dig(12)) == w2.queue;
    assert w1.visited + [1] == w2.visited && w1.terminals + [Dig(12)] == w2.terminals;
    TraverseVisit(h, w1, Dig(12), [], w2, fuel);
    OpenArmsLastArm(h, fuel - 1);
  }

  /** The walk dequeues the start node and then both arms, in declaration
      order, and collects both arms' results as final, the first arm's
      first. */
  lemma OpenArmsTraverse(h: PipeGraph, fuel: nat)
    requires Closed(h) && OpenArmsGraph(h) && fuel >= 3
    ensures Traverse(h, Initial(0, Dig(5)), fuel) == Traversal([0, 1, 2], [Dig(12), Dig(16)], Drained)
  {
    OpenArmsVisits(h);
    var w0 := Initial(0, Dig(5));
    var w1 := Walk([(1, Dig(6)), (2, Dig(6))], [0], []);
    assert w0.queue[1..] + Enqueue([1, 2], Dig(6)) == w1.queue;
    assert w0.visited + [0] == w1.visited && w0.terminals + [] == w1.terminals;
    TraverseVisit(h, w0, Dig(6), [1, 2], w1, fuel);
    OpenArmsBothArms(h, fuel - 1);
  }

  /** Both arms run, `(5 + 1) * 2 = 12` and `(5 + 1) + 10 = 16`, and both
      results are final; the one returned is the first arm's, the first
      final result the breadth-first walk collected. */
  lemma OpenArmsWalk(p: Pipe, fuel: nat)
    requires Valid(p) && p.start == Some(0) && OpenArmsGraph(p.graph) && fuel >= 3
    ensures Run(p, Dig(5), fuel) == Ok(Dig(12))
    ensures Ran(p, Dig(5), fuel) == [0, 1, 2]
  {
    OpenArmsTraverse(p.graph, fuel);
  }

  /** Run on 5, the pipe with two open arms under `d.value > 0` returns 12,
      the result of the arm declared first. */
  lemma OpenArmsRuns(g: PipeGraph, fuel: nat)
    requires Unlinked(g, OpenArmsJobs) && fuel >= 3
    ensures Closed(g) && |g| == 3
    ensures var r := OpenArmsPipe(g, Positive, Positive);
      r.Ok? && Run(r.value, Dig(5), fuel) == Ok(Dig(12)) && Ran(r.value, Dig(5), fuel) == [0, 1, 2]
  {
    OpenArmsBuilt(g, OpenArmsJobs[0], OpenArmsJobs[1], OpenArmsJobs[2], Positive, Positive);
    OpenArmsWalk(OpenArmsPipe(g, Positive, Positive).value, fuel);
  }

  // ---------------------------------------------------------------------
  // example.py: three steps, a two-arm branch whose first arm has two
  // nodes, and a final step

  const MathClass: string := "MathData"

  function Math(x: int): Value {
    Value(MathClass, x)
  }

  /** A worker of example.py over one envelope and, when `keyword` is
      set, the keyword argument `b`. */
  function MathFn(name: string, keyword: bool, f: (int, int) -> Call<int>): Fn {
    (args: seq<Value>, kw: Config) =>
      if |args| != 1 then Raised(name + "() got unexpected arguments")
      else if keyword && |kw| == 1 && "b" in kw then
        match f(args[0].value, kw["b"])
        case Returned(y) => Returned(Math(y))
        case Raised(m) => Raised(m)
      else if !keyword && kw == map[] then
        match f(args[0].value, 0)
        case Returned(y) => Returned(Math(y))
        case Raised(m) => Raised(m)
      else Raised(name + "() got unexpected arguments")
  }

  /** `add_(data, b)`, `multiply_(data, b)`, `divide_(data, b)`,
      `add_one(data)` and `reduce_one(data)`. */
  const Add: Worker := Worker("add_", MathFn("add_", true, (x, b) => Returned(x + b)), MathClass)
  const Multiply: Worker := Worker("multiply_", MathFn("multiply_", true, (x, b) => Returned(x * b)), MathClass)
  const Divide: Worker := Worker("divide_",
    MathFn("divide_", true, (x, b) => if b == 0 then Raised("Cannot divide by zero") else Returned(x / b)),
    MathClass)
  const MathAddOne: Worker := Worker("add_one", MathFn("add_one", false, (x, b) => Returned(x + 1)), MathClass)
  const ReduceOne: Worker := Worker("reduce_one", MathFn("reduce_one", false, (x, b) => Returned(x - 1)), MathClass)

  /** `lambda d: d.value > 5` and `lambda d: d.value < 5` */
  const Above5: Cond := (d: Value) => Returned(d.value > 5)
  const Below5: Cond := (d: Value) => Returned(d.value < 5)

  function WithB(w: Worker, b: int): Job {
    Job(w, map["b" := b])
  }

  /** The nodes of `create_pipeline`, in `cfg` order. */
  const ExampleJobs: seq<Job> := [
    WithB(Add, 5), WithB(Multiply, 2), WithB(Divide, 3),
    Job(MathAddOne, map[]), WithB(Multiply, 2), Job(ReduceOne, map[]), Job(ReduceOne, map[])]

  /** The fluent chain of `create_pipeline`, an error stopping it as the
      raised exception would. */
  function ExamplePipe(g: PipeGraph): (r: Result<Pipe>)
    requires Closed(g) && |g| == 7
    ensures r.Ok? ==> Valid(r.value)
  {
    match Then(StartWith(NewPipe(MathClass, g), 0), 1)
    case Err(e) => Err(e)
    case Ok(q1) =>
      match Then(q1, 2)
      case Err(e) => Err(e)
      case Ok(q2) => ExampleBranch(q2)
  }

  /** From `.branch()` on. */
  function ExampleBranch(q: Pipe): (r: Result<Pipe>)
    requires Valid(q) && |q.graph| == 7
    ensures r.Ok? ==> Valid(r.value)
  {
    match On(Branch(q), Above5, 3)
    case Err(e) => Err(e)
    case Ok(q3) =>
      match Then(q3, 4)
      case Err(e) => Err(e)
      case Ok(q4) =>
        match On(q4, Below5, 5)
        case Err(e) => Err(e)
        case Ok(q5) =>
          match EndBranch(q5)
          case Err(e) => Err(e)
          case Ok(q6) => Then(q6, 6)
  }

  /** The node `n` of `g` is job `j` with successors `s` and condition `c`. */
  ghost predicate Holds(g: PipeGraph, n: NodeId, j: Job, s: seq<NodeId>, c: Option<Cond>) {
    n < |g| && g[n] == Vertex(j, s, c)
  }

  /** After `start_with(add_(b=5)).then(multiply_(b=2))`. */
  lemma ExampleFirstStep(g: PipeGraph, j: seq<Job>)
    requires Unlinked(g, j) && |j| == 7
    ensures Closed(g)
    ensures var r := Then(StartWith(NewPipe(MathClass, g), 0), 1);
      && r.Ok? && r.value.start == Some(0) && r.value.current == Some(1)
      && r.value.branchNode.None? && r.value.branchEnds == [] && |r.value.graph| == 7
      && Holds(r.value.graph, 0, j[0], [1], None)
      && (forall n :: 1 <= n < 7 ==> Holds(r.value.graph, n, j[n], [], None))
  {
    assert forall m :: m != 0 ==> Count([0], m) == 0;
  }

  /** After `.then(divide_(b=3))`. */
  lemma ExampleSecondStep(q: Pipe, j: seq<Job>)
    requires Valid(q) && |j| == 7 && q.start == Some(0) && q.current == Some(1)
    requires q.branchNode.None? && q.branchEnds == [] && |q.graph| == 7
    requires Holds(q.graph, 0, j[0], [1], None)
    requires forall n :: 1 <= n < 7 ==> Holds(q.graph, n, j[n], [], None)
    ensures var r := Then(q, 2);
      && r.Ok? && r.value.start == Some(0) && r.value.current == Some(2)
      && r.value.branchNode.None? && r.value.branchEnds == [] && |r.value.graph| == 7
      && Holds(r.value.graph, 0, j[0], [1], None) && Holds(r.value.graph, 1, j[1], [2], None)
      && (forall n :: 2 <= n < 7 ==> Holds(r.value.graph, n, j[n], [], None))
  {
    assert forall m :: m != 1 ==> Count([1], m) == 0;
  }

  /** After `.branch().on(lambda d: d.value > 5, add_one)`. */
  lemma ExampleFirstOn(q: Pipe, j: seq<Job>)
    requires Valid(q) && |j| == 7 && q.start == Some(0) && q.current == Some(2)
    requires q.branchNode.None? && q.branchEnds == [] && |q.graph| == 7
    requires Holds(q.graph, 0, j[0], [1], None) && Holds(q.graph, 1, j[1], [2], None)
    requires forall n :: 2 <= n < 7 ==> Holds(q.graph, n, j[n], [], None)
    ensures var r := On(Branch(q), Above5, 3);
      && r.Ok? && r.value.start == Some(0) && r.value.current == Some(3)
      && r.value.branchNode == Some(2) && r.value.branchEnds == [] && |r.value.graph| == 7
      && Holds(r.value.graph, 0, j[0], [1], None) && Holds(r.value.graph, 1, j[1], [2], None)
      && Holds(r.value.graph, 2, j[2], [3], None) && Holds(r.value.graph, 3, j[3], [], Some(Above5))
      && (forall n :: 4 <= n < 7 ==> Holds(r.value.graph, n, j[n], [], None))
  {
    assert forall m :: m != 2 ==> Count([2], m) == 0;
  }

  /** After `.then(multiply_(b=2))`, which extends the open arm. */
  lemma ExampleArmStep(q: Pipe, j: seq<Job>)
    requires Valid(q) && |j| == 7 && q.start == Some(0) && q.current == Some(3)
    requires q.branchNode == Some(2) && q.branchEnds == [] && |q.graph| == 7
    requires Holds(q.graph, 0, j[0], [1], None) && Holds(q.graph, 1, j[1], [2], None)
    requires Holds(q.graph, 2, j[2], [3], None) && Holds(q.graph, 3, j[3], [], Some(Above5))
    requires forall n :: 4 <= n < 7 ==> Holds(q.graph, n, j[n], [], None)
    ensures var r := Then(q, 4);
      && r.Ok? && r.value.start == Some(0) && r.value.current == Some(4)
      && r.value.branchNode == Some(2) && r.value.branchEnds == [] && |r.value.graph| == 7
      && Holds(r.value.graph, 0, j[0], [1], None) && Holds(r.value.graph, 1, j[1], [2], None)
      && Holds(r.value.graph, 2, j[2], [3], None) && Holds(r.value.graph, 3, j[3], [4], Some(Above5))
      && (forall n :: 4 <= n < 7 ==> Holds(r.value.graph, n, j[n], [], None))
  {
    assert forall m :: m != 3 ==> Count([3], m) == 0;
  }

  /** After `.on(lambda d: d.value < 5, reduce_one)`: the first arm's tip
      is pending. */
  lemma ExampleSecondOn(q: Pipe, j: seq<Job>)
    requires Valid(q) && |j| == 7 && q.start == Some(0) && q.current == Some(4)
    requires q.branchNode == Some(2) && q.branchEnds == [] && |q.graph| == 7
    requires Holds(q.graph, 0, j[0], [1], None) && Holds(q.graph, 1, j[1], [2], None)
    requires Holds(q.graph, 2, j[2], [3], None) && Holds(q.graph, 3, j[3], [4], Some(Above5))
    requires forall n :: 4 <= n < 7 ==> Holds(q.graph, n, j[n], [], None)
    ensures var r := On(q, Below5, 5);
      && r.Ok? && r.value.start == Some(0) && r.value.current == Some(5)
      && r.value.branchNode == Some(2) && r.value.branchEnds == [4] && |r.value.graph| == 7
      && Holds(r.value.graph, 0, j[0], [1], None) && Holds(r.value.graph, 1, j[1], [2], None)
      && Holds(r.value.graph, 2, j[2], [3, 5], None) && Holds(r.value.graph, 3, j[3], [4], Some(Above5))
      && Holds(r.value.graph, 4, j[4], [], None) && Holds(r.value.graph, 5, j[5], [], Some(Below5))
      && Holds(r.value.graph, 6, j[6], [], None)
  {
    assert forall m :: m != 2 ==> Count([2], m) == 0;
    assert [3] + [5] == [3, 5] && [] + [4] == [4];
  }

  /** After `.end_branch()`: both arm tips are pending. */
  lemma ExampleEndBranch(q: Pipe, j: seq<Job>)
    requires Valid(q) && |j| == 7 && q.start == Some(0) && q.current == Some(5)
    requires q.branchNode == Some(2) && q.branchEnds == [4] && |q.graph| == 7
    ensures var r := EndBranch(q);
      && r.Ok? && r.value.start == Some(0) && r.value.current == Some(5) && r.value.graph == q.graph
      && r.value.branchNode.None? && r.value.branchEnds == [4, 5]
  {
    assert [4] + [5] == [4, 5];
  }

  /** After the final `.then(reduce_one)`: both tips are merged into it. */
  lemma ExampleMerge(q: Pipe, j: seq<Job>)
    requires Valid(q) && |j| == 7 && q.start == Some(0) && q.current == Some(5)
    requires q.branchNode.None? && q.branchEnds == [4, 5] && |q.graph| == 7
    requires Holds(q.graph, 0, j[0], [1], None) && Holds(q.graph, 1, j[1], [2], None)
    requires Holds(q.graph, 2, j[2], [3, 5], None) && Holds(q.graph, 3, j[3], [4], Some(Above5))
    requires Holds(q.graph, 4, j[4], [], None) && Holds(q.graph, 5, j[5], [], Some(Below5))
    requires Holds(q.graph, 6, j[6], [], None)
    ensures var r := Then(q, 6);
      r.Ok? && r.value.start == Some(0) && |r.value.graph| == 7 && ExampleGraph(r.value.graph, j)
  {
    assert forall m :: m != 4 && m != 5 ==> Count([4, 5], m) == 0;
    assert Count([4, 5], 4) == 1 && Count([4, 5], 5) == 1;
  }

  /** The graph `create_pipeline` lays. */
  ghost predicate ExampleGraph(g: PipeGraph, j: seq<Job>)
    requires |j| == 7
  {
    && Holds(g, 0, j[0], [1], None) && Holds(g, 1, j[1], [2], None)
    && Holds(g, 2, j[2], [3, 5], None) && Holds(g, 3, j[3], [4], Some(Above5))
    && Holds(g, 4, j[4], [6], None) && Holds(g, 5, j[5], [6], Some(Below5))
    && Holds(g, 6, j[6], [], None)
  }

  lemma ExampleBuilt(g: PipeGraph, j: seq<Job>)
    requires Unlinked(g, j) && |j| == 7
    ensures Closed(g) && |g| == 7
    ensures var r := ExamplePipe(g);
      r.Ok? && r.value.start == Some(0) && |r.value.graph| == 7 && ExampleGraph(r.value.graph, j)
  {
    ExampleFirstStep(g, j);
    var q1 := Then(StartWith(NewPipe(MathClass, g), 0), 1).value;
    ExampleSecondStep(q1, j);
    var q2 := Then(q1, 2).value;
    ExampleFirstOn(q2, j);
    var q3 := On(Branch(q2), Above5, 3).value;
    ExampleArmStep(q3, j);
    var q4 := Then(q3, 4).value;
    ExampleSecondOn(q4, j);
    var q5 := On(q4, Below5, 5).value;
    ExampleEndBranch(q5, j);
    ExampleMerge(EndBranch(q5).value, j);
  }

  lemma RunsAdd(g: PipeGraph, n: NodeId, b: int, x: int)
    requires n < |g| && g[n].payload == WithB(Add, b)
    ensures RunNode(g, n, Math(x)) == Ok(Math(x + b))
  {
  }

  lemma RunsMultiply(g: PipeGraph, n: NodeId, b: int, x: int)
    requires n < |g| && g[n].payload == WithB(Multiply, b)
    ensures RunNode(g, n, Math(x)) == Ok(Math(x * b))
  {
  }

  /** `divide_` on a non-zero divisor; the example's division is exact. */
  lemma RunsDivide(g: PipeGraph, n: NodeId, b: int, x: int)
    requires n < |g| && g[n].payload == WithB(Divide, b) && b != 0
    ensures RunNode(g, n, Math(x)) == Ok(Math(x / b))
  {
  }

  /** `divide_(b=0)` raises its own `ValueError`, which the node's caller
      sees as the node's failure. */
  lemma DivideByZero(g: PipeGraph, n: NodeId, x: int)
    requires n < |g| && g[n].payload == WithB(Divide, 0)
    ensures RunNode(g, n, Math(x)) == Err(Thrown("Cannot divide by zero"))
  {
  }

  lemma RunsMathAddOne(g: PipeGraph, n: NodeId, x: int)
    requires n < |g| && g[n].payload == Job(MathAddOne, map[])
    ensures RunNode(g, n, Math(x)) == Ok(Math(x + 1))
  {
  }

  lemma RunsReduceOne(g: PipeGraph, n: NodeId, x: int)
    requires n < |g| && g[n].payload == Job(ReduceOne, map[])
    ensures RunNode(g, n, Math(x)) == Ok(Math(x - 1))
  {
  }

  /** The first arm on 10: `(10 + 1) * 2 - 1 = 21`. */
  lemma ExampleArmTail(g: PipeGraph)
    requires Closed(g) && |g| == 7 && ExampleGraph(g, ExampleJobs)
    ensures AllIn(g, [3] + ([4] + [6]))
    ensures Threaded(g, [3] + ([4] + [6]), Math(10))
    ensures Compose(g, [3] + ([4] + [6]), Math(10)) == Ok(Math(21))
  {
    RunsMathAddOne(g, 3, 10);
    RunsMultiply(g, 4, 2, 11);
    RunsReduceOne(g, 6, 22);
    AdmitOne(g, 4, Math(11));
    AdmitOne(g, 6, Math(22));
    ThreadedLast(g, 6, Math(22));
    ThreadedCons(g, 4, [6], Math(11), Math(22));
    ThreadedCons(g, 3, [4] + [6], Math(10), Math(11));
    ComposeCons(g, 6, [], Math(22), Math(21));
    ComposeCons(g, 4, [6], Math(11), Math(22));
    ComposeCons(g, 3, [4] + [6], Math(10), Math(11));
  }

  /** From the branch point on 30: `30 / 3 = 10`, and `10 > 5` takes the
      first arm only. */
  lemma ExampleArmPath(g: PipeGraph)
    requires Closed(g) && |g| == 7 && ExampleGraph(g, ExampleJobs)
    ensures AllIn(g, [2] + ([3] + ([4] + [6])))
    ensures Threaded(g, [2] + ([3] + ([4] + [6])), Math(30))
    ensures Compose(g, [2] + ([3] + ([4] + [6])), Math(30)) == Ok(Math(21))
  {
    var tail := [3] + ([4] + [6]);
    ExampleArmTail(g);
    RunsDivide(g, 2, 3, 30);
    AdmitTwo(g, 3, 5, Math(10));
    assert [3] + [] == [3];
    ThreadedCons(g, 2, tail, Math(30), Math(10));
    ComposeCons(g, 2, tail, Math(30), Math(10));
  }

  /** The walk over the example's graph on 10: 15, 30 and 10 along the
      steps, then 11, 22 and 21; the second arm's `reduce_one` never runs. */
  lemma ExampleWalk(p: Pipe, fuel: nat)
    requires Valid(p) && p.start == Some(0) && |p.graph| == 7 && fuel >= 6
    requires ExampleGraph(p.graph, ExampleJobs)
    ensures Run(p, Math(10), fuel) == Ok(Math(21))
    ensures Ran(p, Math(10), fuel) == [0, 1, 2, 3, 4, 6]
  {
    var h := p.graph;
    var arm := [2] + ([3] + ([4] + [6]));
    ExampleArmPath(h);
    RunsAdd(h, 0, 5, 10);
    RunsMultiply(h, 1, 2, 15);
    AdmitOne(h, 1, Math(15));
    AdmitOne(h, 2, Math(30));
    ThreadedCons(h, 1, arm, Math(15), Math(30));
    ThreadedCons(h, 0, [1] + arm, Math(10), Math(15));
    ComposeCons(h, 1, arm, Math(15), Math(30));
    ComposeCons(h, 0, [1] + arm, Math(10), Math(15));
    var path := [0] + ([1] + arm);
    RunThreaded(p, path, Math(10), fuel);
    RanThreaded(p, path, Math(10), fuel);
    assert path == [0, 1, 2, 3, 4, 6];
  }

  /** The pipe `create_pipeline` builds, run on `MathData(10)`, gives 21. */
  lemma ExampleRuns(g: PipeGraph, fuel: nat)
    requires Unlinked(g, ExampleJobs) && fuel >= 6
    ensures Closed(g) && |g| == 7
    ensures var r := ExamplePipe(g);
      && r.Ok? && Run(r.value, Math(10), fuel) == Ok(Math(21))
      && Ran(r.value, Math(10), fuel) == [0, 1, 2, 3, 4, 6]
  {
    ExampleBuilt(g, ExampleJobs);
    ExampleWalk(ExamplePipe(g).value, fuel);
  }
}
