/** The `Pipe` builder and `PipeRegistry` (src/sweetshop/pipe.py).

    A pipe records where the next node goes (`current`), the node at which
    an open branch began (`branchNode`) and the tips of finished arms still
    waiting to be merged (`branchEnds`). Every builder call is a function
    from the pipe (and the node arena it edits) to a new pipe or the error
    the source raises; on an error the caller keeps the old pipe. */
module Pipes {
  import opened Base
  import opened Workers
  import opened Graphs
  import opened Nodes
  import Registry

  datatype Pipe = Pipe(
    dataType: string,
    graph: PipeGraph,
    start: Option<NodeId>,
    current: Option<NodeId>,
    branchNode: Option<NodeId>,
    branchEnds: seq<NodeId>)

  predicate InGraph(g: PipeGraph, o: Option<NodeId>) {
    o.None? || o.value < |g|
  }

  /** Every reference the pipe holds is to a node of its arena. */
  ghost predicate Valid(p: Pipe) {
    && Closed(p.graph)
    && InGraph(p.graph, p.start)
    && InGraph(p.graph, p.current)
    && InGraph(p.graph, p.branchNode)
    && AllIn(p.graph, p.branchEnds)
  }

  /** `Pipe(data_type)` over the nodes of `g`. */
  function NewPipe(dataType: string, g: PipeGraph): (p: Pipe)
    requires Closed(g)
    ensures Valid(p) && p.graph == g
    ensures p.start.None? && p.current.None? && p.branchNode.None? && p.branchEnds == []
  {
    Pipe(dataType, g, None, None, None, [])
  }

  /** The tip of the arm under construction: the current node, unless it is
      the branch point itself (no arm declared yet). */
  function OpenTip(p: Pipe): (t: seq<NodeId>)
    ensures |t| <= 1
    ensures t != [] <==> p.current.Some? && p.current != p.branchNode
    ensures t != [] ==> t[0] == p.current.value
  {
    if p.current.Some? && p.current != p.branchNode then [p.current.value] else []
  }

  /** `start_with(node)`: no state is checked; the branch state is kept. */
  function StartWith(p: Pipe, n: NodeId): (r: Pipe)
    requires Valid(p) && n < |p.graph|
    ensures Valid(r)
    ensures r.start == Some(n) && r.current == Some(n)
    ensures r.graph == p.graph && r.branchNode == p.branchNode && r.branchEnds == p.branchEnds
  {
    p.(start := Some(n), current := Some(n))
  }

  /** After `end_branch()` with pending arm tips, `then` merges them. */
  predicate Merging(p: Pipe) {
    p.branchNode.None? && p.branchEnds != []
  }

  /** `then(node)`: merges every pending arm tip into `n` right after a
      branch was closed, otherwise links the current node to `n`; either way
      `n` loses any condition and becomes the current node. */
  function Then(p: Pipe, n: NodeId): (r: Result<Pipe>)
    requires Valid(p) && n < |p.graph|
    ensures r.Err? <==> p.current.None?
    ensures r.Err? ==> r.error == NoCurrentNode
    ensures r.Ok? ==> Valid(r.value) && r.value.current == Some(n)
    ensures r.Ok? ==> r.value.start == p.start && r.value.branchNode == p.branchNode
    ensures r.Ok? ==> r.value.branchEnds == (if p.branchNode.None? then [] else p.branchEnds)
    ensures r.Ok? && Merging(p) ==> Linked(p.graph, r.value.graph, p.branchEnds, n, None)
    ensures r.Ok? && !Merging(p) ==> Linked(p.graph, r.value.graph, [p.current.value], n, None)
  {
    if p.current.None? then Err(NoCurrentNode)
    else if Merging(p) then
      Ok(p.(graph := LinkInto(p.graph, p.branchEnds, n), branchEnds := [], current := Some(n)))
    else
      Ok(p.(graph := AddNext(p.graph, p.current.value, n, None), current := Some(n)))
  }

  /** `branch()`: the current node (possibly none — the source does not
      check) becomes the branch point and the pending tips are dropped. */
  function Branch(p: Pipe): (r: Pipe)
    requires Valid(p)
    ensures Valid(r)
    ensures r.branchNode == p.current && r.branchEnds == []
    ensures r.graph == p.graph && r.current == p.current && r.start == p.start
  {
    p.(branchNode := p.current, branchEnds := [])
  }

  /** `on(cond, node)`: starts an arm: the branch point gets `n` as a
      successor guarded by `cond`, the previous arm's tip (if any) becomes
      pending, and `n` becomes the current node. */
  function On(p: Pipe, cond: Cond, n: NodeId): (r: Result<Pipe>)
    requires Valid(p) && n < |p.graph|
    ensures r.Err? <==> p.current.None? || p.branchNode.None?
    ensures p.current.None? ==> r.Err? && r.error == NoCurrentNode
    ensures p.current.Some? && p.branchNode.None? ==> r.Err? && r.error == BranchNotStarted
    ensures r.Ok? ==> Valid(r.value) && r.value.current == Some(n)
    ensures r.Ok? ==> r.value.start == p.start && r.value.branchNode == p.branchNode
    ensures r.Ok? ==> Linked(p.graph, r.value.graph, [p.branchNode.value], n, Some(cond))
    ensures r.Ok? && p.current != p.branchNode ==> r.value.branchEnds == p.branchEnds + [p.current.value]
    ensures r.Ok? && p.current == p.branchNode ==> r.value.branchEnds == p.branchEnds
  {
    if p.current.None? then Err(NoCurrentNode)
    else if p.branchNode.None? then Err(BranchNotStarted)
    else
      Ok(p.(graph := AddNext(p.graph, p.branchNode.value, n, Some(cond)),
            branchEnds := p.branchEnds + OpenTip(p),
            current := Some(n)))
  }

  /** `end_branch()`: the open arm's tip (if an arm was declared) becomes
      pending and the branch is closed; the current node is kept. */
  function EndBranch(p: Pipe): (r: Result<Pipe>)
    requires Valid(p)
    ensures r.Err? <==> p.current.None? || p.branchNode.None?
    ensures p.current.None? ==> r.Err? && r.error == NoCurrentNode
    ensures p.current.Some? && p.branchNode.None? ==> r.Err? && r.error == NoActiveBranch
    ensures r.Ok? ==> Valid(r.value) && r.value.branchNode.None?
    ensures r.Ok? ==> r.value.graph == p.graph && r.value.current == p.current && r.value.start == p.start
    ensures r.Ok? && p.current != p.branchNode ==> r.value.branchEnds == p.branchEnds + [p.current.value]
    ensures r.Ok? && p.current == p.branchNode ==> r.value.branchEnds == p.branchEnds
  {
    if p.current.None? then Err(NoCurrentNode)
    else if p.branchNode.None? then Err(NoActiveBranch)
    else Ok(p.(branchEnds := p.branchEnds + OpenTip(p), branchNode := None))
  }

  // ---------------------------------------------------------------------
  // Call sequences

  /** One fluent builder call. */
  datatype Cmd =
    | DoStart(node: NodeId)
    | DoThen(node: NodeId)
    | DoBranch
    | DoOn(cond: Cond, node: NodeId)
    | DoEndBranch

  predicate CmdIn(size: nat, c: Cmd) {
    match c
    case DoStart(n) => n < size
    case DoThen(n) => n < size
    case DoOn(_, n) => n < size
    case _ => true
  }

  predicate CmdsIn(size: nat, cmds: seq<Cmd>) {
    forall i :: 0 <= i < |cmds| ==> CmdIn(size, cmds[i])
  }

  function Apply(p: Pipe, c: Cmd): (r: Result<Pipe>)
    requires Valid(p) && CmdIn(|p.graph|, c)
    ensures r.Ok? ==> Valid(r.value) && |r.value.graph| == |p.graph|
  {
    match c
    case DoStart(n) => Ok(StartWith(p, n))
    case DoThen(n) => Then(p, n)
    case DoBranch => Ok(Branch(p))
    case DoOn(cond, n) => On(p, cond, n)
    case DoEndBranch => EndBranch(p)
  }

  /** A chain of builder calls; the first failing call stops it. */
  function Build(p: Pipe, cmds: seq<Cmd>): (r: Result<Pipe>)
    requires Valid(p) && CmdsIn(|p.graph|, cmds)
    ensures r.Ok? ==> Valid(r.value) && |r.value.graph| == |p.graph|
    decreases |cmds|
  {
    if cmds == [] then Ok(p)
    else
      match Apply(p, cmds[0])
      case Err(e) => Err(e)
      case Ok(q) => Build(q, cmds[1..])
  }

  /** A successful first call hands its pipe to the rest of the chain. */
  lemma BuildCons(p: Pipe, c: Cmd, rest: seq<Cmd>)
    requires Valid(p) && CmdIn(|p.graph|, c) && CmdsIn(|p.graph|, rest)
    ensures CmdsIn(|p.graph|, [c] + rest)
    ensures Apply(p, c).Ok? ==> Build(p, [c] + rest) == Build(Apply(p, c).value, rest)
    ensures Apply(p, c).Err? ==> Build(p, [c] + rest) == Err(Apply(p, c).error)
  {
    assert ([c] + rest)[0] == c;
    assert ([c] + rest)[1..] == rest;
  }

  lemma {:induction false} BuildAppend(p: Pipe, a: seq<Cmd>, b: seq<Cmd>)
    requires Valid(p) && CmdsIn(|p.graph|, a) && CmdsIn(|p.graph|, b)
    ensures CmdsIn(|p.graph|, a + b)
    ensures Build(p, a).Ok? ==> Build(p, a + b) == Build(Build(p, a).value, b)
    ensures Build(p, a).Err? ==> Build(p, a + b) == Build(p, a)
    decreases |a|
  {
    if a == [] {
      assert a + b == b;
    } else {
      assert (a + b)[0] == a[0];
      assert (a + b)[1..] == a[1..] + b;
      match Apply(p, a[0])
      case Err(e) =>
      case Ok(q) =>
        assert Build(p, a + b) == Build(q, a[1..] + b);
        assert Build(p, a) == Build(q, a[1..]);
        BuildAppend(q, a[1..], b);
    }
  }

  /** `then(n1).then(n2)...` */
  function ThenCmds(ns: seq<NodeId>): (cmds: seq<Cmd>)
    ensures |cmds| == |ns|
    ensures forall i :: 0 <= i < |ns| ==> cmds[i] == DoThen(ns[i])
  {
    seq(|ns|, i requires 0 <= i < |ns| => DoThen(ns[i]))
  }

  /** The successors a chain `c -> ns[0] -> ns[1] -> ...` adds to node `m`,
      in order. */
  function ChainSucc(c: NodeId, ns: seq<NodeId>, m: NodeId): seq<NodeId>
    decreases |ns|
  {
    if ns == [] then []
    else (if c == m then [ns[0]] else []) + ChainSucc(ns[0], ns[1..], m)
  }

  function Last(c: NodeId, ns: seq<NodeId>): NodeId {
    if ns == [] then c else ns[|ns| - 1]
  }

  /** `r` is `g` with the chain `c -> ns[0] -> ns[1] -> ...` laid: each
      link appends one successor and clears the condition of its target;
      nothing else differs. */
  ghost predicate ChainLaid(g: PipeGraph, r: PipeGraph, c: NodeId, ns: seq<NodeId>) {
    && |r| == |g|
    && (forall m :: 0 <= m < |g| ==> r[m].payload == g[m].payload)
    && (forall m :: 0 <= m < |g| ==> r[m].next == g[m].next + ChainSucc(c, ns, m))
    && (forall m :: 0 <= m < |g| && m in ns ==> r[m].condition.None?)
    && (forall m :: 0 <= m < |g| && m !in ns ==> r[m].condition == g[m].condition)
  }

  lemma {:induction false} ChainLaidStep(g: PipeGraph, q: PipeGraph, r: PipeGraph, c: NodeId, ns: seq<NodeId>)
    requires ns != []
    requires Linked(g, q, [c], ns[0], None)
    requires ChainLaid(q, r, ns[0], ns[1..])
    ensures ChainLaid(g, r, c, ns)
  {
    forall m | 0 <= m < |g|
      ensures r[m].next == g[m].next + ChainSucc(c, ns, m)
    {
      assert [c][1..] == [];
      assert Count([c], m) == (if c == m then 1 else 0);
      assert Repeat(ns[0], Count([c], m)) == (if c == m then [ns[0]] else []);
    }
    forall m | 0 <= m < |g| && m in ns
      ensures r[m].condition.None?
    {
      if m != ns[0] {
        assert m in ns[1..];
      }
    }
  }

  lemma ChainLaidEmpty(g: PipeGraph, c: NodeId)
    ensures ChainLaid(g, g, c, [])
  {
  }

  /** Outside a pending merge, a run of `then` calls lays a chain from the
      current node through `ns`; the branch state is not touched. */
  lemma {:induction false} ThenChain(p: Pipe, ns: seq<NodeId>)
    requires Valid(p) && p.current.Some? && AllIn(p.graph, ns)
    requires !Merging(p)
    ensures CmdsIn(|p.graph|, ThenCmds(ns))
    ensures var r := Build(p, ThenCmds(ns));
      && r.Ok?
      && r.value.current == Some(Last(p.current.value, ns))
      && r.value.start == p.start
      && r.value.branchNode == p.branchNode
      && r.value.branchEnds == p.branchEnds
      && ChainLaid(p.graph, r.value.graph, p.current.value, ns)
    decreases |ns|
  {
    var c := p.current.value;
    if ns == [] {
      assert Build(p, ThenCmds(ns)) == Ok(p);
      ChainLaidEmpty(p.graph, c);
    } else {
      var q := Then(p, ns[0]).value;
      assert Apply(p, DoThen(ns[0])) == Ok(q);
      assert ThenCmds(ns)[0] == DoThen(ns[0]);
      assert ThenCmds(ns)[1..] == ThenCmds(ns[1..]);
      assert Build(p, ThenCmds(ns)) == Build(q, ThenCmds(ns[1..]));
      assert !Merging(q);
      ThenChain(q, ns[1..]);
      var r := Build(q, ThenCmds(ns[1..])).value;
      ChainLaidStep(p.graph, q.graph, r.graph, c, ns);
      assert Last(ns[0], ns[1..]) == Last(c, ns);
    }
  }

  // ---------------------------------------------------------------------
  // Branches

  /** One arm: `on(cond, head)` followed by `then(t)` for each `t` of `tail`. */
  datatype Arm = Arm(cond: Cond, head: NodeId, tail: seq<NodeId>)

  function ArmCmds(a: Arm): seq<Cmd> {
    [DoOn(a.cond, a.head)] + ThenCmds(a.tail)
  }

  function ArmsCmds(arms: seq<Arm>): seq<Cmd>
    decreases |arms|
  {
    if arms == [] then [] else ArmCmds(arms[0]) + ArmsCmds(arms[1..])
  }

  function ArmTip(a: Arm): NodeId {
    Last(a.head, a.tail)
  }

  function ArmTips(arms: seq<Arm>): (tips: seq<NodeId>)
    ensures |tips| == |arms|
    ensures forall i :: 0 <= i < |arms| ==> tips[i] == ArmTip(arms[i])
  {
    seq(|arms|, i requires 0 <= i < |arms| => ArmTip(arms[i]))
  }

  /** Every node of every arm is in the arena and differs from `b`. */
  predicate ArmsAvoid(size: nat, arms: seq<Arm>, b: NodeId) {
    forall i :: 0 <= i < |arms| ==>
      && arms[i].head < size && arms[i].head != b
      && (forall k :: 0 <= k < |arms[i].tail| ==> arms[i].tail[k] < size && arms[i].tail[k] != b)
  }

  lemma {:induction false} ArmsCmdsIn(size: nat, arms: seq<Arm>, b: NodeId)
    requires ArmsAvoid(size, arms, b)
    ensures CmdsIn(size, ArmsCmds(arms))
    decreases |arms|
  {
    if arms != [] {
      ArmsCmdsIn(size, arms[1..], b);
      assert ArmsAvoid(size, arms[1..], b);
    }
  }

  /** One arm inside an open branch: the pending tips plus the open tip grow
      by exactly that arm's tip. */
  lemma {:induction false} OneArm(p: Pipe, a: Arm, b: NodeId)
    requires Valid(p) && p.current.Some? && p.branchNode == Some(b)
    requires ArmsAvoid(|p.graph|, [a], b)
    ensures CmdsIn(|p.graph|, ArmCmds(a))
    ensures var r := Build(p, ArmCmds(a));
      && r.Ok? && r.value.branchNode == Some(b) && r.value.current == Some(ArmTip(a))
      && r.value.start == p.start
      && Pending(r.value) == Pending(p) + [ArmTip(a)]
  {
    ArmsCmdsIn(|p.graph|, [a], b);
    assert ArmsCmds([a]) == ArmCmds(a) + [];
    var q := On(p, a.cond, a.head).value;
    assert Apply(p, DoOn(a.cond, a.head)) == Ok(q);
    assert ArmCmds(a)[0] == DoOn(a.cond, a.head);
    assert ArmCmds(a)[1..] == ThenCmds(a.tail);
    assert Build(p, ArmCmds(a)) == Build(q, ThenCmds(a.tail));
    assert q.branchEnds == p.branchEnds + OpenTip(p);
    ThenChain(q, a.tail);
    var r := Build(q, ThenCmds(a.tail)).value;
    assert ArmTip(a) != b by {
      if a.tail != [] {
        assert a.tail[|a.tail| - 1] != b;
      }
    }
    assert OpenTip(r) == [ArmTip(a)];
  }

  /** The arm tips still to be merged: the pending ones and the open one. */
  function Pending(p: Pipe): seq<NodeId> {
    p.branchEnds + OpenTip(p)
  }

  lemma AppendAssoc<T>(a: seq<T>, b: seq<T>, c: seq<T>)
    ensures (a + b) + c == a + (b + c)
  {
  }

  /** What declaring `arms` inside the branch at `b` must leave: the branch
      still open, the last arm's tip current and every tip pending. */
  ghost predicate ArmsDeclared(p: Pipe, arms: seq<Arm>, b: NodeId, r: Result<Pipe>) {
    && r.Ok? && r.value.branchNode == Some(b)
    && r.value.current == (if arms == [] then p.current else Some(ArmTip(arms[|arms| - 1])))
    && r.value.start == p.start
    && Pending(r.value) == Pending(p) + ArmTips(arms)
  }

  /** The first arm is declared, and the rest of the calls continue from
      the pipe it leaves. */
  lemma {:induction false} FirstArm(p: Pipe, arms: seq<Arm>, b: NodeId)
    requires Valid(p) && p.current.Some? && p.branchNode == Some(b) && arms != []
    requires ArmsAvoid(|p.graph|, arms, b)
    ensures CmdsIn(|p.graph|, ArmCmds(arms[0])) && CmdsIn(|p.graph|, ArmsCmds(arms))
    ensures CmdsIn(|p.graph|, ArmsCmds(arms[1..]))
    ensures var q := Build(p, ArmCmds(arms[0]));
      && q.Ok? && Valid(q.value) && |q.value.graph| == |p.graph|
      && ArmsDeclared(p, [arms[0]], b, q)
      && ArmsAvoid(|p.graph|, arms[1..], b)
      && Build(p, ArmsCmds(arms)) == Build(q.value, ArmsCmds(arms[1..]))
  {
    assert ArmsAvoid(|p.graph|, [arms[0]], b);
    assert ArmsAvoid(|p.graph|, arms[1..], b);
    OneArm(p, arms[0], b);
    ArmsCmdsIn(|p.graph|, arms, b);
    ArmsCmdsIn(|p.graph|, arms[1..], b);
    assert ArmsCmds(arms) == ArmCmds(arms[0]) + ArmsCmds(arms[1..]);
    BuildAppend(p, ArmCmds(arms[0]), ArmsCmds(arms[1..]));
    assert ArmTips([arms[0]]) == [ArmTip(arms[0])];
  }

  lemma ArmTipsCons(arms: seq<Arm>)
    requires arms != []
    ensures ArmTips([arms[0]]) == [ArmTip(arms[0])]
    ensures ArmTips(arms) == [ArmTip(arms[0])] + ArmTips(arms[1..])
  {
  }

  /** Declaring one arm and then the others is declaring all of them. */
  lemma {:induction false} ArmsDeclaredStep(p: Pipe, q: Pipe, arms: seq<Arm>, b: NodeId, r: Result<Pipe>)
    requires arms != []
    requires ArmsDeclared(p, [arms[0]], b, Ok(q))
    requires ArmsDeclared(q, arms[1..], b, r)
    ensures ArmsDeclared(p, arms, b, r)
  {
    ArmTipsCons(arms);
    AppendAssoc(Pending(p), [ArmTip(arms[0])], ArmTips(arms[1..]));
    if |arms| > 1 {
      assert arms[1..][|arms| - 2] == arms[|arms| - 1];
    }
  }

  /** Declaring the arms one after another leaves the tip of every arm
      pending, in declaration order (the last one as the open tip). */
  lemma {:induction false} ArmsLeaveTips(p: Pipe, arms: seq<Arm>, b: NodeId)
    requires Valid(p) && p.current.Some? && p.branchNode == Some(b)
    requires ArmsAvoid(|p.graph|, arms, b)
    ensures CmdsIn(|p.graph|, ArmsCmds(arms))
    ensures ArmsDeclared(p, arms, b, Build(p, ArmsCmds(arms)))
    decreases |arms|
  {
    if arms == [] {
      assert Build(p, ArmsCmds(arms)) == Ok(p);
      assert ArmTips(arms) == [];
    } else {
      FirstArm(p, arms, b);
      var q := Build(p, ArmCmds(arms[0])).value;
      ArmsLeaveTips(q, arms[1..], b);
      ArmsDeclaredStep(p, q, arms, b, Build(q, ArmsCmds(arms[1..])));
    }
  }

  /** `branch()`, the arms, then `end_branch()`: the branch is closed and the
      tips of all arms are pending, in declaration order. With no arm at all
      nothing is pending and the branch point is still the current node. */
  lemma {:induction false} BranchCollectsTips(p: Pipe, arms: seq<Arm>)
    requires Valid(p) && p.current.Some?
    requires ArmsAvoid(|p.graph|, arms, p.current.value)
    ensures CmdsIn(|p.graph|, [DoBranch] + ArmsCmds(arms) + [DoEndBranch])
    ensures var r := Build(p, [DoBranch] + ArmsCmds(arms) + [DoEndBranch]);
      && r.Ok? && r.value.branchNode.None?
      && r.value.branchEnds == ArmTips(arms)
      && r.value.current == (if arms == [] then p.current else Some(ArmTip(arms[|arms| - 1])))
      && r.value.start == p.start
  {
    var c := p.current.value;
    var q := Branch(p);
    ArmsCmdsIn(|p.graph|, arms, c);
    assert Build(p, [DoBranch]) == Build(q, []);
    BuildAppend(p, [DoBranch], ArmsCmds(arms));
    ArmsLeaveTips(q, arms, c);
    var s := Build(q, ArmsCmds(arms)).value;
    BuildAppend(p, [DoBranch] + ArmsCmds(arms), [DoEndBranch]);
    assert Build(s, [DoEndBranch]) == EndBranch(s);
    assert OpenTip(q) == [];
  }

  /** Merge correctness: after a branch with at least one arm, `then(n)`
      links the tip of every arm to `n` — and only those — clears the
      condition of `n` and leaves nothing pending. */
  lemma {:induction false} MergeLinksEveryTip(p: Pipe, arms: seq<Arm>, n: NodeId)
    requires Valid(p) && p.current.Some? && n < |p.graph| && arms != []
    requires ArmsAvoid(|p.graph|, arms, p.current.value)
    ensures CmdsIn(|p.graph|, [DoBranch] + ArmsCmds(arms) + [DoEndBranch])
    ensures CmdsIn(|p.graph|, [DoBranch] + ArmsCmds(arms) + [DoEndBranch, DoThen(n)])
    ensures var mid := Build(p, [DoBranch] + ArmsCmds(arms) + [DoEndBranch]);
      var r := Build(p, [DoBranch] + ArmsCmds(arms) + [DoEndBranch, DoThen(n)]);
      && mid.Ok? && r.Ok?
      && Linked(mid.value.graph, r.value.graph, ArmTips(arms), n, None)
      && r.value.current == Some(n) && r.value.branchEnds == [] && r.value.branchNode.None?
  {
    BranchCollectsTips(p, arms);
    var cmds := [DoBranch] + ArmsCmds(arms) + [DoEndBranch];
    assert cmds + [DoThen(n)] == [DoBranch] + ArmsCmds(arms) + [DoEndBranch, DoThen(n)];
    BuildAppend(p, cmds, [DoThen(n)]);
    var mid := Build(p, cmds).value;
    assert Build(mid, [DoThen(n)]) == Then(mid, n);
    assert Merging(mid);
  }

  /** A branch with no arms is a no-op: `branch().end_branch().then(n)`
      links the current node to `n` exactly as `then(n)` would. */
  lemma ZeroArmBranch(p: Pipe, n: NodeId)
    requires Valid(p) && p.current.Some? && n < |p.graph|
    ensures EndBranch(Branch(p)).Ok?
    ensures var r := Then(EndBranch(Branch(p)).value, n);
      && r.Ok?
      && Linked(p.graph, r.value.graph, [p.current.value], n, None)
      && r.value.current == Some(n) && r.value.branchNode.None? && r.value.branchEnds == []
  {
  }

  // ---------------------------------------------------------------------
  // PipeRegistry

  type PipeRegistry = Registry.Registry<Pipe>

  /** The name `register_pipe` resolves: `name or func.__name__`, falling
      back to "unknown_pipe" for a function without a name. */
  function PipeName(name: Option<string>, funcName: Option<string>): (s: string)
    ensures name.Some? && name.value != "" ==> s == name.value
    ensures (name.None? || name.value == "") && funcName.Some? ==> s == funcName.value
    ensures (name.None? || name.value == "") && funcName.None? ==> s == "unknown_pipe"
  {
    if name.Some? && name.value != "" then name.value
    else if funcName.Some? then funcName.value
    else "unknown_pipe"
  }

  /** `@pipe_registry.register_pipe(name)` applied to a function named
      `funcName` (when it has a name) whose call `built` either returns the
      pipe or raises. The name is resolved first, then the function is
      called; a raise escapes and nothing is registered. */
  function RegisterPipe(reg: PipeRegistry, name: Option<string>, funcName: Option<string>, built: Call<Pipe>)
    : (r: Result<PipeRegistry>)
    requires Registry.Valid(reg)
    ensures var key := PipeName(name, funcName);
      && (r.Ok? <==> built.Returned? && !Registry.Exists(reg, key))
      && (built.Raised? ==> r == Err(Thrown(built.message)))
      && (built.Returned? && Registry.Exists(reg, key) ==> r == Err(AlreadyRegistered(key)))
      && (r.Ok? ==> Registry.Valid(r.value))
      && (r.Ok? ==> Registry.Attribute(r.value, "Pipe", key) == Ok(built.value))
      && (r.Ok? ==> Registry.ListNames(r.value) == Registry.ListNames(reg) + [key])
      && (r.Ok? ==> forall n :: n != key ==> Registry.Get(r.value, n) == Registry.Get(reg, n))
  {
    var key := PipeName(name, funcName);
    match built
    case Raised(m) => Err(Thrown(m))
    case Returned(pipe) => Registry.Register(reg, key, pipe)
  }
}
