/** The object graph both pipeline designs build: nodes live in an arena and
    are referred to by their position, so two references denote the same
    node exactly when their ids are equal (Python's identity comparison).
    A vertex holds its own data, its ordered successors and the single
    condition attached to it by the last `add_next` that targeted it. */
module Graphs {
  import opened Base

  type NodeId = nat

  datatype Vertex<P, C> = Vertex(payload: P, next: seq<NodeId>, condition: Option<C>)

  type Graph<P, C> = seq<Vertex<P, C>>

  /** Every successor reference points into the arena. */
  predicate Closed<P, C>(g: Graph<P, C>) {
    forall n, k :: 0 <= n < |g| && 0 <= k < |g[n].next| ==> g[n].next[k] < |g|
  }

  predicate AllIn<P, C>(g: Graph<P, C>, ns: seq<NodeId>) {
    forall i :: 0 <= i < |ns| ==> ns[i] < |g|
  }

  lemma AllInAppend<P, C>(g: Graph<P, C>, a: seq<NodeId>, b: seq<NodeId>)
    requires AllIn(g, a) && AllIn(g, b)
    ensures AllIn(g, a + b)
  {
    forall i | 0 <= i < |a + b| ensures (a + b)[i] < |g| {
      if i >= |a| { assert (a + b)[i] == b[i - |a|]; }
    }
  }

  /** `r` is `g` with `to` appended to the successors of each of `sources`
      (once per occurrence) and, when there is at least one source, with the
      condition of `to` replaced by `cond`; nothing else differs. */
  ghost predicate Linked<P, C>(g: Graph<P, C>, r: Graph<P, C>, sources: seq<NodeId>, to: NodeId, cond: Option<C>) {
    && |r| == |g|
    && to < |g|
    && (forall m :: 0 <= m < |g| ==> r[m].payload == g[m].payload)
    && (forall m :: 0 <= m < |g| ==> r[m].next == g[m].next + Repeat(to, Count(sources, m)))
    && (forall m :: 0 <= m < |g| && m != to ==> r[m].condition == g[m].condition)
    && r[to].condition == (if sources == [] then g[to].condition else cond)
  }

  /** Allocating a node: it starts with no successors and no condition, and
      it is fresh — no existing node refers to it. */
  function AddNode<P, C>(g: Graph<P, C>, payload: P): (r: (Graph<P, C>, NodeId))
    ensures r.1 == |g| && |r.0| == |g| + 1 && r.0[..|g|] == g
    ensures r.0[r.1].payload == payload && r.0[r.1].next == [] && r.0[r.1].condition.None?
    ensures Closed(g) ==> Closed(r.0)
    ensures Closed(g) ==> forall n, k :: 0 <= n < |g| && 0 <= k < |g[n].next| ==> r.0[n].next[k] != r.1
  {
    (g + [Vertex(payload, [], None)], |g|)
  }

  /** `from.add_next(to, cond)`: appends `to` to the successors of `from` and
      overwrites the condition of `to` (clearing it when `cond` is None). */
  function AddNext<P, C>(g: Graph<P, C>, from: NodeId, to: NodeId, cond: Option<C>): (r: Graph<P, C>)
    requires from < |g| && to < |g|
    ensures Linked(g, r, [from], to, cond)
    ensures r[from].next == g[from].next + [to]
    ensures Closed(g) ==> Closed(r)
  {
    var g1 := g[from := g[from].(next := g[from].next + [to])];
    var r := g1[to := g1[to].(condition := cond)];
    assert Count([from], from) == 1;
    assert forall m :: m != from ==> Count([from], m) == 0;
    r
  }

  lemma RepeatAdd<T>(x: T, a: nat, b: nat)
    ensures Repeat(x, a) + Repeat(x, b) == Repeat(x, a + b)
  {
  }

  /** Linking one source and then the rest is linking all of them. */
  lemma {:induction false} LinkedThenLinked<P, C>(g: Graph<P, C>, g1: Graph<P, C>, r: Graph<P, C>,
                                                 first: NodeId, rest: seq<NodeId>, to: NodeId)
    requires Linked(g, g1, [first], to, None)
    requires Linked(g1, r, rest, to, None)
    ensures Linked(g, r, [first] + rest, to, None)
  {
    var sources := [first] + rest;
    assert sources[1..] == rest;
    forall m | 0 <= m < |g|
      ensures r[m].next == g[m].next + Repeat(to, Count(sources, m))
    {
      assert [first][1..] == [];
      assert Count(sources, m) == Count([first], m) + Count(rest, m);
      RepeatAdd(to, Count([first], m), Count(rest, m));
      assert g1[m].next == g[m].next + Repeat(to, Count([first], m));
      assert r[m].next == g1[m].next + Repeat(to, Count(rest, m));
    }
  }

  /** `for s in sources: s.add_next(to)` — a merge of several nodes into one. */
  function LinkInto<P, C>(g: Graph<P, C>, sources: seq<NodeId>, to: NodeId): (r: Graph<P, C>)
    requires AllIn(g, sources) && to < |g|
    ensures Linked(g, r, sources, to, None)
    ensures Closed(g) ==> Closed(r)
    decreases |sources|
  {
    if sources == [] then
      assert forall m :: Count(sources, m) == 0;
      g
    else
      var g1 := AddNext(g, sources[0], to, None);
      var r := LinkInto(g1, sources[1..], to);
      LinkedThenLinked(g, g1, r, sources[0], sources[1..], to);
      assert [sources[0]] + sources[1..] == sources;
      r
  }

  /** `for t in targets: from.add_next(t)` — a fan-out from one node. */
  function Fork<P, C>(g: Graph<P, C>, from: NodeId, targets: seq<NodeId>): (r: Graph<P, C>)
    requires from < |g| && AllIn(g, targets)
    ensures |r| == |g|
    ensures forall m :: 0 <= m < |g| ==> r[m].payload == g[m].payload
    ensures Closed(g) ==> Closed(r)
    decreases |targets|
  {
    if targets == [] then g
    else Fork(AddNext(g, from, targets[0], None), from, targets[1..])
  }

  /** The fan-out appends the targets, in order, to the successors of
      `from`. */
  lemma {:induction false} ForkNext<P, C>(g: Graph<P, C>, from: NodeId, targets: seq<NodeId>)
    requires from < |g| && AllIn(g, targets)
    ensures Fork(g, from, targets)[from].next == g[from].next + targets
    decreases |targets|
  {
    if targets != [] {
      var t, rest := targets[0], targets[1..];
      var g1 := AddNext(g, from, t, None);
      assert AllIn(g1, rest);
      ForkNext(g1, from, rest);
      AppendHeadTail(g[from].next, targets);
    }
  }

  /** No other node gains a successor. */
  lemma {:induction false} ForkOthers<P, C>(g: Graph<P, C>, from: NodeId, targets: seq<NodeId>)
    requires from < |g| && AllIn(g, targets)
    ensures forall m :: 0 <= m < |g| && m != from ==> Fork(g, from, targets)[m].next == g[m].next
    decreases |targets|
  {
    if targets != [] {
      var g1 := AddNext(g, from, targets[0], None);
      assert AllIn(g1, targets[1..]);
      ForkOthers(g1, from, targets[1..]);
      forall m | 0 <= m < |g| && m != from
        ensures g1[m].next == g[m].next
      {
        assert Count([from], m) == 0;
      }
    }
  }

  /** The fan-out clears the condition of every target and of no other
      node. */
  lemma {:induction false} ForkConditions<P, C>(g: Graph<P, C>, from: NodeId, targets: seq<NodeId>)
    requires from < |g| && AllIn(g, targets)
    ensures var r := Fork(g, from, targets);
      && (forall m :: 0 <= m < |g| && m in targets ==> r[m].condition.None?)
      && (forall m :: 0 <= m < |g| && m !in targets ==> r[m].condition == g[m].condition)
    decreases |targets|
  {
    if targets != [] {
      var t, rest := targets[0], targets[1..];
      var g1 := AddNext(g, from, t, None);
      assert AllIn(g1, rest);
      ForkConditions(g1, from, rest);
      assert targets == [t] + rest;
      assert g1[t].condition.None?;
      assert forall m :: 0 <= m < |g| && m != t ==> g1[m].condition == g[m].condition;
    }
  }
}
