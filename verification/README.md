# sweetshop pipes in Dafny

A model of the core of *sweetshop*, a small Python library that chains
typed *workers* into *pipes*.

A **worker** wraps a function over one data class: a `BaseData` subclass.
It checks the class of its first argument and the class of its result.
A **node** binds a worker to a frozen keyword configuration. The fluent
**pipe** builder wires nodes into a graph:

- `start_with`, `then`;
- conditional arms with `branch`, `on` and `end_branch`;
- after a branch, a merge of every arm tip into the next node.

`Pipe.execute` walks that graph breadth-first. Each dequeued node runs
on the envelope it was queued with. Its successors whose condition holds
are queued with its result. A node that queues nothing leaves a final
result, and the first final result is returned.

Workers and pipes are kept in name-keyed **registries**. The model also
covers the repository's older design, `src/pipeline.py`:

- nodes read keyword inputs, resolving `node_<id>_result` references
  against a shared ordered context;
- each node writes its result back under its own key;
- a node's condition is checked against the context when it is dequeued.

Modules, in dependency order:

| file | module | models |
|---|---|---|
| `base.dfy` | `Base` | `Option`, `Result`, the raised errors and their Python exception classes, sequence helpers |
| `dicts.dfy` | `Dicts` | an insertion-ordered Python `dict` with string keys |
| `registry.dfy` | `Registry` | `BaseRegistry` |
| `worker.dfy` | `Workers` | `Worker`, `WorkerRegistry` |
| `graph.dfy` | `Graphs` | the node graph as an arena; `add_next`, fan-out, fan-in |
| `node.dfy` | `Nodes` | `Node`, `Worker.cfg` |
| `pipe.dfy` | `Pipes` | the `Pipe` builder, call sequences and branch/merge laws, `PipeRegistry` |
| `engine.dfy` | `Execution` | `Pipe.execute` and its path/chain theory |
| `resultref.dfy` | `ResultRefs` | the result-key pattern of `src/pipeline.py` |
| `pipeline.dfy` | `Pipelines` | `PipelineNode` and `Pipeline` |
| `scenarios.dfy` | `Scenarios` | the pipes of the unit tests and of `example.py`, built and run |

**Nodes and graphs.**
- Nodes live in a sequence. A node reference is its index, so Python's identity comparison of nodes becomes equality of indices.
- A vertex holds its payload, its ordered successors and its one condition.
- Every builder call is a pure function from the pipe to a new pipe, or to the error the source raises.
- Conditions, worker functions and `worker.run` are Dafny function values. Each returns a value or raises: the `Call` datatype.

**Fuel.** Neither execution loop is bounded in the source, so a cyclic graph never ends. Both take a `fuel` bound, one unit per dequeued node, and report `FuelExhausted` when it runs out. `Execution.MoreFuel` shows the bound never changes a walk that finished.

**Where the code is followed rather than the obvious reading:**
- `start_with` and `branch` check nothing. `branch()` with no current node is accepted, and leaves no branch open.
- `then` merges pending tips only when no branch is open and some tip is pending. Otherwise it links the current node.
- A raising condition is outside the `try` in `Pipe.execute`, so it escapes unwrapped (`Thrown`). A failing worker becomes a `RuntimeError` naming the node (`NodeFailed`).
- The `IndexError` of `final_results[0]` can never happen. The last dequeued node always leaves its result (`Execution.Run`).
- The decorator built by `register_pipe` returns `None`. The decorator built by `register_worker` returns the original function.
- The commented-out test at `tests/unit/test_pipe.py:110-123` expects 11. The code gives 6 (`Scenarios.OneArmSkipped`): when the only arm's condition is false, the branch point queues nothing and its own result is final. The merge node is never reached. The source marks this test as not yet fixed, so the model keeps the code's behaviour.

## Model

| member | source | states |
|---|---|---|
| Dicts.Put | src/pipeline.py:32 | assigning a key yields a well-formed dict in which that key maps to the new value and every other key is unchanged; a present key keeps its position, a new key goes last |
| Dicts.SizeIsKeyCount | src/sweetshop/registry.py:40-42 | the number of entries of a well-formed dict equals the length of its key list |
| Registry.New | src/sweetshop/registry.py:9-10 | a new registry is well-formed, has length 0 and lists no names |
| Registry.Contains | src/sweetshop/registry.py:36-38 | `name in registry` holds exactly when `exists(name)` does |
| Registry.Len | src/sweetshop/registry.py:40-42 | `len(registry)` is the number of names `list_names()` returns |
| Registry.ListNames | src/sweetshop/registry.py:28-30 | lists every registered name exactly once, and only registered names |
| Registry.Register | src/sweetshop/registry.py:12-16 | succeeds exactly when the name is free; on success `get` returns the object, the length grows by one, the name is listed last and every other lookup is unchanged; a taken name raises the duplicate error |
| Registry.Get | src/sweetshop/registry.py:18-22 | returns the stored object exactly when the name exists, and the not-found error otherwise |
| Registry.Attribute | src/sweetshop/worker.py:53-58 | when ordinary attribute lookup has failed, `__getattr__` succeeds exactly for a registered name, returning what `get` returns, and otherwise raises the AttributeError naming the registry's kind and the name; `PipeRegistry.__getattr__` at src/sweetshop/pipe.py:140-144 is the same lookup with the kind "Pipe" |
| Registry.Clear | src/sweetshop/registry.py:32-34 | after clearing, no name exists, the length is 0 and nothing is listed |
| Registry.RegisterAllLists | src/sweetshop/registry.py:12-30 | registering names one after another succeeds exactly when the already-listed names plus the new ones have no repetition, and then `list_names()` is the old listing followed by the new names in order |
| Workers.WorkerName | src/sweetshop/worker.py:20 | a non-empty given name wins; otherwise the function's `__name__`; otherwise "unknown_worker" |
| Workers.NewWorker | src/sweetshop/worker.py:12-22 | construction succeeds exactly for a class deriving from BaseData; a missing data type raises ValueError's error, a non-class or a non-BaseData class raises TypeError's error; the worker keeps the function, the class and the resolved name |
| Workers.Execute | src/sweetshop/worker.py:31-44 | a first argument of the wrong class, or no argument, is rejected before the function runs; a raised exception propagates; a result of the wrong class is rejected; any success carries the data class and is exactly what the function returned |
| Workers.InputCheckedBeforeCall | src/sweetshop/worker.py:33-37 | on a rejected input the outcome is the same whatever function the worker wraps |
| Workers.ExecutePassesResultThrough | src/sweetshop/worker.py:38-44 | on an accepted input, a returned object of the data class is passed back unchanged |
| Workers.RegisterWorker | src/sweetshop/worker.py:60-72 | the decorator succeeds exactly when the data type is a BaseData class and the resolved name is free; a bad data type raises exactly the error `Worker(...)` raises for it (ValueError when it is missing, TypeError otherwise) and registers nothing; a taken name raises the duplicate error; on success the worker is listed last, `__getattr__` finds it under its name with the same function and class, every other lookup is unchanged, and the original function is handed back |
| Graphs.AddNode | src/sweetshop/pipe.py:14-15 | a new node is appended with no successors and no condition, the existing nodes are untouched and no existing node refers to it |
| Graphs.AddNext | src/sweetshop/pipe.py:17-19 | `add_next` appends the target to the source's successors and replaces the target's condition (clearing it when none is given); nothing else changes and the graph stays closed |
| Graphs.LinkedThenLinked | src/sweetshop/pipe.py:50-51 | linking one source to a node and then the remaining sources is linking all the sources, each as often as it occurs |
| Graphs.LinkInto | src/sweetshop/pipe.py:50-51 | linking a list of sources into one node gives each source the target once per occurrence and clears the target's condition when there is a source |
| Graphs.Fork | src/pipeline.py:57-59 | a fan-out keeps every node's payload and keeps the graph closed |
| Graphs.ForkNext | src/pipeline.py:57-59 | a fan-out appends the targets, in order, to the source's successors |
| Graphs.ForkOthers | src/pipeline.py:57-59 | no node other than the source gains a successor in a fan-out |
| Graphs.ForkConditions | src/pipeline.py:57-59 | a fan-out clears the condition of every target and of no other node |
| Nodes.NewNode | src/sweetshop/pipe.py:11-15 | a node holds its worker and its configuration (the empty one when none is given), with no successors and no condition |
| Nodes.Cfg | src/sweetshop/worker.py:24-29 | `cfg(**kwargs)` yields a fresh node binding the worker to exactly those keyword arguments, which no existing node refers to |
| Nodes.RunNode | src/sweetshop/pipe.py:21-23 | running a node calls its worker with the envelope and the node's configuration: a success has the worker's class and is what the function returned; an envelope of another class is rejected |
| Pipes.NewPipe | src/sweetshop/pipe.py:30-36 | a new pipe has no start node, no current node, no open branch and no pending tips |
| Pipes.OpenTip | src/sweetshop/pipe.py:77-78 | the open arm tip exists exactly when there is a current node different from the branch point, and it is that node |
| Pipes.StartWith | src/sweetshop/pipe.py:38-41 | the node becomes both start and current; the graph and branch state are kept |
| Pipes.Then | src/sweetshop/pipe.py:43-58 | fails exactly when there is no current node; after a closed branch with pending tips it links every pending tip to the node and clears them, otherwise it links the current node; the node's condition is cleared and it becomes current |
| Pipes.Branch | src/sweetshop/pipe.py:60-64 | the current node becomes the branch point and no tip is pending; nothing else changes |
| Pipes.On | src/sweetshop/pipe.py:66-82 | fails without a current node, then without an open branch, with the source's two errors; otherwise the branch point gains the node as a successor under the condition, the previous arm's tip (if an arm was open) becomes pending and the node becomes current |
| Pipes.EndBranch | src/sweetshop/pipe.py:84-99 | fails without a current node, then without an open branch; otherwise the open arm's tip becomes pending, the branch closes and graph, current and start node are kept |
| Pipes.Apply | src/sweetshop/pipe.py:38-99 | any successful builder call keeps the pipe well-formed and the node count unchanged |
| Pipes.Build | src/sweetshop/pipe.py:38-99 | a fluent chain of builder calls, stopped by the first error, keeps the pipe well-formed and the node count unchanged |
| Pipes.BuildAppend | src/sweetshop/pipe.py:38-99 | running two call sequences in turn is running their concatenation, and an error in the first stops both |
| Pipes.ThenChain | src/sweetshop/pipe.py:53-57 | outside a pending merge, a run of `then` calls always succeeds, lays exactly the chain from the current node through the given nodes, ends on the last of them and leaves start and branch state alone |
| Pipes.OneArm | src/sweetshop/pipe.py:66-82 | inside an open branch, `on` followed by `then` calls adds exactly that arm's tip to the pending tips and keeps the branch open |
| Pipes.ArmsLeaveTips | src/sweetshop/pipe.py:66-82 | declaring several arms leaves every arm's tip pending, in declaration order, with the last arm's tip current |
| Pipes.BranchCollectsTips | src/sweetshop/pipe.py:60-99 | `branch`, any arms, `end_branch` closes the branch with exactly the arms' tips pending in order; with no arm nothing is pending and the branch point stays current |
| Pipes.MergeLinksEveryTip | src/sweetshop/pipe.py:48-52 | after a branch with at least one arm, the next `then` links the tip of every arm (and nothing else) to its node and leaves nothing pending |
| Pipes.ZeroArmBranch | src/sweetshop/pipe.py:60-99 | `branch().end_branch().then(n)` links the current node to `n` exactly as `then(n)` would |
| Pipes.PipeName | src/sweetshop/pipe.py:151 | a non-empty given name wins; otherwise the function's `__name__`; otherwise "unknown_pipe" |
| Pipes.RegisterPipe | src/sweetshop/pipe.py:146-156 | the decorator succeeds exactly when the decorated function returns a pipe and the resolved name is free; a raise from the function propagates and registers nothing; a taken name raises the duplicate error; on success `__getattr__` finds the pipe under that name, it is listed last and every other lookup is unchanged |
| Execution.Admit | src/sweetshop/pipe.py:121-124 | the successor loop takes at most as many nodes as there are successors, all in the graph, or fails only with a condition's raised exception |
| Execution.AdmitFilters | src/sweetshop/pipe.py:121-124 | the taken successors keep the order of `next_nodes`, and each is taken exactly as often as it occurs when its condition holds, never otherwise |
| Execution.AdmitRaises | src/sweetshop/pipe.py:121-122 | the successor loop fails exactly when some condition raises, and then with the exception of the first one that does |
| Execution.Visit | src/sweetshop/pipe.py:111-124 | a dequeued node's worker failure is reported as that node's failure; a raising condition escapes as is; otherwise the node's result and the successors its conditions admit |
| Execution.Step | src/sweetshop/pipe.py:110-128 | one iteration dequeues the head, records it as run, queues each taken successor with the result and records the result as final exactly when nothing was taken |
| Execution.TraverseUnfold | src/sweetshop/pipe.py:110-128 | an empty queue ends the loop; otherwise a failed iteration aborts and a successful one continues from the walk it leaves |
| Execution.TraverseShape | src/sweetshop/pipe.py:110-131 | the run nodes and final results only grow, at most one node per iteration; a drained loop that ran anything has a final result; an abort is a node failure naming the last run node, or a raising condition |
| Execution.Run | src/sweetshop/pipe.py:101-131 | `execute` fails with "no start node" exactly when none is set, and never with an empty final-result list |
| Execution.MoreFuel | src/sweetshop/pipe.py:110-128 | a walk that finished within some bound finishes identically with any larger bound |
| Execution.ThreadedHead | src/sweetshop/pipe.py:110-128 | at the head of a path, one iteration fails with the head's failure, or ends the walk with its result, or queues exactly the path's next node with it |
| Execution.TraversePath | src/sweetshop/pipe.py:110-128 | with enough fuel, the breadth-first walk along a path is the node-by-node walk of that path |
| Execution.PathWalkComposes | src/sweetshop/pipe.py:110-131 | the node-by-node walk returns the composition of the path's workers, or the first node failure |
| Execution.PathWalkVisits | src/sweetshop/pipe.py:110-128 | when no worker on the path fails, the node-by-node walk runs exactly the path's nodes |
| Execution.TraverseThreaded | src/sweetshop/pipe.py:101-131 | along its path, the breadth-first walk returns the composition of the path's workers |
| Execution.ThreadedVisits | src/sweetshop/pipe.py:110-128 | along its path, when no worker fails, the walk runs exactly the path's nodes and no other |
| Execution.ThreadedCons | src/sweetshop/pipe.py:121-124 | a node that hands its result to exactly the head of a path extends that path |
| Execution.ThreadedLast | src/sweetshop/pipe.py:126-128 | a node whose result no successor takes is a path on its own |
| Execution.ComposeCons | src/sweetshop/pipe.py:111-115 | composing past a node that succeeds continues from its result |
| Execution.Ran | src/sweetshop/pipe.py:110-111 | the nodes `execute` runs number at most the fuel, and none when there is no start node |
| Execution.RanThreaded | src/sweetshop/pipe.py:101-128 | when the start node heads a path and no worker on it fails, `execute` runs exactly the path's nodes, in order |
| Execution.RunThreaded | src/sweetshop/pipe.py:101-131 | when the start node heads a path, `execute` returns the composition of the path's workers |
| Execution.ChainThreaded | src/sweetshop/pipe.py:121-124 | a chain of unconditioned single links is the path of every walk along it |
| Execution.TraverseChain | src/sweetshop/pipe.py:101-131 | on a chain the breadth-first walk returns the composition of the chain's workers |
| Execution.ComposeSamePayload | src/sweetshop/pipe.py:21-23 | composing workers depends only on the nodes' workers and configurations, not on links or conditions |
| Execution.ChainSuccOutside | src/sweetshop/pipe.py:53-57 | a run of `then` calls adds no successor to a node outside the chain |
| Execution.ChainSuccDistinct | src/sweetshop/pipe.py:53-57 | along a chain of distinct nodes, each node gains exactly the next one as successor and the last gains none |
| Execution.LaidChainIsChain | src/sweetshop/pipe.py:53-57 | laying a chain through fresh, distinct nodes makes them a chain |
| Execution.LinearPipeIsChain | src/sweetshop/pipe.py:38-58 | `start_with` and a run of `then` calls over fresh, distinct nodes succeed, start at the first node, lay exactly the chain through them and change no worker or configuration |
| Execution.LinearPipeRuns | src/sweetshop/pipe.py:101-131 | such a linear pipe executes its workers in order, each on the previous result, returning the last one's result or the first failure |
| ResultRefs.ResultKey | src/pipeline.py:32 | a node's result key is the prefix `node_`, the id and the suffix `_result`, and the id can be read back from it |
| ResultRefs.ResultKeyIsRef | src/pipeline.py:24-32 | a node's own result key matches the reference pattern exactly when its id is a non-empty run of word characters and hyphens |
| ResultRefs.ResultKeyInjective | src/pipeline.py:32 | different node ids give different result keys |
| ResultRefs.PatternAccepts | src/pipeline.py:24 | the pattern accepts ordinary result keys, hyphens and underscores in the id, and one trailing newline |
| ResultRefs.PatternRejects | src/pipeline.py:24 | the pattern rejects an empty id, a space in the id, a leading character before `node_` and two trailing newlines |
| Pipelines.NewStep | src/pipeline.py:9-15 | a new pipeline node holds its id, worker and inputs (the empty dict when none are given), has empty outputs, no successors and no condition |
| Pipelines.NewPipeline | src/pipeline.py:40-43 | an empty or missing name becomes "Pipeline", otherwise it is kept; no start nodes |
| Pipelines.SetStart | src/pipeline.py:45-47 | a start node already present is not added again; a new one goes last; the start nodes stay distinct |
| Pipelines.SetStartIdempotent | src/pipeline.py:45-47 | setting the same start node twice is setting it once |
| Pipelines.Connect | src/pipeline.py:49-55 | `connect` appends the target to the source's successors and sets the target's condition, nothing else |
| Pipelines.ForkTo | src/pipeline.py:57-59 | `fork` appends the targets in order to the source only and clears exactly the targets' conditions |
| Pipelines.MergeInto | src/pipeline.py:61-63 | `merge` gives every source the target as a successor, once per occurrence, and clears the target's condition when there is a source |
| Pipelines.ResolveFirst | src/pipeline.py:22-27 | the input loop, after any number of iterations, has the same keys in the same order, each value resolved |
| Pipelines.ResolveInputs | src/pipeline.py:22-27 | the keyword arguments have exactly the input keys in order, a matching reference replaced by its context value when present and every other value passed literally |
| Pipelines.RunStep | src/pipeline.py:21-33 | a node fails exactly when its worker raises; otherwise the context gains the result under the node's own key and no other key changes |
| Pipelines.OutputsOf | src/pipeline.py:31 | a node's outputs after running hold exactly the key "result" with its result |
| Pipelines.Fire | src/pipeline.py:76-79 | a node that runs queues every successor, in order and regardless of their conditions, and is recorded as run |
| Pipelines.Tick | src/pipeline.py:71-79 | a dequeued node whose condition is false is skipped and queues nothing; a raising condition escapes; otherwise the node runs |
| Pipelines.RanKeysSnoc | src/pipeline.py:32 | one more node run adds exactly its result key to the keys of the nodes that ran |
| Pipelines.FireKeepsKeys | src/pipeline.py:76 | running a node adds exactly its own key to the context's key set |
| Pipelines.TickKeepsKeys | src/pipeline.py:70-79 | each iteration keeps the context's keys equal to those of the nodes that ran |
| Pipelines.FireKeepsResults | src/pipeline.py:31-32 | with distinct node ids, running a node records its result under its node, equal to the value the context holds under its key, and leaves every other node's recorded result and context entry as they were |
| Pipelines.TickKeepsResults | src/pipeline.py:70-79 | with distinct node ids, each iteration keeps a result recorded exactly for the nodes that ran, each equal to the context's value under that node's key |
| Pipelines.Drain | src/pipeline.py:70-79 | the loop ends with an empty queue, having only added to the run and skipped nodes, or fails with a raised exception or exhausted fuel; it keeps the context's keys equal to those of the nodes that ran, and (with distinct ids) a result recorded exactly for the nodes that ran, equal to the context's value under the node's key |
| Pipelines.OutputsAfter | src/pipeline.py:31 | a node's outputs after a run hold exactly "result" with its last result if it ran, and are unchanged otherwise |
| Pipelines.Execute | src/pipeline.py:65-81 | with no start node the result is the empty context; failures are only raised exceptions or exhausted fuel; the context is a well-formed ordered dict |
| Pipelines.ExecuteKeys | src/pipeline.py:65-81 | after a run the context has a key exactly for each node that ran |
| Pipelines.ExecuteOutputs | src/pipeline.py:31-32 | after a run, with distinct node ids, a node has an `outputs["result"]` exactly when it ran, and it is then the value the returned context holds under the node's key; a node that did not run keeps its outputs |
| Scenarios.CfgUnlinked | src/sweetshop/worker.py:24-29 | each `cfg` call appends one fresh node, unlinked and unguarded, at the next index |
| Scenarios.RunsAddOne | tests/common/digital_data.py:23-25 | a node of `add_one` maps an envelope with value x to one with x + 1 |
| Scenarios.RunsMultiplyByTwo | tests/common/digital_data.py:33-35 | a node of `multiply_by_two` maps x to 2x |
| Scenarios.RunsAddValue | tests/common/digital_data.py:28-30 | a node of `add_value` configured with `value=k` maps x to x + k |
| Scenarios.RunsFailing | tests/unit/test_pipe.py:84-86 | a node of the zero-parameter `failing_func` raises when called with the envelope |
| Scenarios.TraverseVisit | src/sweetshop/pipe.py:110-128 | once a dequeued node's result and taken successors are known, the loop continues from the walk that queues those successors with the result and records the result as final when none was taken |
| Scenarios.AdmitOne | src/sweetshop/pipe.py:121-124 | a single successor is taken exactly when its condition holds |
| Scenarios.AdmitTwo | src/sweetshop/pipe.py:121-124 | of two successors, each is taken exactly when its condition holds, in order |
| Scenarios.PairBuilt | tests/unit/test_pipe.py:45-55 | `start_with(a).then(b)` links a to b and nothing else |
| Scenarios.ZeroArmBuilt | tests/unit/test_pipe.py:125-134 | `start_with(a).branch().end_branch().then(b)` lays the same graph as `start_with(a).then(b)` |
| Scenarios.PairWalk | src/sweetshop/pipe.py:101-131 | executing two linked nodes returns the second node's result on the first one's |
| Scenarios.PairWalkFails | src/sweetshop/pipe.py:114-117 | when the second of two linked nodes fails, executing reports that node's failure |
| Scenarios.SimpleRuns | tests/unit/test_pipe.py:64-72 | the simple pipe executed on 5 returns 11 |
| Scenarios.ZeroArmRuns | tests/unit/test_pipe.py:125-137 | the pipe with an empty branch executed on 5 returns 12 |
| Scenarios.FailureRaises | tests/unit/test_pipe.py:81-94 | the pipe ending in `failing_func` executed on 5 fails with the failure of that node |
| Scenarios.OneArmPipe | tests/unit/test_pipe.py:96-105 | the one-arm builder chain keeps the pipe well-formed |
| Scenarios.OneArmOpened | tests/unit/test_pipe.py:99-102 | after `on`, the arm hangs off the branch point under its condition and becomes current |
| Scenarios.OneArmMerged | tests/unit/test_pipe.py:103-104 | after `end_branch().then(...)`, the arm's tip is linked to the last node and nothing is pending |
| Scenarios.OneArmBuilt | tests/unit/test_pipe.py:96-105 | the one-arm calls lay exactly the edges 0 to 1 (guarded) and 1 to 2 |
| Scenarios.OneArmTakenWalk | src/sweetshop/pipe.py:101-131 | when the arm's condition holds, executing on 5 runs all three nodes and returns 17 |
| Scenarios.OneArmRuns | tests/unit/test_pipe.py:96-108 | the pipe of the branch test executed on 5 returns 17 |
| Scenarios.OneArmSkippedWalk | src/sweetshop/pipe.py:119-131 | when the only arm's condition fails, only the first node runs and its result 6 is returned |
| Scenarios.OneArmSkipped | tests/unit/test_pipe.py:110-123 | the pipe of the commented-out test returns 6 on 5, not the 11 it expects |
| Scenarios.TwoArmPipe | tests/unit/test_pipe.py:139-150 | the two-arm builder chain keeps the pipe well-formed |
| Scenarios.TwoArmFirst | tests/unit/test_pipe.py:144-146 | after the first `on`, the first arm hangs off the branch point under its condition |
| Scenarios.TwoArmSecond | tests/unit/test_pipe.py:147 | after the second `on`, the first arm's tip is pending and the second arm hangs off the branch point |
| Scenarios.TwoArmMerged | tests/unit/test_pipe.py:148-149 | `end_branch` leaves both tips pending and `then` links both to the last node |
| Scenarios.TwoArmBuilt | tests/unit/test_pipe.py:139-150 | the two-arm calls lay exactly two guarded arms off the first node, both merged into the last |
| Scenarios.TwoArmWalk | src/sweetshop/pipe.py:101-131 | only the arm whose condition holds runs: nodes 0, 1, 3 in order, returning 32 |
| Scenarios.TwoArmRuns | tests/unit/test_pipe.py:139-153 | the pipe of the multiple-conditions test executed on 5 returns 32 |
| Scenarios.OpenArmsPipe | src/sweetshop/pipe.py:60-99 | `start_with(a).branch().on(c1, b).on(c2, c).end_branch()` keeps the pipe well-formed |
| Scenarios.OpenArmsFirst | src/sweetshop/pipe.py:66-82 | after the first `on`, the first arm hangs off the branch point under its condition |
| Scenarios.OpenArmsEnded | src/sweetshop/pipe.py:66-99 | after the second `on` and `end_branch`, both arms hang off the branch point under their conditions, both tips are pending and nothing follows either arm |
| Scenarios.OpenArmsBuilt | src/sweetshop/pipe.py:60-99 | the open-arms calls lay exactly two guarded arms off the first node and no other edge |
| Scenarios.OpenArmsVisits | src/sweetshop/pipe.py:111-124 | `add_one` on 5 gives 6 and takes both arms; `multiply_by_two` on 6 gives 12 and `add_value(value=10)` on 6 gives 16, each taking nothing |
| Scenarios.OpenArmsLastArm | src/sweetshop/pipe.py:110-128 | with only the second arm queued, the walk runs it, records 16 after 12 as final and drains |
| Scenarios.OpenArmsBothArms | src/sweetshop/pipe.py:110-128 | with both arms queued, the walk runs the first arm, then the second, recording 12 and then 16 as final |
| Scenarios.OpenArmsTraverse | src/sweetshop/pipe.py:107-128 | the walk from the start node on 5 runs nodes 0, 1, 2 in that order and collects the final results 12 and 16 in that order |
| Scenarios.OpenArmsWalk | src/sweetshop/pipe.py:101-131 | when both arms are taken, both results are final and `execute` returns the first one collected, 12 |
| Scenarios.OpenArmsRuns | src/sweetshop/pipe.py:127-131 | the pipe with two open arms under `d.value > 0`, executed on 5, runs every node and returns 12, the first arm's result |
| Scenarios.ExamplePipe | example.py:41-53 | the example's builder chain keeps the pipe well-formed |
| Scenarios.ExampleBranch | example.py:47-52 | the example's branch calls keep the pipe well-formed |
| Scenarios.ExampleFirstStep | example.py:44-45 | `start_with(add_(b=5)).then(multiply_(b=2))` links node 0 to node 1 |
| Scenarios.ExampleSecondStep | example.py:46 | `then(divide_(b=3))` links node 1 to node 2 |
| Scenarios.ExampleFirstOn | example.py:47-48 | the first arm hangs off node 2 under `value > 5` |
| Scenarios.ExampleArmStep | example.py:49 | a `then` inside the arm extends it from node 3 to node 4 |
| Scenarios.ExampleSecondOn | example.py:50 | the second `on` makes node 4 pending and hangs node 5 off node 2 under `value < 5` |
| Scenarios.ExampleEndBranch | example.py:51 | `end_branch` leaves the tips 4 and 5 pending |
| Scenarios.ExampleMerge | example.py:52 | the final `then` links both tips to node 6 |
| Scenarios.ExampleBuilt | example.py:41-55 | `create_pipeline` lays exactly the example's seven-node graph |
| Scenarios.RunsAdd | example.py:14-16 | `add_` configured with `b` adds b |
| Scenarios.RunsMultiply | example.py:19-21 | `multiply_` configured with `b` multiplies by b |
| Scenarios.RunsDivide | example.py:24-28 | `divide_` with a non-zero `b` divides by b |
| Scenarios.DivideByZero | example.py:26-27 | `divide_` with `b=0` raises "Cannot divide by zero" |
| Scenarios.RunsMathAddOne | example.py:31-33 | `add_one` adds one |
| Scenarios.RunsReduceOne | example.py:36-38 | `reduce_one` subtracts one |
| Scenarios.ExampleArmTail | example.py:48-52 | from the first arm's head on 10, the path through the arm to the merge node gives 21 |
| Scenarios.ExampleArmPath | example.py:46-52 | from the branch point on 30, only the first arm is taken and the path gives 21 |
| Scenarios.ExampleWalk | example.py:58-62 | executing the example's graph on 10 runs nodes 0, 1, 2, 3, 4, 6 in order and returns 21 |
| Scenarios.ExampleRuns | example.py:58-62 | the pipe `create_pipeline` builds, executed on `MathData(10)`, returns `MathData(21)` |

## Left out

- Floating point: envelope values, `add_value`'s amount and configuration values are integers. `divide_` is integer division; the example only divides exactly.
- Exception messages and `__repr__` text: errors are constructors of `Base.Error`, mapped to their Python exception classes by `Base.ClassOf`. Only the messages a scenario compares are written out.
- Python's call-time `TypeError` for a wrong argument shape is approximated by each scenario worker raising its own message.
- `isinstance` is equality of class names; data classes have no subclasses.
- Truthiness: conditions return a boolean or raise. A condition returning any other object is not modelled.
- The global `worker_registry` and `pipe_registry` singletons: registries are values passed explicitly.
- Attribute access is an explicit lookup function, `Registry.Attribute`, modelling `__getattr__` only. Python calls `__getattr__` only when ordinary attribute lookup fails, so a name the registry object already has never reaches it: `get`, `register`, `exists`, `list_names`, `clear`, `register_worker` or `register_pipe`, `_registry`, and the dunder names. Attribute access with such a name returns the method or attribute, even when an object is registered under that name; the model does not represent those names.
- `uuid4()` ids are parameters supplied by the caller.
- `worker.run` of `src/pipeline.py` is a function parameter, because `src/worker.py`, `src/worker/abc.py` and `src/worker/decorators.py` are not part of this model.
- The mutable default `inputs={}` of `PipelineNode` is shared between nodes in Python. Nodes never change their inputs, so sharing is unobservable and each node gets an empty dict.
- `PipelineNode.outputs` is not updated in the graph. `Pipelines.Execute` returns the last result of each node that ran, `Pipelines.OutputsAfter` says what the outputs become, and `Pipelines.ExecuteOutputs` ties them to the context.
- Pipelines.ExecuteOutputs: assumes the node ids are pairwise distinct (`DistinctIds`). uuid4 ids are distinct in practice but not by construction, and with a repeated id two nodes share one context key.
- Pipes.RegisterPipe: does not model the closure's `nonlocal name` rebinding (src/sweetshop/pipe.py:150-151). The resolved name is stored in the decorator object, so applying one `register_pipe()` decorator object to a second function registers that function under the first function's name (and so raises the duplicate error). Each call of `RegisterPipe` is one fresh decorator object.
- `example.py` passes `name=` to `Pipe`, which `Pipe.__init__` does not accept. The model builds the same pipe without it.
- `\w` in the result-key pattern is the ASCII word class; Python's Unicode word characters are not modelled.
- The unbounded `while queue` loops take a `fuel` bound; cyclic graphs end in `FuelExhausted` instead of running forever.
- Execution.Run: states the start-node error and that the final-result list is never empty; what a run returns is stated by the path and chain lemmas (`RunThreaded`, `LinearPipeRuns`) for the graphs they cover, not for arbitrary graphs with several final results.
- Pipelines.Execute: states the error kinds and the empty case. The context's keys are stated by `ExecuteKeys`, and each node's outputs and key by `ExecuteOutputs`. What each node computes from the context it saw is stated one node at a time by `RunStep`, not for the run as a whole.
