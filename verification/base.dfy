/** Shared vocabulary: optional values, the outcome of calling caller-supplied
    code (which may raise), and the errors the library raises. */
module Base {

  datatype Option<+T> = None | Some(value: T)

  /** The outcome of calling a function the library does not own (a worker
      function or a condition): it either returns a value or raises. */
  datatype Call<+V> = Returned(value: V) | Raised(message: string)

  /** Every exception the modelled code raises, one constructor per message. */
  datatype Error =
    // BaseRegistry.register: "<type> '<name>' already registered" (KeyError)
    | AlreadyRegistered(name: string)
    // BaseRegistry.get: "'<name>' not found in registry" (KeyError)
    | NotRegistered(name: string)
    // WorkerRegistry / PipeRegistry attribute lookup:
    // "<kind> '<name>' not found in registry" (AttributeError)
    | NoSuchAttribute(kind: string, name: string)
    // Worker(...) without a data type (ValueError)
    | MissingDataType
    // Worker(...) with a data type that is not a BaseData subclass (TypeError)
    | NotDataType
    // Worker.execute: "Expected first argument of type <t>, got <g>" (TypeError)
    | BadArgument(expected: string, got: string)
    // Worker.execute: "Expected return value of type <t>, got <g>" (TypeError)
    | BadReturn(expected: string, got: string)
    // an exception raised by a worker function or a condition, unchanged
    | Thrown(message: string)
    // Pipe builder: "No current node to connect to" (ValueError)
    | NoCurrentNode
    // Pipe.on: "Must call branch() before on()" (ValueError)
    | BranchNotStarted
    // Pipe.end_branch: "No active branch to end" (ValueError)
    | NoActiveBranch
    // Pipe.execute: "Pipe has no start node" (ValueError)
    | NoStartNode
    // Pipe.execute: "Node <node> execution failed: <cause>" (RuntimeError)
    | NodeFailed(node: nat, cause: Error)
    // Pipe.execute: final_results[0] on an empty list (IndexError)
    | NoFinalResult
    // the traversal did not finish within the given number of steps
    | FuelExhausted

  datatype Result<+T> = Ok(value: T) | Err(error: Error)

  /** The Python exception class each error is raised as. */
  datatype ExceptionClass =
    KeyError | AttributeError | ValueError | TypeError | RuntimeError | IndexError | Exception

  function ClassOf(e: Error): ExceptionClass {
    match e
    case AlreadyRegistered(_) => KeyError
    case NotRegistered(_) => KeyError
    case NoSuchAttribute(_, _) => AttributeError
    case MissingDataType => ValueError
    case NotDataType => TypeError
    case BadArgument(_, _) => TypeError
    case BadReturn(_, _) => TypeError
    case Thrown(_) => Exception
    case NoCurrentNode => ValueError
    case BranchNotStarted => ValueError
    case NoActiveBranch => ValueError
    case NoStartNode => ValueError
    case NodeFailed(_, _) => RuntimeError
    case NoFinalResult => IndexError
    case FuelExhausted => Exception
  }

  /** The number of occurrences of `x` in `s`. */
  function Count<T(==)>(s: seq<T>, x: T): nat {
    if s == [] then 0 else (if s[0] == x then 1 else 0) + Count(s[1..], x)
  }

  /** `k` copies of `x`. */
  function Repeat<T>(x: T, k: nat): (r: seq<T>)
    ensures |r| == k
    ensures forall i :: 0 <= i < k ==> r[i] == x
  {
    seq(k, _ => x)
  }

  predicate Distinct<T(==)>(s: seq<T>) {
    forall i, j :: 0 <= i < j < |s| ==> s[i] != s[j]
  }

  /** `a` is `b` with some elements left out, the rest in their order. */
  predicate Subsequence<T(==)>(a: seq<T>, b: seq<T>)
    decreases |b|
  {
    if a == [] then true
    else if b == [] then false
    else (a[0] == b[0] && Subsequence(a[1..], b[1..])) || Subsequence(a, b[1..])
  }

  /** A non-empty sequence is its head followed by its tail. */
  lemma HeadTail<T>(s: seq<T>)
    requires s != []
    ensures [s[0]] + s[1..] == s
  { }

  /** Appending the head of `s` and then its tail is appending `s`. */
  lemma AppendHeadTail<T>(a: seq<T>, s: seq<T>)
    requires s != []
    ensures (a + [s[0]]) + s[1..] == a + s
  {
    assert [s[0]] + s[1..] == s;
  }

  /** A prefix one longer is the shorter prefix and the next element. */
  lemma TakeSnoc<T>(s: seq<T>, n: nat)
    requires 0 < n <= |s|
    ensures s[..n] == s[..n - 1] + [s[n - 1]]
  {
  }
}
