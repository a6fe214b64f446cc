/** `Worker` and `WorkerRegistry` (src/sweetshop/worker.py): a named,
    type-checked wrapper around a transformation function. */
module Workers {
  import opened Base
  import Registry

  /** An envelope: an instance of the data class named `cls` (a BaseData
      subclass) carrying an integer payload. `isinstance` is modelled as
      equality of class names. */
  datatype Value = Value(cls: string, value: int)

  /** Keyword arguments. */
  type Config = map<string, int>

  /** A wrapped Python function: positional and keyword arguments in, a
      returned object or a raised exception out. */
  type Fn = (seq<Value>, Config) -> Call<Value>

  /** What the caller passes as `data_type`. */
  datatype TypeArg =
    | NoType                                // None
    | NotAClass                             // an object that is not a class
    | Class(name: string, isData: bool)     // a class; `isData` iff it derives from BaseData

  datatype Worker = Worker(name: string, func: Fn, dataType: string)

  /** `name or getattr(func, "__name__", "unknown_worker")`: an empty name
      is falsy in Python and falls through to the function's name. */
  function WorkerName(name: Option<string>, funcName: Option<string>): (s: string)
    ensures name.Some? && name.value != "" ==> s == name.value
    ensures (name.None? || name.value == "") && funcName.Some? ==> s == funcName.value
    ensures (name.None? || name.value == "") && funcName.None? ==> s == "unknown_worker"
  {
    if name.Some? && name.value != "" then name.value
    else if funcName.Some? then funcName.value
    else "unknown_worker"
  }

  /** `Worker(func, name, data_type)`; `funcName` is `func.__name__` when the
      function has one. */
  function NewWorker(func: Fn, funcName: Option<string>, name: Option<string>, dataType: TypeArg)
    : (r: Result<Worker>)
    ensures r.Ok? <==> dataType.Class? && dataType.isData
    ensures dataType.NoType? ==> r.Err? && r.error == MissingDataType
    ensures dataType.NotAClass? ==> r.Err? && r.error == NotDataType
    ensures dataType.Class? && !dataType.isData ==> r.Err? && r.error == NotDataType
    ensures r.Ok? ==> r.value.dataType == dataType.name && r.value.func == func
    ensures r.Ok? ==> r.value.name == WorkerName(name, funcName)
  {
    match dataType
    case NoType => Err(MissingDataType)
    case NotAClass => Err(NotDataType)
    case Class(t, isData) =>
      if !isData then Err(NotDataType)
      else Ok(Worker(WorkerName(name, funcName), func, t))
  }

  /** The first positional argument is an instance of the worker's data type. */
  predicate AcceptsInput(w: Worker, args: seq<Value>) {
    |args| > 0 && args[0].cls == w.dataType
  }

  /** `type(args[0]).__name__ if args else 'None'` */
  function ArgClass(args: seq<Value>): string {
    if |args| > 0 then args[0].cls else "None"
  }

  /** `Worker.execute(*args, **kwargs)`: the first argument is checked before
      the function is called and the returned object after. */
  function Execute(w: Worker, args: seq<Value>, kwargs: Config): (r: Result<Value>)
    ensures !AcceptsInput(w, args) ==> r.Err? && r.error == BadArgument(w.dataType, ArgClass(args))
    ensures r.Ok? ==> r.value.cls == w.dataType
    ensures r.Ok? ==> AcceptsInput(w, args) && w.func(args, kwargs) == Returned(r.value)
    ensures AcceptsInput(w, args) && w.func(args, kwargs).Raised? ==>
      r.Err? && r.error == Thrown(w.func(args, kwargs).message)
    ensures (AcceptsInput(w, args) && w.func(args, kwargs).Returned?
             && w.func(args, kwargs).value.cls != w.dataType) ==>
      r.Err? && r.error == BadReturn(w.dataType, w.func(args, kwargs).value.cls)
  {
    if !AcceptsInput(w, args) then Err(BadArgument(w.dataType, ArgClass(args)))
    else
      match w.func(args, kwargs)
      case Raised(m) => Err(Thrown(m))
      case Returned(v) =>
        if v.cls != w.dataType then Err(BadReturn(w.dataType, v.cls)) else Ok(v)
  }

  /** The input check happens before the call: on a rejected input the
      outcome does not depend on the wrapped function at all. */
  lemma InputCheckedBeforeCall(w: Worker, other: Fn, args: seq<Value>, kwargs: Config)
    requires !AcceptsInput(w, args)
    ensures Execute(w, args, kwargs) == Execute(w.(func := other), args, kwargs)
  {
  }

  /** On an accepted input whose call returns an object of the data type,
      that object is passed back unchanged. */
  lemma {:induction false} ExecutePassesResultThrough(w: Worker, args: seq<Value>, kwargs: Config, v: Value)
    requires AcceptsInput(w, args)
    requires w.func(args, kwargs) == Returned(v) && v.cls == w.dataType
    ensures Execute(w, args, kwargs) == Ok(v)
  {
  }

  type WorkerRegistry = Registry.Registry<Worker>

  /** `@registry.register_worker(data_type, name)` applied to `func`: builds
      the worker, registers it under the worker's name and hands back the
      original function. */
  function RegisterWorker(reg: WorkerRegistry, dataType: TypeArg, name: Option<string>,
                          func: Fn, funcName: Option<string>)
    : (r: Result<(WorkerRegistry, Fn)>)
    requires Registry.Valid(reg)
    ensures r.Ok? <==>
      dataType.Class? && dataType.isData && !Registry.Exists(reg, WorkerName(name, funcName))
    ensures !(dataType.Class? && dataType.isData) ==> r == Err(NewWorker(func, funcName, name, dataType).error)
    ensures dataType.NoType? ==> r.Err? && ClassOf(r.error) == ValueError
    ensures !dataType.NoType? && !(dataType.Class? && dataType.isData) ==> r.Err? && ClassOf(r.error) == TypeError
    ensures dataType.Class? && dataType.isData && Registry.Exists(reg, WorkerName(name, funcName)) ==>
      r.Err? && r.error == AlreadyRegistered(WorkerName(name, funcName))
    ensures r.Ok? ==> r.value.1 == func && Registry.Valid(r.value.0)
    ensures r.Ok? ==> Registry.ListNames(r.value.0) == Registry.ListNames(reg) + [WorkerName(name, funcName)]
    ensures r.Ok? ==> forall n :: n != WorkerName(name, funcName) ==> Registry.Get(r.value.0, n) == Registry.Get(reg, n)
    ensures r.Ok? ==>
      var found := Registry.Attribute(r.value.0, "Worker", WorkerName(name, funcName));
      found.Ok? && found.value.name == WorkerName(name, funcName)
      && found.value.func == func && found.value.dataType == dataType.name
  {
    match NewWorker(func, funcName, name, dataType)
    case Err(e) => Err(e)
    case Ok(w) =>
      match Registry.Register(reg, w.name, w)
      case Err(e) => Err(e)
      case Ok(reg1) => Ok((reg1, func))
  }
}
