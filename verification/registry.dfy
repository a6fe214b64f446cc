/** `BaseRegistry` (src/sweetshop/registry.py): a name-keyed store that
    rejects duplicate names. Registration order is kept, as in the Python
    dict backing it. */
module Registry {
  import opened Base
  import opened Dicts

  datatype Registry<T> = Registry(store: Dict<T>)

  ghost predicate Valid<T>(r: Registry<T>) {
    Dicts.Valid(r.store)
  }

  /** `BaseRegistry()` */
  function New<T>(): (r: Registry<T>)
    ensures Valid(r)
    ensures Len(r) == 0
    ensures ListNames(r) == []
  {
    Registry(Empty())
  }

  /** `exists(name)` */
  function Exists<T>(r: Registry<T>, name: string): bool {
    name in r.store.entries
  }

  /** `name in registry` agrees with `exists(name)`. */
  function Contains<T>(r: Registry<T>, name: string): (b: bool)
    ensures b <==> Exists(r, name)
  {
    Exists(r, name)
  }

  /** `len(registry)` */
  function Len<T>(r: Registry<T>): (n: nat)
    requires Valid(r)
    ensures n == |ListNames(r)|
  {
    SizeIsKeyCount(r.store);
    Size(r.store)
  }

  /** `list_names()`: every registered name once, in registration order. */
  function ListNames<T>(r: Registry<T>): (names: seq<string>)
    requires Valid(r)
    ensures Distinct(names)
    ensures forall n :: n in names <==> Exists(r, n)
  {
    r.store.keys
  }

  /** `register(name, obj)`: a fresh name is added at the end; a taken name
      raises KeyError and the registry is left as it was. */
  function Register<T>(r: Registry<T>, name: string, obj: T): (res: Result<Registry<T>>)
    requires Valid(r)
    ensures res.Ok? <==> !Exists(r, name)
    ensures res.Err? ==> res.error == AlreadyRegistered(name)
    ensures res.Ok? ==> Valid(res.value)
    ensures res.Ok? ==> Exists(res.value, name) && Get(res.value, name) == Ok(obj)
    ensures res.Ok? ==> Len(res.value) == Len(r) + 1
    ensures res.Ok? ==> ListNames(res.value) == ListNames(r) + [name]
    ensures res.Ok? ==> forall n :: n != name ==> Get(res.value, n) == Get(r, n)
  {
    if Exists(r, name) then Err(AlreadyRegistered(name))
    else Ok(Registry(Put(r.store, name, obj)))
  }

  /** `get(name)`: the object registered under `name`, or KeyError. */
  function Get<T>(r: Registry<T>, name: string): (res: Result<T>)
    ensures res.Ok? <==> Exists(r, name)
    ensures res.Err? ==> res.error == NotRegistered(name)
    ensures res.Ok? ==> Dicts.Get(r.store, name) == Some(res.value)
  {
    if !Exists(r, name) then Err(NotRegistered(name))
    else Ok(r.store.entries[name])
  }

  /** `registry.<name>` on a WorkerRegistry or PipeRegistry, once Python's
      ordinary attribute lookup has failed and `__getattr__` runs: the
      registered object, or an AttributeError naming `kind` ("Worker" or
      "Pipe") and the name. */
  function Attribute<T>(r: Registry<T>, kind: string, name: string): (res: Result<T>)
    ensures res.Ok? <==> Exists(r, name)
    ensures res.Err? ==> res.error == NoSuchAttribute(kind, name)
    ensures res.Ok? ==> Get(r, name) == Ok(res.value)
  {
    if Exists(r, name) then Ok(r.store.entries[name])
    else Err(NoSuchAttribute(kind, name))
  }

  /** `clear()` */
  function Clear<T>(r: Registry<T>): (c: Registry<T>)
    ensures Valid(c)
    ensures Len(c) == 0
    ensures ListNames(c) == []
    ensures forall n :: !Exists(c, n)
  {
    New()
  }

  /** Registering `names` one after another into an empty registry. */
  function RegisterAll<T>(r: Registry<T>, names: seq<string>, obj: T): Result<Registry<T>>
    requires Valid(r)
    decreases |names|
  {
    if names == [] then Ok(r)
    else
      match Register(r, names[0], obj)
      case Err(e) => Err(e)
      case Ok(r1) => RegisterAll(r1, names[1..], obj)
  }

  /** Registration order is listing order, and registering a name twice
      fails. */
  lemma {:induction false} RegisterAllLists<T>(r: Registry<T>, names: seq<string>, obj: T)
    requires Valid(r)
    ensures var res := RegisterAll(r, names, obj);
      res.Ok? <==> Distinct(ListNames(r) + names)
    ensures var res := RegisterAll(r, names, obj);
      res.Ok? ==> Valid(res.value) && ListNames(res.value) == ListNames(r) + names
    decreases |names|
  {
    if names != [] {
      var l := ListNames(r);
      var res1 := Register(r, names[0], obj);
      assert l + names == (l + [names[0]]) + names[1..];
      if res1.Ok? {
        RegisterAllLists(res1.value, names[1..], obj);
        assert ListNames(res1.value) == l + [names[0]];
      } else {
        assert names[0] in l;
        var i :| 0 <= i < |l| && l[i] == names[0];
        assert (l + names)[i] == (l + names)[|l|];
      }
    }
  }
}
