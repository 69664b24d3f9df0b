/** The external array store and the function serialiser, as abstract
    collaborators: every answer is an uninterpreted function of the call's
    arguments, and every call is recorded in a trace. */
module Fabric {
  import opened Wrappers

  type Bytes = seq<bv8>

  /** A dense array as the store hands it over: shape, numeric type number,
      bytes per element and the row-major contents. */
  datatype NdArray = NdArray(shape: seq<int>, typeNum: int, itemSize: int, content: Bytes)

  /** The store's reference to one object region: key, version and inclusive corners. */
  datatype NativeRef = NativeRef(name: string, version: int, lb: seq<int>, ub: seq<int>)

  /** A deserialised function, known only by identity. */
  datatype Callable = Callable(id: nat)

  /** A value returned by a remote execution; `PyNone` when it produced nothing. */
  datatype PyObj = PyNone | PyValue(id: nat)

  /** An entry of a per-variable object listing, in corner form. */
  datatype Listed = Listed(name: string, version: int, lb: seq<int>, ub: seq<int>)

  /** Type-specific registration parameters. */
  type Params = map<string, string>

  /** Where a registered dataset can be queried, with its stored parameters. */
  datatype RegHandle = RegHandle(namespace: string, parameters: Params)

  /** What a registration produced: a handle, or one of the store's error kinds. */
  datatype Registration =
    | Registered(handle: RegHandle)
    | ModuleError        // unknown registration type
    | RemoteFaultError   // the registered module raised
    | ConnectionError    // the backend could not be reached
    | OtherError         // any other exception

  /** The store client. `put` answers whether the write succeeded. */
  datatype Client = Client(
    get: (NativeRef, int) -> Option<NdArray>,
    put: (NdArray, string, int, seq<int>) -> bool,
    getVars: Option<seq<string>>,
    getObjVars: string -> seq<Listed>,
    exec: (NativeRef, Callable) -> PyObj,
    vecExec: (seq<NativeRef>, Callable) -> PyObj,
    register: (string, string, Params) -> Registration)

  /** The function serialiser: `loads` turns a blob into a callable, `dumps`
      turns any value, `PyNone` included, into bytes. */
  datatype Pickler = Pickler(loads: Bytes -> Callable, dumps: PyObj -> Bytes)

  /** One interaction with a collaborator, in the order it happens. */
  datatype Call =
    | Get(ref: NativeRef, wait: int)
    | Put(data: NdArray, key: string, version: int, offset: seq<int>)
    | GetVars
    | GetObjVars(key: string)
    | Exec(ref: NativeRef, fn: Callable)
    | VecExec(refs: seq<NativeRef>, fn: Callable)
    | Register(kind: string, name: string, params: Params)
    | Loads(blob: Bytes)
    | Dumps(value: PyObj)

  /** A result together with the calls made to produce it. */
  datatype Run<+T> = Run(result: T, trace: seq<Call>)

  /** True when the trace holds a write to the store. */
  predicate Writes(trace: seq<Call>)
  {
    exists i :: 0 <= i < |trace| && trace[i].Put?
  }
}
