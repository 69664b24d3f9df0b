/** The HTTP routes: object-name escaping, the metadata headers of a read,
    and the mapping from service outcomes to status codes. */
module Routes {
  import opened Wrappers
  import opened Models
  import opened Geometry
  import opened Naming
  import opened Fabric
  import opened Services
  import Csv

  /** Rewrites every `~` in an object name to `/`, so hierarchical names can
      travel as one path segment. */
  function Escape(s: string): (r: string)
    ensures |r| == |s|
    ensures forall i :: 0 <= i < |s| ==> r[i] == (if s[i] == '~' then '/' else s[i])
    ensures '~' !in r
  {
    if |s| == 0 then [] else [if s[0] == '~' then '/' else s[0]] + Escape(s[1..])
  }

  /** Escaping twice is escaping once. */
  lemma EscapeIdempotent(s: string)
    ensures Escape(Escape(s)) == Escape(s)
  {
  }

  /** A name is left alone exactly when it holds no `~`. */
  lemma EscapeFixedPoint(s: string)
    ensures Escape(s) == s <==> '~' !in s
  {
    if '~' in s {
      var i :| 0 <= i < |s| && s[i] == '~';
      assert Escape(s)[i] == '/';
    }
  }

  /** Metadata sent alongside the bytes of a read. */
  datatype Headers = Headers(tag: string, elementSize: string, lowerBounds: string, upperBounds: string, dims: string)

  datatype Body =
    | ArrayBody(content: Bytes, headers: Headers)
    | Message(text: string)
    | Names(names: seq<string>)
    | Objects(objects: seq<DSObject>)
    | Blob(bytes: Bytes)
    | Handle(handle: RegHandle)

  /** A route's answer: a body, an HTTP error the route raises on purpose, or
      an exception the route lets escape (answered with 500 by the framework). */
  datatype Response = Ok(body: Body) | HttpError(status: int, detail: string) | Raised {

    function Status(): int
    {
      match this
      case Ok(_) => 200
      case HttpError(status, _) => status
      case Raised => 500
    }
  }

  /** Upper bounds of a read, computed from the shape actually returned: one
      entry per dimension present in both the box and the shape. */
  function UpperBounds(bounds: seq<Interval>, shape: seq<int>): (r: seq<int>)
    ensures |r| == if |bounds| <= |shape| then |bounds| else |shape|
    ensures forall i :: 0 <= i < |r| ==> r[i] == bounds[i].start + shape[i] - 1
  {
    if |bounds| == 0 || |shape| == 0 then []
    else [bounds[0].start + shape[0] - 1] + UpperBounds(bounds[1..], shape[1..])
  }

  /** The `X-DS-*` headers of a read: the element type number and width, the
      requested starts, the upper bounds from the returned shape, and the
      returned shape, each list comma-joined. */
  function ArrayHeaders(box: BoundingBox, data: NdArray): (h: Headers)
    ensures Csv.ParseInt(h.tag) == Some(data.typeNum)
    ensures Csv.ParseInt(h.elementSize) == Some(data.itemSize)
    ensures Csv.Parse(h.lowerBounds) == Some(CornersFromBounds(box).lb)
    ensures Csv.Parse(h.dims) == Some(data.shape)
    ensures Csv.Parse(h.upperBounds) == Some(UpperBounds(box.bounds, data.shape))
  {
    Csv.ParseIntOfString(data.typeNum);
    Csv.ParseIntOfString(data.itemSize);
    Headers(Csv.IntToString(data.typeNum),
            Csv.IntToString(data.itemSize),
            Csv.Join(Starts(box.bounds)),
            Csv.Join(UpperBounds(box.bounds, data.shape)),
            Csv.Join(data.shape))
  }

  /** When the store returns exactly the requested region, the header bounds
      are the box's corners. */
  lemma UpperBoundsMatchCorners(box: BoundingBox, shape: seq<int>)
    requires shape == Spans(box.bounds)
    ensures UpperBounds(box.bounds, shape) == CornersFromBounds(box).ub
  {
  }

  /** A 1-D answer to a 2-D request yields 1-D upper bounds and dims. */
  lemma ExampleProjectedRead(typeNum: int, itemSize: int, content: Bytes)
    ensures var h := ArrayHeaders(BoundingBox([Interval(1, 2), Interval(3, 4)]), NdArray([2], typeNum, itemSize, content));
            h.lowerBounds == "1,3" && h.upperBounds == "2" && h.dims == "2"
  {
    var box := BoundingBox([Interval(1, 2), Interval(3, 4)]);
    assert Starts(box.bounds) == [1, 3];
    assert UpperBounds(box.bounds, [2]) == [2];
    assert Csv.IntToString(1) == "1";
    assert Csv.IntToString(2) == "2";
    assert Csv.IntToString(3) == "3";
    assert Csv.Join([3]) == "3";
  }

  // ---------------------------------------------------------------- routes

  /** Reads an object region; 404 when the store has no data. */
  function DsGet(client: Client, namespace: Option<string>, objName: string, version: int, box: BoundingBox): (r: Run<Response>)
    ensures r.trace == GetObj(client, namespace, Escape(objName), version, box).trace
    ensures r.trace[0].ref.name == Qualify(namespace, Escape(objName))
    ensures r.result.Status() == 404 <==> client.get(r.trace[0].ref, 0).None?
    ensures r.result.Status() == 404 ==> r.result == HttpError(404, "could not find the object")
    ensures client.get(r.trace[0].ref, 0).Some? ==> r.result.Ok?
    ensures r.result.Ok? ==>
              var data := client.get(r.trace[0].ref, 0).value;
              r.result.body == ArrayBody(data.content, ArrayHeaders(box, data))
  {
    var run := GetObj(client, namespace, Escape(objName), version, box);
    if run.result.None? then Run(HttpError(404, "could not find the object"), run.trace)
    else Run(Ok(ArrayBody(run.result.value.content, ArrayHeaders(box, run.result.value))), run.trace)
  }

  /** Writes an object; every failure becomes 500 "put failed". The name is
      not escaped. */
  function DsPut(client: Client, dtypes: map<int, DType>, namespace: Option<string>, objName: string, version: int,
                 box: BoundingBox, elementSize: int, elementType: int, data: Bytes): (r: Run<Response>)
    requires box.Valid()
    ensures r.result == Ok(Message("Stored data successfully")) || r.result == HttpError(500, "put failed")
    ensures r.trace == PutObj(client, dtypes, namespace, objName, version, box, elementSize, elementType, data).trace
    ensures r.result.Ok? <==> PutObj(client, dtypes, namespace, objName, version, box, elementSize, elementType, data).result.Pass?
    ensures !SizeMatches(box, elementSize, data) ==> r.result.Status() == 500 && r.trace == []
    ensures forall i :: 0 <= i < |r.trace| ==> r.trace[i].Put? && r.trace[i].key == Qualify(namespace, objName)
  {
    var run := PutObj(client, dtypes, namespace, objName, version, box, elementSize, elementType, data);
    match run.result
    case Pass => Run(Ok(Message("Stored data successfully")), run.trace)
    case Fail(_) => Run(HttpError(500, "put failed"), run.trace)
  }

  /** Lists variable names; 502 when the store signals failure. An empty list is a success. */
  function DsGetVars(client: Client): (r: Run<Response>)
    ensures r.trace == [GetVars]
    ensures r.result.Status() == 502 <==> client.getVars.None?
    ensures client.getVars.Some? ==> r.result == Ok(Names(client.getVars.value))
  {
    match client.getVars
    case None => Run(HttpError(502, "query failed."), [GetVars])
    case Some(names) => Run(Ok(Names(names)), [GetVars])
  }

  /** What the store lists for the escaped, qualified variable name. */
  function ListingOf(client: Client, namespace: Option<string>, objName: string): seq<Listed>
  {
    client.getObjVars(Qualify(namespace, Escape(objName)))
  }

  /** Lists the objects of a variable; 404 when there are none. Corners that
      cannot be rebuilt raise out of the route. */
  function DsGetVarObjs(client: Client, namespace: Option<string>, objName: string): (r: Run<Response>)
    ensures r.trace == [GetObjVars(Qualify(namespace, Escape(objName)))]
    ensures r.result.Status() == 404 <==> ListingOf(client, namespace, objName) == []
    ensures r.result.Raised? <==>
              !forall i :: 0 <= i < |ListingOf(client, namespace, objName)| ==>
                ValidCorners(ListingOf(client, namespace, objName)[i].lb, ListingOf(client, namespace, objName)[i].ub)
    ensures r.result.Ok? ==>
              r.result.body.Objects? && |r.result.body.objects| == |ListingOf(client, namespace, objName)| > 0
    ensures ListingOf(client, namespace, objName) != [] && ObjectsFromListing(ListingOf(client, namespace, objName)).Success? ==>
              r.result == Ok(Objects(ObjectsFromListing(ListingOf(client, namespace, objName)).value))
  {
    var run := GetVarObj(client, namespace, Escape(objName));
    assert run.result == ObjectsFromListing(ListingOf(client, namespace, objName));
    if run.result.Failure? then Run(Raised, run.trace)
    else if run.result.value == [] then Run(HttpError(404, "could not find any objects"), run.trace)
    else Run(Ok(Objects(run.result.value)), run.trace)
  }

  /** Single-object remote execution. The service always answers with
      serialised bytes, so the not-found branch is never taken. */
  function DsPExec(client: Client, pickler: Pickler, namespace: Option<string>, objName: string, version: int,
                   box: BoundingBox, fn: Bytes): (r: Run<Response>)
    ensures r.trace == PExecObj(client, pickler, namespace, Escape(objName), version, box, fn).trace
    ensures r.trace[1].ref.name == Qualify(namespace, Escape(objName))
    ensures r.result.Status() == 200
    ensures r.result == Ok(Blob(pickler.dumps(client.exec(r.trace[1].ref, pickler.loads(fn)))))
  {
    var run := PExecObj(client, pickler, namespace, Escape(objName), version, box, fn);
    match run.result
    case None => Run(HttpError(404, "could not find the input data"), run.trace)
    case Some(data) => Run(Ok(Blob(data)), run.trace)
  }

  /** Multi-object remote execution; names are passed on without escaping and
      the not-found branch is never taken. */
  function DsMPExec(client: Client, pickler: Pickler, requests: RequestList, fn: Bytes): (r: Run<Response>)
    ensures r.trace == MPExecObj(client, pickler, requests.requests, fn).trace
    ensures |r.trace| == 3 && r.trace[1].VecExec? && |r.trace[1].refs| == |requests.requests|
    ensures forall i :: 0 <= i < |requests.requests| ==>
              r.trace[1].refs[i].name == Qualify(requests.requests[i].namespace, requests.requests[i].name)
    ensures r.result.Status() == 200
    ensures r.result == Ok(Blob(pickler.dumps(client.vecExec(r.trace[1].refs, pickler.loads(fn)))))
  {
    var run := MPExecObj(client, pickler, requests.requests, fn);
    match run.result
    case None => Run(HttpError(404, "could not find the input data"), run.trace)
    case Some(data) => Run(Ok(Blob(data)), run.trace)
  }

  /** Registers an external dataset; the three known store errors become 500
      with their own messages, any other error escapes. */
  function DsReg(client: Client, kind: string, name: string, params: Params): (r: Run<Response>)
    ensures r.trace == [Register(kind, name, params)]
    ensures var reg := client.register(kind, name, params);
            && (reg.Registered? <==> r.result.Ok?)
            && (reg.Registered? ==> r.result.body == Handle(reg.handle))
            && (reg.ModuleError? <==> r.result == HttpError(500, "invalid registration type"))
            && (reg.RemoteFaultError? <==> r.result == HttpError(500, "plugin handling fault"))
            && (reg.ConnectionError? <==> r.result == HttpError(500, "backend server connection failed"))
            && (reg.OtherError? <==> r.result == Raised)
            && (!reg.Registered? ==> r.result.Status() == 500)
  {
    var reg := client.register(kind, name, params);
    var response :=
      match reg
      case Registered(handle) => Ok(Handle(handle))
      case ModuleError => HttpError(500, "invalid registration type")
      case RemoteFaultError => HttpError(500, "plugin handling fault")
      case ConnectionError => HttpError(500, "backend server connection failed")
      case OtherError => Raised;
    Run(response, [Register(kind, name, params)])
  }

  // ---------------------------------------------------------------- laws

  /** A read of `a~b` addresses the same object as a read of `a/b`. */
  lemma GetEscapesOnce(client: Client, namespace: Option<string>, objName: string, version: int, box: BoundingBox)
    ensures DsGet(client, namespace, objName, version, box) == DsGet(client, namespace, Escape(objName), version, box)
  {
    EscapeIdempotent(objName);
  }

  /** Listing the objects of `a~b` is listing the objects of `a/b`. */
  lemma ListingEscapesOnce(client: Client, namespace: Option<string>, objName: string)
    ensures DsGetVarObjs(client, namespace, objName) == DsGetVarObjs(client, namespace, Escape(objName))
  {
    EscapeIdempotent(objName);
  }

  /** Reads escape `~` but writes do not: the name `a~b` is read under the
      key of `a/b` and written under a different key. */
  lemma TildeSplitsReadAndWrite(namespace: Option<string>)
    ensures Qualify(namespace, Escape("a~b")) == Qualify(namespace, "a/b")
    ensures Qualify(namespace, "a/b") != Qualify(namespace, "a~b")
  {
    assert Escape("a~b") == "a/b";
    if Qualify(namespace, "a~b") == Qualify(namespace, "a/b") {
      QualifyInjective(namespace, "a~b", "a/b");
    }
  }

  /** A remote execution whose function returns nothing still answers 200
      with the serialised empty value. */
  lemma PExecNothingIsNotNotFound(client: Client, pickler: Pickler, namespace: Option<string>, objName: string,
                                  version: int, box: BoundingBox, fn: Bytes)
    requires client.exec(BuildRef(namespace, Escape(objName), version, box), pickler.loads(fn)) == PyNone
    ensures DsPExec(client, pickler, namespace, objName, version, box, fn).result == Ok(Blob(pickler.dumps(PyNone)))
  {
  }

  /** The three registration failures the route names stay distinguishable:
      different causes give different responses. */
  lemma RegistrationErrorsDistinct(c1: Client, c2: Client, kind: string, name: string, params: Params)
    requires var a := c1.register(kind, name, params);
             var b := c2.register(kind, name, params);
             && (a.ModuleError? || a.RemoteFaultError? || a.ConnectionError?)
             && (b.ModuleError? || b.RemoteFaultError? || b.ConnectionError?)
             && a != b
    ensures DsReg(c1, kind, name, params).result.Status() == DsReg(c2, kind, name, params).result.Status() == 500
    ensures DsReg(c1, kind, name, params).result.detail != DsReg(c2, kind, name, params).result.detail
  {
  }
}
