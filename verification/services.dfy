/** The service bodies: each builds a store reference from a qualified name,
    a version and a region, then makes its call on the store client. */
module Services {
  import opened Wrappers
  import opened Models
  import opened Geometry
  import opened Naming
  import opened Fabric

  /** The store reference for one object region: the qualified key, the
      version unchanged, and the box's corners. */
  function BuildRef(namespace: Option<string>, name: string, version: int, box: BoundingBox): (r: NativeRef)
    ensures r.name == Qualify(namespace, name) && r.version == version
    ensures |r.lb| == |r.ub| == box.Dims()
    ensures forall i :: 0 <= i < box.Dims() ==>
              r.lb[i] == box.bounds[i].start && r.ub[i] == box.bounds[i].start + box.bounds[i].span - 1
  {
    var c := CornersFromBounds(box);
    NativeRef(Qualify(namespace, name), version, c.lb, c.ub)
  }

  // ---------------------------------------------------------------- get

  /** Reads one region. The store's answer, absent or not, is returned as it is. */
  function GetObj(client: Client, namespace: Option<string>, name: string, version: int, box: BoundingBox): (r: Run<Option<NdArray>>)
    ensures |r.trace| == 1 && r.trace[0].Get?
    ensures r.trace[0].wait == 0
    ensures r.trace[0].ref.name == Qualify(namespace, name) && r.trace[0].ref.version == version
    ensures Corners(r.trace[0].ref.lb, r.trace[0].ref.ub) == CornersFromBounds(box)
    ensures r.result == client.get(r.trace[0].ref, 0)
  {
    var ref := BuildRef(namespace, name, version, box);
    Run(client.get(ref, 0), [Get(ref, 0)])
  }

  // ---------------------------------------------------------------- put

  /** An entry of the numeric type registry: the type number and element width. */
  datatype DType = DType(num: int, itemSize: nat)

  /** Why a write was refused or failed. */
  datatype PutError =
    | SizeMismatch        // the payload does not fill the box exactly
    | UnknownElementType  // the element type is not in the type registry
    | BufferTooSmall      // the payload is too short for the registered element width
    | StoreWriteFailed    // the store refused the write

  /** The payload holds exactly `elementSize` bytes for every cell of the box. */
  predicate SizeMatches(box: BoundingBox, elementSize: int, data: Bytes)
  {
    |data| == Volume(box) * elementSize
  }

  /** Writes a payload over a box. The byte count is checked before anything
      reaches the store; the array handed to the store has the box's spans as
      its shape, and its offset is the box's starts. `dtypes` is the numeric
      type registry. */
  function PutObj(client: Client, dtypes: map<int, DType>, namespace: Option<string>, name: string,
                  version: int, box: BoundingBox, elementSize: int, elementType: int, data: Bytes): (r: Run<Outcome<PutError>>)
    requires box.Valid()
    ensures !SizeMatches(box, elementSize, data) ==> r == Run(Fail(SizeMismatch), [])
    ensures Writes(r.trace) ==> SizeMatches(box, elementSize, data)
    ensures |r.trace| <= 1
    ensures r.trace == [] <==> r.result.Fail? && r.result.error != StoreWriteFailed
    ensures SizeMatches(box, elementSize, data) && elementType !in dtypes ==> r == Run(Fail(UnknownElementType), [])
    ensures SizeMatches(box, elementSize, data) && elementType in dtypes && |data| < Volume(box) * dtypes[elementType].itemSize ==>
              r == Run(Fail(BufferTooSmall), [])
    ensures SizeMatches(box, elementSize, data) && elementType in dtypes && |data| >= Volume(box) * dtypes[elementType].itemSize ==>
              |r.trace| == 1
    ensures |r.trace| == 1 ==>
              && r.trace[0].Put?
              && r.trace[0].key == Qualify(namespace, name)
              && r.trace[0].version == version
              && r.trace[0].offset == Starts(box.bounds)
              && r.trace[0].data.shape == Spans(box.bounds)
              && Product(r.trace[0].data.shape) == Volume(box)
              && elementType in dtypes
              && r.trace[0].data.typeNum == dtypes[elementType].num
              && r.trace[0].data.itemSize == dtypes[elementType].itemSize
              && r.trace[0].data.content == data[..Volume(box) * dtypes[elementType].itemSize]
              && (r.result.Pass? <==> client.put(r.trace[0].data, r.trace[0].key, r.trace[0].version, r.trace[0].offset))
  {
    var offset := Starts(box.bounds);
    if |data| != Volume(box) * elementSize then
      Run(Fail(SizeMismatch), [])
    else
      var dims := Spans(box.bounds);
      if elementType !in dtypes then
        Run(Fail(UnknownElementType), [])
      else
        var dtype := dtypes[elementType];
        var needed := Volume(box) * dtype.itemSize;
        if |data| < needed then
          Run(Fail(BufferTooSmall), [])
        else
          var arr := NdArray(dims, dtype.num, dtype.itemSize, data[..needed]);
          var key := Qualify(namespace, name);
          var written := client.put(arr, key, version, offset);
          Run(if written then Pass else Fail(StoreWriteFailed), [Put(arr, key, version, offset)])
  }

  /** Spans (2,4) with 4-byte elements: exactly 32 bytes pass the size check;
      any other count is refused with no call to the store. */
  lemma PutSizeExample(client: Client, dtypes: map<int, DType>, namespace: Option<string>, name: string,
                       version: int, s0: int, s1: int, elementType: int, data: Bytes)
    requires s0 >= -1 && s1 >= -1
    ensures var box := BoundingBox([Interval(s0, 2), Interval(s1, 4)]);
            var r := PutObj(client, dtypes, namespace, name, version, box, 4, elementType, data);
            && (|data| == 32 <==> SizeMatches(box, 4, data))
            && (|data| != 32 ==> r.result == Fail(SizeMismatch) && r.trace == [])
  {
    var box := BoundingBox([Interval(s0, 2), Interval(s1, 4)]);
    assert Spans(box.bounds) == [2, 4];
    assert Product([2, 4]) == 2 * Product([4]);
    assert Volume(box) == 8;
  }

  // ---------------------------------------------------------------- exec

  /** Runs a serialised function on one region. The blob is deserialised once,
      uninspected, and the result is always serialised, so the answer is never
      absent even when the function produced nothing. */
  function PExecObj(client: Client, pickler: Pickler, namespace: Option<string>, name: string,
                    version: int, box: BoundingBox, fn: Bytes): (r: Run<Option<Bytes>>)
    ensures r.result.Some?
    ensures |r.trace| == 3 && r.trace[0] == Loads(fn) && r.trace[1].Exec? && r.trace[2].Dumps?
    ensures r.trace[1].fn == pickler.loads(fn)
    ensures r.trace[1].ref.name == Qualify(namespace, name) && r.trace[1].ref.version == version
    ensures Corners(r.trace[1].ref.lb, r.trace[1].ref.ub) == CornersFromBounds(box)
    ensures r.trace[2].value == client.exec(r.trace[1].ref, r.trace[1].fn)
    ensures r.result.value == pickler.dumps(r.trace[2].value)
  {
    var ref := BuildRef(namespace, name, version, box);
    var f := pickler.loads(fn);
    var value := client.exec(ref, f);
    Run(Some(pickler.dumps(value)), [Loads(fn), Exec(ref, f), Dumps(value)])
  }

  /** The store reference for one execution request. */
  function RequestRef(req: DSObject): NativeRef
  {
    BuildRef(req.namespace, req.name, req.version, BoundingBox(req.bounds))
  }

  /** One reference per request, in request order. */
  function RequestRefs(reqs: seq<DSObject>): (refs: seq<NativeRef>)
    ensures |refs| == |reqs|
    ensures forall i :: 0 <= i < |reqs| ==> refs[i] == RequestRef(reqs[i])
  {
    if |reqs| == 0 then [] else [RequestRef(reqs[0])] + RequestRefs(reqs[1..])
  }

  /** Runs a serialised function over several regions. The references reach
      the store in request order; an empty request list still makes one call. */
  function MPExecObj(client: Client, pickler: Pickler, reqs: seq<DSObject>, fn: Bytes): (r: Run<Option<Bytes>>)
    ensures r.result.Some?
    ensures |r.trace| == 3 && r.trace[0] == Loads(fn) && r.trace[1].VecExec? && r.trace[2].Dumps?
    ensures r.trace[1].fn == pickler.loads(fn)
    ensures |r.trace[1].refs| == |reqs|
    ensures forall i :: 0 <= i < |reqs| ==>
              && r.trace[1].refs[i].name == Qualify(reqs[i].namespace, reqs[i].name)
              && r.trace[1].refs[i].version == reqs[i].version
              && Corners(r.trace[1].refs[i].lb, r.trace[1].refs[i].ub) == CornersFromBounds(BoundingBox(reqs[i].bounds))
    ensures r.trace[2].value == client.vecExec(r.trace[1].refs, r.trace[1].fn)
    ensures r.result.value == pickler.dumps(r.trace[2].value)
  {
    var refs := RequestRefs(reqs);
    var f := pickler.loads(fn);
    var value := client.vecExec(refs, f);
    Run(Some(pickler.dumps(value)), [Loads(fn), VecExec(refs, f), Dumps(value)])
  }

  /** A one-request multi-exec hands the store the same reference a
      single-object exec of that request would. */
  lemma MultiMatchesSingle(client: Client, pickler: Pickler, req: DSObject, fn: Bytes)
    ensures MPExecObj(client, pickler, [req], fn).trace[1].refs
         == [PExecObj(client, pickler, req.namespace, req.name, req.version, BoundingBox(req.bounds), fn).trace[1].ref]
  {
  }

  /** An empty request list is one store call with no references. */
  lemma EmptyMultiExec(client: Client, pickler: Pickler, fn: Bytes)
    ensures MPExecObj(client, pickler, [], fn).trace[1] == VecExec([], pickler.loads(fn))
  {
  }

  // ---------------------------------------------------------------- listing

  /** Entry `i` is the first whose corners cannot be rebuilt. */
  predicate FirstRejected(listing: seq<Listed>, i: int)
    requires 0 <= i < |listing|
  {
    !ValidCorners(listing[i].lb, listing[i].ub) && forall j :: 0 <= j < i ==> ValidCorners(listing[j].lb, listing[j].ub)
  }

  /** One model object per listed entry, in order; the first entry whose
      corners cannot be rebuilt stops the conversion with its error. */
  function ObjectsFromListing(listing: seq<Listed>): (r: Result<seq<DSObject>, GeomError>)
    ensures r.Success? <==> forall i :: 0 <= i < |listing| ==> ValidCorners(listing[i].lb, listing[i].ub)
    ensures r.Success? ==> |r.value| == |listing|
    ensures r.Success? ==> forall i :: 0 <= i < |listing| ==>
              && r.value[i].name == listing[i].name
              && r.value[i].namespace == None
              && r.value[i].version == listing[i].version
              && Success(r.value[i].bounds) == BoundsFromCorners(listing[i].lb, listing[i].ub)
    ensures r.Failure? ==> exists i :: 0 <= i < |listing| && FirstRejected(listing, i) && BoundsFromCorners(listing[i].lb, listing[i].ub) == Failure(r.error)
  {
    if |listing| == 0 then
      Success([])
    else
      var entry := listing[0];
      match BoundsFromCorners(entry.lb, entry.ub)
      case Failure(e) => Failure(e)
      case Success(bounds) =>
        match ObjectsFromListing(listing[1..])
        case Failure(e) =>
          var k :| 0 <= k < |listing| - 1 && FirstRejected(listing[1..], k) && BoundsFromCorners(listing[1..][k].lb, listing[1..][k].ub) == Failure(e);
          assert FirstRejected(listing, k + 1);
          Failure(e)
        case Success(rest) => Success([DSObject(entry.name, None, entry.version, bounds)] + rest)
  }

  /** Lists the stored objects of one variable as boxes. */
  function GetVarObj(client: Client, namespace: Option<string>, name: string): (r: Run<Result<seq<DSObject>, GeomError>>)
    ensures r.trace == [GetObjVars(Qualify(namespace, name))]
    ensures r.result == ObjectsFromListing(client.getObjVars(Qualify(namespace, name)))
  {
    var key := Qualify(namespace, name);
    Run(ObjectsFromListing(client.getObjVars(key)), [GetObjVars(key)])
  }
}
