/** The request and response models of the gateway: intervals, bounding boxes,
    listed objects and execution request lists, with the field constraints the
    model layer enforces when one of them is constructed. */
module Models {
  import opened Wrappers

  /** One axis of a region: `span` cells starting at `start`.
      A `start` of -1 is the "unspecified lower edge" sentinel. */
  datatype Interval = Interval(start: int, span: int) {

    /** The declared field constraints: `start >= -1` and `span >= 0`. */
    predicate Valid()
    {
      start >= -1 && span >= 0
    }
  }

  predicate AllValid(bounds: seq<Interval>)
  {
    forall i :: 0 <= i < |bounds| ==> bounds[i].Valid()
  }

  /** An ordered list of intervals, one per dimension. */
  datatype BoundingBox = BoundingBox(bounds: seq<Interval>) {

    function Dims(): nat
    {
      |bounds|
    }

    predicate Valid()
    {
      AllValid(bounds)
    }
  }

  /** Identity and extent of one stored array version. An absent namespace is `None`. */
  datatype DSObject = DSObject(name: string, namespace: Option<string>, version: int, bounds: seq<Interval>) {

    predicate Valid()
    {
      AllValid(bounds)
    }
  }

  /** Ordered arguments of a multi-object remote execution. */
  datatype RequestList = RequestList(requests: seq<DSObject>)

  /** A request list as it arrives, before defaults are applied: `None` when
      the `requests` field is missing. */
  datatype RawRequestList = RawRequestList(requests: Option<seq<DSObject>>)

  /** Why constructing a model failed. */
  datatype ModelError = InvalidInterval | MalformedJson

  /** Builds a bounding box, rejecting any interval outside the field constraints. */
  function NewBoundingBox(bounds: seq<Interval>): (r: Result<BoundingBox, ModelError>)
    ensures r.Success? <==> (forall i :: 0 <= i < |bounds| ==> bounds[i].start >= -1 && bounds[i].span >= 0)
    ensures r.Success? ==> r.value.bounds == bounds && r.value.Dims() == |bounds| && r.value.Valid()
    ensures r.Failure? ==> r.error == InvalidInterval
  {
    if AllValid(bounds) then Success(BoundingBox(bounds)) else Failure(InvalidInterval)
  }

  /** Builds a request list; a missing `requests` field defaults to the empty list,
      and every request's intervals must meet the field constraints. */
  function NewRequestList(raw: RawRequestList): (r: Result<RequestList, ModelError>)
    ensures raw.requests.None? ==> r == Success(RequestList([]))
    ensures raw.requests.Some? ==>
              (r.Success? <==> forall i :: 0 <= i < |raw.requests.value| ==> raw.requests.value[i].Valid())
    ensures r.Success? ==> r.value.requests == raw.requests.GetOr([])
  {
    var requests := raw.requests.GetOr([]);
    if forall i :: 0 <= i < |requests| ==> requests[i].Valid() then
      Success(RequestList(requests))
    else
      Failure(InvalidInterval)
  }

  /** A model field as it reaches the validator: a JSON text or an
      already-structured value. */
  datatype Input<R> = Text(text: string) | Structured(raw: R)

  /** What the "before" validator hands on: a model it already built from
      text, or the structured input untouched for ordinary field validation. */
  datatype Stage<R, T> = Built(model: T) | Untouched(raw: R)

  /** The "before" validator shared by `BoundingBox` and `RequestList`: text
      is decoded and built into the model at once; anything else is passed on
      unchanged. `decode` stands for JSON decoding. */
  function BeforeValidate<R, T>(input: Input<R>, decode: string -> Option<R>,
                                build: R -> Result<T, ModelError>): (r: Result<Stage<R, T>, ModelError>)
    ensures input.Structured? ==> r == Success(Untouched(input.raw))
    ensures input.Text? && decode(input.text).None? ==> r == Failure(MalformedJson)
    ensures input.Text? && decode(input.text).Some? ==>
              && (r.Success? <==> build(decode(input.text).value).Success?)
              && (r.Success? ==> r.value.Built?)
              && (r.Failure? ==> build(decode(input.text).value) == Failure(r.error))
    ensures r.Success? && r.value.Built? ==>
              input.Text? && decode(input.text).Some? && build(decode(input.text).value) == Success(r.value.model)
  {
    match input
    case Structured(raw) => Success(Untouched(raw))
    case Text(text) =>
      match decode(text)
      case None => Failure(MalformedJson)
      case Some(raw) =>
        match build(raw)
        case Success(model) => Success(Built(model))
        case Failure(e) => Failure(e)
  }

  /** Full validation of a model field: the "before" validator, then the
      field validation of whatever it passed on. */
  function Validate<R, T>(input: Input<R>, decode: string -> Option<R>,
                          build: R -> Result<T, ModelError>): Result<T, ModelError>
  {
    match BeforeValidate(input, decode, build)
    case Failure(e) => Failure(e)
    case Success(Built(model)) => Success(model)
    case Success(Untouched(raw)) => build(raw)
  }

  /** A JSON text and the structure it decodes to validate to the same result. */
  lemma TextAgreesWithStructured<R, T>(text: string, raw: R, decode: string -> Option<R>,
                                        build: R -> Result<T, ModelError>)
    requires decode(text) == Some(raw)
    ensures Validate(Text(text), decode, build) == Validate(Structured(raw), decode, build)
    ensures Validate(Structured(raw), decode, build) == build(raw)
  {
  }

  function ValidateBox(input: Input<seq<Interval>>, decode: string -> Option<seq<Interval>>): (r: Result<BoundingBox, ModelError>)
    ensures input.Structured? ==> r == NewBoundingBox(input.raw)
    ensures input.Text? ==>
              r == (if decode(input.text).None? then Failure(MalformedJson) else NewBoundingBox(decode(input.text).value))
    ensures r.Success? ==> r.value.Valid()
  {
    Validate(input, decode, NewBoundingBox)
  }

  function ValidateRequestList(input: Input<RawRequestList>, decode: string -> Option<RawRequestList>): (r: Result<RequestList, ModelError>)
    ensures input.Structured? ==> r == NewRequestList(input.raw)
    ensures input.Text? ==>
              r == (if decode(input.text).None? then Failure(MalformedJson) else NewRequestList(decode(input.text).value))
    ensures r.Success? ==> forall i :: 0 <= i < |r.value.requests| ==> r.value.requests[i].Valid()
  {
    Validate(input, decode, NewRequestList)
  }
}
