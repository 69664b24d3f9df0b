# Addressing and marshalling core of the DataSpaces gateway, in Dafny

This project models the core of an HTTP gateway to DataSpaces, a distributed
store of versioned, namespaced n-dimensional arrays. Clients name data by
namespace, object name, version and a box: one `(start, span)` interval per
dimension. The store itself speaks in inclusive lower and upper corners.

The model covers these parts:

- **Models** (`models.dfy`): the `Interval`, `BoundingBox`, `DSObject` and
  `RequestList` models, with their field constraints (`start >= -1`,
  `span >= 0`). It also covers the "before" validator, which accepts either a
  JSON text or an already-structured value. JSON decoding is a parameter
  (`decode`).
- **Geometry** (`geometry.dfy`): box to corners, corners to box, and volume.
  Both round trips are proved.
- **Naming** (`naming.dfy`): the store key `namespace\name`. It is proved
  injective in the name, and shown to collide across different
  (namespace, name) pairs.
- **Csv** (`csv.dfy`): the decimal rendering (`str`) and comma joining of the
  header values of a read, plus a parser that reads them back. The parser is
  the partner of the rendering.
- **Fabric** (`fabric.dfy`): the store client and the function serialiser, as
  abstract collaborators.
  - Each store answer is an uninterpreted total function of the call's
    arguments.
  - Each operation returns a `Run`: its result together with the trace of
    `Call`s it made, in order.
- **Services** (`services.dfy`): the get, put, single-exec, multi-exec and
  object-listing service bodies.
- **Routes** (`routes.dfy`):
  - the `~` to `/` name escaping;
  - the `X-DS-*` headers of a read;
  - the mapping from service outcomes to HTTP status codes.

Facts about the code that shape the model:

- Rebuilding intervals from corners fails in two ways. Corners of different
  lengths give `DimensionMismatch`. An interval that breaks the `Interval`
  field constraints gives `IntervalRejected`, because the model class
  validates on construction (`api/models/dspaces_model.py:5-6`).
- Box to corners to box is exact for every valid box, spans of 0 included
  (`Geometry.BoxRoundTrip`).
- Only the get, object-listing and single-exec routes rewrite `~` to `/`.
  Put and multi-exec pass the name on as given
  (`Routes.TildeSplitsReadAndWrite`).
- Every put failure, a size mismatch included, answers 500 "put failed".
- A listing whose corners cannot be rebuilt raises out of the route, and the
  framework answers 500.
- The three named registration errors all answer 500, each with its own
  message.
- The exec routes never answer 404. The service always returns the
  serialisation of the store's answer, and that is not `None` even when the
  answer is `None` (`Routes.PExecNothingIsNotNotFound`).
- `DSObject.version` carries no lower bound in the model class.
- An empty variable list is a success.
- In a structured request, a `DSObject` namespace of `None` stands for an
  absent `namespace` field, which takes the default `None`. The model class
  types the field as a string, so an explicit JSON `null` is not
  distinguished here.

`Services.PutObj` and `Routes.DsPut` require `box.Valid()`. Every
`BoundingBox` instance meets its field constraints, because the model class
validates it before the service sees it.

## Model

| member | source | states |
|---|---|---|
| Models.NewBoundingBox | api/models/dspaces_model.py:4-9 | a box is built exactly when every interval has start at least -1 and span at least 0; its bounds are the given list in order, and its dimensionality is their count |
| Models.NewRequestList | api/models/dspaces_model.py:24-25 | a missing request list defaults to the empty list; otherwise it is accepted exactly when every request's intervals are valid, and kept in order |
| Models.BeforeValidate | api/models/dspaces_model.py:11-16 | structured input passes through untouched; text that does not decode is an error; text that decodes is built into the model at once, succeeding exactly when the build of the decoded structure succeeds and passing on that build's error otherwise |
| Models.TextAgreesWithStructured | api/models/dspaces_model.py:13-16 | a JSON text and the structure it decodes to validate to the same result, which is the structured value's own validation |
| Models.ValidateBox | api/models/dspaces_model.py:8-16 | a box given as text validates like its decoded structure; undecodable text is refused; every accepted box is valid |
| Models.ValidateRequestList | api/models/dspaces_model.py:24-32 | a request list given as text validates like its decoded structure; every accepted request is valid |
| Geometry.Starts | api/helpers/bounding_box.py:18 | one lower corner per dimension, equal to that dimension's start |
| Geometry.Ends | api/helpers/bounding_box.py:19 | one upper corner per dimension, equal to start plus span minus 1 |
| Geometry.Spans | api/services/dspaces_services/put_dspaces_obj.py:45 | one entry per dimension, equal to its span, in order |
| Geometry.CornersFromBounds | api/helpers/bounding_box.py:5-20 | both corners have the box's dimensionality; lb[i] is start i; ub[i] is lb[i] + span - 1, so a span of 0 gives ub one below lb |
| Geometry.IntervalsBetween | api/helpers/bounding_box.py:39 | interval i starts at lb[i] with span ub[i] - lb[i] + 1, in order, one per dimension |
| Geometry.BoundsFromCorners | api/helpers/bounding_box.py:22-39 | fails with DimensionMismatch exactly when the lengths differ; succeeds exactly when the corners rebuild into valid intervals; the result is Interval(lb[i], ub[i]-lb[i]+1) for each i |
| Geometry.Volume | api/helpers/bounding_box.py:41-54 | 1 for a zero-dimensional box, 0 when any span is 0, never negative for a valid box, and at least 1 when every span is at least 1 |
| Geometry.VolumeZeroIff | api/helpers/bounding_box.py:54 | a valid box has volume 0 if and only if one of its spans is 0 |
| Geometry.VolumeOne | api/helpers/bounding_box.py:54 | a one-dimensional box has its span as volume |
| Geometry.VolumeCons | api/helpers/bounding_box.py:54 | adding a leading dimension multiplies the volume by its span, so with VolumeOne the volume is the product of the spans |
| Geometry.VolumeConcat | api/helpers/bounding_box.py:54 | the volume of two groups of dimensions together is the product of their volumes |
| Geometry.BoxRoundTrip | api/helpers/bounding_box.py:18-39 | box to corners to box returns the original intervals for every valid box, spans of 0 included |
| Geometry.CornersRoundTrip | api/helpers/bounding_box.py:18-39 | corners that rebuild into valid intervals come back unchanged through box and corners again |
| Geometry.ExampleBox | api/helpers/bounding_box.py:18-54 | the box [(1,2),(3,4)] has corners (1,3) and (2,6) and volume 8 |
| Geometry.ExampleEmptyExtent | api/helpers/bounding_box.py:37-39 | equal-length corners with ub one below lb give span 0 and no error; corners of different lengths fail |
| Naming.Qualify | api/helpers/dspaces_client.py:10-12 | an absent or empty namespace gives the name unchanged; otherwise the key is the namespace, a backslash, then the name, of length ns + 1 + name; the name is always a suffix |
| Naming.UnqualifyQualify | api/helpers/dspaces_client.py:11 | stripping the namespace from a key recovers the name |
| Naming.QualifyInjective | api/helpers/dspaces_client.py:11 | for a fixed namespace, equal keys come from equal names |
| Naming.AbsentAndEmptyAgree | api/helpers/dspaces_client.py:11 | an absent and an empty namespace give the same key, the bare name |
| Naming.SeparatorCollision | api/helpers/dspaces_client.py:11 | ("a", "b\c") and ("a\b", "c") share the key a\b\c |
| Naming.ExampleQualify | api/helpers/dspaces_client.py:11 | ("ns", "x") gives ns\x and (None, "x") gives x |
| Csv.IntToString | api/routes/dspaces_routes.py:95-99 | the rendering of an integer is non-empty, has no comma, and starts with a minus sign exactly when the integer is negative |
| Csv.ParseIntOfString | api/routes/dspaces_routes.py:95-96 | reading a rendered integer back gives the integer |
| Csv.Join | api/routes/dspaces_routes.py:97-99 | reading a comma-joined list of integers back gives the list, the empty list included |
| Services.BuildRef | api/services/dspaces_services/get_dspaces_obj.py:32-34 | the store reference carries the qualified key, the unchanged version, and the box's lower and upper corners |
| Services.GetObj | api/services/dspaces_services/get_dspaces_obj.py:31-34 | exactly one Get, with wait mode 0, on the qualified key, unchanged version and the box's corners; the store's answer, absent or not, is returned unchanged |
| Services.PutObj | api/services/dspaces_services/put_dspaces_obj.py:41-52 | a payload whose length is not volume times element size is refused with SizeMismatch and no store call; after the size check, an unregistered element type is refused with UnknownElementType and a payload shorter than volume times the registered width with BufferTooSmall, neither reaching the store; otherwise exactly one Put is made; a write happens only after the size check passes; the array written has the spans as shape, the registered type number and width, and as content the first volume-times-width bytes of the payload; its offset is the starts, not the corners; the key is qualified and the version unchanged; the outcome is the store's answer |
| Services.PutSizeExample | api/services/dspaces_services/put_dspaces_obj.py:43-44 | spans (2,4) with 4-byte elements accept exactly 32 bytes; 31 or 33 bytes are refused before any store call |
| Services.PExecObj | api/services/dspaces_services/pexec_dspaces_obj.py:38-42 | the blob is deserialised once, then Exec gets the qualified key, the version and the box's corners, and its answer is serialised; the result is never absent |
| Services.RequestRefs | api/services/dspaces_services/mpexec_dspaces_obj.py:14-23 | one reference per request, reference i built from request i, in order |
| Services.MPExecObj | api/services/dspaces_services/mpexec_dspaces_obj.py:13-25 | VecExec gets as many references as there are requests, in order; each has its request's qualified key, version and corners; the result is the serialised answer and never absent |
| Services.MultiMatchesSingle | api/services/dspaces_services/mpexec_dspaces_obj.py:15-23 | a one-request multi-exec hands the store the same reference as a single-object exec of that request |
| Services.EmptyMultiExec | api/services/dspaces_services/mpexec_dspaces_obj.py:14-24 | an empty request list still makes one VecExec call, with no references |
| Services.ObjectsFromListing | api/services/dspaces_services/get_dspaces_var_obj.py:22-31 | succeeds exactly when every listed entry's corners rebuild; then one object per entry in order, with name and version copied, namespace None and bounds rebuilt from the corners; on failure, the error is that of the first entry that does not rebuild |
| Services.GetVarObj | api/services/dspaces_services/get_dspaces_var_obj.py:19-31 | one listing call, on the qualified key, whose entries are converted in order |
| Routes.Escape | api/routes/dspaces_routes.py:83 | every ~ becomes /, every other character is kept in place, and the length is unchanged |
| Routes.EscapeIdempotent | api/routes/dspaces_routes.py:83 | escaping an escaped name changes nothing |
| Routes.EscapeFixedPoint | api/routes/dspaces_routes.py:83 | escaping leaves a name unchanged if and only if it holds no ~ |
| Routes.UpperBounds | api/routes/dspaces_routes.py:98 | one entry per dimension present in both the box and the returned shape; entry i is start i plus returned extent i minus 1 |
| Routes.ArrayHeaders | api/routes/dspaces_routes.py:94-100 | each header reads back as its value: the type number, the element width, the requested starts, the upper bounds computed from the returned shape, and the returned shape |
| Routes.UpperBoundsMatchCorners | api/routes/dspaces_routes.py:97-98 | when the returned shape equals the requested spans, the header upper bounds are the box's upper corners |
| Routes.ExampleProjectedRead | api/routes/dspaces_routes.py:97-99 | a 1-D answer of extent 2 to the box [(1,2),(3,4)] gives lower bounds "1,3", upper bounds "2" and dims "2" |
| Routes.DsGet | api/routes/dspaces_routes.py:83-103 | the read addresses the escaped, qualified name; 404 if and only if the store has no data; when it has data the answer is 200 with the array's bytes and the computed headers |
| Routes.DsPut | api/routes/dspaces_routes.py:187-192 | 200 "Stored data successfully" exactly when the service succeeds, 500 "put failed" otherwise; the route's store calls are exactly the service's, so a size mismatch reaches no store call and a write uses the unescaped qualified key |
| Routes.DsGetVars | api/routes/dspaces_routes.py:210-213 | 502 if and only if the store signals failure; otherwise the names, an empty list included |
| Routes.DsGetVarObjs | api/routes/dspaces_routes.py:257-261 | the listing is queried under the escaped, qualified name; 404 if and only if it is empty; an exception escapes if and only if some entry's corners do not rebuild; a non-empty listing that rebuilds answers 200 with exactly the converted objects |
| Routes.DsPExec | api/routes/dspaces_routes.py:333-347 | the escaped, qualified name reaches Exec; the answer is always 200 with the serialised result |
| Routes.DsMPExec | api/routes/dspaces_routes.py:394-404 | request names reach VecExec qualified but not escaped; the answer is always 200 with the serialised result |
| Routes.DsReg | api/routes/dspaces_routes.py:456-463 | a handle answers 200; a module error, a remote fault and a connection error each answer 500 with their own message; any other error escapes |
| Routes.GetEscapesOnce | api/routes/dspaces_routes.py:83-89 | reading a~b is exactly reading a/b |
| Routes.ListingEscapesOnce | api/routes/dspaces_routes.py:257-258 | listing a~b is exactly listing a/b |
| Routes.TildeSplitsReadAndWrite | api/routes/dspaces_routes.py:83-188 | the name a~b is read under the key of a/b, which differs from the key a~b is written under |
| Routes.PExecNothingIsNotNotFound | api/routes/dspaces_routes.py:333-343 | when the executed function returns None, the route still answers 200 with the serialised None, not 404 |
| Routes.RegistrationErrorsDistinct | api/routes/dspaces_routes.py:456-463 | two different named registration errors give the same status 500 but different messages |

## Left out

- The lazily created, process-wide store client and its configuration
  (`api/helpers/dspaces_client.py:4-8`, `api/config/*`): the store is an
  explicit `Client` value passed to every operation.
- The numeric type registry is a map from element type to type number and
  width. Numpy's reading of the buffer as a row-major array, and `tobytes`,
  are not modelled. An array is its shape, type number, width and bytes.
- Function serialisation: `loads` and `dumps` are uninterpreted functions. A
  blob that fails to deserialise is not modelled.
- JSON decoding is the `decode` parameter. Pydantic's type coercion and its
  error reports are not modelled; a failed construction is just an error
  value.
- Exceptions that store calls raise outside a `try` (Get, GetVars,
  GetObjVars, Exec, VecExec): each store answer is a total function. The Put
  and Register failures the routes catch are modelled.
- Route parameter annotations are not modelled: name and namespace length
  limits, `version >= 0`, `element_size > 0`, `element_type > 0`.
- The switch that enables the exec routes at all.
- Response media types, CORS, the logging of put errors, `api/main.py` and
  the default route.
- `get_dspaces_vars` and `reg_dspaces` are single pass-through store calls,
  so the routes call the store directly.
