/** Conversions between the start+span box form and the store's inclusive
    corner form, and the volume of a box. */
module Geometry {
  import opened Wrappers
  import opened Models

  /** The store's native region: inclusive lower and upper corner per dimension. */
  datatype Corners = Corners(lb: seq<int>, ub: seq<int>)

  /** Why corners could not be turned back into intervals. */
  datatype GeomError =
    | DimensionMismatch   // `lb` and `ub` differ in length
    | IntervalRejected    // a rebuilt interval breaks the field constraints

  /** The per-dimension starts, in order. */
  function Starts(bounds: seq<Interval>): (r: seq<int>)
    ensures |r| == |bounds|
    ensures forall i :: 0 <= i < |r| ==> r[i] == bounds[i].start
  {
    if |bounds| == 0 then [] else [bounds[0].start] + Starts(bounds[1..])
  }

  /** The per-dimension last cells, `start + span - 1`, in order. */
  function Ends(bounds: seq<Interval>): (r: seq<int>)
    ensures |r| == |bounds|
    ensures forall i :: 0 <= i < |r| ==> r[i] == bounds[i].start + bounds[i].span - 1
  {
    if |bounds| == 0 then [] else [bounds[0].start + bounds[0].span - 1] + Ends(bounds[1..])
  }

  /** The per-dimension spans, in order: the shape of a dense array over the box. */
  function Spans(bounds: seq<Interval>): (r: seq<int>)
    ensures |r| == |bounds|
    ensures forall i :: 0 <= i < |r| ==> r[i] == bounds[i].span
  {
    if |bounds| == 0 then [] else [bounds[0].span] + Spans(bounds[1..])
  }

  /** Lower and upper corners of a box. A span of 0 gives an upper corner one below the lower. */
  function CornersFromBounds(box: BoundingBox): (c: Corners)
    ensures |c.lb| == |c.ub| == box.Dims()
    ensures forall i :: 0 <= i < box.Dims() ==> c.lb[i] == box.bounds[i].start
    ensures forall i :: 0 <= i < box.Dims() ==> c.ub[i] == c.lb[i] + box.bounds[i].span - 1
    ensures forall i :: 0 <= i < box.Dims() && box.bounds[i].span == 0 ==> c.ub[i] == c.lb[i] - 1
  {
    Corners(Starts(box.bounds), Ends(box.bounds))
  }

  /** The intervals spanned by equal-length corners, before validation. */
  function IntervalsBetween(lb: seq<int>, ub: seq<int>): (r: seq<Interval>)
    requires |lb| == |ub|
    ensures |r| == |lb|
    ensures forall i :: 0 <= i < |r| ==> r[i].start == lb[i] && r[i].span == ub[i] - lb[i] + 1
  {
    if |lb| == 0 then [] else [Interval(lb[0], ub[0] - lb[0] + 1)] + IntervalsBetween(lb[1..], ub[1..])
  }

  /** Corners that rebuild into valid intervals: equal length, every lower
      corner at least -1 and every upper corner at least one below its lower. */
  predicate ValidCorners(lb: seq<int>, ub: seq<int>)
  {
    |lb| == |ub| && forall i :: 0 <= i < |lb| ==> lb[i] >= -1 && ub[i] >= lb[i] - 1
  }

  /** Intervals from corners. Corners of different lengths fail with
      `DimensionMismatch`; an interval that breaks the field constraints is
      refused when it is constructed. */
  function BoundsFromCorners(lb: seq<int>, ub: seq<int>): (r: Result<seq<Interval>, GeomError>)
    ensures |lb| != |ub| <==> r == Failure(DimensionMismatch)
    ensures r.Success? <==> ValidCorners(lb, ub)
    ensures r.Success? ==> |r.value| == |lb| && AllValid(r.value)
    ensures r.Success? ==> forall i :: 0 <= i < |lb| ==> r.value[i] == Interval(lb[i], ub[i] - lb[i] + 1)
  {
    if |lb| != |ub| then
      Failure(DimensionMismatch)
    else
      var bounds := IntervalsBetween(lb, ub);
      if AllValid(bounds) then Success(bounds) else Failure(IntervalRejected)
  }

  function Product(xs: seq<int>): int
  {
    if |xs| == 0 then 1 else xs[0] * Product(xs[1..])
  }

  /** The number of cells a box spans: the product of its spans. */
  function Volume(box: BoundingBox): (v: int)
    ensures box.Dims() == 0 ==> v == 1
    ensures (exists i :: 0 <= i < box.Dims() && box.bounds[i].span == 0) ==> v == 0
    ensures box.Valid() ==> v >= 0
    ensures box.Valid() && (forall i :: 0 <= i < box.Dims() ==> box.bounds[i].span >= 1) ==> v >= 1
  {
    var spans := Spans(box.bounds);
    ProductZero(spans);
    ProductSign(spans);
    Product(spans)
  }

  lemma {:induction false} ProductZero(xs: seq<int>)
    ensures (exists i :: 0 <= i < |xs| && xs[i] == 0) ==> Product(xs) == 0
  {
    if |xs| > 0 {
      ProductZero(xs[1..]);
      if xs[0] != 0 && exists i :: 0 <= i < |xs| && xs[i] == 0 {
        var i :| 0 <= i < |xs| && xs[i] == 0;
        assert xs[1..][i - 1] == 0;
      }
    }
  }

  lemma {:induction false} ProductSign(xs: seq<int>)
    ensures (forall i :: 0 <= i < |xs| ==> xs[i] >= 0) ==> Product(xs) >= 0
    ensures (forall i :: 0 <= i < |xs| ==> xs[i] >= 1) ==> Product(xs) >= 1
  {
    if |xs| > 0 {
      ProductSign(xs[1..]);
      assert forall i :: 0 <= i < |xs| - 1 ==> xs[1..][i] == xs[i + 1];
    }
  }

  lemma {:induction false} ProductConcat(xs: seq<int>, ys: seq<int>)
    ensures Product(xs + ys) == Product(xs) * Product(ys)
  {
    if |xs| == 0 {
      assert xs + ys == ys;
    } else {
      assert (xs + ys)[1..] == xs[1..] + ys;
      ProductConcat(xs[1..], ys);
    }
  }

  /** A one-dimensional box has its span as volume. */
  lemma VolumeOne(iv: Interval)
    ensures Volume(BoundingBox([iv])) == iv.span
  {
    assert Spans([iv]) == [iv.span];
    assert Product([iv.span]) == iv.span * Product([]);
  }

  /** Adding a leading dimension multiplies the volume by its span; with
      `VolumeOne` this pins the volume to the product of the spans. */
  lemma {:induction false} VolumeCons(iv: Interval, rest: seq<Interval>)
    ensures Volume(BoundingBox([iv] + rest)) == iv.span * Volume(BoundingBox(rest))
  {
    VolumeConcat([iv], rest);
    VolumeOne(iv);
  }

  /** A valid box has volume 0 exactly when one of its spans is 0. */
  lemma VolumeZeroIff(box: BoundingBox)
    requires box.Valid()
    ensures Volume(box) == 0 <==> exists i :: 0 <= i < box.Dims() && box.bounds[i].span == 0
  {
    if forall i :: 0 <= i < box.Dims() ==> box.bounds[i].span != 0 {
      assert forall i :: 0 <= i < box.Dims() ==> box.bounds[i].span >= 1;
    }
  }

  /** Volume is multiplicative over independent groups of dimensions. */
  lemma VolumeConcat(a: seq<Interval>, b: seq<Interval>)
    ensures Volume(BoundingBox(a + b)) == Volume(BoundingBox(a)) * Volume(BoundingBox(b))
  {
    assert Spans(a + b) == Spans(a) + Spans(b);
    ProductConcat(Spans(a), Spans(b));
  }

  /** Box to corners and back gives the box again, for every valid box,
      including spans of 0. */
  lemma BoxRoundTrip(box: BoundingBox)
    requires box.Valid()
    ensures BoundsFromCorners(CornersFromBounds(box).lb, CornersFromBounds(box).ub) == Success(box.bounds)
  {
    var c := CornersFromBounds(box);
    assert ValidCorners(c.lb, c.ub);
    assert BoundsFromCorners(c.lb, c.ub).value == box.bounds;
  }

  /** Corners to box and back gives the corners again whenever the rebuilt
      intervals are valid. */
  lemma CornersRoundTrip(lb: seq<int>, ub: seq<int>)
    requires ValidCorners(lb, ub)
    ensures BoundsFromCorners(lb, ub).Success?
    ensures CornersFromBounds(BoundingBox(BoundsFromCorners(lb, ub).value)) == Corners(lb, ub)
  {
    var c := CornersFromBounds(BoundingBox(BoundsFromCorners(lb, ub).value));
    assert c.lb == lb;
    assert c.ub == ub;
  }

  /** The box `[(1,2),(3,4)]`: corners (1,3)-(2,6) and 8 cells. */
  lemma ExampleBox()
    ensures CornersFromBounds(BoundingBox([Interval(1, 2), Interval(3, 4)])) == Corners([1, 3], [2, 6])
    ensures Volume(BoundingBox([Interval(1, 2), Interval(3, 4)])) == 8
  {
    var box := BoundingBox([Interval(1, 2), Interval(3, 4)]);
    assert Spans(box.bounds) == [2, 4];
    assert Product([2, 4]) == 2 * Product([4]);
  }

  /** Equal-length corners with an upper corner one below the lower are an
      empty extent, not an error. */
  lemma ExampleEmptyExtent()
    ensures BoundsFromCorners([0, 0], [1, -1]) == Success([Interval(0, 2), Interval(0, 0)])
    ensures BoundsFromCorners([0, 0], [1]) == Failure(DimensionMismatch)
  {
    assert ValidCorners([0, 0], [1, -1]);
    var r := BoundsFromCorners([0, 0], [1, -1]).value;
    assert r[0] == Interval(0, 2) && r[1] == Interval(0, 0);
    assert r == [Interval(0, 2), Interval(0, 0)];
  }
}
