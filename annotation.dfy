/** One annotation of one image (remo/domain/annotation.py): its classes and
    at most one geometry, a bounding box or a polygon segment. */
module Annotation {
  import opened Common

  const ImageClassificationTask := "image_classification"
  const ObjectDetectionTask := "object_detection"
  const InstanceSegmentationTask := "instance_segmentation"

  /** A `{'x': x, 'y': y}` point of a segment. */
  datatype Point = Point(x: int, y: int)

  /** `AnnotationObject.Bbox` and `AnnotationObject.Segment`. */
  datatype Geometry =
    | Bbox(xmin: int, ymin: int, xmax: int, ymax: int)
    | Segment(points: seq<Point>)

  /** The class-level `task` attribute of each geometry. */
  function GeometryTask(g: Geometry): (t: string)
    ensures t == ObjectDetectionTask <==> g.Bbox?
    ensures t == InstanceSegmentationTask <==> g.Segment?
    ensures t != ImageClassificationTask
  {
    match g
    case Bbox(_, _, _, _) => ObjectDetectionTask
    case Segment(_) => InstanceSegmentationTask
  }

  /** The `object` argument of the constructor: a geometry, a falsy value
      (None and the like) or some other truthy value. */
  datatype ObjectArg = Given(geometry: Geometry) | Falsy | Foreign

  /** The `classes` argument: a list, or a single value. */
  datatype ClassesArg = ClassList(items: seq<string>) | Single(name: string)

  datatype AnnotationError = UnexpectedObjectType | BboxArity | EmptySegment | OddSegment

  /** `classes if isinstance(classes, list) else [classes]`. */
  function NormalizeClasses(classes: ClassesArg): (r: seq<string>)
    ensures classes.ClassList? ==> r == classes.items
    ensures classes.Single? ==> |r| == 1 && r[0] == classes.name
  {
    match classes
    case ClassList(items) => items
    case Single(name) => [name]
  }

  // ---------------------------------------------------------------------
  // Pairing the coordinates of a segment
  // ---------------------------------------------------------------------

  /** `p[::2]`. */
  function Evens(p: seq<int>): (r: seq<int>)
    ensures |r| == (|p| + 1) / 2
    ensures forall i :: 0 <= i < |r| ==> r[i] == p[2 * i]
  {
    if |p| <= 1 then p else [p[0]] + Evens(p[2..])
  }

  /** `p[1::2]`. */
  function Odds(p: seq<int>): (r: seq<int>)
    ensures |r| == |p| / 2
    ensures forall i :: 0 <= i < |r| ==> r[i] == p[2 * i + 1]
  {
    if |p| <= 1 then [] else Evens(p[1..])
  }

  /** `[{'x': x, 'y': y} for x, y in zip(xs, ys)]`: as long as the shorter. */
  function ZipPoints(xs: seq<int>, ys: seq<int>): (r: seq<Point>)
    ensures |r| == if |xs| < |ys| then |xs| else |ys|
    ensures forall i :: 0 <= i < |r| ==> r[i] == Point(xs[i], ys[i])
  {
    if xs == [] || ys == [] then [] else [Point(xs[0], ys[0])] + ZipPoints(xs[1..], ys[1..])
  }

  /** The points `Segment(points)` stores: `2k` coordinates give `k`
      points, point `i` being `(p[2i], p[2i+1])`; an odd trailing coordinate
      is dropped by `zip`. */
  function SegmentPoints(p: seq<int>): (r: seq<Point>)
    ensures |r| == |p| / 2
    ensures forall i :: 0 <= i < |r| ==> r[i] == Point(p[2 * i], p[2 * i + 1])
  {
    ZipPoints(Evens(p), Odds(p))
  }

  /** The coordinates `[x0, y0, x1, y1, …]` of a list of points. */
  function Coordinates(points: seq<Point>): (r: seq<int>)
    ensures |r| == 2 * |points|
    ensures forall i :: 0 <= i < |points| ==> r[2 * i] == points[i].x && r[2 * i + 1] == points[i].y
  {
    if points == [] then [] else [points[0].x, points[0].y] + Coordinates(points[1..])
  }

  /** Pairing an even-length list and flattening the points again gives
      the list back. */
  lemma SegmentRoundTrip(p: seq<int>)
    requires |p| % 2 == 0
    ensures Coordinates(SegmentPoints(p)) == p
  {
    var points := SegmentPoints(p);
    var r := Coordinates(points);
    assert |r| == |p|;
    forall k | 0 <= k < |p| ensures r[k] == p[k] {
      var i := k / 2;
      assert points[i] == Point(p[2 * i], p[2 * i + 1]);
      if k % 2 == 0 {
        assert k == 2 * i;
      } else {
        assert k == 2 * i + 1;
      }
    }
  }

  /** Flattening points and pairing the coordinates again gives the points
      back. */
  lemma PointsRoundTrip(points: seq<Point>)
    ensures SegmentPoints(Coordinates(points)) == points
  {
  }

  // ---------------------------------------------------------------------
  // AnnotationObject
  // ---------------------------------------------------------------------

  class AnnotationObject {
    const filename: string
    const classes: seq<string>
    /** `self.object`; a falsy value is held as `None`, which every reader
        treats alike. */
    var obj: Option<Geometry>

    constructor (filename: string, classes: seq<string>, obj: Option<Geometry>)
      ensures this.filename == filename && this.classes == classes && this.obj == obj
    {
      this.filename := filename;
      this.classes := classes;
      this.obj := obj;
    }

    /** `AnnotationObject(img_filename, classes, object)`: raises before
        building anything when a truthy `object` is not a geometry. */
    static method Create(imgFilename: string, classes: ClassesArg, obj: ObjectArg)
      returns (r: Result<AnnotationObject, AnnotationError>)
      ensures r.Err? <==> obj.Foreign?
      ensures r.Err? ==> r.error == UnexpectedObjectType
      ensures r.Ok? ==> fresh(r.value) && r.value.filename == imgFilename
      ensures r.Ok? ==> r.value.classes == NormalizeClasses(classes)
      ensures r.Ok? ==> r.value.obj == (if obj.Given? then Some(obj.geometry) else None)
    {
      if obj.Foreign? {
        return Err(UnexpectedObjectType);
      }
      var o := new AnnotationObject(imgFilename, NormalizeClasses(classes), if obj.Given? then Some(obj.geometry) else None);
      r := Ok(o);
    }

    /** The `task` property: image classification without an object, else
        the object's own task. */
    function Task(): (t: string)
      reads this
      ensures t == ImageClassificationTask <==> obj.None?
      ensures t == ObjectDetectionTask <==> obj.Some? && obj.value.Bbox?
      ensures t == InstanceSegmentationTask <==> obj.Some? && obj.value.Segment?
    {
      match obj
      case None => ImageClassificationTask
      case Some(g) => GeometryTask(g)
    }

    /** The `bbox` getter: the object when it is a box, else `None`. */
    function BboxValue(): (r: Option<Geometry>)
      reads this
      ensures r.Some? <==> obj.Some? && obj.value.Bbox?
      ensures r.Some? ==> r == obj
    {
      if obj.Some? && obj.value.Bbox? then obj else None
    }

    /** The `segment` getter: the object when it is a segment, else `None`. */
    function SegmentValue(): (r: Option<Geometry>)
      reads this
      ensures r.Some? <==> obj.Some? && obj.value.Segment?
      ensures r.Some? ==> r == obj
    {
      if obj.Some? && obj.value.Segment? then obj else None
    }

    /** The `bbox` setter: exactly four values, stored in order as
        `xmin, ymin, xmax, ymax`; otherwise raises and changes nothing. */
    method SetBbox(values: seq<int>) returns (r: Result<(), AnnotationError>)
      modifies this
      ensures |values| != 4 ==> r == Err(BboxArity) && obj == old(obj)
      ensures |values| == 4 ==> r == Ok(()) && obj == Some(Bbox(values[0], values[1], values[2], values[3]))
      ensures r.Ok? ==> Task() == ObjectDetectionTask && SegmentValue() == None && BboxValue().Some?
    {
      if |values| != 4 {
        return Err(BboxArity);
      }
      obj := Some(Bbox(values[0], values[1], values[2], values[3]));
      r := Ok(());
    }

    /** The `segment` setter: a non-empty, even-length list, paired into
        points; otherwise raises and changes nothing. */
    method SetSegment(points: seq<int>) returns (r: Result<(), AnnotationError>)
      modifies this
      ensures points == [] ==> r == Err(EmptySegment) && obj == old(obj)
      ensures points != [] && |points| % 2 == 1 ==> r == Err(OddSegment) && obj == old(obj)
      ensures points != [] && |points| % 2 == 0 ==> r == Ok(()) && obj == Some(Segment(SegmentPoints(points)))
      ensures r.Ok? ==> Task() == InstanceSegmentationTask && BboxValue() == None
      ensures r.Ok? ==> SegmentValue().Some? && Coordinates(SegmentValue().value.points) == points
    {
      if points == [] {
        return Err(EmptySegment);
      }
      if |points| % 2 == 1 {
        return Err(OddSegment);
      }
      SegmentRoundTrip(points);
      obj := Some(Segment(SegmentPoints(points)));
      r := Ok(());
    }
  }
}
