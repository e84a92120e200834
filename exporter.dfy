/** Writing annotation results, as the server returns them in JSON, to CSV
    rows (remo/exporter.py). Every scalar is held as the text the CSV writer
    puts in its cell. */
module Exporter {
  import opened Common

  /** The task names of remo/domain/task.py that key the exporters. */
  const ObjectDetectionName := "Object detection"
  const InstanceSegmentationName := "Instance segmentation"
  const ImageClassificationName := "Image classification"

  /** One annotation object of an image: its classes, the values of its
      `bbox` dictionary and, for each point of its segment, that point's
      values. */
  datatype ObjectRecord = ObjectRecord(classes: seq<string>, bbox: seq<string>, segments: seq<seq<string>>)

  /** One image of the results. */
  datatype ImageRecord = ImageRecord(fileName: string, annotations: seq<ObjectRecord>, classes: seq<string>,
                                     height: string, width: string)

  datatype Exporter = ObjectDetection | InstanceSegmentation | ImageClassification

  /** `csv_writer`: the rows written so far. */
  class CsvWriter {
    var rows: seq<seq<string>>

    constructor ()
      ensures rows == []
    {
      rows := [];
    }

    method WriteRow(row: seq<string>)
      modifies this
      ensures rows == old(rows) + [row]
    {
      rows := rows + [row];
    }
  }

  /** The header row each exporter writes first: the file name and the
      class lead, and no column name repeats. */
  function Header(e: Exporter): (r: seq<string>)
    ensures |r| >= 2 && r[0] == "file_name" && r[1] == "class"
    ensures NoDuplicates(r)
  {
    match e
    case ObjectDetection => ["file_name", "class", "xmin", "ymin", "xmax", "ymax", "height", "width"]
    case InstanceSegmentation => ["file_name", "class", "coordinates"]
    case ImageClassification => ["file_name", "class"]
  }

  /** `' '.join(map(str, values))` over every value of every point. */
  function SegmentCoordinates(obj: ObjectRecord): string
  {
    Join(Flatten(obj.segments), ' ')
  }

  /** The row written for one class of one object. */
  function ObjectRow(e: Exporter, img: ImageRecord, obj: ObjectRecord, cls: string): seq<string>
    requires !e.ImageClassification?
  {
    if e.ObjectDetection? then [img.fileName, cls] + obj.bbox + [img.height, img.width]
    else [img.fileName, cls, SegmentCoordinates(obj)]
  }

  /** The rows for the classes `classes` of one object, in order. */
  function ClassRows(e: Exporter, img: ImageRecord, obj: ObjectRecord, classes: seq<string>): seq<seq<string>>
    requires !e.ImageClassification?
  {
    if classes == [] then []
    else ClassRows(e, img, obj, classes[..|classes| - 1]) + [ObjectRow(e, img, obj, classes[|classes| - 1])]
  }

  /** The rows for the objects `objects` of one image, in order. */
  function ObjectRows(e: Exporter, img: ImageRecord, objects: seq<ObjectRecord>): seq<seq<string>>
    requires !e.ImageClassification?
  {
    if objects == [] then []
    else
      var obj := objects[|objects| - 1];
      ObjectRows(e, img, objects[..|objects| - 1]) + ClassRows(e, img, obj, obj.classes)
  }

  /** The `[file_name, class]` row of one class of an image. */
  function ClassRow(img: ImageRecord, cls: string): seq<string>
  {
    [img.fileName, cls]
  }

  /** The rows for the classes `classes` of one image (classification). */
  function ImageClassRows(img: ImageRecord, classes: seq<string>): seq<seq<string>>
  {
    if classes == [] then []
    else ImageClassRows(img, classes[..|classes| - 1]) + [ClassRow(img, classes[|classes| - 1])]
  }

  /** The rows one image contributes. */
  function ImageRows(e: Exporter, img: ImageRecord): seq<seq<string>>
  {
    if e.ImageClassification? then ImageClassRows(img, img.classes) else ObjectRows(e, img, img.annotations)
  }

  /** The data rows for `images`, image by image. */
  function Rows(e: Exporter, images: seq<ImageRecord>): seq<seq<string>>
  {
    if images == [] then [] else Rows(e, images[..|images| - 1]) + ImageRows(e, images[|images| - 1])
  }

  lemma RowsSnoc(e: Exporter, images: seq<ImageRecord>, i: nat)
    requires i < |images|
    ensures Rows(e, images[..i + 1]) == Rows(e, images[..i]) + ImageRows(e, images[i])
  {
    assert images[..i + 1][..i] == images[..i];
  }

  /** Appending rows after rows: `a + b + c` however it is grouped. */
  lemma AppendAssoc(a: seq<seq<string>>, b: seq<seq<string>>, c: seq<seq<string>>)
    ensures a + b + c == a + (b + c)
  {
  }

  lemma ObjectRowsSnoc(e: Exporter, img: ImageRecord, objects: seq<ObjectRecord>, j: nat)
    requires !e.ImageClassification? && j < |objects|
    ensures ObjectRows(e, img, objects[..j + 1]) == ObjectRows(e, img, objects[..j]) + ClassRows(e, img, objects[j], objects[j].classes)
  {
    assert objects[..j + 1][..j] == objects[..j];
  }

  // ---------------------------------------------------------------------
  // What the rows are
  // ---------------------------------------------------------------------

  /** The rows of consecutive runs of images follow each other: the file is
      written image by image, in the order the results list them. */
  lemma {:induction false} RowsAppend(e: Exporter, a: seq<ImageRecord>, b: seq<ImageRecord>)
    ensures Rows(e, a + b) == Rows(e, a) + Rows(e, b)
  {
    if b == [] {
      assert a + b == a;
    } else {
      var init := b[..|b| - 1];
      assert (a + b)[..|a + b| - 1] == a + init;
      assert (a + b)[|a + b| - 1] == b[|b| - 1];
      RowsAppend(e, a, init);
      AppendAssoc(Rows(e, a), Rows(e, init), ImageRows(e, b[|b| - 1]));
    }
  }

  /** The number of classes over a list of objects. */
  function ClassTotal(objects: seq<ObjectRecord>): nat
  {
    if objects == [] then 0 else |objects[0].classes| + ClassTotal(objects[1..])
  }

  /** How many rows one image contributes: one per class of the image for
      classification, one per class of each object otherwise. */
  function ImageRowCount(e: Exporter, img: ImageRecord): nat
  {
    if e.ImageClassification? then |img.classes| else ClassTotal(img.annotations)
  }

  /** How many data rows a list of images gives. */
  function RowCount(e: Exporter, images: seq<ImageRecord>): nat
  {
    if images == [] then 0 else ImageRowCount(e, images[0]) + RowCount(e, images[1..])
  }

  lemma {:induction false} ClassTotalSnoc(objects: seq<ObjectRecord>, obj: ObjectRecord)
    ensures ClassTotal(objects + [obj]) == ClassTotal(objects) + |obj.classes|
  {
    if objects != [] {
      assert (objects + [obj])[1..] == objects[1..] + [obj];
      ClassTotalSnoc(objects[1..], obj);
    }
  }

  lemma {:induction false} RowCountSnoc(e: Exporter, images: seq<ImageRecord>, img: ImageRecord)
    ensures RowCount(e, images + [img]) == RowCount(e, images) + ImageRowCount(e, img)
  {
    if images != [] {
      assert (images + [img])[1..] == images[1..] + [img];
      RowCountSnoc(e, images[1..], img);
    }
  }

  lemma {:induction false} ClassRowsLength(e: Exporter, img: ImageRecord, obj: ObjectRecord, classes: seq<string>)
    requires !e.ImageClassification?
    ensures |ClassRows(e, img, obj, classes)| == |classes|
  {
    if classes != [] {
      ClassRowsLength(e, img, obj, classes[..|classes| - 1]);
    }
  }

  lemma {:induction false} ImageClassRowsLength(img: ImageRecord, classes: seq<string>)
    ensures |ImageClassRows(img, classes)| == |classes|
  {
    if classes != [] {
      ImageClassRowsLength(img, classes[..|classes| - 1]);
    }
  }

  lemma {:induction false} ObjectRowsLength(e: Exporter, img: ImageRecord, objects: seq<ObjectRecord>)
    requires !e.ImageClassification?
    ensures |ObjectRows(e, img, objects)| == ClassTotal(objects)
  {
    if objects != [] {
      var init, obj := objects[..|objects| - 1], objects[|objects| - 1];
      ObjectRowsLength(e, img, init);
      ClassRowsLength(e, img, obj, obj.classes);
      assert init + [obj] == objects;
      ClassTotalSnoc(init, obj);
    }
  }

  /** The file has one data row per class: per class of each image for
      classification, per class of each object for the other two. */
  lemma {:induction false} RowsLength(e: Exporter, images: seq<ImageRecord>)
    ensures |Rows(e, images)| == RowCount(e, images)
  {
    if images != [] {
      var init, img := images[..|images| - 1], images[|images| - 1];
      RowsLength(e, init);
      if e.ImageClassification? {
        ImageClassRowsLength(img, img.classes);
      } else {
        ObjectRowsLength(e, img, img.annotations);
      }
      assert init + [img] == images;
      RowCountSnoc(e, init, img);
    }
  }

  /** `row` is one that `img` gives rise to: a `[file_name, class]` row for
      one of its classes (classification), or the row of one class of one
      of its objects. */
  ghost predicate Produces(e: Exporter, img: ImageRecord, row: seq<string>)
  {
    if e.ImageClassification? then exists cls :: cls in img.classes && row == ClassRow(img, cls)
    else exists obj, cls :: obj in img.annotations && cls in obj.classes && row == ObjectRow(e, img, obj, cls)
  }

  lemma {:induction false} ClassRowsMembers(e: Exporter, img: ImageRecord, obj: ObjectRecord, classes: seq<string>, row: seq<string>)
    requires !e.ImageClassification?
    ensures row in ClassRows(e, img, obj, classes) <==> exists cls :: cls in classes && row == ObjectRow(e, img, obj, cls)
  {
    if classes != [] {
      var init, last := classes[..|classes| - 1], classes[|classes| - 1];
      ClassRowsMembers(e, img, obj, init, row);
      assert ClassRows(e, img, obj, classes) == ClassRows(e, img, obj, init) + [ObjectRow(e, img, obj, last)];
      assert classes == init + [last];
      if row in ClassRows(e, img, obj, init) {
        var cls :| cls in init && row == ObjectRow(e, img, obj, cls);
        assert cls in classes;
      }
      if exists cls :: cls in classes && row == ObjectRow(e, img, obj, cls) {
        var cls :| cls in classes && row == ObjectRow(e, img, obj, cls);
        if cls != last {
          assert cls in init;
        }
      }
    }
  }

  lemma {:induction false} ImageClassRowsMembers(img: ImageRecord, classes: seq<string>, row: seq<string>)
    ensures row in ImageClassRows(img, classes) <==> exists cls :: cls in classes && row == ClassRow(img, cls)
  {
    if classes != [] {
      var init, last := classes[..|classes| - 1], classes[|classes| - 1];
      ImageClassRowsMembers(img, init, row);
      assert ImageClassRows(img, classes) == ImageClassRows(img, init) + [ClassRow(img, last)];
      assert classes == init + [last];
      if row in ImageClassRows(img, init) {
        var cls :| cls in init && row == ClassRow(img, cls);
        assert cls in classes;
      }
      if exists cls :: cls in classes && row == ClassRow(img, cls) {
        var cls :| cls in classes && row == ClassRow(img, cls);
        if cls != last {
          assert cls in init;
        }
      }
    }
  }

  lemma {:induction false} ObjectRowsMembers(e: Exporter, img: ImageRecord, objects: seq<ObjectRecord>, row: seq<string>)
    requires !e.ImageClassification?
    ensures row in ObjectRows(e, img, objects) <==>
      exists obj, cls :: obj in objects && cls in obj.classes && row == ObjectRow(e, img, obj, cls)
  {
    if objects != [] {
      var init, last := objects[..|objects| - 1], objects[|objects| - 1];
      ObjectRowsMembers(e, img, init, row);
      ClassRowsMembers(e, img, last, last.classes, row);
      assert ObjectRows(e, img, objects) == ObjectRows(e, img, init) + ClassRows(e, img, last, last.classes);
      assert objects == init + [last];
      if row in ObjectRows(e, img, init) {
        var obj, cls :| obj in init && cls in obj.classes && row == ObjectRow(e, img, obj, cls);
        assert obj in objects;
      }
      if exists obj, cls :: obj in objects && cls in obj.classes && row == ObjectRow(e, img, obj, cls) {
        var obj, cls :| obj in objects && cls in obj.classes && row == ObjectRow(e, img, obj, cls);
        if obj != last {
          assert obj in init;
        }
      }
    }
  }

  lemma ImageRowsMembers(e: Exporter, img: ImageRecord, row: seq<string>)
    ensures row in ImageRows(e, img) <==> Produces(e, img, row)
  {
    if e.ImageClassification? {
      ImageClassRowsMembers(img, img.classes, row);
    } else {
      ObjectRowsMembers(e, img, img.annotations, row);
    }
  }

  /** A row is in the file exactly when one of the images gives rise to
      it: nothing is lost and nothing is made up. */
  lemma {:induction false} RowsMembers(e: Exporter, images: seq<ImageRecord>, row: seq<string>)
    ensures row in Rows(e, images) <==> exists img :: img in images && Produces(e, img, row)
  {
    if images != [] {
      var init, last := images[..|images| - 1], images[|images| - 1];
      RowsMembers(e, init, row);
      ImageRowsMembers(e, last, row);
      assert Rows(e, images) == Rows(e, init) + ImageRows(e, last);
      assert images == init + [last];
      if row in Rows(e, init) {
        var img :| img in init && Produces(e, img, row);
        assert img in images;
      }
      if exists img :: img in images && Produces(e, img, row) {
        var img :| img in images && Produces(e, img, row);
        if img != last {
          assert img in init;
        }
      }
    }
  }

  /** Every data row has one cell per header column; for object detection
      that takes every box to have its four values. */
  lemma RowsMatchHeader(e: Exporter, images: seq<ImageRecord>)
    requires e.ObjectDetection? ==>
      forall img, obj :: img in images && obj in img.annotations ==> |obj.bbox| == 4
    ensures forall row :: row in Rows(e, images) ==> |row| == |Header(e)|
  {
    forall row | row in Rows(e, images) ensures |row| == |Header(e)| {
      RowsMembers(e, images, row);
      var img :| img in images && Produces(e, img, row);
      if !e.ImageClassification? {
        var obj, cls :| obj in img.annotations && cls in obj.classes && row == ObjectRow(e, img, obj, cls);
      }
    }
  }

  /** When no value of a point holds a space and there is at least one
      value, splitting the `coordinates` cell at spaces gives back every
      value of every point, in order. */
  lemma CoordinatesRoundTrip(obj: ObjectRecord)
    requires exists i :: 0 <= i < |obj.segments| && obj.segments[i] != []
    requires forall i, j :: 0 <= i < |obj.segments| && 0 <= j < |obj.segments[i]| ==> ' ' !in obj.segments[i][j]
    ensures Split(SegmentCoordinates(obj), ' ') == Flatten(obj.segments)
  {
    var values := Flatten(obj.segments);
    forall k | 0 <= k < |values| ensures ' ' !in values[k] {
      FlattenMembers(obj.segments, values[k]);
      var i :| 0 <= i < |obj.segments| && values[k] in obj.segments[i];
      var j :| 0 <= j < |obj.segments[i]| && obj.segments[i][j] == values[k];
    }
    var i :| 0 <= i < |obj.segments| && obj.segments[i] != [];
    FlattenMembers(obj.segments, obj.segments[i][0]);
    SplitJoin(values, ' ');
  }

  // ---------------------------------------------------------------------
  // The three exporters
  // ---------------------------------------------------------------------

  /** `export_object_detection_json_to_csv`: the header, then the rows of
      each image in turn. */
  method ExportObjectDetection(annotationResults: seq<ImageRecord>, csvWriter: CsvWriter)
    modifies csvWriter
    ensures csvWriter.rows == old(csvWriter.rows) + [Header(ObjectDetection)] + Rows(ObjectDetection, annotationResults)
  {
    var header := Header(ObjectDetection);
    csvWriter.WriteRow(header);
    ghost var start := csvWriter.rows;
    for i := 0 to |annotationResults|
      invariant csvWriter.rows == start + Rows(ObjectDetection, annotationResults[..i])
    {
      RowsSnoc(ObjectDetection, annotationResults, i);
      AppendAssoc(start, Rows(ObjectDetection, annotationResults[..i]), ImageRows(ObjectDetection, annotationResults[i]));
      WriteDetectionImage(annotationResults[i], csvWriter);
    }
    assert annotationResults[..|annotationResults|] == annotationResults;
  }

  /** The loop over the objects of one image. */
  method WriteDetectionImage(img: ImageRecord, csvWriter: CsvWriter)
    modifies csvWriter
    ensures csvWriter.rows == old(csvWriter.rows) + ObjectRows(ObjectDetection, img, img.annotations)
  {
    var objects := img.annotations;
    ghost var start := csvWriter.rows;
    for j := 0 to |objects|
      invariant csvWriter.rows == start + ObjectRows(ObjectDetection, img, objects[..j])
    {
      ObjectRowsSnoc(ObjectDetection, img, objects, j);
      AppendAssoc(start, ObjectRows(ObjectDetection, img, objects[..j]), ClassRows(ObjectDetection, img, objects[j], objects[j].classes));
      WriteDetectionObject(img, objects[j], csvWriter);
    }
    assert objects[..|objects|] == objects;
  }

  /** The loop over the classes of one object: one row per class. */
  method WriteDetectionObject(img: ImageRecord, obj: ObjectRecord, csvWriter: CsvWriter)
    modifies csvWriter
    ensures csvWriter.rows == old(csvWriter.rows) + ClassRows(ObjectDetection, img, obj, obj.classes)
  {
    var classes := obj.classes;
    var bbox := obj.bbox;
    ghost var start := csvWriter.rows;
    for k := 0 to |classes|
      invariant csvWriter.rows == start + ClassRows(ObjectDetection, img, obj, classes[..k])
    {
      assert classes[..k + 1][..k] == classes[..k];
      AppendAssoc(start, ClassRows(ObjectDetection, img, obj, classes[..k]), [ObjectRow(ObjectDetection, img, obj, classes[k])]);
      csvWriter.WriteRow([img.fileName, classes[k]] + bbox + [img.height, img.width]);
    }
    assert classes[..|classes|] == classes;
  }

  /** `export_instance_segmentation_json_to_csv`: the header, then the rows
      of each image in turn. */
  method ExportInstanceSegmentation(annotationResults: seq<ImageRecord>, csvWriter: CsvWriter)
    modifies csvWriter
    ensures csvWriter.rows == old(csvWriter.rows) + [Header(InstanceSegmentation)] + Rows(InstanceSegmentation, annotationResults)
  {
    var header := Header(InstanceSegmentation);
    csvWriter.WriteRow(header);
    ghost var start := csvWriter.rows;
    for i := 0 to |annotationResults|
      invariant csvWriter.rows == start + Rows(InstanceSegmentation, annotationResults[..i])
    {
      RowsSnoc(InstanceSegmentation, annotationResults, i);
      AppendAssoc(start, Rows(InstanceSegmentation, annotationResults[..i]), ImageRows(InstanceSegmentation, annotationResults[i]));
      WriteSegmentationImage(annotationResults[i], csvWriter);
    }
    assert annotationResults[..|annotationResults|] == annotationResults;
  }

  /** The loop over the objects of one image. */
  method WriteSegmentationImage(img: ImageRecord, csvWriter: CsvWriter)
    modifies csvWriter
    ensures csvWriter.rows == old(csvWriter.rows) + ObjectRows(InstanceSegmentation, img, img.annotations)
  {
    var objects := img.annotations;
    ghost var start := csvWriter.rows;
    for j := 0 to |objects|
      invariant csvWriter.rows == start + ObjectRows(InstanceSegmentation, img, objects[..j])
    {
      ObjectRowsSnoc(InstanceSegmentation, img, objects, j);
      AppendAssoc(start, ObjectRows(InstanceSegmentation, img, objects[..j]), ClassRows(InstanceSegmentation, img, objects[j], objects[j].classes));
      WriteSegmentationObject(img, objects[j], csvWriter);
    }
    assert objects[..|objects|] == objects;
  }

  /** The coordinates of one object, then one row per class. */
  method WriteSegmentationObject(img: ImageRecord, obj: ObjectRecord, csvWriter: CsvWriter)
    modifies csvWriter
    ensures csvWriter.rows == old(csvWriter.rows) + ClassRows(InstanceSegmentation, img, obj, obj.classes)
  {
    var classes := obj.classes;
    var values := Flatten(obj.segments);
    var coordinates := Join(values, ' ');
    ghost var start := csvWriter.rows;
    for k := 0 to |classes|
      invariant csvWriter.rows == start + ClassRows(InstanceSegmentation, img, obj, classes[..k])
    {
      assert classes[..k + 1][..k] == classes[..k];
      AppendAssoc(start, ClassRows(InstanceSegmentation, img, obj, classes[..k]), [ObjectRow(InstanceSegmentation, img, obj, classes[k])]);
      csvWriter.WriteRow([img.fileName, classes[k], coordinates]);
    }
    assert classes[..|classes|] == classes;
  }

  /** `export_image_classification_json_to_csv`. */
  method ExportImageClassification(annotationResults: seq<ImageRecord>, csvWriter: CsvWriter)
    modifies csvWriter
    ensures csvWriter.rows == old(csvWriter.rows) + [Header(ImageClassification)] + Rows(ImageClassification, annotationResults)
  {
    var header := Header(ImageClassification);
    csvWriter.WriteRow(header);
    ghost var start := csvWriter.rows;
    for i := 0 to |annotationResults|
      invariant csvWriter.rows == start + Rows(ImageClassification, annotationResults[..i])
    {
      RowsSnoc(ImageClassification, annotationResults, i);
      AppendAssoc(start, Rows(ImageClassification, annotationResults[..i]), ImageRows(ImageClassification, annotationResults[i]));
      WriteClassificationImage(annotationResults[i], csvWriter);
    }
    assert annotationResults[..|annotationResults|] == annotationResults;
  }

  /** The loop over the classes of one image: one row per class. */
  method WriteClassificationImage(img: ImageRecord, csvWriter: CsvWriter)
    modifies csvWriter
    ensures csvWriter.rows == old(csvWriter.rows) + ImageClassRows(img, img.classes)
  {
    var classes := img.classes;
    ghost var start := csvWriter.rows;
    for k := 0 to |classes|
      invariant csvWriter.rows == start + ImageClassRows(img, classes[..k])
    {
      assert classes[..k + 1][..k] == classes[..k];
      AppendAssoc(start, ImageClassRows(img, classes[..k]), [ClassRow(img, classes[k])]);
      csvWriter.WriteRow(ClassRow(img, classes[k]));
    }
    assert classes[..|classes|] == classes;
  }

  /** Runs the exporter `get_json_to_csv_exporter` handed out. */
  method Export(e: Exporter, annotationResults: seq<ImageRecord>, csvWriter: CsvWriter)
    modifies csvWriter
    ensures csvWriter.rows == old(csvWriter.rows) + [Header(e)] + Rows(e, annotationResults)
  {
    match e
    case ObjectDetection => ExportObjectDetection(annotationResults, csvWriter);
    case InstanceSegmentation => ExportInstanceSegmentation(annotationResults, csvWriter);
    case ImageClassification => ExportImageClassification(annotationResults, csvWriter);
  }

  // ---------------------------------------------------------------------
  // Dispatch by task
  // ---------------------------------------------------------------------

  /** The task name each exporter is registered under. */
  function TaskName(e: Exporter): string
  {
    match e
    case ObjectDetection => ObjectDetectionName
    case InstanceSegmentation => InstanceSegmentationName
    case ImageClassification => ImageClassificationName
  }

  /** `json_to_csv_exporters.get(annotation_task)`. */
  function GetJsonToCsvExporter(annotationTask: string): (r: Option<Exporter>)
    ensures r.Some? ==> TaskName(r.value) == annotationTask
    ensures r.None? <==> annotationTask !in {ObjectDetectionName, InstanceSegmentationName, ImageClassificationName}
  {
    if annotationTask == ObjectDetectionName then Some(ObjectDetection)
    else if annotationTask == InstanceSegmentationName then Some(InstanceSegmentation)
    else if annotationTask == ImageClassificationName then Some(ImageClassification)
    else None
  }

  /** Each exporter is found under its own task name, so the three names
      name three different exporters. */
  lemma ExporterLookupInverse(e: Exporter)
    ensures GetJsonToCsvExporter(TaskName(e)) == Some(e)
  {
  }
}
