# remo-python SDK: a verified model of its local data preparation

This project models, in Dafny, the part of the remo Python SDK that runs locally before
and around its HTTP calls. It also proves what that code promises.

- **Input resolution** (`remo/utils.py`).
  - The extension tests, with lower-cased extensions and dot-files ignored.
  - `FileResolver`, which checks the given files, walks the given directories, and keeps
    images, annotations and archives as sets of canonical paths.
  - The filesystem is a map from path to entry, and `realpath(abspath(p))` is a given
    function `canon`.
- **Upload bookkeeping** (`remo/api.py`).
  - `split_files_by_size`, which closes a batch once it reaches 8 MiB, and `chunks`.
  - The `UploadStatus` counter and its progress lines.
  - The payloads of `upload_local_files` / `upload_urls`, the token guard, and `login`.
  - `upload_files` and `bulk_upload_files`, with the HTTP exchange given as a function
    from request to response.
- **Annotation objects** (`remo/domain/annotation.py`). The class normalisation, the bbox
  and segment setters and their checks, the pairing of coordinates into points, and the
  task derived from the geometry.
- **Class encodings** (`remo/domain/class_encodings.py`). `for_linking`, and `for_upload`
  rewriting `classes` / `local_path` into `raw_content`.
- **CSV export** (`remo/exporter.py`). The three exporters write into a CSV writer held as
  a sequence of rows. The lookup maps a task name to its exporter.

Modules:

| file | module |
|---|---|
| `common.dfy` | `Common` (Option, Result, list flattening, join/split) |
| `utils.dfy` | `Utils` |
| `api.dfy` | `Api` |
| `annotation.dfy` | `Annotation` |
| `class_encodings.dfy` | `ClassEncodings` |
| `exporter.dfy` | `Exporter` |

Where code that updates state in place is modelled as a method, it is proved against a
function of its inputs. The properties the source promises are then proved as lemmas about
that function.

Two consequences of the code worth stating:

- `split_files_by_size` compares the running total with 8 MiB only after a file has been
  added. A batch is therefore under 8 MiB without its last file, not under 8 MiB as a
  whole: files of 2, 3 and 4 MiB form one 9 MiB batch of three files
  (`Api.ThreeFilesShareOneBatch`, `Api.SizeGroupsWellSplit`).
- `upload_files` only prints a warning for a non-OK status. The batch is still counted
  and its reply returned; nothing is raised.

## Model

| member | source | states |
|---|---|---|
| Utils.RawExtension | remo/utils.py:8-9 | the extension is empty or a dot-led suffix of the name with no further dot |
| Utils.FileExtension | remo/utils.py:8-9 | the extension is empty or a dot-led suffix of the lower-cased name with no further dot and something before it |
| Utils.IsImageFile | remo/utils.py:12-14 | an image extension is neither an annotation nor an archive extension, and something precedes it in the name |
| Utils.IsAnnotationFile | remo/utils.py:17-19 | an annotation extension is neither an image nor an archive extension, and something precedes it in the name |
| Utils.IsArchiveFile | remo/utils.py:22-24 | an archive extension is neither an image nor an annotation extension, and something precedes it in the name |
| Utils.IsIgnoredFile | remo/utils.py:27-28 | a name is ignored exactly when it starts with a dot |
| Utils.FileExtensionIgnoresCase | remo/utils.py:8-9 | the extension of the lower-cased name is the extension of the name |
| Utils.CategoriesIgnoreCase | remo/utils.py:12-24 | image, annotation and archive tests give the same answer for a name and its lower-cased form |
| Utils.CategoriesBySuffix | remo/utils.py:3-24 | a name is an image (annotation, archive) exactly when it ends, in any case, with one of that category's extensions after something other than dots |
| Utils.ExtensionSetsDisjoint | remo/utils.py:3-5 | the three extension sets share no extension |
| Utils.ClassifyName | remo/utils.py:58-74 | a name is an image, an annotation (only when enabled) or an archive exactly as the checks in order decide, and never when it is a dot-file |
| Utils.FileResolver.constructor | remo/utils.py:35-41 | a new resolver has three empty sets and keeps its inputs |
| Utils.FileResolver.CheckFile | remo/utils.py:53-74 | checking a file adds its canonical path to the one set its category names, and nothing for a missing, hidden or unrecognised file |
| Utils.FileResolver.CheckDir | remo/utils.py:76-80 | walking a directory adds exactly what checking every file under it adds, whatever the walk order |
| Utils.FileResolver.Resolve | remo/utils.py:43-51 | the sets grow by what every input reaches, and the output lists images, then annotations, then archives, each set exactly once |
| Utils.ListOf | remo/utils.py:51 | `list(s)` holds every element of the set exactly once |
| Utils.AllReachedMembers | remo/utils.py:44-49 | a path is checked exactly when some input is that file or a directory above it |
| Utils.NestedFileIsResolved | remo/utils.py:76-80 | every recognised file nested anywhere under an input directory is output under its canonical path |
| Utils.CategoriesDisjoint | remo/utils.py:65-74 | a canonical path lands in at most one category |
| Utils.NoAnnotationsUnlessEnabled | remo/utils.py:62-63 | with annotations disabled, no annotation file is output in any category |
| Utils.MissingInputIgnored | remo/utils.py:44-49 | an input that is neither a file nor a directory adds nothing and raises nothing |
| Utils.NestedInputAddsNothing | remo/utils.py:43-49 | naming a directory and a file inside it reaches no more than the directory alone, so the file is output once |
| Utils.ResolvedOutputIsDuplicateFree | remo/utils.py:51 | the concatenated listing has no duplicates |
| Utils.ResolvableMembers | remo/utils.py:53-74 | a path is listed exactly when it is the canonical form of a reached path that exists and is not skipped |
| Utils.ResolvedListing | remo/utils.py:51 | the three slices together list every listable path exactly once |
| Utils.ResolvedOrder | remo/utils.py:51 | images come before annotations, which come before archives |
| Utils.ResolveInputs | remo/utils.py:35-51 | a fresh resolver lists every listable path once, ordered by category |
| Api.SizeGroupsWellSplit | remo/api.py:145-160 | the batches concatenate to the input in order, are non-empty, are under 8 MiB without their last file, and each reaches 8 MiB except a trailing one, which stays under it |
| Api.WellSplitUnique | remo/api.py:145-160 | those properties determine the batches: any two splits that have them are equal |
| Api.ThreeFilesShareOneBatch | remo/api.py:150-157 | files of 2, 3 and 4 MiB form a single batch |
| Api.OversizedFileAlone | remo/api.py:150-157 | a single file of at least 8 MiB forms its own batch |
| Api.SplitStep | remo/api.py:151-157 | one iteration keeps the closed groups plus the open bulk equal to the files seen so far, leaves the running total under 8 MiB, and only closes the bulk or extends it |
| Api.SizeGroups | remo/api.py:145-160 | the batches concatenate to the input in order, and none is empty |
| Api.ChunksOf | remo/api.py:137-143 | the slices concatenate to the list, are non-empty and at most the chunk size, and all but the last have exactly that size |
| Api.PercentageMonotone | remo/api.py:25 | the percentage never falls as the count grows |
| Api.Percentage | remo/api.py:25 | the percentage is the whole part of `current * 100 / total`: its product with the total is at most `current * 100`, and the next one exceeds it |
| Api.PercentageFull | remo/api.py:25 | the percentage is at most 100, and is 100 exactly when everything is counted |
| Api.UploadStatus.constructor | remo/api.py:15-19 | a new counter starts at zero counted and zero reported |
| Api.UploadStatus.Update | remo/api.py:21-22 | update adds exactly `count` and leaves the reported progress alone |
| Api.UploadStatus.Progress | remo/api.py:24-35 | a line is reported exactly when the percentage strictly exceeds the last reported one, the reported value becomes the percentage, and a zero total raises |
| Api.FormData | remo/api.py:106-108 | `annotation_task` is sent only for a truthy task and holds its value; a plain non-empty string raises `AttributeError` |
| Api.Warning | remo/api.py:114-115 | a warning is printed exactly for a non-OK status, and it is never a progress line |
| Api.ProgressLogStep | remo/api.py:24-35 | appending a batch's lines keeps the printed percentages strictly rising and ending at the last reported one |
| Api.RStripSlash | remo/api.py:47 | `rstrip('/')` removes exactly the trailing slashes |
| Api.API.constructor | remo/api.py:46-48 | the server address loses its trailing slashes, and there is no token |
| Api.API.IsAuthenticated | remo/api.py:54-55 | a client is authenticated exactly when its `Authorization` header can be built |
| Api.API.AuthHeader | remo/api.py:54-61 | `NotAuthenticatedError` exactly without a token, else `Token <token>` |
| Api.API.Login | remo/api.py:70-81 | a refused connection changes nothing, a non-OK status raises and keeps the token, and an OK reply sets the token to its `key` |
| Api.API.Chunks | remo/api.py:137-143 | a zero size raises `ValueError`, a negative size gives no slices, and a positive size gives the fixed-size slices |
| Api.API.Slices | remo/api.py:140-143 | the loop builds exactly the fixed-size slices |
| Api.API.SplitFilesBySize | remo/api.py:145-160 | the loop builds exactly the size batches, which are well split |
| Api.API.BuildPayload | remo/api.py:162-167 | the payload always has the list, and has `annotation_task` / `folder_id` exactly when they are truthy (so `folder_id` 0 is omitted) |
| Api.API.UploadLocalFiles | remo/api.py:162-170 | the request is made exactly when the task value can be read and a token is held, else reading the task raises `AttributeError` first and a missing token `NotAuthenticatedError` after; it carries `local_files`, carries `annotation_task` / `folder_id` exactly when they are truthy and with their values, and no other key |
| Api.API.UploadUrls | remo/api.py:172-180 | the request is made exactly when the task value can be read and a token is held, else reading the task raises `AttributeError` first and a missing token `NotAuthenticatedError` after; it carries `urls`, carries `annotation_task` / `folder_id` exactly when they are truthy and with their values, and no other key |
| Api.API.UploadFiles | remo/api.py:98-119 | raising before the POST changes nothing; without a counter (`status=None`) the POST is made and then `AttributeError` is raised; otherwise the batch is counted even on a non-OK status, the warning is printed, and a progress line follows only when the percentage rises |
| Api.API.BulkUploadFiles | remo/api.py:122-135 | the resolved files, images then annotations then archives, are split into size batches and each batch gets its own outcome, and the printed percentages rise strictly to 100 when anything was uploaded |
| Api.API.UploadBatches | remo/api.py:130-132 | the batches are uploaded in order against one counter, each result is that batch's outcome, the printed percentages rise strictly to the final one, and the counter ends at every file when the task value can be read and a token is held, else at zero with nothing reported |
| Api.API.UploadBatch | remo/api.py:131 | uploading the next batch records its outcome and keeps the count equal to the files of the batches so far and the printed percentages rising |
| Annotation.GeometryTask | remo/domain/annotation.py:85-100 | a box is `object_detection` and a segment `instance_segmentation` |
| Annotation.NormalizeClasses | remo/domain/annotation.py:36 | a list is kept, and a single value becomes a one-element list |
| Annotation.Evens | remo/domain/annotation.py:103 | `p[::2]` holds the even positions |
| Annotation.Odds | remo/domain/annotation.py:103 | `p[1::2]` holds the odd positions |
| Annotation.ZipPoints | remo/domain/annotation.py:103 | `zip` pairs position by position, as long as the shorter list |
| Annotation.SegmentPoints | remo/domain/annotation.py:103 | `2k` coordinates give `k` points, point `i` being `(p[2i], p[2i+1])`, and an odd trailing coordinate is dropped |
| Annotation.SegmentRoundTrip | remo/domain/annotation.py:103 | flattening the points of an even-length list gives the list back |
| Annotation.PointsRoundTrip | remo/domain/annotation.py:103 | pairing the flattened coordinates of points gives the points back |
| Annotation.AnnotationObject.constructor | remo/domain/annotation.py:35-37 | the fields hold the given file name, classes and object |
| Annotation.AnnotationObject.Create | remo/domain/annotation.py:30-37 | a truthy object that is not a geometry raises; otherwise the classes are normalised and a falsy object is absent |
| Annotation.AnnotationObject.Task | remo/domain/annotation.py:39-43 | image classification exactly without an object, else the geometry's task |
| Annotation.AnnotationObject.BboxValue | remo/domain/annotation.py:45-49 | the object exactly when it is a box, else None |
| Annotation.AnnotationObject.SegmentValue | remo/domain/annotation.py:60-64 | the object exactly when it is a segment, else None |
| Annotation.AnnotationObject.SetBbox | remo/domain/annotation.py:51-57 | not exactly four values raises and changes nothing; otherwise a box in input order replaces any segment |
| Annotation.AnnotationObject.SetSegment | remo/domain/annotation.py:66-72 | an empty or odd-length list raises and changes nothing; otherwise the paired points replace any box and flatten back to the input |
| ClassEncodings.ForLinking | remo/domain/class_encodings.py:55-74 | a dict gives custom `classes`; an existing path gives custom `local_path` before the other tests; a predefined name gives its own type; a multi-line string gives custom `raw_content`; anything else comes back unchanged |
| ClassEncodings.ForLinkingInjective | remo/domain/class_encodings.py:55-74 | different arguments never normalise alike |
| ClassEncodings.ForLinkingType | remo/domain/class_encodings.py:55-74 | every dictionary built has `type` `custom` or a predefined name, and a predefined one has no other key |
| ClassEncodings.ClassLines | remo/domain/class_encodings.py:48 | one `k,v` line per item, in order |
| ClassEncodings.RawContent | remo/domain/class_encodings.py:48-49 | (definition) the `k,v` lines joined by line breaks; `ClassEncodings.RawContentRoundTrip` states that splitting it gives the items back |
| ClassEncodings.RawContentRoundTrip | remo/domain/class_encodings.py:46-50 | with no comma or line break in the items, splitting the raw content at line breaks and then commas gives the items back |
| ClassEncodings.ForUpload | remo/domain/class_encodings.py:38-52 | `classes` becomes `raw_content` of the joined lines; `local_path` becomes `raw_content` of the file, or raises when the file cannot be opened; every other case is what `for_linking` returns |
| Exporter.RowsAppend | remo/exporter.py:11-19 | the rows of consecutive runs of images follow each other, image by image |
| Exporter.CsvWriter.WriteRow | remo/exporter.py:19 | `writerow` appends the row after those written so far |
| Exporter.Header | remo/exporter.py:8-41 | every header starts with `file_name` and `class`, and no column name repeats |
| Exporter.Rows | remo/exporter.py:8-48 | (definition) the rows of each image in image order; what they are is stated by `Exporter.RowsMembers`, `Exporter.RowsLength` and `Exporter.RowsAppend` |
| Exporter.SegmentCoordinates | remo/exporter.py:33-34 | (definition) the values of every point joined by spaces; `Exporter.CoordinatesRoundTrip` states that splitting it gives them back |
| Exporter.ClassRowsLength | remo/exporter.py:18-19 | one row per class of an object |
| Exporter.ImageClassRowsLength | remo/exporter.py:47-48 | one row per class of an image |
| Exporter.ObjectRowsLength | remo/exporter.py:15-19 | an image gives as many rows as its objects have classes |
| Exporter.RowsLength | remo/exporter.py:8-48 | the number of data rows is the total number of classes, over objects or over images, so an entry without classes gives no row |
| Exporter.ClassRowsMembers | remo/exporter.py:18-19 | the rows of an object are exactly its rows for its classes |
| Exporter.ImageClassRowsMembers | remo/exporter.py:47-48 | the rows of an image are exactly `[file_name, cls]` for its classes |
| Exporter.ObjectRowsMembers | remo/exporter.py:15-19 | the rows of an image are exactly the rows of its objects' classes |
| Exporter.ImageRowsMembers | remo/exporter.py:8-48 | a row comes from an image exactly when that image gives rise to it |
| Exporter.RowsMembers | remo/exporter.py:8-48 | a row is written exactly when one of the images gives rise to it |
| Exporter.RowsMatchHeader | remo/exporter.py:8-48 | every data row has one cell per header column, for detection when every box has four values |
| Exporter.CoordinatesRoundTrip | remo/exporter.py:32-34 | splitting `coordinates` at spaces gives every value of every point, in order, when no value holds a space |
| Exporter.ExportObjectDetection | remo/exporter.py:8-19 | the header first, then `[file_name, cls] + bbox + [height, width]` per image, object and class, in that order |
| Exporter.WriteDetectionImage | remo/exporter.py:13-19 | the rows of one image's objects, in order |
| Exporter.WriteDetectionObject | remo/exporter.py:16-19 | one row per class of the object |
| Exporter.ExportInstanceSegmentation | remo/exporter.py:22-36 | the header first, then `[file_name, cls, coordinates]` per image, object and class, in that order |
| Exporter.WriteSegmentationImage | remo/exporter.py:27-36 | the rows of one image's objects, in order |
| Exporter.WriteSegmentationObject | remo/exporter.py:31-36 | the same coordinates on one row per class of the object |
| Exporter.ExportImageClassification | remo/exporter.py:39-48 | the header first, then one `[file_name, cls]` row per class of each image |
| Exporter.WriteClassificationImage | remo/exporter.py:44-48 | one `[file_name, cls]` row per class of the image, in order |
| Exporter.Export | remo/exporter.py:51-55 | each exporter writes its own header and rows |
| Exporter.GetJsonToCsvExporter | remo/exporter.py:4-5 | the three task names give their exporters, and any other name gives None |
| Exporter.ExporterLookupInverse | remo/exporter.py:51-55 | each exporter is found under its own task name |

## Left out

- HTTP traffic, the JSON bodies and file I/O are not modelled. The server is a given
  function from request to response. `r.json()` is the response body as text. Opening
  the files to upload, `filetype.guess_mime`, `build_url` and the `folder_id` query
  parameter are not modelled; the folder id travels in the request value as given.
- `login`'s request and the exception text built from the reply's JSON are not modelled,
  nor are the messages of the `AnnotationObject` errors; an error is its kind.
  The reply is a given value.
- `Utils.Lower`: lowers ASCII letters only, where Python's `str.lower` covers all of
  Unicode. The only other character that lowers to an ASCII letter is the Kelvin sign,
  and no known extension contains `k`.
- `os.walk`, `os.path.isfile` / `isdir` / `exists` and `realpath` are views of a given
  filesystem map and a given canonicalising function. `os.path.getsize` is a separate
  given function from path to size, not tied to the map, and a path it cannot read
  (which raises `OSError` in the source) is not modelled. Symbolic links,
  unreadable files and the walk order are not modelled; the walk is taken in any order.
- `Api.Percentage`: the percentage `int(current / total * 100)` uses floating point, and
  is modelled as exact integer division. Float rounding can make the source one lower
  (29 of 100 gives 28).
- The elapsed time, speed and ETA in `UploadStatus.progress` are not modelled, nor is the
  text of the printed lines. A progress line is recorded by its percentage and counts.
- The one-worker thread pool in `bulk_upload_files` is a sequential loop over the
  batches. `Api.API.BulkUploadFiles` returns every batch's outcome rather than a lazy
  iterator that raises at the first failed batch.
- Dictionary values keep their iteration order as sequences. A class-encoding dict is its
  list of items; the exporter's `bbox` values are a sequence.
- Missing keys in the exported JSON (`KeyError`) are not modelled. Exported values are
  modelled by their `str()` rendering, and CSV quoting is not modelled.
- `Annotation.AnnotationObject.Create`: a falsy `object` is held as absent, which every
  reader of the object treats alike.
- `Annotation.AnnotationObject.constructor`: `classes` is held as a value. In the source the
  object keeps the caller's own list, so a later change to that list shows through
  `self.classes`; that aliasing is not modelled.
- `AnnotationTask` is not part of this model. A task argument is an enumeration member
  with its value or a plain string, which has no `.value`.
