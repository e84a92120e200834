/** The local bookkeeping around the upload calls (remo/api.py): batching
    by size, fixed-size chunks, the progress counter, request payloads and
    the token guard. The HTTP exchange itself is a given function from the
    request to a response. */
module Api {
  import opened Common
  import opened Utils

  /** `bulk_size` in `split_files_by_size`: 8 MiB. */
  const BulkSize: nat := 8 * 1024 * 1024
  /** The default `chunk_size` of `chunks`. */
  const DefaultChunkSize: int := 2000
  const HttpOk: nat := 200

  // ---------------------------------------------------------------------
  // Batching by cumulative size
  // ---------------------------------------------------------------------

  /** Total on-disk size of `xs`, `size` standing for `os.path.getsize`. */
  function SumSizes(size: Path -> nat, xs: seq<Path>): nat
  {
    if xs == [] then 0 else SumSizes(size, xs[..|xs| - 1]) + size(xs[|xs| - 1])
  }

  lemma {:induction false} SumSizesPrefix(size: Path -> nat, xs: seq<Path>, k: nat)
    requires k <= |xs|
    ensures SumSizes(size, xs[..k]) <= SumSizes(size, xs)
    decreases |xs|
  {
    if k < |xs| {
      var n := |xs| - 1;
      assert xs[..n][..k] == xs[..k];
      SumSizesPrefix(size, xs[..n], k);
    } else {
      assert xs[..k] == xs;
    }
  }

  /** The loop state of `split_files_by_size`: closed groups, the open
      `bulk` and its running `total_size`. */
  datatype SplitState = SplitState(groups: seq<seq<Path>>, bulk: seq<Path>, total: nat)

  /** One iteration: add the file, then close the bulk once it reaches the
      threshold. */
  function SplitStep(s: SplitState, size: Path -> nat, path: Path): (r: SplitState)
    ensures Flatten(r.groups) + r.bulk == Flatten(s.groups) + s.bulk + [path]
    ensures r.total < BulkSize
    ensures r.bulk == [] || (r.groups == s.groups && r.total == s.total + size(path))
  {
    var total := s.total + size(path);
    var bulk := s.bulk + [path];
    if total >= BulkSize then
      FlattenSnoc(s.groups, bulk);
      SplitState(s.groups + [bulk], [], 0)
    else SplitState(s.groups, bulk, total)
  }

  /** The loop state after the files of `files`. */
  function SplitPrefix(size: Path -> nat, files: seq<Path>): SplitState
  {
    if files == [] then SplitState([], [], 0)
    else SplitStep(SplitPrefix(size, files[..|files| - 1]), size, files[|files| - 1])
  }

  /** The groups `split_files_by_size` returns: the closed groups and a
      trailing non-empty bulk. */
  function SizeGroups(size: Path -> nat, files: seq<Path>): (r: seq<seq<Path>>)
    ensures Flatten(r) == files
    ensures forall i :: 0 <= i < |r| ==> r[i] != []
  {
    var s := SplitPrefix(size, files);
    SplitPrefixInvariant(size, files);
    if |s.bulk| > 0 then
      FlattenSnoc(s.groups, s.bulk);
      s.groups + [s.bulk]
    else s.groups
  }

  /** A group closed inside the loop: it reached the threshold, and only
      with its last file. */
  ghost predicate ClosedGroup(size: Path -> nat, g: seq<Path>)
  {
    |g| > 0 && SumSizes(size, g) >= BulkSize && SumSizes(size, g[..|g| - 1]) < BulkSize
  }

  /** A grouping of `files` in order where every group is non-empty and under
      the threshold without its last file, and every group but the last
      reaches the threshold. */
  ghost predicate WellSplit(size: Path -> nat, files: seq<Path>, groups: seq<seq<Path>>)
  {
    && Flatten(groups) == files
    && (forall i :: 0 <= i < |groups| ==> |groups[i]| > 0 && SumSizes(size, groups[i][..|groups[i]| - 1]) < BulkSize)
    && (forall i :: 0 <= i < |groups| - 1 ==> SumSizes(size, groups[i]) >= BulkSize)
  }

  /** What holds of the loop state after any prefix `files`. */
  ghost predicate SplitInvariant(size: Path -> nat, files: seq<Path>, s: SplitState)
  {
    && Flatten(s.groups) + s.bulk == files
    && s.total == SumSizes(size, s.bulk) < BulkSize
    && forall i :: 0 <= i < |s.groups| ==> ClosedGroup(size, s.groups[i])
  }

  lemma SplitStepInvariant(size: Path -> nat, files: seq<Path>, s: SplitState, path: Path)
    requires SplitInvariant(size, files, s)
    ensures SplitInvariant(size, files + [path], SplitStep(s, size, path))
  {
    var bulk := s.bulk + [path];
    assert bulk[..|bulk| - 1] == s.bulk;
    assert SumSizes(size, bulk) == s.total + size(path);
    assert Flatten(s.groups) + bulk == files + [path];
    var t := SplitStep(s, size, path);
    if s.total + size(path) >= BulkSize {
      assert t.groups == s.groups + [bulk] && t.bulk == [];
      FlattenSnoc(s.groups, bulk);
      assert Flatten(t.groups) + t.bulk == files + [path];
      assert ClosedGroup(size, bulk);
      forall i | 0 <= i < |t.groups| ensures ClosedGroup(size, t.groups[i]) {
        if i < |s.groups| {
          assert t.groups[i] == s.groups[i];
        }
      }
    } else {
      assert t == SplitState(s.groups, bulk, s.total + size(path));
    }
  }

  lemma {:induction false} SplitPrefixInvariant(size: Path -> nat, files: seq<Path>)
    ensures SplitInvariant(size, files, SplitPrefix(size, files))
  {
    if files == [] {
      assert Flatten<Path>([]) + [] == files;
    } else {
      var n := |files| - 1;
      var prev := SplitPrefix(size, files[..n]);
      assert SplitPrefix(size, files) == SplitStep(prev, size, files[n]);
      SplitPrefixInvariant(size, files[..n]);
      SplitStepInvariant(size, files[..n], prev, files[n]);
      assert files[..n] + [files[n]] == files;
    }
  }

  /** The batches partition the input in order; each closed batch reached
      8 MiB only with its last file, and a trailing batch stays under it. */
  lemma SizeGroupsWellSplit(size: Path -> nat, files: seq<Path>)
    ensures WellSplit(size, files, SizeGroups(size, files))
    ensures var g := SizeGroups(size, files);
      forall i :: 0 <= i < |g| ==> ClosedGroup(size, g[i]) || (i == |g| - 1 && SumSizes(size, g[i]) < BulkSize)
  {
    var s := SplitPrefix(size, files);
    SplitPrefixInvariant(size, files);
    if |s.bulk| > 0 {
      var g := s.groups + [s.bulk];
      assert SizeGroups(size, files) == g;
      FlattenSnoc(s.groups, s.bulk);
      SumSizesPrefix(size, s.bulk, |s.bulk| - 1);
      forall i | 0 <= i < |g|
        ensures ClosedGroup(size, g[i]) || (i == |g| - 1 && SumSizes(size, g[i]) < BulkSize)
      {
        if i < |s.groups| {
          assert g[i] == s.groups[i];
        }
      }
      ClosedGroupsWellSplit(size, files, g);
    } else {
      assert Flatten(s.groups) == files;
      ClosedGroupsWellSplit(size, files, s.groups);
    }
  }

  /** Groups that are each closed, or under the threshold and last, form a
      well-formed split of their concatenation. */
  lemma ClosedGroupsWellSplit(size: Path -> nat, files: seq<Path>, g: seq<seq<Path>>)
    requires Flatten(g) == files
    requires forall i :: 0 <= i < |g| ==> |g[i]| > 0
    requires forall i :: 0 <= i < |g| ==> ClosedGroup(size, g[i]) || (i == |g| - 1 && SumSizes(size, g[i]) < BulkSize)
    ensures WellSplit(size, files, g)
  {
    forall i | 0 <= i < |g| ensures SumSizes(size, g[i][..|g[i]| - 1]) < BulkSize {
      if !ClosedGroup(size, g[i]) {
        SumSizesPrefix(size, g[i], |g[i]| - 1);
      }
    }
  }

  lemma WellSplitTail(size: Path -> nat, files: seq<Path>, groups: seq<seq<Path>>)
    requires WellSplit(size, files, groups) && |groups| > 0
    ensures |groups[0]| <= |files| && files[..|groups[0]|] == groups[0]
    ensures WellSplit(size, files[|groups[0]|..], groups[1..])
  {
    assert Flatten(groups) == groups[0] + Flatten(groups[1..]);
    forall i | 0 <= i < |groups[1..]| - 1 ensures SumSizes(size, groups[1..][i]) >= BulkSize {
      assert groups[1..][i] == groups[i + 1];
    }
  }

  lemma FlattenNonEmpty(size: Path -> nat, files: seq<Path>, groups: seq<seq<Path>>)
    requires WellSplit(size, files, groups)
    ensures groups == [] <==> files == []
  {
    if groups != [] {
      assert Flatten(groups) == groups[0] + Flatten(groups[1..]);
    }
  }

  /** A first group shorter than another split's first group would be a
      closed group inside that one's prefix without its last file. */
  lemma FirstGroupNotShorter(size: Path -> nat, files: seq<Path>, g1: seq<seq<Path>>, g2: seq<seq<Path>>)
    requires WellSplit(size, files, g1) && WellSplit(size, files, g2)
    requires |g1| > 0 && |g2| > 0
    ensures |g1[0]| >= |g2[0]|
  {
    WellSplitTail(size, files, g1);
    WellSplitTail(size, files, g2);
    var a, b := g1[0], g2[0];
    if |a| < |b| {
      if |g1| == 1 {
        assert false;
      }
      var bl := b[..|b| - 1];
      assert bl[..|a|] == a;
      SumSizesPrefix(size, bl, |a|);
      assert false;
    }
  }

  /** A well-formed split is unique: the properties above determine the
      batches completely. */
  lemma {:induction false} WellSplitUnique(size: Path -> nat, files: seq<Path>, g1: seq<seq<Path>>, g2: seq<seq<Path>>)
    requires WellSplit(size, files, g1) && WellSplit(size, files, g2)
    ensures g1 == g2
    decreases |files|
  {
    FlattenNonEmpty(size, files, g1);
    FlattenNonEmpty(size, files, g2);
    if files != [] {
      WellSplitTail(size, files, g1);
      WellSplitTail(size, files, g2);
      FirstGroupNotShorter(size, files, g1, g2);
      FirstGroupNotShorter(size, files, g2, g1);
      var a, b := g1[0], g2[0];
      assert a == files[..|a|] == b;
      WellSplitUnique(size, files[|a|..], g1[1..], g2[1..]);
      assert g1 == [a] + g1[1..];
      assert g2 == [b] + g2[1..];
    }
  }

  /** The example of a 2, a 3 and a 4 MiB file: all three share one batch
      of 9 MiB, since the threshold is checked only after adding a file. */
  lemma ThreeFilesShareOneBatch(size: Path -> nat, x: Path, y: Path, z: Path)
    requires size(x) == 2 * 1024 * 1024 && size(y) == 3 * 1024 * 1024 && size(z) == 4 * 1024 * 1024
    ensures SizeGroups(size, [x, y, z]) == [[x, y, z]]
  {
    var files := [x, y, z];
    assert [x, y, z][..2] == [x, y];
    assert [x, y][..1] == [x];
    assert [x][..0] == [];
    assert SumSizes(size, [x]) == size(x);
    assert SumSizes(size, [x, y]) == size(x) + size(y);
    assert Flatten([[x, y, z]]) == files;
    SizeGroupsWellSplit(size, files);
    WellSplitUnique(size, files, SizeGroups(size, files), [[x, y, z]]);
  }

  /** A single file above the threshold forms its own batch. */
  lemma OversizedFileAlone(size: Path -> nat, x: Path)
    requires size(x) >= BulkSize
    ensures SizeGroups(size, [x]) == [[x]]
  {
    var s0 := SplitPrefix(size, []);
    assert [x][..0] == [] && [x][0] == x;
    assert SplitPrefix(size, [x]) == SplitStep(s0, size, x);
    assert s0.bulk + [x] == [x] && s0.groups + [[x]] == [[x]];
  }

  // ---------------------------------------------------------------------
  // Fixed-size chunks
  // ---------------------------------------------------------------------

  /** `[xs[i:i + n] for i in range(0, len(xs), n)]` for a positive `n`. */
  function ChunksOf<T>(xs: seq<T>, n: nat): (r: seq<seq<T>>)
    requires n > 0
    ensures Flatten(r) == xs
    ensures forall i :: 0 <= i < |r| ==> 0 < |r[i]| <= n
    ensures forall i :: 0 <= i < |r| - 1 ==> |r[i]| == n
    decreases |xs|
  {
    if xs == [] then []
    else if |xs| <= n then
      assert Flatten([xs]) == xs + Flatten([]);
      [xs]
    else
      var rest := ChunksOf(xs[n..], n);
      assert ([xs[..n]] + rest)[1..] == rest;
      assert xs[..n] + xs[n..] == xs;
      [xs[..n]] + rest
  }

  /** What the loop of `chunks` keeps: the slices so far, followed by the
      slices of the rest, are the slices of the whole list. */
  ghost predicate ChunksLoopInvariant<T>(xs: seq<T>, n: nat, i: nat, groups: seq<seq<T>>)
    requires n > 0
  {
    if i < |xs| then groups + ChunksOf(xs[i..], n) == ChunksOf(xs, n) else groups == ChunksOf(xs, n)
  }

  lemma ChunksLoopStep<T>(xs: seq<T>, n: nat, i: nat, groups: seq<seq<T>>)
    requires n > 0 && i < |xs| && ChunksLoopInvariant(xs, n, i, groups)
    ensures ChunksLoopInvariant(xs, n, i + n, groups + [xs[i..if i + n < |xs| then i + n else |xs|]])
  {
    var rest := xs[i..];
    if i + n < |xs| {
      assert rest[..n] == xs[i..i + n];
      assert rest[n..] == xs[i + n..];
      var tail := ChunksOf(xs[i + n..], n);
      assert ChunksOf(rest, n) == [xs[i..i + n]] + tail;
      assert groups + ([xs[i..i + n]] + tail) == (groups + [xs[i..i + n]]) + tail;
    } else {
      assert rest == xs[i..|xs|];
      assert ChunksOf(rest, n) == [rest];
      assert groups + [rest] == ChunksOf(xs, n);
    }
  }

  // ---------------------------------------------------------------------
  // Progress counter
  // ---------------------------------------------------------------------

  /** `int(current / total * 100)`, read as exact integer division. */
  function Percentage(current: nat, total: nat): (r: nat)
    requires total > 0
    ensures r * total <= current * 100 < (r + 1) * total
  {
    current * 100 / total
  }

  lemma PercentageMonotone(c1: nat, c2: nat, total: nat)
    requires total > 0 && c1 <= c2
    ensures Percentage(c1, total) <= Percentage(c2, total)
  {
    assert c1 * 100 <= c2 * 100;
    DivMonotone(c1 * 100, c2 * 100, total);
  }

  lemma DivMonotone(a: nat, b: nat, d: nat)
    requires d > 0 && a <= b
    ensures a / d <= b / d
  {
    var q, r := a / d, b / d;
    if q > r {
      MulMonotone(r + 1, q, d);
      assert false;
    }
  }

  lemma MulMonotone(a: int, b: int, t: nat)
    requires a <= b
    ensures a * t <= b * t
  {
  }

  /** The percentage is 100 exactly when everything is counted, and below
      100 before. */
  lemma PercentageFull(current: nat, total: nat)
    requires 0 < total && current <= total
    ensures Percentage(current, total) == 100 <==> current == total
    ensures Percentage(current, total) <= 100
  {
    var c := current * 100;
    var p := c / total;
    assert p * total <= c < p * total + total;
    MulMonotone(current, total, 100);
    if p >= 101 {
      MulMonotone(101, p, total);
      assert false;
    }
    if current == total {
      if p <= 99 {
        MulMonotone(p, 99, total);
        assert false;
      }
    } else {
      MulMonotone(current, total - 1, 100);
      if p >= 100 {
        MulMonotone(100, p, total);
        assert false;
      }
    }
  }

  datatype ProgressLine = ProgressLine(percentage: nat, current: nat, total: nat)

  class UploadStatus {
    const totalCount: nat
    var currentCount: nat
    var reportedProgress: nat

    constructor (totalCount: nat)
      ensures this.totalCount == totalCount && currentCount == 0 && reportedProgress == 0
    {
      this.totalCount := totalCount;
      currentCount := 0;
      reportedProgress := 0;
    }

    method Update(count: nat)
      modifies this
      ensures currentCount == old(currentCount) + count
      ensures reportedProgress == old(reportedProgress)
    {
      currentCount := currentCount + count;
    }

    /** Reports the percentage only when it strictly exceeds the last one,
        then remembers it. Dividing by a zero total raises, changing nothing. */
    method Progress() returns (r: Result<Option<ProgressLine>, ApiError>)
      modifies this
      ensures currentCount == old(currentCount)
      ensures totalCount == 0 ==> r == Err(ZeroDivision) && reportedProgress == old(reportedProgress)
      ensures totalCount > 0 ==> r.Ok? && reportedProgress == Percentage(currentCount, totalCount)
      ensures totalCount > 0 ==> (r.value.Some? <==> reportedProgress > old(reportedProgress))
      ensures r.Ok? && r.value.Some? ==> r.value.value == ProgressLine(reportedProgress, currentCount, totalCount)
    {
      if totalCount == 0 {
        return Err(ZeroDivision);
      }
      var percentage := currentCount * 100 / totalCount;
      if percentage > reportedProgress {
        r := Ok(Some(ProgressLine(percentage, currentCount, totalCount)));
      } else {
        r := Ok(None);
      }
      reportedProgress := percentage;
    }
  }

  // ---------------------------------------------------------------------
  // Requests and the API object
  // ---------------------------------------------------------------------

  datatype ApiError = NotAuthenticated | AttributeError | ZeroDivision | ValueError | LoginFailed(statusCode: nat)

  /** The `annotation_task` argument: an enumeration member (whose `.value`
      is its task name) or a plain string, which has no `.value`. */
  datatype TaskArg = Member(value: string) | Text(text: string)

  predicate Truthy(t: TaskArg)
  {
    t.Member? || t.text != ""
  }

  /** `annotation_task.value` on a truthy argument. */
  function TaskValue(t: TaskArg): Result<string, ApiError>
  {
    match t
    case Member(v) => Ok(v)
    case Text(_) => Err(AttributeError)
  }

  /** Reading `.value` of a truthy argument fails: a non-empty plain string. */
  predicate TaskFails(t: Option<TaskArg>)
  {
    t.Some? && Truthy(t.value) && t.value.Text?
  }

  /** The form fields `upload_files` posts: `annotation_task` only when the
      argument is truthy. */
  function FormData(t: Option<TaskArg>): (r: Result<map<string, string>, ApiError>)
    ensures r.Err? <==> TaskFails(t)
    ensures r.Err? ==> r.error == AttributeError
    ensures r.Ok? ==> ("annotation_task" in r.value <==> t.Some? && Truthy(t.value))
    ensures r.Ok? ==> r.value.Keys <= {"annotation_task"}
    ensures r.Ok? && "annotation_task" in r.value ==> r.value["annotation_task"] == t.value.value
  {
    if t.Some? && Truthy(t.value) then
      match TaskValue(t.value)
      case Ok(v) => Ok(map["annotation_task" := v])
      case Err(e) => Err(e)
    else Ok(map[])
  }

  datatype Json = JString(s: string) | JInt(i: int) | JStrings(items: seq<string>)

  /** A JSON POST to `/api/dataset/<id>/upload`. */
  datatype JsonPost = JsonPost(datasetId: nat, payload: map<string, Json>)

  /** A multipart POST to `/api/dataset/<id>/upload?folder_id=…`. */
  datatype UploadRequest = UploadRequest(datasetId: nat, files: seq<Path>, data: map<string, string>, folderId: Option<int>)

  datatype Response = Response(statusCode: nat, body: string)

  datatype LoginReply = ConnectionError | LoginResponse(statusCode: nat, key: Option<string>)

  /** A line `upload_files` prints. */
  datatype LogLine = PossibleError(body: string, files: seq<Path>) | Progress(line: ProgressLine)

  /** The warning `upload_files` prints for a non-OK reply. */
  function Warning(response: Response, files: seq<Path>): (r: seq<LogLine>)
    ensures r == [] <==> response.statusCode == HttpOk
    ensures Percentages(r) == []
  {
    if response.statusCode != HttpOk then [PossibleError(response.body, files)] else []
  }

  function Percentages(log: seq<LogLine>): (r: seq<nat>)
    ensures |r| <= |log|
  {
    if log == [] then []
    else Percentages(log[..|log| - 1]) + (if log[|log| - 1].Progress? then [log[|log| - 1].line.percentage] else [])
  }

  predicate StrictlyIncreasing(s: seq<nat>)
  {
    forall i, j :: 0 <= i < j < |s| ==> s[i] < s[j]
  }

  lemma {:induction false} PercentagesAppend(a: seq<LogLine>, b: seq<LogLine>)
    ensures Percentages(a + b) == Percentages(a) + Percentages(b)
    decreases |b|
  {
    if b == [] {
      assert a + b == a;
    } else {
      var n := |b| - 1;
      assert (a + b)[..|a + b| - 1] == a + b[..n];
      PercentagesAppend(a, b[..n]);
    }
  }

  /** Percentages that rise strictly and end at the last reported one
      (when one above zero was reported). */
  ghost predicate RisingTo(p: seq<nat>, reported: nat)
  {
    && StrictlyIncreasing(p)
    && (forall j :: 0 <= j < |p| ==> p[j] <= reported)
    && (reported > 0 ==> p != [] && p[|p| - 1] == reported)
  }

  /** A progress log whose percentages rise to the last reported one. */
  ghost predicate ProgressLog(log: seq<LogLine>, reported: nat)
  {
    RisingTo(Percentages(log), reported)
  }

  lemma RisingToSnoc(p: seq<nat>, reported: nat, next: nat)
    requires RisingTo(p, reported) && reported < next
    ensures RisingTo(p + [next], next)
  {
    var q := p + [next];
    forall i, j | 0 <= i < j < |q| ensures q[i] < q[j] {
      if j < |p| {
        assert q[i] == p[i] && q[j] == p[j];
      } else {
        assert q[i] == p[i] <= reported;
      }
    }
  }

  /** Appending the lines of one batch keeps the log rising: a progress line
      appears only for a percentage above the last one. */
  lemma ProgressLogStep(log: seq<LogLine>, warning: seq<LogLine>, reported: nat, next: nat, current: nat, total: nat)
    requires ProgressLog(log, reported) && reported <= next && Percentages(warning) == []
    ensures ProgressLog(log + warning + (if next > reported then [Progress(ProgressLine(next, current, total))] else []), next)
  {
    var extra: seq<LogLine> := if next > reported then [Progress(ProgressLine(next, current, total))] else [];
    var p := Percentages(log);
    PercentagesAppend(log, warning);
    PercentagesAppend(log + warning, extra);
    assert Percentages(log + warning) == p + [];
    if next > reported {
      assert extra[..0] == [];
      assert Percentages(extra) == [next];
      assert Percentages(log + warning + extra) == p + [next];
      RisingToSnoc(p, reported, next);
    } else {
      assert next == reported && extra == [];
      assert Percentages(log + warning + extra) == p;
    }
  }

  /** `str.rstrip('/')`. */
  function RStripSlash(s: string): (r: string)
    ensures |r| <= |s| && r == s[..|r|]
    ensures r == [] || r[|r| - 1] != '/'
    ensures forall i :: |r| <= i < |s| ==> s[i] == '/'
  {
    if s != [] && s[|s| - 1] == '/' then RStripSlash(s[..|s| - 1]) else s
  }

  class API {
    const server: string
    var token: Option<string>

    constructor (server: string)
      ensures this.server == RStripSlash(server) && token == None
    {
      this.server := RStripSlash(server);
      token := None;
    }

    /** Whether a token is held: exactly when the `Authorization` header can
        be built. */
    predicate IsAuthenticated(): (b: bool)
      reads this
      ensures b <==> AuthHeader().Ok?
    {
      token.Some?
    }

    /** The `Authorization` header, or `NotAuthenticatedError` without a token. */
    function AuthHeader(): (r: Result<(string, string), ApiError>)
      reads this
      ensures r.Err? <==> token.None?
      ensures r.Err? ==> r.error == NotAuthenticated
      ensures r.Ok? ==> r.value == ("Authorization", "Token " + token.value)
    {
      match token
      case None => Err(NotAuthenticated)
      case Some(t) => Ok(("Authorization", "Token " + t))
    }

    /** A refused connection leaves the token alone, a non-OK status raises,
        and otherwise the token becomes the reply's `key` (possibly absent). */
    method Login(reply: LoginReply) returns (r: Result<(), ApiError>)
      modifies this
      ensures reply.ConnectionError? ==> r == Ok(()) && token == old(token)
      ensures reply.LoginResponse? && reply.statusCode != HttpOk ==> r == Err(LoginFailed(reply.statusCode)) && token == old(token)
      ensures reply.LoginResponse? && reply.statusCode == HttpOk ==> r == Ok(()) && token == reply.key
    {
      match reply
      case ConnectionError =>
        return Ok(());
      case LoginResponse(code, key) =>
        if code != HttpOk {
          return Err(LoginFailed(code));
        }
        token := key;
        r := Ok(());
    }

    /** `chunks`: `range` raises `ValueError` for a zero chunk size, yields
        nothing for a negative one, and fixed-size slices otherwise. */
    method Chunks<T>(myList: seq<T>, chunkSize: int := DefaultChunkSize) returns (r: Result<seq<seq<T>>, ApiError>)
      ensures chunkSize == 0 <==> r.Err?
      ensures r.Err? ==> r.error == ValueError
      ensures chunkSize < 0 ==> r == Ok([])
      ensures chunkSize > 0 ==> r == Ok(ChunksOf(myList, chunkSize))
    {
      if chunkSize == 0 {
        return Err(ValueError);
      }
      if chunkSize < 0 {
        return Ok([]);
      }
      var groups := Slices(myList, chunkSize);
      r := Ok(groups);
    }

    /** The loop of `chunks` for a positive size. */
    static method Slices<T>(myList: seq<T>, chunkSize: nat) returns (groups: seq<seq<T>>)
      requires chunkSize > 0
      ensures groups == ChunksOf(myList, chunkSize)
    {
      groups := [];
      var i := 0;
      while i < |myList|
        invariant ChunksLoopInvariant(myList, chunkSize, i, groups)
        decreases |myList| - i
      {
        var end := if i + chunkSize < |myList| then i + chunkSize else |myList|;
        ChunksLoopStep(myList, chunkSize, i, groups);
        groups := groups + [myList[i..end]];
        i := i + chunkSize;
      }
    }

    /** `split_files_by_size`. */
    method SplitFilesBySize(files: seq<Path>, size: Path -> nat) returns (groups: seq<seq<Path>>)
      ensures groups == SizeGroups(size, files)
      ensures WellSplit(size, files, groups)
    {
      groups := [];
      var bulk: seq<Path> := [];
      var totalSize: nat := 0;
      for i := 0 to |files|
        invariant SplitPrefix(size, files[..i]) == SplitState(groups, bulk, totalSize)
      {
        assert files[..i + 1][..i] == files[..i];
        var path := files[i];
        totalSize := totalSize + size(path);
        bulk := bulk + [path];
        if totalSize >= BulkSize {
          groups := groups + [bulk];
          bulk := [];
          totalSize := 0;
        }
      }
      assert files[..|files|] == files;
      if |bulk| > 0 {
        groups := groups + [bulk];
      }
      SizeGroupsWellSplit(size, files);
    }

    /** The JSON body `upload_local_files` and `upload_urls` send: the list,
        then `annotation_task` and `folder_id` only when they are truthy. */
    static method BuildPayload(listKey: string, items: seq<string>, annotationTask: Option<TaskArg>, folderId: Option<int>)
      returns (r: Result<map<string, Json>, ApiError>)
      requires listKey != "annotation_task" && listKey != "folder_id"
      ensures r.Err? <==> TaskFails(annotationTask)
      ensures r.Err? ==> r.error == AttributeError
      ensures r.Ok? ==> listKey in r.value && r.value[listKey] == JStrings(items)
      ensures r.Ok? ==> ("annotation_task" in r.value <==> annotationTask.Some? && Truthy(annotationTask.value))
      ensures r.Ok? && "annotation_task" in r.value ==> r.value["annotation_task"] == JString(annotationTask.value.value)
      ensures r.Ok? ==> ("folder_id" in r.value <==> folderId.Some? && folderId.value != 0)
      ensures r.Ok? && "folder_id" in r.value ==> r.value["folder_id"] == JInt(folderId.value)
      ensures r.Ok? ==> r.value.Keys <= {listKey, "annotation_task", "folder_id"}
    {
      var payload := map[listKey := JStrings(items)];
      if annotationTask.Some? && Truthy(annotationTask.value) {
        var value := TaskValue(annotationTask.value);
        if value.Err? {
          return Err(value.error);
        }
        payload := payload["annotation_task" := JString(value.value)];
      }
      if folderId.Some? && folderId.value != 0 {
        payload := payload["folder_id" := JInt(folderId.value)];
      }
      r := Ok(payload);
    }

    /** `upload_local_files`: the payload is built first, then the POST needs
        the token. */
    method UploadLocalFiles(datasetId: nat, localFiles: seq<string>, annotationTask: Option<TaskArg>, folderId: Option<int>)
      returns (r: Result<JsonPost, ApiError>)
      ensures r.Ok? <==> IsAuthenticated() && !TaskFails(annotationTask)
      ensures TaskFails(annotationTask) ==> r == Err(AttributeError)
      ensures !TaskFails(annotationTask) && !IsAuthenticated() ==> r == Err(NotAuthenticated)
      ensures r.Ok? ==> r.value.datasetId == datasetId && "local_files" in r.value.payload && r.value.payload["local_files"] == JStrings(localFiles)
      ensures r.Ok? ==> ("folder_id" in r.value.payload <==> folderId.Some? && folderId.value != 0)
      ensures r.Ok? && "folder_id" in r.value.payload ==> r.value.payload["folder_id"] == JInt(folderId.value)
      ensures r.Ok? ==> ("annotation_task" in r.value.payload <==> annotationTask.Some? && Truthy(annotationTask.value))
      ensures r.Ok? && "annotation_task" in r.value.payload ==> r.value.payload["annotation_task"] == JString(annotationTask.value.value)
      ensures r.Ok? ==> r.value.payload.Keys <= {"local_files", "annotation_task", "folder_id"}
    {
      var payload := BuildPayload("local_files", localFiles, annotationTask, folderId);
      if payload.Err? {
        return Err(payload.error);
      }
      var header := AuthHeader();
      if header.Err? {
        return Err(header.error);
      }
      r := Ok(JsonPost(datasetId, payload.value));
    }

    /** `upload_urls`: as `upload_local_files`, under the key `urls`. */
    method UploadUrls(datasetId: nat, urls: seq<string>, annotationTask: Option<TaskArg>, folderId: Option<int>)
      returns (r: Result<JsonPost, ApiError>)
      ensures r.Ok? <==> IsAuthenticated() && !TaskFails(annotationTask)
      ensures TaskFails(annotationTask) ==> r == Err(AttributeError)
      ensures !TaskFails(annotationTask) && !IsAuthenticated() ==> r == Err(NotAuthenticated)
      ensures r.Ok? ==> r.value.datasetId == datasetId && "urls" in r.value.payload && r.value.payload["urls"] == JStrings(urls)
      ensures r.Ok? ==> ("folder_id" in r.value.payload <==> folderId.Some? && folderId.value != 0)
      ensures r.Ok? && "folder_id" in r.value.payload ==> r.value.payload["folder_id"] == JInt(folderId.value)
      ensures r.Ok? ==> ("annotation_task" in r.value.payload <==> annotationTask.Some? && Truthy(annotationTask.value))
      ensures r.Ok? && "annotation_task" in r.value.payload ==> r.value.payload["annotation_task"] == JString(annotationTask.value.value)
      ensures r.Ok? ==> r.value.payload.Keys <= {"urls", "annotation_task", "folder_id"}
    {
      var payload := BuildPayload("urls", urls, annotationTask, folderId);
      if payload.Err? {
        return Err(payload.error);
      }
      var header := AuthHeader();
      if header.Err? {
        return Err(header.error);
      }
      r := Ok(JsonPost(datasetId, payload.value));
    }

    /** `upload_files`: posts one batch, prints a warning for a non-OK
        status, then counts the batch and reports progress. An error raised
        before the POST leaves the counter alone; without a counter (the
        `status=None` default) the POST is made and `status.update` then
        raises `AttributeError`. */
    method UploadFiles(datasetId: nat, filesToUpload: seq<Path>, annotationTask: Option<TaskArg>, folderId: Option<int>,
                       status: UploadStatus?, respond: UploadRequest -> Response)
      returns (r: Result<string, ApiError>, log: seq<LogLine>)
      modifies status
      ensures TaskFails(annotationTask) ==> r == Err(AttributeError) && log == []
      ensures !TaskFails(annotationTask) && !IsAuthenticated() ==> r == Err(NotAuthenticated) && log == []
      ensures TaskFails(annotationTask) || !IsAuthenticated() ==>
        status != null ==> status.currentCount == old(status.currentCount) && status.reportedProgress == old(status.reportedProgress)
      ensures !TaskFails(annotationTask) && IsAuthenticated() && status == null ==>
        var response := respond(UploadRequest(datasetId, filesToUpload, FormData(annotationTask).value, folderId));
        r == Err(AttributeError) && log == Warning(response, filesToUpload)
      ensures !TaskFails(annotationTask) && IsAuthenticated() && status != null ==>
        var response := respond(UploadRequest(datasetId, filesToUpload, FormData(annotationTask).value, folderId));
        && status.currentCount == old(status.currentCount) + |filesToUpload|
        && (status.totalCount == 0 ==>
              (r == Err(ZeroDivision) && status.reportedProgress == old(status.reportedProgress)
               && log == Warning(response, filesToUpload)))
        && (status.totalCount > 0 ==>
              (r == Ok(response.body)
               && status.reportedProgress == Percentage(status.currentCount, status.totalCount)
               && log == Warning(response, filesToUpload)
                       + (if status.reportedProgress > old(status.reportedProgress)
                          then [Progress(ProgressLine(status.reportedProgress, status.currentCount, status.totalCount))]
                          else [])))
    {
      var data := FormData(annotationTask);
      if data.Err? {
        return Err(data.error), [];
      }
      var header := AuthHeader();
      if header.Err? {
        return Err(header.error), [];
      }
      var response := respond(UploadRequest(datasetId, filesToUpload, data.value, folderId));
      log := Warning(response, filesToUpload);
      if status == null {
        return Err(AttributeError), log;
      }
      status.Update(|filesToUpload|);
      var progress := status.Progress();
      if progress.Err? {
        return Err(progress.error), log;
      }
      if progress.value.Some? {
        log := log + [Progress(progress.value.value)];
      }
      r := Ok(response.body);
    }

    /** What `upload_files` returns for one batch, given the token and the
        annotation task: the error raised before the POST, or the reply. */
    ghost predicate BatchOutcome(datasetId: nat, batch: seq<Path>, annotationTask: Option<TaskArg>, folderId: Option<int>,
                                 respond: UploadRequest -> Response, r: Result<string, ApiError>)
      reads this
    {
      if TaskFails(annotationTask) then r == Err(AttributeError)
      else if !IsAuthenticated() then r == Err(NotAuthenticated)
      else r == Ok(respond(UploadRequest(datasetId, batch, FormData(annotationTask).value, folderId)).body)
    }

    /** `bulk_upload_files`: resolves the inputs, batches them by size and
        uploads the batches one after the other against one shared counter.
        A batch that raises does not stop the later ones; `results[i]` is
        the outcome of batch `i`, which the result iterator returns or
        raises when it reaches that batch. */
    method BulkUploadFiles(fs: FileSystem, canon: Path -> Path, size: Path -> nat, datasetId: nat, filesToUpload: seq<Path>,
                           annotationTask: Option<TaskArg>, folderId: Option<int>, respond: UploadRequest -> Response)
      returns (results: seq<Result<string, ApiError>>, log: seq<LogLine>, ghost resolved: seq<Path>)
      ensures Enumerates(resolved, Resolvable(fs, canon, annotationTask.Some?, AllReached(fs, filesToUpload)))
      ensures forall i, j :: 0 <= i < j < |resolved| ==>
        Rank(ResolvedCategory(fs, annotationTask.Some?, resolved[i])) <= Rank(ResolvedCategory(fs, annotationTask.Some?, resolved[j]))
      ensures |results| == |SizeGroups(size, resolved)|
      ensures forall i :: 0 <= i < |results| ==>
        BatchOutcome(datasetId, SizeGroups(size, resolved)[i], annotationTask, folderId, respond, results[i])
      ensures StrictlyIncreasing(Percentages(log))
      ensures TaskFails(annotationTask) || !IsAuthenticated() ==> Percentages(log) == []
      ensures !TaskFails(annotationTask) && IsAuthenticated() && resolved != [] ==>
        Percentages(log) != [] && Percentages(log)[|Percentages(log)| - 1] == 100
    {
      var files := ResolveInputs(fs, canon, filesToUpload, annotationTask.Some?);
      resolved := files;
      var groups := SplitFilesBySize(files, size);
      var status := new UploadStatus(|files|);
      SizeGroupsWellSplit(size, files);
      results, log := UploadBatches(datasetId, groups, annotationTask, folderId, status, respond);
      if !TaskFails(annotationTask) && IsAuthenticated() && files != [] {
        FlattenNonEmpty(size, files, groups);
        PercentageFull(|files|, |files|);
      }
    }

    /** The `ex.map` over the batches with a pool of one worker: every batch
        is uploaded in order, sharing `status`. */
    method UploadBatches(datasetId: nat, groups: seq<seq<Path>>, annotationTask: Option<TaskArg>, folderId: Option<int>,
                         status: UploadStatus, respond: UploadRequest -> Response)
      returns (results: seq<Result<string, ApiError>>, log: seq<LogLine>)
      requires forall i :: 0 <= i < |groups| ==> groups[i] != []
      requires status.totalCount == |Flatten(groups)| && status.currentCount == 0 && status.reportedProgress == 0
      modifies status
      ensures |results| == |groups|
      ensures forall i :: 0 <= i < |groups| ==> BatchOutcome(datasetId, groups[i], annotationTask, folderId, respond, results[i])
      ensures ProgressLog(log, status.reportedProgress)
      ensures TaskFails(annotationTask) || !IsAuthenticated() ==> log == []
      ensures !TaskFails(annotationTask) && IsAuthenticated() && groups != [] ==>
        status.reportedProgress == Percentage(status.totalCount, status.totalCount)
      ensures status.currentCount == (if !TaskFails(annotationTask) && IsAuthenticated() then status.totalCount else 0)
      ensures TaskFails(annotationTask) || !IsAuthenticated() ==> status.reportedProgress == 0
    {
      if groups != [] {
        assert Flatten(groups) == groups[0] + Flatten(groups[1..]);
      }
      results, log := [], [];
      for k := 0 to |groups|
        invariant BatchesSoFar(datasetId, groups, annotationTask, folderId, respond, k, results, log,
                               status.totalCount, status.currentCount, status.reportedProgress)
      {
        results, log := UploadBatch(datasetId, groups, k, annotationTask, folderId, status, respond, results, log);
      }
      assert groups[..|groups|] == groups;
    }

    /** What holds once the first `k` batches are uploaded against a counter
        at `total`, `current` and `reported`. */
    ghost predicate BatchesSoFar(datasetId: nat, groups: seq<seq<Path>>, annotationTask: Option<TaskArg>, folderId: Option<int>,
                                 respond: UploadRequest -> Response, k: nat, results: seq<Result<string, ApiError>>,
                                 log: seq<LogLine>, total: nat, current: nat, reported: nat)
      reads this
    {
      var ok := !TaskFails(annotationTask) && IsAuthenticated();
      && k <= |groups| && |results| == k
      && (forall i :: 0 <= i < k ==> BatchOutcome(datasetId, groups[i], annotationTask, folderId, respond, results[i]))
      && total == |Flatten(groups)| && (groups != [] ==> total > 0)
      && current == (if ok then |Flatten(groups[..k])| else 0)
      && (ok && total > 0 ==> reported == Percentage(current, total))
      && (!ok ==> reported == 0 && log == [])
      && ProgressLog(log, reported)
    }

    /** One turn of the map: uploads batch `k` and records its outcome and
        its lines. */
    method UploadBatch(datasetId: nat, groups: seq<seq<Path>>, k: nat, annotationTask: Option<TaskArg>, folderId: Option<int>,
                       status: UploadStatus, respond: UploadRequest -> Response,
                       results: seq<Result<string, ApiError>>, log: seq<LogLine>)
      returns (results': seq<Result<string, ApiError>>, log': seq<LogLine>)
      requires k < |groups|
      requires BatchesSoFar(datasetId, groups, annotationTask, folderId, respond, k, results, log,
                            status.totalCount, status.currentCount, status.reportedProgress)
      modifies status
      ensures BatchesSoFar(datasetId, groups, annotationTask, folderId, respond, k + 1, results', log',
                           status.totalCount, status.currentCount, status.reportedProgress)
    {
      ghost var ok := !TaskFails(annotationTask) && IsAuthenticated();
      ghost var before := status.currentCount;
      ghost var reported := status.reportedProgress;
      var r, lines := UploadFiles(datasetId, groups[k], annotationTask, folderId, status, respond);
      assert groups[..k + 1] == groups[..k] + [groups[k]];
      FlattenSnoc(groups[..k], groups[k]);
      if ok {
        ghost var warning := Warning(respond(UploadRequest(datasetId, groups[k], FormData(annotationTask).value, folderId)), groups[k]);
        PercentageMonotone(before, status.currentCount, status.totalCount);
        ProgressLogStep(log, warning, reported, status.reportedProgress, status.currentCount, status.totalCount);
        assert log + lines == log + warning
          + (if status.reportedProgress > reported
             then [Progress(ProgressLine(status.reportedProgress, status.currentCount, status.totalCount))] else []);
      }
      results' := results + [r];
      log' := log + lines;
    }
  }
}
