/** Classification of caller-supplied upload inputs (remo/utils.py).

    A path is a sequence of components; the filesystem is an abstract map
    from path to entry, and `realpath(abspath(p))` is a given canonicalising
    function `canon`. */
module Utils {
  import opened Common

  type Name = string
  type Path = seq<Name>

  const ImageExtensions: set<string> := {".jpeg", ".jpg", ".png", ".tiff", ".tif"}
  const AnnotationExtensions: set<string> := {".csv", ".xml", ".json"}
  const ArchiveExtensions: set<string> := {".zip", ".tar", ".gz", ".bz2"}

  // ---------------------------------------------------------------------
  // Names and extensions
  // ---------------------------------------------------------------------

  function LowerChar(c: char): char
  {
    if 'A' <= c <= 'Z' then (c as int - 'A' as int + 'a' as int) as char else c
  }

  /** `str.lower()` on ASCII letters. */
  function Lower(s: string): (r: string)
    ensures |r| == |s|
    ensures forall i :: 0 <= i < |s| ==> r[i] == LowerChar(s[i])
  {
    seq(|s|, i requires 0 <= i < |s| => LowerChar(s[i]))
  }

  /** `s.rfind(c)`, with None for -1. */
  function LastIndexOf(s: string, c: char): (r: Option<nat>)
    ensures r.Some? ==> r.value < |s| && s[r.value] == c
    ensures r.Some? ==> forall j :: r.value < j < |s| ==> s[j] != c
    ensures r.None? ==> forall j :: 0 <= j < |s| ==> s[j] != c
  {
    if s == [] then None
    else if s[|s| - 1] == c then Some(|s| - 1)
    else LastIndexOf(s[..|s| - 1], c)
  }

  predicate AllDots(s: string)
  {
    forall i :: 0 <= i < |s| ==> s[i] == '.'
  }

  /** The extension part of `os.path.splitext(name)`: from the last dot on,
      unless everything before that dot is a dot (so `.bashrc` and `..jpg`
      have no extension). */
  function RawExtension(name: Name): (ext: string)
    ensures ext == [] || (ext[0] == '.' && |ext| < |name| && ext == name[|name| - |ext|..])
    ensures forall i :: 1 <= i < |ext| ==> ext[i] != '.'
  {
    match LastIndexOf(name, '.')
    case None => []
    case Some(d) => if AllDots(name[..d]) then [] else name[d..]
  }

  /** `file_extension`: the lower-cased extension, which is the matching
      suffix of the lower-cased name. */
  function FileExtension(name: Name): (ext: string)
    ensures ext == [] || (ext[0] == '.' && |ext| < |name| && ext == Lower(name)[|name| - |ext|..])
    ensures forall i :: 1 <= i < |ext| ==> ext[i] != '.'
  {
    var raw := RawExtension(name);
    LowerSlices(name, |name| - |raw|);
    Lower(raw)
  }

  /** A name with an image extension, which is then no other category's and
      has something before it. */
  predicate IsImageFile(name: Name): (b: bool)
    ensures b ==> FileExtension(name) !in AnnotationExtensions && FileExtension(name) !in ArchiveExtensions
    ensures b ==> 0 < |FileExtension(name)| < |name|
  {
    ExtensionSetsDisjoint();
    FileExtension(name) in ImageExtensions
  }

  predicate IsAnnotationFile(name: Name): (b: bool)
    ensures b ==> FileExtension(name) !in ImageExtensions && FileExtension(name) !in ArchiveExtensions
    ensures b ==> 0 < |FileExtension(name)| < |name|
  {
    ExtensionSetsDisjoint();
    FileExtension(name) in AnnotationExtensions
  }

  predicate IsArchiveFile(name: Name): (b: bool)
    ensures b ==> FileExtension(name) !in ImageExtensions && FileExtension(name) !in AnnotationExtensions
    ensures b ==> 0 < |FileExtension(name)| < |name|
  {
    ExtensionSetsDisjoint();
    FileExtension(name) in ArchiveExtensions
  }

  /** A hidden name: one that begins with a dot. */
  predicate IsIgnoredFile(name: Name): (b: bool)
    ensures b <==> "." <= name
  {
    |name| > 0 && name[0] == '.'
  }

  // Case-insensitivity of the extension test

  lemma LowerIdempotent(s: string)
    ensures Lower(Lower(s)) == Lower(s)
  {
    assert forall i :: 0 <= i < |s| ==> LowerChar(LowerChar(s[i])) == LowerChar(s[i]);
  }

  lemma LowerSlices(s: string, d: nat)
    requires d <= |s|
    ensures Lower(s)[..d] == Lower(s[..d]) && Lower(s)[d..] == Lower(s[d..])
  {
    var r := Lower(s);
    forall i | 0 <= i < d ensures r[..d][i] == Lower(s[..d])[i] {
      assert r[i] == LowerChar(s[i]);
    }
    forall i | 0 <= i < |s| - d ensures r[d..][i] == Lower(s[d..])[i] {
      assert r[d + i] == LowerChar(s[d + i]);
    }
  }

  lemma {:induction false} LastIndexOfLower(s: string)
    ensures LastIndexOf(Lower(s), '.') == LastIndexOf(s, '.')
  {
    if s != [] {
      var n := |s| - 1;
      assert LowerChar(s[n]) == '.' <==> s[n] == '.';
      assert Lower(s)[n] == LowerChar(s[n]);
      LowerSlices(s, n);
      LastIndexOfLower(s[..n]);
    }
  }

  /** Upper-casing any letter of a name never changes its category: the
      extension is compared after `lower()`. */
  lemma FileExtensionIgnoresCase(name: Name)
    ensures FileExtension(Lower(name)) == FileExtension(name)
  {
    LastIndexOfLower(name);
    match LastIndexOf(name, '.')
    case None =>
    case Some(d) =>
      LowerSlices(name, d);
      assert AllDots(Lower(name)[..d]) <==> AllDots(name[..d]) by {
        forall i | 0 <= i < d ensures LowerChar(name[i]) == '.' <==> name[i] == '.' { }
      }
      LowerIdempotent(name[d..]);
  }

  lemma CategoriesIgnoreCase(name: Name)
    ensures IsImageFile(Lower(name)) == IsImageFile(name)
    ensures IsAnnotationFile(Lower(name)) == IsAnnotationFile(name)
    ensures IsArchiveFile(Lower(name)) == IsArchiveFile(name)
  {
    FileExtensionIgnoresCase(name);
  }

  // An independent reading of "has extension e, ignoring case"

  /** A lower-case extension: a dot followed by non-dot characters. */
  predicate IsDotExtension(e: string)
  {
    |e| >= 1 && e[0] == '.' &&
    (forall i :: 1 <= i < |e| ==> e[i] != '.') &&
    (forall i :: 0 <= i < |e| ==> !('A' <= e[i] <= 'Z'))
  }

  /** `name` ends with `e` up to case, and something other than dots comes
      before that suffix. */
  predicate EndsWithExtension(name: Name, e: string)
  {
    |e| <= |name| && Lower(name[|name| - |e|..]) == e && !AllDots(name[..|name| - |e|])
  }

  lemma FileExtensionIs(name: Name, e: string)
    requires IsDotExtension(e)
    ensures FileExtension(name) == e <==> EndsWithExtension(name, e)
  {
    if FileExtension(name) == e {
      ExtensionEnds(name, e);
    }
    if EndsWithExtension(name, e) {
      EndsGivesExtension(name, e);
    }
  }

  lemma ExtensionEnds(name: Name, e: string)
    requires IsDotExtension(e) && FileExtension(name) == e
    ensures EndsWithExtension(name, e)
  {
    match LastIndexOf(name, '.')
    case None =>
    case Some(d) =>
      assert |name| - |e| == d;
  }

  lemma EndsGivesExtension(name: Name, e: string)
    requires IsDotExtension(e) && EndsWithExtension(name, e)
    ensures FileExtension(name) == e
  {
    var k := |name| - |e|;
    assert LowerChar(name[k]) == e[0];
    assert name[k] == '.';
    forall j | k < j < |name| ensures name[j] != '.' {
      assert LowerChar(name[j]) == e[j - k];
    }
    LastIndexOfIs(name, '.', k);
  }

  /** The last `c` is at `k` when `s[k]` is `c` and none follows it. */
  lemma {:induction false} LastIndexOfIs(s: string, c: char, k: nat)
    requires k < |s| && s[k] == c
    requires forall j :: k < j < |s| ==> s[j] != c
    ensures LastIndexOf(s, c) == Some(k)
  {
    var n := |s| - 1;
    if k < n {
      assert s[..n][k] == c;
      LastIndexOfIs(s[..n], c, k);
    }
  }

  lemma ExtensionSetIs(name: Name, exts: set<string>)
    requires forall e :: e in exts ==> IsDotExtension(e)
    ensures FileExtension(name) in exts <==> exists e :: e in exts && EndsWithExtension(name, e)
  {
    if FileExtension(name) in exts {
      FileExtensionIs(name, FileExtension(name));
    }
    forall e | e in exts && EndsWithExtension(name, e) ensures FileExtension(name) in exts {
      FileExtensionIs(name, e);
    }
  }

  lemma ExtensionSetsDisjoint()
    ensures ImageExtensions !! AnnotationExtensions
    ensures ImageExtensions !! ArchiveExtensions
    ensures AnnotationExtensions !! ArchiveExtensions
  {
  }

  lemma KnownExtensionsAreDotExtensions()
    ensures forall e :: e in ImageExtensions ==> IsDotExtension(e)
    ensures forall e :: e in AnnotationExtensions ==> IsDotExtension(e)
    ensures forall e :: e in ArchiveExtensions ==> IsDotExtension(e)
  {
  }

  /** A file is an image exactly when its name ends, in any case, with one of
      `.jpeg .jpg .png .tiff .tif`; likewise for annotations and archives. */
  lemma CategoriesBySuffix(name: Name)
    ensures IsImageFile(name) <==> exists e :: e in ImageExtensions && EndsWithExtension(name, e)
    ensures IsAnnotationFile(name) <==> exists e :: e in AnnotationExtensions && EndsWithExtension(name, e)
    ensures IsArchiveFile(name) <==> exists e :: e in ArchiveExtensions && EndsWithExtension(name, e)
  {
    KnownExtensionsAreDotExtensions();
    ExtensionSetIs(name, ImageExtensions);
    ExtensionSetIs(name, AnnotationExtensions);
    ExtensionSetIs(name, ArchiveExtensions);
  }

  // ---------------------------------------------------------------------
  // Filesystem view and the classification of one resolved path
  // ---------------------------------------------------------------------

  datatype Entry = File | Dir
  type FileSystem = map<Path, Entry>

  datatype Category = Image | Annotation | Archive | Skipped

  function Basename(p: Path): Name
  {
    if p == [] then "" else p[|p| - 1]
  }

  predicate IsFile(fs: FileSystem, p: Path)
  {
    p in fs && fs[p].File?
  }

  predicate IsDir(fs: FileSystem, p: Path)
  {
    p in fs && fs[p].Dir?
  }

  predicate StrictlyUnder(top: Path, p: Path)
  {
    |top| < |p| && p[..|top|] == top
  }

  /** Every file `os.walk(top)` yields, joined to its directory. */
  function WalkFiles(fs: FileSystem, top: Path): set<Path>
  {
    set p | p in fs && StrictlyUnder(top, p) && fs[p].File?
  }

  /** The category `_check_file` gives a name: dot-files first, then
      annotations when they are disabled, then image, annotation, archive. */
  function ClassifyName(name: Name, withAnnotations: bool): (c: Category)
    ensures c == Image <==> !IsIgnoredFile(name) && IsImageFile(name)
    ensures c == Annotation <==> withAnnotations && !IsIgnoredFile(name) && IsAnnotationFile(name)
    ensures c == Archive <==> !IsIgnoredFile(name) && IsArchiveFile(name)
  {
    ExtensionSetsDisjoint();
    if IsIgnoredFile(name) then Skipped
    else if !withAnnotations && IsAnnotationFile(name) then Skipped
    else if IsImageFile(name) then Image
    else if withAnnotations && IsAnnotationFile(name) then Annotation
    else if IsArchiveFile(name) then Archive
    else Skipped
  }

  /** The category of a canonical path: nothing when it does not exist. */
  function ResolvedCategory(fs: FileSystem, withAnnotations: bool, r: Path): Category
  {
    if r !in fs then Skipped else ClassifyName(Basename(r), withAnnotations)
  }

  /** The canonical paths of the raw paths in `S` that land in `cat`. */
  function Gather(fs: FileSystem, canon: Path -> Path, withAnnotations: bool, S: set<Path>, cat: Category): set<Path>
  {
    set q | q in S && ResolvedCategory(fs, withAnnotations, canon(q)) == cat :: canon(q)
  }

  /** The raw paths `resolve` hands to `_check_file` for one input. */
  function Reached(fs: FileSystem, p: Path): set<Path>
  {
    (if IsFile(fs, p) then {p} else {}) + (if IsDir(fs, p) then WalkFiles(fs, p) else {})
  }

  function AllReached(fs: FileSystem, files: seq<Path>): set<Path>
  {
    if files == [] then {} else AllReached(fs, files[..|files| - 1]) + Reached(fs, files[|files| - 1])
  }

  lemma GatherUnion(fs: FileSystem, canon: Path -> Path, w: bool, A: set<Path>, B: set<Path>, cat: Category)
    ensures Gather(fs, canon, w, A + B, cat) == Gather(fs, canon, w, A, cat) + Gather(fs, canon, w, B, cat)
  {
  }

  lemma GatherSingleton(fs: FileSystem, canon: Path -> Path, w: bool, p: Path, cat: Category)
    ensures Gather(fs, canon, w, {p}, cat) == if ResolvedCategory(fs, w, canon(p)) == cat then {canon(p)} else {}
  {
    if ResolvedCategory(fs, w, canon(p)) == cat {
      assert canon(p) in Gather(fs, canon, w, {p}, cat);
    }
  }

  // ---------------------------------------------------------------------
  // FileResolver
  // ---------------------------------------------------------------------

  /** The images, annotations and archives found so far. */
  datatype Found = Found(images: set<Path>, annotations: set<Path>, archives: set<Path>)

  /** `after` is `before` with what the raw paths in `S` contribute added. */
  ghost predicate Grown(fs: FileSystem, canon: Path -> Path, w: bool, S: set<Path>, before: Found, after: Found)
  {
    && after.images == before.images + Gather(fs, canon, w, S, Image)
    && after.annotations == before.annotations + Gather(fs, canon, w, S, Annotation)
    && after.archives == before.archives + Gather(fs, canon, w, S, Archive)
  }

  lemma GrownCompose(fs: FileSystem, canon: Path -> Path, w: bool, A: set<Path>, B: set<Path>, s0: Found, s1: Found, s2: Found)
    requires Grown(fs, canon, w, A, s0, s1) && Grown(fs, canon, w, B, s1, s2)
    ensures Grown(fs, canon, w, A + B, s0, s2)
  {
    GatherUnion(fs, canon, w, A, B, Image);
    GatherUnion(fs, canon, w, A, B, Annotation);
    GatherUnion(fs, canon, w, A, B, Archive);
  }

  class FileResolver {
    var images: set<Path>
    var annotations: set<Path>
    var archives: set<Path>
    const files: seq<Path>
    const withAnnotations: bool

    constructor (files: seq<Path>, withAnnotations: bool)
      ensures images == {} && annotations == {} && archives == {}
      ensures this.files == files && this.withAnnotations == withAnnotations
    {
      this.files := files;
      this.withAnnotations := withAnnotations;
      images, annotations, archives := {}, {}, {};
    }

    ghost function Snapshot(): Found
      reads this
    {
      Found(images, annotations, archives)
    }

    method CheckFile(fs: FileSystem, canon: Path -> Path, path: Path)
      modifies this
      ensures Grown(fs, canon, withAnnotations, {path}, old(Snapshot()), Snapshot())
    {
      GatherSingleton(fs, canon, withAnnotations, path, Image);
      GatherSingleton(fs, canon, withAnnotations, path, Annotation);
      GatherSingleton(fs, canon, withAnnotations, path, Archive);
      var resolved := canon(path);
      if resolved !in fs {
        return;
      }
      var name := Basename(resolved);
      if IsIgnoredFile(name) {
        return;
      }
      if !withAnnotations && IsAnnotationFile(name) {
        return;
      }
      if IsImageFile(name) {
        images := images + {resolved};
        return;
      }
      if withAnnotations && IsAnnotationFile(name) {
        annotations := annotations + {resolved};
        return;
      }
      if IsArchiveFile(name) {
        archives := archives + {resolved};
      }
    }

    /** Walks `path` and checks every file under it, in whatever order the
        walk yields them. */
    method CheckDir(fs: FileSystem, canon: Path -> Path, path: Path)
      modifies this
      ensures Grown(fs, canon, withAnnotations, WalkFiles(fs, path), old(Snapshot()), Snapshot())
    {
      var pending := WalkFiles(fs, path);
      ghost var visited: set<Path> := {};
      while pending != {}
        invariant visited + pending == WalkFiles(fs, path)
        invariant Grown(fs, canon, withAnnotations, visited, old(Snapshot()), Snapshot())
        decreases pending
      {
        var p :| p in pending;
        ghost var mid := Snapshot();
        CheckFile(fs, canon, p);
        GrownCompose(fs, canon, withAnnotations, visited, {p}, old(Snapshot()), mid, Snapshot());
        visited := visited + {p};
        pending := pending - {p};
      }
    }

    /** Checks every input, then lists images, then annotations, then
        archives (each set in an unspecified order). */
    method Resolve(fs: FileSystem, canon: Path -> Path) returns (r: seq<Path>)
      modifies this
      ensures Grown(fs, canon, withAnnotations, AllReached(fs, files), old(Snapshot()), Snapshot())
      ensures |r| == |images| + |annotations| + |archives|
      ensures Enumerates(r[..|images|], images)
      ensures Enumerates(r[|images|..|images| + |annotations|], annotations)
      ensures Enumerates(r[|images| + |annotations|..], archives)
    {
      for i := 0 to |files|
        invariant Grown(fs, canon, withAnnotations, AllReached(fs, files[..i]), old(Snapshot()), Snapshot())
      {
        var path := files[i];
        ghost var before := AllReached(fs, files[..i]);
        assert files[..i + 1][..i] == files[..i];
        if IsFile(fs, path) {
          ghost var mid := Snapshot();
          CheckFile(fs, canon, path);
          GrownCompose(fs, canon, withAnnotations, before, {path}, old(Snapshot()), mid, Snapshot());
          before := before + {path};
        }
        if IsDir(fs, path) {
          ghost var mid := Snapshot();
          CheckDir(fs, canon, path);
          GrownCompose(fs, canon, withAnnotations, before, WalkFiles(fs, path), old(Snapshot()), mid, Snapshot());
          before := before + WalkFiles(fs, path);
        }
        assert before == AllReached(fs, files[..i + 1]);
      }
      assert files[..|files|] == files;
      var a := ListOf(images);
      var b := ListOf(annotations);
      var c := ListOf(archives);
      r := a + b + c;
      ConcatSlices(a, b, c);
    }
  }

  lemma ConcatSlices(a: seq<Path>, b: seq<Path>, c: seq<Path>)
    ensures (a + b + c)[..|a|] == a
    ensures (a + b + c)[|a|..|a| + |b|] == b
    ensures (a + b + c)[|a| + |b|..] == c
  {
  }

  /** `list(s)`: every element once, in an unspecified order. */
  method ListOf(s: set<Path>) returns (xs: seq<Path>)
    ensures Enumerates(xs, s) && |xs| == |s|
  {
    xs := [];
    var rest := s;
    while rest != {}
      invariant Enumerates(xs, s - rest) && rest <= s
      invariant |xs| + |rest| == |s|
      decreases rest
    {
      var x :| x in rest;
      assert (set y | y in xs + [x]) == (set y | y in xs) + {x};
      xs := xs + [x];
      rest := rest - {x};
    }
    assert s - rest == s;
  }

  // ---------------------------------------------------------------------
  // Properties of the resolution
  // ---------------------------------------------------------------------

  /** A raw path is checked exactly when some input reaches it. */
  lemma {:induction false} AllReachedMembers(fs: FileSystem, files: seq<Path>, q: Path)
    ensures q in AllReached(fs, files) <==> exists i :: 0 <= i < |files| && q in Reached(fs, files[i])
  {
    if files != [] {
      var n := |files| - 1;
      AllReachedMembers(fs, files[..n], q);
      if q in AllReached(fs, files) && q !in Reached(fs, files[n]) {
        var i :| 0 <= i < n && q in Reached(fs, files[..n][i]);
        assert files[i] == files[..n][i];
      }
      forall i | 0 <= i < n && q in Reached(fs, files[i])
        ensures q in AllReached(fs, files[..n])
      {
        assert files[..n][i] == files[i];
      }
    }
  }

  /** Every file nested anywhere under an input directory is checked, and
      lands in its category under its canonical path. */
  lemma NestedFileIsResolved(fs: FileSystem, canon: Path -> Path, w: bool, files: seq<Path>, i: nat, q: Path)
    requires i < |files| && IsDir(fs, files[i])
    requires IsFile(fs, q) && StrictlyUnder(files[i], q)
    requires ResolvedCategory(fs, w, canon(q)) != Skipped
    ensures canon(q) in Gather(fs, canon, w, AllReached(fs, files), ResolvedCategory(fs, w, canon(q)))
  {
    assert q in Reached(fs, files[i]);
    AllReachedMembers(fs, files, q);
  }

  /** Each canonical path lands in at most one category. */
  lemma CategoriesDisjoint(fs: FileSystem, canon: Path -> Path, w: bool, S: set<Path>)
    ensures Gather(fs, canon, w, S, Image) !! Gather(fs, canon, w, S, Annotation)
    ensures Gather(fs, canon, w, S, Image) !! Gather(fs, canon, w, S, Archive)
    ensures Gather(fs, canon, w, S, Annotation) !! Gather(fs, canon, w, S, Archive)
  {
  }

  /** With annotations disabled, no annotation file is output at all. */
  lemma NoAnnotationsUnlessEnabled(fs: FileSystem, canon: Path -> Path, S: set<Path>)
    ensures Gather(fs, canon, false, S, Annotation) == {}
    ensures forall x :: x in Gather(fs, canon, false, S, Image) ==> !IsAnnotationFile(Basename(x))
    ensures forall x :: x in Gather(fs, canon, false, S, Archive) ==> !IsAnnotationFile(Basename(x))
  {
  }

  /** An input that is neither a file nor a directory adds nothing. */
  lemma MissingInputIgnored(fs: FileSystem, files: seq<Path>, p: Path)
    requires p !in fs
    ensures AllReached(fs, files + [p]) == AllReached(fs, files)
  {
    assert (files + [p])[..|files|] == files;
  }

  /** Naming a directory and a file inside it reaches nothing more than the
      directory alone, so that file is output once. */
  lemma NestedInputAddsNothing(fs: FileSystem, top: Path, q: Path)
    requires IsDir(fs, top) && IsFile(fs, q) && StrictlyUnder(top, q)
    ensures AllReached(fs, [top, q]) == AllReached(fs, [top])
  {
    assert [top, q][..1] == [top];
    assert [top][..0] == [];
  }

  lemma NoDuplicatesConcat(x: seq<Path>, y: seq<Path>)
    requires NoDuplicates(x) && NoDuplicates(y)
    requires forall v :: v in x ==> v !in y
    ensures NoDuplicates(x + y)
  {
    var r := x + y;
    forall i, j | 0 <= i < j < |r| ensures r[i] != r[j] {
      if j < |x| {
        assert r[i] == x[i] && r[j] == x[j];
      } else if i < |x| {
        assert r[i] == x[i] && r[j] == y[j - |x|];
        assert x[i] in x;
      } else {
        assert r[i] == y[i - |x|] && r[j] == y[j - |x|];
      }
    }
  }

  /** Starting from an empty resolver, the output has no duplicates. */
  lemma ResolvedOutputIsDuplicateFree(fs: FileSystem, canon: Path -> Path, w: bool, S: set<Path>,
                                      a: seq<Path>, b: seq<Path>, c: seq<Path>)
    requires Enumerates(a, Gather(fs, canon, w, S, Image))
    requires Enumerates(b, Gather(fs, canon, w, S, Annotation))
    requires Enumerates(c, Gather(fs, canon, w, S, Archive))
    ensures NoDuplicates(a + b + c)
  {
    CategoriesDisjoint(fs, canon, w, S);
    assert forall v :: v in a ==> v in Gather(fs, canon, w, S, Image);
    assert forall v :: v in b ==> v in Gather(fs, canon, w, S, Annotation);
    assert forall v :: v in c ==> v in Gather(fs, canon, w, S, Archive);
    NoDuplicatesConcat(a, b);
    NoDuplicatesConcat(a + b, c);
  }

  /** Everything `resolve` lists for the raw paths `S`. */
  function Resolvable(fs: FileSystem, canon: Path -> Path, w: bool, S: set<Path>): set<Path>
  {
    Gather(fs, canon, w, S, Image) + Gather(fs, canon, w, S, Annotation) + Gather(fs, canon, w, S, Archive)
  }

  /** A path is listed exactly when it is the canonical form of a reached
      path that exists and is not skipped. */
  lemma ResolvableMembers(fs: FileSystem, canon: Path -> Path, w: bool, S: set<Path>, x: Path)
    ensures x in Resolvable(fs, canon, w, S) <==>
      exists q :: q in S && canon(q) == x && ResolvedCategory(fs, w, x) != Skipped
  {
    if x in Resolvable(fs, canon, w, S) {
      var q :| q in S && canon(q) == x && ResolvedCategory(fs, w, canon(q)) in {Image, Annotation, Archive};
    }
    if exists q :: q in S && canon(q) == x && ResolvedCategory(fs, w, x) != Skipped {
      var q :| q in S && canon(q) == x && ResolvedCategory(fs, w, x) != Skipped;
      assert x in Gather(fs, canon, w, S, ResolvedCategory(fs, w, x));
    }
  }

  /** The list `resolve` returns, read as its three slices, names every
      listed path exactly once. */
  lemma ResolvedListing(fs: FileSystem, canon: Path -> Path, w: bool, S: set<Path>, r: seq<Path>, ni: nat, na: nat)
    requires ni + na <= |r|
    requires Enumerates(r[..ni], Gather(fs, canon, w, S, Image))
    requires Enumerates(r[ni..ni + na], Gather(fs, canon, w, S, Annotation))
    requires Enumerates(r[ni + na..], Gather(fs, canon, w, S, Archive))
    ensures Enumerates(r, Resolvable(fs, canon, w, S))
  {
    var a, b, c := r[..ni], r[ni..ni + na], r[ni + na..];
    assert r == a + b + c;
    ResolvedOutputIsDuplicateFree(fs, canon, w, S, a, b, c);
    assert forall x :: x in r <==> x in a || x in b || x in c;
  }

  /** Position of a category in the list `resolve` returns. */
  function Rank(c: Category): nat
  {
    match c
    case Image => 0
    case Annotation => 1
    case Archive => 2
    case Skipped => 3
  }

  lemma GatherCategory(fs: FileSystem, canon: Path -> Path, w: bool, S: set<Path>, cat: Category, x: Path)
    requires x in Gather(fs, canon, w, S, cat)
    ensures ResolvedCategory(fs, w, x) == cat
  {
    var q :| q in S && ResolvedCategory(fs, w, canon(q)) == cat && canon(q) == x;
  }

  /** The three slices of the listing hold images, then annotations, then
      archives. */
  lemma ResolvedOrder(fs: FileSystem, canon: Path -> Path, w: bool, S: set<Path>, r: seq<Path>, ni: nat, na: nat)
    requires ni + na <= |r|
    requires Enumerates(r[..ni], Gather(fs, canon, w, S, Image))
    requires Enumerates(r[ni..ni + na], Gather(fs, canon, w, S, Annotation))
    requires Enumerates(r[ni + na..], Gather(fs, canon, w, S, Archive))
    ensures forall i, j :: 0 <= i < j < |r| ==> Rank(ResolvedCategory(fs, w, r[i])) <= Rank(ResolvedCategory(fs, w, r[j]))
  {
    forall i | 0 <= i < |r|
      ensures Rank(ResolvedCategory(fs, w, r[i])) == if i < ni then 0 else if i < ni + na then 1 else 2
    {
      if i < ni {
        assert r[i] in r[..ni];
        GatherCategory(fs, canon, w, S, Image, r[i]);
      } else if i < ni + na {
        assert r[i] == r[ni..ni + na][i - ni];
        GatherCategory(fs, canon, w, S, Annotation, r[i]);
      } else {
        assert r[i] == r[ni + na..][i - ni - na];
        GatherCategory(fs, canon, w, S, Archive, r[i]);
      }
    }
  }

  /** The sets of a resolver that started empty are exactly what the raw
      paths contribute, so a listing of them is a listing of those. */
  lemma FreshSlices(fs: FileSystem, canon: Path -> Path, w: bool, S: set<Path>, found: Found,
                    a: seq<Path>, b: seq<Path>, c: seq<Path>)
    requires Grown(fs, canon, w, S, Found({}, {}, {}), found)
    requires Enumerates(a, found.images) && Enumerates(b, found.annotations) && Enumerates(c, found.archives)
    ensures Enumerates(a, Gather(fs, canon, w, S, Image))
    ensures Enumerates(b, Gather(fs, canon, w, S, Annotation))
    ensures Enumerates(c, Gather(fs, canon, w, S, Archive))
  {
    assert found.images == Gather(fs, canon, w, S, Image);
    assert found.annotations == Gather(fs, canon, w, S, Annotation);
    assert found.archives == Gather(fs, canon, w, S, Archive);
  }

  /** `FileResolver(files, withAnnotations).resolve()` on a fresh resolver:
      every listed path once, images first, then annotations, then archives. */
  method ResolveInputs(fs: FileSystem, canon: Path -> Path, files: seq<Path>, withAnnotations: bool) returns (r: seq<Path>)
    ensures Enumerates(r, Resolvable(fs, canon, withAnnotations, AllReached(fs, files)))
    ensures forall i, j :: 0 <= i < j < |r| ==>
      Rank(ResolvedCategory(fs, withAnnotations, r[i])) <= Rank(ResolvedCategory(fs, withAnnotations, r[j]))
  {
    var resolver := new FileResolver(files, withAnnotations);
    r := resolver.Resolve(fs, canon);
    ghost var S := AllReached(fs, files);
    ghost var ni, na := |resolver.images|, |resolver.annotations|;
    FreshSlices(fs, canon, withAnnotations, S, resolver.Snapshot(), r[..ni], r[ni..ni + na], r[ni + na..]);
    ResolvedListing(fs, canon, withAnnotations, S, r, ni, na);
    ResolvedOrder(fs, canon, withAnnotations, S, r, ni, na);
  }
}
