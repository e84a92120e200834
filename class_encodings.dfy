/** Normalising a class encoding (remo/domain/class_encodings.py) into the
    dictionary the server expects, for linking a dataset to an encoding and
    for uploading one. */
module ClassEncodings {
  import opened Common

  const Custom := "custom"
  const Autodetect := "autodetect"
  const GoogleKnowledgeGraph := "GoogleKnowledgeGraph"
  const WordNet := "WordNet"

  /** `predefined`. */
  const Predefined: seq<string> := [WordNet, GoogleKnowledgeGraph]

  /** A class encoding as the caller passes it: a dictionary (its items in
      iteration order), a string, or any other value. */
  datatype EncodingArg = Dict(entries: seq<(string, string)>) | Text(s: string) | Other

  /** A value in the normalised dictionary. */
  datatype Field = Str(s: string) | Classes(entries: seq<(string, string)>)

  /** What `for_linking` returns: a fresh dictionary, or the argument as it
      came. */
  datatype Encoding = Fields(fields: map<string, Field>) | Unchanged(arg: EncodingArg)

  datatype EncodingError = CannotOpen(path: string)

  /** `for_linking`: a dictionary becomes a custom encoding with `classes`;
      a string naming an existing path a custom encoding with `local_path`;
      a predefined name its own type; a multi-line string a custom encoding
      with `raw_content`; anything else is returned as is. `pathExists` stands
      for `os.path.exists`. */
  function ForLinking(arg: EncodingArg, pathExists: string -> bool): (r: Encoding)
    ensures arg.Dict? ==> r == Fields(map["type" := Str(Custom), "classes" := Classes(arg.entries)])
    ensures arg.Text? && pathExists(arg.s) ==> r == Fields(map["type" := Str(Custom), "local_path" := Str(arg.s)])
    ensures arg.Text? && !pathExists(arg.s) && arg.s in Predefined ==> r == Fields(map["type" := Str(arg.s)])
    ensures arg.Text? && !pathExists(arg.s) && arg.s !in Predefined && '\n' in arg.s ==>
      r == Fields(map["type" := Str(Custom), "raw_content" := Str(arg.s)])
    ensures r.Unchanged? <==> arg.Other? || (arg.Text? && !pathExists(arg.s) && arg.s !in Predefined && '\n' !in arg.s)
    ensures r.Unchanged? ==> r.arg == arg
  {
    match arg
    case Dict(entries) => Fields(map["type" := Str(Custom), "classes" := Classes(entries)])
    case Text(s) =>
      if pathExists(s) then Fields(map["type" := Str(Custom), "local_path" := Str(s)])
      else if s in Predefined then Fields(map["type" := Str(s)])
      else if '\n' in s then Fields(map["type" := Str(Custom), "raw_content" := Str(s)])
      else Unchanged(arg)
    case Other => Unchanged(arg)
  }

  /** No two arguments normalise alike: the argument can be read back from
      what `for_linking` returns. */
  lemma ForLinkingInjective(a: EncodingArg, b: EncodingArg, pathExists: string -> bool)
    requires ForLinking(a, pathExists) == ForLinking(b, pathExists)
    ensures a == b
  {
    var r := ForLinking(a, pathExists);
    if r.Fields? {
      var f := r.fields;
      if "classes" in f {
        assert a.Dict? && b.Dict?;
      } else if "local_path" in f {
        assert a.Text? && b.Text? && f["local_path"] == Str(a.s) == Str(b.s);
      } else if "raw_content" in f {
        assert a.Text? && b.Text? && f["raw_content"] == Str(a.s) == Str(b.s);
      } else {
        assert a.Text? && b.Text? && f["type"] == Str(a.s) == Str(b.s);
      }
    }
  }

  /** Every dictionary `for_linking` builds has a `type`: `custom`, or one
      of the predefined names. */
  lemma ForLinkingType(arg: EncodingArg, pathExists: string -> bool)
    ensures ForLinking(arg, pathExists).Fields? ==>
      var f := ForLinking(arg, pathExists).fields;
      "type" in f && (f["type"] == Str(Custom) || (f["type"].Str? && f["type"].s in Predefined))
    ensures ForLinking(arg, pathExists).Fields? && ForLinking(arg, pathExists).fields["type"] != Str(Custom) ==>
      ForLinking(arg, pathExists).fields.Keys == {"type"}
  {
  }

  /** `'{},{}'.format(k, v)` for each item, in order. */
  function ClassLines(entries: seq<(string, string)>): (r: seq<string>)
    ensures |r| == |entries|
    ensures forall i :: 0 <= i < |r| ==> r[i] == entries[i].0 + "," + entries[i].1
  {
    if entries == [] then [] else [entries[0].0 + "," + entries[0].1] + ClassLines(entries[1..])
  }

  /** The `raw_content` a dictionary of classes becomes. */
  function RawContent(entries: seq<(string, string)>): string
  {
    Join(ClassLines(entries), '\n')
  }

  /** When no label or name holds a comma or a line break, the raw content
      reads back, line by line and field by field, as the items. */
  lemma RawContentRoundTrip(entries: seq<(string, string)>)
    requires entries != []
    requires forall i :: 0 <= i < |entries| ==>
      ',' !in entries[i].0 && ',' !in entries[i].1 && '\n' !in entries[i].0 && '\n' !in entries[i].1
    ensures |Split(RawContent(entries), '\n')| == |entries|
    ensures forall i :: 0 <= i < |entries| ==>
      Split(Split(RawContent(entries), '\n')[i], ',') == [entries[i].0, entries[i].1]
  {
    var lines := ClassLines(entries);
    forall i | 0 <= i < |lines| ensures '\n' !in lines[i] {
      assert lines[i] == entries[i].0 + [','] + entries[i].1;
    }
    SplitJoin(lines, '\n');
    forall i | 0 <= i < |entries| ensures Split(lines[i], ',') == [entries[i].0, entries[i].1] {
      SplitAfter(entries[i].0, ',', entries[i].1);
      SplitPlain(entries[i].1, ',');
    }
  }

  /** `for_upload`: normalises as `for_linking`, then swaps `local_path`
      for the file's contents, or `classes` for its `k,v` lines, in the
      returned dictionary. `readText` stands for reading a file whole;
      `None` is a file that cannot be opened, which raises. */
  method ForUpload(arg: EncodingArg, pathExists: string -> bool, readText: string -> Option<string>)
    returns (r: Result<Encoding, EncodingError>)
    ensures arg.Dict? ==> r == Ok(Fields(map["type" := Str(Custom), "raw_content" := Str(RawContent(arg.entries))]))
    ensures arg.Text? && pathExists(arg.s) && readText(arg.s).None? ==> r == Err(CannotOpen(arg.s))
    ensures arg.Text? && pathExists(arg.s) && readText(arg.s).Some? ==>
      r == Ok(Fields(map["type" := Str(Custom), "raw_content" := Str(readText(arg.s).value)]))
    ensures !arg.Dict? && !(arg.Text? && pathExists(arg.s)) ==> r == Ok(ForLinking(arg, pathExists))
  {
    var encoding := ForLinking(arg, pathExists);
    if encoding.Fields? {
      var fields := encoding.fields;
      if "local_path" in fields {
        var localPath := fields["local_path"].s;
        fields := fields - {"local_path"};
        var contents := readText(localPath);
        if contents.None? {
          return Err(CannotOpen(localPath));
        }
        fields := fields["raw_content" := Str(contents.value)];
        assert fields == map["type" := Str(Custom), "raw_content" := Str(contents.value)];
        return Ok(Fields(fields));
      }
      if "classes" in fields {
        var classes := fields["classes"].entries;
        fields := fields - {"classes"};
        fields := fields["raw_content" := Str(RawContent(classes))];
        assert fields == map["type" := Str(Custom), "raw_content" := Str(RawContent(classes))];
        return Ok(Fields(fields));
      }
    }
    r := Ok(encoding);
  }
}
