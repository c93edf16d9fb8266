/**
 The output decisions of the JSON writer (`JSONWriter.write_json_file`):
 where a page's JSON goes, whether the root index is written as a bare array,
 and how a record is split into a main file and a `.content.json` file when
 content is kept separately. The writes themselves are returned as a list of
 (path, value) artifacts relative to the output directory; serialising the
 values (indented or minified) is outside the model.
 */
module JsonWriter {
  import opened Text
  import opened Values

  // ---------------------------------------------------------------------------
  // Paths (`write_json_file` lines 27-32, `_write_separate_content` lines 53 and 67)
  // ---------------------------------------------------------------------------

  /** `Path(a) / b` on relative paths: an empty directory part drops out. */
  function JoinPath(a: string, b: string): (r: string) {
    if a == "" then b else a + "/" + b
  }

  /** The path of a page's JSON file: the root index, a section index
      (`docname[:-6]` / `index.json`), or `docname.json`. */
  function JsonPath(docname: string): (r: string)
    ensures EndsWith(r, ".json")
  {
    if docname == "index" then "index.json"
    else if EndsWith(docname, "/index") then JoinPath(docname[..|docname| - 6], "index.json")
    else docname + ".json"
  }

  /** The three branches all give `docname.json`, except for the docname
      `/index`, whose empty directory part drops out. */
  lemma JsonPathIsDocname(docname: string)
    ensures JsonPath(docname) == docname + ".json" <==> docname != "/index"
  {
    if EndsWith(docname, "/index") && docname != "index" {
      var d := docname[..|docname| - 6];
      assert docname == d + "/index";
      if d == "" {
        assert |JsonPath(docname)| != |docname + ".json"|;
      }
    }
  }

  /** The last component of a path (`Path.name`): what follows the last `/`. */
  function BaseName(p: string): (r: string)
    ensures '/' !in r && |r| <= |p|
  {
    if |p| == 0 || p[|p| - 1] == '/' then ""
    else BaseName(p[..|p| - 1]) + [p[|p| - 1]]
  }

  /** A slash-free tail extends the last component. */
  lemma {:induction false} BaseNameAppend(a: string, b: string)
    requires '/' !in b
    ensures BaseName(a + b) == BaseName(a) + b
    decreases |b|
  {
    if |b| > 0 {
      var b' := b[..|b| - 1];
      assert (a + b)[..|a + b| - 1] == a + b';
      assert (a + b)[|a + b| - 1] == b[|b| - 1] != '/';
      BaseNameAppend(a, b');
      assert b' + [b[|b| - 1]] == b;
    } else {
      assert a + b == a;
    }
  }

  /** `json_path.with_suffix(".content.json")`: the `.json` suffix of the last
      component is replaced; a last component that is only `.json` has no
      suffix in Python's sense and gets the new one appended. */
  function ContentPath(p: string): (r: string)
    requires EndsWith(p, ".json")
  {
    if |BaseName(p)| > 5 then p[..|p| - 5] + ".content.json" else p + ".content.json"
  }

  /** For a docname whose last component is not empty, the content file sits
      next to the main file: `docname.content.json`, named after the page. */
  lemma ContentPathOfDocname(docname: string)
    requires docname != "/index" && |BaseName(docname)| > 0
    ensures ContentPath(JsonPath(docname)) == docname + ".content.json"
    ensures BaseName(ContentPath(JsonPath(docname))) == BaseName(docname) + ".content.json"
  {
    JsonPathIsDocname(docname);
    BaseNameAppend(docname, ".json");
    assert (docname + ".json")[..|docname + ".json"| - 5] == docname;
    BaseNameAppend(docname, ".content.json");
  }

  // ---------------------------------------------------------------------------
  // Records (`_write_separate_content` and `_write_index_array`, lines 50-77)
  // ---------------------------------------------------------------------------

  /** `data.get(k, default)`: a present key wins even when its value is null. */
  function GetDefault(data: Fields, k: string, default: Value): (r: Value)
    ensures HasKey(data, k) ==> r == Lookup(data, k).value
    ensures !HasKey(data, k) ==> r == default
  {
    Lookup(data, k).GetOr(default)
  }

  /** The `.content.json` record; `data["id"]` and `data["content"]` must be
      present, or Python raises. */
  function ContentRecord(data: Fields): (r: Fields)
    requires HasKey(data, "id") && HasKey(data, "content")
  {
    [ ("id", Lookup(data, "id").value),
      ("content", Lookup(data, "content").value),
      ("format", GetDefault(data, "format", Str("text"))),
      ("content_length", GetDefault(data, "content_length", Int(0))),
      ("word_count", GetDefault(data, "word_count", Int(0))) ]
  }

  /** The content record holds exactly the five keys, the first two copied,
      the other three copied or defaulted. */
  lemma ContentRecordKeys(data: Fields)
    requires HasKey(data, "id") && HasKey(data, "content")
    ensures var r := ContentRecord(data);
            && Keys(r) == ["id", "content", "format", "content_length", "word_count"]
            && UniqueKeys(r)
            && Lookup(r, "id") == Lookup(data, "id") && Lookup(r, "content") == Lookup(data, "content")
            && Lookup(r, "format") == Some(if HasKey(data, "format") then Get(data, "format") else Str("text"))
            && Lookup(r, "content_length") == Some(if HasKey(data, "content_length") then Get(data, "content_length") else Int(0))
            && Lookup(r, "word_count") == Some(if HasKey(data, "word_count") then Get(data, "word_count") else Int(0))
  {
    var r := ContentRecord(data);
    assert UniqueKeys(r);
    LookupUnique(r, 2);
    LookupUnique(r, 3);
    LookupUnique(r, 4);
  }

  /** The main record: a copy of the input without `content`, with
      `content_file` naming the content file. */
  function MainRecord(data: Fields, contentFile: string): Fields {
    Set(Delete(data, "content"), "content_file", Str(contentFile))
  }

  /** The main record differs from the input only in `content` (gone) and
      `content_file` (the file name); every other key keeps its value. */
  lemma MainRecordLookup(data: Fields, contentFile: string, k: string)
    ensures Lookup(MainRecord(data, contentFile), k) ==
              if k == "content_file" then Some(Str(contentFile))
              else if k == "content" then None
              else Lookup(data, k)
  {
  }

  /** Main record and content record together keep the input's content. */
  lemma SplitKeepsContent(data: Fields, contentFile: string)
    requires HasKey(data, "id") && HasKey(data, "content")
    ensures Lookup(ContentRecord(data), "content") == Lookup(data, "content")
    ensures Lookup(MainRecord(data, contentFile), "content") == None
    ensures Lookup(ContentRecord(data), "id") == Lookup(MainRecord(data, contentFile), "id")
  {
    MainRecordLookup(data, contentFile, "id");
  }

  // ---------------------------------------------------------------------------
  // write_json_file (lines 22-48 of json_writer.py)
  // ---------------------------------------------------------------------------

  /** A file the writer produces: its path under the output directory and the
      JSON value written there. */
  datatype Artifact = Artifact(path: string, json: Value)

  /** What one call produces: the files written in order, or nothing when
      the split hits a record without `id` (the `KeyError` is logged). */
  datatype WriteResult = Wrote(files: seq<Artifact>) | Failed

  /** Which of the three writers handles a record. */
  datatype Route = IndexArray | SeparateContent | SingleFile

  /** The dispatch: the root index with children is written as an array,
      else a record with content is split when `separate_content` is on,
      else the record is written whole. */
  function RouteOf(docname: string, data: Fields, separateContent: bool): (r: Route) {
    if docname == "index" && HasKey(data, "children") then IndexArray
    else if separateContent && HasKey(data, "content") then SeparateContent
    else SingleFile
  }

  /** `write_json_file` with the `separate_content` setting's truth value. */
  function WriteJsonFile(docname: string, data: Fields, separateContent: bool): (r: WriteResult) {
    var p := JsonPath(docname);
    match RouteOf(docname, data, separateContent)
    case IndexArray => Wrote([Artifact(p, GetDefault(data, "children", List([])))])
    case SeparateContent =>
      if !HasKey(data, "id") then Failed
      else
        var cp := ContentPath(p);
        Wrote([Artifact(cp, Obj(ContentRecord(data))), Artifact(p, Obj(MainRecord(data, BaseName(cp))))])
    case SingleFile => Wrote([Artifact(p, Obj(data))])
  }

  /** The root index with children becomes the bare `children` value, with
      no wrapping object, whatever the other settings. */
  lemma IndexWrittenAsArray(data: Fields, separateContent: bool)
    requires HasKey(data, "children")
    ensures WriteJsonFile("index", data, separateContent) == Wrote([Artifact("index.json", Lookup(data, "children").value)])
  {
  }

  /** Split records: the content file comes first, then the main file at the
      page's path whose `content_file` names the content file; a record
      without `id` produces nothing. Every write lands at the page's path or
      its content path. */
  lemma WriteOutcomes(docname: string, data: Fields, separateContent: bool)
    ensures var r := WriteJsonFile(docname, data, separateContent);
            var p := JsonPath(docname);
            && (r.Failed? <==> RouteOf(docname, data, separateContent) == SeparateContent && !HasKey(data, "id"))
            && (r.Wrote? && RouteOf(docname, data, separateContent) == SeparateContent ==>
                  |r.files| == 2 && r.files[0].path == ContentPath(p) && r.files[1].path == p
                  && r.files[1].json.Obj?
                  && Lookup(r.files[1].json.fields, "content_file") == Some(Str(BaseName(ContentPath(p))))
                  && Lookup(r.files[1].json.fields, "content") == None
                  && Lookup(r.files[0].json.fields, "content") == Lookup(data, "content"))
            && (RouteOf(docname, data, separateContent) == SingleFile ==> r == Wrote([Artifact(p, Obj(data))]))
  {
    if RouteOf(docname, data, separateContent) == SeparateContent && HasKey(data, "id") {
      var cp := ContentPath(JsonPath(docname));
      MainRecordLookup(data, BaseName(cp), "content_file");
      MainRecordLookup(data, BaseName(cp), "content");
    }
  }

  /** Without `separate_content`, a page other than the root index is
      written whole to `docname.json`. */
  lemma SingleFileByDefault(docname: string, data: Fields)
    requires docname != "index" && docname != "/index"
    ensures WriteJsonFile(docname, data, false) == Wrote([Artifact(docname + ".json", Obj(data))])
  {
    JsonPathIsDocname(docname);
  }
}
