/**
 One run of the schema-migration script over a file (`process_file`):
 cut off the frontmatter, skip files without it or already in v2 form,
 rewrite the mapping and write it back in front of the unchanged body.
 Reading and writing the file, the dry-run listing and the YAML parser are
 outside the model; the parser is a parameter.
 */
module MigrateFile {
  import opened Text
  import opened Values
  import opened FrontmatterSplit
  import opened TransformFrontmatter
  import opened FrontmatterYaml

  /** What `process_file` does with a file; it returns True exactly for
      `Rewritten`, whose content is what it writes (or, in a dry run, would
      write). */
  datatype Outcome =
    | NoFrontmatterFound
    | SkippedV2
    | EmptyAfterRewrite
    | Rewritten(content: string)

  /** Every key the v2 check and `transform_frontmatter` test with `in`. */
  const ReadKeys: set<string> :=
    {"description", "topics", "categories", "tags", "content", "content_type", "difficulty", "personas",
     "facets", "modality", "status", "dates", "social", "only", "title"}

  /** A list or string frontmatter that holds none of those keys. Every `in`
      test is then false, so nothing is indexed: the v2 check fails and the
      rewrite comes out empty. Holding any of them makes the script index the
      list or string by a key, which raises. */
  predicate NamesNoField(v: Value) {
    (v.List? || v.Str?) && forall k :: k in ReadKeys ==> !InContainer(k, v)
  }

  /** The frontmatter the script can handle without raising: none, YAML null,
      a mapping the rewrite accepts, or a list or string naming no field. */
  predicate Processable(c: string, parse: string -> Option<Value>) {
    var x := ExtractFrontmatter(c, parse).frontmatter;
    x.Some? && x.value != Null ==> (x.value.Obj? && Transformable(x.value.fields)) || NamesNoField(x.value)
  }

  /** `process_file` on the text `c`, reading YAML with `parse`. */
  function ProcessFile(c: string, parse: string -> Option<Value>, force: bool): (r: Outcome)
    requires Processable(c, parse)
  {
    var x := ExtractFrontmatter(c, parse);
    if x.frontmatter.None? || x.frontmatter.value == Null then NoFrontmatterFound
    else if !x.frontmatter.value.Obj? then EmptyAfterRewrite
    else if AlreadyV2(x.frontmatter.value.fields, force) then SkippedV2
    else
      var t := Transform(x.frontmatter.value.fields);
      if |t| == 0 then EmptyAfterRewrite
      else Rewritten(Written(ToYaml(t), x.body))
  }

  /** The outcomes: a file is rewritten exactly when it has a frontmatter
      mapping, is not skipped as v2, and the rewrite decides some key; it is
      dropped as empty when the frontmatter is a list or string, or a mapping
      not skipped as v2 whose rewrite decides no key; the written file keeps
      the body after a fresh `---` line. */
  lemma ProcessOutcomes(c: string, parse: string -> Option<Value>, force: bool)
    requires Processable(c, parse)
    ensures var x := ExtractFrontmatter(c, parse);
            var r := ProcessFile(c, parse, force);
            && (r.NoFrontmatterFound? <==> x.frontmatter.None? || x.frontmatter.value == Null)
            && (r.Rewritten? <==>
                  && x.frontmatter.Some? && x.frontmatter.value.Obj?
                  && !AlreadyV2(x.frontmatter.value.fields, force)
                  && exists f :: f in TransformOrder && TransformField(x.frontmatter.value.fields, f).Some?)
            && (r.EmptyAfterRewrite? <==>
                  && x.frontmatter.Some? && x.frontmatter.value != Null
                  && (!x.frontmatter.value.Obj? ||
                      (&& !AlreadyV2(x.frontmatter.value.fields, force)
                       && forall f :: f in TransformOrder ==> TransformField(x.frontmatter.value.fields, f).None?)))
            && (r.Rewritten? ==> StartsWith(r.content, "---\n") && EndsWith(r.content, "\n---\n" + x.body))
            && (!StartsWith(c, "---") ==> r.NoFrontmatterFound?)
  {
    hide Transform, TransformField, ToYaml, Written, ExtractFrontmatter;
    var x := ExtractFrontmatter(c, parse);
    var r := ProcessFile(c, parse, force);
    if x.frontmatter.Some? && x.frontmatter.value.Obj? {
      TransformEmpty(x.frontmatter.value.fields);
      WrittenShape(ToYaml(Transform(x.frontmatter.value.fields)), x.body);
    }
    if !StartsWith(c, "---") {
      assert CutFrontmatter(c).NoFrontmatter?;
    }
  }

  /** The hypothesis under which a rewritten file reads back: no YAML line
      starts with dashes, the body holds no glued closer, and the parser
      reads the emitted YAML back as the rewritten mapping. The script does
      not always meet it: a nested string holding ": " is written bare
      (`FrontmatterYaml.NestedStringWrittenBare`) and does not parse, and a
      multi-line string is written quoted with its line break kept
      (`FrontmatterYaml.MultiLineWrittenQuoted`), which YAML folds into a
      space. */
  predicate ReadsBack(c: string, parse: string -> Option<Value>, force: bool)
    requires Processable(c, parse)
  {
    var r := ProcessFile(c, parse, force);
    var x := ExtractFrontmatter(c, parse);
    r.Rewritten? && x.frontmatter.Some? && x.frontmatter.value.Obj? ==>
      var t := Transform(x.frontmatter.value.fields);
      && NoDashLine("\n" + ToYaml(t))
      && NoGluedCloser("\n" + x.body)
      && parse(ToYaml(t)) == Some(Obj(t))
  }

  /** A rewritten file splits back into the rewritten mapping and the same
      body, when no YAML line starts with dashes, the body holds no glued
      closer and the parser reads the emitted YAML back. */
  lemma RewrittenSplitsBack(c: string, parse: string -> Option<Value>, force: bool)
    requires Processable(c, parse) && ReadsBack(c, parse, force)
    requires ProcessFile(c, parse, force).Rewritten?
    ensures var x := ExtractFrontmatter(c, parse);
            var t := Transform(x.frontmatter.value.fields);
            ExtractFrontmatter(ProcessFile(c, parse, force).content, parse) == Extracted(Some(Obj(t)), ToYaml(t), x.body)
  {
    hide Transform, ToYaml, Written, CutFrontmatter;
    var x := ExtractFrontmatter(c, parse);
    var t := Transform(x.frontmatter.value.fields);
    CutWritten(ToYaml(t), x.body);
  }

  /** When the rewritten file reads back (`ReadsBack`), running the script
      again on it changes nothing: the second run skips the file as v2, or
      writes the very same text, and a forced run always writes the same
      text. Without that hypothesis the second run can find no frontmatter
      or write different text. */
  lemma SecondRunStable(c: string, parse: string -> Option<Value>, force: bool, force2: bool)
    requires Processable(c, parse) && ReadsBack(c, parse, force)
    requires ProcessFile(c, parse, force).Rewritten?
    ensures var n := ProcessFile(c, parse, force).content;
            && Processable(n, parse)
            && (ProcessFile(n, parse, force2) == SkippedV2 || ProcessFile(n, parse, force2) == Rewritten(n))
            && (force2 ==> ProcessFile(n, parse, force2) == Rewritten(n))
  {
    hide Transform, ToYaml, Written, CutFrontmatter;
    var x := ExtractFrontmatter(c, parse);
    var fm := x.frontmatter.value.fields;
    var t := Transform(fm);
    var n := ProcessFile(c, parse, force).content;
    RewrittenSplitsBack(c, parse, force);
    TransformIdempotent(fm);
    assert Processable(n, parse);
    if !AlreadyV2(t, force2) {
      assert ProcessFile(n, parse, force2) == Rewritten(Written(ToYaml(Transform(t)), x.body));
    }
  }
}
