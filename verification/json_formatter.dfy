/**
 The JSON search-index formatter: it rebuilds a page's frontmatter as a v2
 record for the index (`normalize_metadata_for_json`), derives product
 metadata from the Sphinx configuration, computes a page's parent chain and
 assembles the per-page and per-child index records.
 */
module JsonFormatter {
  import opened Text
  import opened Values
  import opened Schema
  import opened Emission

  // ---------------------------------------------------------------------------
  // The keys the normaliser writes
  // ---------------------------------------------------------------------------

  /** The order in which the normaliser writes its top-level keys. */
  const TopOrder: seq<Field> := [FTitle, FDescription, FSocial, FTags, FTopics, FContent, FFacets, FDates, FStatus, FOnly, FCascade]
  const FacetsOrder: seq<Field> := [FModality]

  lemma TopLevelInOrder(f: Field)
    ensures TopLevel(f) <==> f in TopOrder
  {
    match f
    case FTitle => assert TopOrder[0] == f;
    case FDescription => assert TopOrder[1] == f;
    case FSocial => assert TopOrder[2] == f;
    case FTags => assert TopOrder[3] == f;
    case FTopics => assert TopOrder[4] == f;
    case FContent => assert TopOrder[5] == f;
    case FFacets => assert TopOrder[6] == f;
    case FDates => assert TopOrder[7] == f;
    case FStatus => assert TopOrder[8] == f;
    case FOnly => assert TopOrder[9] == f;
    case FCascade => assert TopOrder[10] == f;
    case _ =>
  }

  lemma OrdersUnique()
    ensures Unique(TopOrder) && Unique(ContentOrder) && Unique(FacetsOrder)
  {
  }

  // ---------------------------------------------------------------------------
  // normalize_metadata_for_json
  // ---------------------------------------------------------------------------

  /** `content.type` or legacy `content_type`, `content.difficulty` or legacy
      `difficulty`, and the audience (lines 86-112 of `normalize_metadata_for_json`). */
  function ContentField(m: Fields, f: Field): Option<Value> {
    match f
    case FType =>
      var t := V2OrLegacy(m, "content", "type", "content_type");
      if Truthy(t) then Some(t) else None
    case FDifficulty =>
      var d := V2OrLegacy(m, "content", "difficulty", "difficulty");
      if Truthy(d) then Some(d) else None
    case FAudience => AudienceValue(m)
    case _ => None
  }

  /** The audience: a truthy `content.audience`, else one derived from truthy
      legacy `personas`; coerced to a list; absent when falsy. */
  function AudienceValue(m: Fields): (r: Option<Value>)
    ensures Truthy(At2(m, "content", "audience")) ==> r == Some(Listify(At2(m, "content", "audience")))
    ensures !Truthy(At2(m, "content", "audience")) && Truthy(Get(m, "personas")) ==>
              r == Some(AudienceFromPersonas(Get(m, "personas")))
    ensures !Truthy(At2(m, "content", "audience")) && !Truthy(Get(m, "personas")) ==> r == None
    ensures r.Some? ==> r.value.List? && Truthy(r.value)
  {
    var a := At2(m, "content", "audience");
    var a' := if !Truthy(a) && Truthy(Get(m, "personas")) then AudienceFromPersonas(Get(m, "personas")) else a;
    if Truthy(a') then Some(Listify(a')) else None
  }

  /** The rebuilt `content` mapping. */
  function ContentRecord(m: Fields): Fields {
    Record(ContentOrder, f => ContentField(m, f))
  }

  /** The rebuilt `facets` mapping: `facets.modality` or legacy `modality` (lines 118-124 of `normalize_metadata_for_json`). */
  function FacetsRecord(m: Fields): Fields {
    Record(FacetsOrder, f => if f == FModality && Truthy(V2OrLegacy(m, "facets", "modality", "modality"))
                             then Some(V2OrLegacy(m, "facets", "modality", "modality")) else None)
  }

  /** The value `v` when it is truthy. */
  function IfTruthy(v: Value): (r: Option<Value>)
    ensures r.Some? <==> Truthy(v)
    ensures r.Some? ==> r.value == v
  {
    if Truthy(v) then Some(v) else None
  }

  /** The value `v` when it is a mapping, even an empty one. */
  function IfMap(v: Value): (r: Option<Value>)
    ensures r.Some? <==> v.Obj?
    ensures r.Some? ==> r.value == v
  {
    if v.Obj? then Some(v) else None
  }

  /** Keys copied only when truthy: description, status, only, cascade. */
  predicate CopiedWhenTruthy(f: Field) {
    f.FDescription? || f.FStatus? || f.FOnly? || f.FCascade?
  }

  /** Keys copied whenever they are mappings, even empty ones: social, dates. */
  predicate CopiedWhenMap(f: Field) {
    f.FSocial? || f.FDates?
  }

  /** What the normaliser writes under each top-level key (lines 57-141 of `normalize_metadata_for_json`). */
  function JsonField(m: Fields, f: Field): Option<Value> {
    if CopiedWhenTruthy(f) then IfTruthy(Get(m, Name(f)))
    else if CopiedWhenMap(f) then IfMap(Get(m, Name(f)))
    else match f
      case FTitle =>
        var t := Get(m, "title");
        if t.Obj? then Some(t) else if Truthy(t) then Some(Obj([("page", t)])) else None
      case FTags => if Truthy(Get(m, "tags")) then Some(Listify(Get(m, "tags"))) else None
      case FTopics =>
        var t := Or(Get(m, "topics"), Get(m, "categories"));
        if Truthy(t) then Some(Listify(t)) else None
      case FContent => if |ContentRecord(m)| > 0 then Some(Obj(ContentRecord(m))) else None
      case FFacets => if |FacetsRecord(m)| > 0 then Some(Obj(FacetsRecord(m))) else None
      case _ => None
  }

  /** What `normalize_metadata_for_json` needs of its input: list `personas`
      that are mapped (no truthy `content.audience`) hold only hashable items. */
  predicate JsonNormalizable(m: Fields) {
    !Truthy(At2(m, "content", "audience")) && Truthy(Get(m, "personas")) ==> MappablePersonas(Get(m, "personas"))
  }

  /** `normalize_metadata_for_json`: the record rebuilt from scratch; every
      key it holds is one of the v2 top-level keys. */
  function NormalizeForJson(m: Fields): (r: Fields)
    requires JsonNormalizable(m)
    ensures forall k {:trigger HasKey(r, k)} :: HasKey(r, k) ==> exists f :: f in TopOrder && Name(f) == k
  {
    var es := Build(TopOrder, f => JsonField(m, f));
    BuildKeys(TopOrder, f => JsonField(m, f));
    forall k | HasKey(ToFields(es), k) ensures exists f :: f in TopOrder && Name(f) == k {
      HasKeyInKeys(ToFields(es), k);
      var i :| 0 <= i < |es| && Keys(ToFields(es))[i] == k;
      assert es[i] in es;
    }
    ToFields(es)
  }

  /** What the normalised record holds under a top-level key. */
  lemma NormalizeForJsonLookup(m: Fields, f: Field)
    requires JsonNormalizable(m) && TopLevel(f)
    ensures Lookup(NormalizeForJson(m), Name(f)) == JsonField(m, f)
  {
    OrdersUnique();
    TopLevelInOrder(f);
    RecordLookup(TopOrder, f => JsonField(m, f), f);
  }

  /** The output keys are among the eleven v2 top-level keys. */
  lemma NormalizeForJsonKeys(m: Fields, k: string)
    requires JsonNormalizable(m) && HasKey(NormalizeForJson(m), k)
    ensures k in {"title", "description", "social", "tags", "topics", "content", "facets", "dates", "status", "only", "cascade"}
  {
  }

  /** The legacy flat keys never appear in the normalised record. */
  lemma NormalizeForJsonDropsLegacy(m: Fields, k: string)
    requires JsonNormalizable(m)
    requires k in {"content_type", "difficulty", "personas", "categories", "modality"}
    ensures !HasKey(NormalizeForJson(m), k)
  {
    if HasKey(NormalizeForJson(m), k) {
      var f :| f in TopOrder && Name(f) == k;
      TopLevelInOrder(f);
      LegacyNotTopLevel(f);
      assert false;
    }
  }

  // One lemma per key keeps each proof small; the group lemmas combine them.

  lemma TruthyKey(m: Fields, f: Field)
    requires JsonNormalizable(m) && CopiedWhenTruthy(f)
    ensures Lookup(NormalizeForJson(m), Name(f)) == IfTruthy(Get(m, Name(f)))
  {
    NormalizeForJsonLookup(m, f);
  }

  lemma MapKey(m: Fields, f: Field)
    requires JsonNormalizable(m) && CopiedWhenMap(f)
    ensures Lookup(NormalizeForJson(m), Name(f)) == IfMap(Get(m, Name(f)))
  {
    hide NormalizeForJson;
    NormalizeForJsonLookup(m, f);
  }

  lemma TagsKey(m: Fields)
    requires JsonNormalizable(m)
    ensures Lookup(NormalizeForJson(m), "tags") == if Truthy(Get(m, "tags")) then Some(Listify(Get(m, "tags"))) else None
  {
    hide NormalizeForJson;
    NormalizeForJsonLookup(m, FTags);
  }

  lemma TopicsKey(m: Fields)
    requires JsonNormalizable(m)
    ensures var t := Or(Get(m, "topics"), Get(m, "categories"));
            Lookup(NormalizeForJson(m), "topics") == if Truthy(t) then Some(Listify(t)) else None
  {
    hide NormalizeForJson;
    NormalizeForJsonLookup(m, FTopics);
  }

  /** A mapping title passes through; any other truthy title becomes `{"page": title}`. */
  lemma NormalizeForJsonTitle(m: Fields)
    requires JsonNormalizable(m)
    ensures var t := Get(m, "title");
            Lookup(NormalizeForJson(m), "title") ==
              if t.Obj? then Some(t) else if Truthy(t) then Some(Obj([("page", t)])) else None
  {
    hide NormalizeForJson;
    NormalizeForJsonLookup(m, FTitle);
  }

  /** Truthy tags are kept, a scalar wrapped in a list; topics are `topics` if
      truthy, else `categories`, coerced the same way. */
  lemma NormalizeForJsonLists(m: Fields)
    requires JsonNormalizable(m)
    ensures var r := NormalizeForJson(m);
            && Lookup(r, "tags") == (if Truthy(Get(m, "tags")) then Some(Listify(Get(m, "tags"))) else None)
            && (Truthy(Get(m, "topics")) ==> Lookup(r, "topics") == Some(Listify(Get(m, "topics"))))
            && (!Truthy(Get(m, "topics")) ==>
                  Lookup(r, "topics") == if Truthy(Get(m, "categories")) then Some(Listify(Get(m, "categories"))) else None)
  {
    TagsKey(m);
    TopicsKey(m);
  }

  /** The rebuilt `content` mapping holds the truthy type, difficulty and
      audience, and is empty exactly when none of them is present. */
  lemma ContentRecordLookup(m: Fields)
    ensures var c := ContentRecord(m);
            && Lookup(c, "type") == IfTruthy(V2OrLegacy(m, "content", "type", "content_type"))
            && Lookup(c, "difficulty") == IfTruthy(V2OrLegacy(m, "content", "difficulty", "difficulty"))
            && Lookup(c, "audience") == AudienceValue(m)
            && (|c| == 0 <==> Lookup(c, "type").None? && Lookup(c, "difficulty").None? && Lookup(c, "audience").None?)
  {
    OrdersUnique();
    var g := f => ContentField(m, f);
    assert FType == ContentOrder[0] && FDifficulty == ContentOrder[1] && FAudience == ContentOrder[2];
    RecordLookup(ContentOrder, g, FType);
    RecordLookup(ContentOrder, g, FDifficulty);
    RecordLookup(ContentOrder, g, FAudience);
    if g(FType).None? && g(FDifficulty).None? && g(FAudience).None? {
      BuildNone(ContentOrder, g);
    }
  }

  /** The rebuilt `facets` mapping holds the truthy modality and nothing else. */
  lemma FacetsRecordLookup(m: Fields)
    ensures var fs := FacetsRecord(m);
            && Lookup(fs, "modality") == IfTruthy(V2OrLegacy(m, "facets", "modality", "modality"))
            && (|fs| == 0 <==> Lookup(fs, "modality").None?)
  {
    OrdersUnique();
    var g := f => if f == FModality && Truthy(V2OrLegacy(m, "facets", "modality", "modality"))
                  then Some(V2OrLegacy(m, "facets", "modality", "modality")) else None;
    assert FModality == FacetsOrder[0];
    RecordLookup(FacetsOrder, g, FModality);
    if g(FModality).None? {
      BuildNone(FacetsOrder, g);
    }
  }

  lemma ContentKey(m: Fields)
    requires JsonNormalizable(m)
    ensures Lookup(NormalizeForJson(m), "content") == if |ContentRecord(m)| > 0 then Some(Obj(ContentRecord(m))) else None
  {
    hide NormalizeForJson;
    NormalizeForJsonLookup(m, FContent);
  }

  lemma FacetsKey(m: Fields)
    requires JsonNormalizable(m)
    ensures Lookup(NormalizeForJson(m), "facets") == if |FacetsRecord(m)| > 0 then Some(Obj(FacetsRecord(m))) else None
  {
    hide NormalizeForJson;
    NormalizeForJsonLookup(m, FFacets);
  }

  /** `content` is emitted only when one of its sub-fields is; each sub-field
      is the truthy v2 value, else the truthy legacy one. The audience is a
      truthy v2 audience coerced to a list, else derived from truthy personas. */
  lemma NormalizeForJsonContent(m: Fields)
    requires JsonNormalizable(m)
    ensures var r := NormalizeForJson(m);
            var t := V2OrLegacy(m, "content", "type", "content_type");
            var d := V2OrLegacy(m, "content", "difficulty", "difficulty");
            && (HasKey(r, "content") <==> Truthy(t) || Truthy(d) || AudienceValue(m).Some?)
            && At2(r, "content", "type") == (if Truthy(t) then t else Null)
            && At2(r, "content", "difficulty") == (if Truthy(d) then d else Null)
            && At2(r, "content", "audience") == AudienceValue(m).GetOr(Null)
  {
    hide NormalizeForJson;
    ContentKey(m);
    ContentRecordLookup(m);
  }

  /** `facets` is emitted only when the modality is truthy. */
  lemma NormalizeForJsonFacets(m: Fields)
    requires JsonNormalizable(m)
    ensures var r := NormalizeForJson(m);
            var x := V2OrLegacy(m, "facets", "modality", "modality");
            && (HasKey(r, "facets") <==> Truthy(x))
            && At2(r, "facets", "modality") == (if Truthy(x) then x else Null)
  {
    hide NormalizeForJson;
    FacetsKey(m);
    FacetsRecordLookup(m);
  }

  // ---------------------------------------------------------------------------
  // Idempotence of normalize_metadata_for_json
  // ---------------------------------------------------------------------------

  /** The normalised record is itself a valid input: it holds no `personas`. */
  lemma NormalizedIsNormalizable(m: Fields)
    requires JsonNormalizable(m)
    ensures JsonNormalizable(NormalizeForJson(m))
  {
    NormalizeForJsonDropsLegacy(m, "personas");
  }

  /** Re-normalising rebuilds the same `content` mapping. */
  lemma ContentStable(m: Fields)
    requires JsonNormalizable(m)
    ensures ContentRecord(NormalizeForJson(m)) == ContentRecord(m)
  {
    hide NormalizeForJson;
    var r := NormalizeForJson(m);
    NormalizeForJsonContent(m);
    NormalizeForJsonDropsLegacy(m, "content_type");
    NormalizeForJsonDropsLegacy(m, "difficulty");
    NormalizeForJsonDropsLegacy(m, "personas");
    ContentRecordLookup(m);
    ContentRecordLookup(r);
    forall f | f in ContentOrder ensures ContentField(r, f) == ContentField(m, f) {
      if f == FAudience {
        var a := AudienceValue(m);
        if a.Some? {
          assert At2(r, "content", "audience") == a.value;
        }
      }
    }
    BuildCongruent(ContentOrder, f => ContentField(r, f), f => ContentField(m, f));
  }

  /** Re-normalising rebuilds the same `facets` mapping. */
  lemma FacetsStable(m: Fields)
    requires JsonNormalizable(m)
    ensures FacetsRecord(NormalizeForJson(m)) == FacetsRecord(m)
  {
    var r := NormalizeForJson(m);
    NormalizeForJsonFacets(m);
    NormalizeForJsonDropsLegacy(m, "modality");
    var x := V2OrLegacy(m, "facets", "modality", "modality");
    var y := V2OrLegacy(r, "facets", "modality", "modality");
    assert Truthy(y) <==> Truthy(x);
    assert Truthy(x) ==> y == x;
    BuildCongruent(FacetsOrder,
      f => if f == FModality && Truthy(y) then Some(y) else None,
      f => if f == FModality && Truthy(x) then Some(x) else None);
  }

  /** The keys copied as they are (or wrapped, for a scalar title) are rebuilt the same way. */
  lemma TitleStable(m: Fields)
    requires JsonNormalizable(m)
    ensures JsonField(NormalizeForJson(m), FTitle) == JsonField(m, FTitle)
  {
    hide NormalizeForJson;
    NormalizeForJsonTitle(m);
  }

  lemma TruthyStable(m: Fields, f: Field)
    requires JsonNormalizable(m) && CopiedWhenTruthy(f)
    ensures JsonField(NormalizeForJson(m), f) == JsonField(m, f)
  {
    TruthyKey(m, f);
  }

  lemma MapStable(m: Fields, f: Field)
    requires JsonNormalizable(m) && CopiedWhenMap(f)
    ensures JsonField(NormalizeForJson(m), f) == JsonField(m, f)
  {
    MapKey(m, f);
  }

  lemma TagsStable(m: Fields)
    requires JsonNormalizable(m)
    ensures JsonField(NormalizeForJson(m), FTags) == JsonField(m, FTags)
  {
    hide NormalizeForJson;
    TagsKey(m);
  }

  lemma TopicsStable(m: Fields)
    requires JsonNormalizable(m)
    ensures JsonField(NormalizeForJson(m), FTopics) == JsonField(m, FTopics)
  {
    hide NormalizeForJson;
    TopicsKey(m);
    NormalizeForJsonDropsLegacy(m, "categories");
  }

  /** Each top-level key is rebuilt the same way from the normalised record. */
  lemma FieldStable(m: Fields, f: Field)
    requires JsonNormalizable(m) && TopLevel(f)
    ensures JsonField(NormalizeForJson(m), f) == JsonField(m, f)
  {
    if CopiedWhenTruthy(f) {
      TruthyStable(m, f);
    } else if CopiedWhenMap(f) {
      MapStable(m, f);
    } else if f.FTitle? {
      TitleStable(m);
    } else if f.FTags? {
      TagsStable(m);
    } else if f.FTopics? {
      TopicsStable(m);
    } else if f.FContent? {
      ContentStable(m);
    } else {
      FacetsStable(m);
    }
  }

  /** `normalize_metadata_for_json` is idempotent: normalising its own output
      returns the same record, key order included. */
  lemma NormalizeForJsonIdempotent(m: Fields)
    requires JsonNormalizable(m)
    ensures JsonNormalizable(NormalizeForJson(m)) && NormalizeForJson(NormalizeForJson(m)) == NormalizeForJson(m)
  {
    var r := NormalizeForJson(m);
    NormalizedIsNormalizable(m);
    forall f | f in TopOrder ensures JsonField(r, f) == JsonField(m, f) {
      TopLevelInOrder(f);
      FieldStable(m, f);
    }
    BuildCongruent(TopOrder, f => JsonField(r, f), f => JsonField(m, f));
  }

  // ---------------------------------------------------------------------------
  // _extract_product_metadata
  // ---------------------------------------------------------------------------

  /** The Sphinx configuration values the formatter reads; None where the
      attribute is not set. */
  datatype SphinxConfig = SphinxConfig(
    project: Option<string>,
    release: Option<Value>,
    htmlContext: Option<Value>,
    mystSubstitutions: Option<Value>)

  /** A value Python's `x in v` accepts: a string, list or dict. */
  predicate IsContainer(v: Value) {
    v.Str? || v.List? || v.Obj?
  }

  /** The product name read from a project name (lines 191-200 of `_extract_product_metadata`): the
      last `-` piece, else the last word once "NVIDIA" is removed, else the
      project name itself. */
  function ProjectProductName(project: string): (r: string)
    ensures '-' in project ==> '-' !in r
    ensures '-' !in project && ' ' in project ==> r == project || (|r| > 0 && forall i :: 0 <= i < |r| ==> !IsSpace(r[i]))
    ensures '-' !in project && ' ' !in project ==> r == project
  {
    if '-' in project then
      var pieces := Split(project, '-');
      pieces[|pieces| - 1]
    else if ' ' in project then
      var parts := Words(Strip(Replace(project, "NVIDIA", "")));
      if |parts| > 0 then parts[|parts| - 1] else project
    else project
  }

  /** A hyphenated project name yields exactly what follows its last hyphen. */
  lemma ProjectProductNameAfterHyphen(a: string, b: string)
    requires '-' !in b
    ensures ProjectProductName(a + "-" + b) == b
  {
    assert '-' in a + "-" + b by {
      assert (a + "-" + b)[|a|] == '-';
    }
    SplitLastPiece(a, '-', b);
  }

  /** The configured product name, by precedence: `html_context.product_name`,
      then `myst_substitutions.product_name_short`, then
      `myst_substitutions.product_name`, then the project-name fallback. */
  function ProductName(cfg: SphinxConfig): (r: Value)
    ensures var html := cfg.htmlContext.GetOr(Obj([]));
            html.Obj? && Truthy(Get(html.fields, "product_name")) ==> r == Get(html.fields, "product_name")
    ensures var html := cfg.htmlContext.GetOr(Obj([]));
            var myst := cfg.mystSubstitutions.GetOr(Obj([]));
            !(html.Obj? && Truthy(Get(html.fields, "product_name"))) && myst.Obj? ==>
              r == (if Truthy(Get(myst.fields, "product_name_short")) then Get(myst.fields, "product_name_short")
                    else if Truthy(Get(myst.fields, "product_name")) then Get(myst.fields, "product_name")
                    else if cfg.project.Some? then Str(ProjectProductName(cfg.project.value))
                    else Get(myst.fields, "product_name"))
  {
    var html := cfg.htmlContext.GetOr(Obj([]));
    var myst := cfg.mystSubstitutions.GetOr(Obj([]));
    var n0 := if html.Obj? then Get(html.fields, "product_name") else Null;
    var n1 := if myst.Obj? && !Truthy(n0) then Or(Get(myst.fields, "product_name_short"), Get(myst.fields, "product_name")) else n0;
    if !Truthy(n1) && cfg.project.Some? then Str(ProjectProductName(cfg.project.value)) else n1
  }

  /** The configured product family: `html_context.product_family`, else
      `["NeMo"]` when "NeMo" is in `myst_substitutions.product_name`, else
      the falsy `html_context` value (or null), so no family is written. */
  function ProductFamily(cfg: SphinxConfig): (r: Value)
    requires FamilyCheckable(cfg)
    ensures var html := cfg.htmlContext.GetOr(Obj([]));
            html.Obj? && Truthy(Get(html.fields, "product_family")) ==> r == Get(html.fields, "product_family")
    ensures var html := cfg.htmlContext.GetOr(Obj([]));
            var myst := cfg.mystSubstitutions.GetOr(Obj([]));
            (!(html.Obj? && Truthy(Get(html.fields, "product_family"))) && myst.Obj?
             && InContainer("NeMo", Lookup(myst.fields, "product_name").GetOr(Str("")))) ==> r == List([Str("NeMo")])
    ensures var html := cfg.htmlContext.GetOr(Obj([]));
            var myst := cfg.mystSubstitutions.GetOr(Obj([]));
            !(html.Obj? && Truthy(Get(html.fields, "product_family")))
            && !(myst.Obj? && InContainer("NeMo", Lookup(myst.fields, "product_name").GetOr(Str("")))) ==>
              !Truthy(r) && r == (if html.Obj? then Get(html.fields, "product_family") else Null)
  {
    var html := cfg.htmlContext.GetOr(Obj([]));
    var myst := cfg.mystSubstitutions.GetOr(Obj([]));
    var f0 := if html.Obj? then Get(html.fields, "product_family") else Null;
    if myst.Obj? && !Truthy(f0) && InContainer("NeMo", Lookup(myst.fields, "product_name").GetOr(Str(""))) then List([Str("NeMo")])
    else f0
  }

  /** Python evaluates `"NeMo" in full_name` only when no family was found in
      `html_context`; it raises unless the value is a string, list or dict. */
  predicate FamilyCheckable(cfg: SphinxConfig) {
    var html := cfg.htmlContext.GetOr(Obj([]));
    var myst := cfg.mystSubstitutions.GetOr(Obj([]));
    myst.Obj? && !(html.Obj? && Truthy(Get(html.fields, "product_family"))) ==>
      IsContainer(Lookup(myst.fields, "product_name").GetOr(Str("")))
  }

  /** The `product` mapping: the name, and the family as a list when truthy. */
  function ProductRecord(name: Value, family: Value): (r: Fields)
    ensures Lookup(r, "name") == Some(name)
    ensures Lookup(r, "family") == if Truthy(family) then Some(Listify(family)) else None
    ensures !Truthy(family) ==> r == [("name", name)]
  {
    [("name", name)] + Entry("family", if Truthy(family) then Some(Listify(family)) else None)
  }

  /** `_extract_product_metadata`: `book` when a project is configured,
      `product` when a name was found, `site` when `html_context` names one. */
  function ProductMetadata(cfg: SphinxConfig): (r: Fields)
    requires FamilyCheckable(cfg)
    ensures UniqueKeys(r)
    ensures forall k {:trigger Lookup(r, k)} :: k != "book" && k != "product" && k != "site" ==> Lookup(r, k) == None
    ensures Lookup(r, "book") ==
              if cfg.project.Some? then Some(Obj([("title", Str(cfg.project.value)), ("version", cfg.release.GetOr(Str("")))]))
              else None
    ensures Lookup(r, "product") == if Truthy(ProductName(cfg)) then Some(Obj(ProductRecord(ProductName(cfg), ProductFamily(cfg)))) else None
    ensures var html := cfg.htmlContext.GetOr(Obj([]));
            var site := if html.Obj? then Get(html.fields, "site_name") else Null;
            Lookup(r, "site") == if Truthy(site) then Some(Obj([("name", site)])) else None
  {
    hide ProductName, ProductFamily, ProductRecord, Entry, Lookup;
    var html := cfg.htmlContext.GetOr(Obj([]));
    var name := ProductName(cfg);
    var siteName := if html.Obj? then Get(html.fields, "site_name") else Null;
    var book := if cfg.project.Some? then Some(Obj([("title", Str(cfg.project.value)), ("version", cfg.release.GetOr(Str("")))])) else None;
    var product := if Truthy(name) then Some(Obj(ProductRecord(name, ProductFamily(cfg)))) else None;
    var site := if Truthy(siteName) then Some(Obj([("name", siteName)])) else None;
    ThreeEntries("book", book, "product", product, "site", site);
    Entry("book", book) + Entry("product", product) + Entry("site", site)
  }

  // ---------------------------------------------------------------------------
  // _get_parent_path
  // ---------------------------------------------------------------------------

  /** The page the loop of `_get_parent_path` records for segment `i`: the
      index page of the first `i + 1` segments, or for a segment named "index"
      the index page of the directory above it. The source writes the path of
      the first segment as `parts[0] + "/index"`; joining one segment gives
      the same string. */
  function Candidate(parts: seq<string>, i: nat): (r: string)
    requires i < |parts|
    ensures EndsWith(r, "/index")
  {
    var r := if parts[i] != "index" then Join(parts[..i + 1], "/") + "/index" else Join(parts[..i], "/") + "/index";
    assert r[|r| - 6..] == "/index";
    r
  }

  /** Whether the loop records a page for segment `i`: the index page of the
      first `i + 1` segments is a known page, or the segment is "index". */
  predicate Kept(parts: seq<string>, i: nat, known: set<string>)
    requires i < |parts|
  {
    Join(parts[..i + 1], "/") + "/index" in known || parts[i] == "index"
  }

  /** The ancestors the loop of `_get_parent_path` collects over the first `n`
      path segments of a nested page. */
  function Ancestors(parts: seq<string>, n: nat, known: set<string>): (r: seq<string>)
    requires n < |parts|
    ensures |r| <= n
    ensures forall j :: 0 <= j < |r| ==> EndsWith(r[j], "/index")
  {
    if n == 0 then []
    else
      var prev := Ancestors(parts, n - 1, known);
      if Kept(parts, n - 1, known) then prev + [Candidate(parts, n - 1)] else prev
  }

  /** The segment an ancestor was recorded for. */
  function AncestorSource(parts: seq<string>, n: nat, known: set<string>, j: nat): (i: nat)
    requires n < |parts| && j < |Ancestors(parts, n, known)|
    ensures i < n && Kept(parts, i, known) && Ancestors(parts, n, known)[j] == Candidate(parts, i)
    decreases n
  {
    var prev := Ancestors(parts, n - 1, known);
    if j < |prev| then AncestorSource(parts, n - 1, known, j) else n - 1
  }

  /** Ancestors come root first: a later entry was recorded for a deeper
      segment. */
  lemma {:induction false} AncestorSourceIncreasing(parts: seq<string>, n: nat, known: set<string>, j1: nat, j2: nat)
    requires n < |parts| && j1 < j2 < |Ancestors(parts, n, known)|
    ensures AncestorSource(parts, n, known, j1) < AncestorSource(parts, n, known, j2)
    decreases n
  {
    var prev := Ancestors(parts, n - 1, known);
    if j2 < |prev| {
      AncestorSourceIncreasing(parts, n - 1, known, j1, j2);
    }
  }

  /** Every segment the loop keeps contributes its page. */
  lemma {:induction false} AncestorsComplete(parts: seq<string>, n: nat, known: set<string>)
    requires n < |parts|
    ensures forall i :: 0 <= i < n && Kept(parts, i, known) ==> Candidate(parts, i) in Ancestors(parts, n, known)
    decreases n
  {
    if n > 0 {
      AncestorsComplete(parts, n - 1, known);
    }
  }

  /** `_get_parent_path(docname)`, with the set of known page names as a
      parameter. */
  function ParentPath(docname: string, known: set<string>): (r: seq<string>)
    ensures forall j :: 0 <= j < |r| ==> r[j] == "index" || EndsWith(r[j], "/index")
    ensures '/' !in docname ==> r == if docname != "index" && "index" in known then ["index"] else []
    ensures '/' in docname && "index" in known ==> |r| > 0 && r[0] == "index"
  {
    if '/' in docname then
      var parts := Split(docname, '/');
      var ps := Ancestors(parts, |parts| - 1, known);
      if docname != "index" && "index" in known && "index" !in ps then ["index"] + ps else ps
    else if docname != "index" && "index" in known then ["index"]
    else []
  }

  /** A nested page's parents: "index" when it is a known page, then the
      ancestors the loop collects. */
  lemma ParentPathNested(docname: string, known: set<string>)
    requires '/' in docname
    ensures var parts := Split(docname, '/');
            ParentPath(docname, known) == (if "index" in known then ["index"] else []) + Ancestors(parts, |parts| - 1, known)
  {
    hide Split, Join, Candidate, Kept, Ancestors;
    var parts := Split(docname, '/');
    var ps := Ancestors(parts, |parts| - 1, known);
    assert "index" !in ps by {
      forall j | 0 <= j < |ps| ensures ps[j] != "index" {
        assert EndsWith(ps[j], "/index");
      }
    }
  }

  /** The entries of a nested page's parents past the leading "index": the
      ancestors, one for one. */
  lemma ParentPathTail(docname: string, known: set<string>)
    requires '/' in docname
    ensures var parts := Split(docname, '/');
            var r := ParentPath(docname, known);
            var d := if "index" in known then 1 else 0;
            && |r| == d + |Ancestors(parts, |parts| - 1, known)|
            && (d == 1 ==> r[0] == "index")
            && (forall j :: d <= j < |r| ==> r[j] == Ancestors(parts, |parts| - 1, known)[j - d] && r[j] != "index")
  {
    hide Split, Join, Candidate, Kept, Ancestors, ParentPath;
    var parts := Split(docname, '/');
    var ps := Ancestors(parts, |parts| - 1, known);
    ParentPathNested(docname, known);
    forall j | 0 <= j < |ps| ensures ps[j] != "index" {
      assert EndsWith(ps[j], "/index");
    }
  }

  /** The parents of a nested page: "index" first exactly when it is a known
      page, then, root first, the page of every segment but the last that the
      loop keeps, and nothing else. */
  lemma ParentPathAncestors(docname: string, known: set<string>)
    requires '/' in docname
    ensures var parts := Split(docname, '/');
            var r := ParentPath(docname, known);
            && (forall i :: 0 <= i < |parts| - 1 && Kept(parts, i, known) ==> Candidate(parts, i) in r)
            && (forall j :: 0 <= j < |r| && r[j] != "index" ==>
                  exists i :: 0 <= i < |parts| - 1 && Kept(parts, i, known) && r[j] == Candidate(parts, i))
            && (forall j1, j2 :: 0 <= j1 < j2 < |r| && r[j1] != "index" ==>
                  exists a, b :: 0 <= a < b < |parts| - 1 && r[j1] == Candidate(parts, a) && r[j2] == Candidate(parts, b))
            && ("index" in r <==> "index" in known)
            && (forall j :: 0 < j < |r| ==> r[j] != "index")
  {
    hide *;
    var parts := Split(docname, '/');
    var n := |parts| - 1;
    var ps := Ancestors(parts, n, known);
    var r := ParentPath(docname, known);
    var d := if "index" in known then 1 else 0;
    ParentPathTail(docname, known);
    AncestorsComplete(parts, n, known);
    forall i | 0 <= i < n && Kept(parts, i, known) ensures Candidate(parts, i) in r {
      var j :| 0 <= j < |ps| && ps[j] == Candidate(parts, i);
      assert r[j + d] == ps[j];
    }
    forall j | 0 <= j < |r| && r[j] != "index"
      ensures exists i :: 0 <= i < n && Kept(parts, i, known) && r[j] == Candidate(parts, i)
    {
      var i := AncestorSource(parts, n, known, j - d);
    }
    forall j1, j2 | 0 <= j1 < j2 < |r| && r[j1] != "index"
      ensures exists a, b :: 0 <= a < b < n && r[j1] == Candidate(parts, a) && r[j2] == Candidate(parts, b)
    {
      AncestorSourceIncreasing(parts, n, known, j1 - d, j2 - d);
      var a, b := AncestorSource(parts, n, known, j1 - d), AncestorSource(parts, n, known, j2 - d);
    }
  }

  /** The root page has no parents. */
  lemma ParentPathRoot(known: set<string>)
    ensures ParentPath("index", known) == []
  {
    assert '/' !in "index";
  }

  /** A directory's index page lists itself among its parents when it is a
      known page (for any directory but "index"). */
  lemma ParentPathListsOwnIndex(dir: string, known: set<string>)
    requires '/' !in dir && dir != "index"
    requires dir + "/index" in known
    ensures dir + "/index" in ParentPath(dir + "/index", known)
  {
    var d := dir + "/index";
    assert d == dir + ['/'] + "index";
    assert '/' in d by { assert d[|dir|] == '/'; }
    SplitAfterPiece(dir, '/', "index");
    SplitNoSeparator("index", '/');
    var parts := Split(d, '/');
    assert parts == [dir, "index"];
    assert parts[..1] == [dir];
    var ps := Ancestors(parts, 1, known);
    assert ps == [dir + "/index"];
  }

  // ---------------------------------------------------------------------------
  // The content helpers of build_child_json_data
  // ---------------------------------------------------------------------------

  /** The `json_output_settings` the formatter reads through `get_setting`. */
  datatype Settings = Settings(
    includeChildContent: bool,
    contentMaxLength: int,
    summaryMaxLength: int,
    extractKeywords: bool,
    keywordsMaxCount: int,
    extractCodeBlocks: bool,
    extractLinks: bool,
    extractImages: bool,
    includeDocType: bool,
    includeSectionPath: bool)

  /** The defaults `get_setting` falls back to at each call site. */
  const DefaultSettings := Settings(true, 50000, 500, true, 50, true, true, true, true, true)

  /** `text[:max] + "..."` when `max > 0` and the text is longer, else the text. */
  function Truncate(text: string, max: int): (r: string)
    ensures 0 < max < |text| ==> |r| == max + 3 && r[..max] == text[..max] && r[max..] == "..."
    ensures !(0 < max < |text|) ==> r == text
  {
    if max > 0 && |text| > max then text[..max] + "..." else text
  }

  /** A truncated text is never longer than the limit plus the ellipsis, and it
      always begins with the text's first `max` characters. */
  lemma TruncateBounded(text: string, max: int)
    requires max > 0
    ensures |Truncate(text, max)| <= max + 3
    ensures var n := if |text| < max then |text| else max;
            Truncate(text, max)[..n] == text[..n]
  {
  }

  /** Truncating again with the limit plus three changes nothing: the
      ellipsis fits exactly. */
  lemma TruncateStable(text: string, max: int)
    requires max > 0
    ensures Truncate(Truncate(text, max), max + 3) == Truncate(text, max)
  {
  }

  /** The string under `key` when it is truthy. Python's `len`, slicing and
      `split` are applied to it only in that case. */
  predicate TextWhenTruthy(cd: Fields, key: string) {
    Truthy(Get(cd, key)) ==> Get(cd, key).Str?
  }

  /** `content_data.get("format", "text")`. */
  function Format(cd: Fields): Value {
    Lookup(cd, "format").GetOr(Str("text"))
  }

  /** `_add_primary_content`: a truthy page text is written truncated, with
      its format and the length and word count of the original. */
  function PrimaryContent(data: Fields, cd: Fields, max: int): (r: Fields)
    requires TextWhenTruthy(cd, "content")
    ensures !Truthy(Get(cd, "content")) ==> r == data
    ensures Truthy(Get(cd, "content")) ==>
              var text := Get(cd, "content").s;
              && Lookup(r, "content") == Some(Str(Truncate(text, max)))
              && Lookup(r, "format") == Some(Format(cd))
              && Lookup(r, "content_length") == Some(Int(|text|))
              && Lookup(r, "word_count") == Some(Int(CountWordStarts(text, 0)))
    ensures forall k {:trigger Lookup(data, k)} ::
              k != "content" && k != "format" && k != "content_length" && k != "word_count" ==> Lookup(r, k) == Lookup(data, k)
  {
    if !Truthy(Get(cd, "content")) then data
    else
      var text := Get(cd, "content").s;
      WordsCountsWordStarts(text);
      var d1 := Set(data, "content", Str(Truncate(text, max)));
      var d2 := Set(d1, "format", Format(cd));
      var d3 := Set(d2, "content_length", Int(|text|));
      Set(d3, "word_count", Int(|Words(text)|))
  }

  /** `_add_summary_content`: a truthy summary is written truncated. */
  function SummaryContent(data: Fields, cd: Fields, max: int): (r: Fields)
    requires TextWhenTruthy(cd, "summary")
    ensures !Truthy(Get(cd, "summary")) ==> r == data
    ensures Truthy(Get(cd, "summary")) ==> Lookup(r, "summary") == Some(Str(Truncate(Get(cd, "summary").s, max)))
    ensures forall k {:trigger Lookup(data, k)} :: k != "summary" ==> Lookup(r, k) == Lookup(data, k)
  {
    if !Truthy(Get(cd, "summary")) then data
    else Set(data, "summary", Str(Truncate(Get(cd, "summary").s, max)))
  }

  /** A heading record as the content extractor produces it: a mapping with
      a `text` and a `level`. */
  predicate IsHeading(h: Value) {
    h.Obj? && HasKey(h.fields, "level") && HasKey(h.fields, "text")
  }

  /** A heading record whose text is a string, as `" ".join` needs. */
  predicate IsTextHeading(h: Value) {
    IsHeading(h) && Lookup(h.fields, "text").value.Str?
  }

  /** Python iterates truthy headings and indexes each one; anything but a
      list of heading records raises. */
  predicate HeadingsWhenTruthy(cd: Fields) {
    Truthy(Get(cd, "headings")) ==>
      Get(cd, "headings").List? && forall i :: 0 <= i < |Get(cd, "headings").items| ==> IsTextHeading(Get(cd, "headings").items[i])
  }

  function HeadingText(h: Value): string
    requires IsTextHeading(h)
  {
    Lookup(h.fields, "text").value.s
  }

  /** `{"text": h["text"], "level": h["level"], "id": h.get("id", "")}`. */
  function HeadingWithId(h: Value): (r: Value)
    requires IsHeading(h)
    ensures r.Obj? && Lookup(r.fields, "text") == Lookup(h.fields, "text") && Lookup(r.fields, "level") == Lookup(h.fields, "level")
    ensures Lookup(r.fields, "id") == Some(Lookup(h.fields, "id").GetOr(Str("")))
  {
    var r := [("text", Lookup(h.fields, "text").value), ("level", Lookup(h.fields, "level").value), ("id", Lookup(h.fields, "id").GetOr(Str("")))];
    assert r[0].0[0] != 'i' && r[1].0[0] != 'i';
    assert r[1..][1..] == r[2..];
    assert Lookup(r[2..], "id") == Some(r[2].1);
    assert Lookup(r[1..], "id") == Lookup(r[2..], "id");
    Obj(r)
  }

  /** The texts of the headings, in order. */
  function HeadingTexts(hs: seq<Value>): (r: seq<string>)
    requires forall i :: 0 <= i < |hs| ==> IsTextHeading(hs[i])
    ensures |r| == |hs|
    ensures forall i :: 0 <= i < |hs| ==> r[i] == HeadingText(hs[i])
  {
    seq(|hs|, i requires 0 <= i < |hs| => HeadingText(hs[i]))
  }

  /** `_add_headings_content`: one simplified record per heading, in order,
      and the heading texts joined with spaces. */
  function HeadingsContent(data: Fields, cd: Fields): (r: Fields)
    requires HeadingsWhenTruthy(cd)
    ensures !Truthy(Get(cd, "headings")) ==> r == data
    ensures Truthy(Get(cd, "headings")) ==>
              var hs := Get(cd, "headings").items;
              && HasKey(r, "headings") && Lookup(r, "headings").value.List?
              && |Lookup(r, "headings").value.items| == |hs|
              && (forall i :: 0 <= i < |hs| ==> Lookup(r, "headings").value.items[i] == HeadingWithId(hs[i]))
              && Lookup(r, "headings_text") == Some(Str(Join(HeadingTexts(hs), " ")))
    ensures forall k {:trigger Lookup(data, k)} :: k != "headings" && k != "headings_text" ==> Lookup(r, k) == Lookup(data, k)
  {
    if !Truthy(Get(cd, "headings")) then data
    else
      var hs := Get(cd, "headings").items;
      var d1 := Set(data, "headings", List(seq(|hs|, i requires 0 <= i < |hs| => HeadingWithId(hs[i]))));
      Set(d1, "headings_text", Str(Join(HeadingTexts(hs), " ")))
  }

  /** When no heading text holds a space, splitting `headings_text` at spaces
      gives back the heading texts. */
  lemma HeadingsTextSplits(data: Fields, cd: Fields)
    requires HeadingsWhenTruthy(cd) && Truthy(Get(cd, "headings"))
    requires var hs := Get(cd, "headings").items;
             forall i :: 0 <= i < |hs| ==> ' ' !in HeadingText(hs[i])
    ensures var t := Lookup(HeadingsContent(data, cd), "headings_text").value;
            t.Str? && Split(t.s, ' ') == HeadingTexts(Get(cd, "headings").items)
  {
    var hs := Get(cd, "headings").items;
    SplitJoin(HeadingTexts(hs), ' ');
  }

  /** Python's `v[:n]` on a list or a string, for a positive `n` (the only
      way `_add_optional_features` slices): the longest prefix of at most `n`
      items, which is the whole value when it is shorter than `n`. */
  function Prefix(v: Value, n: int): (r: Value)
    requires v.List? || v.Str?
    requires n > 0
    ensures v.List? ==> r.List? && |r.items| <= n && |r.items| <= |v.items| && r.items == v.items[..|r.items|] && (|r.items| < n ==> r == v)
    ensures v.Str? ==> r.Str? && |r.s| <= n && |r.s| <= |v.s| && r.s == v.s[..|r.s|] && (|r.s| < n ==> r == v)
  {
    if v.List? then List(v.items[..if n < |v.items| then n else |v.items|])
    else Str(v.s[..if n < |v.s| then n else |v.s|])
  }

  /** `data[key] = src[key]` when `on` and the key is present. */
  function CopyIf(data: Fields, src: Fields, key: string, on: bool): (r: Fields)
    ensures Lookup(r, key) == if on && HasKey(src, key) then Lookup(src, key) else Lookup(data, key)
    ensures forall k {:trigger Lookup(data, k)} :: k != key ==> Lookup(r, k) == Lookup(data, k)
  {
    if on && HasKey(src, key) then Set(data, key, Lookup(src, key).value) else data
  }

  /** The keywords as written: the first `max` of them when `max > 0`. */
  function CappedKeywords(kw: Value, max: int): (r: Value)
    requires max > 0 ==> kw.List? || kw.Str?
    ensures max <= 0 ==> r == kw
    ensures max > 0 && kw.List? ==> r.List? && |r.items| <= max && |r.items| <= |kw.items| && r.items == kw.items[..|r.items|]
                                    && (|kw.items| <= max ==> r == kw)
  {
    if max > 0 then Prefix(kw, max) else kw
  }

  /** The keywords need slicing only when they are extracted and capped. */
  predicate KeywordsSliceable(cd: Fields, st: Settings) {
    st.extractKeywords && HasKey(cd, "keywords") && st.keywordsMaxCount > 0 ==>
      Get(cd, "keywords").List? || Get(cd, "keywords").Str?
  }

  /** The keywords step of `_add_optional_features`. */
  function KeywordsFeature(data: Fields, cd: Fields, st: Settings): (r: Fields)
    requires KeywordsSliceable(cd, st)
    ensures Lookup(r, "keywords") ==
              if st.extractKeywords && HasKey(cd, "keywords") then Some(CappedKeywords(Get(cd, "keywords"), st.keywordsMaxCount))
              else Lookup(data, "keywords")
    ensures forall k {:trigger Lookup(data, k)} :: k != "keywords" ==> Lookup(r, k) == Lookup(data, k)
  {
    if st.extractKeywords && HasKey(cd, "keywords")
    then Set(data, "keywords", CappedKeywords(Get(cd, "keywords"), st.keywordsMaxCount)) else data
  }

  /** `_add_optional_features`: keywords (capped), code blocks, links and
      images, each when its setting is on and the extractor found them. */
  function OptionalFeatures(data: Fields, cd: Fields, st: Settings): (r: Fields)
    requires KeywordsSliceable(cd, st)
  {
    var d1 := KeywordsFeature(data, cd, st);
    var d2 := CopyIf(d1, cd, "code_blocks", st.extractCodeBlocks);
    var d3 := CopyIf(d2, cd, "links", st.extractLinks);
    CopyIf(d3, cd, "images", st.extractImages)
  }

  /** What `_add_optional_features` writes: each feature the extractor found
      whose setting is on, the keywords capped, and nothing else. */
  lemma OptionalFeaturesWrites(data: Fields, cd: Fields, st: Settings)
    requires KeywordsSliceable(cd, st)
    ensures var r := OptionalFeatures(data, cd, st);
            && Lookup(r, "keywords") ==
                 (if st.extractKeywords && HasKey(cd, "keywords") then Some(CappedKeywords(Get(cd, "keywords"), st.keywordsMaxCount))
                  else Lookup(data, "keywords"))
            && Lookup(r, "code_blocks") == (if st.extractCodeBlocks && HasKey(cd, "code_blocks") then Lookup(cd, "code_blocks") else Lookup(data, "code_blocks"))
            && Lookup(r, "links") == (if st.extractLinks && HasKey(cd, "links") then Lookup(cd, "links") else Lookup(data, "links"))
            && Lookup(r, "images") == (if st.extractImages && HasKey(cd, "images") then Lookup(cd, "images") else Lookup(data, "images"))
  {
  }

  /** `_add_optional_features` writes no other key. */
  lemma OptionalFeaturesFrame(data: Fields, cd: Fields, st: Settings, k: string)
    requires KeywordsSliceable(cd, st)
    requires k != "keywords" && k != "code_blocks" && k != "links" && k != "images"
    ensures Lookup(OptionalFeatures(data, cd, st), k) == Lookup(data, k)
  {
  }

  /** `_add_document_metadata`: the document type and section path, which the
      document discovery computes, each when its setting is on. */
  function DocumentMetadata(data: Fields, st: Settings, docType: Value, sectionPath: Value): (r: Fields)
    ensures Lookup(r, "doc_type") == if st.includeDocType then Some(docType) else Lookup(data, "doc_type")
    ensures Lookup(r, "section_path") == if st.includeSectionPath then Some(sectionPath) else Lookup(data, "section_path")
    ensures forall k {:trigger Lookup(data, k)} :: k != "doc_type" && k != "section_path" ==> Lookup(r, k) == Lookup(data, k)
  {
    var d1 := if st.includeDocType then Set(data, "doc_type", docType) else data;
    if st.includeSectionPath then Set(d1, "section_path", sectionPath) else d1
  }

  /** What the content helpers need of the extracted content. */
  predicate ContentFieldsReady(cd: Fields, st: Settings) {
    TextWhenTruthy(cd, "content") && TextWhenTruthy(cd, "summary") && HeadingsWhenTruthy(cd) && KeywordsSliceable(cd, st)
  }

  /** `_add_content_fields`: the five helpers in order. Only the primary
      content helper writes `content`. */
  function AddContentFields(data: Fields, cd: Fields, st: Settings, docType: Value, sectionPath: Value): (r: Fields)
    requires ContentFieldsReady(cd, st)
    ensures Lookup(r, "content") ==
              if Truthy(Get(cd, "content")) then Some(Str(Truncate(Get(cd, "content").s, st.contentMaxLength)))
              else Lookup(data, "content")
  {
    var d1 := PrimaryContent(data, cd, st.contentMaxLength);
    var d2 := SummaryContent(d1, cd, st.summaryMaxLength);
    var d3 := HeadingsContent(d2, cd);
    var d4 := OptionalFeatures(d3, cd, st);
    OptionalFeaturesFrame(d3, cd, st, "content");
    DocumentMetadata(d4, st, docType, sectionPath)
  }

  /** The keys the content helpers may write. */
  predicate ContentFieldKey(k: string) {
    k == "content" || k == "format" || k == "content_length" || k == "word_count" || k == "summary"
    || k == "headings" || k == "headings_text" || k == "keywords" || k == "code_blocks" || k == "links"
    || k == "images" || k == "doc_type" || k == "section_path"
  }

  /** `_add_content_fields` leaves every other key as it was. */
  lemma AddContentFieldsFrame(data: Fields, cd: Fields, st: Settings, docType: Value, sectionPath: Value, k: string)
    requires ContentFieldsReady(cd, st) && !ContentFieldKey(k)
    ensures Lookup(AddContentFields(data, cd, st, docType, sectionPath), k) == Lookup(data, k)
  {
    hide PrimaryContent, SummaryContent, HeadingsContent, OptionalFeatures, DocumentMetadata;
    var d1 := PrimaryContent(data, cd, st.contentMaxLength);
    var d2 := SummaryContent(d1, cd, st.summaryMaxLength);
    var d3 := HeadingsContent(d2, cd);
    var d4 := OptionalFeatures(d3, cd, st);
    OptionalFeaturesFrame(d3, cd, st, k);
    assert Lookup(d1, k) == Lookup(data, k);
    assert Lookup(d2, k) == Lookup(d1, k);
    assert Lookup(d3, k) == Lookup(d2, k);
    assert Lookup(DocumentMetadata(d4, st, docType, sectionPath), k) == Lookup(d4, k);
  }

  // ---------------------------------------------------------------------------
  // add_metadata_fields
  // ---------------------------------------------------------------------------

  /** The normalised keys `add_metadata_fields` copies, each only when truthy
      (`title` and `cascade` are never copied). */
  const MetadataKeys: seq<string> := ["description", "tags", "topics", "content", "facets", "social", "dates", "status", "only"]

  /** `data[k] = src[k]` for each key of `keys` whose value in `src` is truthy. */
  function CopyTruthy(data: Fields, src: Fields, keys: seq<string>): (r: Fields)
    ensures forall k {:trigger Lookup(r, k)} :: Lookup(r, k) == if k in keys && Truthy(Get(src, k)) then Some(Get(src, k)) else Lookup(data, k)
    decreases |keys|
  {
    if |keys| == 0 then data
    else
      var d := if Truthy(Get(src, keys[0])) then Set(data, keys[0], Get(src, keys[0])) else data;
      var r := CopyTruthy(d, src, keys[1..]);
      assert forall k :: k in keys <==> k == keys[0] || k in keys[1..] by {
        assert keys == [keys[0]] + keys[1..];
      }
      r
  }

  /** `data["author"] = metadata["author"]` when it is truthy. */
  function AuthorStep(data: Fields, metadata: Fields): (r: Fields)
    ensures Lookup(r, "author") == if Truthy(Get(metadata, "author")) then Some(Get(metadata, "author")) else Lookup(data, "author")
    ensures forall k {:trigger Lookup(data, k)} :: k != "author" ==> Lookup(r, k) == Lookup(data, k)
  {
    if Truthy(Get(metadata, "author")) then Set(data, "author", Get(metadata, "author")) else data
  }

  /** The keys `add_metadata_fields` copies from the normalised record. */
  predicate IsMetadataKey(k: string) {
    k == "description" || k == "tags" || k == "topics" || k == "content" || k == "facets"
    || k == "social" || k == "dates" || k == "status" || k == "only"
  }

  /** The listed keys are exactly the copied keys. */
  lemma MetadataKeysMembers()
    ensures forall k :: k in MetadataKeys <==> IsMetadataKey(k)
  {
  }

  /** Copying over any listing of the copied keys, then the author. */
  lemma CopyMetadataLookup(data: Fields, n: Fields, metadata: Fields, keys: seq<string>, k: string)
    requires forall k :: k in keys <==> IsMetadataKey(k)
    ensures var r := AuthorStep(CopyTruthy(data, n, keys), metadata);
            Lookup(r, k) == if k == "author" then (if Truthy(Get(metadata, "author")) then Some(Get(metadata, "author")) else Lookup(data, "author"))
                            else if IsMetadataKey(k) && Truthy(Get(n, k)) then Some(Get(n, k)) else Lookup(data, k)
  {
    var c := CopyTruthy(data, n, keys);
    assert Lookup(c, k) == if k in keys && Truthy(Get(n, k)) then Some(Get(n, k)) else Lookup(data, k);
    if k != "author" {
      assert Lookup(AuthorStep(c, metadata), k) == Lookup(c, k);
    }
  }

  /** `add_metadata_fields`: the truthy normalised fields, then the raw
      `author` when truthy; every other key of `data` is kept. */
  function AddMetadataFields(data: Fields, metadata: Fields): (r: Fields)
    requires JsonNormalizable(metadata)
  {
    AuthorStep(CopyTruthy(data, NormalizeForJson(metadata), MetadataKeys), metadata)
  }

  /** What the record holds under any key after `add_metadata_fields`. */
  lemma AddMetadataLookup(data: Fields, metadata: Fields, k: string)
    requires JsonNormalizable(metadata)
    ensures var n := NormalizeForJson(metadata);
            Lookup(AddMetadataFields(data, metadata), k) ==
              if k == "author" then (if Truthy(Get(metadata, "author")) then Some(Get(metadata, "author")) else Lookup(data, "author"))
              else if IsMetadataKey(k) && Truthy(Get(n, k)) then Some(Get(n, k)) else Lookup(data, k)
  {
    hide NormalizeForJson, CopyTruthy, AuthorStep;
    MetadataKeysMembers();
    CopyMetadataLookup(data, NormalizeForJson(metadata), metadata, MetadataKeys, k);
  }

  /** The page's `title` and `cascade` never reach the index record through
      `add_metadata_fields`, though the normaliser keeps them. */
  lemma AddMetadataSkipsTitleAndCascade(data: Fields, metadata: Fields)
    requires JsonNormalizable(metadata)
    ensures Lookup(AddMetadataFields(data, metadata), "title") == Lookup(data, "title")
    ensures Lookup(AddMetadataFields(data, metadata), "cascade") == Lookup(data, "cascade")
  {
    hide NormalizeForJson, AddMetadataFields;
    AddMetadataLookup(data, metadata, "title");
    AddMetadataLookup(data, metadata, "cascade");
  }

  /** When the page has any content classification, `content` becomes the
      rebuilt classification mapping. */
  lemma AddMetadataContent(data: Fields, metadata: Fields)
    requires JsonNormalizable(metadata)
    ensures |ContentRecord(metadata)| > 0 ==> Lookup(AddMetadataFields(data, metadata), "content") == Some(Obj(ContentRecord(metadata)))
    ensures |ContentRecord(metadata)| == 0 ==> Lookup(AddMetadataFields(data, metadata), "content") == Lookup(data, "content")
  {
    hide NormalizeForJson, AddMetadataFields, ContentRecord, CopyTruthy, AuthorStep;
    NormalizeForJsonLookup(metadata, FContent);
    AddMetadataLookup(data, metadata, "content");
  }

  // ---------------------------------------------------------------------------
  // The page and child records
  // ---------------------------------------------------------------------------

  /** The record every page starts from: `id`, `title`, `url`, then
      `last_modified` for a full page record, then `parent` when the page has
      any. */
  function BaseRecord(docname: string, title: string, url: string, now: Option<string>, known: set<string>): (r: Fields)
    ensures Lookup(r, "id") == Some(Str(docname))
    ensures Lookup(r, "content") == None
    ensures Lookup(r, "parent") == if |ParentPath(docname, known)| > 0 then Some(List(StrList(ParentPath(docname, known)))) else None
  {
    var parents := ParentPath(docname, known);
    var head := [("id", Str(docname)), ("title", Str(title)), ("url", Str(url))]
                + (if now.Some? then [("last_modified", Str(now.value))] else []);
    LookupAbsent(head, "parent");
    LookupAbsent(head, "content");
    if |parents| > 0 then Set(head, "parent", List(StrList(parents))) else head
  }

  function StrList(xs: seq<string>): (r: seq<Value>)
    ensures |r| == |xs|
    ensures forall i :: 0 <= i < |xs| ==> r[i] == Str(xs[i])
  {
    seq(|xs|, i requires 0 <= i < |xs| => Str(xs[i]))
  }

  /** `data.update(self._product_metadata)` when it is non-empty: only `book`,
      `product` and `site` can change. */
  function WithProduct(data: Fields, cfg: SphinxConfig): (r: Fields)
    requires FamilyCheckable(cfg)
    ensures forall k {:trigger Lookup(r, k)} :: k != "book" && k != "product" && k != "site" ==> Lookup(r, k) == Lookup(data, k)
  {
    var pm := ProductMetadata(cfg);
    if |pm| > 0 then Update(data, pm) else data
  }

  /** The markdown routing of `build_json_data` (lines 359-368 of `build_json_data`): a
      truthy page text goes to `content_text` when `content` already holds a
      classification mapping, and to `content` otherwise; `format` comes along. */
  function RouteContent(data: Fields, cd: Fields): (r: Fields)
    ensures !Truthy(Get(cd, "content")) ==> r == data
    ensures Truthy(Get(cd, "content")) && Get(data, "content").Obj? ==>
              Lookup(r, "content") == Lookup(data, "content") && Lookup(r, "content_text") == Some(Get(cd, "content"))
    ensures Truthy(Get(cd, "content")) && !Get(data, "content").Obj? ==>
              Lookup(r, "content") == Some(Get(cd, "content")) && Lookup(r, "content_text") == Lookup(data, "content_text")
    ensures Truthy(Get(cd, "content")) ==> Lookup(r, "format") == Some(Format(cd))
    ensures forall k {:trigger Lookup(data, k)} :: k != "content" && k != "content_text" && k != "format" ==> Lookup(r, k) == Lookup(data, k)
  {
    if !Truthy(Get(cd, "content")) then data
    else if Get(data, "content").Obj? then Set(Set(data, "content_text", Get(cd, "content")), "format", Format(cd))
    else Set(Set(data, "content", Get(cd, "content")), "format", Format(cd))
  }

  /** `{"text": h["text"], "level": h["level"]}`. */
  function HeadingRecord(h: Value): Value
    requires IsHeading(h)
  {
    Obj([("text", Lookup(h.fields, "text").value), ("level", Lookup(h.fields, "level").value)])
  }

  /** Python iterates truthy headings and indexes each one. */
  predicate HeadingRecordsWhenTruthy(cd: Fields) {
    Truthy(Get(cd, "headings")) ==>
      Get(cd, "headings").List? && forall i :: 0 <= i < |Get(cd, "headings").items| ==> IsHeading(Get(cd, "headings").items[i])
  }

  /** The summary and heading records `build_json_data` writes last. */
  function SummaryAndHeadings(data: Fields, cd: Fields): (r: Fields)
    requires HeadingRecordsWhenTruthy(cd)
    ensures forall k {:trigger Lookup(r, k)} :: k != "summary" && k != "headings" ==> Lookup(r, k) == Lookup(data, k)
  {
    var d := if Truthy(Get(cd, "summary")) then Set(data, "summary", Get(cd, "summary")) else data;
    if Truthy(Get(cd, "headings")) then
      var hs := Get(cd, "headings").items;
      Set(d, "headings", List(seq(|hs|, i requires 0 <= i < |hs| => HeadingRecord(hs[i]))))
    else d
  }

  /** `build_json_data`, with the page title, URL, clock reading, known pages,
      frontmatter and extracted content as parameters. */
  function BuildJsonData(docname: string, title: string, url: string, now: string, known: set<string>,
                         metadata: Fields, cd: Fields, cfg: SphinxConfig): (r: Fields)
    requires JsonNormalizable(metadata) && FamilyCheckable(cfg) && HeadingRecordsWhenTruthy(cd)
    ensures Lookup(r, "id") == Some(Str(docname))
  {
    hide NormalizeForJson, AddMetadataFields, WithProduct, RouteContent, SummaryAndHeadings;
    var d0 := BaseRecord(docname, title, url, Some(now), known);
    var d1 := AddMetadataFields(d0, metadata);
    AddMetadataLookup(d0, metadata, "id");
    var d2 := WithProduct(d1, cfg);
    assert Lookup(d2, "id") == Lookup(d1, "id");
    var d3 := RouteContent(d2, cd);
    assert Lookup(d3, "id") == Lookup(d2, "id");
    var r := SummaryAndHeadings(d3, cd);
    assert Lookup(r, "id") == Lookup(d3, "id");
    r
  }

  /** Where the page text lands in `build_json_data`: beside a content
      classification (in `content_text`) when the frontmatter has one, in
      `content` otherwise; with no page text, `content` is the classification
      or absent. */
  lemma BuildJsonDataRoutes(docname: string, title: string, url: string, now: string, known: set<string>,
                            metadata: Fields, cd: Fields, cfg: SphinxConfig)
    requires JsonNormalizable(metadata) && FamilyCheckable(cfg) && HeadingRecordsWhenTruthy(cd)
    ensures var r := BuildJsonData(docname, title, url, now, known, metadata, cd, cfg);
            var text := Get(cd, "content");
            var cr := ContentRecord(metadata);
            && (Truthy(text) && |cr| > 0 ==> Lookup(r, "content") == Some(Obj(cr)) && Lookup(r, "content_text") == Some(text))
            && (Truthy(text) && |cr| == 0 ==> Lookup(r, "content") == Some(text))
            && (!Truthy(text) ==> Lookup(r, "content") == if |cr| > 0 then Some(Obj(cr)) else None)
  {
    hide NormalizeForJson, AddMetadataFields, ContentRecord, WithProduct, RouteContent, SummaryAndHeadings, BaseRecord;
    var d0 := BaseRecord(docname, title, url, Some(now), known);
    var d1 := AddMetadataFields(d0, metadata);
    AddMetadataContent(d0, metadata);
    var d2 := WithProduct(d1, cfg);
    assert Lookup(d2, "content") == Lookup(d1, "content");
    var d3 := RouteContent(d2, cd);
    var r := SummaryAndHeadings(d3, cd);
    assert Lookup(r, "content") == Lookup(d3, "content") && Lookup(r, "content_text") == Lookup(d3, "content_text");
  }

  /** `build_child_json_data`: the page record without a clock reading, and
      with the content helpers instead of the markdown routing. Content is
      included when asked, or by the `include_child_content` setting. */
  function BuildChildJsonData(docname: string, title: string, url: string, known: set<string>,
                              metadata: Fields, cd: Fields, includeContent: Option<bool>, st: Settings,
                              cfg: SphinxConfig, docType: Value, sectionPath: Value): (r: Fields)
    requires JsonNormalizable(metadata) && FamilyCheckable(cfg)
    requires includeContent.GetOr(st.includeChildContent) ==> ContentFieldsReady(cd, st)
    ensures Lookup(r, "id") == Some(Str(docname))
  {
    hide NormalizeForJson, AddMetadataFields, WithProduct, AddContentFields;
    var d0 := BaseRecord(docname, title, url, None, known);
    var d1 := AddMetadataFields(d0, metadata);
    AddMetadataLookup(d0, metadata, "id");
    var d2 := WithProduct(d1, cfg);
    assert Lookup(d2, "id") == Lookup(d1, "id");
    if includeContent.GetOr(st.includeChildContent) then
      var r := AddContentFields(d2, cd, st, docType, sectionPath);
      AddContentFieldsFrame(d2, cd, st, docType, sectionPath, "id");
      r
    else d2
  }

  /** In a child record the content helpers run after the classification is
      copied, so a truthy page text replaces the classification under
      `content`; without content, `content` is the classification or absent. */
  lemma ChildContent(docname: string, title: string, url: string, known: set<string>,
                     metadata: Fields, cd: Fields, includeContent: Option<bool>, st: Settings,
                     cfg: SphinxConfig, docType: Value, sectionPath: Value)
    requires JsonNormalizable(metadata) && FamilyCheckable(cfg)
    requires includeContent.GetOr(st.includeChildContent) ==> ContentFieldsReady(cd, st)
    ensures var r := BuildChildJsonData(docname, title, url, known, metadata, cd, includeContent, st, cfg, docType, sectionPath);
            var cr := ContentRecord(metadata);
            && (includeContent.GetOr(st.includeChildContent) && Truthy(Get(cd, "content")) ==>
                  Lookup(r, "content") == Some(Str(Truncate(Get(cd, "content").s, st.contentMaxLength))))
            && (!includeContent.GetOr(st.includeChildContent) ==> Lookup(r, "content") == if |cr| > 0 then Some(Obj(cr)) else None)
  {
    hide NormalizeForJson, AddMetadataFields, ContentRecord, WithProduct, AddContentFields, BaseRecord;
    var d0 := BaseRecord(docname, title, url, None, known);
    var d1 := AddMetadataFields(d0, metadata);
    AddMetadataContent(d0, metadata);
    var d2 := WithProduct(d1, cfg);
    assert Lookup(d2, "content") == Lookup(d1, "content");
  }
}
