/**
 The schema-migration script's rewrite of one frontmatter mapping from the
 legacy flat schema to the v2 nested one (`transform_frontmatter`), with its
 three lookup tables, and the check that skips files already in v2 form.
 Unlike the Sphinx extensions, the rewrite keys on presence, not truthiness:
 a `status: false` survives it.
 */
module TransformFrontmatter {
  import opened Text
  import opened Values
  import opened Schema
  import opened Emission

  // ---------------------------------------------------------------------------
  // The lookup tables of scripts/transform_frontmatter.py (lines 28-62)
  // ---------------------------------------------------------------------------

  /** `PERSONA_MAP`: legacy persona tokens and plural audience names to the
      singular audience names. */
  function PersonaEntry(p: string): (r: Option<string>) {
    if p == "data-scientist-focused" || p == "Data Scientists" then Some("Data Scientist")
    else if p == "mle-focused" || p == "Machine Learning Engineers" then Some("Machine Learning Engineer")
    else if p == "admin-focused" || p == "Cluster Administrators" then Some("Cluster Administrator")
    else if p == "devops-focused" || p == "DevOps Professionals" then Some("DevOps Professional")
    else None
  }

  /** `CONTENT_TYPE_MAP`, keyed by lower-case type names. */
  function ContentTypeEntry(t: string): (r: Option<string>) {
    if t == "tutorial" then Some("Tutorial")
    else if t == "concept" then Some("Concept")
    else if t == "reference" then Some("Reference")
    else if t == "workflow" then Some("Workflow")
    else if t == "index" then Some("Index")
    else if t == "example" then Some("Example")
    else if t == "troubleshooting" then Some("Troubleshooting")
    else if t == "get-started" || t == "getting-started" then Some("Get Started")
    else None
  }

  /** `DIFFICULTY_MAP`, keyed by lower-case difficulty names; `reference` is
      not a difficulty and becomes `Intermediate`. */
  function DifficultyEntry(d: string): (r: Option<string>) {
    if d == "beginner" then Some("Beginner")
    else if d == "intermediate" || d == "reference" then Some("Intermediate")
    else if d == "advanced" then Some("Advanced")
    else None
  }

  /** `PERSONA_MAP.get(p, p)`: a listed string is replaced, anything else
      passes through. */
  function MapPersona(p: Value): (r: Value)
    ensures p.Str? && PersonaEntry(p.s).Some? ==> r == Str(PersonaEntry(p.s).value)
    ensures !(p.Str? && PersonaEntry(p.s).Some?) ==> r == p
  {
    if p.Str? && PersonaEntry(p.s).Some? then Str(PersonaEntry(p.s).value) else p
  }

  /** The table's outputs are not among its keys, so mapping twice changes
      nothing more. */
  lemma MapPersonaIdempotent(p: Value)
    ensures MapPersona(MapPersona(p)) == MapPersona(p)
  {
  }

  /** `table.get(v.lower(), v.title())` for the type and difficulty tables. */
  function TableOrTitle(entry: string -> Option<string>, v: string): (r: string)
    ensures entry(Lower(v)).Some? ==> r == entry(Lower(v)).value
    ensures entry(Lower(v)).None? ==> r == Title(v)
  {
    if entry(Lower(v)).Some? then entry(Lower(v)).value else Title(v)
  }

  /** The lookup ignores case: two spellings that agree in lower case map to
      the same name when the table knows them. */
  lemma TableIgnoresCase(entry: string -> Option<string>, a: string, b: string)
    requires Lower(a) == Lower(b) && entry(Lower(a)).Some?
    ensures TableOrTitle(entry, a) == TableOrTitle(entry, b)
  {
  }

  // ---------------------------------------------------------------------------
  // What the rewrite reads
  // ---------------------------------------------------------------------------

  /** `"content" in fm and isinstance(fm["content"], dict) and sub in fm["content"]`. */
  predicate NestedHas(fm: Fields, sub: string) {
    HasKey(fm, "content") && Get(fm, "content").Obj? && HasKey(Get(fm, "content").fields, sub)
  }

  /** `fm["content"][sub]`, read only when `NestedHas(fm, sub)`. */
  function Nested(fm: Fields, sub: string): Value
    requires NestedHas(fm, sub)
  {
    Lookup(Get(fm, "content").fields, sub).value
  }

  /** Legacy personas the table can be applied to: Python's `dict.get`
      raises on a list or dict used as a key. */
  predicate PersonasMappable(p: Value) {
    if p.List? then forall i :: 0 <= i < |p.items| ==> Hashable(p.items[i]) else Hashable(p)
  }

  /** What the rewrite needs to avoid a Python exception: legacy
      `content_type` and `difficulty` that it reads are strings (it calls
      `.lower()` on them), and legacy personas it reads are hashable. */
  predicate Transformable(fm: Fields) {
    && (!NestedHas(fm, "type") && HasKey(fm, "content_type") ==> Get(fm, "content_type").Str?)
    && (!NestedHas(fm, "difficulty") && HasKey(fm, "difficulty") ==> Get(fm, "difficulty").Str?)
    && (!NestedHas(fm, "audience") && HasKey(fm, "personas") ==> PersonasMappable(Get(fm, "personas")))
  }

  // ---------------------------------------------------------------------------
  // transform_frontmatter
  // ---------------------------------------------------------------------------

  /** The audience from legacy personas: each item of a list, or the single
      value, goes through the persona table. */
  function AudienceOf(p: Value): (r: Value)
    ensures r.List?
    ensures p.List? ==> |r.items| == |p.items| && forall i :: 0 <= i < |p.items| ==> r.items[i] == MapPersona(p.items[i])
    ensures !p.List? ==> r.items == [MapPersona(p)]
  {
    if p.List? then List(seq(|p.items|, i requires 0 <= i < |p.items| => MapPersona(p.items[i])))
    else List([MapPersona(p)])
  }

  /** A legacy type or difficulty through its table; only strings reach it
      under `Transformable`, anything else is kept as it is. */
  function Renamed(entry: string -> Option<string>, v: Value): Value {
    if v.Str? then Str(TableOrTitle(entry, v.s)) else v
  }

  /** The nested v2 value `content[sub]` when present, else the legacy
      key's value converted by `conv`, else nothing. */
  function NestedOrLegacy(fm: Fields, sub: string, legacy: string, conv: Value -> Value): (r: Option<Value>) {
    if NestedHas(fm, sub) then Some(Nested(fm, sub))
    else if HasKey(fm, legacy) then Some(conv(Get(fm, legacy)))
    else None
  }

  /** A legacy `content_type` through `CONTENT_TYPE_MAP`. */
  function RenameType(v: Value): Value {
    Renamed(ContentTypeEntry, v)
  }

  /** A legacy `difficulty` through `DIFFICULTY_MAP`. */
  function RenameDifficulty(v: Value): Value {
    Renamed(DifficultyEntry, v)
  }

  /** One key of the rebuilt `content` mapping (lines 144-167 of `transform_frontmatter`). */
  function ContentSub(fm: Fields, f: Field): Option<Value> {
    match f
    case FType => NestedOrLegacy(fm, "type", "content_type", RenameType)
    case FDifficulty => NestedOrLegacy(fm, "difficulty", "difficulty", RenameDifficulty)
    case FAudience => NestedOrLegacy(fm, "audience", "personas", AudienceOf)
    case _ => None
  }

  /** On a mapping whose `content` already holds the decided value (or is
      absent when nothing was decided) and which has no legacy key, the same
      value is decided again. */
  lemma NestedOrLegacyStable(t: Fields, sub: string, legacy: string, conv: Value -> Value, o: Option<Value>)
    requires Lookup(t, legacy) == None
    requires Lookup(t, "content").Some? ==> Lookup(t, "content").value.Obj? && Lookup(Lookup(t, "content").value.fields, sub) == o
    requires Lookup(t, "content").None? ==> o.None?
    ensures NestedOrLegacy(t, sub, legacy, conv) == o
  {
  }

  /** The rebuilt `content` mapping. */
  function ContentOf(fm: Fields): Fields {
    Record(ContentOrder, f => ContentSub(fm, f))
  }

  /** The rebuilt `facets` (lines 173-181 of `transform_frontmatter`): a `facets` mapping is
      copied whole, else legacy `modality` becomes its only key; an empty
      result is dropped. */
  function FacetsOf(fm: Fields): (r: Option<Value>)
    ensures r.Some? ==> r.value.Obj? && |r.value.fields| > 0
  {
    if HasKey(fm, "facets") && Get(fm, "facets").Obj? then
      (if |Get(fm, "facets").fields| > 0 then Some(Get(fm, "facets")) else None)
    else if HasKey(fm, "modality") then Some(Obj([("modality", Get(fm, "modality"))]))
    else None
  }

  /** The rebuilt `title` (lines 197-205 of `transform_frontmatter`): only a mapping title is
      kept, and only its `page` and `social` keys. */
  function TitleOf(fm: Fields): (r: Option<Value>)
    ensures r.Some? ==> r.value.Obj? && |r.value.fields| > 0
  {
    if HasKey(fm, "title") && Get(fm, "title").Obj? then
      var t := Get(fm, "title").fields;
      var kept := Entry("page", Lookup(t, "page")) + Entry("social", Lookup(t, "social"));
      if |kept| > 0 then Some(Obj(kept)) else None
    else None
  }

  /** Keys copied whenever they are present, whatever their value. */
  predicate PassedThrough(f: Field) {
    f.FDescription? || f.FTags? || f.FStatus? || f.FDates? || f.FSocial? || f.FOnly?
  }

  /** What the rewrite writes under each output key. */
  function TransformField(fm: Fields, f: Field): Option<Value> {
    if PassedThrough(f) then Lookup(fm, Name(f))
    else match f
      case FTopics =>
        if HasKey(fm, "topics") then Lookup(fm, "topics")
        else if HasKey(fm, "categories") then Some(Listify(Get(fm, "categories")))
        else None
      case FContent => if |ContentOf(fm)| > 0 then Some(Obj(ContentOf(fm))) else None
      case FFacets => FacetsOf(fm)
      case FTitle => TitleOf(fm)
      case _ => None
  }

  /** The order in which the rewrite writes its keys. */
  const TransformOrder: seq<Field> := [FDescription, FTopics, FTags, FContent, FFacets, FStatus, FDates, FSocial, FOnly, FTitle]

  /** `transform_frontmatter`: the v2 mapping rebuilt from scratch. */
  function Transform(fm: Fields): (r: Fields)
    requires Transformable(fm)
  {
    Record(TransformOrder, f => TransformField(fm, f))
  }

  lemma TransformOrderUnique()
    ensures Unique(TransformOrder) && Unique(ContentOrder)
  {
  }

  /** What the rewritten mapping holds under a field's name: what
      `TransformField` decides for the ten output keys, nothing otherwise. */
  lemma TransformFieldLookup(fm: Fields, f: Field)
    requires Transformable(fm)
    ensures Lookup(Transform(fm), Name(f)) == if f in TransformOrder then TransformField(fm, f) else None
  {
    TransformOrderUnique();
    RecordLookup(TransformOrder, g => TransformField(fm, g), f);
  }

  /** A key that names no v2 field is never written. */
  lemma TransformOtherKey(fm: Fields, k: string)
    requires Transformable(fm)
    requires forall f: Field :: Name(f) != k
    ensures Lookup(Transform(fm), k) == None
  {
    LookupOther(Build(TransformOrder, g => TransformField(fm, g)), k);
  }

  /** Presence, not truthiness, decides: description, tags, status, dates,
      social and only are copied whenever present, falsy or not. */
  lemma TransformKeepsPresent(fm: Fields, f: Field)
    requires Transformable(fm) && PassedThrough(f)
    ensures Lookup(Transform(fm), Name(f)) == Lookup(fm, Name(f))
  {
    TransformFieldLookup(fm, f);
  }

  /** Three legacy keys name no v2 field at all. */
  lemma LegacyKeysNameNoField()
    ensures forall f: Field :: Name(f) != "categories" && Name(f) != "personas" && Name(f) != "content_type"
  {
  }

  /** No legacy key and no `cascade` survives the rewrite. */
  lemma TransformDropsLegacy(fm: Fields)
    requires Transformable(fm)
    ensures var r := Transform(fm);
            && Lookup(r, "categories") == None && Lookup(r, "personas") == None
            && Lookup(r, "content_type") == None && Lookup(r, "difficulty") == None
            && Lookup(r, "modality") == None && Lookup(r, "cascade") == None
  {
    hide Transform;
    LegacyKeysNameNoField();
    TransformOtherKey(fm, "categories");
    TransformOtherKey(fm, "personas");
    TransformOtherKey(fm, "content_type");
    TransformFieldLookup(fm, FDifficulty);
    TransformFieldLookup(fm, FModality);
    TransformFieldLookup(fm, FCascade);
  }

  /** The rebuilt `content` mapping holds what `ContentSub` decides. */
  lemma ContentOfLookup(fm: Fields, f: Field)
    requires f in ContentOrder
    ensures Lookup(ContentOf(fm), Name(f)) == ContentSub(fm, f)
  {
    TransformOrderUnique();
    RecordLookup(ContentOrder, g => ContentSub(fm, g), f);
  }

  /** A sub-key of the rewritten `content`: the nested v2 value wins over the
      legacy key, which goes through its table; absent when neither is there. */
  lemma TransformContentKey(fm: Fields, f: Field)
    requires Transformable(fm) && f in ContentOrder
    ensures At2(Transform(fm), "content", Name(f)) == ContentSub(fm, f).GetOr(Null)
  {
    hide Transform;
    TransformFieldLookup(fm, FContent);
    ContentOfLookup(fm, f);
    if |ContentOf(fm)| == 0 {
      TransformOrderUnique();
      RecordEmpty(ContentOrder, g => ContentSub(fm, g), f);
    }
  }

  /** Nested `content.type`, `content.difficulty` and `content.audience`
      win over the legacy keys (lines 146-162 of `transform_frontmatter`). */
  lemma TransformNestedWins(fm: Fields, sub: string)
    requires Transformable(fm) && NestedHas(fm, sub)
    requires sub == "type" || sub == "difficulty" || sub == "audience"
    ensures At2(Transform(fm), "content", sub) == Nested(fm, sub)
  {
    var f := if sub == "type" then FType else if sub == "difficulty" then FDifficulty else FAudience;
    assert f == ContentOrder[0] || f == ContentOrder[1] || f == ContentOrder[2];
    TransformContentKey(fm, f);
  }

  /** Without the nested value, legacy `content_type` and `difficulty` go
      through their lower-cased tables (else title case), and legacy personas,
      a list or a single value, through the persona table. */
  lemma TransformLegacyContent(fm: Fields)
    requires Transformable(fm)
    ensures !NestedHas(fm, "type") && HasKey(fm, "content_type") ==>
              At2(Transform(fm), "content", "type") == Str(TableOrTitle(ContentTypeEntry, Get(fm, "content_type").s))
    ensures !NestedHas(fm, "difficulty") && HasKey(fm, "difficulty") ==>
              At2(Transform(fm), "content", "difficulty") == Str(TableOrTitle(DifficultyEntry, Get(fm, "difficulty").s))
    ensures !NestedHas(fm, "audience") && HasKey(fm, "personas") ==>
              At2(Transform(fm), "content", "audience") == AudienceOf(Get(fm, "personas"))
  {
    hide Transform;
    assert FType == ContentOrder[0] && FDifficulty == ContentOrder[1] && FAudience == ContentOrder[2];
    TransformContentKey(fm, FType);
    TransformContentKey(fm, FDifficulty);
    TransformContentKey(fm, FAudience);
  }

  /** Topics are kept when present, else taken from legacy `categories`,
      a single category becoming a one-item list. */
  lemma TransformTopics(fm: Fields)
    requires Transformable(fm)
    ensures Lookup(Transform(fm), "topics") ==
              if HasKey(fm, "topics") then Lookup(fm, "topics")
              else if HasKey(fm, "categories") then Some(Listify(Get(fm, "categories")))
              else None
  {
    TransformFieldLookup(fm, FTopics);
  }

  /** A non-empty `facets` mapping is copied whole; legacy `modality` is only
      consulted when `facets` is not a mapping. */
  lemma TransformFacets(fm: Fields)
    requires Transformable(fm)
    ensures HasKey(fm, "facets") && Get(fm, "facets").Obj? ==>
              Lookup(Transform(fm), "facets") == if |Get(fm, "facets").fields| > 0 then Lookup(fm, "facets") else None
    ensures !(HasKey(fm, "facets") && Get(fm, "facets").Obj?) && HasKey(fm, "modality") ==>
              Lookup(Transform(fm), "facets") == Some(Obj([("modality", Get(fm, "modality"))]))
  {
    hide Transform;
    TransformFieldLookup(fm, FFacets);
  }

  /** A title mapping keeps only its `page` and `social` keys; any other
      title is dropped. */
  lemma TransformTitle(fm: Fields)
    requires Transformable(fm)
    ensures var t := Lookup(Transform(fm), "title");
            && (t.Some? ==> HasKey(fm, "title") && Get(fm, "title").Obj? && t.value.Obj?)
            && (t.Some? ==> forall k {:trigger Lookup(t.value.fields, k)} :: k != "page" && k != "social" ==> Lookup(t.value.fields, k) == None)
            && (HasKey(fm, "title") && Get(fm, "title").Obj? ==>
                  At2(Transform(fm), "title", "page") == At2(fm, "title", "page")
                  && At2(Transform(fm), "title", "social") == At2(fm, "title", "social"))
  {
    hide Transform;
    TransformFieldLookup(fm, FTitle);
    if HasKey(fm, "title") && Get(fm, "title").Obj? {
      var t := Get(fm, "title").fields;
      var p := Entry("page", Lookup(t, "page"));
      var q := Entry("social", Lookup(t, "social"));
      LookupAppend(p, q, "page");
      LookupAppend(p, q, "social");
      forall k | k != "page" && k != "social" ensures Lookup(p + q, k) == None {
        LookupAppend(p, q, k);
      }
    }
  }

  // ---------------------------------------------------------------------------
  // Idempotence
  // ---------------------------------------------------------------------------

  /** The rewrite's output can be rewritten again: it holds no legacy key. */
  lemma TransformStaysTransformable(fm: Fields)
    requires Transformable(fm)
    ensures Transformable(Transform(fm))
  {
    TransformDropsLegacy(fm);
  }

  /** An empty rebuilt `content` mapping means no sub-key was decided. */
  lemma ContentOfEmpty(fm: Fields, f: Field)
    requires f in ContentOrder && |ContentOf(fm)| == 0
    ensures ContentSub(fm, f) == None
  {
    TransformOrderUnique();
    RecordEmpty(ContentOrder, g => ContentSub(fm, g), f);
  }

  /** The rewritten `content` holds each decided sub-key, and is absent
      when nothing was decided. */
  lemma RewrittenContent(fm: Fields, f: Field)
    requires Transformable(fm) && f in ContentOrder
    ensures var c := Lookup(Transform(fm), "content");
            && (c.Some? ==> c.value.Obj? && Lookup(c.value.fields, Name(f)) == ContentSub(fm, f))
            && (c.None? ==> ContentSub(fm, f).None?)
  {
    hide Transform, ContentOf;
    TransformFieldLookup(fm, FContent);
    ContentOfLookup(fm, f);
    if |ContentOf(fm)| == 0 {
      ContentOfEmpty(fm, f);
    }
  }

  /** Each sub-key of `content` is decided the same way on the rewritten
      mapping: the rewritten value is now the nested one, and no legacy key
      is left to fall back on. */
  lemma ContentSubStable(fm: Fields, f: Field)
    requires Transformable(fm) && f in ContentOrder
    ensures ContentSub(Transform(fm), f) == ContentSub(fm, f)
  {
    hide Transform;
    RewrittenContent(fm, f);
    LegacyKeysNameNoField();
    if f == FType {
      TransformOtherKey(fm, "content_type");
      SubStable(fm, f, "type", "content_type", RenameType);
    } else if f == FDifficulty {
      TransformFieldLookup(fm, FDifficulty);
      SubStable(fm, f, "difficulty", "difficulty", RenameDifficulty);
    } else {
      TransformOtherKey(fm, "personas");
      SubStable(fm, f, "audience", "personas", AudienceOf);
    }
  }

  /** One sub-key decided by the nested key `sub` or the legacy key `legacy`. */
  lemma SubStable(fm: Fields, f: Field, sub: string, legacy: string, conv: Value -> Value)
    requires Transformable(fm)
    requires ContentSub(Transform(fm), f) == NestedOrLegacy(Transform(fm), sub, legacy, conv)
    requires Name(f) == sub && Lookup(Transform(fm), legacy) == None
    requires var c := Lookup(Transform(fm), "content");
             && (c.Some? ==> c.value.Obj? && Lookup(c.value.fields, Name(f)) == ContentSub(fm, f))
             && (c.None? ==> ContentSub(fm, f).None?)
    ensures ContentSub(Transform(fm), f) == ContentSub(fm, f)
  {
    hide Transform, ContentSub, NestedOrLegacy;
    NestedOrLegacyStable(Transform(fm), sub, legacy, conv, ContentSub(fm, f));
  }

  /** Rewriting rebuilds the same `content` mapping. */
  lemma ContentOfStable(fm: Fields)
    requires Transformable(fm)
    ensures ContentOf(Transform(fm)) == ContentOf(fm)
  {
    var t := Transform(fm);
    hide Transform;
    forall f | f in ContentOrder ensures ContentSub(t, f) == ContentSub(fm, f) {
      ContentSubStable(fm, f);
    }
    BuildCongruent(ContentOrder, g => ContentSub(t, g), g => ContentSub(fm, g));
  }

  /** Each output key is rebuilt the same way from the rewritten mapping. */
  lemma FieldStable(fm: Fields, f: Field)
    requires Transformable(fm) && f in TransformOrder
    ensures TransformField(Transform(fm), f) == TransformField(fm, f)
  {
    var t := Transform(fm);
    hide Transform, ContentOf, TitleOf, FacetsOf;
    TransformFieldLookup(fm, f);
    if f.FContent? {
      ContentOfStable(fm);
    } else if f.FTitle? {
      TransformTitleStable(fm);
    } else if f.FFacets? {
      TransformFacetsStable(fm);
    } else if f.FTopics? {
      TransformDropsLegacy(fm);
    }
  }

  /** Rewriting keeps rebuilt facets as they are. */
  lemma TransformFacetsStable(fm: Fields)
    requires Transformable(fm)
    ensures FacetsOf(Transform(fm)) == FacetsOf(fm)
  {
    hide Transform;
    TransformFieldLookup(fm, FFacets);
    TransformDropsLegacy(fm);
  }

  /** Rewriting keeps a rebuilt title as it is. */
  lemma TransformTitleStable(fm: Fields)
    requires Transformable(fm)
    ensures TitleOf(Transform(fm)) == TitleOf(fm)
  {
    hide Transform;
    TransformFieldLookup(fm, FTitle);
    var o := TitleOf(fm);
    if o.Some? {
      var t := Get(fm, "title").fields;
      var p := Entry("page", Lookup(t, "page"));
      var q := Entry("social", Lookup(t, "social"));
      LookupAppend(p, q, "page");
      LookupAppend(p, q, "social");
    }
  }

  /** `transform_frontmatter` is idempotent: rewriting its own output gives
      the same mapping back. */
  lemma TransformIdempotent(fm: Fields)
    requires Transformable(fm)
    ensures Transformable(Transform(fm)) && Transform(Transform(fm)) == Transform(fm)
  {
    TransformStaysTransformable(fm);
    var t := Transform(fm);
    forall f | f in TransformOrder ensures TransformField(t, f) == TransformField(fm, f) {
      FieldStable(fm, f);
    }
    BuildCongruent(TransformOrder, g => TransformField(t, g), g => TransformField(fm, g));
  }

  // ---------------------------------------------------------------------------
  // The v2 check of process_file (lines 332-339 of scripts/transform_frontmatter.py)
  // ---------------------------------------------------------------------------

  /** The file is taken to be in v2 form already and left alone: its
      `content` mapping has a `type` or a `difficulty`, no re-formatting is
      forced, and none of `categories`, `personas` and `content_type` is
      present. Legacy `difficulty` and `modality` do not count. */
  predicate AlreadyV2(fm: Fields, force: bool) {
    && (NestedHas(fm, "type") || NestedHas(fm, "difficulty"))
    && !force
    && !HasKey(fm, "categories") && !HasKey(fm, "personas") && !HasKey(fm, "content_type")
  }

  /** A rewritten mapping is skipped on the next unforced run exactly when the
      rewrite decided a content type or a difficulty. */
  lemma RewrittenSkipped(fm: Fields)
    requires Transformable(fm)
    ensures AlreadyV2(Transform(fm), false) <==> ContentSub(fm, FType).Some? || ContentSub(fm, FDifficulty).Some?
  {
    hide Transform, ContentSub;
    TransformDropsLegacy(fm);
    RewrittenContent(fm, FType);
    RewrittenContent(fm, FDifficulty);
  }

  /** A legacy `difficulty` or `modality` key added after a v2 `content`
      mapping with a type does not stop the skip, so such a key stays in the
      file; a legacy `content_type` does. */
  lemma LegacyDifficultyKeptBySkip(fm: Fields, k: string, v: Value)
    requires NestedHas(fm, "type")
    requires !HasKey(fm, "categories") && !HasKey(fm, "personas") && !HasKey(fm, "content_type")
    ensures k == "difficulty" || k == "modality" ==> AlreadyV2(fm + [(k, v)], false)
    ensures k == "content_type" ==> !AlreadyV2(fm + [(k, v)], false)
  {
    LookupAppend(fm, [(k, v)], "content");
    LookupAppend(fm, [(k, v)], "categories");
    LookupAppend(fm, [(k, v)], "personas");
    LookupAppend(fm, [(k, v)], "content_type");
  }

  /** The rewrite comes out empty exactly when no output key is decided; the
      file is then left alone. */
  lemma TransformEmpty(fm: Fields)
    requires Transformable(fm)
    ensures |Transform(fm)| == 0 <==> forall f :: f in TransformOrder ==> TransformField(fm, f).None?
  {
    var g := f => TransformField(fm, f);
    TransformOrderUnique();
    if |Transform(fm)| == 0 {
      forall f | f in TransformOrder ensures TransformField(fm, f).None? {
        RecordEmpty(TransformOrder, g, f);
      }
    } else if forall f :: f in TransformOrder ==> TransformField(fm, f).None? {
      BuildNone(TransformOrder, g);
    }
  }
}
