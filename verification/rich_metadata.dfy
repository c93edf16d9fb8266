/**
 The rich-metadata Sphinx extension: it normalises a page's frontmatter in
 place to the v2 schema and renders it as HTML head metadata (a page title,
 four groups of meta tags and a JSON-LD record).
 */
module RichMetadata {
  import opened Text
  import opened Values
  import opened Schema
  import opened Emission

  // ---------------------------------------------------------------------------
  // normalize_metadata
  // ---------------------------------------------------------------------------

  /** The mapping under `key`, or the empty mapping when absent or not a mapping. */
  function SubFields(m: Fields, key: string): Fields {
    if HasKey(m, key) && Lookup(m, key).value.Obj? then Lookup(m, key).value.fields else []
  }

  /** A legacy key whose v2 slot the container already holds causes no write.
      Python tests `slot not in container` and then assigns into it, which
      raises unless the container is a dict; the test itself raises unless
      it is a dict, list or string. */
  predicate SafeLegacyMove(m: Fields, legacy: string, container: Value, slot: string) {
    HasKey(m, legacy) ==> InContainer(slot, container)
  }

  /** What `normalize_metadata` needs of its input: when `content` (or
      `facets`) is present but not a mapping, each legacy key that would move
      into it must find its slot already there, or Python raises; and list
      `personas` that will be mapped into an absent audience slot must hold
      only hashable items. */
  predicate NormalizableInput(m: Fields) {
    && (HasKey(m, "content") && !Lookup(m, "content").value.Obj? ==>
          var c := Lookup(m, "content").value;
          SafeLegacyMove(m, "content_type", c, "type") && SafeLegacyMove(m, "difficulty", c, "difficulty")
          && SafeLegacyMove(m, "personas", c, "audience"))
    && (HasKey(m, "facets") && !Lookup(m, "facets").value.Obj? ==>
          SafeLegacyMove(m, "modality", Lookup(m, "facets").value, "modality"))
    && (((!HasKey(m, "content") || Lookup(m, "content").value.Obj?) && HasKey(m, "personas")
           && !HasKey(SubFields(m, "content"), "audience")) ==> MappablePersonas(Lookup(m, "personas").value))
  }

  /** The v2 `content` mapping after the legacy keys of `n` have filled its
      absent `type`, `difficulty` and `audience` slots. */
  function FillContent(n: Fields, c: Fields): (r: Fields)
    ensures Lookup(r, "type") == if HasKey(c, "type") then Lookup(c, "type") else Lookup(n, "content_type")
    ensures Lookup(r, "difficulty") == if HasKey(c, "difficulty") then Lookup(c, "difficulty") else Lookup(n, "difficulty")
    ensures Lookup(r, "audience") ==
      if HasKey(c, "audience") then Lookup(c, "audience")
      else if HasKey(n, "personas") then Some(AudienceFromPersonas(Lookup(n, "personas").value))
      else None
    ensures forall k :: k != "type" && k != "difficulty" && k != "audience" ==> Lookup(r, k) == Lookup(c, k)
    ensures ((HasKey(n, "content_type") ==> HasKey(c, "type")) && (HasKey(n, "difficulty") ==> HasKey(c, "difficulty"))
             && (HasKey(n, "personas") ==> HasKey(c, "audience"))) ==> r == c
  {
    var c1 := if HasKey(n, "content_type") && !HasKey(c, "type") then Set(c, "type", Lookup(n, "content_type").value) else c;
    var c2 := if HasKey(n, "difficulty") && !HasKey(c1, "difficulty") then Set(c1, "difficulty", Lookup(n, "difficulty").value) else c1;
    if HasKey(n, "personas") && !HasKey(c2, "audience") then
      Set(c2, "audience", AudienceFromPersonas(Lookup(n, "personas").value))
    else c2
  }

  /** The v2 `facets` mapping after legacy `modality` has filled an absent slot. */
  function FillFacets(n: Fields, f: Fields): (r: Fields)
    ensures Lookup(r, "modality") == if HasKey(f, "modality") then Lookup(f, "modality") else Lookup(n, "modality")
    ensures forall k :: k != "modality" ==> Lookup(r, k) == Lookup(f, k)
    ensures (HasKey(n, "modality") ==> HasKey(f, "modality")) ==> r == f
  {
    if HasKey(n, "modality") && !HasKey(f, "modality") then Set(f, "modality", Lookup(n, "modality").value) else f
  }

  /** `if key not in d: d[key] = {}`. */
  function WithMap(m: Fields, key: string): (r: Fields)
    ensures HasKey(r, key)
    ensures HasKey(m, key) ==> r == m
    ensures !HasKey(m, key) ==> Lookup(r, key) == Some(Obj([]))
    ensures forall k {:trigger Lookup(m, k)} :: k != key ==> Lookup(r, k) == Lookup(m, k)
  {
    if HasKey(m, key) then m else Set(m, key, Obj([]))
  }

  /** The content step of `normalize_metadata` (lines 79-105 of rich_metadata/__init__.py). */
  function NormalizeContent(m: Fields): (r: Fields)
    requires NormalizableInput(m)
    ensures HasKey(r, "content")
    ensures forall k {:trigger Lookup(m, k)} :: k != "content" ==> Lookup(r, k) == Lookup(m, k)
    ensures !HasKey(m, "content") || Lookup(m, "content").value.Obj? ==>
              Lookup(r, "content") == Some(Obj(FillContent(m, SubFields(m, "content"))))
    ensures HasKey(m, "content") && !Lookup(m, "content").value.Obj? ==> r == m
  {
    var n0 := WithMap(m, "content");
    var content := Lookup(n0, "content").value;
    // The legacy keys are read from the input: adding `content` does not change them.
    if content.Obj? then Set(n0, "content", Obj(FillContent(m, content.fields))) else n0
  }

  /** The topics step of `normalize_metadata` (lines 110-111): legacy `categories` fills an absent `topics`. */
  function NormalizeTopics(m: Fields): (r: Fields)
    ensures Lookup(r, "topics") == if HasKey(m, "topics") then Lookup(m, "topics") else Lookup(m, "categories")
    ensures forall k {:trigger Lookup(m, k)} :: k != "topics" ==> Lookup(r, k) == Lookup(m, k)
    ensures HasKey(m, "topics") || !HasKey(m, "categories") ==> r == m
  {
    if HasKey(m, "categories") && !HasKey(m, "topics") then Set(m, "topics", Lookup(m, "categories").value) else m
  }

  /** The facets step of `normalize_metadata` (lines 116-120). */
  function NormalizeFacets(m: Fields): (r: Fields)
    requires HasKey(m, "facets") && !Lookup(m, "facets").value.Obj? ==>
               SafeLegacyMove(m, "modality", Lookup(m, "facets").value, "modality")
    ensures HasKey(r, "facets")
    ensures forall k {:trigger Lookup(m, k)} :: k != "facets" ==> Lookup(r, k) == Lookup(m, k)
    ensures !HasKey(m, "facets") || Lookup(m, "facets").value.Obj? ==>
              Lookup(r, "facets") == Some(Obj(FillFacets(m, SubFields(m, "facets"))))
    ensures HasKey(m, "facets") && !Lookup(m, "facets").value.Obj? ==> r == m
  {
    var n := WithMap(m, "facets");
    var facets := Lookup(n, "facets").value;
    if facets.Obj? then Set(n, "facets", Obj(FillFacets(m, facets.fields))) else n
  }

  /** `normalize_metadata`: enriches a copy of the frontmatter. Every input key
      stays, `content` and `facets` are always present, and a v2 slot is filled
      from its legacy key only when it is absent. */
  function NormalizeMetadata(m: Fields): (r: Fields)
    requires NormalizableInput(m)
    ensures HasKey(r, "content") && HasKey(r, "facets")
    ensures forall k {:trigger Lookup(m, k)} :: k != "content" && k != "facets" && k != "topics" ==> Lookup(r, k) == Lookup(m, k)
    ensures Lookup(r, "topics") == if HasKey(m, "topics") then Lookup(m, "topics") else Lookup(m, "categories")
  {
    hide NormalizeContent, NormalizeTopics, NormalizeFacets, NormalizableInput, Lookup, SafeLegacyMove, FillContent, FillFacets, SubFields;
    var n1 := NormalizeContent(m);
    ContentStepNormalizable(m);
    var n2 := NormalizeTopics(n1);
    TopicsStepNormalizable(n1);
    FacetsReady(n2);
    var r := NormalizeFacets(n2);
    assert Lookup(n2, "topics") == Lookup(r, "topics");
    assert Lookup(n2, "content") == Lookup(r, "content");
    assert Lookup(n1, "content") == Lookup(n2, "content");
    r
  }

  /** A normalisable mapping meets the facets step's precondition. */
  lemma FacetsReady(m: Fields)
    requires NormalizableInput(m)
    ensures HasKey(m, "facets") && !Lookup(m, "facets").value.Obj? ==>
              SafeLegacyMove(m, "modality", Lookup(m, "facets").value, "modality")
  {
  }

  /** The output's keys are the input's plus `content` and `facets`, and
      `topics` when `categories` was present. */
  lemma NormalizeKeys(m: Fields)
    requires NormalizableInput(m)
    ensures var r := NormalizeMetadata(m);
            forall k {:trigger HasKey(r, k)} :: HasKey(r, k) <==> HasKey(m, k) || k == "content" || k == "facets" || (k == "topics" && HasKey(m, "categories"))
  {
    var r := NormalizeMetadata(m);
    forall k
      ensures HasKey(r, k) <==> HasKey(m, k) || k == "content" || k == "facets" || (k == "topics" && HasKey(m, "categories"))
    {
      NormalizeKey(m, k);
    }
  }

  lemma NormalizeKey(m: Fields, k: string)
    requires NormalizableInput(m)
    ensures HasKey(NormalizeMetadata(m), k) <==> HasKey(m, k) || k == "content" || k == "facets" || (k == "topics" && HasKey(m, "categories"))
  {
    var r := NormalizeMetadata(m);
    if k != "content" && k != "facets" && k != "topics" {
      assert Lookup(r, k) == Lookup(m, k);
    }
  }

  /** The output satisfies the input condition again, so it can be normalised again. */
  lemma NormalizeStaysNormalizable(m: Fields)
    requires NormalizableInput(m)
    ensures NormalizableInput(NormalizeMetadata(m))
  {
    var n1 := NormalizeContent(m);
    ContentStepNormalizable(m);
    var n2 := NormalizeTopics(n1);
    TopicsStepNormalizable(n1);
    FacetsStepNormalizable(n2);
  }

  lemma ContentStepNormalizable(m: Fields)
    requires NormalizableInput(m)
    ensures NormalizableInput(NormalizeContent(m))
  {
    var r := NormalizeContent(m);
    assert Lookup(r, "facets") == Lookup(m, "facets");
    assert Lookup(r, "content_type") == Lookup(m, "content_type");
    assert Lookup(r, "difficulty") == Lookup(m, "difficulty");
    assert Lookup(r, "personas") == Lookup(m, "personas");
    assert Lookup(r, "modality") == Lookup(m, "modality");
  }

  lemma TopicsStepNormalizable(m: Fields)
    requires NormalizableInput(m)
    ensures NormalizableInput(NormalizeTopics(m))
  {
    var r := NormalizeTopics(m);
    assert Lookup(r, "content") == Lookup(m, "content");
    assert Lookup(r, "facets") == Lookup(m, "facets");
    assert Lookup(r, "content_type") == Lookup(m, "content_type");
    assert Lookup(r, "difficulty") == Lookup(m, "difficulty");
    assert Lookup(r, "personas") == Lookup(m, "personas");
    assert Lookup(r, "modality") == Lookup(m, "modality");
  }

  lemma FacetsStepNormalizable(m: Fields)
    requires NormalizableInput(m)
    ensures NormalizableInput(NormalizeFacets(m))
  {
    var r := NormalizeFacets(m);
    assert Lookup(r, "content") == Lookup(m, "content");
    assert Lookup(r, "content_type") == Lookup(m, "content_type");
    assert Lookup(r, "difficulty") == Lookup(m, "difficulty");
    assert Lookup(r, "personas") == Lookup(m, "personas");
    assert Lookup(r, "modality") == Lookup(m, "modality");
  }

  /** The normalised `content` is what the content step made of it: the later
      steps leave it alone. */
  lemma NormalizeContentPart(m: Fields)
    requires NormalizableInput(m)
    ensures Lookup(NormalizeMetadata(m), "content") == Lookup(NormalizeContent(m), "content")
  {
    var n1 := NormalizeContent(m);
    var n2 := NormalizeTopics(n1);
    assert Lookup(n2, "content") == Lookup(n1, "content");
  }

  /** The normalised `facets` is what the facets step makes of the input's:
      the earlier steps change neither `facets` nor `modality`. */
  lemma NormalizeFacetsPart(m: Fields)
    requires NormalizableInput(m)
    ensures !HasKey(m, "facets") || Lookup(m, "facets").value.Obj? ==>
              Lookup(NormalizeMetadata(m), "facets") == Some(Obj(FillFacets(m, SubFields(m, "facets"))))
    ensures HasKey(m, "facets") && !Lookup(m, "facets").value.Obj? ==>
              Lookup(NormalizeMetadata(m), "facets") == Lookup(m, "facets")
  {
    var n1 := NormalizeContent(m);
    var n2 := NormalizeTopics(n1);
    EarlierStepsKeepFacets(m);
    FillFacetsReadsModality(n2, m, SubFields(m, "facets"));
  }

  lemma EarlierStepsKeepFacets(m: Fields)
    requires NormalizableInput(m)
    ensures var n2 := NormalizeTopics(NormalizeContent(m));
            && Lookup(n2, "facets") == Lookup(m, "facets")
            && Lookup(n2, "modality") == Lookup(m, "modality")
            && SubFields(n2, "facets") == SubFields(m, "facets")
  {
    hide NormalizeContent, NormalizeTopics;
    var n1 := NormalizeContent(m);
    var n2 := NormalizeTopics(n1);
    assert Lookup(n2, "facets") == Lookup(n1, "facets") == Lookup(m, "facets");
    assert Lookup(n2, "modality") == Lookup(n1, "modality") == Lookup(m, "modality");
  }

  /** Filling facets reads only `modality` of the page. */
  lemma FillFacetsReadsModality(n: Fields, n': Fields, f: Fields)
    requires Lookup(n, "modality") == Lookup(n', "modality")
    ensures FillFacets(n, f) == FillFacets(n', f)
  {
  }

  /** Existing v2 values win: `content.type`, `content.difficulty`,
      `content.audience` and `facets.modality` are never overwritten, and a
      legacy key fills only the slot left empty. */
  lemma NormalizeKeepsV2(m: Fields)
    requires NormalizableInput(m)
    requires !HasKey(m, "content") || Lookup(m, "content").value.Obj?
    requires !HasKey(m, "facets") || Lookup(m, "facets").value.Obj?
    ensures var c := SubFields(m, "content");
            var r := NormalizeMetadata(m);
            && Lookup(r, "content").value.Obj?
            && var rc := Lookup(r, "content").value.fields;
            && Lookup(rc, "type") == (if HasKey(c, "type") then Lookup(c, "type") else Lookup(m, "content_type"))
            && Lookup(rc, "difficulty") == (if HasKey(c, "difficulty") then Lookup(c, "difficulty") else Lookup(m, "difficulty"))
            && (HasKey(c, "audience") ==> Lookup(rc, "audience") == Lookup(c, "audience"))
    ensures var f := SubFields(m, "facets");
            var r := NormalizeMetadata(m);
            && Lookup(r, "facets").value.Obj?
            && Lookup(Lookup(r, "facets").value.fields, "modality") == (if HasKey(f, "modality") then Lookup(f, "modality") else Lookup(m, "modality"))
  {
    NormalizeContentPart(m);
    NormalizeFacetsPart(m);
  }

  /** Legacy personas fill an absent audience: a list maps element-wise
      (length kept, unknown tokens passed through) and a scalar becomes an
      unmapped singleton. */
  lemma NormalizePersonas(m: Fields)
    requires NormalizableInput(m)
    requires !HasKey(m, "content") || Lookup(m, "content").value.Obj?
    requires HasKey(m, "personas") && !HasKey(SubFields(m, "content"), "audience")
    ensures var p := Lookup(m, "personas").value;
            var rc := Lookup(NormalizeMetadata(m), "content").value;
            && rc.Obj? && HasKey(rc.fields, "audience")
            && var a := Lookup(rc.fields, "audience").value;
            && a.List?
            && (p.List? ==> |a.items| == |p.items| && forall i :: 0 <= i < |p.items| ==> a.items[i] == AudienceName(p.items[i]))
            && (!p.List? ==> a.items == [p])
  {
    NormalizeContentPart(m);
    NormalizeFacetsPart(m);
  }

  /** The content step changes nothing once every legacy key it would move
      has its v2 slot filled (or `content` is not a mapping). */
  lemma ContentStepFixed(m: Fields)
    requires NormalizableInput(m)
    requires HasKey(m, "content")
    requires var c := Lookup(m, "content").value;
             c.Obj? ==> (HasKey(m, "content_type") ==> HasKey(c.fields, "type"))
                        && (HasKey(m, "difficulty") ==> HasKey(c.fields, "difficulty"))
                        && (HasKey(m, "personas") ==> HasKey(c.fields, "audience"))
    ensures NormalizeContent(m) == m
  {
    if Lookup(m, "content").value.Obj? {
      SetExisting(m, "content");
    }
  }

  /** The facets step changes nothing once `facets.modality` is filled whenever
      legacy `modality` is present (or `facets` is not a mapping). */
  lemma FacetsStepFixed(m: Fields)
    requires NormalizableInput(m)
    requires HasKey(m, "facets")
    requires var f := Lookup(m, "facets").value;
             f.Obj? ==> (HasKey(m, "modality") ==> HasKey(f.fields, "modality"))
    ensures NormalizeFacets(m) == m
  {
    if Lookup(m, "facets").value.Obj? {
      SetExisting(m, "facets");
    }
  }

  /** Every v2 slot a legacy key would fill is already filled, so no step of
      the normalisation has anything left to write. */
  predicate SlotsFilled(r: Fields) {
    ContentSlotsFilled(r) && FacetsSlotsFilled(r)
  }

  /** `content` and `topics` leave the content and topics steps nothing to write. */
  predicate ContentSlotsFilled(r: Fields) {
    && HasKey(r, "content")
    && (HasKey(r, "topics") || !HasKey(r, "categories"))
    && var c := Lookup(r, "content").value;
    && (c.Obj? ==> ((HasKey(r, "content_type") ==> HasKey(c.fields, "type"))
                    && (HasKey(r, "difficulty") ==> HasKey(c.fields, "difficulty"))
                    && (HasKey(r, "personas") ==> HasKey(c.fields, "audience"))))
  }

  /** `facets` leaves the facets step nothing to write. */
  predicate FacetsSlotsFilled(r: Fields) {
    && HasKey(r, "facets")
    && var f := Lookup(r, "facets").value;
    && (f.Obj? ==> (HasKey(r, "modality") ==> HasKey(f.fields, "modality")))
  }

  /** The output of the normalisation has every slot filled. */
  lemma NormalizeFillsSlots(m: Fields)
    requires NormalizableInput(m)
    ensures SlotsFilled(NormalizeMetadata(m))
  {
    NormalizeFillsContentSlots(m);
    NormalizeFillsFacetsSlots(m);
  }

  lemma NormalizeFillsContentSlots(m: Fields)
    requires NormalizableInput(m)
    ensures ContentSlotsFilled(NormalizeMetadata(m))
  {
    NormalizeContentPart(m);
    NormalizeKey(m, "content_type");
    NormalizeKey(m, "difficulty");
    NormalizeKey(m, "personas");
    NormalizeKey(m, "topics");
    NormalizeKey(m, "categories");
  }

  lemma NormalizeFillsFacetsSlots(m: Fields)
    requires NormalizableInput(m)
    ensures FacetsSlotsFilled(NormalizeMetadata(m))
  {
    NormalizeFacetsPart(m);
    NormalizeKey(m, "modality");
  }

  /** A mapping with every slot filled is a fixed point of the normalisation. */
  lemma NormalizeFixesFilled(r: Fields)
    requires NormalizableInput(r) && SlotsFilled(r)
    ensures NormalizeMetadata(r) == r
  {
    ContentStepFixed(r);
    FacetsStepFixed(r);
  }

  /** `normalize_metadata` is idempotent: every write it makes is guarded by an
      absence check that its own output already passes. */
  lemma NormalizeIdempotent(m: Fields)
    requires NormalizableInput(m)
    ensures NormalizableInput(NormalizeMetadata(m)) && NormalizeMetadata(NormalizeMetadata(m)) == NormalizeMetadata(m)
  {
    NormalizeStaysNormalizable(m);
    NormalizeFillsSlots(m);
    NormalizeFixesFilled(NormalizeMetadata(m));
  }

  // ---------------------------------------------------------------------------
  // Page title
  // ---------------------------------------------------------------------------

  /** The parts of the Sphinx page context the renderers read. An absent
      `title`, `pagetitle` or `docstitle` is Null (falsy, as Python's default is). */
  datatype PageContext = PageContext(
    title: Value,
    pagetitle: Value,
    parents: seq<Fields>,
    docstitle: Value,
    pageurl: Option<Value>)

  /** `title.page` from the frontmatter, else the context title. */
  function BaseTitle(m: Fields, ctx: PageContext): Value {
    Or(At2(m, "title", "page"), ctx.title)
  }

  /** The immediate parent has a title that differs from the base title.
      Python's `!=` is modelled by structural inequality of values; the two
      part only for `1 != True`, which Python calls equal, and for two
      mappings with the same entries in a different order, which Python
      also calls equal. Neither arises for titles in practice. */
  predicate ParentAdds(m: Fields, ctx: PageContext) {
    |ctx.parents| > 0 && HasKey(ctx.parents[|ctx.parents| - 1], "title")
    && Lookup(ctx.parents[|ctx.parents| - 1], "title").value != BaseTitle(m, ctx)
  }

  function ParentTitle(ctx: PageContext): Value
    requires |ctx.parents| > 0 && HasKey(ctx.parents[|ctx.parents| - 1], "title")
  {
    Lookup(ctx.parents[|ctx.parents| - 1], "title").value
  }

  /** The site name is set and differs from the base title (structural
      inequality, as for `ParentAdds`). */
  predicate SiteAdds(m: Fields, ctx: PageContext) {
    Truthy(ctx.docstitle) && ctx.docstitle != BaseTitle(m, ctx)
  }

  /** The title components: the base title, then the parent's title and the
      site name when each adds something. */
  function TitleComponents(m: Fields, ctx: PageContext): (cs: seq<Value>)
    ensures |cs| == 1 + (if ParentAdds(m, ctx) then 1 else 0) + (if SiteAdds(m, ctx) then 1 else 0)
    ensures cs[0] == BaseTitle(m, ctx)
    ensures ParentAdds(m, ctx) ==> cs[1] == ParentTitle(ctx)
    ensures SiteAdds(m, ctx) ==> cs[|cs| - 1] == ctx.docstitle
  {
    var withParent := if ParentAdds(m, ctx) then [BaseTitle(m, ctx), ParentTitle(ctx)] else [BaseTitle(m, ctx)];
    if SiteAdds(m, ctx) then withParent + [ctx.docstitle] else withParent
  }

  /** The three title templates, by the number of components; every one
      starts with the first component and ends with the brand suffix. */
  function FormatTitle(cs: seq<Value>): (r: string)
    requires 1 <= |cs| <= 3
    ensures StartsWith(r, PyStr(cs[0])) && EndsWith(r, " | NVIDIA")
  {
    var r := if |cs| == 1 then PyStr(cs[0]) + " | NVIDIA"
      else if |cs| == 2 then PyStr(cs[0]) + " - " + PyStr(cs[1]) + " | NVIDIA"
      else PyStr(cs[0]) + ": " + PyStr(cs[1]) + " - " + PyStr(cs[2]) + " | NVIDIA";
    assert r[..|PyStr(cs[0])|] == PyStr(cs[0]);
    assert r[|r| - |" | NVIDIA"|..] == " | NVIDIA";
    r
  }

  /** `build_page_title`: no override without a base title; otherwise one of
      three templates, by how many distinct components were collected. */
  function BuildPageTitle(m: Fields, ctx: PageContext): (r: Option<string>)
    ensures r.None? <==> !Truthy(At2(m, "title", "page")) && !Truthy(ctx.title)
    ensures r.Some? ==> StartsWith(r.value, PyStr(BaseTitle(m, ctx))) && EndsWith(r.value, " | NVIDIA")
  {
    if !Truthy(BaseTitle(m, ctx)) then None
    else Some(FormatTitle(TitleComponents(m, ctx)))
  }

  /** The template chosen for each combination of parent and site titles. */
  lemma PageTitleTemplates(m: Fields, ctx: PageContext)
    ensures var r := BuildPageTitle(m, ctx);
            var b := PyStr(BaseTitle(m, ctx));
            && (r.Some? && !ParentAdds(m, ctx) && !SiteAdds(m, ctx) ==> r.value == b + " | NVIDIA")
            && (r.Some? && ParentAdds(m, ctx) && !SiteAdds(m, ctx) ==>
                  r.value == b + " - " + PyStr(ParentTitle(ctx)) + " | NVIDIA")
            && (r.Some? && !ParentAdds(m, ctx) && SiteAdds(m, ctx) ==>
                  r.value == b + " - " + PyStr(ctx.docstitle) + " | NVIDIA")
            && (r.Some? && ParentAdds(m, ctx) && SiteAdds(m, ctx) ==>
                  r.value == b + ": " + PyStr(ParentTitle(ctx)) + " - " + PyStr(ctx.docstitle) + " | NVIDIA")
  {
  }

  // ---------------------------------------------------------------------------
  // Meta tags
  // ---------------------------------------------------------------------------

  /** The meta tags the extension can emit, declared in the order the builders
      append them: basic, Open Graph, Twitter, then custom. */
  datatype MetaKey =
    | Description | Keywords
    | OgDescription | OgType | OgTitle | OgUrl | OgImage
    | TwitterDescription | TwitterTitle | TwitterCard | TwitterImage
    | AudienceKey | ContentTypeCategory | DifficultyKey | ModalityKey | TopicsKey | ProductName | ProductVersion

  /** The position of a tag in the fixed emission order. */
  function Rank(k: MetaKey): (n: nat)
    ensures n <= 17
  {
    match k
    case Description => 0
    case Keywords => 1
    case OgDescription => 2
    case OgType => 3
    case OgTitle => 4
    case OgUrl => 5
    case OgImage => 6
    case TwitterDescription => 7
    case TwitterTitle => 8
    case TwitterCard => 9
    case TwitterImage => 10
    case AudienceKey => 11
    case ContentTypeCategory => 12
    case DifficultyKey => 13
    case ModalityKey => 14
    case TopicsKey => 15
    case ProductName => 16
    case ProductVersion => 17
  }

  /** The key at a position of the emission order. */
  function KeyAt(n: nat): (k: MetaKey)
    requires n <= 17
    ensures Rank(k) == n
  {
    if n == 0 then Description else if n == 1 then Keywords
    else if n == 2 then OgDescription else if n == 3 then OgType else if n == 4 then OgTitle
    else if n == 5 then OgUrl else if n == 6 then OgImage
    else if n == 7 then TwitterDescription else if n == 8 then TwitterTitle
    else if n == 9 then TwitterCard else if n == 10 then TwitterImage
    else if n == 11 then AudienceKey else if n == 12 then ContentTypeCategory
    else if n == 13 then DifficultyKey else if n == 14 then ModalityKey
    else if n == 15 then TopicsKey else if n == 16 then ProductName else ProductVersion
  }

  /** Each key has its own position. */
  lemma KeyAtRank(k: MetaKey)
    ensures KeyAt(Rank(k)) == k
  {
  }

  /** The attribute value a tag is rendered with. */
  function KeyName(k: MetaKey): string {
    match k
    case Description => "description"
    case Keywords => "keywords"
    case OgDescription => "og:description"
    case OgType => "og:type"
    case OgTitle => "og:title"
    case OgUrl => "og:url"
    case OgImage => "og:image"
    case TwitterDescription => "twitter:description"
    case TwitterTitle => "twitter:title"
    case TwitterCard => "twitter:card"
    case TwitterImage => "twitter:image"
    case AudienceKey => "audience"
    case ContentTypeCategory => "content-type-category"
    case DifficultyKey => "difficulty"
    case ModalityKey => "modality"
    case TopicsKey => "topics"
    case ProductName => "product-name"
    case ProductVersion => "product-version"
  }

  /** Open Graph tags use the `property` attribute, all others `name`. */
  predicate IsProperty(k: MetaKey) {
    2 <= Rank(k) <= 6
  }

  /** A tag: its key and its content. */
  type MetaTag = (MetaKey, string)

  /** The HTML text of a tag. */
  function Render(t: MetaTag): string {
    "<meta " + (if IsProperty(t.0) then "property" else "name") + "=\"" + KeyName(t.0)
    + "\" content=\"" + t.1 + "\">"
  }

  /** Tags strictly follow the emission order, so each key occurs at most once. */
  predicate InOrder(ts: seq<MetaTag>) {
    forall i, j :: 0 <= i < j < |ts| ==> Rank(ts[i].0) < Rank(ts[j].0)
  }

  /** Every tag's key ranks within `[lo, hi]`. */
  predicate RanksWithin(ts: seq<MetaTag>, lo: nat, hi: nat) {
    forall i :: 0 <= i < |ts| ==> lo <= Rank(ts[i].0) <= hi
  }

  /** A key ranked below every tag of a list has no tag in it. */
  lemma {:induction false} FindBelow(ts: seq<MetaTag>, k: MetaKey)
    requires forall i :: 0 <= i < |ts| ==> Rank(k) < Rank(ts[i].0)
    ensures Find(ts, k) == None
  {
    if |ts| > 0 {
      assert forall i :: 0 <= i < |ts[1..]| ==> ts[1..][i] == ts[i + 1];
      FindBelow(ts[1..], k);
    }
  }

  /** The content a group offers for a key: the entry at the key's place in
      the band starting at `lo`, and nothing for keys outside it. */
  function Offer(lo: nat, contents: seq<Option<string>>, k: MetaKey): Option<string> {
    if lo <= Rank(k) < lo + |contents| then contents[Rank(k) - lo] else None
  }

  /** The tag for `k` when its content is present, ahead of `rest`: one step
      of a builder. */
  function Prepend(k: MetaKey, o: Option<string>, rest: seq<MetaTag>): seq<MetaTag> {
    if o.Some? then [(k, o.value)] + rest else rest
  }

  /** Prepending a key ranked below everything in an ordered list keeps it in
      order, and the new key's content is what was offered. */
  lemma PrependFacts(k: MetaKey, o: Option<string>, rest: seq<MetaTag>, hi: nat)
    requires Rank(k) < hi
    requires InOrder(rest) && forall i :: 0 <= i < |rest| ==> Rank(k) < Rank(rest[i].0) < hi
    ensures var r := Prepend(k, o, rest);
            && InOrder(r) && (forall i :: 0 <= i < |r| ==> Rank(k) <= Rank(r[i].0) < hi)
            && Find(r, k) == o
            && forall k' {:trigger Find(rest, k')} :: k' != k ==> Find(r, k') == Find(rest, k')
  {
    var r := Prepend(k, o, rest);
    if o.Some? {
      assert r[1..] == rest;
      assert forall i :: 0 < i < |r| ==> r[i] == rest[i - 1];
    } else {
      FindBelow(rest, k);
    }
  }

  /** Past the first key of a band, a group offers what the rest of it offers. */
  lemma OfferTail(lo: nat, contents: seq<Option<string>>, k: MetaKey)
    requires |contents| > 0 && Rank(k) != lo
    ensures Offer(lo + 1, contents[1..], k) == Offer(lo, contents, k)
  {
    if lo + 1 <= Rank(k) < lo + |contents| {
      assert contents[1..][Rank(k) - (lo + 1)] == contents[Rank(k) - lo];
    }
  }

  /** A group of tags as its builder appends them: the keys ranked from `lo`
      on, one per entry of `contents`, each appended when its entry is
      present. The group is in emission order, within its band, and holds
      for every key exactly what was offered for it. */
  function Group(lo: nat, contents: seq<Option<string>>): (r: seq<MetaTag>)
    requires lo + |contents| <= 18
    ensures InOrder(r)
    ensures forall i :: 0 <= i < |r| ==> lo <= Rank(r[i].0) < lo + |contents|
    ensures forall k {:trigger Find(r, k)} :: Find(r, k) == Offer(lo, contents, k)
    decreases |contents|
  {
    if |contents| == 0 then []
    else
      var rest := Group(lo + 1, contents[1..]);
      PrependFacts(KeyAt(lo), contents[0], rest, lo + |contents|);
      assert forall k {:trigger Find(Prepend(KeyAt(lo), contents[0], rest), k)} ::
          Find(Prepend(KeyAt(lo), contents[0], rest), k) == Offer(lo, contents, k) by {
        forall k ensures Find(Prepend(KeyAt(lo), contents[0], rest), k) == Offer(lo, contents, k) {
          KeyAtRank(k);
          if k != KeyAt(lo) {
            OfferTail(lo, contents, k);
          }
        }
      }
      Prepend(KeyAt(lo), contents[0], rest)
  }

  /** The basic group: description, then keywords. */
  function BasicGroup(description: Option<string>, keywords: Option<string>): (r: seq<MetaTag>)
    ensures InOrder(r) && RanksWithin(r, 0, 1)
  {
    Group(0, [description, keywords])
  }

  /** The group holds exactly the content offered for each of its keys. */
  lemma BasicGroupFinds(description: Option<string>, keywords: Option<string>)
    ensures var r := BasicGroup(description, keywords);
            && Find(r, Description) == description && Find(r, Keywords) == keywords
  {
  }

  /** The Open Graph group: description, type, title, URL, image. */
  function OpenGraphGroup(description: Option<string>, title: Option<string>, url: Option<string>, image: Option<string>): (r: seq<MetaTag>)
    ensures InOrder(r) && RanksWithin(r, 2, 6)
  {
    Group(2, [description, Some("article"), title, url, image])
  }

  /** The group holds exactly the content offered for each of its keys. */
  lemma OpenGraphGroupFinds(description: Option<string>, title: Option<string>, url: Option<string>, image: Option<string>)
    ensures var r := OpenGraphGroup(description, title, url, image);
            && Find(r, OgDescription) == description && Find(r, OgType) == Some("article")
            && Find(r, OgTitle) == title && Find(r, OgUrl) == url && Find(r, OgImage) == image
  {
  }

  /** The Twitter group: description, title, card, image. */
  function TwitterGroup(description: Option<string>, title: Option<string>, image: Option<string>): (r: seq<MetaTag>)
    ensures InOrder(r) && RanksWithin(r, 7, 10)
  {
    Group(7, [description, title, Some("summary"), image])
  }

  /** The group holds exactly the content offered for each of its keys. */
  lemma TwitterGroupFinds(description: Option<string>, title: Option<string>, image: Option<string>)
    ensures var r := TwitterGroup(description, title, image);
            && Find(r, TwitterDescription) == description && Find(r, TwitterTitle) == title
            && Find(r, TwitterCard) == Some("summary") && Find(r, TwitterImage) == image
  {
  }

  /** The custom group: the audience tag of `_add_audience_tag`, four
      classification tags, then the two tags of `_add_product_tags`. */
  function CustomGroup(audience: Option<string>, contentType: Option<string>, difficulty: Option<string>,
                       modality: Option<string>, topics: Option<string>, productName: Option<string>,
                       productVersion: Option<string>): (r: seq<MetaTag>)
    ensures InOrder(r) && RanksWithin(r, 11, 17)
  {
    Group(11, [audience, contentType, difficulty, modality, topics, productName, productVersion])
  }

  /** The group holds exactly the content offered for each of its keys. */
  lemma CustomGroupFinds(audience: Option<string>, contentType: Option<string>, difficulty: Option<string>,
                         modality: Option<string>, topics: Option<string>, productName: Option<string>,
                         productVersion: Option<string>)
    ensures var r := CustomGroup(audience, contentType, difficulty, modality, topics, productName, productVersion);
            && Find(r, AudienceKey) == audience && Find(r, ContentTypeCategory) == contentType
            && Find(r, DifficultyKey) == difficulty && Find(r, ModalityKey) == modality
  {
    hide Group;
    var cs := [audience, contentType, difficulty, modality, topics, productName, productVersion];
    var r := Group(11, cs);
    assert Find(r, AudienceKey) == cs[0];
    assert Find(r, ContentTypeCategory) == cs[1];
    assert Find(r, DifficultyKey) == cs[2];
    assert Find(r, ModalityKey) == cs[3];
  }

  /** The custom group's product tags and topics hold what was offered. */
  lemma CustomGroupFindsTail(audience: Option<string>, contentType: Option<string>, difficulty: Option<string>,
                             modality: Option<string>, topics: Option<string>, productName: Option<string>,
                             productVersion: Option<string>)
    ensures var r := CustomGroup(audience, contentType, difficulty, modality, topics, productName, productVersion);
            && Find(r, TopicsKey) == topics && Find(r, ProductName) == productName
            && Find(r, ProductVersion) == productVersion
  {
    hide Group;
    var cs := [audience, contentType, difficulty, modality, topics, productName, productVersion];
    var r := Group(11, cs);
    assert Find(r, TopicsKey) == cs[4];
    assert Find(r, ProductName) == cs[5];
    assert Find(r, ProductVersion) == cs[6];
  }

  /** Concatenating ordered groups whose ranks follow each other keeps the order. */
  lemma InOrderAppend(a: seq<MetaTag>, b: seq<MetaTag>, lo: nat, mid: nat, hi: nat)
    requires InOrder(a) && InOrder(b) && RanksWithin(a, lo, mid) && RanksWithin(b, mid + 1, hi)
    requires lo <= mid < hi
    ensures InOrder(a + b) && RanksWithin(a + b, lo, hi)
  {
    var ab := a + b;
    forall i, j | 0 <= i < j < |ab| ensures Rank(ab[i].0) < Rank(ab[j].0) {
      if j < |a| {
        assert ab[i] == a[i] && ab[j] == a[j];
      } else if i >= |a| {
        assert ab[i] == b[i - |a|] && ab[j] == b[j - |a|];
      } else {
        assert ab[i] == a[i] && ab[j] == b[j - |a|];
      }
    }
    forall i | 0 <= i < |ab| ensures lo <= Rank(ab[i].0) <= hi {
      if i < |a| { assert ab[i] == a[i]; } else { assert ab[i] == b[i - |a|]; }
    }
  }

  /** The content of a tag fed by a value: present when the value is truthy, as
      an f-string renders it. */
  function TruthyText(v: Value): (r: Option<string>)
    ensures r.Some? <==> Truthy(v)
    ensures r.Some? ==> r.value == PyStr(v)
  {
    if Truthy(v) then Some(PyStr(v)) else None
  }

  /** `topics or categories`, as the custom tags read it. */
  function TopicsValue(m: Fields): Value {
    Or(Get(m, "topics"), Get(m, "categories"))
  }

  /** The joins the tag builders perform do not raise: every joined list holds strings. */
  predicate JoinableTags(m: Fields) {
    && (HasKey(m, "tags") && Lookup(m, "tags").value.List? ==> AllStrings(Lookup(m, "tags").value.items))
    && (Truthy(At2(m, "content", "audience")) ==> AllStrings(Listify(At2(m, "content", "audience")).items))
    && (TopicsValue(m).List? ==> AllStrings(TopicsValue(m).items))
  }

  /** The keywords content: `tags` joined with ", ", only when it is a list. */
  function KeywordsText(m: Fields): Option<string>
    requires JoinableTags(m)
  {
    if HasKey(m, "tags") && Lookup(m, "tags").value.List? then Some(JoinValues(Lookup(m, "tags").value.items, ", ")) else None
  }

  /** The social description: `social.description`, else `description`. */
  function SocialDescription(m: Fields): Value {
    Or(At2(m, "social", "description"), Get(m, "description"))
  }

  /** The social title: `title.social`, else the page title, else the context title. */
  function SocialTitle(m: Fields, ctx: PageContext): Value {
    Or(Or(At2(m, "title", "social"), ctx.pagetitle), ctx.title)
  }

  /** The audience content: the v2 audience, a scalar wrapped as a list, joined with ", ". */
  function AudienceText(m: Fields): Option<string>
    requires JoinableTags(m)
  {
    var audience := At2(m, "content", "audience");
    if Truthy(audience) then Some(JoinValues(Listify(audience).items, ", ")) else None
  }

  /** The topics content: `topics or categories`, a list joined with ", ". */
  function TopicsText(m: Fields): Option<string>
    requires JoinableTags(m)
  {
    var topics := TopicsValue(m);
    if !Truthy(topics) then None
    else if topics.List? then Some(JoinValues(topics.items, ", "))
    else Some(PyStr(topics))
  }

  /** The `cascade.product` mapping, or Null. */
  function Product(m: Fields): Value {
    GetNested(Obj(m), ["cascade", "product"], Null)
  }

  /** A field of the product mapping, when the product is a mapping and the field truthy. */
  function ProductText(m: Fields, field: string): (r: Option<string>)
    ensures r.Some? <==> Product(m).Obj? && Truthy(Get(Product(m).fields, field))
  {
    if Product(m).Obj? then TruthyText(Get(Product(m).fields, field)) else None
  }


  /** `_add_basic_fields`: a description tag whenever the key is present (even
      when falsy), then a keywords tag when `tags` is a list. */
  function BasicTags(m: Fields): (r: seq<MetaTag>)
    requires JoinableTags(m)
    ensures InOrder(r) && RanksWithin(r, 0, 1)
    ensures Find(r, Description) == if HasKey(m, "description") then Some(PyStr(Lookup(m, "description").value)) else None
    ensures Find(r, Keywords).Some? <==> HasKey(m, "tags") && Lookup(m, "tags").value.List?
    ensures Find(r, Keywords) == KeywordsText(m)
  {
    var description := if HasKey(m, "description") then Some(PyStr(Lookup(m, "description").value)) else None;
    BasicGroupFinds(description, KeywordsText(m));
    BasicGroup(description, KeywordsText(m))
  }

  /** `_add_opengraph_fields`: `og:type article` always; description, title and
      image when truthy; the URL whenever the context has one. */
  function OpenGraphTags(m: Fields, ctx: PageContext): (r: seq<MetaTag>)
    ensures InOrder(r) && RanksWithin(r, 2, 6)
    ensures Find(r, OgType) == Some("article")
    ensures Find(r, OgDescription) == TruthyText(SocialDescription(m))
    ensures Find(r, OgTitle) == TruthyText(SocialTitle(m, ctx))
    ensures Find(r, OgUrl).Some? <==> ctx.pageurl.Some?
    ensures ctx.pageurl.Some? ==> Find(r, OgUrl) == Some(PyStr(ctx.pageurl.value))
    ensures Find(r, OgImage) == TruthyText(At2(m, "social", "image"))
  {
    var url := if ctx.pageurl.Some? then Some(PyStr(ctx.pageurl.value)) else None;
    OpenGraphGroupFinds(TruthyText(SocialDescription(m)), TruthyText(SocialTitle(m, ctx)), url, TruthyText(At2(m, "social", "image")));
    OpenGraphGroup(TruthyText(SocialDescription(m)), TruthyText(SocialTitle(m, ctx)), url, TruthyText(At2(m, "social", "image")))
  }

  /** `_add_twitter_fields`: `twitter:card summary` always; description, title
      and image when truthy, from the same sources as Open Graph. */
  function TwitterTags(m: Fields, ctx: PageContext): (r: seq<MetaTag>)
    ensures InOrder(r) && RanksWithin(r, 7, 10)
    ensures Find(r, TwitterCard) == Some("summary")
    ensures Find(r, TwitterDescription) == TruthyText(SocialDescription(m))
    ensures Find(r, TwitterTitle) == TruthyText(SocialTitle(m, ctx))
    ensures Find(r, TwitterImage) == TruthyText(At2(m, "social", "image"))
  {
    TwitterGroupFinds(TruthyText(SocialDescription(m)), TruthyText(SocialTitle(m, ctx)), TruthyText(At2(m, "social", "image")));
    TwitterGroup(TruthyText(SocialDescription(m)), TruthyText(SocialTitle(m, ctx)), TruthyText(At2(m, "social", "image")))
  }

  /** `_add_custom_fields`: each classification tag from its v2 field or the
      legacy fallback, when truthy, between the audience and the product tags. */
  function CustomTags(m: Fields): (r: seq<MetaTag>)
    requires JoinableTags(m)
    ensures InOrder(r) && RanksWithin(r, 11, 17)
    ensures Find(r, AudienceKey) == AudienceText(m)
    ensures Find(r, ContentTypeCategory) == TruthyText(V2OrLegacy(m, "content", "type", "content_type"))
    ensures Find(r, DifficultyKey) == TruthyText(V2OrLegacy(m, "content", "difficulty", "difficulty"))
    ensures Find(r, ModalityKey) == TruthyText(V2OrLegacy(m, "facets", "modality", "modality"))
    ensures Find(r, TopicsKey) == TopicsText(m)
    ensures Find(r, ProductName) == ProductText(m, "name")
    ensures Find(r, ProductVersion) == ProductText(m, "version")
  {
    var ct := TruthyText(V2OrLegacy(m, "content", "type", "content_type"));
    var diff := TruthyText(V2OrLegacy(m, "content", "difficulty", "difficulty"));
    var modality := TruthyText(V2OrLegacy(m, "facets", "modality", "modality"));
    CustomGroupFinds(AudienceText(m), ct, diff, modality, TopicsText(m), ProductText(m, "name"), ProductText(m, "version"));
    CustomGroupFindsTail(AudienceText(m), ct, diff, modality, TopicsText(m), ProductText(m, "name"), ProductText(m, "version"));
    CustomGroup(AudienceText(m), ct, diff, modality, TopicsText(m), ProductText(m, "name"), ProductText(m, "version"))
  }

  /** The four tag groups `build_meta_tags` returns. */
  datatype MetaTags = MetaTags(basic: seq<MetaTag>, opengraph: seq<MetaTag>, twitter: seq<MetaTag>, custom: seq<MetaTag>)

  /** Each group is in order and ranks within its own band. */
  predicate GroupsBanded(t: MetaTags) {
    && InOrder(t.basic) && RanksWithin(t.basic, 0, 1)
    && InOrder(t.opengraph) && RanksWithin(t.opengraph, 2, 6)
    && InOrder(t.twitter) && RanksWithin(t.twitter, 7, 10)
    && InOrder(t.custom) && RanksWithin(t.custom, 11, 17)
  }

  /** Groups in their own bands read in order form one list in emission order. */
  lemma GroupsInOrder(t: MetaTags)
    requires GroupsBanded(t)
    ensures InOrder(t.basic + t.opengraph + t.twitter + t.custom)
  {
    InOrderAppend(t.basic, t.opengraph, 0, 1, 6);
    InOrderAppend(t.basic + t.opengraph, t.twitter, 0, 6, 10);
    InOrderAppend(t.basic + t.opengraph + t.twitter, t.custom, 0, 10, 17);
  }

  /** `build_meta_tags`: the Open Graph and Twitter groups always carry their
      fixed type tags, and the groups read in order form one duplicate-free
      list in emission order. */
  function BuildMetaTags(m: Fields, ctx: PageContext): (r: MetaTags)
    requires JoinableTags(m)
    ensures InOrder(r.basic + r.opengraph + r.twitter + r.custom)
    ensures Find(r.opengraph, OgType) == Some("article") && Find(r.twitter, TwitterCard) == Some("summary")
  {
    var t := MetaTags(BasicTags(m), OpenGraphTags(m, ctx), TwitterTags(m, ctx), CustomTags(m));
    GroupsInOrder(t);
    t
  }

  // ---------------------------------------------------------------------------
  // JSON-LD record
  // ---------------------------------------------------------------------------

  /** The content-type table of `build_json_ld`, keyed by the lower-cased type. */
  function SchemaType(t: string): Option<string> {
    if t == "tutorial" then Some("HowTo")
    else if t == "troubleshooting" then Some("HowTo")
    else if t == "concept" then Some("Article")
    else if t == "reference" then Some("TechArticle")
    else if t == "example" then Some("HowTo")
    else if t == "get started" then Some("HowTo")
    else if t == "code sample" then Some("HowTo")
    else None
  }

  /** The difficulty table of `build_json_ld`, keyed by the lower-cased difficulty. */
  function ProficiencyLevel(d: string): Option<string> {
    if d == "beginner" then Some("Beginner")
    else if d == "intermediate" then Some("Intermediate")
    else if d == "advanced" then Some("Expert")
    else if d == "reference" then Some("Expert")
    else None
  }

  /** `.lower()` is called on the resolved type and difficulty: they must be strings when truthy. */
  predicate LowerableClassification(m: Fields) {
    && (Truthy(V2OrLegacy(m, "content", "type", "content_type")) ==> V2OrLegacy(m, "content", "type", "content_type").Str?)
    && (Truthy(V2OrLegacy(m, "content", "difficulty", "difficulty")) ==> V2OrLegacy(m, "content", "difficulty", "difficulty").Str?)
  }

  /** The fixed publisher organisation. */
  const Publisher: Value := Obj([
    ("@type", Str("Organization")),
    ("name", Str("NVIDIA Corporation")),
    ("url", Str("https://www.nvidia.com"))])

  /** The product has a truthy name, which is when `about` is emitted. */
  predicate HasProductName(m: Fields) {
    Product(m).Obj? && Truthy(Get(Product(m).fields, "name"))
  }

  /** The `about` record for the product: `softwareVersion` is added only for a truthy version. */
  function About(product: Fields): (r: Fields)
    ensures ("name", Get(product, "name")) in r
    ensures Truthy(Get(product, "version")) <==> ("softwareVersion", Get(product, "version")) in r
  {
    [("@type", Str("SoftwareApplication")),
     ("name", Get(product, "name")),
     ("applicationCategory", Str("Data Curation Software")),
     ("operatingSystem", Str("Linux"))]
    + Entry("softwareVersion", if Truthy(Get(product, "version")) then Lookup(product, "version") else None)
  }

  /** The `structured_data` record `build_json_ld` serialises. `headline` also
      supplies `name`; `publisher` is fixed and always present. */
  datatype JsonLd = JsonLd(
    schemaType: string,
    headline: Option<Value>,
    description: Option<Value>,
    keywords: Option<Value>,
    proficiencyLevel: Option<string>,
    audience: Option<Value>,
    url: Option<Value>,
    about: Option<Fields>,
    modality: Option<Value>)

  /** An entry of the dict when its value is present. */
  function MapOpt(v: Option<string>): Option<Value> {
    if v.Some? then Some(Str(v.value)) else None
  }

  function AudienceObj(a: Option<Value>): Option<Value> {
    if a.Some? then Some(Obj([("@type", Str("Audience")), ("audienceType", a.value)])) else None
  }

  function AboutObj(a: Option<Fields>): Option<Value> {
    if a.Some? then Some(Obj(a.value)) else None
  }

  function ModalityObj(v: Option<Value>): Option<Value> {
    if v.Some? then Some(Obj([("@type", Str("PropertyValue")), ("name", Str("modality")), ("value", v.value)])) else None
  }

  /** The dict in insertion order: `@context` and `@type` first (`@type` keeps
      its slot when replaced), then each key in the order the code assigns it;
      `publisher` is always there and an optional field is there exactly when set. */
  function JsonLdFields(j: JsonLd): (r: Fields)
    ensures |r| >= 3 && r[0] == ("@context", Str("https://schema.org")) && r[1] == ("@type", Str(j.schemaType))
    ensures ("publisher", Publisher) in r
    ensures j.headline.Some? ==> ("headline", j.headline.value) in r && ("name", j.headline.value) in r
    ensures j.about.Some? ==> ("about", Obj(j.about.value)) in r
    ensures j.proficiencyLevel.Some? ==> ("proficiencyLevel", Str(j.proficiencyLevel.value)) in r
  {
    [("@context", Str("https://schema.org")), ("@type", Str(j.schemaType))]
    + Entry("headline", j.headline) + Entry("name", j.headline)
    + Entry("description", j.description)
    + Entry("keywords", j.keywords)
    + Entry("proficiencyLevel", MapOpt(j.proficiencyLevel))
    + Entry("audience", AudienceObj(j.audience))
    + Entry("url", j.url)
    + [("publisher", Publisher)]
    + Entry("about", AboutObj(j.about))
    + Entry("additionalProperty", ModalityObj(j.modality))
  }

  /** What each key of the dict holds: the record's field when it is set,
      nothing for a key the code never assigns. */
  function JsonLdFieldValue(j: JsonLd, k: string): Option<Value> {
              if k == "@context" then Some(Str("https://schema.org"))
              else if k == "@type" then Some(Str(j.schemaType))
              else if k == "headline" || k == "name" then j.headline
              else if k == "description" then j.description
              else if k == "keywords" then j.keywords
              else if k == "proficiencyLevel" then MapOpt(j.proficiencyLevel)
              else if k == "audience" then AudienceObj(j.audience)
              else if k == "url" then j.url
              else if k == "publisher" then Some(Publisher)
              else if k == "about" then AboutObj(j.about)
              else if k == "additionalProperty" then ModalityObj(j.modality)
              else None
  }

  /** A lookup in a one-entry mapping. */
  lemma LookupOne(a: (string, Value), k: string)
    ensures Lookup([a], k) == if a.0 == k then Some(a.1) else None
  {
    assert [a][1..] == [];
  }

  /** A lookup in a two-entry mapping. */
  lemma LookupTwo(a: (string, Value), b: (string, Value), k: string)
    ensures Lookup([a, b], k) == if a.0 == k then Some(a.1) else if b.0 == k then Some(b.1) else None
  {
    assert [a, b][1..] == [b];
    LookupOne(b, k);
  }

  /** The dict holds for each key what the record says it should. */
  lemma JsonLdLookup(j: JsonLd, k: string)
    ensures Lookup(JsonLdFields(j), k) == JsonLdFieldValue(j, k)
  {
    hide Entry, Lookup, MapOpt, AudienceObj, AboutObj, ModalityObj;
    var p0: Fields := [("@context", Str("https://schema.org")), ("@type", Str(j.schemaType))];
    var p1 := p0 + Entry("headline", j.headline);
    var p2 := p1 + Entry("name", j.headline);
    var p3 := p2 + Entry("description", j.description);
    var p4 := p3 + Entry("keywords", j.keywords);
    var p5 := p4 + Entry("proficiencyLevel", MapOpt(j.proficiencyLevel));
    var p6 := p5 + Entry("audience", AudienceObj(j.audience));
    var p7 := p6 + Entry("url", j.url);
    var p8 := p7 + [("publisher", Publisher)];
    var p9 := p8 + Entry("about", AboutObj(j.about));
    var p10 := p9 + Entry("additionalProperty", ModalityObj(j.modality));
    assert JsonLdFields(j) == p10;
    LookupTwo(("@context", Str("https://schema.org")), ("@type", Str(j.schemaType)), k);
    LookupOne(("publisher", Publisher), k);
    LookupAppend(p0, Entry("headline", j.headline), k);
    LookupAppend(p1, Entry("name", j.headline), k);
    LookupAppend(p2, Entry("description", j.description), k);
    LookupAppend(p3, Entry("keywords", j.keywords), k);
    LookupAppend(p4, Entry("proficiencyLevel", MapOpt(j.proficiencyLevel)), k);
    LookupAppend(p5, Entry("audience", AudienceObj(j.audience)), k);
    LookupAppend(p6, Entry("url", j.url), k);
    LookupAppend(p7, [("publisher", Publisher)], k);
    LookupAppend(p8, Entry("about", AboutObj(j.about)), k);
    LookupAppend(p9, Entry("additionalProperty", ModalityObj(j.modality)), k);
  }

  /** The schema.org `@type` the record gets: the table entry for the
      lower-cased content type, else `TechArticle`. */
  function ArticleType(m: Fields): (r: string)
    requires LowerableClassification(m)
    ensures var ct := V2OrLegacy(m, "content", "type", "content_type");
            (r != "TechArticle" ==> Truthy(ct) && SchemaType(Lower(ct.s)) == Some(r))
            && (Truthy(ct) && SchemaType(Lower(ct.s)).Some? ==> r == SchemaType(Lower(ct.s)).value)
  {
    var ct := V2OrLegacy(m, "content", "type", "content_type");
    if Truthy(ct) && SchemaType(Lower(ct.s)).Some? then SchemaType(Lower(ct.s)).value else "TechArticle"
  }

  /** `build_json_ld` before serialisation. */
  function BuildJsonLd(m: Fields, ctx: PageContext): (r: JsonLd)
    requires LowerableClassification(m)
    ensures r.schemaType == ArticleType(m)
    ensures var d := V2OrLegacy(m, "content", "difficulty", "difficulty");
            r.proficiencyLevel.Some? <==> Truthy(d) && ProficiencyLevel(Lower(d.s)).Some?
    ensures r.about.Some? <==> HasProductName(m)
    ensures r.headline.Some? <==> Truthy(BaseTitle(m, ctx))
    ensures r.headline.Some? ==> r.headline.value == BaseTitle(m, ctx)
    ensures r.keywords.Some? <==> HasKey(m, "tags") && Lookup(m, "tags").value.List?
    ensures r.url == ctx.pageurl
    ensures r.keywords.Some? ==> r.keywords == Lookup(m, "tags")
    ensures r.description == Lookup(m, "description")
    ensures var aud := At2(m, "content", "audience");
            && (r.audience.Some? <==> Truthy(aud) && aud.List?)
            && (r.audience.Some? ==> r.audience.value == aud)
    ensures var modality := V2OrLegacy(m, "facets", "modality", "modality");
            && (r.modality.Some? <==> Truthy(modality))
            && (r.modality.Some? ==> r.modality.value == modality)
    ensures r.about.Some? ==> r.about.value == About(Product(m).fields)
  {
    var title := BaseTitle(m, ctx);
    var diff := V2OrLegacy(m, "content", "difficulty", "difficulty");
    var aud := At2(m, "content", "audience");
    var modality := V2OrLegacy(m, "facets", "modality", "modality");
    JsonLd(
      ArticleType(m),
      if Truthy(title) then Some(title) else None,
      Lookup(m, "description"),
      if HasKey(m, "tags") && Lookup(m, "tags").value.List? then Lookup(m, "tags") else None,
      if Truthy(diff) then ProficiencyLevel(Lower(diff.s)) else None,
      if Truthy(aud) && aud.List? then Some(aud) else None,
      ctx.pageurl,
      if HasProductName(m) then Some(About(Product(m).fields)) else None,
      if Truthy(modality) then Some(modality) else None)
  }

  /** The entries of the serialised record, read off the metadata: the
      description and list of tags as given, the proficiency level from the
      difficulty table, the audience only for a list, the modality as an
      additional property, the product as `about`, and the page URL. */
  lemma JsonLdEntries(m: Fields, ctx: PageContext)
    requires LowerableClassification(m)
    ensures var r := JsonLdFields(BuildJsonLd(m, ctx));
            && Lookup(r, "@type") == Some(Str(ArticleType(m)))
            && (Lookup(r, "headline").Some? <==> Truthy(BaseTitle(m, ctx)))
            && Lookup(r, "name") == Lookup(r, "headline")
            && Lookup(r, "description") == Lookup(m, "description")
            && (Lookup(r, "keywords").Some? <==> HasKey(m, "tags") && Lookup(m, "tags").value.List?)
            && (Lookup(r, "keywords").Some? ==> Lookup(r, "keywords") == Lookup(m, "tags"))
            && Lookup(r, "url") == ctx.pageurl
            && Lookup(r, "publisher") == Some(Publisher)
    ensures var r := JsonLdFields(BuildJsonLd(m, ctx));
            var d := V2OrLegacy(m, "content", "difficulty", "difficulty");
            && (Lookup(r, "proficiencyLevel").Some? <==>
                  Truthy(d) && Lower(d.s) in {"beginner", "intermediate", "advanced", "reference"})
            && (Lookup(r, "proficiencyLevel").Some? ==>
                  Lookup(r, "proficiencyLevel") == Some(Str(ProficiencyLevel(Lower(d.s)).value)))
    ensures var r := JsonLdFields(BuildJsonLd(m, ctx));
            var aud := At2(m, "content", "audience");
            && (Lookup(r, "audience").Some? <==> Truthy(aud) && aud.List?)
            && (Lookup(r, "audience").Some? ==>
                  Lookup(r, "audience") == Some(Obj([("@type", Str("Audience")), ("audienceType", aud)])))
    ensures var r := JsonLdFields(BuildJsonLd(m, ctx));
            var modality := V2OrLegacy(m, "facets", "modality", "modality");
            && (Lookup(r, "additionalProperty").Some? <==> Truthy(modality))
            && (Lookup(r, "additionalProperty").Some? ==>
                  Lookup(r, "additionalProperty") ==
                    Some(Obj([("@type", Str("PropertyValue")), ("name", Str("modality")), ("value", modality)])))
    ensures var r := JsonLdFields(BuildJsonLd(m, ctx));
            && (Lookup(r, "about").Some? <==> HasProductName(m))
            && (Lookup(r, "about").Some? ==> Lookup(r, "about") == Some(Obj(About(Product(m).fields))))
  {
    hide JsonLdFields, V2OrLegacy, At2, BaseTitle, ArticleType, About, Product, HasProductName, Lower;
    var j := BuildJsonLd(m, ctx);
    JsonLdLookup(j, "@type");
    JsonLdLookup(j, "headline");
    JsonLdLookup(j, "name");
    JsonLdLookup(j, "description");
    JsonLdLookup(j, "keywords");
    JsonLdLookup(j, "url");
    JsonLdLookup(j, "publisher");
    JsonLdLookup(j, "proficiencyLevel");
    JsonLdLookup(j, "audience");
    JsonLdLookup(j, "additionalProperty");
    JsonLdLookup(j, "about");
    var d := V2OrLegacy(m, "content", "difficulty", "difficulty");
    if Truthy(d) {
      ProficiencyDomain(Lower(d.s));
    }
  }

  /** The schema.org types the content-type table can produce. */
  lemma SchemaTypeRange(t: string)
    ensures SchemaType(t).Some? ==> SchemaType(t).value in {"HowTo", "Article", "TechArticle"}
  {
  }

  /** Exactly the four listed difficulties get a proficiency level, and the
      two upper ones share "Expert". */
  lemma ProficiencyDomain(d: string)
    ensures ProficiencyLevel(d).Some? <==> d in {"beginner", "intermediate", "advanced", "reference"}
    ensures ProficiencyLevel(d).Some? ==> ProficiencyLevel(d).value in {"Beginner", "Intermediate", "Expert"}
    ensures ProficiencyLevel(d) == Some("Expert") <==> d == "advanced" || d == "reference"
  {
  }

  /** The script element wrapping the serialised record. */
  function JsonLdScript(json: string): (r: string)
    ensures StartsWith(r, "<script type=\"application/ld+json\">\n") && EndsWith(r, "\n</script>")
  {
    "<script type=\"application/ld+json\">\n" + json + "\n</script>"
  }

  // ---------------------------------------------------------------------------
  // Section assembly in add_metadata_to_context
  // ---------------------------------------------------------------------------

  const BasicHeader: string := "<!-- SEO Meta Tags -->"
  const OpenGraphHeader: string := "\n    <!-- Open Graph / Facebook -->"
  const TwitterHeader: string := "\n    <!-- Twitter -->"
  const CustomHeader: string := "\n    <!-- Content Metadata -->"
  const JsonLdHeader: string := "\n    <!-- Structured Data (JSON-LD) -->"

  /** A group's rendered tags under its comment header, or nothing when the group is empty. */
  function Section(header: string, tags: seq<MetaTag>): (r: seq<string>)
    ensures |tags| == 0 <==> r == []
    ensures |tags| > 0 ==> |r| == |tags| + 1 && r[0] == header
    ensures forall i :: 0 <= i < |tags| ==> r[i + 1] == Render(tags[i])
  {
    if |tags| > 0 then [header] + seq(|tags|, i requires 0 <= i < |tags| => Render(tags[i])) else []
  }

  /** How many lines a group's section takes. */
  function SectionLength(tags: seq<MetaTag>): nat {
    if |tags| > 0 then |tags| + 1 else 0
  }

  /** The `metadata_sections` list: each non-empty group under its header, in
      the fixed order basic, Open Graph, Twitter, custom, then the JSON-LD
      block when there is a script. */
  function AssembleSections(t: MetaTags, jsonLd: string): seq<string> {
    Section(BasicHeader, t.basic) + Section(OpenGraphHeader, t.opengraph) + Section(TwitterHeader, t.twitter)
      + Section(CustomHeader, t.custom) + (if |jsonLd| > 0 then [JsonLdHeader, jsonLd] else [])
  }

  /** Where each group lands in the list: the sections follow one another in
      the fixed order, each as long as its group plus its header, and the
      JSON-LD header and script close the list. */
  lemma AssembleSectionsLayout(t: MetaTags, jsonLd: string)
    ensures var r := AssembleSections(t, jsonLd);
            var ob := SectionLength(t.basic);
            var ot := ob + SectionLength(t.opengraph);
            var oc := ot + SectionLength(t.twitter);
            var oj := oc + SectionLength(t.custom);
            && |r| == oj + (if |jsonLd| > 0 then 2 else 0)
            && r[..ob] == Section(BasicHeader, t.basic)
            && r[ob..ot] == Section(OpenGraphHeader, t.opengraph)
            && r[ot..oc] == Section(TwitterHeader, t.twitter)
            && r[oc..oj] == Section(CustomHeader, t.custom)
            && (|jsonLd| > 0 ==> r[oj] == JsonLdHeader && r[oj + 1] == jsonLd)
  {
    hide Section, Render;
    var b := Section(BasicHeader, t.basic);
    var o := Section(OpenGraphHeader, t.opengraph);
    var w := Section(TwitterHeader, t.twitter);
    var c := Section(CustomHeader, t.custom);
    var e: seq<string> := if |jsonLd| > 0 then [JsonLdHeader, jsonLd] else [];
    assert AssembleSections(t, jsonLd) == b + o + w + c + e;
    assert |b| == SectionLength(t.basic) && |o| == SectionLength(t.opengraph);
    assert |w| == SectionLength(t.twitter) && |c| == SectionLength(t.custom);
    FiveParts(b, o, w, c, e);
  }

  /** Each part of a five-way concatenation is the slice it occupies. */
  lemma FiveParts(b: seq<string>, o: seq<string>, w: seq<string>, c: seq<string>, e: seq<string>)
    ensures var r := b + o + w + c + e;
            var i1 := |b|;
            var i2 := i1 + |o|;
            var i3 := i2 + |w|;
            var i4 := i3 + |c|;
            && |r| == i4 + |e|
            && r[..i1] == b && r[i1..i2] == o && r[i2..i3] == w && r[i3..i4] == c && r[i4..] == e
  {
    var r := b + o + w + c + e;
    assert r == b + (o + w + c + e);
    assert r == (b + o) + w + (c + e);
    assert r == (b + o + w) + c + e;
    MiddleOf([], b, o + w + c + e);
    MiddleOf(b, o, w + c + e);
    MiddleOf(b + o, w, c + e);
    MiddleOf(b + o + w, c, e);
  }

  /** The middle part of a concatenation is the slice it occupies. */
  lemma MiddleOf(x: seq<string>, y: seq<string>, z: seq<string>)
    ensures (x + y + z)[|x|..|x| + |y|] == y
  {
  }

  /** Every rendered tag opens with `<meta`. */
  lemma RenderOpens(t: MetaTag)
    ensures |Render(t)| >= 2 && Render(t)[1] == 'm'
  {
  }

  /** No header or script line can be mistaken for a rendered tag. */
  lemma NotInSection(h: string, header: string, tags: seq<MetaTag>)
    requires |h| >= 2 && h[1] != 'm'
    ensures h in Section(header, tags) <==> h == header && |tags| > 0
  {
    hide Render;
    var r := Section(header, tags);
    if h in r {
      var k :| 0 <= k < |r| && r[k] == h;
      if k > 0 {
        RenderOpens(tags[k - 1]);
      }
    }
  }

  /** Each group's comment header is among the sections exactly when the group
      has a tag, and the JSON-LD header is always there next to its script. */
  lemma SectionHeadersPresent(t: MetaTags, json: string)
    ensures var s := AssembleSections(t, JsonLdScript(json));
            && (BasicHeader in s <==> |t.basic| > 0)
            && (OpenGraphHeader in s <==> |t.opengraph| > 0)
            && (TwitterHeader in s <==> |t.twitter| > 0)
            && (CustomHeader in s <==> |t.custom| > 0)
            && JsonLdHeader in s
  {
    var script := JsonLdScript(json);
    var b := Section(BasicHeader, t.basic);
    var o := Section(OpenGraphHeader, t.opengraph);
    var w := Section(TwitterHeader, t.twitter);
    var c := Section(CustomHeader, t.custom);
    var s := AssembleSections(t, script);
    assert s == b + o + w + c + [JsonLdHeader, script];
    assert script[1] == 's';
    forall h | h in {BasicHeader, OpenGraphHeader, TwitterHeader, CustomHeader}
      ensures (h in s <==> h in b || h in o || h in w || h in c)
    {
    }
    NotInSection(BasicHeader, BasicHeader, t.basic);
    NotInSection(BasicHeader, OpenGraphHeader, t.opengraph);
    NotInSection(BasicHeader, TwitterHeader, t.twitter);
    NotInSection(BasicHeader, CustomHeader, t.custom);
    NotInSection(OpenGraphHeader, BasicHeader, t.basic);
    NotInSection(OpenGraphHeader, OpenGraphHeader, t.opengraph);
    NotInSection(OpenGraphHeader, TwitterHeader, t.twitter);
    NotInSection(OpenGraphHeader, CustomHeader, t.custom);
    NotInSection(TwitterHeader, BasicHeader, t.basic);
    NotInSection(TwitterHeader, OpenGraphHeader, t.opengraph);
    NotInSection(TwitterHeader, TwitterHeader, t.twitter);
    NotInSection(TwitterHeader, CustomHeader, t.custom);
    NotInSection(CustomHeader, BasicHeader, t.basic);
    NotInSection(CustomHeader, OpenGraphHeader, t.opengraph);
    NotInSection(CustomHeader, TwitterHeader, t.twitter);
    NotInSection(CustomHeader, CustomHeader, t.custom);
  }

  /** The new value of `context["metatags"]`: the old value (or "") followed by the joined sections. */
  function Metatags(existing: Option<string>, sections: seq<string>): (r: string)
    ensures StartsWith(r, existing.GetOr("") + "\n    ")
    ensures r[|existing.GetOr("") + "\n    "|..] == Join(sections, "\n    ")
  {
    existing.GetOr("") + "\n    " + Join(sections, "\n    ")
  }

  /** What `add_metadata_to_context` computes for a page: the page-title
      override and the new `metatags` text. The JSON encoder is a parameter. */
  datatype HeadUpdate = HeadUpdate(pagetitle: Value, metatags: string)

  /** `add_metadata_to_context` after the frontmatter has been read: nothing
      for empty frontmatter; otherwise the title is settled first, so the
      social tags see the new page title. */
  function AddMetadataToContext(raw: Fields, ctx: PageContext, existing: Option<string>, dumps: Value -> string): (r: Option<HeadUpdate>)
    requires NormalizableInput(raw)
    requires JoinableTags(NormalizeMetadata(raw)) && LowerableClassification(NormalizeMetadata(raw))
    ensures r.None? <==> |raw| == 0
    ensures r.Some? ==> StartsWith(r.value.metatags, existing.GetOr("") + "\n    ")
    ensures r.Some? && BuildPageTitle(NormalizeMetadata(raw), ctx).Some? ==>
              r.value.pagetitle == Str(BuildPageTitle(NormalizeMetadata(raw), ctx).value)
    ensures r.Some? && BuildPageTitle(NormalizeMetadata(raw), ctx).None? ==> r.value.pagetitle == ctx.pagetitle
  {
    if |raw| == 0 then None
    else
      var m := NormalizeMetadata(raw);
      var title := BuildPageTitle(m, ctx);
      var ctx' := if title.Some? then ctx.(pagetitle := Str(title.value)) else ctx;
      var tags := BuildMetaTags(m, ctx');
      var script := JsonLdScript(dumps(Obj(JsonLdFields(BuildJsonLd(m, ctx')))));
      Some(HeadUpdate(ctx'.pagetitle, Metatags(existing, AssembleSections(tags, script))))
  }

  /** On every rendered page the Open Graph and Twitter sections appear, and
      the JSON-LD script is the last section, right after its header. */
  lemma SectionsAlwaysHaveSocialAndJsonLd(m: Fields, ctx: PageContext, json: string)
    requires JoinableTags(m)
    ensures var t := BuildMetaTags(m, ctx);
            var s := AssembleSections(t, JsonLdScript(json));
            && OpenGraphHeader in s && TwitterHeader in s
            && s[|s| - 1] == JsonLdScript(json) && s[|s| - 2] == JsonLdHeader
            && (s[0] == BasicHeader <==> |t.basic| > 0)
  {
    var t := BuildMetaTags(m, ctx);
    var s := AssembleSections(t, JsonLdScript(json));
    var pre := Section(BasicHeader, t.basic);
    var og := Section(OpenGraphHeader, t.opengraph);
    var tw := Section(TwitterHeader, t.twitter);
    assert s == pre + og + tw + Section(CustomHeader, t.custom) + [JsonLdHeader, JsonLdScript(json)];
    assert s[|pre|] == og[0] == OpenGraphHeader;
    assert s[|pre| + |og|] == tw[0] == TwitterHeader;
    if |t.basic| == 0 {
      assert s[0] == OpenGraphHeader;
      assert OpenGraphHeader[0] != BasicHeader[0];
    }
  }
}
