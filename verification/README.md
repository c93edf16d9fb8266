# Frontmatter metadata pipeline of the Curator documentation

The Curator documentation site reads YAML frontmatter from every page. That
frontmatter comes in one of two shapes:

- a legacy flat schema, with keys like `content_type`, `difficulty`, `personas`,
  `categories` and `modality`;
- a nested "v2" schema, with `content.type`, `content.difficulty`,
  `content.audience`, `topics` and `facets.modality`.

Three pieces of code bring pages to the v2 schema, and each does it its own way:

- The `rich_metadata` Sphinx extension enriches the frontmatter in place. It
  then renders the HTML head of the page: the page-title override, four groups
  of `<meta>` tags and a schema.org JSON-LD record.
- The `json_output` extension rebuilds the frontmatter from its truthy values.
  It projects each page into a JSON search-index record with parents, truncated
  content, headings, keywords and product metadata. Its writer decides where
  each record goes and splits a record's content into a separate file when
  asked.
- The `transform_frontmatter.py` script rewrites the frontmatter of markdown
  files. It splits the delimiters (tolerating two corrupted closers), rebuilds
  the mapping by key presence through three lookup tables, and serialises the
  result as YAML text in a fixed key order.

The model is functional throughout.

- A frontmatter value is `Values.Value`: null, boolean, integer, string, list,
  or mapping. A mapping is an ordered sequence of (key, value) pairs, so
  Python's dict insertion order is kept.
- Lookup sees the first pair with a key. Assignment replaces that pair in place
  or appends a new one, as Python's `d[k] = v` does.
- Python truthiness is `Values.Truthy`.
- Where the Python code would raise (`.lower()` on a non-string, `", ".join`
  over non-strings, a list used as a dict key, `in` on an integer), the model
  has a precondition that says so. Examples are `RichMetadata.NormalizableInput`
  and `TransformFrontmatter.Transformable`.

Modules:

- `Text`: ASCII models of `lower`, `title`, `split`, `strip` and `join`.
- `Values`: the value type, dict operations and `get_nested_value`.
- `Emission`: records built from optional entries in a fixed order.
- `Schema`: the persona table, the "v2 field, else legacy key" lookup, and the
  v2 keys.
- `RichMetadata`.
- `JsonFormatter` and `JsonWriter`.
- For the script: `FrontmatterSplit` (delimiters), `TransformFrontmatter`
  (rewrite), `FrontmatterYaml` (serialiser) and `MigrateFile` (`process_file`).

Behaviour of the code worth knowing:

- The script's rewrite is not the JSON normaliser. It gates on key presence, so
  `status: false` is kept. It also runs the content-type and difficulty tables.
- The "already v2" skip checks only `categories`, `personas` and `content_type`.
  A legacy `difficulty` or `modality` does not prevent it.
- The root `index` parent is added only when `index` is a known page.
- The index array is `data["children"]` as the caller supplies it.
- In a full page record, the page text is routed next to (or into) `content`
  without truncation. Only child records truncate.

## Model

| member | source | states |
|---|---|---|
| Values.GetNested | docs/_extensions/rich_metadata/__init__.py:133-151 | An empty path gives back the value itself; a path that does not exist (a missing key, or a non-mapping reached on the way) gives the default |
| Values.GetNestedAppend | docs/_extensions/json_output/core/json_formatter.py:20-38 | The walk composes segment by segment: walking `p + q` is walking `q` from where `p` leads, and the default as soon as `p` leads nowhere |
| Values.GetNestedIgnoresDefault | docs/_extensions/rich_metadata/__init__.py:145-151 | When the whole path exists the default plays no part in the result |
| Values.GetNestedTwoKeys | docs/_extensions/json_output/core/json_formatter.py:20-38 | A two-segment walk on a mapping is `m[a][b]` when `m[a]` is a mapping holding `b`, and null otherwise |
| Values.Or | docs/_extensions/json_output/core/json_formatter.py:78 | Python's `a or b` is truthy iff either operand is, and is `a` whenever `a` is truthy |
| Values.Listify | docs/_extensions/json_output/core/json_formatter.py:75 | A list is kept as it is; any other value becomes the one-item list holding it |
| Text.Lower | docs/scripts/transform_frontmatter.py:150 | Lower-casing keeps the length and lower-cases each letter; `Text.LowerIdempotent` shows a second pass changes nothing |
| Text.LowerIdempotent | docs/_extensions/rich_metadata/__init__.py:438 | Lower-casing an already lower-cased string changes nothing |
| Text.Title | docs/scripts/transform_frontmatter.py:157 | Title case keeps the length: a letter that starts a word is upper-cased, a letter after a letter is lower-cased, anything else is unchanged |
| Text.WordsCountsWordStarts | docs/_extensions/json_output/core/json_formatter.py:402 | The number of pieces `split()` yields is the number of positions where a non-space character starts a word |
| Text.SplitJoin | docs/_extensions/json_output/core/json_formatter.py:221 | Splitting at a separator undoes joining with it when no piece holds the separator |
| Text.JoinSplit | docs/_extensions/json_output/core/json_formatter.py:221 | Joining the pieces of a split with the separator gives back the string |
| Text.Strip | docs/_extensions/json_output/core/json_formatter.py:197 | The result is a slice `s[i:j]` of the input with only whitespace outside it, and it neither starts nor ends with whitespace |
| Schema.AudienceName | docs/_extensions/rich_metadata/__init__.py:97-103 | The four-entry persona table maps each of its keys to its audience name; non-strings and every other string pass through unchanged |
| Schema.AudienceNameIdempotent | docs/_extensions/rich_metadata/__init__.py:97-103 | No audience name is a table key, so mapping twice is mapping once |
| Schema.AudienceFromPersonas | docs/_extensions/rich_metadata/__init__.py:93-105 | List personas map element-wise through the table with their length kept; a scalar becomes an unmapped one-item list |
| Schema.V2OrLegacy | docs/_extensions/json_output/core/json_formatter.py:86 | The v2 nested field wins when truthy; otherwise the legacy key's value (null when absent) is used |
| Schema.RecordLookup | docs/_extensions/json_output/core/json_formatter.py:83-124 | A record built in a fixed key order holds, under each visited key, exactly what its builder decided, and nothing under other keys |
| Schema.RecordEmpty | docs/_extensions/json_output/core/json_formatter.py:114-124 | An empty built record means the builder decided against every visited key |
| Emission.BuildFind | docs/_extensions/json_output/core/json_formatter.py:83-124 | Appending optional entries under distinct keys gives, for each key, exactly the entry offered for it |
| Emission.BuildKeys | docs/_extensions/rich_metadata/__init__.py:242-254 | Every entry of a built record comes from a visited key whose builder emitted exactly that value |
| RichMetadata.FillContent | docs/_extensions/rich_metadata/__init__.py:85-105 | `content.type`, `content.difficulty` and `content.audience` keep an existing value and otherwise take the legacy key's value (personas through the audience table); other sub-keys are untouched, and with every slot filled nothing changes |
| RichMetadata.FillFacets | docs/_extensions/rich_metadata/__init__.py:116-120 | `facets.modality` keeps an existing value and otherwise takes legacy `modality`; other sub-keys are untouched |
| RichMetadata.NormalizeContent | docs/_extensions/rich_metadata/__init__.py:79-105 | After the content step `content` is present; a mapping (or a missing one) is filled from the legacy keys, a non-mapping is left alone, and no other key changes |
| RichMetadata.NormalizeTopics | docs/_extensions/rich_metadata/__init__.py:110-111 | `topics` keeps an existing value and is otherwise taken from `categories`; no other key changes |
| RichMetadata.NormalizeFacets | docs/_extensions/rich_metadata/__init__.py:116-120 | After the facets step `facets` is present and its modality filled from the legacy key when absent; no other key changes |
| RichMetadata.NormalizeMetadata | docs/_extensions/rich_metadata/__init__.py:53-130 | The output always has `content` and `facets`, every other input key keeps its value, and `topics` keeps an existing value or else takes `categories` |
| RichMetadata.NormalizeKeys | docs/_extensions/rich_metadata/__init__.py:66-120 | The output's keys are exactly the input's plus `content`, `facets`, and `topics` when `categories` was present |
| RichMetadata.NormalizeKeepsV2 | docs/_extensions/rich_metadata/__init__.py:85-120 | Existing `content.type`, `content.difficulty`, `content.audience` and `facets.modality` are never overwritten; a legacy key fills only an empty slot |
| RichMetadata.NormalizePersonas | docs/_extensions/rich_metadata/__init__.py:93-105 | Personas filling an absent audience: a list maps element-wise with its length kept and unknown tokens passed through, a scalar becomes an unmapped singleton |
| RichMetadata.NormalizeStaysNormalizable | docs/_extensions/rich_metadata/__init__.py:53-130 | The output meets the input condition again, so the extension can be applied to it without raising |
| RichMetadata.NormalizeContentPart | docs/_extensions/rich_metadata/__init__.py:79-111 | The final `content` is what the content step made of it; the later steps leave it alone |
| RichMetadata.NormalizeFacetsPart | docs/_extensions/rich_metadata/__init__.py:116-120 | The final `facets` is the input's mapping with its modality filled, or the input's non-mapping value unchanged |
| RichMetadata.ContentStepFixed | docs/_extensions/rich_metadata/__init__.py:79-105 | The content step changes nothing once every legacy key it would move has its slot filled |
| RichMetadata.FacetsStepFixed | docs/_extensions/rich_metadata/__init__.py:116-120 | The facets step changes nothing once the modality slot is filled |
| RichMetadata.NormalizeFillsSlots | docs/_extensions/rich_metadata/__init__.py:79-120 | The output leaves no guarded write with anything to do |
| RichMetadata.NormalizeFixesFilled | docs/_extensions/rich_metadata/__init__.py:79-120 | A mapping whose every slot is filled is a fixed point of the normalisation |
| RichMetadata.NormalizeIdempotent | docs/_extensions/rich_metadata/__init__.py:79-120 | Normalising twice is normalising once |
| RichMetadata.TitleComponents | docs/_extensions/rich_metadata/__init__.py:211-230 | The components are the base title, then the parent's title and the site name, each only when it adds to the base title |
| RichMetadata.FormatTitle | docs/_extensions/rich_metadata/__init__.py:232-239 | Each of the three templates starts with the first component and ends with the NVIDIA brand suffix |
| RichMetadata.BuildPageTitle | docs/_extensions/rich_metadata/__init__.py:198-239 | No override iff both `title.page` and the context title are falsy; otherwise the result starts with the base title and ends with the NVIDIA brand suffix |
| RichMetadata.PageTitleTemplates | docs/_extensions/rich_metadata/__init__.py:211-239 | The exact template for each combination of base title B, parent title P and site name S: `B`, `B - P`, `B - S` or `B: P - S`, each followed by the NVIDIA brand suffix |
| RichMetadata.KeyAtRank | docs/_extensions/rich_metadata/__init__.py:384-400 | Each meta tag key has its own place in the emission order |
| RichMetadata.Group | docs/_extensions/rich_metadata/__init__.py:242-381 | A group of tags appended in order is in emission order, within its band of keys, and holds for every key exactly the content offered for it |
| RichMetadata.BasicGroupFinds | docs/_extensions/rich_metadata/__init__.py:242-254 | The basic group holds exactly the offered description and keywords |
| RichMetadata.OpenGraphGroupFinds | docs/_extensions/rich_metadata/__init__.py:257-282 | The Open Graph group always holds `og:type` `article` and otherwise exactly the offered content |
| RichMetadata.TwitterGroupFinds | docs/_extensions/rich_metadata/__init__.py:285-306 | The Twitter group always holds `twitter:card` `summary` and otherwise exactly the offered content |
| RichMetadata.CustomGroupFinds | docs/_extensions/rich_metadata/__init__.py:309-381 | The custom group holds exactly the offered audience, content type, difficulty and modality |
| RichMetadata.CustomGroupFindsTail | docs/_extensions/rich_metadata/__init__.py:326-381 | The custom group holds exactly the offered topics, product name and product version |
| RichMetadata.TruthyText | docs/_extensions/rich_metadata/__init__.py:266 | A tag fed by a value is present iff the value is truthy, and then carries Python's `str` of it |
| RichMetadata.ProductText | docs/_extensions/rich_metadata/__init__.py:326-344 | A product tag is present iff `cascade.product` is a mapping whose field is truthy |
| RichMetadata.BasicTags | docs/_extensions/rich_metadata/__init__.py:242-254 | A description tag whenever the key is present (even falsy), and a keywords tag iff `tags` is a list, holding the tags joined with `, ` |
| RichMetadata.OpenGraphTags | docs/_extensions/rich_metadata/__init__.py:257-282 | `og:type article` always; description from `social.description` else `description`; title from `title.social`, the page title, then the context title; URL iff the context has one; image from `social.image` |
| RichMetadata.TwitterTags | docs/_extensions/rich_metadata/__init__.py:285-306 | `twitter:card summary` always; description, title and image from the same sources as Open Graph, each when truthy |
| RichMetadata.CustomTags | docs/_extensions/rich_metadata/__init__.py:309-381 | Audience, then content type, difficulty and modality each from the v2 field else the legacy key, then topics, product name and version, each only when truthy |
| RichMetadata.GroupsInOrder | docs/_extensions/rich_metadata/__init__.py:384-400 | The four groups read in order form one list in emission order, so no key appears twice |
| RichMetadata.BuildMetaTags | docs/_extensions/rich_metadata/__init__.py:384-400 | The Open Graph and Twitter groups always carry their fixed type tags, and the groups together are in emission order |
| RichMetadata.About | docs/_extensions/rich_metadata/__init__.py:485-497 | The `about` record names the product, and has `softwareVersion` iff the version is truthy |
| RichMetadata.JsonLdFields | docs/_extensions/rich_metadata/__init__.py:416-510 | The record starts with `@context` and `@type`, always holds the fixed `publisher`, holds `headline` and `name` for a title, `about` and `proficiencyLevel` when set |
| RichMetadata.ArticleType | docs/_extensions/rich_metadata/__init__.py:436-449 | `@type` is the table entry for the lower-cased content type when there is one, and `TechArticle` otherwise |
| RichMetadata.BuildJsonLd | docs/_extensions/rich_metadata/__init__.py:403-505 | `proficiencyLevel` iff the lower-cased difficulty is in the table; `about` iff `cascade.product.name` is truthy, holding the product record; `keywords` iff `tags` is a list, holding it; the description as given; the audience iff `content.audience` is a non-empty list, holding it; the modality iff the v2-or-legacy modality is truthy, holding it; headline from the base title; URL from the context |
| RichMetadata.JsonLdLookup | docs/_extensions/rich_metadata/__init__.py:415-505 | Each key of the serialised dict holds exactly the record field it was assigned from, `publisher` the fixed organisation, and no other key is present |
| RichMetadata.JsonLdEntries | docs/_extensions/rich_metadata/__init__.py:415-505 | Read off the metadata: `description` as given, `keywords` iff `tags` is a list, `proficiencyLevel` iff the difficulty is one of the four and then its table value, `audience` iff a non-empty list and then the `Audience` object around it, `additionalProperty` iff the modality is truthy and then the `PropertyValue` object around it, `about` iff the product has a name, the URL, the publisher and the `@type` |
| RichMetadata.SchemaTypeRange | docs/_extensions/rich_metadata/__init__.py:439-449 | The content-type table yields only `HowTo`, `Article` or `TechArticle` |
| RichMetadata.ProficiencyDomain | docs/_extensions/rich_metadata/__init__.py:456-463 | Exactly the four listed difficulties get a proficiency level, one of Beginner, Intermediate or Expert; Expert exactly for advanced and reference |
| RichMetadata.JsonLdScript | docs/_extensions/rich_metadata/__init__.py:509-510 | The serialised record sits inside an `application/ld+json` script element |
| RichMetadata.Section | docs/_extensions/rich_metadata/__init__.py:556-581 | An empty group contributes nothing; a non-empty one its comment header followed by each rendered tag in order |
| RichMetadata.Metatags | docs/_extensions/rich_metadata/__init__.py:584-589 | The new `metatags` text is the old one (or the empty string), the separator, then exactly the sections joined by the separator |
| RichMetadata.AssembleSectionsLayout | docs/_extensions/rich_metadata/__init__.py:556-581 | The sections come in the order basic, Open Graph, Twitter, custom, each group as its header and its rendered tags and absent when empty; the JSON-LD header and script close the list when there is a script |
| RichMetadata.SectionHeadersPresent | docs/_extensions/rich_metadata/__init__.py:556-581 | Each group's comment header is among the sections iff the group has tags; the JSON-LD header always is |
| RichMetadata.AddMetadataToContext | docs/_extensions/rich_metadata/__init__.py:513-591 | Nothing for empty frontmatter; otherwise `metatags` extends the old text and the page title is overridden exactly when a title was built |
| RichMetadata.SectionsAlwaysHaveSocialAndJsonLd | docs/_extensions/rich_metadata/__init__.py:556-589 | The Open Graph and Twitter sections always appear, the JSON-LD script comes last after its header, and the basic section opens the list iff it has tags |
| JsonFormatter.TopLevelInOrder | docs/_extensions/json_output/core/json_formatter.py:53-143 | A field is one of the normaliser's eleven top-level keys iff it appears in the fixed order the record is built in |
| JsonFormatter.AudienceValue | docs/_extensions/json_output/core/json_formatter.py:95-112 | A truthy `content.audience` wins, coerced to a list; else truthy personas (list mapped, scalar wrapped unmapped); else no audience |
| JsonFormatter.IfTruthy | docs/_extensions/json_output/core/json_formatter.py:64-65 | A value is copied iff it is truthy |
| JsonFormatter.IfMap | docs/_extensions/json_output/core/json_formatter.py:68-70 | A value is copied iff it is a mapping, even an empty one |
| JsonFormatter.NormalizeForJson | docs/_extensions/json_output/core/json_formatter.py:41-143 | Every key of the rebuilt record is one of the v2 top-level keys |
| JsonFormatter.NormalizeForJsonLookup | docs/_extensions/json_output/core/json_formatter.py:53-143 | The record holds, under each top-level key, what that key's rule decides for the input |
| JsonFormatter.NormalizeForJsonKeys | docs/_extensions/json_output/core/json_formatter.py:53-143 | The output keys are a subset of title, description, social, tags, topics, content, facets, dates, status, only and cascade |
| JsonFormatter.NormalizeForJsonDropsLegacy | docs/_extensions/json_output/core/json_formatter.py:53-143 | None of `content_type`, `difficulty`, `personas`, `categories`, `modality` appears in the output |
| JsonFormatter.TruthyKey | docs/_extensions/json_output/core/json_formatter.py:132-141 | Description, status, only and cascade appear iff truthy, so `status: false` is dropped |
| JsonFormatter.MapKey | docs/_extensions/json_output/core/json_formatter.py:127-129 | Social and dates pass through iff they are mappings, even empty ones |
| JsonFormatter.NormalizeForJsonTitle | docs/_extensions/json_output/core/json_formatter.py:57-61 | A mapping title passes through; any other truthy title becomes `{"page": title}`; a falsy one is dropped |
| JsonFormatter.NormalizeForJsonLists | docs/_extensions/json_output/core/json_formatter.py:73-80 | Truthy tags are kept, a scalar wrapped in a list; topics are `topics` if truthy, else `categories`, coerced the same way |
| JsonFormatter.ContentRecordLookup | docs/_extensions/json_output/core/json_formatter.py:83-112 | The rebuilt `content` holds the truthy type, difficulty and audience and is empty exactly when none is present |
| JsonFormatter.FacetsRecordLookup | docs/_extensions/json_output/core/json_formatter.py:118-121 | The rebuilt `facets` holds the truthy modality and nothing else |
| JsonFormatter.NormalizeForJsonContent | docs/_extensions/json_output/core/json_formatter.py:83-115 | `content` appears iff some sub-field is truthy; each sub-field is the truthy v2 value, else the truthy legacy one |
| JsonFormatter.NormalizeForJsonFacets | docs/_extensions/json_output/core/json_formatter.py:118-124 | `facets` appears iff the modality (v2, else legacy) is truthy, and then holds it |
| JsonFormatter.NormalizedIsNormalizable | docs/_extensions/json_output/core/json_formatter.py:53-143 | The output holds no `personas`, so it is again a valid input |
| JsonFormatter.ContentStable | docs/_extensions/json_output/core/json_formatter.py:83-115 | Normalising the output rebuilds the same `content` mapping |
| JsonFormatter.FacetsStable | docs/_extensions/json_output/core/json_formatter.py:118-124 | Normalising the output rebuilds the same `facets` mapping |
| JsonFormatter.FieldStable | docs/_extensions/json_output/core/json_formatter.py:53-143 | Each top-level key is decided the same way from the normalised record as from the input |
| JsonFormatter.NormalizeForJsonIdempotent | docs/_extensions/json_output/core/json_formatter.py:53-143 | Normalising the output returns the same record, key order included |
| JsonFormatter.ProjectProductName | docs/_extensions/json_output/core/json_formatter.py:191-200 | A hyphenated project yields a hyphen-free piece; one with spaces yields a single word or the project itself; otherwise the project itself |
| JsonFormatter.ProjectProductNameAfterHyphen | docs/_extensions/json_output/core/json_formatter.py:194-195 | A hyphenated project name yields exactly what follows its last hyphen |
| JsonFormatter.ProductName | docs/_extensions/json_output/core/json_formatter.py:170-200 | Precedence: truthy `html_context.product_name`, then `product_name_short`, then `product_name` of the substitutions, then the project-name fallback |
| JsonFormatter.ProductFamily | docs/_extensions/json_output/core/json_formatter.py:171-188 | A truthy `html_context.product_family` wins; otherwise `["NeMo"]` when "NeMo" is in the substitutions' product name; otherwise the falsy `html_context` value or null, so no family is written |
| JsonFormatter.ProductRecord | docs/_extensions/json_output/core/json_formatter.py:202-207 | The product mapping holds the name, and the family coerced to a list only when truthy |
| JsonFormatter.ProductMetadata | docs/_extensions/json_output/core/json_formatter.py:158-214 | Only `book`, `product` and `site`, without repeats: `book` iff a project is set, `product` iff a truthy name was found, `site` iff `html_context` has a truthy site name |
| JsonFormatter.Ancestors | docs/_extensions/json_output/core/json_formatter.py:221-231 | The loop collects at most one ancestor per segment, and every one ends with `/index` |
| JsonFormatter.AncestorSource | docs/_extensions/json_output/core/json_formatter.py:223-231 | Every collected page was recorded for an earlier segment the loop keeps, and is that segment's page |
| JsonFormatter.AncestorSourceIncreasing | docs/_extensions/json_output/core/json_formatter.py:222-231 | The pages come root first: a later page was recorded for a deeper segment |
| JsonFormatter.AncestorsComplete | docs/_extensions/json_output/core/json_formatter.py:223-231 | Every segment the loop keeps contributes its page |
| JsonFormatter.ParentPathNested | docs/_extensions/json_output/core/json_formatter.py:220-235 | A nested page's parents are `index` when it is a known page, followed by the collected ancestors |
| JsonFormatter.ParentPathAncestors | docs/_extensions/json_output/core/json_formatter.py:216-242 | For a nested page: every kept segment but the last contributes its page, every other entry is such a page, root first; `index` is present iff known and only at the front |
| JsonFormatter.ParentPath | docs/_extensions/json_output/core/json_formatter.py:216-242 | Every parent is `index` or ends with `/index`; a top-level page other than `index` has `["index"]` iff `index` is known; a nested page lists `index` first when known |
| JsonFormatter.ParentPathRoot | docs/_extensions/json_output/core/json_formatter.py:238 | The root page has no parents |
| JsonFormatter.ParentPathListsOwnIndex | docs/_extensions/json_output/core/json_formatter.py:223-231 | A known `dir/index` page lists itself among its parents |
| JsonFormatter.Truncate | docs/_extensions/json_output/core/json_formatter.py:396-397 | When `0 < max < len`, the result is the first `max` characters followed by `...` (length `max + 3`); otherwise the text is unchanged |
| JsonFormatter.TruncateBounded | docs/_extensions/json_output/core/json_formatter.py:412-413 | A truncated text is never longer than `max + 3` and begins with the text's first `max` characters (all of them when the text is shorter) |
| JsonFormatter.TruncateStable | docs/_extensions/json_output/core/json_formatter.py:396-397 | Truncating the result again with limit `max + 3` changes nothing |
| JsonFormatter.PrimaryContent | docs/_extensions/json_output/core/json_formatter.py:388-402 | Truthy page text is written truncated, with its format and the length and word count of the original; falsy text writes nothing; no other key changes |
| JsonFormatter.SummaryContent | docs/_extensions/json_output/core/json_formatter.py:404-415 | A truthy summary is written truncated; otherwise nothing; no other key changes |
| JsonFormatter.HeadingWithId | docs/_extensions/json_output/core/json_formatter.py:424 | A heading keeps its text and level, and its `id` defaults to the empty string |
| JsonFormatter.HeadingsContent | docs/_extensions/json_output/core/json_formatter.py:417-427 | Headings keep their number and order, each simplified; `headings_text` is their texts joined with spaces; no other key changes |
| JsonFormatter.HeadingsTextSplits | docs/_extensions/json_output/core/json_formatter.py:427 | When no heading text holds a space, splitting `headings_text` at spaces gives back the heading texts |
| JsonFormatter.Prefix | docs/_extensions/json_output/core/json_formatter.py:433-434 | Python's `v[:n]` for a positive `n` on a list or string: a prefix of at most `n` items, and the whole value when it is shorter |
| JsonFormatter.CappedKeywords | docs/_extensions/json_output/core/json_formatter.py:432-435 | With `max > 0` a keyword list is cut to a prefix of at most `max` items, and left whole when it is short enough; otherwise unchanged |
| JsonFormatter.KeywordsFeature | docs/_extensions/json_output/core/json_formatter.py:431-436 | Keywords are written, capped, iff extraction is on and the extractor found them; no other key changes |
| JsonFormatter.OptionalFeaturesWrites | docs/_extensions/json_output/core/json_formatter.py:429-445 | Keywords, code blocks, links and images are each written iff their setting is on and the extractor found them |
| JsonFormatter.OptionalFeaturesFrame | docs/_extensions/json_output/core/json_formatter.py:429-445 | The optional features write no other key |
| JsonFormatter.DocumentMetadata | docs/_extensions/json_output/core/json_formatter.py:447-457 | `doc_type` and `section_path` are written iff their settings are on; no other key changes |
| JsonFormatter.AddContentFields | docs/_extensions/json_output/core/json_formatter.py:378-386 | Only the primary content helper writes `content`: the truncated text when truthy, else the old value |
| JsonFormatter.AddContentFieldsFrame | docs/_extensions/json_output/core/json_formatter.py:378-386 | The content helpers leave every key outside their thirteen alone |
| JsonFormatter.CopyTruthy | docs/_extensions/json_output/core/json_formatter.py:249-283 | Each listed key is copied iff its value is truthy; every other key keeps its value |
| JsonFormatter.AuthorStep | docs/_extensions/json_output/core/json_formatter.py:286-288 | The raw `author` is copied iff truthy; nothing else changes |
| JsonFormatter.AddMetadataLookup | docs/_extensions/json_output/core/json_formatter.py:244-290 | After `add_metadata_fields` each copied key holds its truthy normalised value, `author` its truthy raw value, and every other key is unchanged |
| JsonFormatter.AddMetadataSkipsTitleAndCascade | docs/_extensions/json_output/core/json_formatter.py:244-290 | The page's `title` and `cascade` never reach the index record through `add_metadata_fields` |
| JsonFormatter.AddMetadataContent | docs/_extensions/json_output/core/json_formatter.py:257-264 | With any content classification, `content` becomes the rebuilt classification mapping; otherwise it is unchanged |
| JsonFormatter.BaseRecord | docs/_extensions/json_output/core/json_formatter.py:339-349 | The starting record has the page id, no `content`, and `parent` iff the page has parents |
| JsonFormatter.WithProduct | docs/_extensions/json_output/core/json_formatter.py:355-356 | Merging the product metadata changes only `book`, `product` and `site` |
| JsonFormatter.RouteContent | docs/_extensions/json_output/core/json_formatter.py:358-368 | Truthy page text goes to `content_text` when `content` holds a classification mapping and to `content` otherwise, with `format` alongside; nothing else changes |
| JsonFormatter.SummaryAndHeadings | docs/_extensions/json_output/core/json_formatter.py:370-374 | The last two steps write no key other than `summary` and `headings` |
| JsonFormatter.BuildJsonData | docs/_extensions/json_output/core/json_formatter.py:329-376 | The page record carries the page id |
| JsonFormatter.BuildJsonDataRoutes | docs/_extensions/json_output/core/json_formatter.py:352-368 | Page text lands in `content_text` beside a classification, in `content` otherwise; with no text, `content` is the classification or absent |
| JsonFormatter.BuildChildJsonData | docs/_extensions/json_output/core/json_formatter.py:292-327 | The child record carries the page id |
| JsonFormatter.ChildContent | docs/_extensions/json_output/core/json_formatter.py:292-327 | With content included, truthy page text replaces the classification under `content` (truncated); without, `content` is the classification or absent |
| FrontmatterSplit.CloserTextAt | docs/scripts/transform_frontmatter.py:82-100 | Where a closer of some kind is found, the file holds that kind's full closing text from that index on |
| FrontmatterSplit.First | docs/scripts/transform_frontmatter.py:82-100 | The search finds the first closer of its kind from the start index on, or reports that there is none |
| FrontmatterSplit.CutFrontmatter | docs/scripts/transform_frontmatter.py:64-102 | Text not starting with `---` has no frontmatter; a cut is always at a closer of its kind at index 3 or later |
| FrontmatterSplit.CutPriority | docs/scripts/transform_frontmatter.py:74-102 | The cut is at the first closer of its kind, no closer of a kind tried earlier occurs anywhere, and there is no frontmatter iff the text does not start with `---` or has no closer |
| FrontmatterSplit.ParenWins | docs/scripts/transform_frontmatter.py:82-86 | A `\n---(` closer found from index 3 decides the cut, even when a well-formed closer comes earlier |
| FrontmatterSplit.CutReconstructs | docs/scripts/transform_frontmatter.py:84-100 | The text is `---\n` + raw + the closer's text + body when the closer does not share the opening newline |
| FrontmatterSplit.CutSharedNewline | docs/scripts/transform_frontmatter.py:84-100 | A closer on the opening line's newline gives an empty raw text, and the body follows the dashes |
| FrontmatterSplit.ExtractFrontmatter | docs/scripts/transform_frontmatter.py:64-109 | No frontmatter gives `(None, "", content)`; otherwise the raw text and body of the cut, with the parser's reading of the raw text |
| FrontmatterSplit.ExtractReconstructs | docs/scripts/transform_frontmatter.py:74-109 | Raw text and body fit back into the file; a file without frontmatter comes back whole as its body |
| FrontmatterSplit.WrittenShape | docs/scripts/transform_frontmatter.py:350-351 | A written file opens with a `---` line and ends with the closer line followed by the body |
| FrontmatterSplit.CutWritten | docs/scripts/transform_frontmatter.py:74-102 | A written file whose YAML has no dash-led line and whose body has no glued closer is cut back into that YAML and that body |
| TransformFrontmatter.MapPersona | docs/scripts/transform_frontmatter.py:30-40 | A listed persona string becomes its audience name; anything else passes through |
| TransformFrontmatter.MapPersonaIdempotent | docs/scripts/transform_frontmatter.py:30-40 | No output of the persona table is one of its keys, so mapping twice is mapping once |
| TransformFrontmatter.TableOrTitle | docs/scripts/transform_frontmatter.py:150 | The table entry of the lower-cased value when there is one, the title-cased value otherwise |
| TransformFrontmatter.TableIgnoresCase | docs/scripts/transform_frontmatter.py:43-61 | Two spellings equal in lower case map to the same name when the table knows them |
| TransformFrontmatter.AudienceOf | docs/scripts/transform_frontmatter.py:162-167 | Personas, a list item by item or a single value, go through the persona table into a list |
| TransformFrontmatter.FacetsOf | docs/scripts/transform_frontmatter.py:173-181 | Rebuilt facets are always a non-empty mapping when present |
| TransformFrontmatter.TitleOf | docs/scripts/transform_frontmatter.py:197-205 | A rebuilt title is always a non-empty mapping when present |
| TransformFrontmatter.TransformFieldLookup | docs/scripts/transform_frontmatter.py:112-207 | The rewritten mapping holds, under each of its ten keys, what that key's rule decides, and nothing under any other field name |
| TransformFrontmatter.TransformOtherKey | docs/scripts/transform_frontmatter.py:112-207 | A key naming no v2 field is never written |
| TransformFrontmatter.TransformKeepsPresent | docs/scripts/transform_frontmatter.py:125-194 | Description, tags, status, dates, social and only are copied whenever present, falsy or not (`status: false` is kept) |
| TransformFrontmatter.TransformDropsLegacy | docs/scripts/transform_frontmatter.py:112-207 | No legacy key and no `cascade` survives the rewrite |
| TransformFrontmatter.TransformContentKey | docs/scripts/transform_frontmatter.py:143-170 | Each sub-key of the rewritten `content` is the nested value, else the legacy key through its table, else absent |
| TransformFrontmatter.TransformNestedWins | docs/scripts/transform_frontmatter.py:146-162 | Nested `content.type`, `content.difficulty` and `content.audience` win over the legacy keys |
| TransformFrontmatter.TransformLegacyContent | docs/scripts/transform_frontmatter.py:146-167 | Without a nested value, legacy type and difficulty go through their lower-cased tables (else title case) and personas through the persona table |
| TransformFrontmatter.TransformTopics | docs/scripts/transform_frontmatter.py:129-136 | Topics are kept when present, else taken from `categories`, a single category becoming a one-item list |
| TransformFrontmatter.TransformFacets | docs/scripts/transform_frontmatter.py:173-181 | A `facets` mapping is copied whole when non-empty and dropped when empty; legacy `modality` is used only when `facets` is not a mapping |
| TransformFrontmatter.TransformTitle | docs/scripts/transform_frontmatter.py:197-205 | Only a mapping title is kept, and only its `page` and `social` keys, with their values |
| TransformFrontmatter.TransformStaysTransformable | docs/scripts/transform_frontmatter.py:112-207 | The rewritten mapping can be rewritten again without raising |
| TransformFrontmatter.RewrittenContent | docs/scripts/transform_frontmatter.py:143-170 | The rewritten `content` holds each decided sub-key and is absent when nothing was decided |
| TransformFrontmatter.ContentOfStable | docs/scripts/transform_frontmatter.py:143-170 | Rewriting rebuilds the same `content` mapping |
| TransformFrontmatter.FieldStable | docs/scripts/transform_frontmatter.py:122-207 | Each output key is decided the same way from the rewritten mapping |
| TransformFrontmatter.TransformIdempotent | docs/scripts/transform_frontmatter.py:112-207 | Rewriting the output gives the same mapping back |
| TransformFrontmatter.RewrittenSkipped | docs/scripts/transform_frontmatter.py:332-339 | A rewritten mapping is skipped next time without `--force` iff the rewrite decided a content type or difficulty |
| TransformFrontmatter.LegacyDifficultyKeptBySkip | docs/scripts/transform_frontmatter.py:332-339 | A legacy `difficulty` or `modality` beside a typed v2 `content` does not stop the skip, while a legacy `content_type` does |
| TransformFrontmatter.TransformEmpty | docs/scripts/transform_frontmatter.py:345-347 | The rewrite is empty iff no output key is decided |
| FrontmatterYaml.Quoted | docs/scripts/transform_frontmatter.py:233 | Quoting wraps the text in double quotes and escapes nothing |
| FrontmatterYaml.UnquoteQuoted | docs/scripts/transform_frontmatter.py:233 | Dropping the surrounding quotes undoes quoting |
| FrontmatterYaml.FormatItem | docs/scripts/transform_frontmatter.py:231-236 | A string item is quoted iff it holds one of `, [ ] : #` |
| FrontmatterYaml.FormatListInline | docs/scripts/transform_frontmatter.py:226-238 | The output is wrapped in brackets around the formatted items joined by `, ` |
| FrontmatterYaml.FormatListInlineReads | docs/scripts/transform_frontmatter.py:226-238 | Items without commas that are non-empty and not already quoted are recovered by splitting at commas and unquoting |
| FrontmatterYaml.JsonSafeStr | docs/scripts/transform_frontmatter.py:297-307 | A string is quoted iff it holds a YAML indicator or starts with `-`, `?`, `:` or a space |
| FrontmatterYaml.JsonSafeStrReads | docs/scripts/transform_frontmatter.py:297-307 | Every string reads back through `Unquote`, which drops one pair of surrounding quotes (not YAML parsing, see "## Left out") |
| FrontmatterYaml.JsonSafeStrBare | docs/scripts/transform_frontmatter.py:297-307 | A string written bare holds no indicator and does not start with one |
| FrontmatterYaml.ScalarTextReads | docs/scripts/transform_frontmatter.py:287-292 | Every top-level string value, multi-line and long ones included, reads back through `Unquote` by dropping one pair of quotes (not YAML parsing, see "## Left out") |
| FrontmatterYaml.Front | docs/scripts/transform_frontmatter.py:263-266 | The front part holds only keys of `field_order` |
| FrontmatterYaml.Rest | docs/scripts/transform_frontmatter.py:268-271 | The rest holds only entries of the input whose keys are not in `field_order` |
| FrontmatterYaml.RestPos | docs/scripts/transform_frontmatter.py:268-271 | Each entry of the rest is the input entry at a known position |
| FrontmatterYaml.RestPosIncreasing | docs/scripts/transform_frontmatter.py:268-271 | Later entries of the rest come from later positions of the input |
| FrontmatterYaml.RestKeepsOrder | docs/scripts/transform_frontmatter.py:268-271 | Any two entries of the rest occur in the input in the same order |
| FrontmatterYaml.RestComplete | docs/scripts/transform_frontmatter.py:268-271 | Every input entry whose key is not in `field_order` is kept in the rest |
| FrontmatterYaml.RestLookup | docs/scripts/transform_frontmatter.py:268-271 | The rest reads as the input on every key outside `field_order` |
| FrontmatterYaml.OrderedLookup | docs/scripts/transform_frontmatter.py:263-271 | Reordering keeps the mapping: every key reads the same value |
| FrontmatterYaml.FrontOrdered | docs/scripts/transform_frontmatter.py:263-266 | Keys of `field_order` come out in the order of `field_order` |
| FrontmatterYaml.OrderedUnique | docs/scripts/transform_frontmatter.py:263-271 | Each top-level key is written exactly once, with its value |
| FrontmatterYaml.OrderedPrecedence | docs/scripts/transform_frontmatter.py:249-271 | `field_order` keys come first and in their order; every other key comes after them, in the order the input has them |
| FrontmatterYaml.SubLine | docs/scripts/transform_frontmatter.py:278-283 | A nested entry's line is indented two spaces and starts with its key |
| FrontmatterYaml.EntryLines | docs/scripts/transform_frontmatter.py:274-294 | A mapping gives its key line and one indented line per entry; a list or scalar gives one line starting with the key |
| FrontmatterYaml.ToYamlLines | docs/scripts/transform_frontmatter.py:241-294 | When no value spans lines, splitting the YAML text at newlines gives back the lines written, in key order |
| FrontmatterYaml.NestedStringWrittenBare | docs/scripts/transform_frontmatter.py:274-283 | A nested string is written bare after `  subkey: `, whatever characters it holds, so a value holding ": " yields a line YAML rejects |
| FrontmatterYaml.MultiLineWrittenQuoted | docs/scripts/transform_frontmatter.py:287-290 | A top-level string with a line break is written as `key: "value"` with the break kept inside the quotes and nothing escaped |
| MigrateFile.ProcessOutcomes | docs/scripts/transform_frontmatter.py:310-368 | A file is rewritten iff it has a frontmatter mapping, is not skipped as v2 and the rewrite decides some key; it is dropped as empty iff its frontmatter is a list or string naming no field, or a mapping not skipped as v2 whose rewrite decides no key; the written file opens with `---` and keeps the body |
| MigrateFile.RewrittenSplitsBack | docs/scripts/transform_frontmatter.py:350-351 | A rewritten file splits back into the rewritten mapping, its YAML and the same body, when the parser reads the emitted YAML back |
| MigrateFile.SecondRunStable | docs/scripts/transform_frontmatter.py:310-368 | When the parser reads the emitted YAML back as the rewritten mapping (and no YAML line starts with dashes, no glued closer is in the body), processing a rewritten file again skips it or writes the very same text; a forced pass writes the same text |
| JsonWriter.JsonPath | docs/_extensions/json_output/core/json_writer.py:27-32 | Every branch gives a path ending in `.json` |
| JsonWriter.JsonPathIsDocname | docs/_extensions/json_output/core/json_writer.py:27-32 | The three branches give `docname.json` for every docname except `/index` |
| JsonWriter.BaseNameAppend | docs/_extensions/json_output/core/json_writer.py:67 | A slash-free tail extends a path's last component |
| JsonWriter.ContentPathOfDocname | docs/_extensions/json_output/core/json_writer.py:53 | The content file of a page is `docname.content.json`, beside the main file |
| JsonWriter.GetDefault | docs/_extensions/json_output/core/json_writer.py:54-60 | `data.get(k, d)` is the present value, even null, and the default only for a missing key |
| JsonWriter.ContentRecordKeys | docs/_extensions/json_output/core/json_writer.py:54-60 | The content record has exactly the keys id, content, format, content_length and word_count, the last three defaulting to `text`, 0 and 0 |
| JsonWriter.MainRecordLookup | docs/_extensions/json_output/core/json_writer.py:65-67 | The main record is the input without `content` and with `content_file`; every other key keeps its value |
| JsonWriter.SplitKeepsContent | docs/_extensions/json_output/core/json_writer.py:50-69 | The content survives in the content record and leaves the main record, and both carry the same id |
| JsonWriter.IndexWrittenAsArray | docs/_extensions/json_output/core/json_writer.py:71-78 | The root index with children is written as exactly its `children` value, with no wrapping object |
| JsonWriter.WriteOutcomes | docs/_extensions/json_output/core/json_writer.py:22-69 | Dispatch: index with children as array, else split when asked and content is present, else one file; a split without `id` writes nothing; a split writes the content file, then the main file naming it |
| JsonWriter.SingleFileByDefault | docs/_extensions/json_output/core/json_writer.py:37-43 | Without separate content a page other than the root index is written whole to `docname.json` |

## Left out

- File I/O is not modelled: reading and writing markdown and JSON files, `find_markdown_files`, `main` and its argument parsing, and the dry-run printing of `process_file`. `process_file` is modelled as a function from file text to the text it would write.
- The exception logging in `write_json_file` is not modelled. A `KeyError` in the split path is the `Failed` outcome; other write errors are I/O.
- `_write_json_data` is not modelled. Serialisation, indentation and `minify_json` are foreign JSON encoding.
- `yaml.safe_load` is a parameter `parse`. `json.dumps` of the JSON-LD record is the parameter `dumps`. Both are foreign libraries.
- `datetime.now` is a parameter (`now`), because the clock is not deterministic.
- `get_setting`, `get_document_url`, the Sphinx environment's titles and known pages, and `DocumentDiscovery` are all parameters. They are framework lookups, and `DocumentDiscovery` is not part of this model.
- `setup`, `add_template_path` and the registration of the extensions are Sphinx wiring.
- In `add_metadata_to_context`, mutating the page context is not modelled; the model returns the values written.
- `rich_metadata`'s `extract_frontmatter` reads a file. Its `YAML_AVAILABLE` guard and exception logging are environment handling.
- `format_yaml_value` is dead code that returns its input.
- Python's Unicode rules for `lower`, `title`, `split()`, `strip()` and `\w` are approximated over ASCII.
- Floats in frontmatter values are not modelled; the value type has integers only.
- YAML timestamps (`last_updated: 2024-01-01`, which `yaml.safe_load` turns into a `date` or `datetime`) and non-string mapping keys have no value form. The parser parameter is taken to map them to strings. As a consequence, `FrontmatterYaml.JsonSafeStr` quotes a top-level datetime with a time part, because it holds `:`, where the script's `json_safe_str` writes `str(datetime)` bare.
- `repr` is modelled without string escapes.
- Quoting escapes nothing, as in the source. `FrontmatterYaml.Unquote` is the simple reader that the read-back lemmas use, not a YAML parser. It only drops the outer quotes. YAML differs in two ways: a double-quoted scalar ends at the first inner `"`, and a line break inside quotes is folded into a space. So "reads back" in `FrontmatterYaml.JsonSafeStrReads` and `FrontmatterYaml.ScalarTextReads` means through `Unquote`, not through YAML.
- MigrateFile.SecondRunStable: holds only under `MigrateFile.ReadsBack`, the hypothesis that the parser reads the emitted YAML back, and the script's own YAML can break it. A nested string is written bare after its sub-key (transform_frontmatter.py:283, `FrontmatterYaml.NestedStringWrittenBare`), so `title: {page: "A: B"}` becomes the line `  page: A: B`, which `yaml.safe_load` rejects; the second run then finds no frontmatter. A multi-line description is written in double quotes with the line break kept (transform_frontmatter.py:289-290, `FrontmatterYaml.MultiLineWrittenQuoted`), which YAML reads as `l1 l2`; a forced second run, or one on a page with no content type or difficulty, then writes different text. The model takes the parser as a parameter and does not model YAML parsing, so it cannot decide the hypothesis itself.
- The shallow-copy aliasing in `normalize_metadata` is not modelled: its writes into a nested `content` dict also reach the caller's dict. The model is functional.
- Frontmatter that parses to a number or a boolean, or to a list or string holding one of the keys the script tests, is not modelled: `in` or indexing raises on it, and `MigrateFile.Processable` excludes it. A list or string holding none of them is modelled; the script drops it as an empty rewrite.
- JsonFormatter.BuildJsonData: its contract states only the id. Its content routing is stated by `JsonFormatter.BuildJsonDataRoutes`, and the rest by the contracts of the steps it composes.
- JsonFormatter.BuildChildJsonData: its contract states only the id. Its content is stated by `JsonFormatter.ChildContent` and by the step contracts.
- RichMetadata.JsonLdFields: it promises membership of the entries, and `RichMetadata.JsonLdLookup` what each key holds, not their positions after `@type`.
- JsonFormatter.ProjectProductName: for a name with spaces, it promises only that the result is one space-free word or the project itself, not which word.
