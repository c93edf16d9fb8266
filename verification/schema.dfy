/**
 Pieces of the v2 frontmatter schema that the Sphinx extensions share: the
 persona-to-audience table, the "v2 nested field, else legacy flat key"
 lookup, and the v2 keys as an enumeration with records keyed by them.
 */
module Schema {
  import opened Values
  import opened Emission

  /** The four-entry table mapping a legacy persona token to an audience name;
      any other value passes through unchanged. */
  function AudienceName(p: Value): (r: Value)
    ensures !p.Str? ==> r == p
    ensures p == Str("data-scientist-focused") ==> r == Str("Data Scientist")
    ensures p == Str("mle-focused") ==> r == Str("Machine Learning Engineer")
    ensures p == Str("admin-focused") ==> r == Str("Cluster Administrator")
    ensures p == Str("devops-focused") ==> r == Str("DevOps Professional")
    ensures p.Str? && p.s !in {"data-scientist-focused", "mle-focused", "admin-focused", "devops-focused"} ==> r == p
  {
    if !p.Str? then p
    else if p.s == "data-scientist-focused" then Str("Data Scientist")
    else if p.s == "mle-focused" then Str("Machine Learning Engineer")
    else if p.s == "admin-focused" then Str("Cluster Administrator")
    else if p.s == "devops-focused" then Str("DevOps Professional")
    else p
  }

  /** Mapping an audience name again changes nothing: the table's outputs are not its keys. */
  lemma AudienceNameIdempotent(p: Value)
    ensures AudienceName(AudienceName(p)) == AudienceName(p)
  {
  }

  /** A value Python can use as a dict key: lists and dicts are unhashable,
      so `audience_map.get(p, p)` raises on them. */
  predicate Hashable(v: Value) {
    !v.List? && !v.Obj?
  }

  /** Legacy `personas` the audience table can be applied to: a list whose
      items are all hashable, or any other value (which is wrapped, not mapped). */
  predicate MappablePersonas(p: Value) {
    p.List? ==> forall i :: 0 <= i < |p.items| ==> Hashable(p.items[i])
  }

  /** `[audience_map.get(p, p) for p in personas]`. */
  function MapAudience(ps: seq<Value>): (r: seq<Value>)
    ensures |r| == |ps|
    ensures forall i :: 0 <= i < |ps| ==> r[i] == AudienceName(ps[i])
  {
    seq(|ps|, i requires 0 <= i < |ps| => AudienceName(ps[i]))
  }

  /** The audience derived from legacy `personas`: a list maps element-wise
      through the audience table, any other value becomes an unmapped singleton. */
  function AudienceFromPersonas(p: Value): (r: Value)
    ensures r.List?
    ensures p.List? ==> |r.items| == |p.items| && forall i :: 0 <= i < |p.items| ==> r.items[i] == AudienceName(p.items[i])
    ensures !p.List? ==> r.items == [p]
  {
    if p.List? then List(MapAudience(p.items)) else List([p])
  }

  /** `get_nested_value(m, group, sub) or m.get(legacy)`: the v2 field when it is
      truthy, else the legacy key's value (Null when absent). */
  function V2OrLegacy(m: Fields, group: string, sub: string, legacy: string): (r: Value)
    ensures Truthy(At2(m, group, sub)) ==> r == At2(m, group, sub)
    ensures !Truthy(At2(m, group, sub)) ==> r == Get(m, legacy)
  {
    Or(At2(m, group, sub), Get(m, legacy))
  }

  // ---------------------------------------------------------------------------
  // The v2 keys, and records keyed by them
  // ---------------------------------------------------------------------------

  /** The v2 frontmatter keys: the top-level ones and those of the nested
      `content` and `facets` mappings. */
  datatype Field =
    | FTitle | FDescription | FSocial | FTags | FTopics | FContent | FFacets
    | FDates | FStatus | FOnly | FCascade
    | FType | FDifficulty | FAudience | FModality

  function Name(f: Field): string {
    match f
    case FTitle => "title"
    case FDescription => "description"
    case FSocial => "social"
    case FTags => "tags"
    case FTopics => "topics"
    case FContent => "content"
    case FFacets => "facets"
    case FDates => "dates"
    case FStatus => "status"
    case FOnly => "only"
    case FCascade => "cascade"
    case FType => "type"
    case FDifficulty => "difficulty"
    case FAudience => "audience"
    case FModality => "modality"
  }

  lemma NameInjective(a: Field, b: Field)
    ensures Name(a) == Name(b) ==> a == b
  {
  }

  /** The legacy flat keys are not among the top-level output keys. */
  lemma LegacyNotTopLevel(f: Field)
    requires TopLevel(f)
    ensures Name(f) !in {"content_type", "difficulty", "personas", "categories", "modality"}
  {
  }

  /** The order in which the `content` mapping's keys are written. */
  const ContentOrder: seq<Field> := [FType, FDifficulty, FAudience]

  /** A top-level key, as opposed to a key of the nested mappings. */
  predicate TopLevel(f: Field) {
    !f.FType? && !f.FDifficulty? && !f.FAudience? && !f.FModality?
  }


  /** A record with `Field` keys as a mapping keyed by their names. */
  function ToFields(es: seq<(Field, Value)>): (r: Fields)
    ensures |r| == |es|
    ensures forall i :: 0 <= i < |es| ==> r[i] == (Name(es[i].0), es[i].1)
  {
    seq(|es|, i requires 0 <= i < |es| => (Name(es[i].0), es[i].1))
  }

  /** Looking a name up in the mapping is looking its field up in the record. */
  lemma {:induction false} LookupName(es: seq<(Field, Value)>, f: Field)
    ensures Lookup(ToFields(es), Name(f)) == Find(es, f)
  {
    if |es| > 0 {
      NameInjective(es[0].0, f);
      LookupName(es[1..], f);
      assert ToFields(es)[1..] == ToFields(es[1..]);
    }
  }

  /** A string that names no field is not a key of the mapping. */
  lemma {:induction false} LookupOther(es: seq<(Field, Value)>, k: string)
    requires forall f: Field :: Name(f) != k
    ensures Lookup(ToFields(es), k) == None
  {
    if |es| > 0 {
      LookupOther(es[1..], k);
      assert ToFields(es)[1..] == ToFields(es[1..]);
    }
  }

  /** The mapping a builder visiting `ks` produces. */
  function Record(ks: seq<Field>, g: Field -> Option<Value>): Fields {
    ToFields(Build(ks, g))
  }

  /** What a record holds under a field's name: what the builder decided for
      a visited field, nothing for any other. */
  lemma RecordLookup(ks: seq<Field>, g: Field -> Option<Value>, f: Field)
    requires Unique(ks)
    ensures Lookup(Record(ks, g), Name(f)) == if f in ks then g(f) else None
  {
    LookupName(Build(ks, g), f);
    BuildFind(ks, g, f);
  }

  /** An empty record means the builder emitted nothing. */
  lemma RecordEmpty(ks: seq<Field>, g: Field -> Option<Value>, f: Field)
    requires Unique(ks) && f in ks && |Record(ks, g)| == 0
    ensures g(f) == None
  {
    RecordLookup(ks, g, f);
  }
}
