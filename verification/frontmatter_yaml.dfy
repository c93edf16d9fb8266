/**
 The hand-written YAML emitter of the schema-migration script
 (`frontmatter_to_yaml` and its helpers): keys in a fixed order, lists as
 inline `[a, b]` arrays, one level of nested mappings, and scalars quoted
 when they hold a YAML indicator. Quoting wraps a string in double quotes
 without escaping anything; `Unquote` is the matching naive reader.
 */
module FrontmatterYaml {
  import opened Text
  import opened Values

  // ---------------------------------------------------------------------------
  // Quoting
  // ---------------------------------------------------------------------------

  /** `f'"{s}"'`: the string in double quotes, nothing escaped. */
  function Quoted(s: string): (r: string)
    ensures |r| == |s| + 2 && r[0] == '"' && r[|r| - 1] == '"' && r[1..|r| - 1] == s
  {
    "\"" + s + "\""
  }

  /** Starts and ends with a double quote. */
  predicate LooksQuoted(s: string) {
    |s| >= 2 && s[0] == '"' && s[|s| - 1] == '"'
  }

  /** The naive reader of `Quoted`: one pair of surrounding quotes is dropped. */
  function Unquote(s: string): (r: string)
    ensures LooksQuoted(s) ==> |r| == |s| - 2
    ensures !LooksQuoted(s) ==> r == s
  {
    if LooksQuoted(s) then s[1..|s| - 1] else s
  }

  lemma UnquoteQuoted(s: string)
    ensures Unquote(Quoted(s)) == s
  {
  }

  /** Some character of `s` is one of `cs` (`any(c in s for c in cs)`). */
  predicate HasAnyOf(s: string, cs: string) {
    exists i :: 0 <= i < |s| && s[i] in cs
  }

  /** The characters that make `format_list_inline` quote an item. */
  const ListSpecials: string := ",[]:#"

  /** The characters that make `json_safe_str` quote a scalar. */
  const ScalarSpecials: string := ":#[]{},&*!|>'\"%@`"

  /** The first characters that make `json_safe_str` quote a scalar. */
  const LeadSpecials: string := "-?: "

  // ---------------------------------------------------------------------------
  // format_list_inline (scripts/transform_frontmatter.py, lines 226-238)
  // ---------------------------------------------------------------------------

  /** One item of an inline list: a string is quoted when it holds one of
      `, [ ] : #`; any other value is written as Python's `str` of it. */
  function FormatItem(v: Value): (r: string)
    ensures v.Str? && !HasAnyOf(v.s, ListSpecials) ==> r == v.s
    ensures v.Str? && HasAnyOf(v.s, ListSpecials) ==> r == Quoted(v.s)
  {
    if v.Str? then (if HasAnyOf(v.s, ListSpecials) then Quoted(v.s) else v.s)
    else PyStr(v)
  }

  function FormatItems(xs: seq<Value>): (r: seq<string>)
    ensures |r| == |xs| && forall i :: 0 <= i < |xs| ==> r[i] == FormatItem(xs[i])
  {
    seq(|xs|, i requires 0 <= i < |xs| => FormatItem(xs[i]))
  }

  /** `format_list_inline`: `[` + the items joined by `, ` + `]`. */
  function FormatListInline(xs: seq<Value>): (r: string)
    ensures |r| >= 2 && r[0] == '[' && r[|r| - 1] == ']'
    ensures r[1..|r| - 1] == Join(FormatItems(xs), ", ")
  {
    "[" + Join(FormatItems(xs), ", ") + "]"
  }

  /** Reads an inline list back the simple way: drop the brackets, split at
      the commas, drop the space after each comma, unquote each piece. */
  function ReadInline(r: string): (items: seq<string>)
    requires |r| >= 2
  {
    var inner := r[1..|r| - 1];
    if inner == "" then []
    else
      var ps := Split(inner, ',');
      seq(|ps|, i requires 0 <= i < |ps| => Unquote(if i > 0 && |ps[i]| > 0 && ps[i][0] == ' ' then ps[i][1..] else ps[i]))
  }

  /** The pieces of a `", "`-joined text when it is split at the commas: every
      piece but the first keeps the space. */
  function Respace(zs: seq<string>): (r: seq<string>)
    ensures |r| == |zs|
  {
    seq(|zs|, i requires 0 <= i < |zs| => if i == 0 then zs[i] else " " + zs[i])
  }

  /** A prefix glued onto a joined text sticks to the first piece. */
  lemma PrefixJoin(p: string, ws: seq<string>, sep: string)
    requires |ws| >= 1
    ensures p + Join(ws, sep) == Join([p + ws[0]] + ws[1..], sep)
  {
    var vs := [p + ws[0]] + ws[1..];
    assert vs[1..] == ws[1..];
  }

  /** Joining with `", "` is joining the respaced pieces with `","`. */
  lemma {:induction false} JoinRespace(zs: seq<string>)
    requires |zs| >= 1
    ensures Join(zs, ", ") == Join(Respace(zs), [','])
  {
    if |zs| >= 2 {
      var tail := zs[1..];
      JoinRespace(tail);
      PrefixJoin(" ", Respace(tail), [',']);
      assert [" " + Respace(tail)[0]] + Respace(tail)[1..] == Respace(zs)[1..];
      assert Join(zs, ", ") == zs[0] + [','] + (" " + Join(tail, ", "));
    }
  }

  /** The items the reader can take back: non-empty strings without a comma
      that do not already look quoted. */
  predicate PlainItems(xs: seq<Value>) {
    forall i :: 0 <= i < |xs| ==> xs[i].Str? && |xs[i].s| > 0 && ',' !in xs[i].s && !LooksQuoted(xs[i].s)
  }

  /** Inside the brackets, splitting at the commas gives the respaced items. */
  lemma InlinePieces(xs: seq<Value>)
    requires PlainItems(xs) && |xs| > 0
    ensures var r := FormatListInline(xs);
            r[1..|r| - 1] != "" && Split(r[1..|r| - 1], ',') == Respace(FormatItems(xs))
  {
    var ys := FormatItems(xs);
    var r := FormatListInline(xs);
    JoinRespace(ys);
    var zs := Respace(ys);
    forall i | 0 <= i < |zs| ensures ',' !in zs[i] {
      assert ',' !in ys[i];
    }
    SplitJoin(zs, ',');
    var inner := r[1..|r| - 1];
    if |xs| == 1 {
      assert inner == ys[0];
    } else {
      assert |inner| >= |zs[0]| + 1;
    }
  }

  /** Each respaced piece reads back as its item. */
  lemma PieceReads(xs: seq<Value>, i: int)
    requires PlainItems(xs) && 0 <= i < |xs|
    ensures var p := Respace(FormatItems(xs))[i];
            Unquote(if i > 0 && |p| > 0 && p[0] == ' ' then p[1..] else p) == xs[i].s
  {
    var ys := FormatItems(xs);
    if i > 0 {
      assert Respace(ys)[i][1..] == ys[i];
    }
    UnquoteQuoted(xs[i].s);
  }

  /** Inline lists of strings read back: when no item holds a comma, is empty
      or already looks quoted, the simple reader recovers the items. */
  lemma FormatListInlineReads(xs: seq<Value>)
    requires PlainItems(xs)
    ensures AllStrings(xs) && ReadInline(FormatListInline(xs)) == Strings(xs)
  {
    if |xs| > 0 {
      InlinePieces(xs);
      forall i | 0 <= i < |xs| ensures ReadInline(FormatListInline(xs))[i] == xs[i].s {
        PieceReads(xs, i);
      }
    }
  }

  // ---------------------------------------------------------------------------
  // json_safe_str (scripts/transform_frontmatter.py, lines 297-307) and scalar values
  // ---------------------------------------------------------------------------

  /** A scalar `json_safe_str` wraps in quotes: one holding a YAML indicator,
      or starting with `-`, `?`, `:` or a space. */
  predicate NeedsQuoting(s: string) {
    HasAnyOf(s, ScalarSpecials) || (|s| > 0 && s[0] in LeadSpecials)
  }

  /** `json_safe_str` as an f-string inserts it: a string is quoted when it
      needs it; any other value is written as Python's `str` of it. */
  function JsonSafeStr(v: Value): (r: string)
    ensures v.Str? ==> (r == Quoted(v.s) <==> NeedsQuoting(v.s))
  {
    if v.Str? && NeedsQuoting(v.s) then Quoted(v.s) else PyStr(v)
  }

  /** Every string reads back through `Unquote`: a string that looks quoted
      holds a `"` and so is quoted once more. */
  lemma JsonSafeStrReads(s: string)
    ensures Unquote(JsonSafeStr(Str(s))) == s
  {
    if LooksQuoted(s) {
      assert s[0] in ScalarSpecials;
    }
  }

  /** A string written bare holds no indicator and does not start with one. */
  lemma JsonSafeStrBare(s: string)
    requires JsonSafeStr(Str(s)) == s
    ensures forall i :: 0 <= i < |s| ==> s[i] !in ScalarSpecials
    ensures |s| > 0 ==> s[0] !in LeadSpecials
  {
  }

  /** A top-level scalar: a string holding a newline or longer than 80
      characters is quoted as it is, anything else goes through
      `json_safe_str`. */
  function ScalarText(v: Value): (r: string) {
    if v.Str? && ('\n' in v.s || |v.s| > 80) then Quoted(v.s) else JsonSafeStr(v)
  }

  /** Every top-level string value reads back through `Unquote`. */
  lemma ScalarTextReads(s: string)
    ensures Unquote(ScalarText(Str(s))) == s
  {
    if '\n' in s || |s| > 80 {
      UnquoteQuoted(s);
    } else {
      JsonSafeStrReads(s);
    }
  }

  // ---------------------------------------------------------------------------
  // frontmatter_to_yaml (scripts/transform_frontmatter.py, lines 241-294)
  // ---------------------------------------------------------------------------

  /** `field_order`: the keys written first, in this order. */
  const FieldOrder: seq<string> := ["title", "description", "social", "topics", "tags", "content", "facets", "status", "dates", "only"]

  /** No key occurs twice in `order`. */
  predicate Distinct(order: seq<string>) {
    forall i, j :: 0 <= i < j < |order| ==> order[i] != order[j]
  }

  lemma FieldOrderDistinct()
    ensures Distinct(FieldOrder)
  {
  }

  /** The keys of `order` that `fm` has, in the order of `order`. */
  function Front(fm: Fields, order: seq<string>): (r: Fields)
    ensures forall i :: 0 <= i < |r| ==> r[i].0 in order
  {
    if |order| == 0 then []
    else Entry(order[0], Lookup(fm, order[0])) + Front(fm, order[1..])
  }

  /** The entries of `fm` whose keys are not in `order`, in their order. */
  function Rest(fm: Fields, order: seq<string>): (r: Fields)
    ensures forall i :: 0 <= i < |r| ==> r[i].0 !in order && r[i] in fm
  {
    if |fm| == 0 then []
    else (if fm[0].0 in order then [] else [fm[0]]) + Rest(fm[1..], order)
  }

  /** `x` occurs in `fm` before `y` does. */
  predicate InOrderIn(fm: Fields, x: (string, Value), y: (string, Value)) {
    exists a, b :: 0 <= a < b < |fm| && fm[a] == x && fm[b] == y
  }

  /** Where the `i`-th entry of the rest sits in `fm`. */
  function RestPos(fm: Fields, order: seq<string>, i: nat): (p: nat)
    requires i < |Rest(fm, order)|
    ensures p < |fm| && fm[p] == Rest(fm, order)[i]
    decreases |fm|
  {
    var h := if fm[0].0 in order then 0 else 1;
    if i < h then 0 else 1 + RestPos(fm[1..], order, i - h)
  }

  /** Later entries of the rest come from later positions of `fm`. */
  lemma {:induction false} RestPosIncreasing(fm: Fields, order: seq<string>, i: nat, j: nat)
    requires i < j < |Rest(fm, order)|
    ensures RestPos(fm, order, i) < RestPos(fm, order, j)
    decreases |fm|
  {
    var h := if fm[0].0 in order then 0 else 1;
    if i >= h {
      RestPosIncreasing(fm[1..], order, i - h, j - h);
    }
  }

  /** The rest keeps the input's order: any two of its entries occur in `fm`
      in the same order. */
  lemma RestKeepsOrder(fm: Fields, order: seq<string>)
    ensures var t := Rest(fm, order);
            forall i, j :: 0 <= i < j < |t| ==> InOrderIn(fm, t[i], t[j])
  {
    var t := Rest(fm, order);
    forall i, j | 0 <= i < j < |t| ensures InOrderIn(fm, t[i], t[j]) {
      RestPosIncreasing(fm, order, i, j);
      var a, b := RestPos(fm, order, i), RestPos(fm, order, j);
      assert fm[a] == t[i] && fm[b] == t[j];
    }
  }

  /** Every entry of `fm` whose key is not in `order` is kept in the rest. */
  lemma {:induction false} RestComplete(fm: Fields, order: seq<string>)
    ensures forall a :: 0 <= a < |fm| && fm[a].0 !in order ==> fm[a] in Rest(fm, order)
    decreases |fm|
  {
    if |fm| > 0 {
      RestComplete(fm[1..], order);
      var head: Fields := if fm[0].0 in order then [] else [fm[0]];
      assert Rest(fm, order) == head + Rest(fm[1..], order);
      forall a | 0 < a < |fm| && fm[a].0 !in order ensures fm[a] in Rest(fm, order) {
        assert fm[a] == fm[1..][a - 1];
      }
    }
  }

  /** The `ordered` mapping: the keys of `FieldOrder` first, then the rest. */
  function Ordered(fm: Fields): Fields {
    Front(fm, FieldOrder) + Rest(fm, FieldOrder)
  }

  lemma {:induction false} FrontLookup(fm: Fields, order: seq<string>, k: string)
    ensures Lookup(Front(fm, order), k) == if k in order then Lookup(fm, k) else None
  {
    if |order| > 0 {
      FrontLookup(fm, order[1..], k);
      LookupAppend(Entry(order[0], Lookup(fm, order[0])), Front(fm, order[1..]), k);
    }
  }

  lemma {:induction false} RestLookup(fm: Fields, order: seq<string>, k: string)
    ensures Lookup(Rest(fm, order), k) == if k in order then None else Lookup(fm, k)
  {
    if |fm| > 0 {
      RestLookup(fm[1..], order, k);
      var head: Fields := if fm[0].0 in order then [] else [fm[0]];
      LookupAppend(head, Rest(fm[1..], order), k);
    }
  }

  /** Reordering keeps the mapping: every key reads the same value. */
  lemma OrderedLookup(fm: Fields, k: string)
    ensures Lookup(Ordered(fm), k) == Lookup(fm, k)
  {
    FrontLookup(fm, FieldOrder, k);
    RestLookup(fm, FieldOrder, k);
    LookupAppend(Front(fm, FieldOrder), Rest(fm, FieldOrder), k);
  }

  /** The position of `k` in `order`. */
  function IndexIn(order: seq<string>, k: string): nat
    requires k in order
  {
    if order[0] == k then 0 else 1 + IndexIn(order[1..], k)
  }

  /** `IndexIn` finds `k`. */
  lemma {:induction false} IndexInFinds(order: seq<string>, k: string)
    requires k in order
    ensures IndexIn(order, k) < |order| && order[IndexIn(order, k)] == k
  {
    if order[0] != k {
      IndexInFinds(order[1..], k);
    }
  }

  /** In a list without repeats, a key after the first sits one place
      further than in the tail. */
  lemma IndexInTail(order: seq<string>, k: string)
    requires Distinct(order) && |order| >= 1 && k in order[1..]
    ensures k != order[0] && IndexIn(order, k) == 1 + IndexIn(order[1..], k)
  {
    IndexInFinds(order[1..], k);
    var m := IndexIn(order[1..], k);
    assert order[1 + m] == k;
  }

  lemma IndexInHead(order: seq<string>)
    requires |order| > 0
    ensures IndexIn(order, order[0]) == 0
  {
  }

  /** Keys of `order` come out in the order of `order`. */
  lemma {:induction false} FrontOrdered(fm: Fields, order: seq<string>)
    requires Distinct(order)
    ensures forall i, j :: 0 <= i < j < |Front(fm, order)| ==>
              IndexIn(order, Front(fm, order)[i].0) < IndexIn(order, Front(fm, order)[j].0)
  {
    if |order| > 0 {
      var t := Front(fm, order[1..]);
      assert Distinct(order[1..]);
      FrontOrdered(fm, order[1..]);
      ShiftOrdered(order, t);
      var v := Lookup(fm, order[0]);
      if v.Some? {
        assert Front(fm, order) == [(order[0], v.value)] + t;
        HeadOrdered(order, (order[0], v.value), t);
      } else {
        assert Front(fm, order) == t;
      }
    }
  }

  /** Keys taken from the tail of `order` keep their relative order in
      `order` and all come after its head. */
  lemma ShiftOrdered(order: seq<string>, t: Fields)
    requires Distinct(order) && |order| > 0
    requires forall i :: 0 <= i < |t| ==> t[i].0 in order[1..]
    requires forall a, b :: 0 <= a < b < |t| ==> IndexIn(order[1..], t[a].0) < IndexIn(order[1..], t[b].0)
    ensures forall a :: 0 <= a < |t| ==> t[a].0 in order && 0 < IndexIn(order, t[a].0)
    ensures forall a, b :: 0 <= a < b < |t| ==> IndexIn(order, t[a].0) < IndexIn(order, t[b].0)
  {
    hide IndexIn, Distinct;
    forall a | 0 <= a < |t| ensures t[a].0 in order && 0 < IndexIn(order, t[a].0) {
      IndexInTail(order, t[a].0);
    }
    forall a, b | 0 <= a < b < |t| ensures IndexIn(order, t[a].0) < IndexIn(order, t[b].0) {
      IndexInTail(order, t[a].0);
      IndexInTail(order, t[b].0);
    }
  }

  /** The head of `order` in front of later keys keeps the order. */
  lemma HeadOrdered(order: seq<string>, h: (string, Value), t: Fields)
    requires |order| > 0 && h.0 == order[0]
    requires forall a :: 0 <= a < |t| ==> t[a].0 in order && 0 < IndexIn(order, t[a].0)
    requires forall a, b :: 0 <= a < b < |t| ==> IndexIn(order, t[a].0) < IndexIn(order, t[b].0)
    ensures forall i, j :: 0 <= i < j < |[h] + t| ==> IndexIn(order, ([h] + t)[i].0) < IndexIn(order, ([h] + t)[j].0)
  {
    hide IndexIn;
    var r := [h] + t;
    forall j | 0 < j < |r| ensures IndexIn(order, r[0].0) < IndexIn(order, r[j].0) {
      var b := j - 1;
      assert r[j] == t[b];
      assert r[0] == h;
      IndexInHead(order);
    }
    forall i, j | 0 < i < j < |r| ensures IndexIn(order, r[i].0) < IndexIn(order, r[j].0) {
      var a, b := i - 1, j - 1;
      assert r[i] == t[a] && r[j] == t[b];
      assert IndexIn(order, t[a].0) < IndexIn(order, t[b].0);
    }
  }

  /** Keys of `order` come out once each. */
  lemma FrontUnique(fm: Fields, order: seq<string>)
    requires Distinct(order)
    ensures UniqueKeys(Front(fm, order))
  {
    var r := Front(fm, order);
    FrontOrdered(fm, order);
    forall i, j | 0 <= i < j < |r| ensures r[i].0 != r[j].0 {
      assert IndexIn(order, r[i].0) < IndexIn(order, r[j].0);
    }
  }

  /** The rest keeps the keys unique when the input has unique keys. */
  lemma {:induction false} RestUnique(fm: Fields, order: seq<string>)
    requires UniqueKeys(fm)
    ensures UniqueKeys(Rest(fm, order))
  {
    if |fm| > 0 {
      var t := Rest(fm[1..], order);
      RestUnique(fm[1..], order);
      forall i | 0 <= i < |t| ensures t[i].0 != fm[0].0 {
        var j :| 0 <= j < |fm[1..]| && fm[1..][j] == t[i];
        assert fm[1 + j] == t[i];
      }
    }
  }

  /** `frontmatter_to_yaml` writes each key once and keeps its value. */
  lemma OrderedUnique(fm: Fields)
    requires UniqueKeys(fm)
    ensures UniqueKeys(Ordered(fm))
    ensures forall k :: Lookup(Ordered(fm), k) == Lookup(fm, k)
  {
    var f := Front(fm, FieldOrder);
    var t := Rest(fm, FieldOrder);
    FieldOrderDistinct();
    FrontUnique(fm, FieldOrder);
    RestUnique(fm, FieldOrder);
    UniqueAppend(f, t);
    forall k ensures Lookup(Ordered(fm), k) == Lookup(fm, k) {
      OrderedLookup(fm, k);
    }
  }

  /** Two entries of `ordered` past the `field_order` block come from `fm`
      in the same order. */
  lemma OrderedTailPair(fm: Fields, i: nat, j: nat)
    requires i < j < |Ordered(fm)| && Ordered(fm)[i].0 !in FieldOrder
    ensures InOrderIn(fm, Ordered(fm)[i], Ordered(fm)[j])
  {
    hide Front, Rest, RestPos;
    var f := Front(fm, FieldOrder);
    var t := Rest(fm, FieldOrder);
    var r := Ordered(fm);
    assert r == f + t;
    assert r[i] == t[i - |f|] && r[j] == t[j - |f|];
    RestPosIncreasing(fm, FieldOrder, i - |f|, j - |f|);
    var a, b := RestPos(fm, FieldOrder, i - |f|), RestPos(fm, FieldOrder, j - |f|);
    assert fm[a] == r[i] && fm[b] == r[j];
  }

  /** The keys of `field_order` come first, in that order; the others after,
      in the order the input has them. */
  lemma OrderedPrecedence(fm: Fields)
    ensures var r := Ordered(fm);
            forall i, j :: 0 <= i < j < |r| && r[j].0 in FieldOrder ==>
              r[i].0 in FieldOrder && IndexIn(FieldOrder, r[i].0) < IndexIn(FieldOrder, r[j].0)
    ensures var r := Ordered(fm);
            forall i, j :: 0 <= i < j < |r| && r[i].0 !in FieldOrder ==> InOrderIn(fm, r[i], r[j])
  {
    var f := Front(fm, FieldOrder);
    var t := Rest(fm, FieldOrder);
    var r := f + t;
    FieldOrderDistinct();
    FrontOrdered(fm, FieldOrder);
    forall k | |f| <= k < |r| ensures r[k].0 !in FieldOrder {
      assert r[k] == t[k - |f|];
    }
    forall i, j | 0 <= i < j < |r| && r[i].0 !in FieldOrder
      ensures InOrderIn(fm, r[i], r[j])
    {
      OrderedTailPair(fm, i, j);
    }
    forall i, j | 0 <= i < j < |r| && r[j].0 in FieldOrder
      ensures r[i].0 in FieldOrder && IndexIn(FieldOrder, r[i].0) < IndexIn(FieldOrder, r[j].0)
    {
      assert j < |f|;
      assert r[i] == f[i] && r[j] == f[j];
    }
  }

  /** One line of a nested mapping: a list inline, anything else as Python's
      `str` of it, unquoted. */
  function SubLine(k: string, v: Value): (r: string)
    ensures StartsWith(r, "  " + k + ": ")
  {
    "  " + k + ": " + (if v.List? then FormatListInline(v.items) else PyStr(v))
  }

  /** The lines written for one key: a mapping as `key:` followed by one
      indented line per entry, a list inline, a scalar on the key's line. */
  function EntryLines(k: string, v: Value): (r: seq<string>)
    ensures |r| >= 1 && StartsWith(r[0], k + ":")
    ensures v.Obj? ==> |r| == 1 + |v.fields| && forall i :: 1 <= i < |r| ==> StartsWith(r[i], "  ")
    ensures !v.Obj? ==> |r| == 1
  {
    match v
    case Obj(fs) => [k + ":"] + seq(|fs|, i requires 0 <= i < |fs| => SubLine(fs[i].0, fs[i].1))
    case List(xs) => [k + ": " + FormatListInline(xs)]
    case _ => [k + ": " + ScalarText(v)]
  }

  /** The lines of every entry, in order. */
  function AllLines(m: Fields): (r: seq<string>)
    ensures |r| >= |m|
  {
    if |m| == 0 then [] else EntryLines(m[0].0, m[0].1) + AllLines(m[1..])
  }

  /** `frontmatter_to_yaml`: the ordered entries' lines joined by newlines. */
  function ToYaml(fm: Fields): string {
    Join(AllLines(Ordered(fm)), "\n")
  }

  /** A single known key is written as it is: `field_order` places it and
      nothing else. */
  lemma {:induction false} FrontSingle(k: string, v: Value, order: seq<string>)
    requires Distinct(order)
    ensures Front([(k, v)], order) == if k in order then [(k, v)] else []
  {
    if |order| > 0 {
      assert Distinct(order[1..]) by {
        forall i, j | 0 <= i < j < |order[1..]|
          ensures order[1..][i] != order[1..][j]
        {
          assert order[1..][i] == order[i + 1] && order[1..][j] == order[j + 1];
        }
      }
      FrontSingle(k, v, order[1..]);
      if order[0] == k {
        assert k !in order[1..] by {
          forall i | 0 <= i < |order[1..]| ensures order[1..][i] != k {
            assert order[1..][i] == order[i + 1];
          }
        }
      } else {
        assert Lookup([(k, v)], order[0]) == None;
        assert (k in order) == (k in order[1..]) by {
          assert order == [order[0]] + order[1..];
        }
      }
    }
  }

  lemma OrderedSingle(k: string, v: Value)
    requires k in FieldOrder
    ensures Ordered([(k, v)]) == [(k, v)]
  {
    FieldOrderDistinct();
    FrontSingle(k, v, FieldOrder);
    assert Rest([(k, v)], FieldOrder) == [];
  }

  /** The YAML of a single known key is that key's lines. */
  lemma ToYamlSingle(k: string, v: Value)
    requires k in FieldOrder
    ensures ToYaml([(k, v)]) == Join(EntryLines(k, v), "\n")
  {
    OrderedSingle(k, v);
    assert AllLines([(k, v)]) == EntryLines(k, v) + AllLines([]);
    assert EntryLines(k, v) + AllLines([]) == EntryLines(k, v);
  }

  /** A nested string is written bare after its sub-key, whatever it holds:
      a page title `A: B` gives the line `  page: A: B`, which a YAML reader
      rejects as a second mapping value on one line. */
  lemma NestedStringWrittenBare(k: string, sk: string, s: string)
    requires k in FieldOrder
    ensures ToYaml([(k, Obj([(sk, Str(s))]))]) == k + ":" + "\n" + ("  " + sk + ": " + s)
  {
    hide ToYaml, Ordered, AllLines, Front, Rest;
    var v := Obj([(sk, Str(s))]);
    ToYamlSingle(k, v);
    var line := "  " + sk + ": " + s;
    assert SubLine(sk, Str(s)) == line;
    var lines := EntryLines(k, v);
    assert lines == [k + ":", line] by {
      assert |lines| == 2 && lines[0] == k + ":" && lines[1] == SubLine(sk, Str(s));
    }
    assert lines[1..] == [line];
  }

  /** A string with a line break is written inside double quotes with the
      break kept as is, so a YAML reader folds the break into a space. */
  lemma MultiLineWrittenQuoted(k: string, s: string)
    requires k in FieldOrder && '\n' in s
    ensures ToYaml([(k, Str(s))]) == k + ": " + Quoted(s)
  {
    hide ToYaml, Ordered, AllLines, Front, Rest, JsonSafeStr;
    ToYamlSingle(k, Str(s));
    assert ScalarText(Str(s)) == Quoted(s);
    assert EntryLines(k, Str(s)) == [k + ": " + Quoted(s)];
  }

  /** When no value spreads over several lines, splitting the YAML text at
      its newlines gives back the lines written, one block per key. */
  lemma ToYamlLines(fm: Fields)
    requires |fm| > 0
    requires forall i :: 0 <= i < |AllLines(Ordered(fm))| ==> '\n' !in AllLines(Ordered(fm))[i]
    ensures Split(ToYaml(fm), '\n') == AllLines(Ordered(fm))
  {
    var k := fm[0].0;
    OrderedLookup(fm, k);
    assert |Ordered(fm)| > 0;
    SplitJoin(AllLines(Ordered(fm)), '\n');
  }
}
