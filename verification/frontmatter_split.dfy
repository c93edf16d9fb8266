/**
 The frontmatter splitter of the schema-migration script
 (`extract_frontmatter`): a file that starts with `---` is cut at the first
 closing delimiter into the raw YAML text and the body. Closers glued to the
 following text (`---(` or `---#`, which earlier rewrites left behind) are
 looked for before the well-formed `---` line, so a horizontal rule in the
 body is not mistaken for the closer. The YAML parser is a parameter.
 */
module FrontmatterSplit {
  import opened Text
  import opened Values

  /** The three closing delimiters, in the order they are tried. */
  datatype Closer =
    | Paren   // "\n---" directly followed by "("
    | Glued   // "\n---" directly followed by "#" or a word character
    | Proper  // the line "\n---\n"

  /** A closer of kind `k` starts at index `i` (its leading newline). */
  predicate CloserAt(c: string, k: Closer, i: int) {
    match k
    case Paren => OccursAt(c, "\n---(", i)
    case Glued => OccursAt(c, "\n---", i) && i + 4 < |c| && (c[i + 4] == '#' || IsWordChar(c[i + 4]))
    case Proper => OccursAt(c, "\n---\n", i)
  }

  /** The characters a closer of kind `k` consumes: the glued kinds keep the
      character after the dashes in the body. */
  function CloserText(k: Closer): (r: string)
    ensures |r| == if k.Proper? then 5 else 4
  {
    if k.Proper? then "\n---\n" else "\n---"
  }

  /** A closer's text is what the file holds where the closer starts. */
  lemma CloserTextAt(c: string, k: Closer, i: int)
    requires CloserAt(c, k, i)
    ensures 0 <= i && i + |CloserText(k)| <= |c| && c[i..i + |CloserText(k)|] == CloserText(k)
  {
    if k.Paren? {
      assert c[i..i + 4] == c[i..i + 5][..4];
    }
  }

  /** The first index from `from` on where a closer of kind `k` starts
      (`re.search` on the text from that index). */
  function First(c: string, k: Closer, from: nat): (r: Option<nat>)
    ensures r.Some? ==> from <= r.value && CloserAt(c, k, r.value)
    ensures r.Some? ==> forall j :: from <= j < r.value ==> !CloserAt(c, k, j)
    ensures r.None? ==> forall j :: from <= j ==> !CloserAt(c, k, j)
    decreases |c| - from
  {
    if from >= |c| then None
    else if CloserAt(c, k, from) then Some(from)
    else First(c, k, from + 1)
  }

  /** Where a file was cut: the raw YAML text, the body, the kind of closer
      and the index of its leading newline. */
  datatype Cut = NoFrontmatter | Cut(raw: string, body: string, closer: Closer, at: nat)

  /** The cut at a closer of kind `k` at index `e`: the raw text is
      `content[4:e]` (empty when the closer starts at index 3), the body
      starts after the closer's text. */
  function CutAt(c: string, k: Closer, e: nat): (r: Cut)
    requires CloserAt(c, k, e)
    ensures r.Cut? && r.closer == k && r.at == e
  {
    Cut(Slice(c, 4, e), c[e + |CloserText(k)|..], k, e)
  }

  /** The delimiter search of `extract_frontmatter` (lines 74-100 of `scripts/transform_frontmatter.py`): a
      `---(` closer anywhere wins, then a `---#`/`---word` closer, then the
      first well-formed one; every search starts at index 3. */
  function CutFrontmatter(c: string): (r: Cut)
    ensures !StartsWith(c, "---") ==> r.NoFrontmatter?
    ensures r.Cut? ==> 3 <= r.at && CloserAt(c, r.closer, r.at)
  {
    if !StartsWith(c, "---") then NoFrontmatter
    else match First(c, Paren, 3)
      case Some(e) => CutAt(c, Paren, e)
      case None =>
        match First(c, Glued, 3)
        case Some(e) => CutAt(c, Glued, e)
        case None =>
          match First(c, Proper, 3)
          case Some(e) => CutAt(c, Proper, e)
          case None => NoFrontmatter
  }

  /** The kinds tried before `k`. */
  predicate TriedBefore(a: Closer, k: Closer) {
    (a.Paren? && !k.Paren?) || (a.Glued? && k.Proper?)
  }

  /** The cut is at the first closer of its kind, and no closer of a kind
      tried earlier occurs anywhere from index 3 on: a `---(` closer wins even
      over an earlier well-formed one. The file has no frontmatter exactly
      when it does not start with `---` or has no closer at all. */
  lemma CutPriority(c: string)
    ensures var r := CutFrontmatter(c);
            && (r.Cut? ==> forall j :: 3 <= j < r.at ==> !CloserAt(c, r.closer, j))
            && (r.Cut? ==> forall a, j :: TriedBefore(a, r.closer) && 3 <= j ==> !CloserAt(c, a, j))
            && (r.NoFrontmatter? <==> !StartsWith(c, "---") || forall k, j :: 3 <= j ==> !CloserAt(c, k, j))
  {
    var r := CutFrontmatter(c);
    if StartsWith(c, "---") && r.NoFrontmatter? {
      forall k, j | 3 <= j ensures !CloserAt(c, k, j) {
        match k
        case Paren =>
        case Glued =>
        case Proper =>
      }
    }
  }

  /** A `---(` closer from index 3 on always decides the cut, wherever a
      well-formed closer occurs. */
  lemma ParenWins(c: string, i: nat)
    requires StartsWith(c, "---") && 3 <= i && CloserAt(c, Paren, i)
    ensures var r := CutFrontmatter(c); r.Cut? && r.closer == Paren && r.at <= i
  {
  }

  /** Reconstruction: when the closer does not share the opening line's
      newline, the file is the opening line, the raw text, the closer's text
      and the body (lines 84-100 of `extract_frontmatter`). */
  lemma CutReconstructs(c: string)
    requires StartsWith(c, "---\n")
    requires var r := CutFrontmatter(c); r.Cut? && r.at >= 4
    ensures var r := CutFrontmatter(c); c == "---\n" + r.raw + CloserText(r.closer) + r.body
  {
    var r := CutFrontmatter(c);
    var n := |CloserText(r.closer)|;
    CloserTextAt(c, r.closer, r.at);
    assert c == c[..4] + c[4..r.at] + c[r.at..r.at + n] + c[r.at + n..];
  }

  /** When the closer starts on the opening line's newline (`---\n---(`…),
      the raw text is empty and the body follows the dashes. */
  lemma CutSharedNewline(c: string)
    requires var r := CutFrontmatter(c); r.Cut? && r.at == 3
    ensures var r := CutFrontmatter(c); r.raw == "" && c == "---" + CloserText(r.closer) + r.body
  {
    var r := CutFrontmatter(c);
    var n := |CloserText(r.closer)|;
    CloserTextAt(c, r.closer, 3);
    assert c[..3] == "---";
    assert c == c[..3] + c[3..3 + n] + c[3 + n..];
  }

  /** What `extract_frontmatter` returns: the parsed frontmatter (None when
      there is none or the YAML does not parse), the raw text and the body. */
  datatype Extracted = Extracted(frontmatter: Option<Value>, raw: string, body: string)

  /** `extract_frontmatter` with the YAML parser `parse` as a parameter; it
      yields None for a document that does not parse. A document that parses
      to YAML null is returned as `Some(Null)`, which the caller treats like
      no frontmatter. */
  function ExtractFrontmatter(c: string, parse: string -> Option<Value>): (r: Extracted)
    ensures CutFrontmatter(c).NoFrontmatter? ==> r == Extracted(None, "", c)
    ensures CutFrontmatter(c).Cut? ==>
              r.raw == CutFrontmatter(c).raw && r.body == CutFrontmatter(c).body && r.frontmatter == parse(r.raw)
  {
    match CutFrontmatter(c)
    case NoFrontmatter => Extracted(None, "", c)
    case Cut(raw, body, _, _) => Extracted(parse(raw), raw, body)
  }

  /** Content, raw text and body fit back together for a well-formed file;
      a file without frontmatter comes back as its body. */
  lemma ExtractReconstructs(c: string, parse: string -> Option<Value>)
    requires StartsWith(c, "---\n")
    ensures var x := ExtractFrontmatter(c, parse);
            var r := CutFrontmatter(c);
            && (r.NoFrontmatter? ==> x.body == c && x.raw == "")
            && (r.Cut? && r.at >= 4 ==> c == "---\n" + x.raw + CloserText(r.closer) + x.body)
  {
    var r := CutFrontmatter(c);
    if r.Cut? && r.at >= 4 {
      CutReconstructs(c);
    }
  }

  // ---------------------------------------------------------------------------
  // Reading back a file the script wrote
  // ---------------------------------------------------------------------------

  /** The file `process_file` writes: `f"---\n{yaml}\n---\n{body}"`. */
  function Written(raw: string, body: string): (c: string)
    ensures |c| == |raw| + |body| + 9
  {
    "---\n" + raw + "\n---\n" + body
  }

  /** A written file opens with a dash line and ends with the closer line
      and the body. */
  lemma WrittenShape(raw: string, body: string)
    ensures StartsWith(Written(raw, body), "---\n")
    ensures EndsWith(Written(raw, body), "\n---\n" + body)
  {
    var c := Written(raw, body);
    assert c == "---\n" + (raw + "\n---\n" + body);
    assert c == ("---\n" + raw) + ("\n---\n" + body);
  }

  /** No line of `s` after its first starts with three dashes. */
  predicate NoDashLine(s: string) {
    forall j | 0 <= j < |s| :: !OccursAt(s, "\n---", j)
  }

  /** `s` holds no closer glued to the following text. */
  predicate NoGluedCloser(s: string) {
    forall j | 0 <= j < |s| :: !CloserAt(s, Paren, j) && !CloserAt(s, Glued, j)
  }

  /** Every closer starts with a newline and three dashes. */
  lemma CloserDashes(c: string, k: Closer, j: int)
    requires CloserAt(c, k, j)
    ensures OccursAt(c, "\n---", j)
  {
    if !k.Glued? {
      assert c[j..j + 4] == c[j..j + 5][..4];
    }
  }

  /** Where a written file is made of: the opening dashes, the newline and raw
      text, the closer line and the body. */
  lemma WrittenParts(raw: string, body: string)
    ensures var c := Written(raw, body); var e := |raw| + 4;
            && c[..3] == "---" && c[3..e] == "\n" + raw
            && c[e..e + 5] == "\n---\n" && c[e + 4..] == "\n" + body
  {
  }

  /** Before the closer line, no line of a written file starts with dashes. */
  lemma WrittenHead(raw: string, body: string, j: int)
    requires NoDashLine("\n" + raw)
    requires 3 <= j < |raw| + 4
    ensures !OccursAt(Written(raw, body), "\n---", j)
  {
    var c := Written(raw, body);
    var e := |raw| + 4;
    WrittenParts(raw, body);
    if j + 4 <= e {
      assert c[j..j + 4] == c[3..e][j - 3..j + 1];
      assert !OccursAt("\n" + raw, "\n---", j - 3);
    } else {
      assert c[e] == c[e..e + 5][0];
      assert c[j..j + 4][e - j] == c[e];
    }
  }

  /** A closer in a suffix of a text is a closer of the suffix. */
  lemma ShiftCloser(c: string, d: string, off: nat, k: Closer, j: int)
    requires off <= |c| && c[off..] == d && off <= j
    ensures CloserAt(c, k, j) ==> CloserAt(d, k, j - off)
  {
    var m := j - off;
    if j + 5 <= |c| {
      assert c[j..j + 5] == d[m..m + 5];
    }
    if j + 4 < |c| {
      assert c[j..j + 4] == d[m..m + 4] && c[j + 4] == d[m + 4];
    }
  }

  /** From the closer line on, a written file holds no glued closer. */
  lemma WrittenTail(raw: string, body: string, k: Closer, j: int)
    requires NoGluedCloser("\n" + body)
    requires |raw| + 4 <= j && !k.Proper?
    ensures !CloserAt(Written(raw, body), k, j)
  {
    var c := Written(raw, body);
    var e := |raw| + 4;
    var d := "\n" + body;
    WrittenParts(raw, body);
    hide Written;
    assert c[e..e + 5] == "\n---\n";
    if j + 4 >= |c| {
    } else if j == e {
      assert c[e + 4] == c[e..e + 5][4];
      assert c[j..j + 5][4] == c[e + 4];
    } else if j < e + 4 {
      assert c[j] == c[e..e + 5][j - e] == '-';
      assert c[j..j + 4][0] == c[j];
    } else {
      ShiftCloser(c, d, e + 4, k, j);
    }
  }

  /** A file written with raw text free of dash lines and a body free of glued
      closers is cut back into that raw text and that body at its closer
      line. */
  lemma CutWritten(raw: string, body: string)
    requires NoDashLine("\n" + raw)
    requires NoGluedCloser("\n" + body)
    ensures CutFrontmatter(Written(raw, body)) == Cut(raw, body, Proper, |raw| + 4)
  {
    var c := Written(raw, body);
    var e := |raw| + 4;
    WrittenParts(raw, body);
    assert StartsWith(c, "---");
    forall k: Closer, j | 3 <= j && !k.Proper? ensures !CloserAt(c, k, j) {
      if j < e {
        WrittenHead(raw, body, j);
        if CloserAt(c, k, j) {
          CloserDashes(c, k, j);
        }
      } else {
        WrittenTail(raw, body, k, j);
      }
    }
    forall j | 3 <= j < e ensures !CloserAt(c, Proper, j) {
      WrittenHead(raw, body, j);
      if CloserAt(c, Proper, j) {
        CloserDashes(c, Proper, j);
      }
    }
    assert CloserAt(c, Proper, e);
    assert First(c, Paren, 3).None?;
    assert First(c, Glued, 3).None?;
    assert First(c, Proper, 3) == Some(e);
    assert c[e + 5..] == body;
  }
}
