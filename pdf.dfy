/**
 * `PdfService`: the guards and the string preparation around the HTML
 * renderer, and the choice of merge sources around the PDF merger. The
 * renderer, the hex decoder and the merger are black boxes whose outcomes,
 * exceptions included, are inputs.
 */
module Pdf {

  import opened Wrappers
  import opened Text
  import opened Entries
  import opened Failures

  type Bytes = seq<bv8>

  /** What rendering HTML to PDF gives: the bytes, a checked exception, or an unchecked one. */
  datatype RenderOutcome = Rendered(pdf: Bytes) | RenderIoError | RenderDocumentError | RenderRuntimeError(error: Failure)

  /** What decoding an entry's hex content gives. */
  datatype DecodeOutcome = Decoded(bytes: Bytes) | DecodeIoError

  /** What merging the collected sources gives. */
  datatype MergeOutcome = Merged(pdf: Bytes) | MergeIoError | MergeRuntimeError(error: Failure)

  const BR := "<br>"
  const BR_CLOSED := "<br/>"

  /** Java's `replace("<br>", "<br/>")`: leftmost occurrences first, scanning on after each replacement. */
  function ReplaceBr(s: string): (r: string)
    ensures |r| >= |s|
  {
    if |s| < 4 then s
    else if s[..4] == BR then BR_CLOSED + ReplaceBr(s[4..])
    else [s[0]] + ReplaceBr(s[1..])
  }

  /** The first characters survive the rewrite, up to three of them. */
  lemma {:induction false} ReplaceBrKeepsPrefix(t: string, k: nat)
    requires k <= 3 && k <= |t|
    ensures ReplaceBr(t)[..k] == t[..k]
  {
    if k == 0 || |t| < 4 {
    } else if t[..4] == BR {
      assert t[..k] == BR[..k];
    } else {
      ReplaceBrKeepsPrefix(t[1..], k - 1);
      assert ReplaceBr(t)[..k] == [t[0]] + ReplaceBr(t[1..])[..k - 1];
      assert t[..k] == [t[0]] + t[1..][..k - 1];
    }
  }

  /** After the rewrite no `<br>` is left. */
  lemma {:induction false} ReplaceBrLeavesNoBr(s: string)
    ensures !Contains(ReplaceBr(s), BR)
  {
    var r := ReplaceBr(s);
    if |s| < 4 {
    } else if s[..4] == BR {
      var rest := ReplaceBr(s[4..]);
      ReplaceBrLeavesNoBr(s[4..]);
      forall i | 0 <= i <= |r|
        ensures !OccursAt(r, BR, i)
      {
        if i + 4 <= |r| {
          if i < 5 {
            assert r[i..i + 4][0] == r[i] == (BR_CLOSED + rest)[i];
            if i == 0 {
              assert r[i..i + 4][3] == '/';
            }
          } else {
            assert r[i..i + 4] == rest[i - 5..i - 1];
            assert !OccursAt(rest, BR, i - 5);
          }
        }
      }
    } else {
      var t := s[1..];
      var rest := ReplaceBr(t);
      ReplaceBrLeavesNoBr(t);
      forall i | 0 <= i <= |r|
        ensures !OccursAt(r, BR, i)
      {
        if i + 4 <= |r| {
          if i == 0 {
            assert r[..4] == [s[0]] + rest[..3];
            if |t| >= 3 {
              ReplaceBrKeepsPrefix(t, 3);
              assert s[..4] == [s[0]] + t[..3];
            }
          } else {
            assert r[i..i + 4] == rest[i - 1..i + 3];
            assert !OccursAt(rest, BR, i - 1);
          }
        }
      }
    }
  }

  /** Text without `<br>` is left as it is. */
  lemma {:induction false} ReplaceBrIdentity(s: string)
    requires !Contains(s, BR)
    ensures ReplaceBr(s) == s
  {
    if |s| >= 4 {
      assert !OccursAt(s, BR, 0);
      forall i | 0 <= i <= |s[1..]|
        ensures !OccursAt(s[1..], BR, i)
      {
        assert !OccursAt(s, BR, i + 1);
        if i + 4 <= |s[1..]| {
          assert s[1..][i..i + 4] == s[i + 1..i + 5];
        }
      }
      ReplaceBrIdentity(s[1..]);
    }
  }

  /** A leading character other than '<' cannot start a `<br>`. */
  lemma ReplaceBrSkips(c: char, t: string)
    requires c != '<'
    ensures ReplaceBr([c] + t) == [c] + ReplaceBr(t)
  {
    if |[c] + t| >= 4 {
      assert ([c] + t)[1..] == t;
    }
  }

  /** A run of characters without '<' passes through the rewrite unchanged. */
  lemma {:induction false} ReplaceBrSkipsRun(p: string, t: string)
    requires forall i :: 0 <= i < |p| ==> p[i] != '<'
    ensures ReplaceBr(p + t) == p + ReplaceBr(t)
  {
    if p != [] {
      assert p + t == [p[0]] + (p[1..] + t);
      ReplaceBrSkips(p[0], p[1..] + t);
      ReplaceBrSkipsRun(p[1..], t);
      assert p == [p[0]] + p[1..];
    } else {
      assert p + t == t;
    }
  }

  /** A '<' that does not open a `<br>` is kept, and the rewrite goes on after it. */
  lemma ReplaceBrPastLt(s: string)
    requires |s| >= 4 && s[0] == '<' && s[1] != 'b'
    ensures ReplaceBr(s) == "<" + ReplaceBr(s[1..])
  {
    assert s[..4][1] != BR[1];
  }

  lemma DivEndUnchanged()
    ensures ReplaceBr("</div>") == "</div>"
  {
    var s := "</div>";
    ReplaceBrPastLt(s);
    assert s[1..] == "/div>" + "";
    ReplaceBrSkipsRun("/div>", "");
  }

  /** The closing `</div>` neither takes part in nor is changed by the rewrite. */
  lemma {:induction false} ReplaceBrBeforeDivEnd(t: string)
    ensures ReplaceBr(t + "</div>") == ReplaceBr(t) + "</div>"
    decreases |t|
  {
    var s := t + "</div>";
    if |t| == 0 {
      assert s == "</div>";
      DivEndUnchanged();
    } else if |t| >= 4 && t[..4] == BR {
      assert s[..4] == BR;
      assert s[4..] == t[4..] + "</div>";
      ReplaceBrBeforeDivEnd(t[4..]);
    } else {
      assert s[..4] != BR by {
        if |t| < 4 {
          assert s[|t|] == '<';
          assert BR[|t|] != '<';
        } else {
          assert s[..4] == t[..4];
        }
      }
      assert s[1..] == t[1..] + "</div>";
      ReplaceBrBeforeDivEnd(t[1..]);
    }
  }

  /** The string handed to the renderer: wrapped in a `<div>`, every `<br>` closed. */
  function RendererInput(html: string): (input: string)
    ensures input == "<div>" + ReplaceBr(html) + "</div>"
  {
    var wrapped := "<div>" + html + "</div>";
    assert wrapped == "<div>" + (html + "</div>");
    ReplaceBrAfterDivStart(html + "</div>");
    ReplaceBrBeforeDivEnd(html);
    ReplaceBr(wrapped)
  }

  /** The opening `<div>` neither takes part in nor is changed by the rewrite. */
  lemma ReplaceBrAfterDivStart(x: string)
    ensures ReplaceBr("<div>" + x) == "<div>" + ReplaceBr(x)
  {
    var s := "<div>" + x;
    ReplaceBrPastLt(s);
    assert s[1..] == "div>" + x;
    ReplaceBrSkipsRun("div>", x);
  }

  /**
   * The renderer sees the input's own rewrite inside `<div>...</div>`, with
   * no `<br>` left anywhere; input without `<br>` is passed on unchanged.
   */
  lemma RendererInputShape(html: string)
    ensures RendererInput(html) == "<div>" + ReplaceBr(html) + "</div>"
    ensures !Contains(RendererInput(html), BR)
    ensures !Contains(html, BR) ==> RendererInput(html) == "<div>" + html + "</div>"
  {
    var wrapped := "<div>" + html + "</div>";
    ReplaceBrLeavesNoBr(wrapped);
    if !Contains(html, BR) {
      ReplaceBrIdentity(html);
    }
  }

  /**
   * `createPdfFile`: null or blank HTML gives empty bytes and the renderer
   * is not called; otherwise the renderer gets `RendererInput(html)`, an
   * IOException or DocumentException gives empty bytes, and any other
   * exception escapes. `engineInput` records what the renderer was given.
   */
  method CreatePdfFile(html: Option<string>, render: string -> RenderOutcome)
    returns (r: Result<Bytes, Failure>, ghost engineInput: Option<string>)
    ensures html.None? || IsBlank(html.value) ==> r == Success([]) && engineInput == None
    ensures html.Some? && !IsBlank(html.value) ==>
      var rendered := render(RendererInput(html.value));
      && engineInput == Some(RendererInput(html.value))
      && (rendered.Rendered? ==> r == Success(rendered.pdf))
      && (rendered.RenderIoError? || rendered.RenderDocumentError? ==> r == Success([]))
      && (rendered.RenderRuntimeError? ==> r == Failure(rendered.error))
  {
    engineInput := None;
    if html.Some? && !IsBlank(html.value) {
      var htmlContent := html.value;
      htmlContent := "<div>" + htmlContent + "</div>";
      htmlContent := ReplaceBr(htmlContent);
      engineInput := Some(htmlContent);
      match render(htmlContent)
      case Rendered(pdf) =>
        return Success(pdf), engineInput;
      case RenderIoError =>
      case RenderDocumentError =>
      case RenderRuntimeError(e) =>
        return Failure(e), engineInput;
    }
    r := Success([]);
  }

  /** The merger utility, as the list of sources added to it. */
  class Merger {
    var sources: seq<Bytes>

    constructor ()
      ensures sources == []
    {
      sources := [];
    }

    method AddSource(pdf: Bytes)
      modifies this
      ensures sources == old(sources) + [pdf]
    {
      sources := sources + [pdf];
    }
  }

  /** The entry's content is non-null and not blank. */
  predicate HasContent(e: PrintEntry)
  {
    e.content.Some? && !IsBlank(e.content.value)
  }

  /** What one entry adds to the merger: its decoded content, or nothing when blank or undecodable. */
  function SourceOf(e: PrintEntry, decode: string -> DecodeOutcome): seq<Bytes>
  {
    if !HasContent(e) then []
    else match decode(e.content.value)
      case Decoded(b) => [b]
      case DecodeIoError => []
  }

  /** The merge sources of a list of entries, in list order. */
  function Sources(es: seq<PrintEntry>, decode: string -> DecodeOutcome): (srcs: seq<Bytes>)
    ensures |srcs| <= |es|
  {
    if es == [] then [] else Sources(es[..|es| - 1], decode) + SourceOf(es[|es| - 1], decode)
  }

  /** Sources of a concatenation are the sources of each part, in order. */
  lemma {:induction false} SourcesConcat(a: seq<PrintEntry>, b: seq<PrintEntry>, decode: string -> DecodeOutcome)
    ensures Sources(a + b, decode) == Sources(a, decode) + Sources(b, decode)
  {
    if b == [] {
      assert a + b == a;
    } else {
      assert (a + b)[..|a + b| - 1] == a + b[..|b| - 1];
      SourcesConcat(a, b[..|b| - 1], decode);
    }
  }

  /** Entries with null or blank content contribute nothing. */
  lemma {:induction false} BlankEntriesAddNothing(b: seq<PrintEntry>, decode: string -> DecodeOutcome)
    requires forall i :: 0 <= i < |b| ==> !HasContent(b[i])
    ensures Sources(b, decode) == []
  {
    if b != [] {
      BlankEntriesAddNothing(b[..|b| - 1], decode);
    }
  }

  /** Blank or null entries anywhere in the list leave the merge sources as they were. */
  lemma BlankEntriesSkipped(a: seq<PrintEntry>, blanks: seq<PrintEntry>, c: seq<PrintEntry>, decode: string -> DecodeOutcome)
    requires forall i :: 0 <= i < |blanks| ==> !HasContent(blanks[i])
    ensures Sources(a + blanks + c, decode) == Sources(a + c, decode)
  {
    BlankEntriesAddNothing(blanks, decode);
    SourcesConcat(a, blanks, decode);
    assert Sources(a + blanks, decode) == Sources(a, decode);
    SourcesConcat(a + blanks, c, decode);
    SourcesConcat(a, c, decode);
  }

  /**
   * `combinePdfFiles`: an empty list gives empty bytes without calling the
   * merger; otherwise every entry with content is decoded and added in
   * order (an IOException skips that entry), the sources are merged, an
   * IOException of the merge gives empty bytes and any other exception
   * escapes. `mergedSources` records what the merger was given.
   */
  method CombinePdfFiles(entries: seq<PrintEntry>, decode: string -> DecodeOutcome,
                         merge: seq<Bytes> -> MergeOutcome)
    returns (r: Result<Bytes, Failure>, ghost mergedSources: Option<seq<Bytes>>)
    ensures entries == [] ==> r == Success([]) && mergedSources == None
    ensures entries != [] ==>
      var merged := merge(Sources(entries, decode));
      && mergedSources == Some(Sources(entries, decode))
      && (merged.Merged? ==> r == Success(merged.pdf))
      && (merged.MergeIoError? ==> r == Success([]))
      && (merged.MergeRuntimeError? ==> r == Failure(merged.error))
  {
    mergedSources := None;
    if entries != [] {
      var merger := new Merger();
      var i := 0;
      while i < |entries|
        invariant 0 <= i <= |entries|
        invariant merger.sources == Sources(entries[..i], decode)
      {
        var e := entries[i];
        if e.content.Some? && !IsBlank(e.content.value) {
          match decode(e.content.value)
          case Decoded(b) =>
            merger.AddSource(b);
          case DecodeIoError =>
        }
        assert entries[..i + 1][..i] == entries[..i];
        i := i + 1;
      }
      assert entries[..i] == entries;
      mergedSources := Some(merger.sources);
      match merge(merger.sources)
      case Merged(pdf) =>
        return Success(pdf), mergedSources;
      case MergeIoError =>
      case MergeRuntimeError(e) =>
        return Failure(e), mergedSources;
    }
    r := Success([]);
  }
}
