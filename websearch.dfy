/** Web-search results and the texts built from them: the chat context of
    `perform_web_search`, the two-result snippet of the action pipeline's augmentation
    round, and the sub-query that round searches for. */
module WebSearch {
  import opened Wrappers
  import opened PyStr

  /** One search result as the search engine returns it; `None` is a missing key. */
  datatype Hit = Hit(title: Option<string>, url: Option<string>, content: Option<string>, snippet: Option<string>)

  /** Python's f-string rendering of a value that may be None. */
  function Show(v: Option<string>): string {
    match v
    case Some(s) => s
    case None => "None"
  }

  /** Python's `a or b` on two values that may be None or empty. */
  function OrElse(a: Option<string>, b: Option<string>): Option<string> {
    if a.Some? && a.value != "" then a else b
  }

  /** Python's `s[:n]` on a list. */
  function Take<T>(s: seq<T>, n: nat): (r: seq<T>)
    ensures |r| <= n && |r| <= |s|
    ensures r == s[..|r|]
    ensures |s| <= n ==> r == s
  {
    if |s| <= n then s else s[..n]
  }

  // ---------------------------------------------------------------- chat context

  /** The content `perform_web_search` shows for a hit: its content, else its snippet,
      else the empty string (which causes the hit to be skipped). */
  function ContextContent(h: Hit): string {
    OrElse(h.content, h.snippet).GetOr("")
  }

  /** The block one hit contributes to the chat context. */
  function ContextEntry(h: Hit): string {
    "Source: " + h.title.GetOr("No Title") + " (" + h.url.GetOr(" ") + ")\nContent: " + ContextContent(h)
  }

  /** The blocks of the hits that have content, in order. */
  function ContextEntries(hits: seq<Hit>): seq<string> {
    if hits == [] then []
    else
      var h := hits[|hits| - 1];
      ContextEntries(hits[..|hits| - 1]) + (if ContextContent(h) != "" then [ContextEntry(h)] else [])
  }

  /** The number of hits that have content. */
  function CountWithContent(hits: seq<Hit>): nat {
    if hits == [] then 0
    else CountWithContent(hits[..|hits| - 1]) + (if ContextContent(hits[|hits| - 1]) != "" then 1 else 0)
  }

  /** The text `perform_web_search` returns for the results the search engine gave. */
  function WebSearchText(results: seq<Hit>): string {
    if results == [] then "No search results found."
    else Join(ContextEntries(Take(results, 3)), "\n\n")
  }

  /** `perform_web_search`: enumerate the results, stop at the fourth, keep the blocks of
      those with content, join them with blank lines. */
  method PerformWebSearch(results: seq<Hit>) returns (text: string)
    ensures text == WebSearchText(results)
  {
    if results == [] {
      return "No search results found.";
    }
    var blocks: seq<string> := [];
    var i := 0;
    while i < |results|
      invariant i <= |results| && i <= 3
      invariant blocks == ContextEntries(results[..i])
    {
      if i >= 3 {
        break;
      }
      var h := results[i];
      var content := OrElse(h.content, h.snippet).GetOr("");
      if content != "" {
        blocks := blocks + ["Source: " + h.title.GetOr("No Title") + " (" + h.url.GetOr(" ") + ")\nContent: " + content];
      }
      assert results[..i + 1][..i] == results[..i];
      i := i + 1;
    }
    assert results[..i] == Take(results, 3);
    text := Join(blocks, "\n\n");
  }

  /** Each hit with content contributes exactly one block, every other hit none. */
  lemma {:induction false} ContextEntriesCount(hits: seq<Hit>)
    ensures |ContextEntries(hits)| == CountWithContent(hits) <= |hits|
  {
    if hits != [] {
      ContextEntriesCount(hits[..|hits| - 1]);
    }
  }

  /** The blocks are exactly the formatted hits that have content. */
  lemma {:induction false} ContextEntriesAll(hits: seq<Hit>)
    requires forall i :: 0 <= i < |hits| ==> ContextContent(hits[i]) != ""
    ensures ContextEntries(hits) == seq(|hits|, i requires 0 <= i < |hits| => ContextEntry(hits[i]))
  {
    if hits != [] {
      ContextEntriesAll(hits[..|hits| - 1]);
    }
  }

  /** The context holds at most three blocks, and results after the third never matter. */
  lemma WebSearchFirstThree(results: seq<Hit>, more: seq<Hit>)
    requires |results| >= 3
    ensures WebSearchText(results + more) == WebSearchText(results)
    ensures results != [] ==> |ContextEntries(Take(results, 3))| <= 3
  {
    assert Take(results + more, 3) == Take(results, 3);
    ContextEntriesCount(Take(results, 3));
  }

  /** Results none of which has content give an empty context, not the "no results" text. */
  lemma {:induction false} NoContentGivesEmpty(hits: seq<Hit>)
    requires forall i :: 0 <= i < |hits| ==> ContextContent(hits[i]) == ""
    ensures ContextEntries(hits) == []
  {
    if hits != [] {
      NoContentGivesEmpty(hits[..|hits| - 1]);
    }
  }

  // ---------------------------------------------------------------- augmentation snippet

  /** The line one hit contributes to the augmentation snippet. */
  function SnippetLine(h: Hit): (line: string)
    ensures StartsWith(line, "- ") && line[|line| - 1] == '\n'
  {
    "- " + Show(h.title) + ": " + Show(OrElse(h.content, h.snippet)) + " (" + Show(h.url) + ")\n"
  }

  /** The snippet lines of the given hits, concatenated. */
  function SnippetLines(hits: seq<Hit>): string {
    if hits == [] then "" else SnippetLines(hits[..|hits| - 1]) + SnippetLine(hits[|hits| - 1])
  }

  /** The search-result text handed back to the model: the lines of the first two results,
      or "No results found." when there are none. */
  function Snippet(results: seq<Hit>): string {
    var s := SnippetLines(Take(results, 2));
    if s == "" then "No results found." else s
  }

  /** The snippet loop of the augmentation round. */
  method BuildSnippet(results: seq<Hit>) returns (snippet: string)
    ensures snippet == Snippet(results)
  {
    var first := Take(results, 2);
    snippet := "";
    for i := 0 to |first|
      invariant snippet == SnippetLines(first[..i])
    {
      assert first[..i + 1][..i] == first[..i];
      var h := first[i];
      assert SnippetLines(first[..i + 1]) == SnippetLines(first[..i]) + SnippetLine(h);
      snippet := snippet + "- " + Show(h.title) + ": " + Show(OrElse(h.content, h.snippet)) + " (" + Show(h.url) + ")\n";
    }
    assert first[..|first|] == first;
    if snippet == "" {
      snippet := "No results found.";
    }
  }

  /** Lines of at least one hit make the snippet end with a newline. */
  lemma SnippetLinesEnd(hits: seq<Hit>)
    requires hits != []
    ensures |SnippetLines(hits)| > 0 && SnippetLines(hits)[|SnippetLines(hits)| - 1] == '\n'
  {
    var line := SnippetLine(hits[|hits| - 1]);
    assert SnippetLines(hits) == SnippetLines(hits[..|hits| - 1]) + line;
  }

  /** The default text appears exactly when the search returned nothing; otherwise the
      snippet is the first one or two result lines. */
  lemma SnippetDefault(results: seq<Hit>)
    ensures Snippet(results) == "No results found." <==> results == []
    ensures results != [] ==> Snippet(results) == SnippetLines(Take(results, 2))
  {
    if results != [] {
      SnippetLinesEnd(Take(results, 2));
    }
  }

  // ---------------------------------------------------------------- augmentation sub-query

  /** The sub-query the augmentation round searches for: the first line of the stripped
      text between the first "SEARCH:" and the next one. */
  function SearchQuery(text: string): (q: string)
    requires Contains(text, "SEARCH:")
    ensures !Contains(q, "\n")
  {
    SplitPiecesFree(Strip(Split(text, "SEARCH:")[1]), "\n", 0);
    Split(Strip(Split(text, "SEARCH:")[1]), "\n")[0]
  }

  /** A character other than a newline is no occurrence of "\n". */
  lemma NewlineAt(s: string, k: nat)
    requires k < |s|
    ensures OccursAt(s, "\n", k) <==> s[k] == '\n'
  {
    assert k + 1 <= |s| ==> s[k..k + 1] == [s[k]];
  }

  /** The first line of `q + rest`, for a `q` without newlines that is followed by a
      newline or nothing, is `q`. */
  lemma FirstLine(q: string, rest: string)
    requires forall i :: 0 <= i < |q| ==> q[i] != '\n'
    requires rest == [] || rest[0] == '\n'
    ensures Split(q + rest, "\n")[0] == q
  {
    var s := q + rest;
    forall k | 0 <= k < |q|
      ensures !OccursAt(s, "\n", k)
    {
      NewlineAt(s, k);
    }
    if rest == [] {
      assert s == q;
      assert IndexOf(s, "\n").None?;
    } else {
      NewlineAt(s, |q|);
      assert IndexOf(s, "\n") == Some(|q|);
      assert s[..|q|] == q;
    }
  }

  /** The text up to the first "SEARCH:" after a marker-free `q` and its newline keeps
      `q` and that newline. */
  lemma PieceKeepsLine(q: string, rest: string)
    requires !Contains(q, "SEARCH:")
    ensures var piece := Split(q + "\n" + rest, "SEARCH:")[0];
      |piece| > |q| && piece[..|q|] == q && piece[|q|] == '\n'
  {
    var tail := q + "\n" + rest;
    var piece := Split(tail, "SEARCH:")[0];
    SplitHead(tail, "SEARCH:");
    assert forall j :: 0 <= j < 7 ==> "SEARCH:"[j] != '\n';
    forall k | 0 <= k <= |q|
      ensures !OccursAt(tail, "SEARCH:", k)
    {
      if k + 7 <= |q| {
        assert !OccursAt(q, "SEARCH:", k);
        assert tail[k..k + 7] == q[k..k + 7];
      } else if k + 7 <= |tail| {
        assert tail[k..k + 7][|q| - k] == tail[|q|] == '\n';
      }
    }
    if IndexOf(tail, "SEARCH:").Some? {
      assert piece == tail[..IndexOf(tail, "SEARCH:").value];
    }
  }

  /** Stripping a string that starts with a stripped, non-empty `q` followed by a newline
      keeps `q` and leaves either nothing or that newline after it. */
  lemma StripKeepsLine(piece: string, q: string)
    requires q != [] && Stripped(q)
    requires |piece| > |q| && piece[..|q|] == q && piece[|q|] == '\n'
    ensures |Strip(piece)| >= |q| && Strip(piece)[..|q|] == q
    ensures |Strip(piece)| == |q| || Strip(piece)[|q|] == '\n'
  {
    assert piece[0] == q[0];
    assert LeadingSpaces(piece) == 0;
    assert piece[|q| - 1] == q[|q| - 1];
    assert TextEnd(piece) >= |q|;
  }

  /** The text after a leading "SEARCH:" up to the next one. */
  lemma LeadingMarkerPiece(q: string, rest: string)
    ensures var text := "SEARCH:" + q + "\n" + rest;
      Contains(text, "SEARCH:") && Split(text, "SEARCH:")[1] == Split(q + "\n" + rest, "SEARCH:")[0]
  {
    var tail := q + "\n" + rest;
    assert "SEARCH:" + q + "\n" + rest == "" + "SEARCH:" + tail;
    SplitAfterFirst("", "SEARCH:", tail);
  }

  /** An answer that starts with a SEARCH line yields that line's query. */
  lemma SearchQueryOfFirstLine(q: string, rest: string)
    requires q != [] && Stripped(q) && !Contains(q, "SEARCH:")
    requires forall i :: 0 <= i < |q| ==> q[i] != '\n'
    ensures SearchQuery("SEARCH:" + q + "\n" + rest) == q
  {
    LeadingMarkerPiece(q, rest);
    var piece := Split(q + "\n" + rest, "SEARCH:")[0];
    PieceKeepsLine(q, rest);
    FirstLineOfStripped(piece, q);
  }

  /** The first line of a stripped piece that starts with the line `q` is `q`. */
  lemma FirstLineOfStripped(piece: string, q: string)
    requires q != [] && Stripped(q)
    requires forall i :: 0 <= i < |q| ==> q[i] != '\n'
    requires |piece| > |q| && piece[..|q|] == q && piece[|q|] == '\n'
    ensures Split(Strip(piece), "\n")[0] == q
  {
    StripKeepsLine(piece, q);
    var r := Strip(piece);
    assert r == q + r[|q|..];
    FirstLine(q, r[|q|..]);
  }
}
