/** The text side of the web tools: the whitespace clean-up and 1000-word
    cap applied to fetched pages, the result strings of `fetch_url_content`,
    and the report `perform_web_search` builds from search results. The
    HTTP fetch, the HTML-to-text step and the search service are
    parameters. */
module WebTools {
  import opened Common
  import opened ToolRegistry

  const WordLimit: nat := 1000

  // ---- Whitespace clean-up ----

  /** No two spaces in a row. */
  predicate NoDoubleSpace(s: string)
  {
    forall i :: 0 <= i < |s| - 1 ==> !(s[i] == ' ' && s[i + 1] == ' ')
  }

  /** What the clean-up keeps of a page: non-empty, no whitespace at either
      end, no two spaces in a row. */
  predicate Piece(p: string)
  {
    p != [] && Trimmed(p) && NoDoubleSpace(p)
  }

  /** Every element is a piece. */
  predicate AllPieces(ps: seq<string>)
  {
    forall k :: 0 <= k < |ps| ==> Piece(ps[k])
  }

  /** `(p.strip() for p in ps)`, keeping the non-empty ones. */
  function NonEmptyStripped(ps: seq<string>): seq<string>
  {
    if ps == [] then []
    else (if Strip(ps[0]) != [] then [Strip(ps[0])] else []) + NonEmptyStripped(ps[1..])
  }

  /** The phrases of every line: each line stripped and split at double
      spaces, each phrase stripped, empty phrases dropped. */
  function Phrases(lines: seq<string>): seq<string>
  {
    if lines == [] then []
    else NonEmptyStripped(SplitOn(Strip(lines[0]), "  ")) + Phrases(lines[1..])
  }

  /** The clean-up of `fetch_url_content`: the phrases of all lines joined
      by single spaces. */
  function Clean(text: string): string
  {
    Join(Phrases(SplitLines(text)), " ")
  }

  /** `text.split()` capped: more than 1000 words become the first 1000
      joined by single spaces and "..."; otherwise the text is kept. */
  function Truncate(text: string): string
  {
    var words := Words(text);
    if |words| > WordLimit then Join(words[..WordLimit], " ") + "..." else text
  }

  // ---- Fetching a URL ----

  /** What fetching a URL gives: an HTTP status and the page's text, or an
      exception. */
  datatype FetchOutcome = Response(status: nat, text: string) | FetchRaised(message: string)

  /** The string `fetch_url_content` returns. */
  function FetchUrlContent(url: string, outcome: FetchOutcome): (r: string)
    ensures outcome.Response? && outcome.status == 200 ==> StartsWith(r, "Content from " + url + ":\n")
  {
    match outcome
    case FetchRaised(m) => "Error fetching URL " + url + ": " + m
    case Response(status, text) =>
      if status != 200 then "Error: Failed to fetch URL (status code: " + NatToString(status) + ")"
      else
        var r := "Content from " + url + ":\n" + Truncate(Clean(text));
        assert r[..|"Content from " + url + ":\n"|] == "Content from " + url + ":\n";
        r
  }

  // ---- Web search ----

  /** One search result; `None` is a field whose key is absent. */
  datatype SearchResult = SearchResult(title: Option<string>, url: Option<string>, content: Option<string>)

  /** What the search service gives: its `results` list (empty when
      missing), or an exception. */
  datatype SearchOutcome = Results(results: seq<SearchResult>) | SearchRaised(message: string)

  /** `result.get(key, 'N/A')` */
  function OrNA(s: Option<string>): string
  {
    if s.Some? then s.value else "N/A"
  }

  /** The block one result adds to the report. */
  function Block(r: SearchResult): string
  {
    var content := OrNA(r.content);
    "- Title: " + OrNA(r.title) + "\n" +
    "  URL: " + OrNA(r.url) + "\n" +
    (if content != "N/A" then "  Content: " + Truncate(content) + "\n\n" else "  Content: N/A\n\n")
  }

  function Header(query: string): string
  {
    "Search results for '" + query + "':\n"
  }

  /** The blocks of a list of results, concatenated in order. */
  function Blocks(rs: seq<SearchResult>): string
  {
    if rs == [] then [] else Blocks(rs[..|rs| - 1]) + Block(rs[|rs| - 1])
  }

  /** What `perform_web_search` returns: the fetched page when a URL is
      given; otherwise an error without a search client, the service's
      error, a fixed message for no results, or the stripped report. */
  function WebSearchResult(query: string, url: Option<string>, client: Option<TavilyClient>,
                           fetch: string -> FetchOutcome, search: (TavilyClient, string) -> SearchOutcome): string
  {
    if Truthy(url) then FetchUrlContent(url.value, fetch(url.value))
    else if client.None? then "Error: Tavily API key not configured."
    else match search(client.value, query)
      case SearchRaised(m) => "Error: Tavily search failed - " + m
      case Results(rs) =>
        if rs == [] then "No results found for '" + query + "'."
        else Strip(Header(query) + Blocks(rs))
  }

  /** The search tool: the report is built block by block, as the source
      does with `+=`. */
  method PerformWebSearch(query: string, url: Option<string>, client: Option<TavilyClient>,
                          fetch: string -> FetchOutcome, search: (TavilyClient, string) -> SearchOutcome)
    returns (r: string)
    ensures r == WebSearchResult(query, url, client, fetch, search)
  {
    if Truthy(url) {
      return FetchUrlContent(url.value, fetch(url.value));
    }
    if client.None? {
      return "Error: Tavily API key not configured.";
    }
    var outcome := search(client.value, query);
    if outcome.SearchRaised? {
      return "Error: Tavily search failed - " + outcome.message;
    }
    var rs := outcome.results;
    if rs == [] {
      return "No results found for '" + query + "'.";
    }
    var output := Report(query, rs);
    r := Strip(output);
  }

  /** The loop adding one block per result after the header. */
  method Report(query: string, rs: seq<SearchResult>) returns (output: string)
    ensures output == Header(query) + Blocks(rs)
  {
    output := Header(query);
    var i := 0;
    while i < |rs|
      invariant i <= |rs| && output == Header(query) + Blocks(rs[..i])
    {
      assert rs[..i + 1][..i] == rs[..i];
      AppendAssoc(Header(query), Blocks(rs[..i]), Block(rs[i]));
      output := output + Block(rs[i]);
      i := i + 1;
    }
    assert rs[..|rs|] == rs;
  }

  // ---- Lemmas ----

  /** A URL, when given, decides the result; the query is not looked at. */
  lemma UrlIgnoresQuery(q1: string, q2: string, url: Option<string>, client: Option<TavilyClient>,
                        fetch: string -> FetchOutcome, search: (TavilyClient, string) -> SearchOutcome)
    requires Truthy(url)
    ensures WebSearchResult(q1, url, client, fetch, search) == WebSearchResult(q2, url, client, fetch, search)
            == FetchUrlContent(url.value, fetch(url.value))
  {
  }

  /** The blocks of two lists of results are the blocks of the first
      followed by the blocks of the second: one block per result, in
      order. */
  lemma {:induction false} BlocksAppend(rs: seq<SearchResult>, more: seq<SearchResult>)
    ensures Blocks(rs + more) == Blocks(rs) + Blocks(more)
    decreases |more|
  {
    if more == [] {
      assert rs + more == rs;
      AppendEmpty(Blocks(rs));
    } else {
      var front := more[..|more| - 1];
      BlocksAppend(rs, front);
      InitOfAppend(rs, more);
      AppendAssoc(Blocks(rs), Blocks(front), Block(more[|more| - 1]));
    }
  }

  /** The parts of a split at two spaces never contain two spaces in a row. */
  lemma {:induction false} SplitOnNoDouble(s: string)
    ensures forall k :: 0 <= k < |SplitOn(s, "  ")| ==> NoDoubleSpace(SplitOn(s, "  ")[k])
    decreases |s|
  {
    var parts := SplitOn(s, "  ");
    if |s| < 2 {
    } else if s[..2] == "  " {
      SplitOnNoDouble(s[2..]);
      assert parts == [""] + SplitOn(s[2..], "  ");
    } else {
      var rest := SplitOn(s[1..], "  ");
      SplitOnNoDouble(s[1..]);
      var head := [s[0]] + rest[0];
      assert parts == [head] + rest[1..];
      assert NoDoubleSpace(head) by {
        forall i | 0 <= i < |head| - 1
          ensures !(head[i] == ' ' && head[i + 1] == ' ')
        {
          if i == 0 {
            assert head[1] == rest[0][0] == s[1];
            assert s[..2] == [s[0], s[1]];
          } else {
            assert head[i] == rest[0][i - 1] && head[i + 1] == rest[0][i];
          }
        }
      }
    }
  }

  /** A part of a string keeps the string's lack of double spaces. */
  lemma NoDoubleInfix(s: string, i: nat, j: nat)
    requires i <= j <= |s| && NoDoubleSpace(s)
    ensures NoDoubleSpace(s[i..j])
  {
    forall k | 0 <= k < j - i - 1
      ensures !(s[i..j][k] == ' ' && s[i..j][k + 1] == ' ')
    {
      assert s[i..j][k] == s[i + k] && s[i..j][k + 1] == s[i + k + 1];
    }
  }

  /** Two lists of pieces make one. */
  lemma PiecesAppend(a: seq<string>, b: seq<string>)
    requires AllPieces(a) && AllPieces(b)
    ensures AllPieces(a + b)
  {
    forall k | 0 <= k < |a + b|
      ensures Piece((a + b)[k])
    {
      if k < |a| {
        assert (a + b)[k] == a[k];
      } else {
        assert (a + b)[k] == b[k - |a|];
      }
    }
  }

  /** A stripped part of a string without double spaces is a piece, or empty. */
  lemma StrippedPiece(p: string)
    requires NoDoubleSpace(p)
    ensures AllPieces(if Strip(p) != [] then [Strip(p)] else [])
  {
    var i := StripInfix(p);
    NoDoubleInfix(p, i, i + |Strip(p)|);
  }

  lemma {:induction false} NonEmptyStrippedPieces(ps: seq<string>)
    requires forall k :: 0 <= k < |ps| ==> NoDoubleSpace(ps[k])
    ensures AllPieces(NonEmptyStripped(ps))
    decreases |ps|
  {
    if ps != [] {
      NonEmptyStrippedPieces(ps[1..]);
      StrippedPiece(ps[0]);
      PiecesAppend(if Strip(ps[0]) != [] then [Strip(ps[0])] else [], NonEmptyStripped(ps[1..]));
    }
  }

  lemma {:induction false} PhrasesArePieces(lines: seq<string>)
    ensures AllPieces(Phrases(lines))
    decreases |lines|
  {
    if lines != [] {
      var parts := SplitOn(Strip(lines[0]), "  ");
      SplitOnNoDouble(Strip(lines[0]));
      NonEmptyStrippedPieces(parts);
      PhrasesArePieces(lines[1..]);
      PiecesAppend(NonEmptyStripped(parts), Phrases(lines[1..]));
    }
  }

  /** Two strings without double spaces, not meeting at two spaces, make
      one without. */
  lemma NoDoubleAppend(a: string, b: string)
    requires NoDoubleSpace(a) && NoDoubleSpace(b)
    requires a == [] || b == [] || !(a[|a| - 1] == ' ' && b[0] == ' ')
    ensures NoDoubleSpace(a + b)
  {
    forall i | 0 <= i < |a + b| - 1
      ensures !((a + b)[i] == ' ' && (a + b)[i + 1] == ' ')
    {
      if i + 1 < |a| {
        assert (a + b)[i] == a[i] && (a + b)[i + 1] == a[i + 1];
      } else if i >= |a| {
        assert (a + b)[i] == b[i - |a|] && (a + b)[i + 1] == b[i + 1 - |a|];
      }
    }
  }

  /** Pieces joined by single spaces: the result has no whitespace at
      either end, no double space, and starts where the first piece does. */
  lemma {:induction false} JoinPieces(parts: seq<string>)
    requires AllPieces(parts)
    ensures Trimmed(Join(parts, " ")) && NoDoubleSpace(Join(parts, " "))
    ensures parts != [] ==> Join(parts, " ") != [] && Join(parts, " ")[0] == parts[0][0]
    decreases |parts|
  {
    if |parts| >= 2 {
      var p := parts[0];
      var rest := Join(parts[1..], " ");
      JoinPieces(parts[1..]);
      assert Piece(p) && Piece(parts[1]);
      NoDoubleAppend(p, " ");
      NoDoubleAppend(p + " ", rest);
      var j := p + " " + rest;
      assert j[0] == p[0] && j[|j| - 1] == rest[|rest| - 1];
    }
  }

  /** The cleaned text has no leading or trailing whitespace and no two
      spaces in a row. */
  lemma CleanIsTidy(text: string)
    ensures Trimmed(Clean(text)) && NoDoubleSpace(Clean(text))
  {
    PhrasesArePieces(SplitLines(text));
    JoinPieces(Phrases(SplitLines(text)));
  }

  /** Stripping the parts and dropping the empty ones keeps every word. */
  lemma {:induction false} WordsOfNonEmptyStripped(ps: seq<string>)
    ensures AllWords(NonEmptyStripped(ps)) == AllWords(ps)
    decreases |ps|
  {
    if ps != [] {
      var p := ps[0];
      var kept := if Strip(p) != [] then [Strip(p)] else [];
      WordsOfNonEmptyStripped(ps[1..]);
      AllWordsAppend(kept, NonEmptyStripped(ps[1..]));
      WordsOfStrip(p);
      if Strip(p) != [] {
        assert AllWords(kept) == Words(Strip(p)) + AllWords([]);
      }
    }
  }

  /** The phrases of the lines hold the lines' words, in order. */
  lemma {:induction false} WordsOfPhrases(lines: seq<string>)
    ensures AllWords(Phrases(lines)) == AllWords(lines)
    decreases |lines|
  {
    if lines != [] {
      WordsOfPhrases(lines[1..]);
      AllWordsAppend(NonEmptyStripped(SplitOn(Strip(lines[0]), "  ")), Phrases(lines[1..]));
      WordsOfLinePhrases(lines[0]);
    }
  }

  /** The phrases of one line hold that line's words, in order. */
  lemma WordsOfLinePhrases(line: string)
    ensures AllWords(NonEmptyStripped(SplitOn(Strip(line), "  "))) == Words(line)
  {
    var parts := SplitOn(Strip(line), "  ");
    WordsOfNonEmptyStripped(parts);
    WordsOfJoinBlank(parts, "  ");
    JoinSplitOn(Strip(line), "  ");
    WordsOfStrip(line);
  }

  /** The clean-up changes only whitespace: the cleaned text splits into
      exactly the words of the page's text, in order. */
  lemma CleanKeepsWords(text: string)
    ensures Words(Clean(text)) == Words(text)
  {
    WordsOfJoinBlank(Phrases(SplitLines(text)), " ");
    WordsOfPhrases(SplitLines(text));
    WordsOfSplitLines(text);
  }

  /** A word followed by whitespace (or nothing) is what `TakeWord` takes. */
  lemma {:induction false} TakeWordOf(w: string, rest: string)
    requires NoSpace(w) && (rest == [] || IsSpace(rest[0]))
    ensures TakeWord(w + rest) == w
    decreases |w|
  {
    if w != [] {
      assert NoSpace(w[1..]);
      TakeWordOf(w[1..], rest);
      assert (w + rest)[1..] == w[1..] + rest;
    } else {
      assert w + rest == rest;
    }
  }

  lemma HeadTail(ws: seq<string>)
    requires ws != []
    ensures [ws[0]] + ws[1..] == ws
  {
  }

  /** A single word splits into itself. */
  lemma WordsOfWord(w: string)
    requires IsWord(w)
    ensures Words(w) == [w]
  {
    assert LStrip(w) == w;
    TakeWordOf(w, []);
    assert w + [] == w;
    assert w[|w|..] == [];
    assert Words(w) == [w] + Words([]);
  }

  /** A word, a space, and text starting with a non-space: the word comes
      first, then the text's words. */
  lemma WordsOfCons(w: string, j: string)
    requires IsWord(w) && j != [] && !IsSpace(j[0])
    ensures Words(w + (" " + j)) == [w] + Words(j)
  {
    var s := w + (" " + j);
    assert s[0] == w[0];
    assert LStrip(s) == s;
    TakeWordOf(w, " " + j);
    assert s[..|w|] == w && s[|w|..] == " " + j;
    assert Words(s) == [w] + Words(" " + j);
    assert (" " + j)[1..] == j;
    assert LStrip(j) == j;
    assert LStrip(" " + j) == j;
    assert Words(" " + j) == Words(j);
  }

  lemma TailWords(ws: seq<string>)
    requires ws != [] && forall k :: 0 <= k < |ws| ==> IsWord(ws[k])
    ensures IsWord(ws[0]) && forall k :: 0 <= k < |ws[1..]| ==> IsWord(ws[1..][k])
  {
    forall k | 0 <= k < |ws[1..]|
      ensures IsWord(ws[1..][k])
    {
      assert ws[1..][k] == ws[k + 1];
    }
  }

  lemma JoinCons(ws: seq<string>)
    requires |ws| >= 2
    ensures Join(ws, " ") == ws[0] + (" " + Join(ws[1..], " "))
  {
    AppendAssoc(ws[0], " ", Join(ws[1..], " "));
  }

  /** Words joined by single spaces split back into the same words. */
  lemma {:induction false} WordsOfJoin(ws: seq<string>)
    requires forall k :: 0 <= k < |ws| ==> IsWord(ws[k])
    ensures Words(Join(ws, " ")) == ws
    ensures ws != [] ==> Join(ws, " ") != [] && !IsSpace(Join(ws, " ")[0])
    decreases |ws|
  {
    if |ws| == 1 {
      WordsOfJoinOne(ws);
    } else if |ws| >= 2 {
      TailWords(ws);
      WordsOfJoin(ws[1..]);
      WordsOfJoinStep(ws);
    }
  }

  lemma WordsOfJoinOne(ws: seq<string>)
    requires |ws| == 1 && IsWord(ws[0])
    ensures Words(Join(ws, " ")) == ws && Join(ws, " ") != [] && !IsSpace(Join(ws, " ")[0])
  {
    WordsOfWord(ws[0]);
  }

  /** The step of `WordsOfJoin`: a word in front of a joined tail whose
      words are known. */
  lemma WordsOfJoinStep(ws: seq<string>)
    requires |ws| >= 2 && IsWord(ws[0])
    requires Words(Join(ws[1..], " ")) == ws[1..] && Join(ws[1..], " ") != [] && !IsSpace(Join(ws[1..], " ")[0])
    ensures Words(Join(ws, " ")) == ws && Join(ws, " ") != [] && !IsSpace(Join(ws, " ")[0])
  {
    var w := ws[0];
    var j := Join(ws[1..], " ");
    JoinCons(ws);
    WordsOfCons(w, j);
    HeadTail(ws);
    assert Join(ws, " ")[0] == w[0];
  }

  /** Truncation keeps the first 1000 words, which the truncated text
      (before its "...") splits back into; text of at most 1000 words is
      kept as it is. */
  lemma TruncateKeepsWords(text: string)
    ensures |Words(text)| <= WordLimit ==> Truncate(text) == text
    ensures |Words(text)| > WordLimit ==>
      var kept := Join(Words(text)[..WordLimit], " ");
      Truncate(text) == kept + "..." && Words(kept) == Words(text)[..WordLimit]
  {
    var ws := Words(text);
    if |ws| > WordLimit {
      WordsAreWords(text);
      assert forall k :: 0 <= k < WordLimit ==> ws[..WordLimit][k] in ws;
      WordsOfJoin(ws[..WordLimit]);
    }
  }
}
