/** The news search tool (`DuckDuckGoSearch.__call__`): it asks the search
    provider for news, and folds the provider's records, whose fields may be
    missing, into one numbered text block, a "no results" sentinel, or a
    "Search error" diagnostic. The provider itself is a parameter. */
module NewsSearch {
  import opened Text

  /** One raw result record as the provider returns it: field name to text. */
  type Record = map<string, string>

  /** A normalized news item: every field holds real text or its fallback. */
  datatype NewsItem = NewsItem(title: string, date: string, source: string, summary: string, url: string)

  /** What the provider's `news` call gives back: its records, or the text of
      the exception it raised. */
  datatype SearchResponse = ProviderError(message: string) | Results(records: seq<Record>)

  /** The arguments of the provider's `news` call. */
  datatype NewsQuery = NewsQuery(keywords: string, maxResults: int, region: string, safeSearch: string)

  /** The two failure outputs and the words they open with. */
  const NoResultsLead := "No results"
  const NoResultsMessage := NoResultsLead + " found. Try modifying your search query."
  const SearchErrorLead := "Search error"
  const SearchErrorPrefix := SearchErrorLead + ": "
  const SearchErrorAdvice := "\nTry again with a different search term or check your internet connection."

  const NoTitle := "No title available"
  const NoDescription := "No description available"
  const UnknownSource := "Unknown source"
  const NoLink := "No link available"
  const NoDate := "Date not available"

  /** The query sent to the provider: worldwide region, safe search on. */
  function NewsRequest(query: string, maxResults: int): (q: NewsQuery)
    ensures q.keywords == query && q.maxResults == maxResults
    ensures q.region == "wt-wt" && q.safeSearch == "on"
  {
    NewsQuery(query, maxResults, "wt-wt", "on")
  }

  /** `record.get(key, default)`. */
  function Get(r: Record, key: string, default: string): string {
    if key in r then r[key] else default
  }

  /** The five fields of a record, each with its own fallback; the summary
      prefers `body` over `snippet` and the URL prefers `url` over `link`. */
  function Normalize(r: Record): (item: NewsItem)
    ensures "title" in r ==> item.title == r["title"]
    ensures "title" !in r ==> item.title == NoTitle
    ensures "body" in r ==> item.summary == r["body"]
    ensures "body" !in r && "snippet" in r ==> item.summary == r["snippet"]
    ensures "body" !in r && "snippet" !in r ==> item.summary == NoDescription
    ensures "source" in r ==> item.source == r["source"]
    ensures "source" !in r ==> item.source == UnknownSource
    ensures "url" in r ==> item.url == r["url"]
    ensures "url" !in r && "link" in r ==> item.url == r["link"]
    ensures "url" !in r && "link" !in r ==> item.url == NoLink
    ensures "date" in r ==> item.date == r["date"]
    ensures "date" !in r ==> item.date == NoDate
  {
    NewsItem(
      title := Get(r, "title", NoTitle),
      date := Get(r, "date", NoDate),
      source := Get(r, "source", UnknownSource),
      summary := Get(r, "body", Get(r, "snippet", NoDescription)),
      url := Get(r, "url", Get(r, "link", NoLink)))
  }

  /** Two records agree on the given keys: same presence, same text. */
  predicate AgreeOn(r: Record, s: Record, keys: set<string>) {
    forall k :: k in keys ==> (k in r <==> k in s) && (k in r ==> r[k] == s[k])
  }

  /** Each field depends only on its own keys, so a missing or different
      field never changes any other field of the item. */
  lemma FieldsIndependent(r: Record, s: Record)
    ensures AgreeOn(r, s, {"title"}) ==> Normalize(r).title == Normalize(s).title
    ensures AgreeOn(r, s, {"date"}) ==> Normalize(r).date == Normalize(s).date
    ensures AgreeOn(r, s, {"source"}) ==> Normalize(r).source == Normalize(s).source
    ensures AgreeOn(r, s, {"body", "snippet"}) ==> Normalize(r).summary == Normalize(s).summary
    ensures AgreeOn(r, s, {"url", "link"}) ==> Normalize(r).url == Normalize(s).url
  {
    if AgreeOn(r, s, {"title"}) { assert "title" in {"title"}; }
    if AgreeOn(r, s, {"date"}) { assert "date" in {"date"}; }
    if AgreeOn(r, s, {"source"}) { assert "source" in {"source"}; }
    if AgreeOn(r, s, {"body", "snippet"}) { assert "body" in {"body", "snippet"} && "snippet" in {"body", "snippet"}; }
    if AgreeOn(r, s, {"url", "link"}) { assert "url" in {"url", "link"} && "link" in {"url", "link"}; }
  }

  /** The first line of a paragraph, `"{idx}. Title: {title}"`. */
  function TitleLine(idx: nat, title: string): string {
    NatToString(idx) + ". Title: " + title
  }

  /** The five lines of the paragraph for the `idx`-th record. */
  function FieldLines(idx: nat, item: NewsItem): (lines: seq<string>)
    ensures |lines| == 5
  {
    [TitleLine(idx, item.title), "   Date: " + item.date, "   Source: " + item.source,
     "   Summary: " + item.summary, "   URL: " + item.url]
  }

  /** The paragraph for the `idx`-th record: its five lines, each ending in
      a newline. */
  function Paragraph(idx: nat, item: NewsItem): string {
    Unlines(FieldLines(idx, item))
  }

  /** When no field of the item spans several lines, neither does any line
      of its paragraph: the index is all digits and the labels hold no newline. */
  lemma FieldLinesSingleLine(idx: nat, item: NewsItem)
    requires SingleLine(item)
    ensures forall i :: 0 <= i < 5 ==> '\n' !in FieldLines(idx, item)[i]
  {
    assert forall i :: 0 <= i < |NatToString(idx)| ==> NatToString(idx)[i] != '\n';
  }

  /** A paragraph opens with its title line. */
  lemma ParagraphStartsWithTitleLine(idx: nat, item: NewsItem)
    ensures StartsWith(Paragraph(idx, item), TitleLine(idx, item.title))
  {
    UnlinesStartsWith(FieldLines(idx, item));
  }

  /** A paragraph ends in a newline. */
  lemma ParagraphEndsInNewline(idx: nat, item: NewsItem)
    ensures EndsWithChar(Paragraph(idx, item), '\n')
  {
    UnlinesEndsInNewline(FieldLines(idx, item));
  }

  /** The paragraphs of `records`, numbered from `first` in input order. */
  function Paragraphs(first: nat, records: seq<Record>): (ps: seq<string>)
    ensures |ps| == |records|
    ensures forall i :: 0 <= i < |records| ==> ps[i] == Paragraph(first + i, Normalize(records[i]))
  {
    seq(|records|, i requires 0 <= i < |records| => Paragraph(first + i, Normalize(records[i])))
  }

  /** The text block for a non-empty result list: paragraphs numbered from 1,
      joined by a newline, so a blank line separates consecutive paragraphs. */
  function FormatBlock(records: seq<Record>): (block: string)
    ensures block == "" <==> records == []
  {
    if records == [] then Join(Paragraphs(1, records), "\n")
    else
      ParagraphEndsInNewline(1, Normalize(records[0]));
      Join(Paragraphs(1, records), "\n")
  }

  /** What the search tool returns for a provider response. The output tells
      the three cases apart by its opening words alone: it starts with
      "Search error" exactly for a failure and with "No results" exactly for
      an empty result list. */
  function SearchOutput(response: SearchResponse): (output: string)
    ensures response.ProviderError? <==> StartsWith(output, SearchErrorLead)
    ensures response == Results([]) <==> StartsWith(output, NoResultsLead)
  {
    match response
    case ProviderError(m) =>
      ErrorOutputLeads(m);
      SearchErrorPrefix + m + SearchErrorAdvice
    case Results(records) =>
      if records == [] then
        NoResultsLeads();
        NoResultsMessage
      else
        BlockLeads(records);
        FormatBlock(records)
  }

  lemma ErrorOutputLeads(m: string)
    ensures StartsWith(SearchErrorPrefix + m + SearchErrorAdvice, SearchErrorLead)
    ensures !StartsWith(SearchErrorPrefix + m + SearchErrorAdvice, NoResultsLead)
  {
    var output := SearchErrorPrefix + m + SearchErrorAdvice;
    assert output == SearchErrorLead + (": " + m + SearchErrorAdvice);
    StartsWithConcat(SearchErrorLead, ": " + m + SearchErrorAdvice);
    assert output[0] == 'S';
    FirstCharRulesOut(output, NoResultsLead);
  }

  lemma ErrorPrefixLeads(s: string)
    ensures StartsWith(s, SearchErrorPrefix) ==> StartsWith(s, SearchErrorLead)
  {
    if StartsWith(s, SearchErrorPrefix) {
      StartsWithConcat(SearchErrorLead, ": ");
      StartsWithTrans(s, SearchErrorPrefix, SearchErrorLead);
    }
  }

  lemma NoResultsLeads()
    ensures StartsWith(NoResultsMessage, NoResultsLead)
    ensures !StartsWith(NoResultsMessage, SearchErrorLead)
  {
    StartsWithConcat(NoResultsLead, " found. Try modifying your search query.");
    assert NoResultsMessage[0] == 'N';
    FirstCharRulesOut(NoResultsMessage, SearchErrorLead);
  }

  /** A block opens with the digit 1, so it starts with neither failure lead. */
  lemma BlockLeads(records: seq<Record>)
    requires records != []
    ensures !StartsWith(FormatBlock(records), SearchErrorLead)
    ensures !StartsWith(FormatBlock(records), NoResultsLead)
  {
    var block := FormatBlock(records);
    BlockStartsWithFirstTitle(records);
    StartsWithFirstChar(block, "1. Title: " + Normalize(records[0]).title);
    FirstCharRulesOut(block, SearchErrorLead);
    FirstCharRulesOut(block, NoResultsLead);
  }

  /** `DuckDuckGoSearch.__call__`: one provider call, then the loop that
      renders each record as a numbered paragraph, then the join. */
  method Search(query: string, maxResults: int, provider: NewsQuery -> SearchResponse)
    returns (output: string)
    ensures output == SearchOutput(provider(NewsRequest(query, maxResults)))
    ensures provider(NewsRequest(query, maxResults)).ProviderError? ==>
      output == SearchErrorPrefix + provider(NewsRequest(query, maxResults)).message + SearchErrorAdvice
    ensures provider(NewsRequest(query, maxResults)) == Results([]) ==> output == NoResultsMessage
  {
    var response := provider(NewsRequest(query, maxResults));
    match response
    case ProviderError(m) =>
      output := SearchErrorPrefix + m + SearchErrorAdvice;
    case Results(records) =>
      if records == [] {
        output := NoResultsMessage;
      } else {
        output := FormatResults(records);
      }
  }

  /** The formatting loop: one paragraph per record, numbered from 1, then
      the join. */
  method FormatResults(records: seq<Record>) returns (block: string)
    ensures block == FormatBlock(records)
  {
    var formatted: seq<string> := [];
    var idx := 0;
    while idx < |records|
      invariant 0 <= idx <= |records|
      invariant |formatted| == idx
      invariant forall k :: 0 <= k < idx ==> formatted[k] == Paragraph(k + 1, Normalize(records[k]))
    {
      var item := Normalize(records[idx]);
      formatted := formatted + [Paragraph(idx + 1, item)];
      idx := idx + 1;
    }
    assert formatted == Paragraphs(1, records);
    block := Join(formatted, "\n");
  }

  /** A failure is always reported with the "Search error" prefix and the
      provider's message verbatim right after it. */
  lemma ErrorOutputCarriesMessage(m: string)
    ensures StartsWith(SearchOutput(ProviderError(m)), SearchErrorLead)
    ensures StripPrefix(SearchOutput(ProviderError(m)), SearchErrorPrefix) == Some(m + SearchErrorAdvice)
  {
    StartsWithConcat(SearchErrorPrefix, m + SearchErrorAdvice);
    assert SearchOutput(ProviderError(m)) == SearchErrorPrefix + (m + SearchErrorAdvice);
  }

  /** A non-empty block opens with the first record's title line, numbered 1. */
  lemma BlockStartsWithFirstTitle(records: seq<Record>)
    requires records != []
    ensures StartsWith(FormatBlock(records), "1. Title: " + Normalize(records[0]).title)
  {
    var item := Normalize(records[0]);
    assert NatToString(1) == "1";
    assert TitleLine(1, item.title) == "1. Title: " + item.title;
    ParagraphStartsWithTitleLine(1, item);
    StartsWithTrans(FormatBlock(records), Paragraph(1, item), TitleLine(1, item.title));
  }

  /** One more record adds one more paragraph, numbered one past the last,
      after a blank line; nothing before it changes. */
  lemma BlockAppend(records: seq<Record>, r: Record)
    requires records != []
    ensures FormatBlock(records + [r])
         == FormatBlock(records) + "\n" + Paragraph(|records| + 1, Normalize(r))
  {
    ParagraphsSnoc(records, r);
    JoinSnoc(Paragraphs(1, records), Paragraph(|records| + 1, Normalize(r)), "\n");
  }

  lemma ParagraphsSnoc(records: seq<Record>, r: Record)
    ensures Paragraphs(1, records + [r]) == Paragraphs(1, records) + [Paragraph(|records| + 1, Normalize(r))]
  {
    var ps := Paragraphs(1, records + [r]);
    ParagraphsPrefix(records, r);
    assert ps[|records|] == Paragraph(|records| + 1, Normalize(r));
    assert ps == ps[..|records|] + [ps[|records|]];
  }

  lemma ParagraphsPrefix(records: seq<Record>, r: Record)
    ensures Paragraphs(1, records + [r])[..|records|] == Paragraphs(1, records)
  {
    var ps, qs := Paragraphs(1, records + [r])[..|records|], Paragraphs(1, records);
    forall i | 0 <= i < |qs| ensures ps[i] == qs[i] {
      assert Normalize((records + [r])[i]) == Normalize(records[i]);
    }
  }

  /** A block ends in a newline: the last paragraph's own. Together with
      `BlockAppend` this puts a blank line between consecutive paragraphs. */
  lemma BlockEndsInNewline(records: seq<Record>)
    requires records != []
    ensures EndsWithChar(FormatBlock(records), '\n')
  {
    LastParagraphEndsInNewline(records);
    JoinEndsWith(Paragraphs(1, records), "\n", '\n');
  }

  lemma LastParagraphEndsInNewline(records: seq<Record>)
    requires records != []
    ensures EndsWithChar(Paragraphs(1, records)[|records| - 1], '\n')
  {
    ParagraphEndsInNewline(|records|, Normalize(records[|records| - 1]));
  }

  // Reading a block back.

  /** No field of the item spans more than one line. */
  predicate SingleLine(item: NewsItem) {
    '\n' !in item.title && '\n' !in item.date && '\n' !in item.source
    && '\n' !in item.summary && '\n' !in item.url
  }

  /** The five lines of a paragraph, parsed back into an item, provided the
      first line carries the expected index. */
  function ParseParagraph(lines: seq<string>, idx: nat): Option<NewsItem>
    requires |lines| == 5
  {
    match (StripPrefix(lines[0], NatToString(idx) + ". Title: "),
           StripPrefix(lines[1], "   Date: "),
           StripPrefix(lines[2], "   Source: "),
           StripPrefix(lines[3], "   Summary: "),
           StripPrefix(lines[4], "   URL: "))
    case (Some(title), Some(date), Some(source), Some(summary), Some(url)) =>
      Some(NewsItem(title, date, source, summary, url))
    case _ => None
  }

  /** Groups of six lines (five field lines and a blank one), numbered
      consecutively from `idx`. */
  function ParseParagraphs(lines: seq<string>, idx: nat): Option<seq<NewsItem>>
    decreases |lines|
  {
    if |lines| < 6 || lines[5] != "" then None
    else match ParseParagraph(lines[..5], idx)
      case None => None
      case Some(item) =>
        if |lines| == 6 then Some([item])
        else match ParseParagraphs(lines[6..], idx + 1)
          case None => None
          case Some(items) => Some([item] + items)
  }

  /** Reads a result block back into its items, checking the numbering 1..n. */
  function ParseBlock(block: string): Option<seq<NewsItem>> {
    ParseParagraphs(Lines(block), 1)
  }

  /** The items of a record list, in order. */
  function NormalizeAll(records: seq<Record>): (items: seq<NewsItem>)
    ensures |items| == |records|
    ensures forall i :: 0 <= i < |records| ==> items[i] == Normalize(records[i])
  {
    seq(|records|, i requires 0 <= i < |records| => Normalize(records[i]))
  }

  /** The lines of a paragraph followed by any text. */
  lemma ParagraphLines(idx: nat, item: NewsItem, rest: string)
    requires SingleLine(item)
    ensures Lines(Paragraph(idx, item) + rest) == FieldLines(idx, item) + Lines(rest)
  {
    FieldLinesSingleLine(idx, item);
    LinesUnlines(FieldLines(idx, item), rest);
  }

  /** The five lines of a paragraph parse back to its item. */
  lemma ParseParagraphOf(idx: nat, item: NewsItem)
    ensures ParseParagraph(FieldLines(idx, item), idx) == Some(item)
  {
    StartsWithConcat(NatToString(idx) + ". Title: ", item.title);
    StartsWithConcat("   Date: ", item.date);
    StartsWithConcat("   Source: ", item.source);
    StartsWithConcat("   Summary: ", item.summary);
    StartsWithConcat("   URL: ", item.url);
  }

  /** Paragraphs after the first are preceded by the separating newline. */
  lemma JoinParagraphsCons(first: nat, records: seq<Record>)
    requires |records| > 1
    ensures Join(Paragraphs(first, records), "\n")
         == Paragraph(first, Normalize(records[0])) + ("\n" + Join(Paragraphs(first + 1, records[1..]), "\n"))
  {
    ParagraphsTail(first, records);
    JoinCons(Paragraphs(first, records), "\n");
  }

  lemma ParagraphsTail(first: nat, records: seq<Record>)
    requires records != []
    ensures Paragraphs(first, records)[1..] == Paragraphs(first + 1, records[1..])
  {
    var ps, qs := Paragraphs(first, records), Paragraphs(first + 1, records[1..]);
    assert |ps[1..]| == |qs|;
    forall i | 0 <= i < |qs| ensures ps[1..][i] == qs[i] {
      assert records[1..][i] == records[i + 1];
    }
  }

  /** One group of six lines is consumed, then the rest is parsed from the next index. */
  lemma ParseStep(idx: nat, item: NewsItem, more: seq<string>)
    requires more != []
    requires ParseParagraphs(more, idx + 1).Some?
    ensures ParseParagraphs(FieldLines(idx, item) + [""] + more, idx)
         == Some([item] + ParseParagraphs(more, idx + 1).value)
  {
    var lines := FieldLines(idx, item) + [""] + more;
    assert lines[..5] == FieldLines(idx, item);
    assert lines[6..] == more;
    ParseParagraphOf(idx, item);
  }

  /** A lone paragraph reads back as its item. */
  lemma LastParagraphRoundTrip(idx: nat, item: NewsItem)
    requires SingleLine(item)
    ensures ParseParagraphs(Lines(Paragraph(idx, item)), idx) == Some([item])
  {
    ParagraphLines(idx, item, "");
    assert Paragraph(idx, item) + "" == Paragraph(idx, item);
    var lines := FieldLines(idx, item) + [""];
    assert Lines(Paragraph(idx, item)) == lines;
    assert lines[..5] == FieldLines(idx, item);
    ParseParagraphOf(idx, item);
  }

  /** A paragraph followed by a further block reads back as its item
      followed by what that block reads back as. */
  lemma ConsParagraphRoundTrip(idx: nat, item: NewsItem, tail: string)
    requires SingleLine(item)
    requires ParseParagraphs(Lines(tail), idx + 1).Some?
    ensures ParseParagraphs(Lines(Paragraph(idx, item) + ("\n" + tail)), idx)
         == Some([item] + ParseParagraphs(Lines(tail), idx + 1).value)
  {
    ParagraphLines(idx, item, "\n" + tail);
    LinesCons("", tail);
    assert "" + "\n" + tail == "\n" + tail;
    assert Lines(Paragraph(idx, item) + ("\n" + tail)) == FieldLines(idx, item) + ([""] + Lines(tail));
    assert FieldLines(idx, item) + ([""] + Lines(tail)) == FieldLines(idx, item) + [""] + Lines(tail);
    ParseStep(idx, item, Lines(tail));
  }

  lemma {:induction false} ParagraphsRoundTrip(first: nat, records: seq<Record>)
    requires records != []
    requires forall i :: 0 <= i < |records| ==> SingleLine(Normalize(records[i]))
    ensures ParseParagraphs(Lines(Join(Paragraphs(first, records), "\n")), first) == Some(NormalizeAll(records))
    decreases |records|
  {
    var item := Normalize(records[0]);
    if |records| == 1 {
      assert Join(Paragraphs(first, records), "\n") == Paragraph(first, item);
      LastParagraphRoundTrip(first, item);
      assert NormalizeAll(records) == [item];
    } else {
      var tail := Join(Paragraphs(first + 1, records[1..]), "\n");
      JoinParagraphsCons(first, records);
      ParagraphsRoundTrip(first + 1, records[1..]);
      ConsParagraphRoundTrip(first, item, tail);
      NormalizeAllCons(records);
    }
  }

  lemma NormalizeAllCons(records: seq<Record>)
    requires records != []
    ensures NormalizeAll(records) == [Normalize(records[0])] + NormalizeAll(records[1..])
  {
    var a, b := NormalizeAll(records), [Normalize(records[0])] + NormalizeAll(records[1..]);
    assert |a| == |b|;
    forall i | 0 <= i < |a| ensures a[i] == b[i] {
      if i > 0 { assert b[i] == NormalizeAll(records[1..])[i - 1]; }
    }
  }

  /** Round trip: when no field spans several lines, the block reads back as
      exactly the normalized records, in input order, numbered 1..n. */
  lemma BlockRoundTrip(records: seq<Record>)
    requires records != []
    requires forall i :: 0 <= i < |records| ==> SingleLine(Normalize(records[i]))
    ensures ParseBlock(FormatBlock(records)) == Some(NormalizeAll(records))
  {
    ParagraphsRoundTrip(1, records);
  }
}
