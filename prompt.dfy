/** The analysis prompt (`create_analysis_prompt`): a fixed template with two
    slots, the topic and the search result text, followed by five numbered
    analysis sections and a closing style instruction.

    The layout facts are proved once for any template of this shape and then
    applied to the news analysis template. */
module AnalysisPrompt {
  import opened Text

  /** One analysis section: its number, its title and the bullet lines under
      it, each bullet line ending in a newline. */
  datatype Section = Section(number: nat, title: string, bullets: string)

  /** A prompt template: `opening {topic} middle {results} intro`, then the
      sections, then `outro`. */
  datatype Template = Template(opening: string, middle: string, intro: string,
                               sections: seq<Section>, outro: string)

  const Indent := "    "

  /** The template of the news analysis prompt. */
  const NewsTemplate := Template(
    opening := "Analyze the following news information about ",
    middle := ".\n    Search Results: ",
    intro := "\n\n    Please provide a comprehensive analysis including:\n",
    sections := [
      Section(1, "Key Points Summary:",
              "       - Main events and developments\n       - Critical updates and changes\n"),
      Section(2, "Stakeholder Analysis:",
              "       - Primary parties involved\n       - Their roles and positions\n"),
      Section(3, "Impact Assessment:",
              "       - Immediate implications\n       - Potential long-term effects\n"
              + "       - Broader context and significance\n"),
      Section(4, "Multiple Perspectives:",
              "       - Different viewpoints on the issue\n       - Areas of agreement and contention\n"),
      Section(5, "Fact Check & Reliability:",
              "       - Verification of major claims\n       - Consistency across sources\n"
              + "       - Source credibility assessment\n")
    ],
    outro := "    Please format the analysis in a clear, journalistic style with section headers.")

  /** A section's header, `"{number}. {title}"`. */
  function Header(s: Section): string {
    NatToString(s.number) + ". " + s.title
  }

  /** One section as text: the indented header line, the bullets, a blank line. */
  function SectionText(s: Section): string {
    Indent + Header(s) + "\n" + s.bullets + "\n"
  }

  /** The sections one after the other. */
  function SectionsText(sections: seq<Section>): string
  {
    if sections == [] then "" else SectionText(sections[0]) + SectionsText(sections[1..])
  }

  /** Everything after the search results. */
  function Tail(t: Template): string {
    t.intro + SectionsText(t.sections) + t.outro
  }

  /** The template with its two slots filled in. */
  function Render(t: Template, topic: string, results: string): string {
    t.opening + topic + t.middle + results + Tail(t)
  }

  /** `create_analysis_prompt(topic, search_results)`: the news template
      filled with the topic and the search results. The topic and the results
      appear verbatim at fixed places and every section header appears after
      them, in order (`HeadersInOrder`); the results can be read back
      (`ResultsRoundTrip`). */
  function Compose(topic: string, results: string): (prompt: string)
    ensures ContainsAt(prompt, NewsTemplate.opening, 0)
    ensures ContainsAt(prompt, topic, |NewsTemplate.opening|)
    ensures ContainsAt(prompt, NewsTemplate.middle, |NewsTemplate.opening| + |topic|)
    ensures ContainsAt(prompt, results, |NewsTemplate.opening| + |topic| + |NewsTemplate.middle|)
    ensures forall k :: 0 <= k < |NewsTemplate.sections| ==>
      ContainsAt(prompt, Header(NewsTemplate.sections[k]), HeaderOffset(NewsTemplate, topic, results, k))
  {
    RenderLayout(NewsTemplate, topic, results);
    forall k | 0 <= k < |NewsTemplate.sections|
      ensures ContainsAt(Render(NewsTemplate, topic, results), Header(NewsTemplate.sections[k]),
                         HeaderOffset(NewsTemplate, topic, results, k))
    {
      RenderHeader(NewsTemplate, topic, results, k);
    }
    Render(NewsTemplate, topic, results)
  }

  /** `t` occurs in `s` starting at index `i`. */
  predicate ContainsAt(s: string, t: string, i: int) {
    0 <= i && i + |t| <= |s| && s[i..i + |t|] == t
  }

  lemma ContainsAtPrepend(a: string, s: string, t: string, i: int)
    requires ContainsAt(s, t, i)
    ensures ContainsAt(a + s, t, |a| + i)
  {
    assert (a + s)[|a| + i..|a| + i + |t|] == s[i..i + |t|];
  }

  lemma ContainsAtAppend(s: string, b: string, t: string, i: int)
    requires ContainsAt(s, t, i)
    ensures ContainsAt(s + b, t, i)
  {
    assert (s + b)[i..i + |t|] == s[i..i + |t|];
  }

  /** Where the two slots of a rendered template lie. */
  lemma RenderLayout(t: Template, topic: string, results: string)
    ensures ContainsAt(Render(t, topic, results), t.opening, 0)
    ensures ContainsAt(Render(t, topic, results), topic, |t.opening|)
    ensures ContainsAt(Render(t, topic, results), t.middle, |t.opening| + |topic|)
    ensures ContainsAt(Render(t, topic, results), results, |t.opening| + |topic| + |t.middle|)
  {
    var s := Render(t, topic, results);
    assert s[0..|t.opening|] == t.opening;
    assert s[|t.opening| + |topic|..|t.opening| + |topic| + |t.middle|] == t.middle;
    assert s[|t.opening|..|t.opening| + |topic|] == topic;
    assert s[|t.opening| + |topic| + |t.middle|..|t.opening| + |topic| + |t.middle| + |results|] == results;
  }

  /** Where the header of section `k` starts inside `SectionsText(sections)`. */
  function HeaderOffsetIn(sections: seq<Section>, k: nat): nat
    requires k < |sections|
  {
    if k == 0 then |Indent| else |SectionText(sections[0])| + HeaderOffsetIn(sections[1..], k - 1)
  }

  /** Where the header of section `k` (counting from 0) starts in the rendered prompt. */
  function HeaderOffset(t: Template, topic: string, results: string, k: nat): nat
    requires k < |t.sections|
  {
    |t.opening| + |topic| + |t.middle| + |results| + |t.intro| + HeaderOffsetIn(t.sections, k)
  }

  lemma {:induction false} HeaderInSections(sections: seq<Section>, k: nat)
    requires k < |sections|
    ensures ContainsAt(SectionsText(sections), Header(sections[k]), HeaderOffsetIn(sections, k))
    decreases k
  {
    var first := SectionText(sections[0]);
    if k == 0 {
      assert first == Indent + Header(sections[0]) + ("\n" + sections[0].bullets + "\n");
      assert first[|Indent|..|Indent| + |Header(sections[0])|] == Header(sections[0]);
      ContainsAtAppend(first, SectionsText(sections[1..]), Header(sections[0]), |Indent|);
    } else {
      HeaderInSections(sections[1..], k - 1);
      ContainsAtPrepend(first, SectionsText(sections[1..]), Header(sections[k]), HeaderOffsetIn(sections[1..], k - 1));
    }
  }

  /** Section `k`'s header lies at `HeaderOffset` in the rendered prompt. */
  lemma RenderHeader(t: Template, topic: string, results: string, k: nat)
    requires k < |t.sections|
    ensures ContainsAt(Render(t, topic, results), Header(t.sections[k]), HeaderOffset(t, topic, results, k))
  {
    var h := Header(t.sections[k]);
    HeaderInSections(t.sections, k);
    ContainsAtPrepend(t.intro, SectionsText(t.sections), h, HeaderOffsetIn(t.sections, k));
    ContainsAtAppend(t.intro + SectionsText(t.sections), t.outro, h, |t.intro| + HeaderOffsetIn(t.sections, k));
    ContainsAtPrepend(t.opening + topic + t.middle + results, Tail(t), h,
                      |t.intro| + HeaderOffsetIn(t.sections, k));
  }

  lemma {:induction false} HeaderOffsetStep(sections: seq<Section>, k: nat)
    requires k + 1 < |sections|
    ensures HeaderOffsetIn(sections, k + 1) == HeaderOffsetIn(sections, k) + |SectionText(sections[k])|
    decreases k
  {
    if k > 0 {
      HeaderOffsetStep(sections[1..], k - 1);
    }
  }

  /** The headers appear in the order of the sections and do not overlap:
      each one ends before the next one begins. */
  lemma HeadersInOrder(t: Template, topic: string, results: string, k: nat)
    requires k + 1 < |t.sections|
    ensures HeaderOffset(t, topic, results, k) + |Header(t.sections[k])| < HeaderOffset(t, topic, results, k + 1)
  {
    HeaderOffsetStep(t.sections, k);
  }

  /** The news template has five sections, numbered 1 to 5 in order. */
  lemma NewsSectionsNumbered()
    ensures |NewsTemplate.sections| == 5
    ensures forall k :: 0 <= k < 5 ==> StartsWith(Header(NewsTemplate.sections[k]), NatToString(k + 1) + ". ")
  {
    forall k | 0 <= k < 5
      ensures StartsWith(Header(NewsTemplate.sections[k]), NatToString(k + 1) + ". ")
    {
      var section := NewsTemplate.sections[k];
      assert section.number == k + 1;
      StartsWithConcat(NatToString(section.number) + ". ", section.title);
    }
  }

  /** Given the topic, the search results are read back from a prompt. */
  function ExtractResults(t: Template, prompt: string, topic: string): (r: Option<string>)
    ensures r.Some? ==> Render(t, topic, r.value) == prompt
  {
    var head := t.opening + topic + t.middle;
    var tail := Tail(t);
    if |head| + |tail| <= |prompt| && prompt[..|head|] == head && prompt[|prompt| - |tail|..] == tail then
      var results := prompt[|head|..|prompt| - |tail|];
      assert prompt == prompt[..|head|] + results + prompt[|prompt| - |tail|..];
      Some(results)
    else
      None
  }

  /** Round trip: a prompt determines the results it was composed from. */
  lemma ResultsRoundTrip(t: Template, topic: string, results: string)
    ensures ExtractResults(t, Render(t, topic, results), topic) == Some(results)
  {
    var head := t.opening + topic + t.middle;
    var prompt := Render(t, topic, results);
    assert prompt == head + results + Tail(t);
    assert prompt[..|head|] == head;
    assert prompt[|prompt| - |Tail(t)|..] == Tail(t);
    assert prompt[|head|..|prompt| - |Tail(t)|] == results;
  }

  /** Two prompts for the same topic are equal only when their results are. */
  lemma ComposeInjective(topic: string, results1: string, results2: string)
    ensures Compose(topic, results1) == Compose(topic, results2) <==> results1 == results2
  {
    ResultsRoundTrip(NewsTemplate, topic, results1);
    ResultsRoundTrip(NewsTemplate, topic, results2);
  }
}
