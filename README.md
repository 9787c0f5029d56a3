# DeepSeek News Agent: a Dafny model of the text pipeline

The news agent takes a topic from the user and searches recent news for it. It folds the search records into one numbered text block and puts that block into a fixed analysis prompt. It then sends the prompt to a chat completion endpoint and shows the answer. Each stage reports a failure as an ordinary string, never as an exception. The page tells a successful search from a failed one only by looking at the prefix of the search output.

This project models that pipeline in Dafny and proves what it promises:

- `text.dfy` (`Text`): helpers the pipeline relies on. These are Python's `str.join`, `str.startswith` and the decimal rendering of a paragraph number, plus a line splitter used to read a block back.
- `search.dfy` (`NewsSearch`): `DuckDuckGoSearch.__call__`.
  - The provider's reply is a parameter: either the text of the exception it raised, or a sequence of records of type `map<string, string>`.
  - The formatting loop is a method with loop invariants, `FormatResults`, proved against the specification function `FormatBlock`; `Search` is proved against `SearchOutput`.
  - A decoder `ParseBlock` reads a block back into its items, and a round-trip lemma connects the two.
- `prompt.dfy` (`AnalysisPrompt`): `create_analysis_prompt`.
  - The layout facts are proved for any template with two slots and a list of sections.
  - They are then applied to the news template.
  - An extractor recovers the search results from a prompt.
- `completion.dfy` (`Completion`): `GroqLLM.__call__` for a string prompt. The endpoint is a parameter.
- `pipeline.dfy` (`NewsPipeline`): the query string, the prefix gate, and the flow behind the analyse button.

All Dafny functions are deterministic. So the promise that the same topic and block always give the same prompt holds by construction.

The search tool never checks its result cap; only the page's slider bounds it to 3..10 (`DeepSeek_News_Agent.py:161-166`). So `NewsSearch.Search` takes any integer and passes it on unchanged.

## Model

| member | source | states |
|---|---|---|
| NewsSearch.NewsRequest | DeepSeek_News_Agent.py:21-26 | the provider is asked with the query and the result cap unchanged, worldwide region `wt-wt`, safe search `on` |
| NewsSearch.Normalize | DeepSeek_News_Agent.py:35-39 | each field is the record's value when its key is present, else its fallback: title→`No title available`; summary from `body`, else `snippet`, else `No description available`; source→`Unknown source`; URL from `url`, else `link`, else `No link available`; date→`Date not available` |
| NewsSearch.FieldsIndependent | DeepSeek_News_Agent.py:35-39 | each normalized field depends only on its own keys, so a missing or different field never changes another field |
| NewsSearch.FieldLines | DeepSeek_News_Agent.py:42-48 | a paragraph is built from exactly five field lines, each followed by a newline |
| NewsSearch.ParseParagraphOf | DeepSeek_News_Agent.py:42-48 | the five field lines parse back to the item's title, date, source, summary and URL, for every item |
| NewsSearch.FieldLinesSingleLine | DeepSeek_News_Agent.py:42-48 | when no field of the record holds a newline, none of the paragraph's five lines does: the index is all digits and the labels hold no newline |
| NewsSearch.ParagraphStartsWithTitleLine | DeepSeek_News_Agent.py:42-43 | a paragraph opens with `{idx}. Title: {title}` |
| NewsSearch.ParagraphEndsInNewline | DeepSeek_News_Agent.py:42-48 | a paragraph ends in a newline, the one after its URL line |
| NewsSearch.Paragraphs | DeepSeek_News_Agent.py:32-48 | one paragraph per record, in input order, the i-th numbered `first + i` |
| NewsSearch.FormatBlock | DeepSeek_News_Agent.py:32-50 | the block is empty exactly when there are no records, since every paragraph is non-empty |
| NewsSearch.FormatResults | DeepSeek_News_Agent.py:32-50 | the loop that appends one paragraph per record and joins them with a newline yields exactly `FormatBlock` of the records |
| NewsSearch.SearchOutput | DeepSeek_News_Agent.py:28-56 | the output's opening words tell the three outcomes apart: it starts with `Search error` exactly for a provider failure, and with `No results` exactly for an empty result list |
| NewsSearch.Search | DeepSeek_News_Agent.py:17-56 | the output equals `SearchOutput` of the provider's reply; a failure with message m gives exactly `"Search error: " + m + "\nTry again with a different search term or check your internet connection."`; an empty list gives exactly `"No results found. Try modifying your search query."` |
| NewsSearch.ErrorOutputCarriesMessage | DeepSeek_News_Agent.py:52-56 | a failure output starts with `Search error`, and the provider's message follows `Search error: ` verbatim |
| NewsSearch.BlockStartsWithFirstTitle | DeepSeek_News_Agent.py:42-50 | a non-empty block starts with `1. Title: ` followed by the first record's title |
| NewsSearch.BlockAppend | DeepSeek_News_Agent.py:32-50 | one more record appends a newline and one more paragraph, numbered one past the last; the earlier text is unchanged |
| NewsSearch.BlockEndsInNewline | DeepSeek_News_Agent.py:42-50 | every non-empty block ends in a newline, so with the separator `BlockAppend` inserts, a blank line separates consecutive paragraphs |
| NewsSearch.BlockRoundTrip | DeepSeek_News_Agent.py:32-50 | when no field spans several lines, the block reads back as exactly the normalized records, in order, numbered 1..n, each as five lines followed by a blank line |
| Text.Join | DeepSeek_News_Agent.py:50 | joining nothing gives the empty string; joining one part gives that part; a join starts with its first part |
| Text.JoinSnoc | DeepSeek_News_Agent.py:50 | joining a list with one more part appends the separator and that part |
| Text.NatToString | DeepSeek_News_Agent.py:43 | a paragraph number is rendered as a non-empty string of decimal digits with no leading zero |
| Text.DecimalRoundTrip | DeepSeek_News_Agent.py:43 | the rendered number reads back as the number |
| Text.NatToStringInjective | DeepSeek_News_Agent.py:43 | two numbers render the same exactly when they are equal, so distinct paragraphs carry distinct numbers |
| AnalysisPrompt.Compose | DeepSeek_News_Agent.py:90-121 | the prompt opens with `Analyze the following news information about `, followed at once by the topic verbatim, then `.\n    Search Results: `, followed at once by the results verbatim, and each section header at its own place after them |
| AnalysisPrompt.RenderLayout | DeepSeek_News_Agent.py:95-96 | any filled template opens with its opening text, followed at once by the topic, then its middle text, followed at once by the results, each verbatim |
| AnalysisPrompt.RenderHeader | DeepSeek_News_Agent.py:98-119 | every section header of the template occurs verbatim in the filled prompt at its computed offset |
| AnalysisPrompt.HeadersInOrder | DeepSeek_News_Agent.py:98-119 | section headers occur in their listed order without overlapping |
| AnalysisPrompt.NewsSectionsNumbered | DeepSeek_News_Agent.py:99-116 | the news template has exactly five sections, headed `1. ` to `5. ` in order |
| AnalysisPrompt.ResultsRoundTrip | DeepSeek_News_Agent.py:95-121 | given the topic, the search results are recovered exactly from the prompt |
| AnalysisPrompt.ComposeInjective | DeepSeek_News_Agent.py:95-121 | for one topic, two prompts are equal exactly when their search results are |
| Completion.Request | DeepSeek_News_Agent.py:70-82 | a string prompt is sent unchanged as the only message, from the user, not streamed, to the configured model |
| Completion.RequestCarriesPrompt | DeepSeek_News_Agent.py:70-78 | the prompt reads back from the request, and different prompts give different requests |
| Completion.Answer | DeepSeek_News_Agent.py:84-88 | the first choice when there is one; exactly `Error: No response generated` for zero choices; `"Error generating response: " + m` for a failure with message m |
| Completion.Complete | DeepSeek_News_Agent.py:67-88 | the same three outcomes, stated for the endpoint's reply to the request built from the prompt |
| Completion.DiagnosticsDistinct | DeepSeek_News_Agent.py:84-86 | the failure message reads back after `Error generating response: `, and the no-choice sentinel never carries that prefix |
| NewsPipeline.SearchQuery | DeepSeek_News_Agent.py:183-186 | the query is `Latest news about ` followed by the topic verbatim, then ` last 7 days` |
| NewsPipeline.QueryRoundTrip | DeepSeek_News_Agent.py:184 | the topic is recovered exactly from its query |
| NewsPipeline.ShouldAnalyze | DeepSeek_News_Agent.py:188 | the gate stops the no-results message and every output that carries the `Search error: ` prefix |
| NewsPipeline.GateExact | DeepSeek_News_Agent.py:188 | the prefix gate lets through exactly the non-empty result blocks: both failure outputs start with `Search error` or `No results`, and a block starts with `1` |
| NewsPipeline.AnalyzeNews | DeepSeek_News_Agent.py:174-218 | an empty topic gives only the warning. Otherwise, a non-empty result list leads to the composed prompt and the model's answer for it. A search failure or an empty list leads to the search output shown unchanged, and the model is never asked |

## Left out

- The Streamlit page is not modelled: page setup, widgets, spinner, placeholders, expanders, tips, footer and `log_agent_activity`. The model keeps only what the page shows, as a `PageOutcome` value.
- The network calls (`DDGS().news`, `Groq(...).chat.completions.create`) are parameters of the model: a total function from query to reply, and from request to reply.
- The model cannot give the concrete text of `str(e)`, because exception formatting belongs to Python and the client libraries. The error text is an opaque string parameter.
- `print` logging is left out; it has no observable contract.
- Completion.Request: only string prompts are modelled. The `str(prompt)` conversion of dict and list prompts is Python's repr and is left out; the pipeline only ever passes a string.
- Completion.Request: the sampling settings (temperature 0.7, at most 1024 tokens) are not part of the modelled request; they are floating point or provider-side and have no checkable effect.
- Record values are plain strings. A provider value of `None` or of another type would be rendered by Python's f-string as `str(value)`; that is not modelled.
- NewsSearch.BlockRoundTrip: the read-back is proved only when no field of a record contains a newline. With a newline inside a field, the block's lines no longer determine the paragraphs.
- The `analysis_type` selector is collected by the page but never used, so it has no place in the model.
- The search depth slider's 3 to 10 bound belongs to the page, so the model's result cap is any integer.
- NewsSearch.Search: the default `max_results = 5` is dropped; the cap is always an argument, and the page always passes it.
- The handler for "An error occurred during analysis" is left out. The modelled stages catch every exception themselves, so with the calls as parameters that branch cannot be reached.
- Application start-up is left out: client construction, the API key, and the initialisation error message.
