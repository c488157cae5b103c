# Clothing search agent, modelled in Dafny

The agent takes the path of a clothing image and runs a four-step workflow
over one record, `AgentState` (image path, image description, search query,
search results, recommendations):

1. `process_image` asks a vision model to describe the garment;
2. `generate_query` asks a text model for a short search query and removes
   the double quotes around its reply;
3. `search_internet` sends the query to the Serper web search service;
4. `recommend_stores` keeps the `link` of the first five organic results.

Each step returns a copy of the record with one field replaced. None of them
raises: the first two return their input unchanged on failure, the last two
write a default into their own field.

The model is pure, as the source is:

- `values.dfy` (`Values`): the optional reply of an external call and a
  JSON-like `Json` value for the search payload.
- `strip.dfy` (`QuoteStrip`): `str.strip('"')`. It is characterised by
  `TrimmedOf`: the result is the input minus one run of quotes at each end,
  and it neither starts nor ends with a quote.
- `agent.dfy` (`Agent`): the record, the four steps and the workflow.
- `properties.dfy` (`AgentProperties`): lemmas about the steps and the
  whole run.
- `scenarios.dfy` (`Scenarios`): worked cases on concrete values.

The three external services are parameters of type `string -> Option<…>`.
Each maps what the step sends to the service's reply, and `None` stands for
a call that raised. The vision model receives `"./" + image_path`. The text
model receives the description. The search service receives the query.

Notes on what the code does:

- The search results are not always a mapping with an `organic` list. A
  mapping reply from the service is stored as it came, with or without
  `organic`. Only a failure, an empty query or a non-mapping reply give
  `{"organic": []}` (see `Scenarios.MappingReplyKeptWithoutOrganic`).
  `recommend_stores` copes with this through its `.get("organic", [])`
  default.
- The query is not checked to be at most three words long. Only the prompt
  asks for it.
- Recommendations are whatever the `link` keys hold, not necessarily text.
  They are modelled as `seq<Json>`.
- The record always carries all five keys. The initial state sets them all,
  and every step copies the whole record. So the source's "key not in state"
  tests reduce to the emptiness tests (description and query) or never fire
  (search results).

## Model

| member | source | states |
|---|---|---|
| `QuoteStrip.StripLeading` | main.py:57 | the input is a run of quotes followed by the result, and the result does not start with a quote |
| `QuoteStrip.StripTrailing` | main.py:57 | the input is the result followed by a run of quotes, and the result does not end with a quote |
| `QuoteStrip.StripQuotesTrims` | main.py:57 | `strip('"')` removes one run of quotes from each end and leaves a text neither starting nor ending with a quote |
| `QuoteStrip.TrimmedIsStripQuotes` | main.py:57 | any text obtained by cutting quote runs off both ends that has no quote at either end is exactly the stripped result (uniqueness) |
| `QuoteStrip.StripQuotesCharacterised` | main.py:57 | `StripQuotes(s) == t` if and only if `t` is the quote-trimmed form of `s` |
| `QuoteStrip.StripQuotesUnquoted` | main.py:57 | the stored query neither starts nor ends with `"` |
| `QuoteStrip.StripQuotesIdempotent` | main.py:57 | stripping the quotes a second time changes nothing |
| `Agent.ProcessImage` | main.py:21-40 | only `image_description` may change; a failed vision call returns the record unchanged, a successful one stores the model's text as the description |
| `Agent.GenerateQuery` | main.py:42-61 | only `search_query` may change; an empty description or a failed text call returns the record unchanged; otherwise the query is the quote-trimmed model reply, and any new query has no quote at either end |
| `Agent.SearchInternet` | main.py:63-80 | only `search_results` changes and it is always a mapping; it is exactly `{"organic": []}` for an empty query, a failed call or a non-mapping reply, and the reply itself when that is a mapping |
| `Agent.Links` | main.py:88 | the comprehension succeeds if and only if every record is a mapping, and then entry i is the `link` (or `""`) of record i, with as many entries as records |
| `Agent.Recommend` | main.py:82-99 | at most five entries; for a usable reply, entry i is the `link` (or `""`) of organic result i, for the first min(5, n) results in the search engine's order; for an unusable reply, no entries |
| `Agent.RecommendStores` | main.py:82-99 | only `recommendations` changes, it has at most five entries, and it is the extraction of the record's search results |
| `Agent.Pipeline` | main.py:108-112 | the four steps once each, in order; the image path is kept, the results are a mapping, and the final recommendations are at most five and are the extraction of the final search results |
| `AgentProperties.RecommendFailsClosed` | main.py:84-99 | a non-mapping reply, a non-list `organic`, a non-mapping among the first five results, or a missing `organic` key each give no recommendations |
| `AgentProperties.RecommendIgnoresTail` | main.py:88 | results after the fifth never affect the recommendations |
| `AgentProperties.RecommendStoresIdempotent` | main.py:88-93 | running `recommend_stores` again gives the same record |
| `AgentProperties.RecommendationsFollowSearchResults` | main.py:87-93 | two records with the same search results get the same recommendations |
| `AgentProperties.AllQuotesStripToEmpty` | main.py:57 | a model reply made only of quotes leaves an empty query |
| `AgentProperties.NoQueryNoRecommendations` | main.py:21-112 | from the initial record, a failed or empty description, a failed text model, or a reply made only of quotes leaves no query; the results are then `{"organic": []}` and there are no recommendations |
| `AgentProperties.PipelineSucceeds` | main.py:21-112 | when the vision model gives a non-empty description, the text model's reply does not strip to `""`, and the search service answers that query with a mapping, the final record holds the description, the unquoted query, the reply as it came and the links of its first five results |
| `Scenarios.TwoResults` | main.py:87-88 | two organic results give their two links, in order |
| `Scenarios.NoOrganicKey` | main.py:87 | a reply without `organic` gives no links |
| `Scenarios.MissingLinkIsEmptyText` | main.py:88 | a result without `link` contributes `""` |
| `Scenarios.QuotedModelReply` | main.py:42-58 | when the text model replies `"blue denim jacket"` in quotes, `generate_query` stores the query `blue denim jacket` |
| `Scenarios.SevenResults` | main.py:88 | of seven results only the first five links are kept, in order |
| `Scenarios.ShapeOnlyCheckedInTopFive` | main.py:88 | a non-mapping sixth result is ignored, while a non-mapping second result empties the list |
| `Scenarios.MappingReplyKeptWithoutOrganic` | main.py:71-74 | a mapping reply without `organic` is stored unchanged |

## Left out

- The vision and text model clients and their invocation (main.py:11-12, 29-31, 51-53). They are foreign calls, so each becomes an oracle parameter whose reply is text or a failure.
- The Serper search wrapper and its API-key setting (main.py:2, 10, 68-69). This is network I/O, so it becomes an oracle parameter whose reply is a `Json` value or a failure.
- The prompt templates (main.py:25-27, 47-49). They are opaque text handed to the models.
- The LangGraph graph construction and compilation (main.py:101-115). This is library code; only the fixed order of the four steps is kept, in `Agent.Pipeline`.
- The error and result printing (main.py:39, 60, 76, 95, 126-132). It is output only.
- The image file is never read: only its path text, `./<image_path>`, reaches the vision model's prompt (main.py:31), and the model passes that text on in `Agent.ImageRef`.
- JSON numbers are integers in `Json`. No step inspects a number, so fractional values would only be passed through.
- Exceptions are not told apart by kind. Each step's single catch treats every error the same way.
