/** Properties of the agent's steps and of the whole workflow. */
module AgentProperties {
  import opened Values
  import opened QuoteStrip
  import opened Agent

  /** A reply that is not a mapping, an `organic` entry that is not a list,
      or a non-mapping among the first five results all give no links;
      so does a mapping without `organic`. */
  lemma RecommendFailsClosed(results: Json)
    ensures !results.JObj? ==> Recommend(results) == []
    ensures results.JObj? && "organic" in results.fields && !results.fields["organic"].JArr? ==>
              Recommend(results) == []
    ensures results.JObj? && "organic" !in results.fields ==> Recommend(results) == []
    ensures (results.JObj? && "organic" in results.fields && results.fields["organic"].JArr? &&
             exists i :: 0 <= i < |results.fields["organic"].items| && i < TopCount &&
                         !results.fields["organic"].items[i].JObj?) ==> Recommend(results) == []
  {
  }

  /** Results past the fifth are never looked at: appending anything after
      five ranked results leaves the recommendations as they were. */
  lemma RecommendIgnoresTail(head: seq<Json>, tail: seq<Json>, fields: map<string, Json>)
    requires |head| == TopCount
    ensures Recommend(JObj(fields["organic" := JArr(head + tail)])) ==
            Recommend(JObj(fields["organic" := JArr(head)]))
  {
    var long := JObj(fields["organic" := JArr(head + tail)]);
    var short := JObj(fields["organic" := JArr(head)]);
    assert Ranked(long)[..TopCount] == Ranked(short);
    assert Usable(long) <==> Usable(short) by {
      assert forall i :: 0 <= i < TopCount ==> Ranked(long)[i] == Ranked(short)[i];
    }
  }

  /** Picking the links again gives the same list. */
  lemma RecommendStoresIdempotent(s: State)
    ensures RecommendStores(RecommendStores(s)) == RecommendStores(s)
  {
  }

  /** The final recommendations are a function of the results the search
      step stored, and nothing else of the record. */
  lemma RecommendationsFollowSearchResults(a: State, b: State)
    requires a.searchResults == b.searchResults
    ensures RecommendStores(a).recommendations == RecommendStores(b).recommendations
  {
  }

  /** A text made only of quote characters strips to nothing. */
  lemma {:induction false} AllQuotesStripToEmpty(raw: string)
    requires forall i :: 0 <= i < |raw| ==> raw[i] == '"'
    ensures StripQuotes(raw) == ""
  {
    assert raw == Quotes(|raw|) + "" + Quotes(0);
    TrimmedIsStripQuotes(raw, "");
  }

  /** When no query comes out of the first two steps, the search step
      falls back to `{"organic": []}` and nothing is recommended: a failed
      or empty description, a failed text model, or a model reply made only
      of quotes all end the run with an empty list. */
  lemma NoQueryNoRecommendations(path: string, vision: VisionModel, text: TextModel, search: SearchService)
    requires vision(ImageRef(path)).None? || vision(ImageRef(path)) == Some("") ||
             (text(vision(ImageRef(path)).value).None? ||
              forall i :: 0 <= i < |text(vision(ImageRef(path)).value).value| ==>
                          text(vision(ImageRef(path)).value).value[i] == '"')
    ensures Pipeline(Initial(path), vision, text, search) ==
            State(path, if vision(ImageRef(path)).Some? then vision(ImageRef(path)).value else "",
                  "", EmptyOrganic, [])
  {
    var described := ProcessImage(Initial(path), vision);
    var queried := GenerateQuery(described, text);
    if described.imageDescription != "" && text(described.imageDescription).Some? {
      AllQuotesStripToEmpty(text(described.imageDescription).value);
    }
    assert queried.searchQuery == "";
    var searched := SearchInternet(queried, search);
    assert Ranked(EmptyOrganic) == [];
    assert Recommend(searched.searchResults) == [];
  }

  /** When every service answers, the record ends up with the description,
      the unquoted query, the reply stored as it came and the links of its
      first five results. */
  lemma PipelineSucceeds(path: string, vision: VisionModel, text: TextModel, search: SearchService,
                         description: string, raw: string, reply: map<string, Json>)
    requires vision(ImageRef(path)) == Some(description) && description != ""
    requires text(description) == Some(raw) && StripQuotes(raw) != ""
    requires search(StripQuotes(raw)) == Some(JObj(reply))
    ensures Pipeline(Initial(path), vision, text, search) ==
            State(path, description, StripQuotes(raw), JObj(reply), Recommend(JObj(reply)))
    ensures Unquoted(Pipeline(Initial(path), vision, text, search).searchQuery)
  {
    StripQuotesUnquoted(raw);
  }
}
