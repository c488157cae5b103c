/** The clothing-search agent: one record threaded through four steps
    (describe the image, generate a query, search the web, pick store
    links). Each step returns a copy of the record with one field replaced.
    The vision model, the text model and the search service are oracle
    parameters: a function from what the step sends them to their reply,
    `None` standing for a call that raised. */
module Agent {
  import opened Values
  import opened QuoteStrip

  /** The agent's record; the source's record always carries all five keys. */
  datatype State = State(
    imagePath: string,
    imageDescription: string,
    searchQuery: string,
    searchResults: Json,
    recommendations: seq<Json>)

  /** The fields of `State`, to say which one a step may change. */
  datatype Field = ImagePath | ImageDescription | SearchQuery | SearchResults | Recommendations

  /** Vision model: image reference to description. */
  type VisionModel = string -> Option<string>
  /** Text model: description to raw query text. */
  type TextModel = string -> Option<string>
  /** Search service: query to reply payload. */
  type SearchService = string -> Option<Json>

  predicate SameField(a: State, b: State, f: Field)
  {
    match f
    case ImagePath => a.imagePath == b.imagePath
    case ImageDescription => a.imageDescription == b.imageDescription
    case SearchQuery => a.searchQuery == b.searchQuery
    case SearchResults => a.searchResults == b.searchResults
    case Recommendations => a.recommendations == b.recommendations
  }

  /** `b` agrees with `a` on every field except possibly `f`. */
  predicate OnlyChanged(a: State, b: State, f: Field)
  {
    forall g: Field :: g != f ==> SameField(a, b, g)
  }

  /** The record the agent starts from: only the image path is set. */
  function Initial(imagePath: string): (s: State)
  {
    State(imagePath, "", "", JObj(map[]), [])
  }

  /** What the vision model is shown for an image path. */
  function ImageRef(imagePath: string): (ref: string)
  {
    "./" + imagePath
  }

  /** Describe the image. A failed call leaves the record as it was;
      otherwise the model's text, unchecked, becomes the description. */
  function ProcessImage(s: State, vision: VisionModel): (r: State)
    ensures OnlyChanged(s, r, ImageDescription)
    ensures vision(ImageRef(s.imagePath)).None? ==> r == s
    ensures vision(ImageRef(s.imagePath)).Some? ==>
              r.imageDescription == vision(ImageRef(s.imagePath)).value
  {
    match vision(ImageRef(s.imagePath))
    case Some(description) => s.(imageDescription := description)
    case None => s
  }

  /** Turn the description into a query. With no description, or when
      the text model fails, the record is returned as it was; otherwise
      the model's text with its surrounding quotes removed becomes the query. */
  function GenerateQuery(s: State, text: TextModel): (r: State)
    ensures OnlyChanged(s, r, SearchQuery)
    ensures s.imageDescription == "" ==> r == s
    ensures text(s.imageDescription).None? ==> r == s
    ensures s.imageDescription != "" && text(s.imageDescription).Some? ==>
              TrimmedOf(text(s.imageDescription).value, r.searchQuery)
    ensures r.searchQuery != s.searchQuery ==> Unquoted(r.searchQuery)
  {
    if s.imageDescription == "" then
      s
    else
      match text(s.imageDescription)
      case Some(raw) =>
        StripQuotesTrims(raw);
        s.(searchQuery := StripQuotes(raw))
      case None => s
  }

  /** Query the search service. With no query, a failed call or a reply
      that is not a mapping, the results become `{"organic": []}`;
      a mapping reply is stored as it is. */
  function SearchInternet(s: State, search: SearchService): (r: State)
    ensures OnlyChanged(s, r, SearchResults)
    ensures r.searchResults.JObj?
    ensures (s.searchQuery == "" || search(s.searchQuery).None? ||
             !search(s.searchQuery).value.JObj?) ==> r.searchResults == EmptyOrganic
    ensures (s.searchQuery != "" && search(s.searchQuery).Some? &&
             search(s.searchQuery).value.JObj?) ==> r.searchResults == search(s.searchQuery).value
  {
    if s.searchQuery == "" then
      s.(searchResults := EmptyOrganic)
    else
      match search(s.searchQuery)
      case Some(reply) =>
        s.(searchResults := if reply.JObj? then reply else EmptyOrganic)
      case None => s.(searchResults := EmptyOrganic)
  }

  /** The `link` of each result record in `items`, in order, or `None` as
      soon as one of them is not a mapping (the comprehension raises). */
  function Links(items: seq<Json>): (r: Option<seq<Json>>)
    ensures r.Some? <==> forall i :: 0 <= i < |items| ==> items[i].JObj?
    ensures r.Some? ==> (|r.value| == |items| &&
              forall i :: 0 <= i < |items| ==> r.value[i] == LinkOf(items[i].fields))
  {
    if items == [] then
      Some([])
    else
      match items[0]
      case JObj(entry) =>
        (match Links(items[1..])
         case Some(rest) => Some([LinkOf(entry)] + rest)
         case None => None)
      case _ => None
  }

  /** The number of results the agent recommends at most. */
  const TopCount := 5

  function Min(a: int, b: int): (m: int)
  {
    if a < b then a else b
  }

  /** The ranked results as the search service listed them: the `organic`
      list, or none when the key is missing. */
  ghost function Ranked(results: Json): (ranked: seq<Json>)
    requires results.JObj?
  {
    if "organic" in results.fields && results.fields["organic"].JArr? then
      results.fields["organic"].items
    else
      []
  }

  /** The reply has the shape the extraction needs: a mapping whose
      `organic` entry, if present, is a list whose first five
      elements are mappings. */
  ghost predicate Usable(results: Json)
  {
    results.JObj? &&
    ("organic" in results.fields ==> results.fields["organic"].JArr?) &&
    forall i :: 0 <= i < |Ranked(results)| && i < TopCount ==> Ranked(results)[i].JObj?
  }

  /** The links of the first five ranked results, each `""` when the
      record has none, or no links at all when the reply is not usable. */
  function Recommend(results: Json): (r: seq<Json>)
    ensures |r| <= TopCount
    ensures Usable(results) ==> (|r| == Min(TopCount, |Ranked(results)|) &&
              forall i :: 0 <= i < |r| ==> r[i] == LinkOf(Ranked(results)[i].fields))
    ensures !Usable(results) ==> r == []
  {
    match results
    case JObj(fields) =>
      var organic := if "organic" in fields then fields["organic"] else JArr([]);
      (match organic
       case JArr(items) =>
         (match Links(items[..Min(TopCount, |items|)])
          case Some(links) => links
          case None => [])
       case _ => [])
    case _ => []
  }

  /** Pick the store links from the search results. */
  function RecommendStores(s: State): (r: State)
    ensures OnlyChanged(s, r, Recommendations)
    ensures |r.recommendations| <= TopCount
    ensures r.recommendations == Recommend(s.searchResults)
  {
    s.(recommendations := Recommend(s.searchResults))
  }

  /** The workflow: the four steps once each, in their fixed order. */
  function Pipeline(init: State, vision: VisionModel, text: TextModel, search: SearchService): (r: State)
    ensures r.imagePath == init.imagePath
    ensures r.searchResults.JObj?
    ensures |r.recommendations| <= TopCount
    ensures r.recommendations == Recommend(r.searchResults)
  {
    var described := ProcessImage(init, vision);
    var queried := GenerateQuery(described, text);
    var searched := SearchInternet(queried, search);
    RecommendStores(searched)
  }
}
