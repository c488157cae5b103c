/** Worked cases of the agent's steps on concrete values. */
module Scenarios {
  import opened Values
  import opened QuoteStrip
  import opened Agent

  function Result(link: string): (record: Json)
  {
    JObj(map["link" := JStr(link)])
  }

  /** Two ranked results give their two links, in order. */
  lemma TwoResults()
    ensures Recommend(JObj(map["organic" := JArr([Result("http://a.com"), Result("http://b.com")])])) ==
            [JStr("http://a.com"), JStr("http://b.com")]
  {
    var results := JObj(map["organic" := JArr([Result("http://a.com"), Result("http://b.com")])]);
    assert Usable(results);
  }

  /** A reply without `organic` gives no links. */
  lemma NoOrganicKey()
    ensures Recommend(JObj(map[])) == []
  {
  }

  /** A result record without `link` contributes `""` in its place. */
  lemma MissingLinkIsEmptyText()
    ensures Recommend(JObj(map["organic" := JArr([JObj(map["title" := JStr("t")]), Result("http://b.com")])])) ==
            [JStr(""), JStr("http://b.com")]
  {
    var results := JObj(map["organic" := JArr([JObj(map["title" := JStr("t")]), Result("http://b.com")])]);
    assert Usable(results);
  }

  /** A model reply wrapped in quotes is stored as the query without them. */
  lemma QuotedModelReply(s: State, text: TextModel)
    requires s.imageDescription != ""
    requires text(s.imageDescription) == Some("\"blue denim jacket\"")
    ensures GenerateQuery(s, text).searchQuery == "blue denim jacket"
  {
    var raw := "\"blue denim jacket\"";
    assert raw == Quotes(1) + "blue denim jacket" + Quotes(1);
    TrimmedIsStripQuotes(raw, "blue denim jacket");
  }

  /** Of seven ranked results only the first five links are kept, in order. */
  lemma SevenResults()
    ensures Recommend(JObj(map["organic" := JArr([Result("1"), Result("2"), Result("3"), Result("4"),
                                                    Result("5"), Result("6"), Result("7")])])) ==
            [JStr("1"), JStr("2"), JStr("3"), JStr("4"), JStr("5")]
  {
    var items := [Result("1"), Result("2"), Result("3"), Result("4"), Result("5"), Result("6"), Result("7")];
    var results := JObj(map["organic" := JArr(items)]);
    assert Ranked(results) == items;
    assert forall i :: 0 <= i < |items| ==> items[i].JObj?;
    assert Usable(results);
    var r := Recommend(results);
    assert |r| == 5;
    assert r[0] == JStr("1") && r[1] == JStr("2") && r[2] == JStr("3") && r[3] == JStr("4") && r[4] == JStr("5");
  }

  /** A non-mapping sixth result is never looked at, while the same value
      among the first five makes the whole extraction fail. */
  lemma ShapeOnlyCheckedInTopFive()
    ensures Recommend(JObj(map["organic" := JArr([Result("1"), Result("2"), Result("3"), Result("4"),
                                                    Result("5"), JNull])])) ==
            [JStr("1"), JStr("2"), JStr("3"), JStr("4"), JStr("5")]
    ensures Recommend(JObj(map["organic" := JArr([Result("1"), JNull])])) == []
  {
    var results := JObj(map["organic" := JArr([Result("1"), Result("2"), Result("3"), Result("4"),
                                                 Result("5"), JNull])]);
    assert Usable(results);
    var bad := JObj(map["organic" := JArr([Result("1"), JNull])]);
    assert Ranked(bad)[1] == JNull;
  }

  /** A search reply that is a mapping without `organic` is stored as it
      came, not replaced by `{"organic": []}`. */
  lemma MappingReplyKeptWithoutOrganic(s: State)
    requires s.searchQuery != ""
    ensures SearchInternet(s, _ => Some(JObj(map[]))).searchResults == JObj(map[])
    ensures "organic" !in SearchInternet(s, _ => Some(JObj(map[]))).searchResults.fields
  {
  }
}
