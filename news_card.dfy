/**
 * The news card component: a pure function of one news item and its position in the
 * grid. Styling is left out except for the class string chosen for each tag.
 */
module NewsCard {
  import opened Wrappers
  import Decimal

  datatype NewsItem = NewsItem(
    id: string,
    title: string,
    snippet: string,
    detailedSnippet: string,
    date: string,
    source: string,
    link: string,
    tags: seq<string>)

  /** The style class of each known category tag. */
  const TagColors: map<string, string> := map[
    "LLM/Models" := "bg-blue-100 dark:bg-blue-900/50 text-blue-800 dark:text-blue-300 border-blue-300 dark:border-blue-700",
    "Tech/Infrastructure" := "bg-green-100 dark:bg-green-900/50 text-green-800 dark:text-green-300 border-green-300 dark:border-green-700",
    "Research/Innovation" := "bg-purple-100 dark:bg-purple-900/50 text-purple-800 dark:text-purple-300 border-purple-300 dark:border-purple-700",
    "Business/Industry" := "bg-orange-100 dark:bg-orange-900/50 text-orange-800 dark:text-orange-300 border-orange-300 dark:border-orange-700",
    "Policy/Regulation" := "bg-red-100 dark:bg-red-900/50 text-red-800 dark:text-red-300 border-red-300 dark:border-red-700",
    "Security/Privacy" := "bg-pink-100 dark:bg-pink-900/50 text-pink-800 dark:text-pink-300 border-pink-300 dark:border-pink-700",
    "Applications" := "bg-indigo-100 dark:bg-indigo-900/50 text-indigo-800 dark:text-indigo-300 border-indigo-300 dark:border-indigo-700",
    "Performance" := "bg-cyan-100 dark:bg-cyan-900/50 text-cyan-800 dark:text-cyan-300 border-cyan-300 dark:border-cyan-700"
  ]

  /** The class of a tag the table does not know. */
  const FallbackTagClass: string := "bg-gray-700/50 text-gray-300 border-gray-600"

  /**
   * The class of one tag: its table entry, or the fallback. Total: no tag is an error,
   * and the fallback is chosen exactly for the tags outside the table.
   */
  function TagClass(tag: string): (cls: string)
    ensures tag in TagColors ==> cls == TagColors[tag]
    ensures cls == FallbackTagClass <==> tag !in TagColors
  {
    if tag in TagColors then TagColors[tag] else FallbackTagClass
  }

  /** Each of the eight categories gets exactly its own entry. */
  lemma TagClassTable()
    ensures |TagColors| == 8
    ensures TagClass("LLM/Models") == "bg-blue-100 dark:bg-blue-900/50 text-blue-800 dark:text-blue-300 border-blue-300 dark:border-blue-700"
    ensures TagClass("Tech/Infrastructure") == "bg-green-100 dark:bg-green-900/50 text-green-800 dark:text-green-300 border-green-300 dark:border-green-700"
    ensures TagClass("Research/Innovation") == "bg-purple-100 dark:bg-purple-900/50 text-purple-800 dark:text-purple-300 border-purple-300 dark:border-purple-700"
    ensures TagClass("Business/Industry") == "bg-orange-100 dark:bg-orange-900/50 text-orange-800 dark:text-orange-300 border-orange-300 dark:border-orange-700"
    ensures TagClass("Policy/Regulation") == "bg-red-100 dark:bg-red-900/50 text-red-800 dark:text-red-300 border-red-300 dark:border-red-700"
    ensures TagClass("Security/Privacy") == "bg-pink-100 dark:bg-pink-900/50 text-pink-800 dark:text-pink-300 border-pink-300 dark:border-pink-700"
    ensures TagClass("Applications") == "bg-indigo-100 dark:bg-indigo-900/50 text-indigo-800 dark:text-indigo-300 border-indigo-300 dark:border-indigo-700"
    ensures TagClass("Performance") == "bg-cyan-100 dark:bg-cyan-900/50 text-cyan-800 dark:text-cyan-300 border-cyan-300 dark:border-cyan-700"
  {
  }

  /** One tag chip: the tag's own text and the class it is drawn with. */
  datatype Chip = Chip(text: string, cls: string)

  /** `tags.map(...)`: one chip per tag, in the tags' order. */
  function Chips(tags: seq<string>): (chips: seq<Chip>)
    ensures |chips| == |tags|
    ensures forall i :: 0 <= i < |tags| ==> chips[i].text == tags[i] && chips[i].cls == TagClass(tags[i])
  {
    if tags == [] then [] else [Chip(tags[0], TagClass(tags[0]))] + Chips(tags[1..])
  }

  /** The tag row: absent for an empty tag list, otherwise the chips. */
  function TagRow(tags: seq<string>): (row: Option<seq<Chip>>)
    ensures row.None? <==> tags == []
    ensures row.Some? ==> |row.value| == |tags|
    ensures row.Some? ==> forall i :: 0 <= i < |tags| ==> row.value[i] == Chip(tags[i], TagClass(tags[i]))
  {
    if |tags| > 0 then Some(Chips(tags)) else None
  }

  /** The rank shown before the title: "#" and the one-based position `index + 1`. */
  function RankLabel(index: nat): (rank: string)
    ensures |rank| >= 2 && rank[0] == '#'
    ensures Decimal.AllDigits(rank[1..]) && Decimal.ParseNat(rank[1..]) == index + 1
  {
    var digits := Decimal.NatToString(index + 1);
    Decimal.ParseNatToString(index + 1);
    assert ("#" + digits)[1..] == digits;
    "#" + digits
  }

  /**
   * What one card shows and does: the rank, the title linking to the article, the
   * tag row, the date, the body text, the source, and the item that the "details"
   * affordance passes to the selection callback.
   */
  datatype Card = Card(
    rankLabel: string,
    title: string,
    link: string,
    tagRow: Option<seq<Chip>>,
    date: string,
    body: string,
    source: string,
    detailsArgument: NewsItem)

  function Render(news: NewsItem, index: nat): (card: Card)
    ensures card.detailsArgument == news
    ensures card.rankLabel == RankLabel(index)
    ensures card.title == news.title && card.link == news.link
    ensures card.tagRow == TagRow(news.tags)
    ensures card.tagRow.None? <==> news.tags == []
    ensures card.date == news.date && card.source == news.source
    ensures card.body == news.detailedSnippet
  {
    Card(RankLabel(index), news.title, news.link, TagRow(news.tags),
         news.date, news.detailedSnippet, news.source, news)
  }
}
