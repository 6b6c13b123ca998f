/**
 * The vault list that `loadVault` (popup) and `loadWords` (review page) put on screen:
 * a "Total words" line, then either the empty-state block or one card per stored word,
 * newest first. The model keeps which text each card's divs hold and which divs appear,
 * not their markup.
 */
module VaultView {

  import opened Options
  import opened JsString
  import opened Cards
  import opened VaultOrder
  import Markdown

  /** One `word-card`: title, the optional meaning, understanding and context divs, and the date. */
  datatype CardView = CardView(
    title: string,
    meaning: Option<string>,
    understanding: Option<string>,
    context: Option<string>,
    date: string)

  datatype WordList = EmptyState | CardList(cards: seq<CardView>)

  /** The stats line and the word list. */
  datatype Page = Page(stats: string, list: WordList)

  const StatsPrefix := "Total words: "
  const Pin := "\U{1F4CD} "

  /** The optional div for `field`: present exactly when the field is non-empty, holding `lead` and the escaped field. */
  function Div(host: Host, lead: string, field: string): (r: Option<string>)
    ensures r.Some? <==> field != ""
  {
    if field == "" then None else Some(lead + host.escapeHtml(field))
  }

  function CardViewOf(host: Host, c: Card): CardView {
    CardView(
      host.escapeHtml(Title(c)),
      Div(host, "", c.meaning),
      Div(host, "", c.mnemonic),
      Div(host, Pin, c.context),
      FormatDate(host, c.dateAdded))
  }

  /** `words.map(...)`: one view per card, in the same order. */
  function CardViews(host: Host, order: seq<Card>): (r: seq<CardView>)
    ensures |r| == |order|
    ensures forall k :: 0 <= k < |order| ==> r[k] == CardViewOf(host, order[k])
  {
    if order == [] then [] else [CardViewOf(host, order[0])] + CardViews(host, order[1..])
  }

  function StatsLine(total: nat): string {
    StatsPrefix + Decimal(total)
  }

  /** The page for the stored list: the count of all stored cards, then the list. */
  function VaultPage(host: Host, stored: seq<Card>): Page {
    Page(StatsLine(|stored|),
         if stored == [] then EmptyState else CardList(CardViews(host, NewestFirst(host, stored))))
  }

  /** Reads the number back from a stats line. */
  function ParseStats(line: string): Option<nat> {
    if HasPrefix(line, StatsPrefix) then ParseDecimal(line[|StatsPrefix|..]) else None
  }

  /** The stats line always reports the number of stored cards, 0 included. */
  lemma StatsReportsCount(host: Host, stored: seq<Card>)
    ensures ParseStats(VaultPage(host, stored).stats) == Some(|stored|)
  {
    var d := Decimal(|stored|);
    assert (StatsPrefix + d)[..|StatsPrefix|] == StatsPrefix;
    assert (StatsPrefix + d)[|StatsPrefix|..] == d;
    ParseDecimalOfDecimal(|stored|);
  }

  /**
   * The empty-state block shows exactly when nothing is stored; otherwise there is one
   * card per stored word, in an order that is newest first and holds every stored card.
   */
  lemma ShowsEveryCard(host: Host, stored: seq<Card>)
    ensures VaultPage(host, stored).list.EmptyState? <==> stored == []
    ensures stored != [] ==>
      var order := NewestFirst(host, stored);
      && VaultPage(host, stored).list == CardList(CardViews(host, order))
      && |VaultPage(host, stored).list.cards| == |stored|
      && IsNewestFirst(host, order)
      && multiset(order) == multiset(stored)
  {
    NewestFirstSortsAndPermutes(host, stored);
  }

  /**
   * The vault list and the Markdown export agree on every card: a meaning, understanding
   * or context div appears exactly when the card's export section carries that line.
   */
  lemma ViewAgreesWithExport(host: Host, c: Card)
    ensures Markdown.ParseSection(Markdown.SectionLines(host, c)).Some?
    ensures var v := Markdown.ParseSection(Markdown.SectionLines(host, c)).value.0;
      && (CardViewOf(host, c).meaning.Some? <==> v.meaning != "")
      && (CardViewOf(host, c).understanding.Some? <==> v.note != "")
      && (CardViewOf(host, c).context.Some? <==> v.context != "")
      && (CardViewOf(host, c).date == v.date)
  {
    Markdown.ParseSectionOfCard(host, c, []);
    assert Markdown.SectionLines(host, c) + [] == Markdown.SectionLines(host, c);
  }

  /** `loadVault` / `loadWords` on the list read from storage: sorts a copy in place and renders it. */
  method Render(host: Host, stored: seq<Card>) returns (page: Page)
    ensures page == VaultPage(host, stored)
  {
    var stats := StatsLine(|stored|);
    if |stored| == 0 {
      return Page(stats, EmptyState);
    }
    var words := new Card[|stored|](i requires 0 <= i < |stored| => stored[i]);
    assert words[..] == stored;
    SortNewestFirst(host, words);
    page := Page(stats, CardList(CardViews(host, words[..])));
  }
}
