/**
 * The full-page word vault (review.js): on load it shows the stored cards, and its clear
 * button empties them. Its export handler is the popup's code again and is modelled
 * once, as `Markdown.Export`. The page's state is what its stats line and word list display.
 */
module Review {

  import opened Options
  import opened Cards
  import opened VaultView
  import opened Background

  class ReviewPage {
    var shown: Page

    /** The `DOMContentLoaded` handler ends by calling `loadWords`. */
    constructor (host: Host, store: Store)
      ensures shown == VaultPage(host, store.Words())
    {
      var page := Render(host, store.Words());
      shown := page;
    }

    /** `loadWords`: the stats line and list for what storage holds now. */
    method LoadWords(host: Host, store: Store)
      modifies this
      ensures shown == VaultPage(host, store.Words())
    {
      shown := Render(host, store.Words());
    }

    /**
     * The clear button: a confirmed prompt empties storage and the reload then shows
     * "Total words: 0" over the empty state; a dismissed prompt changes nothing.
     */
    method ClearAll(host: Host, store: Store, confirmed: bool)
      modifies this, store
      ensures confirmed ==> store.words == Some([]) && shown == Page(StatsLine(0), EmptyState)
      ensures !confirmed ==> store.words == old(store.words) && shown == old(shown)
      ensures store.pendingWord == old(store.pendingWord) && store.sourceUrl == old(store.sourceUrl)
    {
      if confirmed {
        store.ClearWords();
        LoadWords(host, store);
      }
    }
  }

  /** After a confirmed clear, the stats line reads back as 0 and no card is listed. */
  lemma ClearedVaultIsEmpty(host: Host)
    ensures VaultPage(host, []) == Page(StatsLine(0), EmptyState)
    ensures ParseStats(VaultPage(host, []).stats) == Some(0)
  {
    StatsReportsCount(host, []);
  }
}
