/**
 * The word card, the only record the extension persists, and the calls into the
 * browser that the vault pages make while showing cards.
 */
module Cards {

  import opened JsString

  /**
   * One saved word. A field the stored object lacks is "" here: every reader of a
   * card tests its fields for truthiness, which treats a missing field and "" alike.
   */
  datatype Card = Card(
    word: string,
    meaning: string,    // the dictionary's first definition
    mnemonic: string,   // the user's own note, shown as "My understanding"
    context: string,
    sourceUrl: string,
    dateAdded: string)  // an ISO-8601 timestamp

  /** The active browser tab, as `tabs[0]` gives it. */
  datatype Tab = Tab(url: string)

  /**
   * Browser functions whose results the model does not compute:
   * `new Date(s).toLocaleDateString('en-US', ...)`, the DOM-based `escapeHtml`,
   * and the millisecond value of `new Date(s)` that the newest-first comparator subtracts.
   */
  datatype Host = Host(
    localeDate: string -> string,
    escapeHtml: string -> string,
    timestamp: string -> int)

  /** `formatDate`: a missing or empty date reads "Unknown date", any other the host's locale rendering. */
  function FormatDate(host: Host, dateString: string): (r: string)
    ensures dateString == "" ==> r == "Unknown date"
    ensures dateString != "" ==> r == host.localeDate(dateString)
  {
    if dateString == "" then "Unknown date" else host.localeDate(dateString)
  }

  /** `word.word || 'Untitled'`: the heading of a card in both the vault view and the export. */
  function Title(c: Card): (r: string)
    ensures r != ""
    ensures c.word != "" ==> r == c.word
    ensures c.word == "" ==> r == "Untitled"
  {
    if c.word == "" then "Untitled" else c.word
  }

  /** The card's sort key: the newest-first comparator orders cards by this value, larger first. */
  function Stamp(host: Host, c: Card): int {
    host.timestamp(c.dateAdded)
  }
}
