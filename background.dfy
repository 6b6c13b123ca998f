/**
 * The service worker (background.js): the keyboard command that hands a selected word
 * to a new capture window, and the `saveWord` / `getWords` message handlers over the
 * extension's local storage. Storage is the object `Store`; its three fields are the
 * storage keys the extension uses, None while a key is unset.
 */
module Background {

  import opened Options
  import opened JsString
  import opened Cards

  /** A runtime message: its `action` and the card properties it carries, None when the sender left one out. */
  datatype Message = Message(
    action: string,
    word: Option<string>,
    meaning: Option<string>,
    mnemonic: Option<string>,
    context: Option<string>,
    sourceUrl: Option<string>,
    dateAdded: Option<string>)

  /** What `sendResponse` answers. */
  datatype Reply = SaveReply(success: bool) | ListReply(words: seq<Card>)

  /**
   * The card the `saveWord` handler stores: the request's fields, "" for those it lacks,
   * and the handler's own timestamp `now` whatever date the request carries.
   */
  function CardFromRequest(request: Message, now: string): (c: Card)
    ensures c.word == OrEmpty(request.word)
    ensures c.meaning == OrEmpty(request.meaning) && c.mnemonic == OrEmpty(request.mnemonic)
    ensures c.context == OrEmpty(request.context) && c.sourceUrl == OrEmpty(request.sourceUrl)
    ensures c.dateAdded == now
  {
    Card(request.word.GetOr(""), request.meaning.GetOr(""), request.mnemonic.GetOr(""),
         request.context.GetOr(""), request.sourceUrl.GetOr(""), now)
  }

  /** The request's own `dateAdded` plays no part in the stored card. */
  lemma RequestDateIgnored(request: Message, other: Option<string>, now: string)
    ensures CardFromRequest(request.(dateAdded := other), now) == CardFromRequest(request, now)
  {
  }

  /** `chrome.storage.local`, restricted to the keys the extension uses. */
  class Store {
    var words: Option<seq<Card>>
    var pendingWord: Option<string>
    var sourceUrl: Option<string>

    /** A fresh profile: no key is set. */
    constructor ()
      ensures words.None? && pendingWord.None? && sourceUrl.None?
    {
      words, pendingWord, sourceUrl := None, None, None;
    }

    /** `result.words || []`: the stored list, empty while the key is unset. */
    function Words(): (r: seq<Card>)
      reads this
      ensures words.None? ==> r == []
      ensures words.Some? ==> r == words.value
    {
      words.GetOr([])
    }

    /**
     * The `saveWord` handler: reads the list, appends the new card, writes the whole list
     * back, and only then reports success. Every earlier card stays, in its place.
     */
    method SaveWord(request: Message, now: string) returns (success: bool)
      modifies this
      ensures words == Some(old(Words()) + [CardFromRequest(request, now)])
      ensures pendingWord == old(pendingWord) && sourceUrl == old(sourceUrl)
      ensures success
    {
      var current := Words();
      var wordCard := CardFromRequest(request, now);
      var updated := current + [wordCard];
      words := Some(updated);
      success := true;
    }

    /** The `getWords` handler. */
    method GetWords() returns (list: seq<Card>)
      ensures words.None? ==> list == []
      ensures words.Some? ==> list == words.value
    {
      list := Words();
    }

    /** The `onMessage` listener: dispatches on `request.action`; other actions get no reply. */
    method OnMessage(request: Message, now: string) returns (reply: Option<Reply>)
      modifies this
      ensures request.action == "saveWord" ==>
        && reply == Some(SaveReply(true))
        && words == Some(old(Words()) + [CardFromRequest(request, now)])
      ensures request.action == "getWords" ==> reply == Some(ListReply(old(Words())))
      ensures request.action != "saveWord" ==> words == old(words)
      ensures request.action != "saveWord" && request.action != "getWords" ==> reply.None?
      ensures pendingWord == old(pendingWord) && sourceUrl == old(sourceUrl)
    {
      if request.action == "saveWord" {
        var success := SaveWord(request, now);
        return Some(SaveReply(success));
      }
      if request.action == "getWords" {
        var list := GetWords();
        return Some(ListReply(list));
      }
      reply := None;
    }

    /**
     * The `save-word` command. `tab` is the active tab, `selection` what the injected
     * script read from it (None when it gave no result). A non-empty trimmed selection is
     * stored as `pendingWord` with the tab's URL, and then the capture window opens;
     * anything else abandons the capture and leaves storage as it was.
     */
    method OnCommand(command: string, tab: Option<Tab>, selection: Option<string>) returns (launched: bool)
      modifies this
      ensures launched <==> command == "save-word" && tab.Some? && selection.Some? && Trim(selection.value) != ""
      ensures launched ==> pendingWord == Some(Trim(selection.value)) && sourceUrl == Some(tab.value.url)
      ensures !launched ==> pendingWord == old(pendingWord) && sourceUrl == old(sourceUrl)
      ensures words == old(words)
    {
      launched := false;
      if command == "save-word" && tab.Some? {
        var word := if selection.Some? then Trim(selection.value) else "";
        if word != "" {
          SetPending(word, tab.value.url);
          launched := true;
        }
      }
    }

    /** `chrome.storage.local.set({ pendingWord, sourceUrl })`. */
    method SetPending(word: string, url: string)
      modifies this
      ensures pendingWord == Some(word) && sourceUrl == Some(url) && words == old(words)
    {
      pendingWord, sourceUrl := Some(word), Some(url);
    }

    /** `chrome.storage.local.remove(['pendingWord', 'sourceUrl'])`. */
    method RemovePending()
      modifies this
      ensures pendingWord.None? && sourceUrl.None? && words == old(words)
    {
      pendingWord, sourceUrl := None, None;
    }

    /** `chrome.storage.local.set({ words: [] })`: clear-all, whatever was stored. */
    method ClearWords()
      modifies this
      ensures words == Some([]) && Words() == []
      ensures pendingWord == old(pendingWord) && sourceUrl == old(sourceUrl)
    {
      words := Some([]);
    }
  }
}
