/**
 * The toolbar popup (popup.js): the Save panel, where a word is entered, looked up in the
 * dictionary and sent to the background for storage, and the Vault panel, which shows,
 * exports and clears the stored cards. The popup's DOM state is the object `PopupWindow`;
 * each event handler is a method on it, and each asynchronous step (dictionary fetch,
 * save round trip) is split into the method that starts it and the one its callback runs.
 */
module Popup {

  import opened Options
  import opened JsString
  import opened Cards
  import opened VaultOrder
  import opened VaultView
  import opened Background

  // ---------------------------------------------------------------------------
  // The dictionary lookup

  /** One element of a meaning's `definitions`; a null element reads like one without `definition`. */
  datatype DefinitionNode = DefinitionNode(definition: Option<string>)

  /** One element of an entry's `meanings`: null, or an object whose `definitions` may be absent. */
  datatype MeaningNode = NullMeaning | MeaningNode(definitions: Option<seq<DefinitionNode>>)

  /** One element of the response array: null, or an object whose `meanings` may be absent. */
  datatype EntryNode = NullEntry | EntryNode(meanings: Option<seq<MeaningNode>>)

  /** The parsed response body: an array of entries, or any other JSON value. */
  datatype Body = NotAnArray | Entries(entries: seq<EntryNode>)

  /**
   * How the request ends: the network fails, the status is not 2xx (the body is then
   * taken as `null`), the body is not JSON, or it parses.
   */
  datatype FetchOutcome = NetworkFailure | HttpError | MalformedJson | Parsed(body: Body)

  /** The baseline-meaning panel: its text, and whether it carries the dimming `empty` class. */
  datatype Baseline = Prompt | Fetching | NotFound | NotAvailable | FetchFailed | Definition(text: string)
  {
    function Text(): string {
      match this
      case Prompt => "Enter a word to fetch definition"
      case Fetching => "Fetching definition..."
      case NotFound => "No definition found"
      case NotAvailable => "No definition available"
      case FetchFailed => "Could not fetch definition"
      case Definition(text) => text
    }

    predicate Dimmed() {
      !Definition?
    }
  }

  /** The first definition of the first meaning of the first entry, when the body has one. */
  predicate HasFirstDefinition(outcome: FetchOutcome, text: string) {
    && outcome.Parsed? && outcome.body.Entries?
    && |outcome.body.entries| > 0 && outcome.body.entries[0].EntryNode?
    && outcome.body.entries[0].meanings.Some? && |outcome.body.entries[0].meanings.value| > 0
    && outcome.body.entries[0].meanings.value[0].MeaningNode?
    && outcome.body.entries[0].meanings.value[0].definitions.Some?
    && |outcome.body.entries[0].meanings.value[0].definitions.value| > 0
    && outcome.body.entries[0].meanings.value[0].definitions.value[0].definition == Some(text)
  }

  /**
   * What the fetch chain leaves in the panel. A first meaning that is null makes the
   * handler throw, and the `catch` then shows the network-failure text.
   */
  function Display(outcome: FetchOutcome): (b: Baseline)
    ensures b != Prompt && b != Fetching
    ensures outcome.NetworkFailure? || outcome.MalformedJson? ==> b == FetchFailed
    ensures outcome.HttpError? || outcome == Parsed(NotAnArray) || outcome == Parsed(Entries([])) ==> b == NotFound
    ensures b.Definition? ==> b.text != "" && HasFirstDefinition(outcome, b.text)
    ensures forall t :: t != "" && HasFirstDefinition(outcome, t) ==> b == Definition(t)
  {
    match outcome
    case NetworkFailure => FetchFailed
    case MalformedJson => FetchFailed
    case HttpError => NotFound
    case Parsed(body) =>
      if !body.Entries? || |body.entries| == 0 || !body.entries[0].EntryNode?
         || body.entries[0].meanings.None? || |body.entries[0].meanings.value| == 0
      then NotFound
      else
        match body.entries[0].meanings.value[0]
        case NullMeaning => FetchFailed
        case MeaningNode(definitions) =>
          if definitions.Some? && |definitions.value| > 0
             && definitions.value[0].definition.Some? && definitions.value[0].definition.value != ""
          then Definition(definitions.value[0].definition.value)
          else NotAvailable
  }

  /** A response with a single entry, meaning and definition. */
  function Response(definition: string): FetchOutcome {
    Parsed(Entries([EntryNode(Some([MeaningNode(Some([DefinitionNode(Some(definition))]))]))]))
  }

  /** A one-definition response shows that definition, undimmed, unless it is empty. */
  lemma ShowsTheDefinition(definition: string)
    ensures definition != "" ==> Display(Response(definition)) == Definition(definition)
    ensures definition != "" ==> !Display(Response(definition)).Dimmed() && Display(Response(definition)).Text() == definition
    ensures definition == "" ==> Display(Response(definition)) == NotAvailable
  {
  }

  /** Only the first entry, its first meaning and that meaning's first definition are read. */
  lemma OnlyTheFirstCounts(d: DefinitionNode, ds: seq<DefinitionNode>, ms: seq<MeaningNode>, es: seq<EntryNode>)
    ensures Display(Parsed(Entries([EntryNode(Some([MeaningNode(Some([d] + ds))] + ms))] + es)))
         == Display(Parsed(Entries([EntryNode(Some([MeaningNode(Some([d]))]))])))
  {
    var long := Entries([EntryNode(Some([MeaningNode(Some([d] + ds))] + ms))] + es);
    assert long.entries[0].meanings.value[0].definitions.value[0] == d;
  }

  /** A null first meaning is reported as a failed fetch, not as a missing definition. */
  lemma NullMeaningReadsAsFailure(ms: seq<MeaningNode>, es: seq<EntryNode>)
    ensures Display(Parsed(Entries([EntryNode(Some([NullMeaning] + ms))] + es))) == FetchFailed
  {
    var body := Entries([EntryNode(Some([NullMeaning] + ms))] + es);
    assert body.entries[0].meanings.value[0] == NullMeaning;
  }

  // ---------------------------------------------------------------------------
  // The card the Save panel sends

  /** `tabs[0] ? tabs[0].url : ''`. */
  function TabUrl(tab: Option<Tab>): (r: string)
    ensures tab.None? ==> r == ""
    ensures tab.Some? ==> r == tab.value.url
  {
    if tab.Some? then tab.value.url else ""
  }

  /** The `wordCard` that `saveWord` builds from the inputs, the fetched meaning and the active tab. */
  function AssembleCard(wordInput: string, currentMeaning: string, mnemonicInput: string,
                        contextInput: string, tab: Option<Tab>, now: string): Card
  {
    var context := Trim(contextInput);
    Card(Trim(wordInput), currentMeaning, Trim(mnemonicInput),
         if context != "" then context else TabUrl(tab),
         TabUrl(tab), now)
  }

  /**
   * The card's word and note are the trimmed inputs; its context is the typed one when it
   * is not blank and otherwise the page's URL, so a card saved from a page with a URL
   * always has a context; its source is that URL.
   */
  lemma AssembledCard(wordInput: string, currentMeaning: string, mnemonicInput: string,
                      contextInput: string, tab: Option<Tab>, now: string)
    ensures var c := AssembleCard(wordInput, currentMeaning, mnemonicInput, contextInput, tab, now);
      && c.word == Trim(wordInput) && Trimmed(c.word)
      && c.mnemonic == Trim(mnemonicInput) && Trimmed(c.mnemonic)
      && c.meaning == currentMeaning && c.dateAdded == now
      && (AllSpace(contextInput) ==> c.context == TabUrl(tab))
      && (!AllSpace(contextInput) ==> c.context == Trim(contextInput) && c.context != "")
      && (TabUrl(tab) != "" ==> c.context != "")
      && c.sourceUrl == TabUrl(tab)
  {
    TrimEmptyIffSpace(contextInput);
  }

  /** `{ action: 'saveWord', ...wordCard }`. */
  function SaveMessage(c: Card): Message {
    Message("saveWord", Some(c.word), Some(c.meaning), Some(c.mnemonic), Some(c.context),
            Some(c.sourceUrl), Some(c.dateAdded))
  }

  /** The background stores the assembled card field for field, with its own timestamp in place of the popup's. */
  lemma StoredAsAssembled(c: Card, storedAt: string)
    ensures CardFromRequest(SaveMessage(c), storedAt) == c.(dateAdded := storedAt)
    ensures SaveMessage(c).action == "saveWord"
  {
  }

  // ---------------------------------------------------------------------------
  // Key bindings

  /** Where a `keydown` starts: one of the Save panel's three inputs, or elsewhere in the popup. */
  datatype KeyTarget = WordBox | NoteBox | ContextBox | Elsewhere

  /** A `keydown`: whether the key is Enter, and whether Ctrl or Cmd is held. */
  datatype Keystroke = Keystroke(enter: bool, command: bool)

  /** What a key listener calls: `fetchBasicMeaning` or `saveWord`. */
  datatype Handler = Lookup | Save

  /** The listener on the input the key went to. */
  function InputListener(target: KeyTarget, key: Keystroke): seq<Handler> {
    match target
    case WordBox => if key.enter then [Lookup] else []
    case NoteBox => if key.enter && key.command then [Save] else []
    case ContextBox => if key.enter then [Save] else []
    case Elsewhere => []
  }

  /** The document's listener: Ctrl/Cmd+Enter saves while the Save panel is shown. */
  function DocumentListener(key: Keystroke, onSavePanel: bool): seq<Handler> {
    if key.enter && key.command && onSavePanel then [Save] else []
  }

  /**
   * The handlers one `keydown` runs as the listeners are written: the input's listener,
   * then the document's, since the event bubbles up and `preventDefault` does not stop it.
   */
  function KeyHandlersAsWritten(target: KeyTarget, key: Keystroke, onSavePanel: bool): seq<Handler> {
    InputListener(target, key) + DocumentListener(key, onSavePanel)
  }

  /**
   * Ctrl/Cmd+Enter in an input runs two handlers: in the note or context box it saves
   * twice, and in the word box it starts a lookup, which clears the meaning, and then saves.
   */
  lemma CommandEnterRunsTwice()
    ensures KeyHandlersAsWritten(NoteBox, Keystroke(true, true), true) == [Save, Save]
    ensures KeyHandlersAsWritten(ContextBox, Keystroke(true, true), true) == [Save, Save]
    ensures KeyHandlersAsWritten(WordBox, Keystroke(true, true), true) == [Lookup, Save]
  {
  }

  /**
   * The bindings as evidently meant: Ctrl/Cmd+Enter is the document's save shortcut, and
   * the inputs' listeners act on a plain Enter.
   */
  function KeyHandlers(target: KeyTarget, key: Keystroke, onSavePanel: bool): (r: seq<Handler>)
    ensures |r| <= 1
    ensures !key.command ==> r == KeyHandlersAsWritten(target, key, onSavePanel)
  {
    if key.enter && key.command then DocumentListener(key, onSavePanel) else InputListener(target, key)
  }

  /**
   * Each key then runs at most one handler. The inputs live in the Save panel, so while
   * one of them has the key, a key saves exactly when a written listener would save, and
   * starts a lookup only when a written listener would.
   */
  lemma OneHandlerPerKey(target: KeyTarget, key: Keystroke, onSavePanel: bool)
    requires target != Elsewhere ==> onSavePanel
    ensures |KeyHandlers(target, key, onSavePanel)| <= 1
    ensures Save in KeyHandlers(target, key, onSavePanel) <==> Save in KeyHandlersAsWritten(target, key, onSavePanel)
    ensures Lookup in KeyHandlers(target, key, onSavePanel) ==> Lookup in KeyHandlersAsWritten(target, key, onSavePanel)
    ensures key.enter && key.command ==> KeyHandlers(target, key, onSavePanel) == DocumentListener(key, onSavePanel)
  {
  }

  // ---------------------------------------------------------------------------
  // The popup window

  datatype Panel = SavePanel | VaultPanel

  /** The status line: its text and whether it carries the `error` or `success` class. */
  datatype Status = Idle | Info(text: string) | Error(text: string) | Success(text: string)

  const RequiredText := "Word is required"
  const SavingText := "Saving..."
  const SavedText := "Saved to Word Vault! \U{2713}"
  const SaveErrorText := "Error saving"

  class PopupWindow {
    var activeTab: Panel
    var vault: Option<Page>      // the stats line and word list, None until the vault is first loaded
    var wordInput: string
    var mnemonicInput: string
    var contextInput: string
    var currentMeaning: string   // the definition the last lookup found
    var baseline: Baseline
    var expanded: bool           // the baseline panel's `show` class
    var status: Status
    var saving: bool             // `saveBtn.disabled`

    /** The `DOMContentLoaded` setup: empty inputs, no meaning yet, the panel the page opened on. */
    constructor (initialTab: Panel)
      ensures activeTab == initialTab && vault.None?
      ensures wordInput == "" && mnemonicInput == "" && contextInput == "" && currentMeaning == ""
      ensures baseline == Prompt && !expanded && status == Idle && !saving
    {
      activeTab, vault := initialTab, None;
      wordInput, mnemonicInput, contextInput, currentMeaning := "", "", "", "";
      baseline, expanded, status, saving := Prompt, false, Idle, false;
    }

    /**
     * The state `fetchBasicMeaning(word)` leaves before its request completes: a blank
     * word shows the prompt, sends nothing and keeps the last meaning; any other word
     * shows the fetching text, forgets the last meaning and asks for the trimmed word.
     */
    ghost predicate Started(word: string, priorMeaning: string, request: Option<string>)
      reads this
    {
      if Trim(word) == "" then request.None? && baseline == Prompt && currentMeaning == priorMeaning
      else request == Some(Trim(word)) && baseline == Fetching && currentMeaning == ""
    }

    /** `fetchBasicMeaning` up to its request; `request` is the word sent to the dictionary. */
    method FetchBasicMeaning(word: string) returns (request: Option<string>)
      modifies this
      ensures Started(word, old(currentMeaning), request)
      ensures unchanged(this`activeTab, this`vault, this`wordInput, this`mnemonicInput, this`contextInput)
      ensures unchanged(this`expanded, this`status, this`saving)
    {
      var cleaned := Trim(word);
      if cleaned == "" {
        baseline := Prompt;
        return None;
      }
      baseline := Fetching;
      currentMeaning := "";
      request := Some(cleaned);
    }

    /** The fetch chain's callbacks: a definition becomes the current meaning; anything else only changes the panel. */
    method CompleteFetch(outcome: FetchOutcome)
      modifies this
      ensures baseline == Display(outcome)
      ensures baseline.Definition? ==> currentMeaning == baseline.text
      ensures !baseline.Definition? ==> currentMeaning == old(currentMeaning)
      ensures unchanged(this`activeTab, this`vault, this`wordInput, this`mnemonicInput, this`contextInput)
      ensures unchanged(this`expanded, this`status, this`saving)
    {
      baseline := Display(outcome);
      if baseline.Definition? {
        currentMeaning := baseline.text;
      }
    }

    /** The `baselineToggle` click: shows or hides the baseline panel. */
    method ToggleBaseline()
      modifies this
      ensures expanded == !old(expanded)
      ensures unchanged(this`activeTab, this`vault, this`wordInput, this`mnemonicInput, this`contextInput)
      ensures unchanged(this`currentMeaning, this`baseline, this`status, this`saving)
    {
      expanded := !expanded;
    }

    /**
     * The startup check. A non-empty `pendingWord` left by the keyboard command wins: it
     * fills the word, the page URL fills the context, both keys are removed so the word
     * is consumed once, and the lookup starts. Otherwise `reply`, the active tab's
     * answer to `getSelectedText` (None when there is no tab or no answer), fills the
     * word when it is non-empty. Either way the Save panel is selected.
     */
    method Init(store: Store, reply: Option<string>) returns (request: Option<string>)
      modifies this, store
      ensures store.words == old(store.words)
      ensures OrEmpty(old(store.pendingWord)) != "" ==>
        && activeTab == SavePanel
        && wordInput == old(store.pendingWord).value
        && contextInput == OrEmpty(old(store.sourceUrl))
        && store.pendingWord.None? && store.sourceUrl.None?
        && Started(wordInput, old(currentMeaning), request)
        && unchanged(this`vault, this`mnemonicInput, this`expanded, this`status, this`saving)
      ensures OrEmpty(old(store.pendingWord)) == "" ==>
        && store.pendingWord == old(store.pendingWord) && store.sourceUrl == old(store.sourceUrl)
        && (OrEmpty(reply) != "" ==>
              && activeTab == SavePanel && wordInput == reply.value
              && Started(wordInput, old(currentMeaning), request)
              && unchanged(this`vault, this`mnemonicInput, this`contextInput, this`expanded, this`status, this`saving))
        && (OrEmpty(reply) == "" ==> request.None? && unchanged(this))
    {
      if OrEmpty(store.pendingWord) != "" {
        activeTab := SavePanel;
        wordInput := store.pendingWord.value;
        contextInput := OrEmpty(store.sourceUrl);
        store.RemovePending();
        request := FetchBasicMeaning(wordInput);
      } else if OrEmpty(reply) != "" {
        activeTab := SavePanel;
        wordInput := reply.value;
        request := FetchBasicMeaning(wordInput);
      } else {
        request := None;
      }
    }

    /**
     * `saveWord` up to `sendMessage`: a blank word is refused with an error; otherwise
     * the assembled card is returned as the message to send, the button is disabled and
     * the status reads "Saving...". The inputs stay as they are until the reply.
     */
    method SaveWord(tab: Option<Tab>, now: string) returns (message: Option<Message>)
      modifies this
      ensures Trim(old(wordInput)) == "" ==> message.None? && status == Error(RequiredText) && saving == old(saving)
      ensures Trim(old(wordInput)) != "" ==>
        && message == Some(SaveMessage(AssembleCard(wordInput, currentMeaning, mnemonicInput, contextInput, tab, now)))
        && status == Info(SavingText) && saving
      ensures unchanged(this`activeTab, this`vault, this`wordInput, this`mnemonicInput, this`contextInput)
      ensures unchanged(this`currentMeaning, this`baseline, this`expanded)
    {
      var word := Trim(wordInput);
      if word == "" {
        status := Error(RequiredText);
        message := None;
      } else {
        var wordCard := AssembleCard(wordInput, currentMeaning, mnemonicInput, contextInput, tab, now);
        message := Some(SaveMessage(wordCard));
        saving, status := true, Info(SavingText);
      }
    }

    /**
     * The `sendMessage` callback. Only a reply with `success` set clears the form and
     * schedules the switch to the Vault panel (`showVault`); a missing or other reply
     * reports "Error saving" and keeps what the user typed. The button is enabled again.
     */
    method OnSaveResponse(response: Option<Reply>) returns (showVault: bool)
      modifies this
      ensures showVault <==> response == Some(SaveReply(true))
      ensures !saving
      ensures showVault ==>
        && status == Success(SavedText) && baseline == Prompt
        && wordInput == "" && mnemonicInput == "" && contextInput == "" && currentMeaning == ""
      ensures !showVault ==>
        && status == Error(SaveErrorText)
        && unchanged(this`wordInput, this`mnemonicInput, this`contextInput, this`currentMeaning, this`baseline)
      ensures unchanged(this`activeTab, this`vault, this`expanded)
    {
      saving := false;
      showVault := response.Some? && response.value.SaveReply? && response.value.success;
      if showVault {
        status := Success(SavedText);
        wordInput, mnemonicInput, contextInput, currentMeaning := "", "", "", "";
        baseline := Prompt;
      } else {
        status := Error(SaveErrorText);
      }
    }

    /** `loadVault`: the stats line and list for what storage holds now. */
    method LoadVault(host: Host, store: Store)
      modifies this
      ensures vault == Some(VaultPage(host, store.Words()))
      ensures unchanged(this`activeTab, this`wordInput, this`mnemonicInput, this`contextInput)
      ensures unchanged(this`currentMeaning, this`baseline, this`expanded, this`status, this`saving)
    {
      var page := Render(host, store.Words());
      vault := Some(page);
    }

    /** A tab click: selects the panel, and selecting the Vault panel reloads it. */
    method SwitchTab(target: Panel, host: Host, store: Store)
      modifies this
      ensures activeTab == target
      ensures target == VaultPanel ==> vault == Some(VaultPage(host, store.Words()))
      ensures target == SavePanel ==> vault == old(vault)
      ensures unchanged(this`wordInput, this`mnemonicInput, this`contextInput)
      ensures unchanged(this`currentMeaning, this`baseline, this`expanded, this`status, this`saving)
    {
      activeTab := target;
      if target == VaultPanel {
        LoadVault(host, store);
      }
    }

    /** The delayed startup step: the vault is loaded when the page opened on the Vault panel. */
    method AfterStartup(host: Host, store: Store)
      modifies this
      ensures activeTab == VaultPanel ==> vault == Some(VaultPage(host, store.Words()))
      ensures activeTab != VaultPanel ==> vault == old(vault)
      ensures unchanged(this`activeTab, this`wordInput, this`mnemonicInput, this`contextInput)
      ensures unchanged(this`currentMeaning, this`baseline, this`expanded, this`status, this`saving)
    {
      if activeTab == VaultPanel {
        LoadVault(host, store);
      }
    }

    /**
     * One `keydown` as the listeners are written: the input's handler, then the
     * document's. Each `Save` returns its message and each `Lookup` its request.
     */
    method OnKeyDownAsWritten(target: KeyTarget, key: Keystroke, tab: Option<Tab>, now: string)
      returns (messages: seq<Message>, requests: seq<string>)
      modifies this
      ensures (target == NoteBox || target == ContextBox) && key == Keystroke(true, true) &&
              old(activeTab) == SavePanel && Trim(old(wordInput)) != "" ==>
        var m := SaveMessage(AssembleCard(old(wordInput), old(currentMeaning), old(mnemonicInput),
                                          old(contextInput), tab, now));
        messages == [m, m] && requests == []
      ensures target == WordBox && key == Keystroke(true, true) &&
              old(activeTab) == SavePanel && Trim(old(wordInput)) != "" ==>
        && requests == [Trim(old(wordInput))]
        && messages == [SaveMessage(AssembleCard(old(wordInput), "", old(mnemonicInput), old(contextInput), tab, now))]
      ensures unchanged(this`activeTab, this`vault, this`wordInput, this`mnemonicInput, this`contextInput)
    {
      messages, requests := [], [];
      var m, r := Run(InputListener(target, key), tab, now);
      messages, requests := messages + m, requests + r;
      m, r := Run(DocumentListener(key, activeTab == SavePanel), tab, now);
      messages, requests := messages + m, requests + r;
    }

    /** One `keydown` under the bindings as meant: at most one handler runs. */
    method OnKeyDown(target: KeyTarget, key: Keystroke, tab: Option<Tab>, now: string)
      returns (messages: seq<Message>, requests: seq<string>)
      modifies this
      ensures |messages| + |requests| <= 1
      ensures var hs := KeyHandlers(target, key, old(activeTab) == SavePanel);
        && (Save in hs && Trim(old(wordInput)) != "" <==> messages != [])
        && (messages != [] ==> messages == [SaveMessage(AssembleCard(old(wordInput), old(currentMeaning),
                                                     old(mnemonicInput), old(contextInput), tab, now))])
        && (Lookup in hs && Trim(old(wordInput)) != "" <==> requests != [])
        && (requests != [] ==> requests == [Trim(old(wordInput))])
      ensures unchanged(this`activeTab, this`vault, this`wordInput, this`mnemonicInput, this`contextInput)
    {
      messages, requests := Run(KeyHandlers(target, key, activeTab == SavePanel), tab, now);
    }

    /** Runs the handlers of one listener, at most one, on the form as it stands. */
    method Run(hs: seq<Handler>, tab: Option<Tab>, now: string) returns (messages: seq<Message>, requests: seq<string>)
      requires |hs| <= 1
      modifies this
      ensures hs == [Save] ==>
        && requests == []
        && (Trim(old(wordInput)) == "" ==> messages == [])
        && (Trim(old(wordInput)) != "" ==> messages == [SaveMessage(AssembleCard(old(wordInput), old(currentMeaning),
                                                     old(mnemonicInput), old(contextInput), tab, now))])
        && currentMeaning == old(currentMeaning)
      ensures hs == [Lookup] ==>
        && messages == [] && (if Trim(old(wordInput)) == "" then requests == [] else requests == [Trim(old(wordInput))])
        && Started(old(wordInput), old(currentMeaning), if requests == [] then None else Some(requests[0]))
      ensures hs == [] ==> messages == [] && requests == [] && unchanged(this)
      ensures unchanged(this`activeTab, this`vault, this`wordInput, this`mnemonicInput, this`contextInput)
    {
      messages, requests := [], [];
      if hs == [Save] {
        var message := SaveWord(tab, now);
        if message.Some? {
          messages := [message.value];
        }
      } else if hs == [Lookup] {
        var request := FetchBasicMeaning(wordInput);
        if request.Some? {
          requests := [request.value];
        }
      }
    }

    /** The clear button: only a confirmed prompt empties storage, and the vault then shows the empty state. */
    method ClearAll(host: Host, store: Store, confirmed: bool)
      modifies this, store
      ensures confirmed ==> store.words == Some([]) && vault == Some(Page(StatsLine(0), EmptyState))
      ensures !confirmed ==> store.words == old(store.words) && vault == old(vault)
      ensures store.pendingWord == old(store.pendingWord) && store.sourceUrl == old(store.sourceUrl)
      ensures unchanged(this`activeTab, this`wordInput, this`mnemonicInput, this`contextInput)
      ensures unchanged(this`currentMeaning, this`baseline, this`expanded, this`status, this`saving)
    {
      if confirmed {
        store.ClearWords();
        LoadVault(host, store);
      }
    }
  }

  // ---------------------------------------------------------------------------
  // Round trips between the popup and the background

  /**
   * A click on Save carried through: the popup's message reaches the background handler
   * (which stamps it at `storedAt`), its reply reaches the popup, and the delayed switch
   * shows the Vault panel. A blank word stores nothing; any other word adds exactly the
   * assembled card after every stored one, clears the form, and the vault then lists it.
   */
  method Submit(form: PopupWindow, store: Store, host: Host, tab: Option<Tab>, now: string, storedAt: string)
    returns (sent: bool)
    modifies form, store
    ensures sent <==> Trim(old(form.wordInput)) != ""
    ensures !sent ==> store.words == old(store.words) && form.status == Error(RequiredText)
    ensures sent ==>
      var card := AssembleCard(old(form.wordInput), old(form.currentMeaning), old(form.mnemonicInput),
                               old(form.contextInput), tab, now).(dateAdded := storedAt);
      && store.Words() == old(store.Words()) + [card]
      && form.status == Success(SavedText) && !form.saving
      && form.wordInput == "" && form.mnemonicInput == "" && form.contextInput == "" && form.currentMeaning == ""
      && form.activeTab == VaultPanel
      && form.vault == Some(VaultPage(host, store.Words()))
      && card in multiset(NewestFirst(host, store.Words()))
    ensures store.pendingWord == old(store.pendingWord) && store.sourceUrl == old(store.sourceUrl)
  {
    ghost var card := AssembleCard(form.wordInput, form.currentMeaning, form.mnemonicInput,
                                   form.contextInput, tab, now).(dateAdded := storedAt);
    var message := form.SaveWord(tab, now);
    if message.None? {
      return false;
    }
    var reply := store.OnMessage(message.value, storedAt);
    StoredAsAssembled(AssembleCard(old(form.wordInput), old(form.currentMeaning), old(form.mnemonicInput),
                                   old(form.contextInput), tab, now), storedAt);
    var showVault := form.OnSaveResponse(reply);
    form.SwitchTab(VaultPanel, host, store);
    NewestFirstSortsAndPermutes(host, store.Words());
    assert card == store.Words()[|store.Words()| - 1];
    sent := true;
  }

  /**
   * The keyboard command followed by the capture window it opens: when the command goes
   * through, the new window's Save panel holds the trimmed selection and the page URL,
   * the handoff keys are gone again, and the lookup of that word has started. When it
   * does not, no window opens and storage is as it was.
   */
  method CaptureWithShortcut(store: Store, command: string, tab: Option<Tab>, selection: Option<string>,
                             initialTab: Panel)
    returns (window: PopupWindow?, request: Option<string>)
    modifies store
    ensures window != null <==> command == "save-word" && tab.Some? && selection.Some? && Trim(selection.value) != ""
    ensures window != null ==>
      && fresh(window)
      && window.activeTab == SavePanel
      && window.wordInput == Trim(selection.value) && window.contextInput == tab.value.url
      && request == Some(Trim(selection.value)) && window.baseline == Fetching
      && store.pendingWord.None? && store.sourceUrl.None?
    ensures window == null ==> request.None? && store.pendingWord == old(store.pendingWord) && store.sourceUrl == old(store.sourceUrl)
    ensures store.words == old(store.words)
  {
    var launched := store.OnCommand(command, tab, selection);
    if !launched {
      return null, None;
    }
    window := new PopupWindow(initialTab);
    request := window.Init(store, None);
    TrimIdempotent(selection.value);
  }
}
