# Word Vault extension: a verified model

This project models the browser extension that captures words from web pages into a
"Word Vault". The user selects a word on a page and opens a capture form in one of two ways:

- the toolbar popup picks up the page's current selection;
- the `save-word` keyboard command stores the selection as `pendingWord`, together with the
  page URL, and then opens the popup in its own window.

The popup looks the word up in a public dictionary and keeps the first definition. The user
can add a personal note ("My understanding") and a context, which is otherwise the page URL.
The popup then sends the card to the background service worker. The worker appends the card
to the `words` list in local extension storage and stamps it with its own timestamp.

Two pages show the stored cards: the popup's Vault panel and a full review page. Both list
the cards newest first, both export them as a Markdown document, and both can clear them.

The model is split into modules as the program is split into scripts:

| module | models |
|---|---|
| `Options`, `JsString` | `x \|\| ''`, `String.prototype.trim`, `join('\n')`/`split('\n')`, the decimal rendering of a count |
| `Cards` | the word card, `formatDate`, the card title `word \|\| 'Untitled'`, and the browser functions the model leaves uninterpreted |
| `VaultOrder` | the newest-first `words.sort(...)`. It is a stable insertion sort, stated as the function `NewestFirst`. The in-place array sort `SortNewestFirst` is proved to compute it |
| `Markdown` | `exportAsMarkdown`: the header, the per-card sections, the file name, and a reader that parses an export back |
| `VaultView` | `loadVault` / `loadWords`: the stats line, the empty state and the card list |
| `Background` | background.js. The store is the class `Store`, with the storage keys `words`, `pendingWord` and `sourceUrl` as fields. The message handlers and the keyboard command are its methods |
| `Content` | content.js. The class `SelectionCapture` holds the remembered selection; the `mouseup` and `getSelectedText` listeners are its methods |
| `Popup` | popup.js. The class `PopupWindow` holds the popup's form and panel state. There is the dictionary response datatype and its reading, and the card assembly. `Submit` runs a save round trip; `CaptureWithShortcut` runs the keyboard handoff |
| `Review` | review.js. The class `ReviewPage` holds the page's displayed vault |

Browser functions whose results the model does not compute are fields of `Cards.Host`, passed
in as parameters:

- `toLocaleDateString`;
- the millisecond value of `new Date(dateAdded)`, which is the sort key;
- the DOM-based `escapeHtml`.

The current time (`new Date().toISOString()`), the user's answer to `confirm`, the active tab
and the dictionary's response are also parameters.

Two asynchronous flows are split into the method that starts them and the method their
callback runs: the dictionary fetch (`FetchBasicMeaning`, then `CompleteFetch`) and the
`sendMessage` round trip (`SaveWord`, then `OnSaveResponse`). The other callback chains are
single atomic steps in the model:

- `Background.Store.SaveWord` runs the `get` callback, the `push` and the `set` as one step;
- `Popup.PopupWindow.Init` reads the handoff keys and removes them in the same step;
- `Popup.PopupWindow.SaveWord` builds the card when it is called, although the source reads
  the meaning, the note and the context later, in the `tabs.query` callback.

The program's own texts mention a right-click capture: the empty-state hint at popup.js:40
and review.js:22, and the comment at popup.js:222. background.js registers no context menu,
so the only capture paths are the popup's own and the keyboard command, and the model has
no other. No remote save path appears in the code either: a save always appends to local
storage.

## Model

| member | source | states |
|---|---|---|
| JsString.Trim | popup.js:253 | the result has no white space at either end and is no longer than the input |
| JsString.TrimKeepsInfix | popup.js:253 | the trimmed string is a contiguous piece of the input with only white space before and after it |
| JsString.TrimEmptyIffSpace | popup.js:254 | trimming gives "" exactly when the input is all white space, so a word of spaces is refused |
| JsString.TrimIdempotent | popup.js:185 | trimming again the word the keyboard command already trimmed (background.js:12) changes nothing |
| JsString.ParseDecimalOfDecimal | popup.js:107 | the count printed in "Total words: " reads back as the same number |
| Cards.FormatDate | popup.js:17-25 | an empty or missing date reads "Unknown date"; any other date is the host's locale rendering (review.js:118-126 is the same function) |
| Cards.Title | popup.js:52 | a card's heading is the word when the word is non-empty and "Untitled" otherwise, so it is never empty |
| VaultOrder.NewestFirst | popup.js:47 | the display order: a stable insertion sort by descending timestamp; its contract is in the lemmas below |
| VaultOrder.NewestFirstSortsAndPermutes | popup.js:47 | the display order has every card at least as new as every card after it, and it holds exactly the stored cards with their multiplicities |
| VaultOrder.NewestFirstOfOrdered | popup.js:72 | a list already newest first, ties included, is left exactly as it is |
| VaultOrder.NewestFirstKeepsTies | popup.js:47 | the sort is stable: for every timestamp, the cards carrying it appear in the display order in their stored order |
| VaultOrder.NewestFirstIdempotent | review.js:29 | sorting the display order again changes nothing |
| VaultOrder.ThreeMonthsExample | review.js:53 | cards dated January, March and February are shown March, February, January |
| VaultOrder.InsertAt | popup.js:47 | moving one card ahead of the strictly older cards before it, in place, gives `Insert` of that card and leaves the rest of the array alone |
| VaultOrder.SortNewestFirst | review.js:29 | the in-place sort of the array leaves exactly `NewestFirst` of its old contents |
| Markdown.FileName | popup.js:114 | the download is named `word-vault-` + the first ten characters of the ISO timestamp (all of it when shorter) + `.md` |
| Markdown.SectionLines | popup.js:74-104 | one card's section as lines; its contract is in `SectionLayout`, `ParseSectionOfCard` and `EphemeralExample` |
| Markdown.Header | popup.js:107 | the export header; `HeaderJoin` and `ParseDocumentLines` state what it holds |
| Markdown.DocumentText | popup.js:104-108 | the whole export text, header then sections; `ExportTextReadsBack` states that it reads back |
| Markdown.SectionLayout | popup.js:74-104 | a section opens with `## ` and the title, has six fixed lines plus two per non-empty optional field, and ends with `---` and a blank line |
| Markdown.ParseSectionOfCard | popup.js:82-103 | a section reads back as its card's title and date, with the meaning, understanding, context and source lines each present exactly when that field is non-empty, in that order |
| Markdown.ParseDocumentLines | popup.js:105-108 | a whole export reads back as the export date, a "Total words" count equal to the number of cards, and one section per card, in order |
| Markdown.ExportTextReadsBack | popup.js:104-108 | when no printed value contains a line break, the exported text split on '\n' reads back the same way |
| Markdown.ExportOfStored | review.js:53-91 | the export of the stored list counts every stored card and has one section per card, in an order that is newest first and a permutation of storage |
| Markdown.EphemeralExample | popup.js:74-104 | a card with a meaning, a note and a source but no context gives exactly the expected twelve lines |
| Markdown.Export | popup.js:63-118 | an empty vault gives the "No words to export" alert; otherwise the file `FileName(now)` holds the document of the cards in newest-first order (review.js:43-102 is the same code) |
| VaultView.Div | popup.js:53-55 | an optional div appears exactly when its field is non-empty |
| VaultView.CardViewOf | popup.js:50-57 | one card's view; `Div` and `ViewAgreesWithExport` state which divs it shows |
| VaultView.VaultPage | popup.js:30-58 | the stats line and list for a stored list; `StatsReportsCount` and `ShowsEveryCard` state them |
| VaultView.CardViews | popup.js:50-58 | one card view per card, in the same order |
| VaultView.StatsReportsCount | review.js:14 | the stats line always reports the number of stored cards, 0 included |
| VaultView.ShowsEveryCard | review.js:17-39 | the empty state shows exactly when nothing is stored; otherwise there is one card view per stored card, newest first and a permutation of storage |
| VaultView.ViewAgreesWithExport | review.js:31-39 | a card's meaning, understanding and context divs appear exactly when its export section has those lines, and both show the same date |
| VaultView.Render | popup.js:28-61 | loading the vault sorts a copy of the stored list in place and renders `VaultPage` of it (review.js:9-41 is the same code) |
| Background.CardFromRequest | background.js:40-47 | the stored card takes the request's fields, "" for any the request lacks, and the handler's own timestamp |
| Background.RequestDateIgnored | background.js:46 | the request's own `dateAdded` plays no part in the stored card |
| Background.Store.Words | background.js:39 | an unset `words` key reads as the empty list |
| Background.Store.SaveWord | background.js:38-54 | `words` becomes the old list, unset counting as empty, with exactly the new card appended; the handoff keys are unchanged; success is reported after the write |
| Background.Store.GetWords | background.js:58-63 | the reply is the stored list, or [] when the key is unset, and nothing changes |
| Background.Store.OnMessage | background.js:35-64 | `saveWord` appends and replies success. `getWords` replies with the list and changes nothing. Other actions get no reply and change nothing |
| Background.Store.OnCommand | background.js:3-32 | the handoff keys are written, and the window opens, exactly when the command is `save-word`, a tab is active and the trimmed selection is non-empty. Otherwise the store is unchanged. `words` is never touched |
| Background.Store.SetPending | background.js:18 | both handoff keys are written with the word and the page URL, and `words` is unchanged |
| Background.Store.RemovePending | popup.js:231 | both handoff keys are removed and `words` is unchanged |
| Background.Store.ClearWords | popup.js:122 | `words` becomes the empty list whatever it held; the handoff keys are unchanged |
| Content.Remember | content.js:8-11 | the `mouseup` rule; `RememberChangesOnlyToShortSelections` and `RememberKeepsShape` state it |
| Content.Answer | content.js:17-18 | the reply is the trimmed live selection when it is non-empty, else the remembered text |
| Content.RememberChangesOnlyToShortSelections | content.js:7-12 | after a `mouseup` the remembered text is unchanged or the trimmed selection. It becomes that selection whenever the selection is 1 to 49 characters long, and otherwise it does not change |
| Content.RememberKeepsShape | content.js:4-12 | the remembered text is always "" or a trimmed string of 1 to 49 characters |
| Content.AnswerIsTrimmed | content.js:17-18 | every reply is trimmed, and it is empty only when both the live and the remembered selection are |
| Content.SelectionCapture.constructor | content.js:4 | the script starts with nothing remembered |
| Content.SelectionCapture.OnMouseUp | content.js:7-12 | the listener applies the `mouseup` rule and keeps the shape invariant |
| Content.SelectionCapture.OnMessage | content.js:15-21 | `getSelectedText` is answered with `Answer`; other requests get none; answering changes nothing |
| Popup.Display | popup.js:197-219 | only a body whose first entry, first meaning and first definition are present and non-empty shows a definition, and then it shows exactly that one. A transport failure or malformed JSON shows "Could not fetch definition". A non-2xx status, a non-array or an empty array shows "No definition found". The panel never goes back to the prompt or the "Fetching" text |
| Popup.ShowsTheDefinition | popup.js:205-210 | a one-definition response shows exactly that definition, undimmed, unless it is empty |
| Popup.OnlyTheFirstCounts | popup.js:205-206 | later definitions, meanings and entries never affect what is shown |
| Popup.NullMeaningReadsAsFailure | popup.js:205-219 | a null first meaning makes the handler throw, and the catch shows "Could not fetch definition" |
| Popup.TabUrl | popup.js:265-266 | the active tab's URL, or "" without a tab |
| Popup.AssembleCard | popup.js:261-268 | the card `saveWord` builds; `AssembledCard` states its fields |
| Popup.AssembledCard | popup.js:261-268 | the card's word and note are the trimmed inputs. Its meaning is the current meaning. Its context is the trimmed context, or the tab URL when the context is blank; a card saved from a tab with a URL always has a context. Its source is the tab URL |
| Popup.SaveMessage | popup.js:275-278 | the `saveWord` message spreads the card; `StoredAsAssembled` states what the background makes of it |
| Popup.StoredAsAssembled | background.js:40-46 | the save message carries the assembled card, and the background stores it field for field, with only the date replaced |
| Popup.CommandEnterRunsTwice | popup.js:307-336 | as written, Ctrl/Cmd+Enter in the note or context box runs `saveWord` twice, and in the word box runs `fetchBasicMeaning` and then `saveWord` |
| Popup.KeyHandlers | popup.js:307-336 | under the bindings as meant, a key runs at most one handler, and a plain Enter runs what the written listeners run |
| Popup.OneHandlerPerKey | popup.js:307-336 | with the key in a Save panel input, the meant bindings save exactly when the written ones would, start a lookup only when they would, and give Ctrl/Cmd+Enter to the document's save |
| Popup.PopupWindow.constructor | popup.js:168 | the form starts empty, with no current meaning, an idle status and the button enabled |
| Popup.PopupWindow.FetchBasicMeaning | popup.js:184-195 | a blank word shows the prompt, sends nothing and keeps the last meaning. Any other word shows "Fetching definition...", clears the current meaning and asks for the trimmed word |
| Popup.PopupWindow.CompleteFetch | popup.js:197-219 | the panel shows `Display` of the outcome, and the current meaning changes only when a definition is found, becoming that definition |
| Popup.PopupWindow.ToggleBaseline | popup.js:171-182 | the panel's expanded state flips and nothing else changes |
| Popup.PopupWindow.Init | popup.js:223-249 | a non-empty pending word fills the word and the context (the stored URL or ""), is removed together with its URL so it is consumed once, and starts the lookup. Otherwise a non-empty live selection fills the word and starts the lookup. Otherwise nothing changes. `words` is never touched |
| Popup.PopupWindow.SaveWord | popup.js:252-273 | a word that is blank after trimming sets the error "Word is required" and sends nothing. Otherwise the message is the assembled card, the button is disabled and the status reads "Saving..."; the inputs are kept |
| Popup.PopupWindow.OnSaveResponse | popup.js:278-300 | only a success reply clears all three inputs and the current meaning, resets the panel to the prompt and schedules the Vault panel. Any other reply shows "Error saving" and keeps the form. The button is enabled again |
| Popup.PopupWindow.LoadVault | popup.js:28-61 | the Vault panel shows `VaultPage` of what storage holds |
| Popup.PopupWindow.SwitchTab | popup.js:135-156 | the clicked panel becomes active, and the Vault panel is reloaded when selected |
| Popup.PopupWindow.AfterStartup | popup.js:339-343 | the vault is loaded at startup exactly when the popup opened on the Vault panel |
| Popup.PopupWindow.OnKeyDownAsWritten | popup.js:307-336 | with a non-blank word on the Save panel, Ctrl/Cmd+Enter in the note or context box sends the same `saveWord` message twice. In the word box it starts the lookup and then sends a card whose meaning is "" |
| Popup.PopupWindow.OnKeyDown | popup.js:307-336 | under the meant bindings a key sends at most one message or one request. A message is sent exactly when a save runs on a non-blank word, and it carries the current meaning |
| Popup.PopupWindow.Run | popup.js:252-273 | a listener's `saveWord` returns the assembled message for a non-blank word, and its `fetchBasicMeaning` starts the lookup of the trimmed word |
| Popup.PopupWindow.ClearAll | popup.js:120-126 | a confirmed clear empties `words` and shows "Total words: 0" over the empty state. A dismissed prompt changes nothing |
| Popup.Submit | popup.js:252-300 | a blank word stores nothing. Any other word appends exactly the assembled card, with the background's timestamp, after every stored card. The form is then cleared, and the Vault panel lists the new card |
| Popup.CaptureWithShortcut | background.js:3-32 | when the command goes through, the new window's form holds the trimmed selection and the page URL, the handoff keys are already consumed, and the lookup has started. Otherwise no window opens and storage is as it was |
| Review.ReviewPage.constructor | review.js:132-133 | the page shows the vault as soon as it loads |
| Review.ReviewPage.LoadWords | review.js:9-41 | the page shows `VaultPage` of what storage holds |
| Review.ReviewPage.ClearAll | review.js:104-110 | a confirmed clear empties `words` whatever it held, and the reload shows the empty state. A dismissed prompt changes nothing |
| Review.ClearedVaultIsEmpty | review.js:104-110 | after a clear, the stats line reads back as 0 and no card is listed |

## Left out

- Browser plumbing: `chrome.commands`, `tabs.query`, `scripting.executeScript`, `windows.create`, runtime messaging and the `storage.local` callbacks. Each becomes a parameter or a sequential step, and the `return true` that keeps a message channel open has no counterpart.
- The dictionary `fetch` and `encodeURIComponent`. The request the popup would send is returned as the word, and the response comes back as a `FetchOutcome` value.
- Dictionary values of other JSON types: a `definition` that is not a string, or `meanings`/`definitions` that are not arrays. They are modelled as absent, or as arrays of nodes.
- `escapeHtml`, `toLocaleDateString` and `new Date(...)` parsing: uninterpreted functions of `Cards.Host`. Cards whose dates do not parse make the comparator return NaN, and the engine's order is then unspecified. The model assumes every date has an integer key.
- HTML markup: which divs and texts each card shows is modelled, but tags, classes and the emoji icon of the empty state are not. The two pages' empty-state blocks differ only in markup and are both `EmptyState`.
- `alert`, `confirm`, the Blob download and `URL.createObjectURL`. The export returns an `ExportOutcome`, and the user's answer to `confirm` is a parameter.
- Focus, and the `setTimeout` delays. The 500 ms switch to the Vault panel in `Submit` and the 100 ms startup check in `AfterStartup` are immediate steps.
- Key bindings: only which handlers a `keydown` runs is modelled, not focus or key events other than Enter. Each event reaches the input's listener and then, by bubbling, the document's. So as written, Ctrl/Cmd+Enter in an input runs two handlers (see Findings). The rest of the model uses the corrected `Popup.KeyHandlers`.
- Popup.PopupWindow.OnKeyDownAsWritten: the two `saveWord` messages end in two read-modify-writes of `words` in the background. Whether the card is then stored once or twice depends on how they interleave, and the model does not cover that.
- The initial contents of popup.html: the popup's first panel is a parameter, and the panel text and status start as the prompt and idle.
- Concurrency: the storage chains, the handoff read-then-remove and the card assembly are atomic steps in the model, so what happens when they interleave is outside it. For example, two saves that run get A, get B, set A, set B keep only B's card. The same holds for two windows racing on the handoff keys, for a meaning that changes between the click and the `tabs.query` callback, and for a slow lookup that completes after a newer one.
- Background.CardFromRequest: the handler stores `word: request.word` without a default, so a missing word is stored as undefined. The model stores "" because every reader tests the word for truthiness.
- Content.Rememberable, Content.Remember, Content.SelectionCapture.OnMouseUp, Content.RememberChangesOnlyToShortSelections and Content.RememberKeepsShape: the 50-character limit counts Unicode scalar values, while JavaScript's `length` counts UTF-16 code units, so the two differ for characters outside the Basic Multilingual Plane.
- Stored lists that hold something other than card objects are not modelled.
- Background.Store.SaveWord: a storage write always succeeds in the model. The source's `set` callback (background.js:51-53) replies `success: true` without reading `chrome.runtime.lastError`, so a failed write would also be reported as a success.
- Markdown.Export: one `now` serves both the header date (popup.js:107) and the file name (popup.js:114). The source reads the clock twice, so across midnight the two dates can differ.
- Popup.Submit: the tab is a parameter. In the window that the keyboard command opens, `tabs.query({ active: true, currentWindow: true })` at popup.js:260 finds that window's own extension page, not the page the word came from. A word captured by the shortcut is then saved with that page's URL as its source (or "" without access to it), and the original page URL survives only as the context that `Init` filled in. This is not executed; the model takes whatever tab it is given.
- The right-click capture the empty-state hint mentions: background.js registers no context menu, so there is nothing to model.

## Findings

| source | as written | input that shows it | evidently intended | confidence | as-written member | corrected member |
|---|---|---|---|---|---|---|
| popup.js:307-336 | each input's `keydown` listener calls its handler, and the event then bubbles to the document's listener, which saves again on Ctrl/Cmd+Enter; `preventDefault` does not stop the bubbling | Ctrl/Cmd+Enter in the note box or the context box with a non-blank word: `saveWord` runs twice and two `saveWord` messages are sent. In the word box, `fetchBasicMeaning` clears the meaning and `saveWord` then sends the card with meaning "" | Ctrl/Cmd+Enter saves once from anywhere on the Save panel, and the inputs' listeners act on a plain Enter | not executed; high, from the DOM's event order | Popup.CommandEnterRunsTwice, Popup.PopupWindow.OnKeyDownAsWritten | Popup.KeyHandlers, Popup.OneHandlerPerKey, Popup.PopupWindow.OnKeyDown |
