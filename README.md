# Shipment registration page (출하 등록), modelled in Dafny

This project models the shipment ("chulha") registration page of a small
manufacturing data-entry client, `src/pages/ChulhaRegister.js`. The page has two tabs:

- **Tab "1"** composes a shipment. The operator searches and picks a product card and a
  vendor card, sets the quantity with plus/minus buttons or by typing, picks a date, adds an
  optional note, and submits. Submitting checks the product first, then the vendor. If both
  are set, one insert request goes out. The draft is reset only if the server accepts it.
- **Tab "2"** lists the shipments of a date range. A row can be edited in a modal (quantity and
  note) or deleted. A successful edit or delete reloads the list. The delete is meant to go
  through a confirmation dialog; as written it never reaches the server (see "## Findings").

The page is modelled as a state machine over one explicit page state:

- `ChulhaRegister.ChulhaPage` is a class. Its fields are the page's state, and each handler is a
  method whose contract states the complete new state.
- The five per-catalog fields (`productList`, `filteredProducts`, `selectedProduct`,
  `selectedProductName`, `productSearchTerm`, and the same five for vendors) are held together
  in one `Catalog.Picker` record per catalog.
- The form store (`chulha_dt`, `jepum_cd`, `vender_cd`, `amt`, `bigo`) is the `Submit.FormValues` record.
- Network calls are abstract. An issued call is appended to the page's `requests` log, and
  every request carries the page's `v_db` partition. The server's answer (`ok` plus data, or an
  exception) is a parameter of the handler that awaits it. `message.*` toasts are appended to a
  `notices` log.
- The pure parts are modelled as functions with lemmas: the search predicate and filter, the
  date column's `render` and `sorter`, the counter arithmetic, and submit validation with its payload.

Files:

- `common.dfy`: optional values, JavaScript truthiness, and numbers.
- `text_search.dfy`: `toLowerCase` and `includes`.
- `catalog.dfy`: the catalog entries, the picker record and the search filter.
- `date_column.dfy`: how the history table shows and sorts `chulha_dt`.
- `counter.dfy`: the plus and minus buttons.
- `api.dfy`: the backend calls and their outcomes.
- `submit.dfy`: `onFinish` before any request is sent.
- `chulha_register.dfy`: the page state, its invariant and the handlers.
- `scenarios.dfy`: client walks that use only the handlers' contracts.

Invariant kept by every handler (`ChulhaRegister.Consistent`):

- the cards shown are entries of the loaded list;
- the counter equals the form's `amt`;
- the hidden form fields `jepum_cd` and `vender_cd` hold the selected codes;
- the edit modal is open only when a record is being edited;
- every request went to the page's own partition.

Behaviour of the code that is easy to miss, modelled as written:

- **Typed quantity.** The quantity input's handler (`src/pages/ChulhaRegister.js:689-692`)
  stores the typed value as it is: not clamped, not rounded, possibly absent. `EnterQuantity`
  does the same, so `amt >= 1` is not an invariant of the page.
- **Fractional quantity.** An amount is a JavaScript number, so a typed 1.5 is kept. The minus
  button's `currentVal > 1` test then lets the subtraction through and gives 0.5
  (`Counter.MinusBelowOneFromFraction`, `Counter.MinusFromOneAndAHalf`). The floor at 1 holds
  only along plus/minus clicks from a whole amount of at least 1 (`Counter.RunKeepsFloor`); from
  any positive amount the clicks keep it positive (`Counter.RunKeepsPositive`).
- **Range order.** `fetchHistory` sends the two bounds in the order it holds them; it does not
  sort them.
- **List errors.** `fetchHistory` never looks at the response status: a parsed list replaces
  `historyList` whatever the status. Only a network or parse failure gives the "listing failed"
  notice. A parsed body that is not a list is outside the model (see "## Left out").
- **Notices.** A failed catalog load is only logged to the console, with no notice. A successful
  submit gives two notices: the success notice and the reset notice.
- **Stale responses.** Nothing stops a late list response from overwriting a newer one;
  interleaved responses are outside this model.

## Model

| member | source | states |
|---|---|---|
| `TextSearch.LowerChar` | src/pages/ChulhaRegister.js:123 | a capital `A`–`Z` becomes its own lower-case letter, no result is a capital, and every other character is kept |
| `TextSearch.Lower` | src/pages/ChulhaRegister.js:123 | lower-casing keeps the length and maps each character through the character rule |
| `TextSearch.LowerIdempotent` | src/pages/ChulhaRegister.js:123 | lower-casing an already lower-cased keyword changes nothing |
| `TextSearch.IncludesFrom` | src/pages/ChulhaRegister.js:126-127 | an occurrence of the keyword at any position is found by `includes` |
| `TextSearch.IncludesWitness` | src/pages/ChulhaRegister.js:126-127 | whenever `includes` holds, the keyword occurs at the returned position |
| `TextSearch.IncludesIffOccurs` | src/pages/ChulhaRegister.js:126-127 | `includes` holds exactly when the pattern occurs at some position, in both directions |
| `TextSearch.Includes` | src/pages/ChulhaRegister.js:126-127 | every string includes the empty keyword, and a pattern longer than the text is never included |
| `TextSearch.IncludesLowered` | src/pages/ChulhaRegister.js:126-127 | a verbatim occurrence is still found after both sides are lower-cased |
| `Catalog.Matches` | src/pages/ChulhaRegister.js:124-128 | the search test: the lower-cased name or the lower-cased code includes the lower-cased keyword (the same test at :143-147 for vendors) |
| `Catalog.Filter` | src/pages/ChulhaRegister.js:124-128 | the result is no longer than the list, and only holds list entries whose name or code matches |
| `Catalog.FilterMembership` | src/pages/ChulhaRegister.js:124-128 | an entry is shown exactly when it is in the full list and its lower-cased name or code includes the lower-cased keyword |
| `Catalog.FilterAppend` | src/pages/ChulhaRegister.js:124-128 | filtering distributes over concatenation, so the shown cards keep the list's order |
| `Catalog.FilterAllMatch` | src/pages/ChulhaRegister.js:124-128 | when every entry matches, the whole list is shown unchanged |
| `Catalog.FilterNoneMatch` | src/pages/ChulhaRegister.js:124-128 | when no entry matches, no card is shown |
| `Catalog.FilterEmptyKeyword` | src/pages/ChulhaRegister.js:120-130 | an empty keyword shows the whole list |
| `Catalog.FilterIdempotent` | src/pages/ChulhaRegister.js:120-130 | filtering the shown cards again with the same keyword changes nothing |
| `Catalog.FilterCaseInsensitive` | src/pages/ChulhaRegister.js:123-128 | the keyword's letter case does not change the result |
| `Catalog.FilterFindsVerbatim` | src/pages/ChulhaRegister.js:124-128 | an entry whose name or code contains the keyword verbatim is always shown |
| `DateColumn.Slice` | src/pages/ChulhaRegister.js:294 | `slice` clamps both bounds to the length; the result is the characters from the clamped start up to the clamped end |
| `DateColumn.RenderDate` | src/pages/ChulhaRegister.js:293-294 | an empty (falsy) date is shown as empty and only it; any other text shows at most eight of its characters plus exactly two dashes |
| `DateColumn.RenderKeepsPrefix` | src/pages/ChulhaRegister.js:293-294 | for any non-empty text, the two dashes sit after the fourth and sixth characters, and taking them out gives the text's first eight characters (all of it when shorter) |
| `DateColumn.RenderEightChars` | src/pages/ChulhaRegister.js:293-294 | an 8-character `YYYYMMDD` is shown as the 10-character `YYYY-MM-DD`, and removing the dashes gives it back |
| `DateColumn.RenderIgnoresTail` | src/pages/ChulhaRegister.js:293-294 | characters after the eighth are never shown |
| `DateColumn.CompareDates` | src/pages/ChulhaRegister.js:297 | the sorter returns -1, 0 or 1, and 0 exactly for equal dates |
| `DateColumn.CompareAntisymmetric` | src/pages/ChulhaRegister.js:297 | swapping two rows negates the comparison |
| `DateColumn.CompareTransitive` | src/pages/ChulhaRegister.js:297 | the sorter's order is transitive |
| `DateColumn.CompareIsNumeric` | src/pages/ChulhaRegister.js:297 | for digit strings of one length, string order is numeric order, so `YYYYMMDD` rows sort chronologically |
| `Counter.PlusValue` | src/pages/ChulhaRegister.js:159-164 | plus yields more than `amt` (0 when falsy), and at least 1 from any present non-negative amount |
| `Counter.MinusValue` | src/pages/ChulhaRegister.js:166-173 | minus subtracts one only when `amt` (0 when falsy) exceeds 1, and otherwise leaves `amt` exactly as it was |
| `Counter.Step` | src/pages/ChulhaRegister.js:159-173 | one click: plus gives the plus value, minus the minus value |
| `Counter.Run` | src/pages/ChulhaRegister.js:159-173 | a sequence of clicks applied in order |
| `Counter.MinusIsFloored` | src/pages/ChulhaRegister.js:166-173 | from a whole amount of at least 1, minus gives `max(1, amt - 1)` |
| `Counter.MinusBelowOneFromFraction` | src/pages/ChulhaRegister.js:166-173 | from an amount strictly between 1 and 2, minus subtracts one and the result is between 0 and 1 |
| `Counter.MinusFromOneAndAHalf` | src/pages/ChulhaRegister.js:166-173 | a typed 1.5 followed by minus gives 0.5 |
| `Counter.StepKeepsFloor` | src/pages/ChulhaRegister.js:159-173 | one click keeps a whole amount of at least 1 whole, at least 1, and at most one higher |
| `Counter.MinusUndoesPlus` | src/pages/ChulhaRegister.js:159-173 | minus undoes plus exactly when the amount is positive |
| `Counter.PlusUndoesMinus` | src/pages/ChulhaRegister.js:159-173 | plus undoes minus above the floor |
| `Counter.RunKeepsFloor` | src/pages/ChulhaRegister.js:159-173 | from a whole amount of at least 1, no sequence of plus/minus clicks leaves the whole amounts of at least 1 |
| `Counter.RunKeepsPositive` | src/pages/ChulhaRegister.js:159-173 | from any positive amount, whole or not, no sequence of clicks reaches 0 or below |
| `Counter.RunBounded` | src/pages/ChulhaRegister.js:159-173 | after any clicks from a whole `v >= 1`, the amount is present, at least 1, and at most `v` plus the number of clicks |
| `Submit.PrepareInsert` | src/pages/ChulhaRegister.js:196-207 | a falsy `jepum_cd` is the product error; with a product, a falsy `vender_cd` is the vendor error; a payload exists exactly when both codes and the date are set, and it carries the date, both codes, `amt` and `bigo` ("" when falsy) |
| `Submit.ProductCheckedFirst` | src/pages/ChulhaRegister.js:197-198 | without a product the vendor is never looked at |
| `Submit.NoteDefaultsToEmpty` | src/pages/ChulhaRegister.js:206 | an absent note is sent as "", a written one as written |
| `ChulhaRegister.Consistent` | src/pages/ChulhaRegister.js:42-74 | the page invariant over this state: shown cards are loaded entries, the counter equals `amt`, the hidden code fields hold the selections, the modal is open only on a record, every request carries `v_db` |
| `ChulhaRegister.AfterFetchHistory` | src/pages/ChulhaRegister.js:108-117 | nothing happens unless the range has exactly two bounds; then one list request for those bounds, and the parsed body replaces `historyList` wholesale (or a failure notice); nothing else changes; the invariant is kept |
| `ChulhaRegister.AfterReset` | src/pages/ChulhaRegister.js:176-193 | the form becomes a one-unit draft for today; both pickers are cleared; an info notice is added; nothing else changes |
| `ChulhaRegister.Cleared` | src/pages/ChulhaRegister.js:182-190 | no selection (null code, empty name), empty search text, and the full list shown again |
| `ChulhaRegister.ResetConsistent` | src/pages/ChulhaRegister.js:176-193 | reset keeps the page invariant |
| `ChulhaRegister.ChulhaPage.constructor` | src/pages/ChulhaRegister.js:42-74 | the initial page: tab "1", empty lists, counter and `amt` at 1, the month's range, modal closed, `editAmt` 0 |
| `ChulhaRegister.ChulhaPage.LoadCatalogs` | src/pages/ChulhaRegister.js:77-96 | both catalog loads are issued; a received list becomes both the full and the shown list; a failed load changes nothing |
| `ChulhaRegister.ChulhaPage.FetchHistory` | src/pages/ChulhaRegister.js:108-117 | the new state is `AfterFetchHistory` of the old one; no request without two bounds |
| `ChulhaRegister.ChulhaPage.SetActiveTab` | src/pages/ChulhaRegister.js:99-103 | switching to another tab stores it, and reloads the history only when the new tab is "2"; choosing the current tab again changes nothing |
| `ChulhaRegister.ChulhaPage.SetSearchRange` | src/pages/ChulhaRegister.js:99-103 | the new range is stored, and the history is reloaded for it only while tab "2" is active |
| `ChulhaRegister.ChulhaPage.HandleProductSearch` | src/pages/ChulhaRegister.js:120-130 | the search text is stored and the cards shown are recomputed from the full product list; nothing else changes |
| `ChulhaRegister.ChulhaPage.HandleVenderSearch` | src/pages/ChulhaRegister.js:139-149 | the same for the vendor list |
| `ChulhaRegister.ChulhaPage.HandleProductSelectCard` | src/pages/ChulhaRegister.js:132-136 | code and name come from the one entry, the code also goes into `jepum_cd`, the cards shown are unchanged, and nothing else changes |
| `ChulhaRegister.ChulhaPage.HandleVenderSelectCard` | src/pages/ChulhaRegister.js:151-156 | the same for vendors and `vender_cd` |
| `ChulhaRegister.ChulhaPage.HandlePlus` | src/pages/ChulhaRegister.js:159-164 | counter and `amt` both become `amt + 1`, with a falsy `amt` read as 0; a whole amount of at least 1 stays so, and a positive one stays positive |
| `ChulhaRegister.ChulhaPage.HandleMinus` | src/pages/ChulhaRegister.js:166-173 | counter and `amt` both become the minus value; at or below 1 the page is unchanged; a whole amount of at least 1 stays so, a positive one stays positive, and one strictly between 1 and 2 drops below 1 |
| `ChulhaRegister.ChulhaPage.EnterQuantity` | src/pages/ChulhaRegister.js:689-692 | the typed value, possibly absent or fractional, goes into the counter and `amt` without clamping or rounding |
| `ChulhaRegister.ChulhaPage.SetShipDate` | src/pages/ChulhaRegister.js:419-430 | the date picker changes only the form's `chulha_dt` |
| `ChulhaRegister.ChulhaPage.SetNote` | src/pages/ChulhaRegister.js:705-707 | the note input changes only the form's `bigo` |
| `ChulhaRegister.ChulhaPage.HandleReset` | src/pages/ChulhaRegister.js:176-193 | the new state is `AfterReset` of the old one |
| `ChulhaRegister.ChulhaPage.OnFinish` | src/pages/ChulhaRegister.js:196-225 | if validation fails, only the error notice is added and no request is issued; otherwise exactly one insert with the built payload; the page is reset only on an accepted insert; on a rejection or an exception only an error notice is added and the draft is kept |
| `ChulhaRegister.ChulhaPage.HandleDelete` | src/pages/ChulhaRegister.js:228-237 | asking to delete only opens the confirmation for the record; no request is issued |
| `ChulhaRegister.ChulhaPage.HandleDeleteAsWritten` | src/pages/ChulhaRegister.js:229 | as written, whatever the operator answers, nothing changes: no request is issued |
| `ChulhaRegister.ChulhaPage.CancelDelete` | src/pages/ChulhaRegister.js:237 | cancelling closes the confirmation and sends nothing |
| `ChulhaRegister.ChulhaPage.ConfirmDelete` | src/pages/ChulhaRegister.js:238-253 | confirming issues exactly one DELETE for the record and closes the dialog; only a successful delete is followed by a history reload |
| `ChulhaRegister.ChulhaPage.OpenEditModal` | src/pages/ChulhaRegister.js:257-262 | the record, its `amt` and its `bigo` ("" when falsy) go into the edit state and the modal opens; nothing else changes |
| `ChulhaRegister.ChulhaPage.SetEditAmt` | src/pages/ChulhaRegister.js:818-822 | the modal's quantity input changes only `editAmt` |
| `ChulhaRegister.ChulhaPage.SetEditBigo` | src/pages/ChulhaRegister.js:830-834 | the modal's note input changes only `editBigo` |
| `ChulhaRegister.ChulhaPage.CloseEditModal` | src/pages/ChulhaRegister.js:790 | cancelling the modal only closes it |
| `ChulhaRegister.ChulhaPage.HandleUpdate` | src/pages/ChulhaRegister.js:264-285 | issues one PUT with `{chulha_cd, amt: editAmt, bigo: editBigo}`; on success the modal closes and the history is reloaded; otherwise the modal and the history are unchanged; without a record, only an error notice and no request |

## Left out

- Rendering: the JSX, the style objects, the breakpoint logic, the antd widgets and the Tag summary are presentation only.
- `fetch`, Promises and JSON parsing: each call is an issued request plus an outcome supplied as a parameter. Because calls complete in the same step, the interleaving of concurrent responses is not modelled.
- `console.error` on a failed catalog load is not modelled. `message.*` toasts are modelled only as the `notices` log.
- Floating point: a JavaScript number is modelled as an exact real, so rounding of fractional quantities such as 0.1 + 1 is not modelled.
- dayjs: a date is its `YYYYMMDD` text and `format("YYYYMMDD")` is identity. Today and the current month's first and last day are parameters.
- antd behaviour that is not in this source is not modelled. This covers the Form's `required` rules, checked before `onFinish` is called, and `min={1}` on the number inputs. The model runs `onFinish` on the form store as it stands, so an absent date takes the source's `catch` path.
- The delete dialog's text and the `vender_nm || georae_nm` display fallback are display only. Records keep only `chulha_cd`, `chulha_dt`, `amt` and `bigo`.
- `src/App.js` (routing, sidebar toggle) and `src/components/Sidebar.js` (menu navigation) are UI plumbing. The production-registration and stock pages are not part of this model.
- TextSearch.Lower: lower-cases ASCII `A`–`Z` only. JavaScript's `toLowerCase` also maps other Unicode letters. Hangul names are unaffected because Hangul has no letter case.
- TextSearch.LowerChar: the same ASCII-only character rule. `toLowerCase` is not character by character in general: it can depend on context and can change the length. For example, a final capital sigma lowers to "ς", not "σ", and "İ" lowers to two code units. So `TextSearch.Lower`'s "keeps the length", `TextSearch.IncludesLowered` and `Catalog.FilterFindsVerbatim` hold for the modelled rule, not for every Unicode text.
- DateColumn.CompareDates: models `localeCompare` as code-unit order. This matches locale collation on digit strings such as `YYYYMMDD` dates, not on arbitrary text.
- ChulhaRegister.AfterFetchHistory: the list reply is modelled as a list of records or a failure. A parsed body that is not a list, such as the backend's `{error}` object, is not modelled. The source (`src/pages/ChulhaRegister.js:114-115`) stores such a body in `historyList` with no notice.
- ChulhaRegister.ChulhaPage.FetchHistory: its new state is `AfterFetchHistory`'s, so the same non-list body is not modelled.
- ChulhaRegister.ChulhaPage.LoadCatalogs: a received catalog is modelled as a list of entries. The source (`src/pages/ChulhaRegister.js:81-84`, `:91-94`) stores any parsed body, an `{error}` object included, as both the full and the shown list. The next search's `productList.filter` (or `venderList.filter`) then throws, and that path is not modelled.
- DateColumn.RenderDate: only the empty string stands for a falsy date; `null` and `undefined` are not modelled.

## Findings

| source | as written | input that shows it | evidently intended | confidence | as-written member | corrected member |
|---|---|---|---|---|---|---|
| src/pages/ChulhaRegister.js:229 | `handleDelete` calls `confirm({... onOk ...})`, but `confirm` is never imported or declared; only `Modal` is imported. The name therefore resolves to the browser's `window.confirm`, or raises a ReferenceError. Either way the `onOk` callback never runs. | any history row, with the operator pressing OK: no DELETE request is issued and the list is not reloaded | antd's `Modal.confirm`: the dialog's `onOk` issues the DELETE (the sibling page's backup declares `const { confirm } = Modal;`) | not executed; high | `ChulhaRegister.ChulhaPage.HandleDeleteAsWritten` | `ChulhaRegister.ChulhaPage.ConfirmDelete` |
