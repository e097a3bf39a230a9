# Search session store and API status modifier

A Dafny model of two pieces of client-side state in a procurement search UI:

- the **search store** (`app/store/search.store.ts`): the open/closed flag of
  the search overlay, the current query, the selected filter icon, the
  placeholder search results and the **search-history ledger**, a
  most-recent-first list of at most ten distinct, trimmed, non-empty queries
  with a five-entry "recent searches" view;
- the **API status record** (`app/types/api-state.ts`): a status that is one
  of `success`, `failed`, `loading`, `idle`, plus an optional message and an
  optional payload, changed through `useStateModifier`, which always
  overwrites the status but overwrites the message and the payload only
  with JavaScript-truthy arguments.

Both are modelled as immutable records with pure transition functions.

Files:

- `js_string.dfy` (`JsString`): `String.prototype.trim` over the exact
  ECMAScript WhiteSpace and LineTerminator sets. It is characterised
  completely: the input is the result padded with whitespace
  (`TrimSplits`), and any such padding of a trimmed core trims back to that
  core (`TrimOfPadded`).
- `js_value.dfy` (`Options`, `JsValue`): optional values, a small model of
  JavaScript values (`undefined`, `null`, booleans, integers, strings,
  arrays, objects) and their truthiness.
- `search_history.dfy` (`SearchHistory`): `addToHistory` and
  `recentSearches` on the ledger, the ledger invariant and its
  preservation, and a reference behaviour. After pairwise distinct, already
  trimmed, non-empty queries the ledger holds the (at most) ten most recent
  ones, newest first (`ReplayDistinct`); for queries that are not trimmed,
  only their trimmed text counts (`AddIgnoresPadding`).
- `search_store.dfy` (`SearchStore`): the store record, every action and
  getter, and the invariant that every reachable store satisfies.
- `api_state.dfy` (`ApiState`): the status type, the record and the
  modifier, with its algebra: idempotence, composition of two updates, and
  the loading-then-success cycle.

`performSearch` only records the query in the history and installs two
placeholder results; it makes no request and touches no status record.
Because the status modifier's gate is JavaScript truthiness, an empty array
or object payload is stored; among the modelled values only `0`, `""`,
`false`, `null` and `undefined` are ignored (`FalsyArgumentsKeepOld`,
`EmptyContainerPayloadStored`). JavaScript also treats `NaN`, `-0` and `0n`
as falsy; `-0` is the integer 0 here, and `NaN` and `0n` are not modelled
(see "## Left out").

## Model

| member | source | states |
|---|---|---|
| JsString.IsWhitespace | app/store/search.store.ts:42 | the characters `trim` strips: the ECMAScript WhiteSpace set (TAB, VT, FF, SP, NBSP, ZWNBSP, category Zs) and LineTerminator set (LF, CR, LS, PS) |
| JsString.TrimStart | app/store/search.store.ts:42 | the leading-whitespace strip is no longer than its input and does not start with whitespace |
| JsString.TrimEnd | app/store/search.store.ts:42 | the trailing-whitespace strip is no longer than its input, keeps its first character, and does not end with whitespace |
| JsString.TrimStartSplits | app/store/search.store.ts:42 | the input is a run of whitespace followed by the leading-whitespace strip: only whitespace was dropped |
| JsString.TrimEndSplits | app/store/search.store.ts:42 | the input is the trailing-whitespace strip followed by a run of whitespace: only whitespace was dropped |
| JsString.Trim | app/store/search.store.ts:42 | `query.trim()` is never longer than the query and neither starts nor ends with whitespace |
| JsString.TrimSplits | app/store/search.store.ts:42 | the input equals some whitespace, then the trimmed text, then some more whitespace: trim removes nothing else |
| JsString.TrimOfPadded | app/store/search.store.ts:42 | a trimmed core padded with whitespace on either side trims back to exactly that core, so trim is uniquely determined |
| JsString.TrimOfTrimmed | app/store/search.store.ts:42-43 | a string without surrounding whitespace is unchanged by trim |
| JsString.TrimIdempotent | app/store/search.store.ts:42-43 | trimming twice equals trimming once |
| JsString.TrimEmptyIffAllWhitespace | app/store/search.store.ts:42 | `query.trim()` is falsy exactly when every character of the query is whitespace |
| SearchHistory.AddToHistory | app/store/search.store.ts:41-49 | a blank query and an already recorded query leave the ledger unchanged; otherwise the trimmed query is element 0, the old entries follow in order, and the length is min(old length + 1, 10) |
| SearchHistory.AddPreservesValid | app/store/search.store.ts:41-49 | from a ledger with at most 10 distinct, trimmed, non-empty entries, addToHistory yields such a ledger again |
| SearchHistory.AddMembership | app/store/search.store.ts:42-47 | only the new trimmed query can enter; a non-blank query is always present afterwards; no old entry is lost while the ledger has fewer than 10 entries |
| SearchHistory.AddToFullEvictsOldest | app/store/search.store.ts:44-47 | a new query into a full ledger gives the new query followed by the first nine old entries; the oldest entry is gone |
| SearchHistory.AddIdempotent | app/store/search.store.ts:42 | recording the same query a second time changes nothing |
| SearchHistory.AddIgnoresPadding | app/store/search.store.ts:42-43 | recording a query and recording its trimmed text have the same effect |
| SearchHistory.AddTwiceFromEmpty | app/store/search.store.ts:41-49 | recording a non-blank query twice into an empty ledger leaves exactly one entry, its trimmed text |
| SearchHistory.RecentSearches | app/store/search.store.ts:20 | `slice(0, 5)`: the first min(5, length) entries of the ledger, in order |
| SearchHistory.RecentOfValid | app/store/search.store.ts:20 | the recent view of a valid ledger is distinct, trimmed and non-empty too |
| SearchHistory.RecentAfterAdd | app/store/search.store.ts:20 | a newly recorded query heads the recent view |
| SearchHistory.AddFresh | app/store/search.store.ts:43-47 | a trimmed, non-empty, unrecorded query is unshifted and the result cut to 10 entries |
| SearchHistory.AddFreshNewestFirst | app/store/search.store.ts:43-47 | unshifting a fresh query onto a ledger of the most recent earlier queries, newest first, gives the most recent queries including it, newest first, at most 10 |
| SearchHistory.ReplayValid | app/store/search.store.ts:41-49 | any sequence of addToHistory calls from an empty ledger leaves a valid ledger |
| SearchHistory.ReplayDistinct | app/store/search.store.ts:44-47 | after pairwise distinct, already trimmed, non-empty queries the ledger is the last min(n, 10) of them (the at most ten most recent), newest first, so the eleventh evicts the first; queries that are not trimmed are covered by AddIgnoresPadding |
| SearchStore.Initial | app/store/search.store.ts:12-16 | a new store is closed, with empty query, icon -1, no results and no history |
| SearchStore.HasSearchQuery | app/store/search.store.ts:19 | true exactly when the current query contains a non-whitespace character |
| SearchStore.Recent | app/store/search.store.ts:20 | the recent view is the first min(5, length) entries of the history, so the whole history when it has fewer than 5 |
| SearchStore.OpenSearch | app/store/search.store.ts:23-25 | the overlay is open and every other field is unchanged |
| SearchStore.CloseSearch | app/store/search.store.ts:27-31 | closed, empty query, icon -1; results and history unchanged |
| SearchStore.SetSearchQuery | app/store/search.store.ts:33-35 | the query is the argument and every other field is unchanged |
| SearchStore.SetSelectedIcon | app/store/search.store.ts:37-39 | the selected icon is the argument and every other field is unchanged |
| SearchStore.AddQueryToHistory | app/store/search.store.ts:41-49 | only the history changes, as the ledger's addToHistory says |
| SearchStore.ClearHistory | app/store/search.store.ts:51-53 | the history is empty and every other field is unchanged |
| SearchStore.ResultKind | app/store/search.store.ts:65-66 | `iconType \|\| 'general'`: a non-empty icon type is used as is, an absent or empty one becomes `general`; never empty |
| SearchStore.MockResults | app/store/search.store.ts:64-67 | exactly two placeholders with ids 1 and 2, titles "Search Result 1"/"Search Result 2", the matching descriptions, and the given type |
| SearchStore.PerformSearch | app/store/search.store.ts:55-70 | the history becomes addToHistory(query); exactly two results with ids 1 and 2, the source's titles and descriptions, and the fallback kind are stored and returned; open flag, query and icon unchanged |
| SearchStore.BlankQuerySearch | app/store/search.store.ts:55-70 | a whitespace-only search still yields two results and leaves the history unchanged |
| SearchStore.CloseLaws | app/store/search.store.ts:19-31 | close after open equals close, close is idempotent, and after close there is no search query |
| SearchStore.StepPreservesInv | app/store/search.store.ts:22-76 | every action keeps the ledger valid and the results either empty or the two same-kind placeholders |
| SearchStore.RunPreservesInv | app/store/search.store.ts:22-76 | any sequence of actions keeps that invariant |
| SearchStore.ReachableInv | app/store/search.store.ts:12-76 | every store reachable from the initial one satisfies that invariant |
| JsValue.Truthy | app/types/api-state.ts:23 | the `if (newData)` test: ECMAScript ToBoolean on the modelled values, false for undefined, null, false, 0 and "", true for every other modelled value including empty arrays and objects |
| ApiState.MessageTruthy | app/types/api-state.ts:20 | the `if (newMessage)` test on an optional string: true exactly when the message is present and not empty |
| JsValue.FalsyValues | app/types/api-state.ts:20-25 | among the modelled values, the ones the `if` guards reject are exactly undefined, null, false, 0 and "" |
| ApiState.ParseStatus | app/types/api-state.ts:4 | a string read as a status is that status's literal |
| ApiState.StatusNameRoundTrip | app/types/api-state.ts:4 | each of the four statuses reads back from its literal, so the union type has exactly these four values |
| ApiState.UseStateModifier | app/types/api-state.ts:13-26 | the status is the new one whatever the old; message and data take the new argument only when it is truthy, else keep the old value |
| ApiState.ModifierIdempotent | app/types/api-state.ts:13-26 | applying the same arguments twice equals applying them once |
| ApiState.ModifierCompose | app/types/api-state.ts:13-26 | two consecutive updates equal one update with the second status and the later truthy message and data |
| ApiState.StatusOnlyUpdate | app/types/api-state.ts:19-25 | an update without message and data changes only the status |
| ApiState.FalsyArgumentsKeepOld | app/types/api-state.ts:20-25 | an empty message and a payload of undefined, null, false, 0 or "" leave message and data as they were |
| ApiState.EmptyContainerPayloadStored | app/types/api-state.ts:23-25 | an empty array or object payload is truthy and is stored |
| ApiState.LoadingThenSuccess | app/types/api-state.ts:13-26 | loading with "Thinking..." then success with a non-empty message and a truthy payload ends as exactly that success, message and payload |
| ApiState.LoadingKeepsPayload | app/types/api-state.ts:19-25 | the loading step replaces status and message but keeps the previous payload |

## Left out

- `app/composables/useGlobalSearch.ts`: forwards `openSearch` to an injected object and has no logic of its own.
- `app/data/autocomplete-data.ts`: static sample data; `getAutocompleteData` ignores its argument and returns a constant.
- Vue/Pinia reactivity (`defineStore`, `ref`, `computed`, `readonly`): the store is a plain immutable record and each action is a function from store to store.
- `performSearch` is `async` and logs with `console.log`. It is modelled as synchronous and the logging is dropped. Its `catch` branch (app/store/search.store.ts:71-75) is unreachable: the body records the query and builds two literal results, and none of these steps can throw for a string `query`.
- `selectedIcon` is a JavaScript number. It is modelled as an integer, so fractional or NaN icon indices are not covered.
- JavaScript strings are UTF-16 code-unit sequences. They are modelled as sequences of Unicode characters, so strings holding unpaired UTF-16 surrogates are not represented. For every string the model can hold, trimming and `includes` behave the same, because every whitespace code point is a single BMP unit.
- `data?: any` is modelled by a JavaScript value type without floating-point numbers, symbols, BigInts or functions. Its truthiness is exact for the values it has; the falsy values `NaN` and `0n` are not among them.
