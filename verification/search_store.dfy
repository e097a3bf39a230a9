/**
 The search store of app/store/search.store.ts as an immutable record with
 one pure transition function per action. The store's reactive wrappers
 (`ref`, `computed`, `readonly`) become plain fields and functions of the
 record.
 */
module SearchStore {

  import opened Options
  import opened JsString
  import opened SearchHistory

  /** A placeholder result. Its `type` field is called `kind` here. */
  datatype SearchResult = SearchResult(id: int, title: string, description: string, kind: string)

  /** The value of `selectedIcon` when no filter icon is selected. */
  const NoIcon: int := -1

  /** The result type used when `performSearch` receives no icon type. */
  const DefaultKind: string := "general"

  datatype Store = Store(
    isOpen: bool,
    searchQuery: string,
    selectedIcon: int,
    searchResults: seq<SearchResult>,
    searchHistory: seq<string>)

  /** The store as it is created: closed, no query, no icon, no results,
      no history. */
  function Initial(): (s: Store)
    ensures !s.isOpen && s.searchQuery == [] && s.selectedIcon == NoIcon
    ensures s.searchResults == [] && s.searchHistory == []
  {
    Store(false, "", NoIcon, [], [])
  }

  /** The `hasSearchQuery` getter: the query has a non-whitespace character. */
  function HasSearchQuery(s: Store): (r: bool)
    ensures r <==> exists i :: 0 <= i < |s.searchQuery| && !IsWhitespace(s.searchQuery[i])
  {
    TrimEmptyIffAllWhitespace(s.searchQuery);
    |Trim(s.searchQuery)| > 0
  }

  /** The `recentSearches` getter. */
  function Recent(s: Store): (r: seq<string>)
    ensures |r| == Min(RecentCount, |s.searchHistory|)
    ensures r == s.searchHistory[..|r|]
  {
    RecentSearches(s.searchHistory)
  }

  function OpenSearch(s: Store): (r: Store)
    ensures r.isOpen
    ensures r.(isOpen := s.isOpen) == s
  {
    s.(isOpen := true)
  }

  /** `closeSearch` closes the overlay and also clears the query and the
      selected icon; results and history survive. */
  function CloseSearch(s: Store): (r: Store)
    ensures !r.isOpen && r.searchQuery == [] && r.selectedIcon == NoIcon
    ensures r.searchResults == s.searchResults && r.searchHistory == s.searchHistory
  {
    s.(isOpen := false, searchQuery := "", selectedIcon := NoIcon)
  }

  function SetSearchQuery(s: Store, query: string): (r: Store)
    ensures r.searchQuery == query
    ensures r.(searchQuery := s.searchQuery) == s
  {
    s.(searchQuery := query)
  }

  function SetSelectedIcon(s: Store, iconIndex: int): (r: Store)
    ensures r.selectedIcon == iconIndex
    ensures r.(selectedIcon := s.selectedIcon) == s
  {
    s.(selectedIcon := iconIndex)
  }

  /** The store's `addToHistory` action: only the ledger changes. */
  function AddQueryToHistory(s: Store, query: string): (r: Store)
    ensures r.searchHistory == AddToHistory(s.searchHistory, query)
    ensures r.(searchHistory := s.searchHistory) == s
  {
    s.(searchHistory := AddToHistory(s.searchHistory, query))
  }

  function ClearHistory(s: Store): (r: Store)
    ensures r.searchHistory == []
    ensures r.(searchHistory := s.searchHistory) == s
  {
    s.(searchHistory := [])
  }

  /** `iconType || 'general'`: an absent or empty icon type falls back to
      the default kind. */
  function ResultKind(iconType: Option<string>): (k: string)
    ensures k != []
    ensures iconType.Some? && iconType.value != "" ==> k == iconType.value
    ensures iconType == None || iconType == Some("") ==> k == DefaultKind
  {
    if iconType.Some? && iconType.value != "" then iconType.value else DefaultKind
  }

  /** The two placeholder results `performSearch` produces. */
  function MockResults(kind: string): (rs: seq<SearchResult>)
    ensures |rs| == 2 && rs[0].id == 1 && rs[1].id == 2
    ensures rs[0].title == "Search Result 1" && rs[1].title == "Search Result 2"
    ensures rs[0].description == "Description for result 1"
    ensures rs[1].description == "Description for result 2"
    ensures forall i :: 0 <= i < |rs| ==> rs[i].kind == kind
  {
    [ SearchResult(1, "Search Result 1", "Description for result 1", kind),
      SearchResult(2, "Search Result 2", "Description for result 2", kind) ]
  }

  datatype SearchOutcome = SearchOutcome(store: Store, returned: seq<SearchResult>)

  /** `performSearch(query, iconType)`: records the query in the ledger,
      then installs and returns the two placeholder results. */
  function PerformSearch(s: Store, query: string, iconType: Option<string>): (o: SearchOutcome)
    ensures o.store.searchHistory == AddToHistory(s.searchHistory, query)
    ensures o.store.searchResults == o.returned
    ensures |o.returned| == 2 && o.returned[0].id == 1 && o.returned[1].id == 2
    ensures o.returned[0].title == "Search Result 1" && o.returned[1].title == "Search Result 2"
    ensures o.returned[0].description == "Description for result 1"
    ensures o.returned[1].description == "Description for result 2"
    ensures forall i :: 0 <= i < |o.returned| ==> o.returned[i].kind == ResultKind(iconType)
    ensures o.store.isOpen == s.isOpen && o.store.searchQuery == s.searchQuery
    ensures o.store.selectedIcon == s.selectedIcon
  {
    var results := MockResults(ResultKind(iconType));
    SearchOutcome(AddQueryToHistory(s, query).(searchResults := results), results)
  }

  /** A whitespace-only query still produces results but leaves the ledger
      as it is. */
  lemma BlankQuerySearch(s: Store, query: string, iconType: Option<string>)
    requires AllWhitespace(query)
    ensures PerformSearch(s, query, iconType).store.searchHistory == s.searchHistory
    ensures |PerformSearch(s, query, iconType).returned| == 2
  {
    TrimEmptyIffAllWhitespace(query);
  }

  /** Closing after opening is the same as closing; closing twice is the same
      as closing once; after closing there is no search query. */
  lemma CloseLaws(s: Store)
    ensures CloseSearch(OpenSearch(s)) == CloseSearch(s)
    ensures CloseSearch(CloseSearch(s)) == CloseSearch(s)
    ensures !HasSearchQuery(CloseSearch(s))
  {
  }

  /** The results the store can hold: none, or the two placeholders with
      ids 1 and 2 and one common, non-empty kind. */
  predicate ResultsWellShaped(rs: seq<SearchResult>) {
    || rs == []
    || (|rs| == 2 && rs[0].id == 1 && rs[1].id == 2 && rs[0].kind == rs[1].kind && rs[0].kind != "")
  }

  /** The store invariant: a valid ledger and well-shaped results. */
  predicate Inv(s: Store) {
    Valid(s.searchHistory) && ResultsWellShaped(s.searchResults)
  }

  /** The store's actions. */
  datatype Action =
    | Open
    | Close
    | SetQuery(query: string)
    | SetIcon(iconIndex: int)
    | AddHistory(query: string)
    | Clear
    | Search(query: string, iconType: Option<string>)

  function Step(s: Store, a: Action): Store {
    match a
    case Open => OpenSearch(s)
    case Close => CloseSearch(s)
    case SetQuery(q) => SetSearchQuery(s, q)
    case SetIcon(i) => SetSelectedIcon(s, i)
    case AddHistory(q) => AddQueryToHistory(s, q)
    case Clear => ClearHistory(s)
    case Search(q, t) => PerformSearch(s, q, t).store
  }

  /** Every action keeps the store invariant. */
  lemma StepPreservesInv(s: Store, a: Action)
    requires Inv(s)
    ensures Inv(Step(s, a))
  {
    match a
    case AddHistory(q) => AddPreservesValid(s.searchHistory, q);
    case Search(q, t) => AddPreservesValid(s.searchHistory, q);
    case _ =>
  }

  /** The store after running `acts` in order from `s`. */
  function Run(s: Store, acts: seq<Action>): Store
    decreases |acts|
  {
    if acts == [] then s else Run(Step(s, acts[0]), acts[1..])
  }

  /** Every store reachable from the initial one satisfies the invariant: at
      most ten distinct, trimmed, non-empty history entries, and results that
      are either empty or the two placeholders. */
  lemma {:induction false} RunPreservesInv(s: Store, acts: seq<Action>)
    requires Inv(s)
    ensures Inv(Run(s, acts))
    decreases |acts|
  {
    if acts != [] {
      StepPreservesInv(s, acts[0]);
      RunPreservesInv(Step(s, acts[0]), acts[1..]);
    }
  }

  lemma ReachableInv(acts: seq<Action>)
    ensures Inv(Run(Initial(), acts))
  {
    RunPreservesInv(Initial(), acts);
  }
}
