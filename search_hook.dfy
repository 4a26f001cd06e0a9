/** The `useSearch` hook: a search term updated at once, and a debounced
    `onSearch` call scheduled on a timer. The timer is an explicit event: a
    scheduled callback runs only when `Fire` is applied. */
module SearchHook {
  import opened Wrappers
  import opened Text

  /** The hook's state. `pending` is the term the scheduled timer callback will
      search for, or `None` when no timer is scheduled; `calls` is the log of
      `onSearch` calls, oldest first. */
  datatype SearchState = SearchState(
    searchTerm: string,
    isSearchActive: bool,
    activeSearch: Option<string>,
    pending: Option<string>,
    calls: seq<string>)

  predicate Blank(term: string) {
    Trim(term) == []
  }

  function Initial(initialSearchTerm: string): SearchState {
    SearchState(initialSearchTerm, false, None, None, [])
  }

  /** `debouncedSearch(term)` */
  function Debounce(s: SearchState, term: string): SearchState {
    if Blank(term) then
      s.(searchTerm := term, isSearchActive := false, activeSearch := None, pending := None)
    else if s.activeSearch == Some(term) then
      s.(searchTerm := term, pending := None)
    else
      s.(searchTerm := term, pending := Some(term))
  }

  /** The timer callback; without a scheduled timer nothing happens. */
  function Fire(s: SearchState): SearchState {
    match s.pending
    case None => s
    case Some(term) =>
      s.(isSearchActive := true, activeSearch := Some(term), pending := None, calls := s.calls + [term])
  }

  /** `setSearchTerm(term)`: the returned setter changes the term only. */
  function WithSearchTerm(s: SearchState, term: string): SearchState {
    s.(searchTerm := term)
  }

  /** Several `debouncedSearch` calls in a row, with no timer firing between them. */
  function DebounceAll(s: SearchState, terms: seq<string>): SearchState
  {
    if terms == [] then s else Debounce(DebounceAll(s, terms[..|terms| - 1]), terms[|terms| - 1])
  }

  /** What the hook keeps true: the flag says whether there is an active search,
      and neither the active search, the scheduled term nor any `onSearch` call
      is blank. */
  ghost predicate Consistent(s: SearchState) {
    && (s.isSearchActive <==> s.activeSearch.Some?)
    && (s.activeSearch.Some? ==> !Blank(s.activeSearch.value))
    && (s.pending.Some? ==> !Blank(s.pending.value))
    && forall i :: 0 <= i < |s.calls| ==> !Blank(s.calls[i])
  }

  lemma InitialSpec(initialSearchTerm: string)
    ensures var s := Initial(initialSearchTerm);
      s.searchTerm == initialSearchTerm && !s.isSearchActive && s.pending.None? && s.calls == []
      && Consistent(s)
  {
  }

  /** Every event keeps the hook consistent, so `onSearch` never sees blank text. */
  lemma DebounceKeepsConsistent(s: SearchState, term: string)
    requires Consistent(s)
    ensures Consistent(Debounce(s, term))
  {
    if Blank(term) {
      assert Debounce(s, term) == s.(searchTerm := term, isSearchActive := false, activeSearch := None, pending := None);
    } else if s.activeSearch == Some(term) {
      assert Debounce(s, term) == s.(searchTerm := term, pending := None);
    } else {
      assert Debounce(s, term) == s.(searchTerm := term, pending := Some(term));
    }
  }

  lemma FireKeepsConsistent(s: SearchState)
    requires Consistent(s)
    ensures Consistent(Fire(s))
  {
    if s.pending.Some? {
      var r := Fire(s);
      forall i | 0 <= i < |r.calls| ensures !Blank(r.calls[i]) {
        if i < |s.calls| {
          assert r.calls[i] == s.calls[i];
        }
      }
    }
  }

  lemma {:induction false} DebounceAllKeepsConsistent(s: SearchState, terms: seq<string>)
    requires Consistent(s)
    ensures Consistent(DebounceAll(s, terms))
  {
    if terms != [] {
      DebounceAllKeepsConsistent(s, terms[..|terms| - 1]);
      DebounceKeepsConsistent(DebounceAll(s, terms[..|terms| - 1]), terms[|terms| - 1]);
    }
  }

  /** A call cancels any scheduled timer, sets the term at once, and never calls
      `onSearch` itself; it schedules the term exactly when the term is not
      blank and differs from the active search. */
  lemma DebounceSpec(s: SearchState, term: string)
    ensures var r := Debounce(s, term);
      && r.searchTerm == term
      && r.calls == s.calls
      && (r.pending.Some? <==> !Blank(term) && s.activeSearch != Some(term))
      && (r.pending.Some? ==> r.pending.value == term)
  {
  }

  /** A blank term ends the active search and schedules nothing. */
  lemma BlankClearsSearch(s: SearchState, term: string)
    requires Blank(term)
    ensures var r := Debounce(s, term);
      !r.isSearchActive && r.activeSearch.None? && r.pending.None? && r.calls == s.calls
  {
  }

  /** The term of the active search is not searched again. */
  lemma SameTermNotRepeated(s: SearchState, term: string)
    requires Consistent(s)
    requires s.activeSearch == Some(term)
    ensures Fire(Debounce(s, term)).calls == s.calls
    ensures Fire(Debounce(s, term)).activeSearch == Some(term)
  {
  }

  /** When the timer fires it searches the scheduled term once and makes it the
      active search. */
  lemma FireSpec(s: SearchState)
    ensures var r := Fire(s);
      && r.pending.None?
      && r.searchTerm == s.searchTerm
      && (s.pending.Some? ==> r.calls == s.calls + [s.pending.value]
                              && r.activeSearch == s.pending && r.isSearchActive)
      && (s.pending.None? ==> r == s)
  {
  }

  /** After a burst of calls the only scheduled search, if any, is for the last
      term, and the log is untouched. */
  lemma BurstKeepsOnlyLast(s: SearchState, terms: seq<string>)
    requires terms != []
    ensures var r := DebounceAll(s, terms);
      && r.calls == s.calls
      && r.searchTerm == terms[|terms| - 1]
      && (r.pending.None? || r.pending == Some(terms[|terms| - 1]))
  {
    DebounceAllCalls(s, terms[..|terms| - 1]);
  }

  lemma {:induction false} DebounceAllCalls(s: SearchState, terms: seq<string>)
    ensures DebounceAll(s, terms).calls == s.calls
  {
    if terms != [] {
      DebounceAllCalls(s, terms[..|terms| - 1]);
    }
  }

  /** Calls never make a search active; at most they end the active one. */
  lemma {:induction false} DebounceAllActive(s: SearchState, terms: seq<string>)
    ensures DebounceAll(s, terms).activeSearch in {s.activeSearch, None}
  {
    if terms != [] {
      DebounceAllActive(s, terms[..|terms| - 1]);
    }
  }

  /** A burst followed by the timer calls `onSearch` at most once, with the last
      term; when the last term is not blank it is then the active search. */
  lemma {:induction false} BurstThenFire(s: SearchState, terms: seq<string>)
    requires Consistent(s)
    requires terms != []
    ensures var last := terms[|terms| - 1];
      var r := Fire(DebounceAll(s, terms));
      && (r.calls == s.calls || r.calls == s.calls + [last])
      && (!Blank(last) && s.activeSearch != Some(last) ==> r.calls == s.calls + [last])
      && r.pending.None?
      && r.searchTerm == last
      && (!Blank(last) ==> r.activeSearch == Some(last) && r.isSearchActive)
      && (Blank(last) ==> r.activeSearch.None? && !r.isSearchActive && r.calls == s.calls)
  {
    var last := terms[|terms| - 1];
    var before := DebounceAll(s, terms[..|terms| - 1]);
    BurstKeepsOnlyLast(s, terms);
    DebounceAllKeepsConsistent(s, terms[..|terms| - 1]);
    DebounceAllActive(s, terms[..|terms| - 1]);
    assert DebounceAll(s, terms) == Debounce(before, last);
  }

  /** The hook's state, updated in place by its event handlers. */
  class SearchHookState {
    var searchTerm: string
    var isSearchActive: bool
    var activeSearch: Option<string>
    var searchTimeout: Option<string>
    ghost var calls: seq<string>

    ghost function State(): SearchState
      reads this
    {
      SearchState(searchTerm, isSearchActive, activeSearch, searchTimeout, calls)
    }

    constructor (initialSearchTerm: string)
      ensures State() == Initial(initialSearchTerm)
    {
      searchTerm := initialSearchTerm;
      isSearchActive := false;
      activeSearch := None;
      searchTimeout := None;
      calls := [];
    }

    method DebouncedSearch(term: string)
      modifies this
      ensures State() == Debounce(old(State()), term)
      ensures old(Consistent(State())) ==> Consistent(State())
    {
      if Consistent(State()) {
        DebounceKeepsConsistent(State(), term);
      }
      if searchTimeout.Some? {
        searchTimeout := None;
      }
      searchTerm := term;
      if Trim(term) == [] {
        isSearchActive := false;
        activeSearch := None;
        return;
      }
      if activeSearch == Some(term) {
        return;
      }
      searchTimeout := Some(term);
    }

    /** The scheduled callback running; returns the term passed to `onSearch`. */
    method TimerFires() returns (searched: Option<string>)
      modifies this
      ensures State() == Fire(old(State()))
      ensures searched == old(searchTimeout)
      ensures old(Consistent(State())) ==> Consistent(State())
    {
      if Consistent(State()) {
        FireKeepsConsistent(State());
      }
      searched := searchTimeout;
      if searchTimeout.Some? {
        var term := searchTimeout.value;
        activeSearch := Some(term);
        isSearchActive := true;
        searchTimeout := None;
        calls := calls + [term];
      }
    }

    method SetSearchTerm(term: string)
      modifies this
      ensures State() == WithSearchTerm(old(State()), term)
    {
      searchTerm := term;
    }
  }
}
