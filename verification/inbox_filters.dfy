/** The inbox filter record and the updates the filter bar makes to it: each
    toggle adds a value to one list or removes it, leaving the rest of the
    record as it was. */
module InboxFilters {
  import opened Seqs

  datatype Filters = Filters(
    materiality: seq<string>,
    eventType: seq<string>,
    deal: seq<string>,
    watchlist: seq<string>,
    unreadOnly: bool)

  /** The list update every toggle performs: a value that is absent is
      appended at the end; a present one is removed everywhere it occurs. */
  function Toggle(list: seq<string>, x: string): (r: seq<string>)
    ensures x in r <==> x !in list
    ensures forall y :: y != x ==> (y in r <==> y in list)
    ensures x !in list ==> r == list + [x]
    ensures x in list ==> r == RemoveAll(list, x) && |r| < |list| && IsSubsequence(r, list)
    ensures multiset(r) == if x in list then multiset(list)[x := 0] else multiset(list) + multiset{x}
  {
    if x in list then
      RemoveAllIsSubsequence(list, x);
      RemoveAllShorter(list, x);
      RemoveAll(list, x)
    else
      list + [x]
  }

  lemma {:induction false} RemoveAllShorter(s: seq<string>, x: string)
    requires x in s
    ensures |RemoveAll(s, x)| < |s|
  {
    if s[0] != x {
      RemoveAllShorter(s[1..], x);
    }
  }

  /** Toggling the same value twice restores membership; when the value was
      absent it restores the list itself. */
  lemma ToggleTwice(list: seq<string>, x: string)
    ensures forall y :: y in Toggle(Toggle(list, x), x) <==> y in list
    ensures x !in list ==> Toggle(Toggle(list, x), x) == list
  {
    if x !in list {
      RemoveAllAppend(list, [x], x);
      RemoveAllAbsent(list, x);
      assert RemoveAll([x], x) == [];
    }
  }

  function ToggleMateriality(f: Filters, tier: string): (r: Filters)
    ensures r.(materiality := f.materiality) == f
    ensures r.materiality == Toggle(f.materiality, tier)
  {
    f.(materiality := Toggle(f.materiality, tier))
  }

  function ToggleEventType(f: Filters, eventType: string): (r: Filters)
    ensures r.(eventType := f.eventType) == f
    ensures r.eventType == Toggle(f.eventType, eventType)
  {
    f.(eventType := Toggle(f.eventType, eventType))
  }

  function ToggleDeal(f: Filters, dealId: string): (r: Filters)
    ensures r.(deal := f.deal) == f
    ensures r.deal == Toggle(f.deal, dealId)
  {
    f.(deal := Toggle(f.deal, dealId))
  }

  function ToggleWatchlist(f: Filters, watchlistId: string): (r: Filters)
    ensures r.(watchlist := f.watchlist) == f
    ensures r.watchlist == Toggle(f.watchlist, watchlistId)
  {
    f.(watchlist := Toggle(f.watchlist, watchlistId))
  }

  function ToggleUnreadOnly(f: Filters): (r: Filters)
    ensures r.unreadOnly != f.unreadOnly
    ensures r.(unreadOnly := f.unreadOnly) == f
  {
    f.(unreadOnly := !f.unreadOnly)
  }

  /** `hasActiveFilters`: some list is non-empty, unread-only is on, or a
      search is typed. */
  predicate HasActiveFilters(f: Filters, searchQuery: string)
    ensures HasActiveFilters(f, searchQuery) <==> f != Filters([], [], [], [], false) || searchQuery != ""
  {
    || |f.materiality| > 0
    || |f.eventType| > 0
    || |f.deal| > 0
    || |f.watchlist| > 0
    || f.unreadOnly
    || |searchQuery| > 0
  }

  /** `clearAllFilters`: the empty record and the empty search, after which
      no filter is active. */
  function ClearAllFilters(): (r: (Filters, string))
    ensures !HasActiveFilters(r.0, r.1)
  {
    (Filters([], [], [], [], false), "")
  }

  /** Only the cleared record and empty search are inactive. */
  lemma InactiveMeansCleared(f: Filters, searchQuery: string)
    ensures !HasActiveFilters(f, searchQuery) <==> (f, searchQuery) == ClearAllFilters()
  {
  }

  /** Turning a value on in an otherwise inactive filter makes it active. */
  lemma ToggleActivates(f: Filters, searchQuery: string, x: string)
    requires !HasActiveFilters(f, searchQuery)
    ensures HasActiveFilters(ToggleMateriality(f, x), searchQuery)
    ensures HasActiveFilters(ToggleEventType(f, x), searchQuery)
    ensures HasActiveFilters(ToggleDeal(f, x), searchQuery)
    ensures HasActiveFilters(ToggleWatchlist(f, x), searchQuery)
    ensures HasActiveFilters(ToggleUnreadOnly(f), searchQuery)
  {
  }
}
