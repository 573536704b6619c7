/** The inbox timeline: events are scored, sorted by score and then by
    time (newest first), filtered by the filter record and the search box,
    and cut into pages; arrow keys and page buttons move a clamped index. */
module InboxTimeline {
  import opened Wrappers
  import opened Text
  import opened Seqs
  import opened EventTypes
  import opened Glyphs
  import M = Materiality
  import F = InboxFilters

  /** An event as the data source delivers it; the timestamp is abstracted
      to the number of milliseconds it denotes. */
  datatype Event = Event(
    id: string,
    eventType: string,
    subtype: Option<string>,
    title: string,
    summary: Option<string>,
    dealId: string,
    timestamp: int)

  datatype EnrichedEvent = EnrichedEvent(
    event: Event,
    score: int,
    tier: M.Tier,
    badge: Badge,
    isRead: bool)

  // ---------------------------------------------------------------------
  // Enrichment and sorting

  /** The context the timeline scores an event with: 45 days to the outside
      date, a 65% chance to close, no litigation, no spread movement and no
      feedback. */
  function EnrichmentContext(e: Event): M.EventContext
  {
    M.EventContext(ParseEventType(e.eventType), e.subtype, Some(45.0), Some(65.0), Some(0.0), None, None)
  }

  /** With those constants no adjustment applies, so an event scores its
      base score; it always starts unread. */
  function Enrich(e: Event): (r: EnrichedEvent)
    ensures r.event == e && !r.isRead
    ensures r.score == M.BaseScore(EnrichmentContext(e))
    ensures r.tier == M.TierOf(r.score) && r.badge == M.BadgeColor(r.tier)
  {
    var scored := M.ScoreWithTier(EnrichmentContext(e));
    EnrichedEvent(e, scored.score, scored.tier, scored.badge, false)
  }

  function EnrichAll(raw: seq<Event>): (r: seq<EnrichedEvent>)
    ensures |r| == |raw|
    ensures forall i :: 0 <= i < |raw| ==> r[i] == Enrich(raw[i])
  {
    seq(|raw|, i requires 0 <= i < |raw| => Enrich(raw[i]))
  }

  /** The comparator's order: higher score first, then later timestamp. */
  predicate Precedes(a: EnrichedEvent, b: EnrichedEvent)
  {
    a.score > b.score || (a.score == b.score && a.event.timestamp >= b.event.timestamp)
  }

  predicate SortedForInbox(s: seq<EnrichedEvent>)
  {
    forall i, j :: 0 <= i < j < |s| ==> Precedes(s[i], s[j])
  }

  /** Exchanges the neighbours at j - 1 and j. */
  method SwapAdjacent(a: array<EnrichedEvent>, j: int)
    requires 0 < j < a.Length
    modifies a
    ensures a[..] == old(a[..])[j - 1 := old(a[j])][j := old(a[j - 1])]
    ensures multiset(a[..]) == multiset(old(a[..]))
  {
    a[j - 1], a[j] := a[j], a[j - 1];
  }

  /** The comparator orders any two events one way or the other. */
  lemma PrecedesTotal(a: EnrichedEvent, b: EnrichedEvent)
    ensures Precedes(a, b) || Precedes(b, a)
  {
  }

  /** Insertion sort by adjacent exchanges, in place. */
  method SortForInbox(a: array<EnrichedEvent>)
    modifies a
    ensures SortedForInbox(a[..])
    ensures multiset(a[..]) == multiset(old(a[..]))
  {
    var i := 0;
    while i < a.Length
      invariant 0 <= i <= a.Length
      invariant forall p, q :: 0 <= p < q < i ==> Precedes(a[p], a[q])
      invariant multiset(a[..]) == multiset(old(a[..]))
    {
      var j := i;
      while j > 0 && !Precedes(a[j - 1], a[j])
        invariant 0 <= j <= i
        invariant forall p, q :: 0 <= p < q <= i && p != j && q != j ==> Precedes(a[p], a[q])
        invariant forall q :: j < q <= i ==> Precedes(a[j], a[q])
        invariant multiset(a[..]) == multiset(old(a[..]))
      {
        PrecedesTotal(a[j - 1], a[j]);
        SwapAdjacent(a, j);
        j := j - 1;
      }
      i := i + 1;
    }
  }

  /** `loadEvents`: enrich every event into a fresh array and sort it in
      place with the comparator. */
  method LoadEvents(raw: seq<Event>) returns (events: seq<EnrichedEvent>)
    ensures SortedForInbox(events)
    ensures multiset(events) == multiset(EnrichAll(raw))
    ensures forall e :: e in events ==> !e.isRead && e.score == M.BaseScore(EnrichmentContext(e.event))
  {
    var a := new EnrichedEvent[|raw|](i requires 0 <= i < |raw| => Enrich(raw[i]));
    assert a[..] == EnrichAll(raw);
    SortForInbox(a);
    events := a[..];
    forall e | e in events
      ensures !e.isRead && e.score == M.BaseScore(EnrichmentContext(e.event))
    {
      assert e in multiset(EnrichAll(raw));
    }
  }

  // ---------------------------------------------------------------------
  // Filtering

  /** The search test, for a query already lower-cased: title, summary or
      type contains it, case-insensitively. */
  predicate MatchesSearch(e: EnrichedEvent, query: string)
    ensures query == "" ==> MatchesSearch(e, query)
    ensures query <= Lower(e.event.title) ==> MatchesSearch(e, query)
  {
    || Contains(Lower(e.event.title), query)
    || (e.event.summary.Some? && Contains(Lower(e.event.summary.value), query))
    || Contains(Lower(e.event.eventType), query)
  }

  /** The `filteredEvents` predicate: an empty list imposes nothing, a
      non-empty one requires membership; the watchlist list is not
      consulted; unread-only drops read events; an empty search keeps all. */
  predicate Keep(e: EnrichedEvent, f: F.Filters, searchQuery: string)
    ensures !F.HasActiveFilters(f, searchQuery) ==> Keep(e, f, searchQuery)
    ensures Keep(e, f, searchQuery) && f.unreadOnly ==> !e.isRead
  {
    && (|f.materiality| == 0 || M.TierName(e.tier) in f.materiality)
    && (|f.eventType| == 0 || e.event.eventType in f.eventType)
    && (|f.deal| == 0 || e.event.dealId in f.deal)
    && !(f.unreadOnly && e.isRead)
    && (searchQuery == "" || MatchesSearch(e, Lower(searchQuery)))
  }

  function FilterEvents(s: seq<EnrichedEvent>, f: F.Filters, searchQuery: string): (r: seq<EnrichedEvent>)
    ensures |r| <= |s|
    ensures forall e :: e in r ==> e in s && Keep(e, f, searchQuery)
    ensures forall e :: multiset(r)[e] == if Keep(e, f, searchQuery) then multiset(s)[e] else 0
  {
    if s == [] then []
    else
      assert s == [s[0]] + s[1..];
      (if Keep(s[0], f, searchQuery) then [s[0]] else []) + FilterEvents(s[1..], f, searchQuery)
  }

  /** An event survives filtering exactly when it is in the list and passes
      the predicate. */
  lemma {:induction false} FilterMembership(s: seq<EnrichedEvent>, f: F.Filters, searchQuery: string, e: EnrichedEvent)
    ensures e in FilterEvents(s, f, searchQuery) <==> e in s && Keep(e, f, searchQuery)
  {
    if s != [] && e in s && Keep(e, f, searchQuery) && e != s[0] {
      FilterMembership(s[1..], f, searchQuery, e);
    }
  }

  /** The filtered list keeps the order of the list it came from. */
  lemma {:induction false} FilterIsSubsequence(s: seq<EnrichedEvent>, f: F.Filters, searchQuery: string)
    ensures IsSubsequence(FilterEvents(s, f, searchQuery), s)
  {
    if s != [] {
      var rest := FilterEvents(s[1..], f, searchQuery);
      FilterIsSubsequence(s[1..], f, searchQuery);
      if Keep(s[0], f, searchQuery) {
        assert ([s[0]] + rest)[1..] == rest;
      } else {
        assert [] + rest == rest;
        SubsequenceSkip(rest, s);
      }
    }
  }

  /** A sorted list stays sorted under an event that precedes all of it. */
  lemma SortedCons(x: EnrichedEvent, t: seq<EnrichedEvent>)
    requires SortedForInbox(t)
    requires forall y :: y in t ==> Precedes(x, y)
    ensures SortedForInbox([x] + t)
  {
    var r := [x] + t;
    forall i, j | 0 <= i < j < |r| ensures Precedes(r[i], r[j]) {
      if i == 0 {
        assert r[j] == t[j - 1];
      } else {
        assert r[i] == t[i - 1] && r[j] == t[j - 1];
      }
    }
  }

  /** Filtering a sorted list leaves it sorted. */
  lemma {:induction false} FilterKeepsSorted(s: seq<EnrichedEvent>, f: F.Filters, searchQuery: string)
    requires SortedForInbox(s)
    ensures SortedForInbox(FilterEvents(s, f, searchQuery))
  {
    if s != [] {
      var rest := FilterEvents(s[1..], f, searchQuery);
      assert SortedForInbox(s[1..]) by {
        forall i, j | 0 <= i < j < |s[1..]| ensures Precedes(s[1..][i], s[1..][j]) {
          assert s[1..][i] == s[i + 1] && s[1..][j] == s[j + 1];
        }
      }
      FilterKeepsSorted(s[1..], f, searchQuery);
      if Keep(s[0], f, searchQuery) {
        forall y | y in rest ensures Precedes(s[0], y) {
          var k :| 0 <= k < |s[1..]| && s[1..][k] == y;
          assert s[k + 1] == y;
        }
        SortedCons(s[0], rest);
      } else {
        assert [] + rest == rest;
      }
    }
  }

  /** With no active filter and no search, nothing is removed. */
  lemma {:induction false} InactiveFiltersKeepAll(s: seq<EnrichedEvent>, f: F.Filters, searchQuery: string)
    requires !F.HasActiveFilters(f, searchQuery)
    ensures FilterEvents(s, f, searchQuery) == s
  {
    if s != [] {
      InactiveFiltersKeepAll(s[1..], f, searchQuery);
      assert [s[0]] + s[1..] == s;
    }
  }

  /** The watchlist selection has no effect on the result. */
  lemma {:induction false} WatchlistIgnored(s: seq<EnrichedEvent>, f: F.Filters, searchQuery: string, watchlist: seq<string>)
    ensures FilterEvents(s, f.(watchlist := watchlist), searchQuery) == FilterEvents(s, f, searchQuery)
  {
    if s != [] {
      WatchlistIgnored(s[1..], f, searchQuery, watchlist);
    }
  }

  /** Every loaded event is unread, so unread-only changes nothing on the
      list the timeline loads. */
  lemma {:induction false} UnreadOnlyIdleOnUnread(s: seq<EnrichedEvent>, f: F.Filters, searchQuery: string)
    requires forall e :: e in s ==> !e.isRead
    ensures FilterEvents(s, f.(unreadOnly := true), searchQuery) == FilterEvents(s, f.(unreadOnly := false), searchQuery)
  {
    if s != [] {
      UnreadOnlyIdleOnUnread(s[1..], f, searchQuery);
    }
  }

  // ---------------------------------------------------------------------
  // Pagination

  /** `Math.ceil(n / pageSize)` */
  function TotalPages(n: nat, pageSize: nat): (r: nat)
    requires pageSize > 0
    ensures r * pageSize >= n
    ensures r > 0 ==> (r - 1) * pageSize < n
  {
    var r := (n + pageSize - 1) / pageSize;
    assert r * pageSize + (n + pageSize - 1) % pageSize == n + pageSize - 1;
    assert (r - 1) * pageSize == r * pageSize - pageSize;
    r
  }

  /** The position `Array.prototype.slice` reads an argument as. */
  function SliceBound(i: int, n: nat): (r: nat)
    ensures r <= n
  {
    if i < 0 then (if n + i < 0 then 0 else n + i) else if i > n then n else i
  }

  /** `s.slice(start, end)` */
  function Slice<T>(s: seq<T>, start: int, end: int): (r: seq<T>)
    ensures |r| <= |s|
  {
    var b, e := SliceBound(start, |s|), SliceBound(end, |s|);
    if b < e then s[b..e] else []
  }

  /** `paginatedEvents` for page `page` (counted from 1). */
  function Page<T>(s: seq<T>, page: int, pageSize: nat): (r: seq<T>)
    ensures |r| <= |s|
    ensures page >= 1 ==> |r| <= pageSize
    ensures page >= 1 && (page - 1) * pageSize >= |s| ==> r == []
  {
    var start := (page - 1) * pageSize;
    assert page >= 1 ==> start >= 0;
    Slice(s, start, start + pageSize)
  }

  /** `r` is the stretch of positions [(page-1)*pageSize, page*pageSize) of
      `s`, cut off at the end of `s`. */
  ghost predicate PageStretch<T>(s: seq<T>, page: int, pageSize: nat, r: seq<T>)
  {
    var start := (page - 1) * pageSize;
    start >= 0 && r == s[Min(start, |s|)..Min(start + pageSize, |s|)]
  }

  /** On a page from 1 up, the page is the stretch of positions
      [(page-1)*pageSize, page*pageSize), cut off at the end of the list,
      and never holds more than pageSize items. */
  lemma PageIsStretch<T>(s: seq<T>, page: int, pageSize: nat)
    requires page >= 1
    ensures PageStretch(s, page, pageSize, Page(s, page, pageSize))
    ensures |Page(s, page, pageSize)| <= pageSize
  {
    var start := (page - 1) * pageSize;
    assert start >= 0;
  }

  /** A page from 1 up is non-empty exactly when its number is at most the
      page count. */
  lemma PageNonEmpty<T>(s: seq<T>, page: int, pageSize: nat)
    requires page >= 1 && pageSize > 0
    ensures Page(s, page, pageSize) != [] <==> page <= TotalPages(|s|, pageSize)
  {
    PageIsStretch(s, page, pageSize);
    var t := TotalPages(|s|, pageSize);
    var start := (page - 1) * pageSize;
    assert Page(s, page, pageSize) != [] <==> start < |s|;
    if page <= t {
      MulMonotone(page - 1, t - 1, pageSize);
    } else {
      MulMonotone(t, page - 1, pageSize);
    }
  }

  lemma MulMonotone(x: int, y: int, k: nat)
    requires x <= y
    ensures x * k <= y * k
  {
  }

  /** Pages 1 to k, concatenated. */
  function Pages<T>(s: seq<T>, pageSize: nat, k: nat): seq<T>
  {
    if k == 0 then [] else Pages(s, pageSize, k - 1) + Page(s, k, pageSize)
  }

  lemma {:induction false} PagesArePrefix<T>(s: seq<T>, pageSize: nat, k: nat)
    ensures Pages(s, pageSize, k) == s[..Min(k * pageSize, |s|)]
  {
    if k > 0 {
      PagesArePrefix(s, pageSize, k - 1);
      PageIsStretch(s, k, pageSize);
      assert (k - 1) * pageSize + pageSize == k * pageSize;
      assert (k - 1) * pageSize <= k * pageSize;
      var a, b := Min((k - 1) * pageSize, |s|), Min(k * pageSize, |s|);
      assert s[..a] + s[a..b] == s[..b];
    }
  }

  /** Pages 1 to the page count, concatenated, give back the whole list. */
  lemma PagesCoverList<T>(s: seq<T>, pageSize: nat)
    requires pageSize > 0
    ensures Pages(s, pageSize, TotalPages(|s|, pageSize)) == s
  {
    PagesArePrefix(s, pageSize, TotalPages(|s|, pageSize));
  }

  // ---------------------------------------------------------------------
  // Clamped index moves

  /** ArrowDown: `Math.min(selectedIndex + 1, filteredEvents.length - 1)` */
  function ArrowDownIndex(selectedIndex: int, count: nat): (r: int)
    ensures r <= selectedIndex + 1 && r <= count - 1
    ensures r == selectedIndex + 1 || r == count - 1
  {
    if selectedIndex + 1 < count - 1 then selectedIndex + 1 else count - 1
  }

  /** ArrowUp: `Math.max(selectedIndex - 1, 0)` */
  function ArrowUpIndex(selectedIndex: int): (r: int)
    ensures r >= 0 && r >= selectedIndex - 1
    ensures r == selectedIndex - 1 || r == 0
  {
    if selectedIndex - 1 > 0 then selectedIndex - 1 else 0
  }

  /** The event an index selects, if `filteredEvents[index]` exists. */
  function SelectedEvent(events: seq<EnrichedEvent>, index: int): (r: Option<string>)
    ensures r.Some? <==> 0 <= index < |events|
  {
    if 0 <= index < |events| then Some(events[index].event.id) else None
  }

  /** Arrow moves keep an in-range index in range; on an empty list
      ArrowDown yields -1 and selects nothing. */
  lemma ArrowMovesInRange(events: seq<EnrichedEvent>, selectedIndex: int)
    ensures 0 <= selectedIndex < |events| ==>
      && 0 <= ArrowDownIndex(selectedIndex, |events|) < |events|
      && 0 <= ArrowUpIndex(selectedIndex) < |events|
    ensures events == [] && selectedIndex >= -1 ==>
      ArrowDownIndex(selectedIndex, 0) == -1 && SelectedEvent(events, ArrowDownIndex(selectedIndex, 0)).None?
  {
  }

  /** The ← button: `Math.max(1, p - 1)` */
  function PreviousPage(page: int): (r: int)
    ensures r >= 1 && r >= page - 1
    ensures page > 1 ==> r == page - 1
  {
    if 1 > page - 1 then 1 else page - 1
  }

  /** The → button: `Math.min(totalPages, p + 1)` */
  function NextPage(page: int, totalPages: nat): (r: int)
    ensures r <= totalPages && r <= page + 1
    ensures page < totalPages ==> r == page + 1
  {
    if totalPages < page + 1 then totalPages else page + 1
  }

  /** Both page buttons keep the page within [1, totalPages]. */
  lemma PageButtonsInRange(page: int, totalPages: nat)
    requires 1 <= page <= totalPages
    ensures 1 <= PreviousPage(page) <= totalPages && PreviousPage(page) >= page - 1
    ensures 1 <= NextPage(page, totalPages) <= totalPages && NextPage(page, totalPages) <= page + 1
  {
  }

  // ---------------------------------------------------------------------
  // Clicking an event

  /** As written, a click reports the clicked event's position within the
      current page as the selected index. */
  function ClickIndexAsWritten(page: int, pageSize: nat, idx: nat): int
  {
    idx
  }

  /** The index that the arrow keys expect: the clicked event's position in
      the whole filtered list. */
  function ClickIndex(page: int, pageSize: nat, idx: nat): int
  {
    (page - 1) * pageSize + idx
  }

  /** The corrected index designates the clicked event in the filtered list,
      so ArrowDown after a click moves to the event right after it. */
  lemma ClickIndexSelectsClicked(s: seq<EnrichedEvent>, page: int, pageSize: nat, idx: nat)
    requires page >= 1 && idx < |Page(s, page, pageSize)|
    ensures 0 <= ClickIndex(page, pageSize, idx) < |s|
    ensures s[ClickIndex(page, pageSize, idx)] == Page(s, page, pageSize)[idx]
    ensures ClickIndex(page, pageSize, idx) + 1 < |s| ==>
      ArrowDownIndex(ClickIndex(page, pageSize, idx), |s|) == ClickIndex(page, pageSize, idx) + 1
  {
    PageIsStretch(s, page, pageSize);
  }

  /** As written, on page 2 of one-item pages, clicking the only event there
      leaves the index pointing at the first page's event. */
  lemma ClickIndexAsWrittenMisses(a: EnrichedEvent, b: EnrichedEvent)
    requires a != b
    ensures Page([a, b], 2, 1) == [b]
    ensures [a, b][ClickIndexAsWritten(2, 1, 0)] != Page([a, b], 2, 1)[0]
  {
    PageIsStretch([a, b], 2, 1);
  }

  // ---------------------------------------------------------------------
  // Page state

  /** `currentPage` and `pageSize`, as the timeline's handlers update them. */
  class Pager {
    var currentPage: int
    var pageSize: nat

    ghost predicate Valid()
      reads this
    {
      currentPage >= 1 && pageSize > 0
    }

    constructor ()
      ensures Valid() && currentPage == 1 && pageSize == 20
    {
      currentPage := 1;
      pageSize := 20;
    }

    /** The items shown for the current page. */
    function Items(filtered: seq<EnrichedEvent>): (r: seq<EnrichedEvent>)
      reads this
      ensures Valid() ==> |r| <= pageSize
      ensures Valid() ==> PageStretch(filtered, currentPage, pageSize, r)
    {
      var page, size := currentPage, pageSize;
      if page >= 1 then PageIsStretch(filtered, page, size); Page(filtered, page, size)
      else Page(filtered, page, size)
    }

    /** A change of filters or search returns to page 1. */
    method ResetPage()
      requires Valid()
      modifies this
      ensures Valid() && currentPage == 1 && pageSize == old(pageSize)
    {
      currentPage := 1;
    }

    /** `handlePageSizeChange`, called with 20, 30 or 50. */
    method ChangePageSize(newSize: nat)
      requires newSize > 0
      modifies this
      ensures Valid() && pageSize == newSize && currentPage == 1
    {
      pageSize := newSize;
      currentPage := 1;
    }

    method PreviousPageClicked()
      requires Valid()
      modifies this
      ensures Valid() && pageSize == old(pageSize)
      ensures currentPage == PreviousPage(old(currentPage))
    {
      currentPage := PreviousPage(currentPage);
    }

    /** The buttons are shown only for a non-empty filtered list, so there
        is at least one page. */
    method NextPageClicked(totalPages: nat)
      requires Valid() && totalPages >= 1
      modifies this
      ensures Valid() && pageSize == old(pageSize)
      ensures currentPage == NextPage(old(currentPage), totalPages)
      ensures old(currentPage) <= totalPages ==> currentPage <= totalPages
    {
      currentPage := NextPage(currentPage, totalPages);
    }
  }
}
