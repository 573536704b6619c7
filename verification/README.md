# j16z event scoring and inbox logic, in Dafny

This project models the rule-based core of the j16z merger-arbitrage front end:

- **Event scoring.** Two near-identical scorers, materiality and severity, work in four steps:
  - look up a base score by `type:subtype`, with a per-type default, or use a step function of the spread move;
  - add four fixed adjustments;
  - clamp the sum to [0, 100];
  - map the score to a tier or level, and that to a coloured-circle badge.
- **Alert routing.** A score is routed to channels and given a delivery deadline under an alert configuration. The alert subject line is modelled too.
- **Inbox pipeline.** Events are enriched with a score and sorted in place by score, then by time. They are filtered by the filter record and the search box, then cut into pages. The arrow keys and the page buttons move clamped positions.
- **Filter bar.** Toggles update the filter record.
- **Command palette.** It keeps a list of the five most recently used commands and filters commands by name. Its selection index wraps around.
- **Read-status store.** A set of read event ids, with add, add-all, membership and an unread count.
- **"Add Deal" form.** Tickers are validated, errors are recorded per field, and a deal record is built with fixed defaults.

Modules:

| module | file |
|---|---|
| `Wrappers` (Option, Result) | `wrappers.dfy` |
| `Text` (ASCII case mapping, JavaScript whitespace trimming, `includes`) | `text.dfy` |
| `Seqs` (`filter(y => y !== x)` and order-preserving subsequences) | `seqs.dfy` |
| `EventTypes` | `event_types.dfy` |
| `Glyphs` | `glyphs.dfy` |
| `Materiality` | `materiality.dfy` |
| `Severity` | `severity.dfy` |
| `ScoringAgreement` | `scoring_agreement.dfy` |
| `AlertTriggers` | `alert_triggers.dfy` |
| `InboxFilters` | `inbox_filters.dfy` |
| `InboxTimeline` | `inbox_timeline.dfy` |
| `CommandPalette` | `command_palette.dfy` |
| `ReadStatus` | `read_status.dfy` |
| `AddDeal` | `add_deal.dfy` |

How the source's constructs are represented:

- **Scorers, routing, filters and list logic.** These are pure, so they are functions with lemmas.
- **Timeline sort.** The timeline sorts an array in place, so `SortForInbox` is an in-place insertion sort on an `array`. It is proved sorted by the comparator and a permutation of its input.
- **State that handlers update.** The timeline's page state, the palette's query, selection and recent list, and the read-status store are classes whose methods update fields.
- **Numbers.** JavaScript numbers are `real` where they are compared with constants (day counts, percentages, basis points). Scores are `int`, since every score is a sum of integer constants.
- **Timestamps.** An event's timestamp is the integer its date denotes.
- **Browser storage.** Storage behind the read-status store and the recent-command list is a field or a constructor argument.
- **Clock readings.** The add-deal form takes them as a `Clock` parameter.
- **Alert configuration.** It is passed in as a parameter.

## Model

| member | source | states |
|---|---|---|
| EventTypes.ParseEventType | apps/j16z-frontend/src/components/inbox/inbox-timeline.tsx:52 | the raw type string becomes an enumerated type, or `Other` for any other string; its name is the string it came from |
| EventTypes.ParseTypeName | apps/j16z-frontend/src/lib/materiality-scoring.ts:12-18 | parsing the name of an enumerated type gives back that type |
| EventTypes.Abs | apps/j16z-frontend/src/lib/materiality-scoring.ts:80 | `Math.abs`: non-negative and equal to the value or its negation |
| Glyphs.Glyph | apps/j16z-frontend/src/lib/alert-triggers.ts:122 | each badge is a single character outside the Basic Multilingual Plane (U+1F534, U+1F7E0, U+1F7E1, U+1F7E2) |
| Glyphs.GlyphInjective | apps/j16z-frontend/src/lib/alert-triggers.ts:122 | distinct badges have distinct glyphs |
| Glyphs.Utf8Bytes | apps/j16z-frontend/src/lib/materiality-scoring.ts:163-172 | a supplementary code point encodes as four bytes, each below 256 |
| Glyphs.Misdecoded | apps/j16z-frontend/src/lib/materiality-scoring.ts:163-172 | a glyph's UTF-8 bytes read as Windows-1252 give four characters |
| Glyphs.MisdecodedGlyph | apps/j16z-frontend/src/lib/materiality-scoring.ts:163-172 | each badge glyph, mis-decoded, is the four-character string stored for it (red: U+00F0 U+0178 U+201D U+00B4) |
| Materiality.TableScore | apps/j16z-frontend/src/lib/materiality-scoring.ts:37-70 | every table entry lies in [10, 95]; no key exists for a type outside the enumeration |
| Materiality.DefaultScore | apps/j16z-frontend/src/lib/materiality-scoring.ts:96 | the `type:DEFAULT` entry for an enumerated type; 50 for any other type; always in [10, 95] |
| Materiality.BaseScore | apps/j16z-frontend/src/lib/materiality-scoring.ts:75-97 | the base score always lies in [10, 95] |
| Materiality.Clamp | apps/j16z-frontend/src/lib/materiality-scoring.ts:148 | the result lies in [0, 100]; values in range pass through; above 100 gives 100; below 0 gives 0 |
| Materiality.UrgencyAdjustment | apps/j16z-frontend/src/lib/materiality-scoring.ts:103-106 | +20 exactly when the outside date is known and under 30 days away, else 0 |
| Materiality.RiskAdjustment | apps/j16z-frontend/src/lib/materiality-scoring.ts:112-115 | +15 exactly when the closing probability is known and under 40, else 0 |
| Materiality.LitigationAdjustment | apps/j16z-frontend/src/lib/materiality-scoring.ts:121-124 | +10 exactly when the litigation count is known and above 3, else 0 |
| Materiality.FeedbackAdjustment | apps/j16z-frontend/src/lib/materiality-scoring.ts:130-133 | -25 exactly when the analyst feedback is "not_material", else 0 |
| Materiality.RawScore | apps/j16z-frontend/src/lib/materiality-scoring.ts:139-145 | the unclamped sum lies between the base score minus 25 and the base score plus 45, and is at least the base score without analyst feedback |
| Materiality.Score | apps/j16z-frontend/src/lib/materiality-scoring.ts:138-149 | the score always lies in [0, 100] and equals the unclamped sum whenever that sum is in range |
| Materiality.TierOf | apps/j16z-frontend/src/lib/materiality-scoring.ts:154-158 | HIGH iff score > 70, MEDIUM iff 50 <= score <= 70, LOW iff score < 50 |
| Materiality.ScoreWithTier | apps/j16z-frontend/src/lib/materiality-scoring.ts:177-187 | the tier is the tier of the returned score, and the badge is the one for that tier |
| Materiality.RawScoreRange | apps/j16z-frontend/src/lib/materiality-scoring.ts:145 | the sum before the clamp lies in [-15, 140], so both ends of the clamp are reachable |
| Materiality.AdjustmentsAreIndependent | apps/j16z-frontend/src/lib/materiality-scoring.ts:103-145 | the sum is the base plus 20 iff days < 30, plus 15 iff pClose < 40, plus 10 iff litigation > 3, minus 25 iff feedback is "not_material"; undefined fields add nothing |
| Materiality.UrgencyBoundary | apps/j16z-frontend/src/lib/materiality-scoring.ts:103-106 | 29 days scores 20 more than 30 days, and 30 days scores the same as no date |
| Materiality.FeedbackOverride | apps/j16z-frontend/src/lib/materiality-scoring.ts:130-133 | "not_material" subtracts exactly 25, and "material" is the same as no feedback |
| Materiality.SpreadMoveBuckets | apps/j16z-frontend/src/lib/materiality-scoring.ts:79-85 | with a defined movement the base score ignores subtype and sign: 70 iff the magnitude is > 5, 40 iff it is in (2, 5], 20 iff it is in (0.5, 2], 10 otherwise |
| Materiality.SubtypeLookup | apps/j16z-frontend/src/lib/materiality-scoring.ts:87-96 | a known `type:subtype` key gives its table value; an absent or unknown subtype gives the type's default |
| Materiality.SpreadKeyQuirk | apps/j16z-frontend/src/lib/materiality-scoring.ts:61-91 | a spread move with no movement and subtype ">5%" scores 70, while with no subtype it scores 10 |
| Materiality.BadgeColor | apps/j16z-frontend/src/lib/materiality-scoring.ts:163-172 | the intended badges: red exactly for HIGH, never green |
| Materiality.BadgeTextAsWritten | apps/j16z-frontend/src/lib/materiality-scoring.ts:163-172 | the badge text as stored is four characters long and is not the intended emoji |
| Materiality.TierMonotone | apps/j16z-frontend/src/lib/materiality-scoring.ts:154-158 | a higher score never gets a lower tier |
| Materiality.DeterminedByScore | apps/j16z-frontend/src/lib/materiality-scoring.ts:177-187 | two contexts with the same score get the same score, tier and badge |
| Materiality.BadgeDistinguishesTiers | apps/j16z-frontend/src/lib/materiality-scoring.ts:163-172 | distinct tiers get distinct badges |
| Materiality.WorkedExamples | apps/j16z-frontend/src/lib/materiality-scoring.ts:39-158 | FTC complaint scores 95 (HIGH); marked not material, 70 (MEDIUM); under 30 days with pClose 30 it clamps to 100; a routine filing under 30 days scores 60; a docket entry with pClose 35 and 5 cases is HIGH; news with no subtype scores 20 (LOW) |
| Materiality.BadgeTextMisencoded | apps/j16z-frontend/src/lib/materiality-scoring.ts:163-172 | each stored badge string is its emoji's UTF-8 bytes read as Windows-1252, and differs from the emoji |
| Severity.TableScore | apps/j16z-frontend/src/lib/severity-scoring.ts:37-70 | every table entry lies in [10, 95]; no key exists for a type outside the enumeration |
| Severity.DefaultScore | apps/j16z-frontend/src/lib/severity-scoring.ts:96 | the `type:DEFAULT` entry, or 50 for a type outside the enumeration |
| Severity.BaseScore | apps/j16z-frontend/src/lib/severity-scoring.ts:75-97 | the base score always lies in [10, 95] |
| Severity.Clamp | apps/j16z-frontend/src/lib/severity-scoring.ts:148 | the result lies in [0, 100]; values in range pass through; values outside it go to the nearer end |
| Severity.UrgencyAdjustment | apps/j16z-frontend/src/lib/severity-scoring.ts:103-106 | +20 exactly when the outside date is known and under 30 days away, else 0 |
| Severity.RiskAdjustment | apps/j16z-frontend/src/lib/severity-scoring.ts:112-115 | +15 exactly when the closing probability is known and under 40, else 0 |
| Severity.LitigationAdjustment | apps/j16z-frontend/src/lib/severity-scoring.ts:121-124 | +10 exactly when the litigation count is known and above 3, else 0 |
| Severity.FeedbackAdjustment | apps/j16z-frontend/src/lib/severity-scoring.ts:130-133 | -25 exactly when the analyst feedback is "not_critical", else 0 |
| Severity.RawScore | apps/j16z-frontend/src/lib/severity-scoring.ts:139-145 | the unclamped sum lies between the base score minus 25 and the base score plus 45, and is at least the base score without analyst feedback |
| Severity.Score | apps/j16z-frontend/src/lib/severity-scoring.ts:138-149 | the score always lies in [0, 100] and equals the unclamped sum whenever that sum is in range |
| Severity.LevelOf | apps/j16z-frontend/src/lib/severity-scoring.ts:154-158 | CRITICAL iff score > 70, WARNING iff 50 <= score <= 70, INFO iff score < 50 |
| Severity.ScoreWithLevel | apps/j16z-frontend/src/lib/severity-scoring.ts:177-187 | the level is the level of the returned score, and the badge is the one for that level |
| Severity.BadgeColor | apps/j16z-frontend/src/lib/severity-scoring.ts:163-172 | the intended badges: red exactly for CRITICAL, never orange |
| Severity.BadgeTextAsWritten | apps/j16z-frontend/src/lib/severity-scoring.ts:163-172 | the badge text as stored is four characters long and is not the intended emoji |
| Severity.AdjustmentsAreIndependent | apps/j16z-frontend/src/lib/severity-scoring.ts:103-145 | the sum is the base plus the three fixed adjustments; only "not_critical" subtracts 25, and "critical" adds nothing |
| Severity.SpreadMoveBuckets | apps/j16z-frontend/src/lib/severity-scoring.ts:79-85 | with defined basis points the base ignores subtype: 70 iff the magnitude is > 500, 40 iff it is in (200, 500], 20 iff it is in (50, 200], 10 otherwise |
| Severity.DeterminedByScore | apps/j16z-frontend/src/lib/severity-scoring.ts:177-187 | the level and badge are functions of the score alone |
| Severity.BadgeTextMisencoded | apps/j16z-frontend/src/lib/severity-scoring.ts:163-172 | each stored badge string is its emoji's UTF-8 bytes read as Windows-1252 |
| ScoringAgreement.LevelsMatchTiers | apps/j16z-frontend/src/lib/severity-scoring.ts:154-158 | CRITICAL, WARNING and INFO correspond to HIGH, MEDIUM and LOW for every score |
| ScoringAgreement.BaseScoresAgree | apps/j16z-frontend/src/lib/severity-scoring.ts:37-97 | with bps = 100 × percent, the two base scores are equal, except on the spread-key inputs below |
| ScoringAgreement.ScoresAgree | apps/j16z-frontend/src/lib/severity-scoring.ts:138-187 | with bps = 100 × percent and "not_critical" for "not_material", the scores are equal and the level corresponds to the tier |
| ScoringAgreement.SpreadKeysDiverge | apps/j16z-frontend/src/lib/severity-scoring.ts:61-64 | the excluded inputs really differ: subtype ">5%" with no movement scores 70 as materiality and 10 as severity |
| ScoringAgreement.BadgesDiffer | apps/j16z-frontend/src/lib/severity-scoring.ts:163-172 | the badges do not follow the correspondence: MEDIUM is orange but WARNING is yellow; LOW is yellow but INFO is green |
| AlertTriggers.DefaultAlertConfig | apps/j16z-frontend/src/lib/alert-triggers.ts:41-49 | the thresholds are 70 and 50; email and Slack are on; the webhook is off |
| AlertTriggers.DetermineAlertChannels | apps/j16z-frontend/src/lib/alert-triggers.ts:82-110 | above high, each channel follows its switch; from medium to high, email is off and the rest follow their switches; below medium, nothing is on; email is only ever on above high |
| AlertTriggers.AlertSLA | apps/j16z-frontend/src/lib/alert-triggers.ts:180-195 | the deadline is 60 above high and 300 from medium to high; it is non-zero iff the score is above high or at least medium |
| AlertTriggers.NoSLANoChannels | apps/j16z-frontend/src/lib/alert-triggers.ts:82-110 | a score without a deadline triggers no channel |
| AlertTriggers.DefaultRoutingFollowsTier | apps/j16z-frontend/src/lib/alert-triggers.ts:41-110 | under the default configuration: email iff HIGH; Slack iff not LOW; never the webhook; the deadline is 60, 300 or 0 by tier |
| AlertTriggers.Subject | apps/j16z-frontend/src/lib/alert-triggers.ts:122-124 | the subject is the tier's glyph (the same one the scorer intends), a space, the tier name, " Alert: " and the event title, so it starts with the glyph and ends with the title |
| AlertTriggers.SubjectShowsTier | apps/j16z-frontend/src/lib/alert-triggers.ts:122-124 | alerts of different tiers get different subjects |
| InboxFilters.Toggle | apps/j16z-frontend/src/components/inbox/inbox-filters.tsx:53-58 | an absent value is appended at the end; a present one is removed everywhere and nothing else is (the multiset loses exactly that value's occurrences), leaving an order-preserving, shorter list; membership of other values is unchanged |
| Seqs.RemoveAll | apps/j16z-frontend/src/components/inbox/inbox-filters.tsx:55 | `filter(y => y !== x)`: every occurrence of x goes and every other element keeps its multiplicity |
| InboxFilters.RemoveAllShorter | apps/j16z-frontend/src/components/inbox/inbox-filters.tsx:55 | removing a value that occurs shortens the list |
| InboxFilters.ToggleTwice | apps/j16z-frontend/src/components/inbox/inbox-filters.tsx:53-79 | toggling twice restores membership, and restores the list itself when the value was absent |
| InboxFilters.ToggleMateriality | apps/j16z-frontend/src/components/inbox/inbox-filters.tsx:53-58 | only the materiality list changes, and it is toggled |
| InboxFilters.ToggleEventType | apps/j16z-frontend/src/components/inbox/inbox-filters.tsx:60-65 | only the event-type list changes, and it is toggled |
| InboxFilters.ToggleDeal | apps/j16z-frontend/src/components/inbox/inbox-filters.tsx:67-72 | only the deal list changes, and it is toggled |
| InboxFilters.ToggleWatchlist | apps/j16z-frontend/src/components/inbox/inbox-filters.tsx:74-79 | only the watchlist list changes, and it is toggled |
| InboxFilters.ToggleUnreadOnly | apps/j16z-frontend/src/components/inbox/inbox-filters.tsx:81-83 | unreadOnly is negated and nothing else changes |
| InboxFilters.HasActiveFilters | apps/j16z-frontend/src/components/inbox/inbox-filters.tsx:104-110 | some filter is active iff the record differs from the empty one or a search is typed |
| InboxFilters.ClearAllFilters | apps/j16z-frontend/src/components/inbox/inbox-filters.tsx:85-94 | after clearing, no filter is active |
| InboxFilters.InactiveMeansCleared | apps/j16z-frontend/src/components/inbox/inbox-filters.tsx:104-110 | no filter is active iff the record and the search equal the cleared ones |
| InboxFilters.ToggleActivates | apps/j16z-frontend/src/components/inbox/inbox-filters.tsx:53-110 | any toggle on an inactive filter makes it active |
| InboxTimeline.Enrich | apps/j16z-frontend/src/components/inbox/inbox-timeline.tsx:50-66 | with days 45, pClose 65 and no litigation, the score is the base score; the tier and badge follow it; the event starts unread |
| InboxTimeline.EnrichAll | apps/j16z-frontend/src/components/inbox/inbox-timeline.tsx:50 | events are enriched one for one, in order |
| InboxTimeline.SwapAdjacent | apps/j16z-frontend/src/components/inbox/inbox-timeline.tsx:69 | exchanges two neighbours and keeps the multiset of events |
| InboxTimeline.PrecedesTotal | apps/j16z-frontend/src/components/inbox/inbox-timeline.tsx:69-74 | the comparator orders every pair one way or the other |
| InboxTimeline.SortForInbox | apps/j16z-frontend/src/components/inbox/inbox-timeline.tsx:69-74 | afterwards the array has scores descending and, among equal scores, timestamps descending; it is a permutation of the old contents |
| InboxTimeline.LoadEvents | apps/j16z-frontend/src/components/inbox/inbox-timeline.tsx:44-76 | the loaded list is sorted for the inbox and is a permutation of the enriched events; every event is unread and scores its base score |
| InboxTimeline.FilterEvents | apps/j16z-frontend/src/components/inbox/inbox-timeline.tsx:93-117 | every kept event is from the list and passes the predicate, and each passing event is kept as many times as it occurs (multiset equation) |
| InboxTimeline.MatchesSearch | apps/j16z-frontend/src/components/inbox/inbox-timeline.tsx:107-115 | the empty query matches every event, and so does any prefix of the lower-cased title |
| InboxTimeline.Keep | apps/j16z-frontend/src/components/inbox/inbox-timeline.tsx:93-117 | with no filter active every event is kept; with unread-only on a kept event is unread |
| InboxTimeline.FilterMembership | apps/j16z-frontend/src/components/inbox/inbox-timeline.tsx:93-117 | an event is kept iff it is in the list and passes the predicate |
| InboxTimeline.FilterIsSubsequence | apps/j16z-frontend/src/components/inbox/inbox-timeline.tsx:93 | the filtered list is an order-preserving subsequence of the sorted list |
| InboxTimeline.FilterKeepsSorted | apps/j16z-frontend/src/components/inbox/inbox-timeline.tsx:69-93 | filtering a sorted list leaves it sorted |
| InboxTimeline.InactiveFiltersKeepAll | apps/j16z-frontend/src/components/inbox/inbox-timeline.tsx:94-115 | with empty lists, unread-only off and no search, nothing is removed |
| InboxTimeline.WatchlistIgnored | apps/j16z-frontend/src/components/inbox/inbox-timeline.tsx:103 | the watchlist selection has no effect on the result |
| InboxTimeline.UnreadOnlyIdleOnUnread | apps/j16z-frontend/src/components/inbox/inbox-timeline.tsx:64-106 | on unread events, unread-only changes nothing |
| InboxTimeline.TotalPages | apps/j16z-frontend/src/components/inbox/inbox-timeline.tsx:119 | the ceiling of n / pageSize: the pages cover n, and one page fewer would not |
| InboxTimeline.SliceBound | apps/j16z-frontend/src/components/inbox/inbox-timeline.tsx:122 | a slice argument resolves to a position within the list |
| InboxTimeline.Slice | apps/j16z-frontend/src/components/inbox/inbox-timeline.tsx:122 | a slice is no longer than the list |
| InboxTimeline.Page | apps/j16z-frontend/src/components/inbox/inbox-timeline.tsx:120-122 | a page never holds more than the list, and from page 1 up never more than the page size; a page starting past the end is empty |
| InboxTimeline.PageIsStretch | apps/j16z-frontend/src/components/inbox/inbox-timeline.tsx:120-122 | page p is positions [(p-1)·size, p·size) cut at the end of the list, and holds at most size items |
| InboxTimeline.PageNonEmpty | apps/j16z-frontend/src/components/inbox/inbox-timeline.tsx:119-122 | page p >= 1 is non-empty iff p <= totalPages |
| InboxTimeline.PagesArePrefix | apps/j16z-frontend/src/components/inbox/inbox-timeline.tsx:119-122 | pages 1 to k concatenate to the first k·size items |
| InboxTimeline.PagesCoverList | apps/j16z-frontend/src/components/inbox/inbox-timeline.tsx:119-122 | pages 1 to totalPages concatenate back to the filtered list |
| InboxTimeline.ArrowDownIndex | apps/j16z-frontend/src/components/inbox/inbox-timeline.tsx:128 | min(i + 1, n - 1) |
| InboxTimeline.ArrowUpIndex | apps/j16z-frontend/src/components/inbox/inbox-timeline.tsx:139 | max(i - 1, 0) |
| InboxTimeline.SelectedEvent | apps/j16z-frontend/src/components/inbox/inbox-timeline.tsx:130-141 | an event is selected iff the index is within the list |
| InboxTimeline.ArrowMovesInRange | apps/j16z-frontend/src/components/inbox/inbox-timeline.tsx:126-148 | both moves keep an in-range index in range; on an empty list ArrowDown gives -1 and selects nothing |
| InboxTimeline.PreviousPage | apps/j16z-frontend/src/components/inbox/inbox-timeline.tsx:263 | the ← button never goes below page 1 and otherwise moves back exactly one page |
| InboxTimeline.NextPage | apps/j16z-frontend/src/components/inbox/inbox-timeline.tsx:273 | the → button never goes past totalPages and otherwise moves forward exactly one page |
| InboxTimeline.PageButtonsInRange | apps/j16z-frontend/src/components/inbox/inbox-timeline.tsx:263-273 | both page buttons keep the page within [1, totalPages] and move it by at most one |
| InboxTimeline.ClickIndexSelectsClicked | apps/j16z-frontend/src/components/inbox/inbox-timeline.tsx:184-190 | the corrected click index points at the clicked event in the filtered list, and ArrowDown then moves to the next event |
| InboxTimeline.ClickIndexAsWrittenMisses | apps/j16z-frontend/src/components/inbox/inbox-timeline.tsx:184-190 | as written, clicking the only event on page 2 of one-item pages leaves the index on page 1's event |
| InboxTimeline.Pager.constructor | apps/j16z-frontend/src/components/inbox/inbox-timeline.tsx:41-42 | the pager starts on page 1 with 20 items per page |
| InboxTimeline.Pager.Items | apps/j16z-frontend/src/components/inbox/inbox-timeline.tsx:120-122 | on a valid pager, the shown items are the current page's stretch of the filtered list, at most pageSize of them |
| InboxTimeline.Pager.ResetPage | apps/j16z-frontend/src/components/inbox/inbox-timeline.tsx:87-90 | a change of filters or search returns to page 1 and keeps the page size |
| InboxTimeline.Pager.ChangePageSize | apps/j16z-frontend/src/components/inbox/inbox-timeline.tsx:170-173 | sets the page size and returns to page 1 |
| InboxTimeline.Pager.PreviousPageClicked | apps/j16z-frontend/src/components/inbox/inbox-timeline.tsx:263 | the page becomes max(1, p - 1) |
| InboxTimeline.Pager.NextPageClicked | apps/j16z-frontend/src/components/inbox/inbox-timeline.tsx:273 | the page becomes min(totalPages, p + 1) and stays within the page count |
| CommandPalette.SaveRecent | apps/j16z-frontend/src/components/command-palette.tsx:56-57 | the id comes first; the list has at most 5 entries; the id does not occur again; the rest is the old list without the id, in order, cut to fit |
| CommandPalette.SaveRecentOnce | apps/j16z-frontend/src/components/command-palette.tsx:57 | the id occurs exactly once |
| CommandPalette.SaveRecentKeepsOthers | apps/j16z-frontend/src/components/command-palette.tsx:57 | every other id in the result was in the old list |
| CommandPalette.SaveRecentIdempotent | apps/j16z-frontend/src/components/command-palette.tsx:57 | saving the same id twice gives the same list as saving it once |
| CommandPalette.Filtered | apps/j16z-frontend/src/components/command-palette.tsx:144-146 | every entry is a command whose lower-cased name contains the lower-cased query; each matching command is kept as many times as it occurs, in command-list order |
| CommandPalette.FilteredMembership | apps/j16z-frontend/src/components/command-palette.tsx:144-146 | a command is listed iff its name matches; the empty query keeps every command |
| CommandPalette.InRecent | apps/j16z-frontend/src/components/command-palette.tsx:149 | keeps exactly the commands whose id is recent, each as many times as it occurs, in command-list order |
| CommandPalette.InRecentNone | apps/j16z-frontend/src/components/command-palette.tsx:149 | with no recent id among the commands, nothing is kept |
| CommandPalette.RecentItems | apps/j16z-frontend/src/components/command-palette.tsx:148-150 | empty unless the query is empty; at most 3 items; only recent commands; the first three recent commands in command-list order |
| CommandPalette.RecentItemsInCommandOrder | apps/j16z-frontend/src/components/command-palette.tsx:148-150 | the shortlist is in command-list order, not recency order |
| CommandPalette.PrefixIsSubsequence | apps/j16z-frontend/src/components/command-palette.tsx:149 | cutting a subsequence short keeps it a subsequence |
| CommandPalette.DisplayItems | apps/j16z-frontend/src/components/command-palette.tsx:152 | the shortlist when the query is empty and the shortlist is non-empty; otherwise the filtered list |
| CommandPalette.DisplayAllWhenNothingRecent | apps/j16z-frontend/src/components/command-palette.tsx:148-152 | with no query and nothing recent, every command is displayed |
| CommandPalette.JsRem | apps/j16z-frontend/src/components/command-palette.tsx:172-175 | JavaScript `%`: NaN iff the divisor is 0, and the ordinary remainder for a non-negative dividend |
| CommandPalette.PaletteDown | apps/j16z-frontend/src/components/command-palette.tsx:172 | for n > 0 an in-range index stays in range, moving to i + 1, or from the last item to 0 |
| CommandPalette.PaletteUp | apps/j16z-frontend/src/components/command-palette.tsx:175 | for n > 0 an in-range index stays in range, moving to i - 1, or from 0 to the last item |
| CommandPalette.EmptyListLosesIndex | apps/j16z-frontend/src/components/command-palette.tsx:172-175 | with no items, either arrow makes the index NaN |
| CommandPalette.UpInvertsDown | apps/j16z-frontend/src/components/command-palette.tsx:172-175 | ArrowUp undoes ArrowDown and vice versa |
| CommandPalette.DownPressesCompose | apps/j16z-frontend/src/components/command-palette.tsx:172 | a + b presses are a presses followed by b |
| CommandPalette.DownPressesWalk | apps/j16z-frontend/src/components/command-palette.tsx:172 | below the last item, k presses move k items down |
| CommandPalette.FullCycleReturns | apps/j16z-frontend/src/components/command-palette.tsx:172 | n presses over n items return to the starting index |
| CommandPalette.Selected | apps/j16z-frontend/src/components/command-palette.tsx:178 | Enter selects a displayed item iff the index is within the list |
| CommandPalette.Palette.constructor | apps/j16z-frontend/src/components/command-palette.tsx:45-54 | the palette starts with an empty query, index 0 and the stored recent list |
| CommandPalette.Palette.Open | apps/j16z-frontend/src/components/command-palette.tsx:154-163 | opening clears the query and selects the first item |
| CommandPalette.Palette.Type | apps/j16z-frontend/src/components/command-palette.tsx:200-203 | typing sets the query and selects the first item |
| CommandPalette.Palette.ArrowDown | apps/j16z-frontend/src/components/command-palette.tsx:170-172 | the index becomes (i + 1) % n, staying in range for n > 0 |
| CommandPalette.Palette.ArrowUp | apps/j16z-frontend/src/components/command-palette.tsx:173-175 | the index becomes (i - 1 + n) % n, staying in range for n > 0 |
| CommandPalette.Palette.Run | apps/j16z-frontend/src/components/command-palette.tsx:56-59 | running a command saves its id as the most recent one |
| ReadStatus.CountUnread | apps/j16z-frontend/src/lib/read-status.ts:48-51 | at most the number of ids; equal to it iff none is read; 0 iff all are read |
| ReadStatus.CountUnreadAntitone | apps/j16z-frontend/src/lib/read-status.ts:48-51 | reading more events never raises the unread count |
| ReadStatus.CountUnreadAfterMark | apps/j16z-frontend/src/lib/read-status.ts:20-51 | marking an id read lowers the count by its unread occurrences |
| ReadStatus.ReadStatusStore.constructor | apps/j16z-frontend/src/lib/read-status.ts:8-18 | the store starts with what storage held |
| ReadStatus.ReadStatusStore.IsEventRead | apps/j16z-frontend/src/lib/read-status.ts:44-46 | membership in the read set; equivalently, counted alone the event is not unread |
| ReadStatus.ReadStatusStore.UnreadCount | apps/j16z-frontend/src/lib/read-status.ts:48-51 | at most the number of ids, and 0 iff every id is read |
| ReadStatus.ReadStatusStore.MarkEventAsRead | apps/j16z-frontend/src/lib/read-status.ts:20-46 | the set gains the id; the event is read and every other event keeps its status; it is idempotent |
| ReadStatus.ReadStatusStore.MarkAllEventsAsRead | apps/j16z-frontend/src/lib/read-status.ts:32-42 | the set becomes the old set together with the ids, after which none of them is unread |
| AddDeal.MatchesUpperRunMeaning | apps/j16z-frontend/src/components/add-deal-modal.tsx:21 | the matcher accepts exactly the strings of uppercase letters within the allowed length range |
| AddDeal.ValidateTicker | apps/j16z-frontend/src/components/add-deal-modal.tsx:20-22 | a ticker is valid iff it has 1 to 5 characters, all in A–Z |
| AddDeal.TickerError | apps/j16z-frontend/src/components/add-deal-modal.tsx:27-37 | blank after trimming gives "required"; otherwise there is an error iff the upper-cased, untrimmed text is invalid, and that error is the format message |
| AddDeal.NewDeal | apps/j16z-frontend/src/components/add-deal-modal.tsx:44-62 | the symbols are upper-cased; the acquirer name ends " Corp."; the company name is the trimmed deal name or the symbol plus " Inc."; the three dates are today, 180 days ahead and 365 days ahead on the given clock; the fixed defaults hold |
| AddDeal.HandleSubmit | apps/j16z-frontend/src/components/add-deal-modal.tsx:24-64 | fails iff some field has an error, reporting exactly the fields in error with their messages; otherwise returns the new deal |
| AddDeal.ProducedSymbolsValid | apps/j16z-frontend/src/components/add-deal-modal.tsx:29-47 | a produced deal's two symbols are valid tickers |
| AddDeal.LeadingSpaceRejected | apps/j16z-frontend/src/components/add-deal-modal.tsx:27-30 | " MSFT" is not blank but gets the format error, because it is upper-cased and not trimmed |

## Left out

- Storage I/O is left out: localStorage reads and writes, their SSR guards, and the errors they swallow. This covers `loadAlertConfig`, `saveAlertConfig`, `getReadEvents`, and the recent-command and read-event persistence. Stored state is a field, or the constructor's argument.
- `triggerAlerts` is left out: it is console logging in place of email, Slack and webhook calls.
- The alert `body` and `slackMessage` are left out: they format the timestamp with `toLocaleString`. Only the subject line is modelled.
- `getAllEvents` (a fetch) is left out. Raw events are a parameter of `LoadEvents`.
- The command list itself is a parameter. It is built from the page list and the deal fixtures, and its router callbacks are not modelled.
- The clock (`Date.now()` and `new Date()`) is a `Clock` parameter of the add-deal form.
- Calendar arithmetic is left out: the dates 180 and 365 days ahead are given, not computed.
- JavaScript numbers are not modelled in full: NaN, infinities and floating-point rounding are out. Thresholds are compared as exact reals.
- A timestamp string that does not parse to a date (NaN in the comparator) is left out.
- Case mapping is ASCII-only. `toLowerCase` and `toUpperCase` on other characters are taken as the identity.
- InboxTimeline.SortForInbox: the contract states sortedness and permutation but not stability, though both the source's `Array.prototype.sort` (stable since ES2019) and this insertion sort are stable.
- AddDeal.HandleSubmit: each field's two-branch check (blank, then format) is the function `TickerError`, called once per field, rather than inlined twice.
- React rendering, the Dialog component, mouse-hover selection and scroll-into-view are left out. The form fields' on-change upper-casing is out too, since `handleSubmit` upper-cases again.

## Findings

| source | as written | input that shows it | evidently intended | confidence | as-written member | corrected member |
|---|---|---|---|---|---|---|
| apps/j16z-frontend/src/lib/materiality-scoring.ts:163-172 | the badge strings are the UTF-8 bytes of 🔴, 🟠 and 🟡 read as Windows-1252 ("ð", "Ÿ", "”", "´" for HIGH) | tier HIGH: the stored string has four characters, not the one emoji `alert-triggers.ts` uses for the same tier | the single emoji U+1F534, U+1F7E0 or U+1F7E1 | high; not executed | Materiality.BadgeTextMisencoded | Materiality.ScoreWithTier |
| apps/j16z-frontend/src/lib/severity-scoring.ts:163-172 | the badge strings are the Windows-1252 reading of the UTF-8 bytes of 🔴, 🟡 and 🟢 | level INFO: the stored string has four characters | the single emoji U+1F534, U+1F7E1 or U+1F7E2 | high; not executed | Severity.BadgeTextMisencoded | Severity.ScoreWithLevel |
| apps/j16z-frontend/src/components/inbox/inbox-timeline.tsx:184-190 | a click reports the event's position within the current page as the selected index, but the arrow keys (lines 128 and 139) treat the index as a position in the whole filtered list | two events, page size 1, page 2: clicking the only event sets index 0, which is the event on page 1 | (currentPage - 1) · pageSize + idx | medium; not executed | InboxTimeline.ClickIndexAsWrittenMisses | InboxTimeline.ClickIndexSelectsClicked |
