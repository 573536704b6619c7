/** The command palette's list logic: the list of the five most recently
    used command ids, the query filter, the "Recent" shortlist, and the
    wrap-around selection index. */
module CommandPalette {
  import opened Wrappers
  import opened Text
  import opened Seqs

  datatype Category = Navigation | DealCommand | Action

  /** A command, without its icon and action callback. */
  datatype Command = Command(id: string, name: string, category: Category)

  const MaxRecent := 5
  const MaxRecentShown := 3

  // ---------------------------------------------------------------------
  // Most recently used ids

  /** `saveRecentCommand`: put the id in front, drop its older occurrences,
      keep the first five. */
  function SaveRecent(recent: seq<string>, id: string): (r: seq<string>)
    ensures 1 <= |r| <= MaxRecent && r[0] == id
    ensures id !in r[1..]
    ensures |r| == Min(MaxRecent, 1 + |RemoveAll(recent, id)|)
    ensures r[1..] == RemoveAll(recent, id)[..|r| - 1]
  {
    var full := [id] + RemoveAll(recent, id);
    var r := full[..Min(MaxRecent, |full|)];
    assert r[1..] == RemoveAll(recent, id)[..|r| - 1];
    r
  }

  /** The id occurs exactly once in the saved list. */
  lemma SaveRecentOnce(recent: seq<string>, id: string)
    ensures multiset(SaveRecent(recent, id))[id] == 1
  {
    var r := SaveRecent(recent, id);
    assert r == [r[0]] + r[1..];
    assert multiset(r) == multiset{id} + multiset(r[1..]);
  }

  /** Every id the saved list holds, other than the saved one, was already
      in the list; no id is duplicated when the old list had none. */
  lemma SaveRecentKeepsOthers(recent: seq<string>, id: string, y: string)
    requires y != id && y in SaveRecent(recent, id)
    ensures y in recent
  {
    var r := SaveRecent(recent, id);
    assert y in r[1..];
    assert y in RemoveAll(recent, id);
  }

  /** Choosing the same command twice in a row leaves the list as one
      choice did. */
  lemma SaveRecentIdempotent(recent: seq<string>, id: string)
    ensures SaveRecent(SaveRecent(recent, id), id) == SaveRecent(recent, id)
  {
    var r := SaveRecent(recent, id);
    assert r == [id] + r[1..];
    RemoveAllAppend([id], r[1..], id);
    assert RemoveAll([id], id) == [];
    RemoveAllAbsent(r[1..], id);
    assert RemoveAll(r, id) == r[1..];
  }

  // ---------------------------------------------------------------------
  // The lists shown

  predicate NameMatches(c: Command, query: string)
  {
    Contains(Lower(c.name), Lower(query))
  }

  /** `filtered`: the commands whose lower-cased name contains the
      lower-cased query, in command-list order. */
  function Filtered(commands: seq<Command>, query: string): (r: seq<Command>)
    ensures |r| <= |commands|
    ensures forall c :: c in r ==> c in commands && NameMatches(c, query)
    ensures forall c :: multiset(r)[c] == if NameMatches(c, query) then multiset(commands)[c] else 0
    ensures IsSubsequence(r, commands)
  {
    if commands == [] then []
    else
      assert commands == [commands[0]] + commands[1..];
      var rest := Filtered(commands[1..], query);
      if NameMatches(commands[0], query) then
        assert ([commands[0]] + rest)[1..] == rest;
        [commands[0]] + rest
      else
        SubsequenceSkip(rest, commands);
        rest
  }

  /** A command is listed exactly when its name matches; with an empty query
      every command is. */
  lemma {:induction false} FilteredMembership(commands: seq<Command>, query: string, c: Command)
    ensures c in Filtered(commands, query) <==> c in commands && NameMatches(c, query)
    ensures query == "" ==> Filtered(commands, query) == commands
  {
    if commands != [] {
      FilteredMembership(commands[1..], query, c);
      if query == "" {
        assert NameMatches(commands[0], query);
        assert [commands[0]] + commands[1..] == commands;
      }
    }
  }

  /** `commands.filter(cmd => recentCommands.includes(cmd.id))` */
  function InRecent(commands: seq<Command>, recent: seq<string>): (r: seq<Command>)
    ensures |r| <= |commands|
    ensures forall c :: c in r <==> c in commands && c.id in recent
    ensures IsSubsequence(r, commands)
    ensures forall c :: multiset(r)[c] == if c.id in recent then multiset(commands)[c] else 0
  {
    if commands == [] then []
    else
      assert commands == [commands[0]] + commands[1..];
      var rest := InRecent(commands[1..], recent);
      if commands[0].id in recent then
        assert ([commands[0]] + rest)[1..] == rest;
        [commands[0]] + rest
      else
        SubsequenceSkip(rest, commands);
        rest
  }

  /** No recent id among the commands leaves nothing to shortlist. */
  lemma {:induction false} InRecentNone(commands: seq<Command>, recent: seq<string>)
    requires forall c :: c in commands ==> c.id !in recent
    ensures InRecent(commands, recent) == []
  {
    if commands != [] {
      assert commands[0] in commands;
      InRecentNone(commands[1..], recent);
    }
  }

  /** `recentItems`: empty unless the query is empty, at most three, in
      command-list order rather than recency order. */
  function RecentItems(commands: seq<Command>, recent: seq<string>, query: string): (r: seq<Command>)
    ensures query != "" ==> r == []
    ensures |r| <= MaxRecentShown
    ensures forall c :: c in r ==> c in commands && c.id in recent
    ensures query == "" ==> r == InRecent(commands, recent)[..Min(MaxRecentShown, |InRecent(commands, recent)|)]
  {
    if query == "" then
      var all := InRecent(commands, recent);
      var r := all[..Min(MaxRecentShown, |all|)];
      assert forall c :: c in r ==> c in all;
      r
    else []
  }

  /** The shortlist keeps the order the commands are declared in. */
  lemma RecentItemsInCommandOrder(commands: seq<Command>, recent: seq<string>, query: string)
    ensures IsSubsequence(RecentItems(commands, recent, query), commands)
  {
    if query == "" {
      var all := InRecent(commands, recent);
      PrefixIsSubsequence(all, commands, Min(MaxRecentShown, |all|));
    }
  }

  /** A prefix of a subsequence is a subsequence. */
  lemma {:induction false} PrefixIsSubsequence<T>(r: seq<T>, s: seq<T>, n: nat)
    requires n <= |r| && IsSubsequence(r, s)
    ensures IsSubsequence(r[..n], s)
    decreases |s|
  {
    if n > 0 {
      if r[0] == s[0] {
        PrefixIsSubsequence(r[1..], s[1..], n - 1);
        assert r[..n][1..] == r[1..][..n - 1];
      } else {
        PrefixIsSubsequence(r, s[1..], n);
      }
    }
  }

  /** `displayItems`: the shortlist when the query is empty and the
      shortlist is non-empty, the filtered list otherwise. */
  function DisplayItems(commands: seq<Command>, recent: seq<string>, query: string): (r: seq<Command>)
    ensures query == "" && RecentItems(commands, recent, query) != [] ==> r == RecentItems(commands, recent, query)
    ensures query != "" || RecentItems(commands, recent, query) == [] ==> r == Filtered(commands, query)
  {
    var recentItems := RecentItems(commands, recent, query);
    if query == "" && |recentItems| > 0 then recentItems else Filtered(commands, query)
  }

  /** With nothing recent among the commands and no query, every command is
      displayed. */
  lemma DisplayAllWhenNothingRecent(commands: seq<Command>, recent: seq<string>)
    requires forall c :: c in commands ==> c.id !in recent
    ensures DisplayItems(commands, recent, "") == commands
  {
    FilteredMembership(commands, "", Command("", "", Action));
    InRecentNone(commands, recent);
  }

  // ---------------------------------------------------------------------
  // The selection index

  /** The selection as JavaScript holds it: a number, which becomes NaN once
      a remainder by zero has been taken. */
  datatype SelIndex = Index(i: int) | NotANumber

  /** JavaScript's `a % n`: the remainder takes the sign of the dividend; by
      zero it is NaN. */
  function JsRem(a: int, n: int): (r: SelIndex)
    ensures n == 0 <==> r.NotANumber?
    ensures n > 0 && a >= 0 ==> r == Index(a % n)
  {
    if n == 0 then NotANumber
    else if a >= 0 then Index(a % (if n < 0 then -n else n))
    else Index(-((-a) % (if n < 0 then -n else n)))
  }

  /** ArrowDown: `(i + 1) % displayItems.length` */
  function PaletteDown(sel: SelIndex, n: nat): (r: SelIndex)
    ensures n > 0 && sel.Index? && 0 <= sel.i < n ==> r.Index? && 0 <= r.i < n
    ensures n > 0 && sel.Index? && 0 <= sel.i < n ==> r.i == (if sel.i == n - 1 then 0 else sel.i + 1)
  {
    if sel.NotANumber? then NotANumber else JsRem(sel.i + 1, n)
  }

  /** ArrowUp: `(i - 1 + displayItems.length) % displayItems.length` */
  function PaletteUp(sel: SelIndex, n: nat): (r: SelIndex)
    ensures n > 0 && sel.Index? && 0 <= sel.i < n ==> r.Index? && 0 <= r.i < n
    ensures n > 0 && sel.Index? && 0 <= sel.i < n ==> r.i == (if sel.i == 0 then n - 1 else sel.i - 1)
  {
    if sel.NotANumber? then NotANumber else JsRem(sel.i - 1 + n, n)
  }

  /** With nothing to show, one arrow press turns the index into NaN for
      good. */
  lemma EmptyListLosesIndex(sel: SelIndex)
    ensures PaletteDown(sel, 0) == NotANumber && PaletteUp(sel, 0) == NotANumber
  {
  }

  /** ArrowUp undoes ArrowDown and ArrowDown undoes ArrowUp. */
  lemma UpInvertsDown(i: int, n: nat)
    requires 0 <= i < n
    ensures PaletteUp(PaletteDown(Index(i), n), n) == Index(i)
    ensures PaletteDown(PaletteUp(Index(i), n), n) == Index(i)
  {
  }

  /** k presses of ArrowDown. */
  function DownPresses(sel: SelIndex, n: nat, k: nat): SelIndex
  {
    if k == 0 then sel else PaletteDown(DownPresses(sel, n, k - 1), n)
  }

  /** Presses add up: a + b presses are a presses followed by b. */
  lemma {:induction false} DownPressesCompose(sel: SelIndex, n: nat, a: nat, b: nat)
    ensures DownPresses(sel, n, a + b) == DownPresses(DownPresses(sel, n, a), n, b)
  {
    if b > 0 {
      DownPressesCompose(sel, n, a, b - 1);
    }
  }

  /** Below the last item, k presses move k items down. */
  lemma {:induction false} DownPressesWalk(i: int, n: nat, k: nat)
    requires 0 <= i && i + k < n
    ensures DownPresses(Index(i), n, k) == Index(i + k)
  {
    if k > 0 {
      DownPressesWalk(i, n, k - 1);
    }
  }

  /** n presses of ArrowDown over n items come back to the start: walk to
      the last item, wrap to the first, walk back. */
  lemma FullCycleReturns(i: int, n: nat)
    requires 0 <= i < n
    ensures DownPresses(Index(i), n, n) == Index(i)
  {
    var toLast := n - 1 - i;
    DownPressesWalk(i, n, toLast);
    DownPressesCompose(Index(i), n, toLast, 1);
    assert DownPresses(Index(i), n, toLast + 1) == Index(0);
    DownPressesWalk(0, n, i);
    DownPressesCompose(Index(i), n, toLast + 1, i);
    assert toLast + 1 + i == n;
  }

  /** Enter: the displayed item the index points at, if there is one. */
  function Selected(items: seq<Command>, sel: SelIndex): (r: Option<Command>)
    ensures r.Some? <==> sel.Index? && 0 <= sel.i < |items|
    ensures r.Some? ==> r.value in items
  {
    if sel.Index? && 0 <= sel.i < |items| then Some(items[sel.i]) else None
  }

  // ---------------------------------------------------------------------
  // Palette state

  /** `query`, `selectedIndex` and `recentCommands`, as the palette's
      handlers replace them; the command list is fixed. */
  class Palette {
    const commands: seq<Command>
    var query: string
    var selectedIndex: SelIndex
    var recentCommands: seq<string>

    constructor (commands: seq<Command>, stored: seq<string>)
      ensures this.commands == commands && query == "" && selectedIndex == Index(0)
      ensures recentCommands == stored
    {
      this.commands := commands;
      query := "";
      selectedIndex := Index(0);
      recentCommands := stored;
    }

    function Display(): seq<Command>
      reads this
    {
      DisplayItems(commands, recentCommands, query)
    }

    /** Opening the palette clears the query and selects the first item. */
    method Open()
      modifies this
      ensures query == "" && selectedIndex == Index(0) && recentCommands == old(recentCommands)
    {
      query := "";
      selectedIndex := Index(0);
    }

    /** Typing replaces the query and selects the first item. */
    method Type(text: string)
      modifies this
      ensures query == text && selectedIndex == Index(0) && recentCommands == old(recentCommands)
    {
      query := text;
      selectedIndex := Index(0);
    }

    method ArrowDown()
      modifies this
      ensures selectedIndex == PaletteDown(old(selectedIndex), |old(Display())|)
      ensures query == old(query) && recentCommands == old(recentCommands)
      ensures |Display()| > 0 && old(selectedIndex).Index? && 0 <= old(selectedIndex).i < |Display()| ==>
        selectedIndex.Index? && 0 <= selectedIndex.i < |Display()|
    {
      selectedIndex := PaletteDown(selectedIndex, |Display()|);
    }

    method ArrowUp()
      modifies this
      ensures selectedIndex == PaletteUp(old(selectedIndex), |old(Display())|)
      ensures query == old(query) && recentCommands == old(recentCommands)
      ensures |Display()| > 0 && old(selectedIndex).Index? && 0 <= old(selectedIndex).i < |Display()| ==>
        selectedIndex.Index? && 0 <= selectedIndex.i < |Display()|
    {
      selectedIndex := PaletteUp(selectedIndex, |Display()|);
    }

    /** Running a command records its id as the most recent one. */
    method Run(id: string)
      modifies this
      ensures recentCommands == SaveRecent(old(recentCommands), id)
      ensures query == old(query) && selectedIndex == old(selectedIndex)
    {
      recentCommands := SaveRecent(recentCommands, id);
    }
  }
}
