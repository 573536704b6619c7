/** Read/unread bookkeeping for the inbox: the set of event ids the analyst
    has read. The browser storage behind it is the `readEvents` field. */
module ReadStatus {

  /** How many entries of `ids` (repeats included) are not in `read`. */
  function CountUnread(ids: seq<string>, read: set<string>): (r: nat)
    ensures r <= |ids|
    ensures r == |ids| <==> forall i :: 0 <= i < |ids| ==> ids[i] !in read
    ensures r == 0 <==> forall i :: 0 <= i < |ids| ==> ids[i] in read
  {
    if ids == [] then 0
    else
      var rest := CountUnread(ids[1..], read);
      assert forall i :: 1 <= i < |ids| ==> ids[i] == ids[1..][i - 1];
      (if ids[0] in read then 0 else 1) + rest
  }

  /** Reading more events never raises the unread count. */
  lemma {:induction false} CountUnreadAntitone(ids: seq<string>, read: set<string>, more: set<string>)
    requires read <= more
    ensures CountUnread(ids, more) <= CountUnread(ids, read)
  {
    if ids != [] {
      CountUnreadAntitone(ids[1..], read, more);
    }
  }

  /** Marking one id read lowers the count by the number of its unread
      occurrences and leaves the other entries counted. */
  lemma {:induction false} CountUnreadAfterMark(ids: seq<string>, read: set<string>, id: string)
    ensures CountUnread(ids, read + {id}) == CountUnread(ids, read) - (if id in read then 0 else multiset(ids)[id])
  {
    if ids != [] {
      CountUnreadAfterMark(ids[1..], read, id);
      assert ids == [ids[0]] + ids[1..];
      assert multiset(ids) == multiset{ids[0]} + multiset(ids[1..]);
    }
  }

  class ReadStatusStore {
    var readEvents: set<string>

    /** A fresh store; `stored` is what storage held (empty when nothing was
        saved or it could not be parsed). */
    constructor (stored: set<string>)
      ensures readEvents == stored
    {
      readEvents := stored;
    }

    /** `isEventRead`: the id is in the read set, which is to say that,
        counted alone, it is not unread. */
    predicate IsEventRead(id: string)
      reads this
      ensures IsEventRead(id) <==> CountUnread([id], readEvents) == 0
    {
      id in readEvents
    }

    function UnreadCount(ids: seq<string>): (r: nat)
      reads this
      ensures r <= |ids|
      ensures r == 0 <==> forall i :: 0 <= i < |ids| ==> IsEventRead(ids[i])
    {
      CountUnread(ids, readEvents)
    }

    /** After marking, the event is read and every other event keeps its
        status; marking an event already read changes nothing. */
    method MarkEventAsRead(id: string)
      modifies this
      ensures readEvents == old(readEvents) + {id}
      ensures IsEventRead(id)
      ensures forall x :: x != id ==> (IsEventRead(x) <==> old(IsEventRead(x)))
      ensures old(IsEventRead(id)) ==> readEvents == old(readEvents)
    {
      readEvents := readEvents + {id};
    }

    /** Adds every id, one after another; afterwards none of them is unread. */
    method MarkAllEventsAsRead(ids: seq<string>)
      modifies this
      ensures readEvents == old(readEvents) + set x | x in ids
      ensures UnreadCount(ids) == 0
    {
      var k := 0;
      while k < |ids|
        invariant 0 <= k <= |ids|
        invariant readEvents == old(readEvents) + set x | x in ids[..k]
      {
        readEvents := readEvents + {ids[k]};
        assert ids[..k + 1] == ids[..k] + [ids[k]];
        k := k + 1;
      }
      assert ids[..k] == ids;
    }
  }
}
