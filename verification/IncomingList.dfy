/** The phone's list of ringing invites: announcements by push and socket, snapshots, and removals. */
module IncomingList {
  import opened Wrappers
  import opened Strings

  datatype Call = Call(
    id: string, boxID: int, boxName: string, callerID: string, remoteNumber: string, state: string, received: int)

  predicate NonBlankIds(s: seq<Call>) {
    forall c <- s :: !IsBlank(c.id)
  }

  predicate DistinctIds(s: seq<Call>) {
    forall i, j :: 0 <= i < j < |s| ==> s[i].id != s[j].id
  }

  /** Latest first. */
  predicate Sorted(s: seq<Call>) {
    forall i, j :: 0 <= i < j < |s| ==> s[i].received >= s[j].received
  }

  predicate Good(s: seq<Call>) {
    NonBlankIds(s) && DistinctIds(s) && Sorted(s)
  }

  predicate HasId(s: seq<Call>, id: string) {
    exists c <- s :: c.id == id
  }

  // ----- the pipeline: filter, distinctBy, sortedByDescending -----

  function NonBlank(s: seq<Call>): seq<Call> {
    if s == [] then [] else if IsBlank(s[0].id) then NonBlank(s[1..]) else [s[0]] + NonBlank(s[1..])
  }

  function WithoutId(s: seq<Call>, id: string): seq<Call> {
    if s == [] then [] else if s[0].id == id then WithoutId(s[1..], id) else [s[0]] + WithoutId(s[1..], id)
  }

  lemma {:induction false} WithoutIdShrinks(s: seq<Call>, id: string)
    ensures |WithoutId(s, id)| <= |s|
  {
    if s != [] { WithoutIdShrinks(s[1..], id); }
  }

  /** distinctBy keeps the first entry of every identifier. */
  function DistinctById(s: seq<Call>): seq<Call>
    decreases |s|
  {
    if s == [] then []
    else
      WithoutIdShrinks(s[1..], s[0].id);
      [s[0]] + DistinctById(WithoutId(s[1..], s[0].id))
  }

  function Insert(c: Call, s: seq<Call>): seq<Call> {
    if s == [] || c.received >= s[0].received then [c] + s else [s[0]] + Insert(c, s[1..])
  }

  /** The stable sort. */
  function SortDescending(s: seq<Call>): seq<Call> {
    if s == [] then [] else Insert(s[0], SortDescending(s[1..]))
  }

  function Pipeline(s: seq<Call>): seq<Call> {
    SortDescending(DistinctById(NonBlank(s)))
  }

  /** The entries received at time `t`, in their order. */
  function At(s: seq<Call>, t: int): seq<Call> {
    if s == [] then [] else if s[0].received == t then [s[0]] + At(s[1..], t) else At(s[1..], t)
  }

  // ----- what the pipeline does -----

  lemma {:induction false} NonBlankKeeps(s: seq<Call>)
    ensures forall c :: c in NonBlank(s) <==> c in s && !IsBlank(c.id)
    ensures NonBlankIds(s) ==> NonBlank(s) == s
  {
    hide IsBlank;
    if s != [] {
      NonBlankKeeps(s[1..]);
      assert s == [s[0]] + s[1..];
    }
  }

  lemma {:induction false} WithoutIdKeeps(s: seq<Call>, id: string)
    ensures forall c :: c in WithoutId(s, id) <==> c in s && c.id != id
    ensures !HasId(s, id) ==> WithoutId(s, id) == s
  {
    if s != [] {
      assert s == [s[0]] + s[1..];
      WithoutIdKeeps(s[1..], id);
    }
  }

  /** Among the entries of one identifier, the first. */
  function FirstOf(s: seq<Call>, id: string): Option<Call> {
    if s == [] then None else if s[0].id == id then Some(s[0]) else FirstOf(s[1..], id)
  }

  lemma {:induction false} FirstOfMember(s: seq<Call>, id: string)
    ensures FirstOf(s, id).Some? ==> FirstOf(s, id).value in s && FirstOf(s, id).value.id == id
    ensures FirstOf(s, id).Some? <==> HasId(s, id)
  {
    if s != [] {
      FirstOfMember(s[1..], id);
      assert s == [s[0]] + s[1..];
    }
  }

  lemma {:induction false} FirstOfWithout(s: seq<Call>, id: string, other: string)
    ensures FirstOf(WithoutId(s, other), id) == if id == other then None else FirstOf(s, id)
  {
    if s != [] { FirstOfWithout(s[1..], id, other); }
  }

  /** It keeps, of every identifier, the first entry. */
  lemma {:induction false} DistinctMembers(s: seq<Call>, c: Call)
    ensures c in DistinctById(s) <==> FirstOf(s, c.id) == Some(c)
    decreases |s|
  {
    if s != [] {
      var rest := WithoutId(s[1..], s[0].id);
      WithoutIdShrinks(s[1..], s[0].id);
      DistinctMembers(rest, c);
      FirstOfWithout(s[1..], c.id, s[0].id);
    }
  }

  lemma {:induction false} DistinctIsDistinct(s: seq<Call>)
    ensures DistinctIds(DistinctById(s))
    decreases |s|
  {
    if s != [] {
      var rest := WithoutId(s[1..], s[0].id);
      WithoutIdShrinks(s[1..], s[0].id);
      DistinctIsDistinct(rest);
      var r := DistinctById(rest);
      forall i | 0 <= i < |r|
        ensures r[i].id != s[0].id
      {
        DistinctMembers(rest, r[i]);
        FirstOfWithout(s[1..], r[i].id, s[0].id);
      }
    }
  }

  lemma {:induction false} DistinctStays(s: seq<Call>)
    requires DistinctIds(s)
    ensures DistinctById(s) == s
  {
    if s != [] {
      assert !HasId(s[1..], s[0].id);
      WithoutIdKeeps(s[1..], s[0].id);
      DistinctStays(s[1..]);
      assert s == [s[0]] + s[1..];
    }
  }

  lemma {:induction false} InsertKeeps(c: Call, s: seq<Call>)
    requires Sorted(s)
    ensures Sorted(Insert(c, s))
    ensures forall d :: d in Insert(c, s) <==> d == c || d in s
    ensures forall t :: At(Insert(c, s), t) == At([c] + s, t)
  {
    if s != [] && c.received < s[0].received {
      InsertKeeps(c, s[1..]);
      var r := Insert(c, s[1..]);
      assert s == [s[0]] + s[1..];
      forall i | 0 <= i < |r|
        ensures s[0].received >= r[i].received
      {
        assert r[i] in r;
      }
      forall t
        ensures At(Insert(c, s), t) == At([c] + s, t)
      {
        assert ([s[0]] + r)[1..] == r && ([c] + s)[1..] == s && ([c] + s[1..])[1..] == s[1..];
      }
    }
  }

  lemma ConsDistinct(c: Call, s: seq<Call>)
    requires DistinctIds(s) && !HasId(s, c.id)
    ensures DistinctIds([c] + s)
  {
    assert forall i :: 0 <= i < |s| ==> s[i] in s;
  }

  lemma TailDistinct(s: seq<Call>)
    requires s != [] && DistinctIds(s)
    ensures DistinctIds(s[1..]) && !HasId(s[1..], s[0].id)
  {}

  lemma {:induction false} InsertDistinct(c: Call, s: seq<Call>)
    requires DistinctIds(s) && !HasId(s, c.id)
    ensures DistinctIds(Insert(c, s))
    ensures forall d :: d in Insert(c, s) <==> d == c || d in s
  {
    hide DistinctIds;
    if s == [] || c.received >= s[0].received {
      ConsDistinct(c, s);
    } else {
      TailDistinct(s);
      assert s == [s[0]] + s[1..];
      InsertDistinct(c, s[1..]);
      ConsDistinct(s[0], Insert(c, s[1..]));
    }
  }

  /** The sort is stable: the entries of one time keep their order. */
  lemma {:induction false} SortKeeps(s: seq<Call>)
    ensures Sorted(SortDescending(s))
    ensures forall c :: c in SortDescending(s) <==> c in s
    ensures forall t :: At(SortDescending(s), t) == At(s, t)
  {
    if s != [] {
      SortKeeps(s[1..]);
      InsertKeeps(s[0], SortDescending(s[1..]));
      assert s == [s[0]] + s[1..];
      forall t
        ensures At(SortDescending(s), t) == At(s, t)
      {
        assert ([s[0]] + SortDescending(s[1..]))[1..] == SortDescending(s[1..]);
      }
    }
  }

  lemma {:induction false} SortDistinct(s: seq<Call>)
    requires DistinctIds(s)
    ensures DistinctIds(SortDescending(s))
  {
    if s != [] {
      SortDistinct(s[1..]);
      SortKeeps(s[1..]);
      InsertDistinct(s[0], SortDescending(s[1..]));
    }
  }

  lemma {:induction false} SortedStays(s: seq<Call>)
    requires Sorted(s)
    ensures SortDescending(s) == s
  {
    if s != [] {
      SortedStays(s[1..]);
      assert s == [s[0]] + s[1..];
    }
  }

  /** The list after a replacement: good; it has, for every non-blank identifier among the items, the first item of
      that identifier; and items received at the same time stay in the order they had. */
  lemma PipelineMeans(items: seq<Call>)
    ensures var list := Pipeline(items);
            && Good(list)
            && (forall c :: c in list <==> !IsBlank(c.id) && FirstOf(items, c.id) == Some(c))
            && (forall t :: At(list, t) == At(DistinctById(NonBlank(items)), t))
  {
    var kept := NonBlank(items);
    NonBlankKeeps(items);
    DistinctIsDistinct(kept);
    SortKeeps(DistinctById(kept));
    SortDistinct(DistinctById(kept));
    hide IsBlank, At, DistinctIds, Sorted;
    forall c
      ensures c in Pipeline(items) <==> !IsBlank(c.id) && FirstOf(items, c.id) == Some(c)
    {
      DistinctMembers(kept, c);
      FirstNonBlankOf(items, c.id);
    }
  }

  lemma {:induction false} FirstNonBlankOf(items: seq<Call>, id: string)
    ensures FirstOf(NonBlank(items), id) == if IsBlank(id) then None else FirstOf(items, id)
  {
    if items != [] { FirstNonBlankOf(items[1..], id); }
  }

  lemma {:induction false} NonBlankAppend(s: seq<Call>, c: Call)
    ensures NonBlank(s + [c]) == NonBlank(s) + if IsBlank(c.id) then [] else [c]
  {
    hide IsBlank;
    if s == [] {
      assert [c][1..] == [] && NonBlank([c][1..]) == [];
      assert [] + [c] == [c];
    } else {
      NonBlankAppend(s[1..], c);
      assert (s + [c])[1..] == s[1..] + [c] && (s + [c])[0] == s[0];
    }
  }

  lemma {:induction false} WithoutIdAppend(s: seq<Call>, c: Call, id: string)
    ensures WithoutId(s + [c], id) == WithoutId(s, id) + if c.id == id then [] else [c]
  {
    if s == [] {
      assert [c][1..] == [] && WithoutId([c][1..], id) == [];
      assert [] + [c] == [c];
    } else {
      WithoutIdAppend(s[1..], c, id);
      assert (s + [c])[1..] == s[1..] + [c] && (s + [c])[0] == s[0];
    }
  }

  lemma {:induction false} DistinctAppend(s: seq<Call>, c: Call)
    ensures DistinctById(s + [c]) == DistinctById(s) + if HasId(s, c.id) then [] else [c]
    decreases |s|
  {
    if s == [] {
      assert WithoutId([], c.id) == [] && [c][1..] == [];
      assert [] + [c] == [c];
    } else {
      var first, rest := s[0], WithoutId(s[1..], s[0].id);
      assert (s + [c])[1..] == s[1..] + [c] && (s + [c])[0] == first && s == [first] + s[1..];
      WithoutIdAppend(s[1..], c, first.id);
      WithoutIdShrinks(s[1..], first.id);
      if c.id == first.id {
        assert rest + [] == rest;
      } else {
        DistinctAppend(rest, c);
        WithoutIdKeeps(s[1..], first.id);
      }
    }
  }

  /** Before the sort, what is kept is in the order of the items: one item more adds itself at the end, unless it is
      blank or its identifier is there already. */
  lemma KeptInOrder(items: seq<Call>, c: Call)
    ensures DistinctById(NonBlank([])) == []
    ensures DistinctById(NonBlank(items + [c]))
            == DistinctById(NonBlank(items)) + if IsBlank(c.id) || HasId(items, c.id) then [] else [c]
  {
    hide IsBlank;
    NonBlankAppend(items, c);
    NonBlankKeeps(items);
    if IsBlank(c.id) {
      assert NonBlank(items) + [] == NonBlank(items);
    } else {
      DistinctAppend(NonBlank(items), c);
    }
  }

  /** A list that is good already is left as it is. */
  lemma GoodStays(s: seq<Call>)
    requires Good(s)
    ensures Pipeline(s) == s
  {
    NonBlankKeeps(s);
    DistinctStays(s);
    SortedStays(s);
  }

  // ----- the operations -----

  function PositionOf(s: seq<Call>, id: string): (i: int)
    ensures i < |s| && (i >= 0 ==> s[i].id == id && forall j :: 0 <= j < i ==> s[j].id != id)
    ensures i < 0 ==> forall j :: 0 <= j < |s| ==> s[j].id != id
  {
    if s == [] then -1
    else if s[0].id == id then 0
    else
      var i := PositionOf(s[1..], id);
      assert forall j :: 0 < j < |s| ==> s[j] == s[1..][j - 1];
      if i < 0 then -1 else i + 1
  }

  function Announce(list: seq<Call>, c: Call): seq<Call> {
    if IsBlank(c.id) then list
    else
      var i := PositionOf(list, c.id);
      Pipeline(if i >= 0 then list[i := c.(received := list[i].received)] else [c] + list)
  }

  function Remove(list: seq<Call>, id: string): seq<Call> {
    if IsBlank(id) then list else WithoutId(list, Trim(id))
  }

  /** Announcing a known invite again keeps its receive time, its position and every other entry. */
  lemma ReannounceKeepsPositions(list: seq<Call>, c: Call)
    requires Good(list) && HasId(list, c.id) && !IsBlank(c.id)
    ensures var i := PositionOf(list, c.id);
            && i >= 0
            && Announce(list, c) == list[i := c.(received := list[i].received)] && Good(Announce(list, c))
  {
    var i := PositionOf(list, c.id);
    var updated := list[i := c.(received := list[i].received)];
    hide IsBlank;
    assert DistinctIds(updated) && Sorted(updated);
    forall d | d in updated
      ensures !IsBlank(d.id)
    {
      var k :| 0 <= k < |updated| && updated[k] == d;
      assert k != i ==> list[k] in list;
    }
    GoodStays(updated);
  }

  /** A new invite goes before every entry received no later, and moves no other; if none is later, it is the head. */
  lemma AnnounceNew(list: seq<Call>, c: Call)
    requires Good(list) && !HasId(list, c.id) && !IsBlank(c.id)
    ensures Announce(list, c) == Insert(c, list) && Good(Announce(list, c))
    ensures (forall d <- list :: d.received <= c.received) ==> Announce(list, c) == [c] + list
  {
    var more := [c] + list;
    hide IsBlank;
    assert PositionOf(list, c.id) < 0;
    assert forall i :: 0 <= i < |list| ==> list[i] in list;
    assert NonBlankIds(more) && DistinctIds(more);
    NonBlankKeeps(more);
    DistinctStays(more);
    assert more[1..] == list;
    SortedStays(list);
    PipelineMeans(more);
  }

  lemma {:induction false} WithoutIdSorted(list: seq<Call>, id: string)
    requires Sorted(list)
    ensures Sorted(WithoutId(list, id))
  {
    if list != [] {
      WithoutIdSorted(list[1..], id);
      WithoutIdKeeps(list[1..], id);
      var rest := WithoutId(list[1..], id);
      forall i | 0 <= i < |rest|
        ensures rest[i].received <= list[0].received
      {
        assert rest[i] in list[1..];
      }
    }
  }

  lemma {:induction false} WithoutIdDistinct(list: seq<Call>, id: string)
    requires DistinctIds(list)
    ensures DistinctIds(WithoutId(list, id))
  {
    if list != [] {
      WithoutIdDistinct(list[1..], id);
      WithoutIdKeeps(list[1..], id);
      var rest := WithoutId(list[1..], id);
      forall i | 0 <= i < |rest|
        ensures rest[i].id != list[0].id
      {
        assert rest[i] in list[1..];
      }
    }
  }

  /** A removal takes away exactly the invite whose identifier is the trimmed argument. An invite is removed by its
      own identifier if and only if that has no space around it: announcements do not trim, removals do. */
  lemma RemoveTakesTrimmed(list: seq<Call>, id: string)
    requires Good(list)
    ensures Good(Remove(list, id))
    ensures forall c :: c in Remove(list, id) <==> c in list && (IsBlank(id) || c.id != Trim(id))
    ensures HasId(list, id) ==> (!HasId(Remove(list, id), id) <==> Trim(id) == id)
  {
    WithoutIdSorted(list, Trim(id));
    WithoutIdDistinct(list, Trim(id));
    WithoutIdKeeps(list, Trim(id));
    hide Trim, Sorted, DistinctIds;
  }

  // ----- runs -----

  datatype Op = Announced(call: Call) | Snapshot(items: seq<Call>) | Removed(id: string) | Cleared

  function Step(list: seq<Call>, op: Op): seq<Call> {
    match op
    case Announced(c) => Announce(list, c)
    case Snapshot(items) => Pipeline(items)
    case Removed(id) => Remove(list, id)
    case Cleared => []
  }

  function Run(h: seq<Op>): seq<Call> {
    if h == [] then [] else Step(Run(h[..|h| - 1]), h[|h| - 1])
  }

  /** What the history says about one invite: its last announcement, received when it was first announced since it
      was last absent; a snapshot starts afresh. */
  function Entry(h: seq<Op>, id: string): Option<Call> {
    if h == [] then None
    else
      var before := Entry(h[..|h| - 1], id);
      match h[|h| - 1]
      case Announced(c) =>
        if c.id != id || IsBlank(id) then before
        else Some(c.(received := if before.Some? then before.value.received else c.received))
      case Snapshot(items) => if IsBlank(id) then None else FirstOf(items, id)
      case Removed(r) => if !IsBlank(r) && Trim(r) == id then None else before
      case Cleared => None
  }

  ghost predicate Follows(list: seq<Call>, h: seq<Op>) {
    Good(list) && forall c :: c in list <==> Entry(h, c.id) == Some(c)
  }

  lemma {:induction false} EntryHasId(h: seq<Op>, id: string)
    ensures Entry(h, id).Some? ==> Entry(h, id).value.id == id
  {
    if h != [] {
      EntryHasId(h[..|h| - 1], id);
      if h[|h| - 1].Snapshot? { FirstOfMember(h[|h| - 1].items, id); }
    }
  }

  lemma UpdatedMembers(list: seq<Call>, i: nat, c: Call)
    requires i < |list| && DistinctIds(list) && list[i].id == c.id
    ensures forall d :: d in list[i := c] <==> d == c || (d in list && d.id != c.id)
  {
    var r := list[i := c];
    forall d
      ensures d in r <==> d == c || (d in list && d.id != c.id)
    {
      if d in r {
        var k :| 0 <= k < |r| && r[k] == d;
      }
      if d in list && d.id != c.id {
        var k :| 0 <= k < |list| && list[k] == d;
        assert r[k] == d;
      }
      assert r[i] == c;
    }
  }

  lemma AnnouncedFollows(list: seq<Call>, h: seq<Op>, c: Call)
    requires Follows(list, h) && !IsBlank(c.id)
    ensures Follows(Announce(list, c), h + [Announced(c)])
  {
    assert (h + [Announced(c)])[..|h|] == h;
    hide IsBlank;
    EntryHasId(h, c.id);
    var i := PositionOf(list, c.id);
    if HasId(list, c.id) {
      ReannounceKeepsPositions(list, c);
      var updated := c.(received := list[i].received);
      UpdatedMembers(list, i, updated);
      assert list[i] in list;
    } else {
      AnnounceNew(list, c);
      InsertKeeps(c, list);
    }
    hide Good, Announce;
  }

  /** After any run of pushes, socket messages, snapshots and removals the list is good, and it holds exactly what the
      history says about each invite. */
  lemma {:induction false} RunFollows(h: seq<Op>)
    ensures Follows(Run(h), h)
  {
    if h != [] {
      var before, op := h[..|h| - 1], h[|h| - 1];
      RunFollows(before);
      assert h == before + [op];
      match op
      case Announced(c) =>
        if !IsBlank(c.id) { AnnouncedFollows(Run(before), before, c); }
      case Snapshot(items) =>
        PipelineMeans(items);
      case Removed(id) =>
        hide Trim;
        RemoveTakesTrimmed(Run(before), id);
      case Cleared =>
    }
  }

  /** An invite announced by the socket under an identifier with a space in front is not removed by that identifier. */
  lemma SpacedInviteStays(c: Call)
    requires c.id == " a"
    ensures Run([Announced(c), Removed(c.id)]) == [c]
  {
    var h := [Announced(c), Removed(c.id)];
    assert h[..1] == [Announced(c)] && h[..1][..0] == [];
    assert c.id[1..] == "a" && TrimLeft("a") == "a" && TrimLeft(c.id) == TrimLeft(c.id[1..]);
    TrimStays("a");
    assert Trim(c.id) == TrimRight("a") == "a";
    AnnounceNew([], c);
    assert Run(h[..1]) == [c];
    assert WithoutId([c], "a") == [c] + WithoutId([], "a");
  }

  // ----- the controller's two state flows -----

  function First(list: seq<Call>): Option<Call> {
    if list == [] then None else Some(list[0])
  }

  class IncomingCalls {
    var pending: seq<Call>
    var current: Option<Call>

    ghost predicate Valid()
      reads this
    {
      Good(pending) && current == First(pending)
    }

    constructor ()
      ensures Valid() && pending == []
    {
      pending, current := [], None;
    }

    method Clear()
      modifies this
      ensures Valid() && pending == []
    {
      pending, current := [], None;
    }

    method ReplaceIncoming(items: seq<Call>)
      modifies this
      ensures Valid() && pending == Pipeline(items)
      ensures forall c :: c in pending <==> !IsBlank(c.id) && FirstOf(items, c.id) == Some(c)
    {
      PipelineMeans(items);
      pending := Pipeline(items);
      current := First(pending);
    }

    method UpsertIncoming(incoming: Call)
      requires Valid()
      modifies this
      ensures Valid() && pending == Announce(old(pending), incoming)
      ensures !IsBlank(incoming.id) ==> HasId(pending, incoming.id)
    {
      if IsBlank(incoming.id) {
        return;
      }
      var list := pending;
      var idx := PositionOf(list, incoming.id);
      if idx >= 0 {
        assert list[idx] in list;
        ReannounceKeepsPositions(list, incoming);
        list := list[idx := incoming.(received := list[idx].received)];
        assert list[idx] in list;
      } else {
        AnnounceNew(list, incoming);
        InsertKeeps(incoming, list);
        list := [incoming] + list;
      }
      ReplaceIncoming(list);
    }

    method RemoveIncoming(inviteID: string)
      requires Valid()
      modifies this
      ensures Valid() && pending == Remove(old(pending), inviteID)
      ensures forall c :: c in pending <==> c in old(pending) && (IsBlank(inviteID) || c.id != Trim(inviteID))
    {
      RemoveTakesTrimmed(pending, inviteID);
      if IsBlank(inviteID) {
        return;
      }
      pending := WithoutId(pending, Trim(inviteID));
      current := First(pending);
    }

    /** Without an identifier, the current invite; otherwise the one with that identifier, if it is listed. */
    method FindIncoming(inviteID: string) returns (found: Option<Call>)
      requires Valid()
      ensures IsBlank(inviteID) ==> found == current
      ensures !IsBlank(inviteID) ==>
                if found.Some? then found.value in pending && found.value.id == Trim(inviteID) else !HasId(pending, Trim(inviteID))
    {
      var normalized := Trim(inviteID);
      if normalized == "" { return current; }
      var i := PositionOf(pending, normalized);
      found := if i < 0 then None else Some(pending[i]);
    }

    /** A push message; unlike the socket's announcements it trims the identifier. */
    method HandlePush(event: string, inviteID: string, call: Call)
      requires Valid()
      modifies this
      ensures Valid()
      ensures pending ==
              if IsBlank(inviteID) then old(pending)
              else if Trim(event) == "incoming_call" then Announce(old(pending), call.(id := Trim(inviteID)))
              else if Trim(event) == "incoming_answered" || Trim(event) == "incoming_stop" then Remove(old(pending), Trim(inviteID))
              else old(pending)
    {
      var kind, id := Trim(event), Trim(inviteID);
      if id == "" {
        return;
      }
      if kind == "incoming_call" {
        UpsertIncoming(call.(id := id));
      } else if kind == "incoming_answered" || kind == "incoming_stop" {
        RemoveIncoming(id);
      }
    }
  }
}
