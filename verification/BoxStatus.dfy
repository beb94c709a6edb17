/** The server's poll of box states, the changes it sends, and a client that applies them to what it knows. */
module BoxStatus {

  datatype Runtime = Runtime(online: bool, inUse: bool)

  datatype Change = Change(id: int, state: Runtime)

  const OFFLINE := Runtime(false, false)

  /** A box that is not listed reads as offline and idle. */
  function Read(m: map<int, Runtime>, id: int): Runtime {
    if id in m then m[id] else OFFLINE
  }

  /** The box is new, gone, or in another state. */
  predicate Differs(prev: map<int, Runtime>, current: map<int, Runtime>, id: int) {
    (id in prev) != (id in current) || (id in current && prev[id] != current[id])
  }

  ghost predicate Distinct(changes: seq<Change>) {
    forall i, j :: 0 <= i < j < |changes| ==> changes[i].id != changes[j].id
  }

  ghost predicate Correct(prev: map<int, Runtime>, current: map<int, Runtime>, change: Change) {
    Differs(prev, current, change.id) && change.state == Read(current, change.id)
  }

  /** The changes name every box that differs once, with its current state, and no other box. */
  ghost predicate IsDiff(prev: map<int, Runtime>, current: map<int, Runtime>, changes: seq<Change>) {
    && Distinct(changes)
    && (forall i :: 0 <= i < |changes| ==> Correct(prev, current, changes[i]))
    && (forall id :: Differs(prev, current, id) ==> Named(changes, id))
  }

  ghost predicate Named(changes: seq<Change>, id: int) {
    exists i :: 0 <= i < |changes| && changes[i].id == id
  }

  /** An order in which a loop over the map may visit it. */
  ghost predicate Order(order: seq<int>, m: map<int, Runtime>) {
    && (forall i, j :: 0 <= i < j < |order| ==> order[i] != order[j])
    && (forall id :: id in order <==> id in m)
  }

  class BoxMonitor {
    var boxState: map<int, Runtime>
    var first: bool

    constructor ()
      ensures first && boxState == map[]
    {
      boxState, first := map[], true;
    }

    /** The boxes that are new or in another state. */
    method CollectChanged(current: map<int, Runtime>, order: seq<int>) returns (changes: seq<Change>)
      requires Order(order, current)
      ensures Distinct(changes)
      ensures forall i :: 0 <= i < |changes| ==> changes[i].id in current && Correct(boxState, current, changes[i])
      ensures forall id <- current :: Differs(boxState, current, id) ==> Named(changes, id)
    {
      changes := [];
      for k := 0 to |order|
        invariant Distinct(changes)
        invariant forall i :: 0 <= i < |changes| ==>
                    changes[i].id in order[..k] && Correct(boxState, current, changes[i])
        invariant forall id <- order[..k] :: Differs(boxState, current, id) ==> Named(changes, id)
      {
        var id := order[k];
        assert order[..k + 1] == order[..k] + [id];
        ghost var sent := changes;
        if id !in boxState || boxState[id].online != current[id].online || boxState[id].inUse != current[id].inUse {
          changes := changes + [Change(id, current[id])];
          assert changes[|sent|].id == id;
        }
        NamedGrows(sent, changes);
      }
      assert order[..|order|] == order;
    }

    /** The boxes that are gone, added to the changes so far. */
    method CollectGone(current: map<int, Runtime>, order: seq<int>, changed: seq<Change>) returns (changes: seq<Change>)
      requires Order(order, boxState) && Distinct(changed)
      requires forall i :: 0 <= i < |changed| ==> changed[i].id in current && Correct(boxState, current, changed[i])
      ensures changed <= changes && Distinct(changes)
      ensures forall i :: 0 <= i < |changes| ==> Correct(boxState, current, changes[i])
      ensures forall id <- boxState :: id !in current ==> Named(changes, id)
    {
      changes := changed;
      for k := 0 to |order|
        invariant changed <= changes && Distinct(changes)
        invariant forall i :: 0 <= i < |changes| ==>
                    Correct(boxState, current, changes[i]) && (changes[i].id in current || changes[i].id in order[..k])
        invariant forall id <- order[..k] :: id !in current ==> Named(changes, id)
      {
        var id := order[k];
        assert order[..k + 1] == order[..k] + [id];
        ghost var sent := changes;
        if id !in current {
          changes := changes + [Change(id, OFFLINE)];
          assert changes[|sent|].id == id;
        }
        NamedGrows(sent, changes);
      }
      assert order[..|order|] == order;
    }

    /** One tick of the poll, with the two maps visited in any order. The first tick only remembers the states. */
    method Tick(current: map<int, Runtime>, currentOrder: seq<int>, stateOrder: seq<int>) returns (changes: seq<Change>)
      requires Order(currentOrder, current) && Order(stateOrder, boxState)
      modifies this
      ensures boxState == current && !first
      ensures if old(first) then changes == [] else IsDiff(old(boxState), current, changes)
    {
      changes := [];
      if first {
        boxState, first := current, false;
        return;
      }
      var changed := CollectChanged(current, currentOrder);
      changes := CollectGone(current, stateOrder, changed);
      NamedGrows(changed, changes);
      boxState := current;
    }
  }

  lemma NamedGrows(sent: seq<Change>, changes: seq<Change>)
    requires sent <= changes
    ensures forall id :: Named(sent, id) ==> Named(changes, id)
  {
    forall id | Named(sent, id)
      ensures Named(changes, id)
    {
      var i :| 0 <= i < |sent| && sent[i].id == id;
      assert changes[i].id == id;
    }
  }

  // ----- a client that applies the changes -----

  function Apply(view: map<int, Runtime>, changes: seq<Change>): map<int, Runtime> {
    if changes == [] then view
    else Apply(view, changes[..|changes| - 1])[changes[|changes| - 1].id := changes[|changes| - 1].state]
  }

  ghost predicate Agrees(view: map<int, Runtime>, current: map<int, Runtime>) {
    forall id :: Read(view, id) == Read(current, id)
  }

  lemma {:induction false} AppliedEntry(view: map<int, Runtime>, changes: seq<Change>, id: int)
    requires Distinct(changes)
    ensures !Named(changes, id) ==> Read(Apply(view, changes), id) == Read(view, id)
    ensures forall i :: 0 <= i < |changes| && changes[i].id == id ==> Read(Apply(view, changes), id) == changes[i].state
  {
    if changes != [] {
      AppliedEntry(view, changes[..|changes| - 1], id);
      NamedGrows(changes[..|changes| - 1], changes);
      if changes[|changes| - 1].id == id {
        assert Named(changes, id);
      }
    }
  }

  /** After a tick the client agrees with the server if and only if it agreed beforehand on every box that did not
      differ, since those are the boxes it hears nothing about. */
  lemma AgreesAfterIff(prev: map<int, Runtime>, current: map<int, Runtime>, changes: seq<Change>, view: map<int, Runtime>)
    requires IsDiff(prev, current, changes)
    ensures Agrees(Apply(view, changes), current)
            <==> forall id :: Differs(prev, current, id) || Read(view, id) == Read(current, id)
  {
    forall id
      ensures Read(Apply(view, changes), id) == Read(current, id)
              <==> Differs(prev, current, id) || Read(view, id) == Read(current, id)
    {
      AppliedEntry(view, changes, id);
      if Differs(prev, current, id) {
        assert Named(changes, id);
      } else {
        assert !Named(changes, id);
      }
    }
  }

  // ----- runs of ticks and snapshots -----

  /** A snapshot replaces what the client knows. */
  datatype Event = Tick(current: map<int, Runtime>, changes: seq<Change>) | Snapshot(items: map<int, Runtime>)

  /** What the next tick of the run will find; the state does not move if there is none. */
  function NextState(state: map<int, Runtime>, events: seq<Event>): map<int, Runtime> {
    if events == [] then state
    else if events[0].Tick? then events[0].current else NextState(state, events[1..])
  }

  /** Every entry is as it was at the last tick or as it will be at the next. */
  ghost predicate Between(view: map<int, Runtime>, prev: map<int, Runtime>, next: map<int, Runtime>) {
    forall id :: Read(view, id) == Read(prev, id) || Read(view, id) == Read(next, id)
  }

  /** The ticks send diffs, and no box changes and changes back between two ticks under a snapshot's eyes. */
  ghost predicate Steady(state: map<int, Runtime>, events: seq<Event>)
    decreases events
  {
    events == [] ||
    (match events[0]
     case Tick(current, changes) => IsDiff(state, current, changes) && Steady(current, events[1..])
     case Snapshot(items) => Between(items, state, NextState(state, events[1..])) && Steady(state, events[1..]))
  }

  function StateAfter(state: map<int, Runtime>, events: seq<Event>): map<int, Runtime>
    decreases events
  {
    if events == [] then state
    else StateAfter(if events[0].Tick? then events[0].current else state, events[1..])
  }

  function ViewAfter(view: map<int, Runtime>, events: seq<Event>): map<int, Runtime>
    decreases events
  {
    if events == [] then view
    else ViewAfter(if events[0].Tick? then Apply(view, events[0].changes) else events[0].items, events[1..])
  }

  lemma TickAgrees(prev: map<int, Runtime>, current: map<int, Runtime>, changes: seq<Change>, view: map<int, Runtime>)
    requires IsDiff(prev, current, changes) && Between(view, prev, current)
    ensures Agrees(Apply(view, changes), current)
  {
    forall id
      ensures Differs(prev, current, id) || Read(view, id) == Read(current, id)
    {
      assert Read(view, id) == Read(prev, id) || Read(view, id) == Read(current, id);
    }
    AgreesAfterIff(prev, current, changes, view);
  }

  lemma {:induction false} StaysBetween(state: map<int, Runtime>, events: seq<Event>, view: map<int, Runtime>)
    requires Steady(state, events) && Between(view, state, NextState(state, events))
    ensures Between(ViewAfter(view, events), StateAfter(state, events), StateAfter(state, events))
    decreases events
  {
    if events != [] {
      match events[0]
      case Tick(current, changes) =>
        TickAgrees(state, current, changes, view);
        StaysBetween(current, events[1..], Apply(view, changes));
      case Snapshot(items) =>
        StaysBetween(state, events[1..], items);
    }
  }

  /** Over every run of ticks and steady snapshots, a client that starts out between two ticks agrees with the server
      after the last tick. */
  lemma AgreesOverRuns(state: map<int, Runtime>, events: seq<Event>, view: map<int, Runtime>)
    requires Steady(state, events) && Between(view, state, NextState(state, events))
    ensures Agrees(ViewAfter(view, events), StateAfter(state, events))
  {
    StaysBetween(state, events, view);
  }

  // ----- one box over a run of ticks -----

  /** The run consists of ticks. */
  ghost predicate Ticks(state: map<int, Runtime>, events: seq<Event>)
    decreases events
  {
    events == [] || (events[0].Tick? && IsDiff(state, events[0].current, events[0].changes) && Ticks(events[0].current, events[1..]))
  }

  /** No tick of the run finds the box different from the tick before. */
  predicate LeavesAlone(state: map<int, Runtime>, events: seq<Event>, id: int)
    decreases events
  {
    events == [] ||
    (events[0].Tick? && !Differs(state, events[0].current, id) && LeavesAlone(events[0].current, events[1..], id))
  }

  lemma TickEntry(prev: map<int, Runtime>, current: map<int, Runtime>, changes: seq<Change>, view: map<int, Runtime>, id: int)
    requires IsDiff(prev, current, changes)
    ensures Read(Apply(view, changes), id) == if Differs(prev, current, id) then Read(current, id) else Read(view, id)
    ensures !Differs(prev, current, id) ==> Read(current, id) == Read(prev, id)
  {
    AppliedEntry(view, changes, id);
    if Differs(prev, current, id) {
      assert Named(changes, id);
    } else {
      assert !Named(changes, id);
    }
  }

  /** After a run of ticks the client's entry for a box is right if and only if it was right before or some tick of
      the run found the box different. */
  lemma {:induction false} EntryRightIff(state: map<int, Runtime>, events: seq<Event>, view: map<int, Runtime>, id: int)
    requires Ticks(state, events)
    ensures Read(ViewAfter(view, events), id) == Read(StateAfter(state, events), id)
            <==> Read(view, id) == Read(state, id) || !LeavesAlone(state, events, id)
    decreases events
  {
    if events != [] {
      var Tick(current, changes) := events[0];
      TickEntry(state, current, changes, view, id);
      hide IsDiff, Apply;
      EntryRightIff(current, events[1..], Apply(view, changes), id);
    }
  }

  /** A state that only a snapshot saw stays with the client through every later tick that leaves the box alone. */
  lemma Flicker(state: map<int, Runtime>, seen: map<int, Runtime>, events: seq<Event>, view: map<int, Runtime>, id: int)
    requires Ticks(state, events) && LeavesAlone(state, events, id) && Read(seen, id) != Read(state, id)
    ensures var run := [Snapshot(seen)] + events;
            Read(ViewAfter(view, run), id) != Read(StateAfter(state, run), id)
  {
    var run := [Snapshot(seen)] + events;
    assert run[1..] == events;
    EntryRightIff(state, events, seen, id);
  }
}
