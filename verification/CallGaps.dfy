/**
 What the gaps between the locks still allow: exactly when an answered invite can be stopped
 as well, a session that stays registered for ever, and short runs that reach these states.
 */
module CallGaps {
  import opened CallInterleaving
  import opened CallInterleavingSafety
  import opened CallLatch

  // ----- when an answered invite can still be stopped -----

  /** The thread has passed its checks on invite `i` and can still reach finishInbound. */
  ghost predicate CanEnd(pc: Pc, i: nat, users: set<int>) {
    match pc
    case AcceptLog(_, j) => j == i
    case AcceptSetUp(_, j, _) => j == i
    case AcceptAssign(_, j, _) => j == i
    case AcceptAnswer(j, _) => j == i
    case CloseOnce(_, _, after) => after == ThenReject(i) || after == ThenFinish(i)
    case CloseBye(_, _, after) => after == ThenReject(i) || after == ThenFinish(i)
    case CloseUnregister(_, after) => after == ThenReject(i) || after == ThenFinish(i)
    case CloseLog(_, after) => after == ThenReject(i) || after == ThenFinish(i)
    case EndRow(_, after) => after == ThenReject(i) || after == ThenFinish(i)
    case CloseDone(_, after) => after == ThenReject(i) || after == ThenFinish(i)
    case RejectAllowed(user, j) => j == i && user in users
    case Respond(j, _) => j == i
    case FinishEnd(j) => j == i
    case _ => false
  }

  /** The invite was answered and has left the table; nothing has ended it. */
  ghost predicate Answered(s: Shared, i: nat) {
    && i in s.invites && s.invites[i].connected && !s.invites[i].ended && !s.invites[i].armed
    && i in s.entered && i !in s.incoming
  }

  ghost predicate Quiet(s: State, i: nat) {
    && Answered(s.shared, i)
    && forall t <- s.threads :: !CanEnd(s.threads[t], i, s.shared.invites[i].users)
  }

  ghost predicate StaysQuiet(s: Shared, r: (Shared, Pc), i: nat)
    requires i in s.invites
  {
    && Answered(r.0, i) && r.0.invites[i].users == s.invites[i].users
    && !CanEnd(r.1, i, s.invites[i].users)
  }

  lemma ClaimQuiet(s: Shared, pc: Pc, choice: Choice, i: nat)
    requires Answered(s, i) && !CanEnd(pc, i, s.invites[i].users) && IsClaim(pc) && pc.invite in s.invites
    ensures StaysQuiet(s, ExecClaim(s, pc, s.invites[pc.invite], choice), i)
  {
    hide NewSession, Observe;
  }

  lemma AnswerQuiet(s: Shared, pc: Pc, choice: Choice, i: nat)
    requires Answered(s, i) && !CanEnd(pc, i, s.invites[i].users) && IsAnswer(pc) && pc.invite in s.invites
    ensures StaysQuiet(s, ExecAnswer(s, pc, s.invites[pc.invite], choice), i)
  {
    hide Assign, Register, Observe;
  }

  lemma AcceptQuiet(s: Shared, pc: Pc, choice: Choice, i: nat)
    requires Answered(s, i) && !CanEnd(pc, i, s.invites[i].users) && IsAccept(pc) && pc.invite in s.invites
    ensures StaysQuiet(s, ExecAccept(s, pc, s.invites[pc.invite], choice), i)
  {
    hide ExecClaim, ExecAnswer, StaysQuiet, CanEnd;
    if IsClaim(pc) { ClaimQuiet(s, pc, choice, i); } else { AnswerQuiet(s, pc, choice, i); }
  }

  lemma EndQuiet(s: Shared, pc: Pc, choice: Choice, i: nat)
    requires Answered(s, i) && !CanEnd(pc, i, s.invites[i].users) && IsEnd(pc) && pc.invite in s.invites
    ensures StaysQuiet(s, ExecEnd(s, pc, s.invites[pc.invite], choice), i)
  {
    hide Observe;
    if pc.invite == i { OtherInvite(pc, i, s.invites[i].users); }
  }

  /** A thread that cannot end an invite is at an earlier check of it, or at the end of another. */
  lemma OtherInvite(pc: Pc, i: nat, users: set<int>)
    requires IsEnd(pc) && !CanEnd(pc, i, users) && pc.invite == i
    ensures pc.RejectLookup? || (pc.RejectAllowed? && pc.user !in users) || pc.CancelCheck?
            || pc.FinishRemove? || pc.FinishEmit? || pc.FinishClose?
  {}

  lemma DialQuiet(s: Shared, pc: Pc, choice: Choice, i: nat)
    requires Answered(s, i) && !CanEnd(pc, i, s.invites[i].users) && IsDial(pc)
    ensures StaysQuiet(s, ExecDial(s, pc, choice), i)
  {
    hide NewSession, Assign, OpenDialog, Register;
  }

  lemma CloseQuiet(s: Shared, pc: Pc, choice: Choice, i: nat)
    requires Answered(s, i) && !CanEnd(pc, i, s.invites[i].users)
    ensures StaysQuiet(s, ExecClose(s, pc, choice), i)
  {
    hide Unregister, Observe, EndLog;
  }

  lemma ExecQuiet(s: Shared, pc: Pc, choice: Choice, i: nat)
    requires Answered(s, i) && !CanEnd(pc, i, s.invites[i].users)
    requires s.next !in s.invites && TokenOf(pc) != Inserting(i)
    ensures StaysQuiet(s, Exec(s, pc, choice), i)
  {
    hide ExecAccept, ExecEnd, ExecDial, ExecClose;
    if IsAccept(pc) {
      if pc.invite in s.invites { AcceptQuiet(s, pc, choice, i); }
    } else if IsEnd(pc) {
      if pc.invite in s.invites { EndQuiet(s, pc, choice, i); }
    } else if IsDial(pc) {
      DialQuiet(s, pc, choice, i);
    } else if !IsArrive(pc) {
      CloseQuiet(s, pc, choice, i);
    }
  }

  lemma ActQuiet(s: State, a: Action, i: nat)
    requires Inv(s) && Quiet(s, i)
    ensures Quiet(Act(s, a), i)
  {
    hide SharedInv, Exec, Count;
    match a
    case Spawn(t, pc) =>
    case Advance(t, choice) =>
      if t in s.threads {
        NextFree(s.shared);
        ExecQuiet(s.shared, s.threads[t], choice, i);
      }
  }

  lemma {:induction false} RunQuiet(s: State, actions: seq<Action>, i: nat)
    requires Inv(s) && Quiet(s, i)
    ensures Quiet(Run(s, actions), i)
    decreases actions
  {
    hide Inv, Quiet, Act;
    if actions != [] {
      ActQuiet(s, actions[0], i);
      ActKeeps(s, actions[0]);
      RunQuiet(Act(s, actions[0]), actions[1..], i);
    }
  }

  /** How many steps a thread may still take before finishInbound. */
  function Distance(pc: Pc): nat {
    match pc
    case AcceptAssign(_, _, _) => 8
    case AcceptAnswer(_, _) => 8
    case CloseOnce(_, _, _) => 7
    case CloseBye(_, _, _) => 6
    case CloseUnregister(_, _) => 5
    case CloseLog(_, _) => 4
    case CloseDone(_, _) => 3
    case AcceptLog(_, _) => 4
    case AcceptSetUp(_, _, _) => 3
    case EndRow(_, _) => 2
    case RejectAllowed(_, _) => 2
    case Respond(_, _) => 1
    case _ => 0
  }

  /** The invite has ended, or the thread can still end it and is closer to it. */
  ghost predicate GetsCloser(s: Shared, pc: Pc, r: (Shared, Pc), i: nat)
    requires i in s.invites
  {
    && i in r.0.invites
    && (r.0.invites[i].ended
        || (Answered(r.0, i) && r.0.invites[i].users == s.invites[i].users
            && CanEnd(r.1, i, s.invites[i].users) && Distance(r.1) < Distance(pc)))
  }

  lemma AcceptCloser(s: Shared, pc: Pc, i: nat)
    requires Answered(s, i) && CanEnd(pc, i, s.invites[i].users) && IsAccept(pc) && pc.invite in s.invites
    ensures GetsCloser(s, pc, ExecAccept(s, pc, s.invites[pc.invite], Fails), i)
  {
    hide NewSession, Assign, Register, Observe;
  }

  lemma EndCloser(s: Shared, pc: Pc, i: nat)
    requires Answered(s, i) && CanEnd(pc, i, s.invites[i].users) && IsEnd(pc) && pc.invite in s.invites
    ensures GetsCloser(s, pc, ExecEnd(s, pc, s.invites[pc.invite], Fails), i)
  {
    hide Observe;
  }

  lemma CloseCloser(s: Shared, pc: Pc, i: nat)
    requires Answered(s, i) && CanEnd(pc, i, s.invites[i].users) && !IsAccept(pc) && !IsEnd(pc)
    ensures GetsCloser(s, pc, ExecClose(s, pc, Fails), i) && !IsArrive(pc) && !IsDial(pc)
  {
    hide Unregister, Observe;
  }

  /** The step that brings a thread closer to ending the answered invite `i`, or ends it. */
  lemma Closer(s: Shared, pc: Pc, i: nat)
    requires Answered(s, i) && CanEnd(pc, i, s.invites[i].users)
    ensures GetsCloser(s, pc, Exec(s, pc, Fails), i)
  {
    if IsAccept(pc) || IsEnd(pc) { AboutTheInvite(pc, i, s.invites[i].users); }
    hide ExecAccept, ExecEnd, ExecClose, ExecDial, ExecArrive, CanEnd, Distance, GetsCloser;
    if IsAccept(pc) {
      AcceptCloser(s, pc, i);
    } else if IsEnd(pc) {
      EndCloser(s, pc, i);
    } else {
      CloseCloser(s, pc, i);
    }
  }

  lemma AboutTheInvite(pc: Pc, i: nat, users: set<int>)
    requires CanEnd(pc, i, users) && (IsAccept(pc) || IsEnd(pc))
    ensures pc.invite == i
  {}

  lemma {:induction false} SomeRunEnds(s: State, t: nat, i: nat) returns (actions: seq<Action>)
    requires t in s.threads && Answered(s.shared, i) && CanEnd(s.threads[t], i, s.shared.invites[i].users)
    ensures i in Run(s, actions).shared.invites && Run(s, actions).shared.invites[i].ended
    decreases Distance(s.threads[t])
  {
    var a := Advance(t, Fails);
    var next := Act(s, a);
    Closer(s.shared, s.threads[t], i);
    if next.shared.invites[i].ended {
      actions := [a];
      assert Run(next, []) == next;
    } else {
      hide Exec, CanEnd, Distance;
      var rest := SomeRunEnds(next, t, i);
      actions := [a] + rest;
    }
  }

  /** An answered invite that has left the table can be stopped as well, in some continuation, if and only if
      some thread had already passed its checks on the invite: finishInbound tests only `ended`. */
  lemma AnsweredCanBeStoppedIff(s: State, i: nat)
    requires Inv(s) && i in s.shared.invites && Answered(s.shared, i)
    ensures (exists t :: t in s.threads && CanEnd(s.threads[t], i, s.shared.invites[i].users))
            <==> exists actions :: i in Run(s, actions).shared.invites && Run(s, actions).shared.invites[i].ended
  {
    hide Inv, CanEnd, Answered;
    if t :| t in s.threads && CanEnd(s.threads[t], i, s.shared.invites[i].users) {
      var actions := SomeRunEnds(s, t, i);
    } else {
      forall actions
        ensures Answered(Run(s, actions).shared, i)
      {
        RunQuiet(s, actions, i);
      }
      NotEnded(i);
    }
  }

  lemma NotEnded(i: nat)
    ensures forall s: Shared :: Answered(s, i) ==> i in s.invites && !s.invites[i].ended
  {}

  // ----- a closed session that is registered late stays for ever -----

  predicate WillUnregister(pc: Pc, k: nat) {
    (pc.CloseBye? || pc.CloseUnregister?) && pc.session == k
  }

  /** The session is closed, yet registered, and nobody is about to unregister it. */
  ghost predicate Leaked(s: State, k: nat) {
    && k in s.shared.byID && k in s.shared.sessions && s.shared.sessions[k].closing
    && k < s.shared.next
    && forall t <- s.threads :: !WillUnregister(s.threads[t], k)
  }

  lemma ActLeaked(s: State, a: Action, k: nat)
    requires Leaked(s, k)
    ensures Leaked(Act(s, a), k)
  {
    if a.Advance? && a.thread in s.threads {
      ExecLeaked(s.shared, s.threads[a.thread], a.choice, k);
    }
  }

  ghost predicate StaysLeaked(r: (Shared, Pc), k: nat) {
    && k in r.0.byID && k in r.0.sessions && r.0.sessions[k].closing && k < r.0.next
    && !WillUnregister(r.1, k)
  }

  lemma ClaimLeaked(s: Shared, pc: Pc, choice: Choice, k: nat)
    requires k in s.byID && k in s.sessions && s.sessions[k].closing && k < s.next
    requires IsClaim(pc) && pc.invite in s.invites
    ensures StaysLeaked(ExecClaim(s, pc, s.invites[pc.invite], choice), k)
  {
    hide Observe;
  }

  lemma AnswerLeaked(s: Shared, pc: Pc, choice: Choice, k: nat)
    requires k in s.byID && k in s.sessions && s.sessions[k].closing && k < s.next
    requires IsAnswer(pc) && pc.invite in s.invites
    ensures StaysLeaked(ExecAnswer(s, pc, s.invites[pc.invite], choice), k)
  {
    hide Observe;
  }

  lemma AcceptLeaked(s: Shared, pc: Pc, choice: Choice, k: nat)
    requires k in s.byID && k in s.sessions && s.sessions[k].closing && k < s.next
    requires IsAccept(pc) && pc.invite in s.invites
    ensures StaysLeaked(ExecAccept(s, pc, s.invites[pc.invite], choice), k)
  {
    hide ExecClaim, ExecAnswer, StaysLeaked;
    if IsClaim(pc) { ClaimLeaked(s, pc, choice, k); } else { AnswerLeaked(s, pc, choice, k); }
  }

  lemma EndLeaked(s: Shared, pc: Pc, choice: Choice, k: nat)
    requires k in s.byID && k in s.sessions && s.sessions[k].closing && k < s.next
    requires IsEnd(pc) && pc.invite in s.invites
    ensures StaysLeaked(ExecEnd(s, pc, s.invites[pc.invite], choice), k)
  {
    hide Observe;
  }

  lemma DialLeaked(s: Shared, pc: Pc, choice: Choice, k: nat)
    requires k in s.byID && k in s.sessions && s.sessions[k].closing && k < s.next && IsDial(pc)
    ensures StaysLeaked(ExecDial(s, pc, choice), k)
  {}

  lemma CloseLeaked(s: Shared, pc: Pc, choice: Choice, k: nat)
    requires k in s.byID && k in s.sessions && s.sessions[k].closing && k < s.next
    requires !WillUnregister(pc, k) && !IsDial(pc)
    ensures StaysLeaked(ExecClose(s, pc, choice), k)
  {}

  lemma ExecLeaked(s: Shared, pc: Pc, choice: Choice, k: nat)
    requires k in s.byID && k in s.sessions && s.sessions[k].closing && k < s.next
    requires !WillUnregister(pc, k)
    ensures StaysLeaked(Exec(s, pc, choice), k)
  {
    hide ExecAccept, ExecEnd, ExecDial, ExecClose;
    if IsAccept(pc) {
      if pc.invite in s.invites { AcceptLeaked(s, pc, choice, k); }
    } else if IsEnd(pc) {
      if pc.invite in s.invites { EndLeaked(s, pc, choice, k); }
    } else if IsDial(pc) {
      DialLeaked(s, pc, choice, k);
    } else if !IsArrive(pc) {
      CloseLeaked(s, pc, choice, k);
    }
  }

  /** `close` runs its body once, so a session registered after it stays in `callsByID` in every continuation. */
  lemma {:induction false} LeakedForEver(s: State, actions: seq<Action>, k: nat)
    requires Leaked(s, k)
    ensures Leaked(Run(s, actions), k)
    decreases actions
  {
    hide Leaked, Act;
    if actions != [] {
      ActLeaked(s, actions[0], k);
      LeakedForEver(Act(s, actions[0]), actions[1..], k);
    }
  }

  // ----- short runs into the gaps -----

  lemma {:induction false} RunMore(s: State, actions: seq<Action>, a: Action)
    ensures Run(s, actions + [a]) == Act(Run(s, actions), a)
    decreases actions
  {
    if actions == [] {
      assert [] + [a] == [a];
      assert Run(Act(s, a), []) == Act(s, a);
    } else {
      assert (actions + [a])[1..] == actions[1..] + [a];
      RunMore(Act(s, actions[0]), actions[1..], a);
    }
  }

  lemma EmptyRun()
    ensures Run(EMPTY, []) == EMPTY
  {}

  /** A run from the empty tables is prolonged by one action. */
  lemma Do(run: seq<Action>, s: State, a: Action) returns (more: seq<Action>, t: State)
    requires Run(EMPTY, run) == s
    ensures Run(EMPTY, more) == t && t == Act(s, a)
  {
    RunMore(EMPTY, run, a);
    more, t := run + [a], Act(s, a);
  }

  lemma OneDialled() returns (r: seq<Action>)
    ensures Run(EMPTY, r) == State(EMPTY.shared.(next := 1, rows := 1, sessions := map[0 := Session(0, 1, false, false)]),
                                   map[0 := DialAssign(7, "a", 0)])
  {
    hide Run, ExecAccept, ExecEnd, ExecArrive, ExecClose;
    EmptyRun();
    var s;
    r, s := Do([], EMPTY, Spawn(0, DialGuard(7, "a")));
    r, s := Do(r, s, Advance(0, Succeeds));
    assert s.threads == map[0 := DialLog(7, "a")];
    r, s := Do(r, s, Advance(0, Succeeds));
    assert s.threads == map[0 := DialSetUp(7, "a", 1)];
    r, s := Do(r, s, Advance(0, Succeeds));
    assert s.threads == map[0 := DialAssign(7, "a", 0)];
  }

  lemma ClosingWhileDialled() returns (r: seq<Action>)
    ensures Run(EMPTY, r) == State(EMPTY.shared.(next := 1, rows := 1, sessions := map[0 := Session(0, 1, false, true)]),
                                   map[0 := DialAssign(7, "a", 0), 1 := CloseBye(0, true, Nothing)])
  {
    hide Run, ExecAccept, ExecEnd, ExecArrive, ExecDial;
    r := OneDialled();
    var s := Run(EMPTY, r);
    r, s := Do(r, s, Spawn(1, CloseOnce(0, true, Nothing)));
    r, s := Do(r, s, Advance(1, Succeeds));
    assert s.threads == map[0 := DialAssign(7, "a", 0), 1 := CloseBye(0, true, Nothing)];
  }

  lemma ClosedWhileDialled() returns (r: seq<Action>)
    ensures Run(EMPTY, r) == State(EMPTY.shared.(next := 1, rows := 1, sessions := map[0 := Session(0, 1, false, true)]),
                                   map[0 := DialAssign(7, "a", 0), 1 := CloseLog(0, Nothing)])
  {
    hide Run, ExecAccept, ExecEnd, ExecArrive, ExecDial;
    r := ClosingWhileDialled();
    var s := Run(EMPTY, r);
    r, s := Do(r, s, Advance(1, Succeeds));
    assert s.threads == map[0 := DialAssign(7, "a", 0), 1 := CloseUnregister(0, Nothing)];
    r, s := Do(r, s, Advance(1, Succeeds));
    assert s.threads == map[0 := DialAssign(7, "a", 0), 1 := CloseLog(0, Nothing)];
  }

  lemma InvitedThoughClosed() returns (r: seq<Action>)
    ensures Run(EMPTY, r) == State(EMPTY.shared.(next := 1, rows := 1, sessions := map[0 := Session(7, 1, true, true)]),
                                   map[0 := DialRegister("a", 0), 1 := CloseLog(0, Nothing)])
  {
    hide Run, ExecAccept, ExecEnd, ExecArrive, ExecClose;
    r := ClosedWhileDialled();
    var s := Run(EMPTY, r);
    r, s := Do(r, s, Advance(0, Succeeds));
    assert s.threads == map[0 := DialInvite("a", 0), 1 := CloseLog(0, Nothing)];
    assert s.shared.sessions == map[0 := Session(7, 1, false, true)];
    r, s := Do(r, s, Advance(0, Succeeds));
    assert s.threads == map[0 := DialRegister("a", 0), 1 := CloseLog(0, Nothing)];
    assert s.shared.sessions == map[0 := Session(7, 1, true, true)];
  }

  /** A call whose peer connection fails while it is being dialled is closed before it is registered: the closed
      session then stays in `callsByID`, and its user is busy. */
  lemma ClosedBeforeRegistered()
    ensures exists run :: Leaked(Run(EMPTY, run), 0) && 7 in Run(EMPTY, run).shared.byUser
  {
    hide Run, ExecAccept, ExecEnd, ExecArrive, ExecClose;
    var r := InvitedThoughClosed();
    var s := Run(EMPTY, r);
    r, s := Do(r, s, Advance(0, Succeeds));
    assert Leaked(s, 0);
  }

  const FIRST := Session(7, 1, true, false)
  const SECOND := Session(0, 2, false, false)

  lemma SecondStarted() returns (r: seq<Action>)
    ensures Run(EMPTY, r) == State(EMPTY.shared.(next := 1, rows := 1, sessions := map[0 := Session(0, 1, false, false)]),
                                   map[0 := DialAssign(7, "a", 0), 1 := DialLog(7, "b")])
  {
    hide Run, ExecAccept, ExecEnd, ExecArrive, ExecClose;
    r := OneDialled();
    var s := Run(EMPTY, r);
    r, s := Do(r, s, Spawn(1, DialGuard(7, "b")));
    r, s := Do(r, s, Advance(1, Succeeds));
    assert s.threads == map[0 := DialAssign(7, "a", 0), 1 := DialLog(7, "b")];
  }

  lemma TwoDialled() returns (r: seq<Action>)
    ensures Run(EMPTY, r) == State(EMPTY.shared.(next := 2, rows := 2,
                                                 sessions := map[0 := Session(0, 1, false, false), 1 := SECOND]),
                                   map[0 := DialAssign(7, "a", 0), 1 := DialAssign(7, "b", 1)])
  {
    hide Run, ExecAccept, ExecEnd, ExecArrive, ExecClose;
    r := SecondStarted();
    var s := Run(EMPTY, r);
    r, s := Do(r, s, Advance(1, Succeeds));
    assert s.threads == map[0 := DialAssign(7, "a", 0), 1 := DialSetUp(7, "b", 2)];
    r, s := Do(r, s, Advance(1, Succeeds));
    assert s.threads == map[0 := DialAssign(7, "a", 0), 1 := DialAssign(7, "b", 1)];
  }

  lemma FirstInvited() returns (r: seq<Action>)
    ensures Run(EMPTY, r) == State(EMPTY.shared.(next := 2, rows := 2, sessions := map[0 := FIRST, 1 := SECOND]),
                                   map[0 := DialRegister("a", 0), 1 := DialAssign(7, "b", 1)])
  {
    hide Run, ExecAccept, ExecEnd, ExecArrive, ExecClose;
    r := TwoDialled();
    var s := Run(EMPTY, r);
    r, s := Do(r, s, Advance(0, Succeeds));
    assert s.threads == map[0 := DialInvite("a", 0), 1 := DialAssign(7, "b", 1)];
    assert s.shared.sessions == map[0 := FIRST.(dialog := false), 1 := SECOND];
    r, s := Do(r, s, Advance(0, Succeeds));
    assert s.threads == map[0 := DialRegister("a", 0), 1 := DialAssign(7, "b", 1)];
    assert s.shared.sessions == map[0 := FIRST, 1 := SECOND];
  }

  lemma FirstRegistered() returns (r: seq<Action>)
    ensures Run(EMPTY, r) == State(EMPTY.shared.(next := 2, rows := 2, sessions := map[0 := FIRST, 1 := SECOND],
                                   byID := map[0 := 0], bySIP := map["a" := 0], byUser := map[7 := 0]),
                                   map[0 := Done, 1 := DialAssign(7, "b", 1)])
  {
    hide Run, ExecAccept, ExecEnd, ExecArrive, ExecClose;
    r := FirstInvited();
    var s := Run(EMPTY, r);
    r, s := Do(r, s, Advance(0, Succeeds));
    assert s.threads == map[0 := Done, 1 := DialAssign(7, "b", 1)];
    assert s.shared.byID == map[0 := 0] && s.shared.bySIP == map["a" := 0] && s.shared.byUser == map[7 := 0];
  }

  /** Two calls of user 7 are registered; `callsByUser` knows the second. */
  ghost predicate BothRegistered(s: State) {
    && s.shared.sessions == map[0 := FIRST, 1 := Session(7, 2, true, false)]
    && s.shared.byID == map[0 := 0, 1 := 1] && s.shared.byUser == map[7 := 1]
    && s.threads == map[0 := Done, 1 := Done]
  }

  lemma SecondInvited() returns (r: seq<Action>)
    ensures Run(EMPTY, r) == State(EMPTY.shared.(next := 2, rows := 2,
                                                 sessions := map[0 := FIRST, 1 := Session(7, 2, true, false)],
                                                 byID := map[0 := 0], bySIP := map["a" := 0], byUser := map[7 := 0]),
                                   map[0 := Done, 1 := DialRegister("b", 1)])
  {
    hide Run, ExecAccept, ExecEnd, ExecArrive, ExecClose;
    r := FirstRegistered();
    var s := Run(EMPTY, r);
    r, s := Do(r, s, Advance(1, Succeeds));
    assert s.threads == map[0 := Done, 1 := DialInvite("b", 1)];
    assert s.shared.sessions == map[0 := FIRST, 1 := Session(7, 2, false, false)];
    r, s := Do(r, s, Advance(1, Succeeds));
    assert s.threads == map[0 := Done, 1 := DialRegister("b", 1)];
    assert s.shared.sessions == map[0 := FIRST, 1 := Session(7, 2, true, false)];
  }

  lemma TwoRegistered() returns (r: seq<Action>)
    ensures BothRegistered(Run(EMPTY, r))
  {
    hide Run, ExecAccept, ExecEnd, ExecArrive;
    r := SecondInvited();
    var s := Run(EMPTY, r);
    r, s := Do(r, s, Advance(1, Succeeds));
    assert s.threads == map[0 := Done, 1 := Done];
    assert s.shared.byID == map[0 := 0, 1 := 1] && s.shared.byUser == map[7 := 1];
  }

  /** The first call is live, and `callsByUser` has lost its user. */
  ghost predicate EntryLost(s: State) {
    && 7 !in s.shared.byUser && 0 in s.shared.byID && 0 in s.shared.sessions && s.shared.sessions[0] == FIRST
  }

  lemma SecondCloses() returns (r: seq<Action>)
    ensures var s := Run(EMPTY, r);
            && s.shared.byID == map[0 := 0, 1 := 1] && s.shared.byUser == map[7 := 1]
            && s.shared.sessions == map[0 := FIRST, 1 := Session(7, 2, true, true)]
            && s.threads == map[0 := Done, 1 := Done, 2 := CloseUnregister(1, Nothing)]
  {
    hide Run, ExecAccept, ExecEnd, ExecArrive, ExecDial;
    r := TwoRegistered();
    var s := Run(EMPTY, r);
    r, s := Do(r, s, Spawn(2, CloseOnce(1, false, Nothing)));
    r, s := Do(r, s, Advance(2, Succeeds));
    assert s.threads == map[0 := Done, 1 := Done, 2 := CloseBye(1, false, Nothing)];
    assert s.shared.sessions == map[0 := FIRST, 1 := Session(7, 2, true, true)];
    r, s := Do(r, s, Advance(2, Succeeds));
    assert s.threads == map[0 := Done, 1 := Done, 2 := CloseUnregister(1, Nothing)];
  }

  lemma SecondClosed() returns (r: seq<Action>)
    ensures EntryLost(Run(EMPTY, r))
  {
    hide Run, ExecAccept, ExecEnd, ExecArrive;
    r := SecondCloses();
    var s := Run(EMPTY, r);
    r, s := Do(r, s, Advance(2, Succeeds));
  }

  /** The guard against a second call and the registration are separate critical sections: two calls of one user
      can both be registered, and closing one then takes away the user's entry while the other is live. */
  lemma TwoCallsOfOneUser()
    ensures exists run :: BothRegistered(Run(EMPTY, run))
    ensures exists run :: EntryLost(Run(EMPTY, run))
  {
    hide *;
    var first := TwoRegistered();
    var second := SecondClosed();
  }

  const RUNG := Invite({1, 2}, "c", true, false, false, 0)

  lemma OneArmed() returns (r: seq<Action>)
    ensures Run(EMPTY, r) == State(EMPTY.shared.(next := 1, invites := map[0 := RUNG]), map[0 := ArriveInsert(0)])
  {
    hide Run, ExecAccept, ExecEnd, ExecDial, ExecClose;
    EmptyRun();
    var s;
    r, s := Do([], EMPTY, Spawn(0, ArriveArm({1, 2}, "c")));
    r, s := Do(r, s, Advance(0, Succeeds));
    assert s.threads == map[0 := ArriveInsert(0)] && s.shared.invites == map[0 := RUNG];
  }

  lemma OneRinging() returns (r: seq<Action>)
    ensures Run(EMPTY, r) == State(EMPTY.shared.(next := 1, invites := map[0 := RUNG], incoming := {0}, entered := {0}),
                                   map[0 := ArriveEmit(0)])
  {
    hide Run, ExecAccept, ExecEnd, ExecDial, ExecClose;
    r := OneArmed();
    var s := Run(EMPTY, r);
    r, s := Do(r, s, Advance(0, Succeeds));
    assert s.threads == map[0 := ArriveEmit(0)];
  }

  /** User 2 rejects and is past the lookup and the check, when user 1 accepts. */
  lemma RejectStarted() returns (r: seq<Action>)
    ensures Run(EMPTY, r) == State(EMPTY.shared.(next := 1, invites := map[0 := RUNG], incoming := {0}, entered := {0}),
                                   map[0 := ArriveEmit(0), 1 := RejectAllowed(2, 0), 2 := AcceptLookup(1, 0)])
  {
    hide Run, ExecAccept, ExecDial, ExecClose, ExecArrive;
    r := OneRinging();
    var s := Run(EMPTY, r);
    r, s := Do(r, s, Spawn(1, RejectLookup(2, 0)));
    r, s := Do(r, s, Advance(1, Succeeds));
    assert s.threads == map[0 := ArriveEmit(0), 1 := RejectAllowed(2, 0)];
    r, s := Do(r, s, Spawn(2, AcceptLookup(1, 0)));
    assert s.threads == map[0 := ArriveEmit(0), 1 := RejectAllowed(2, 0), 2 := AcceptLookup(1, 0)];
  }

  lemma AcceptClaiming() returns (r: seq<Action>)
    ensures Run(EMPTY, r) == State(EMPTY.shared.(next := 1, invites := map[0 := RUNG], incoming := {0}, entered := {0}),
                                   map[0 := ArriveEmit(0), 1 := RejectAllowed(2, 0), 2 := AcceptClaim(1, 0)])
  {
    hide Run, ExecEnd, ExecDial, ExecClose, ExecArrive, ExecAnswer;
    r := RejectStarted();
    var s := Run(EMPTY, r);
    r, s := Do(r, s, Advance(2, Succeeds));
    assert s.threads[2] == AcceptAllowed(1, 0);
    r, s := Do(r, s, Advance(2, Succeeds));
    assert s.threads[2] == AcceptGuard(1, 0);
    r, s := Do(r, s, Advance(2, Succeeds));
    assert s.threads == map[0 := ArriveEmit(0), 1 := RejectAllowed(2, 0), 2 := AcceptClaim(1, 0)];
  }

  /** The accept has claimed the invite and answers it with session 1. */
  ghost predicate Answering(s: State) {
    && s.threads == map[0 := ArriveEmit(0), 1 := RejectAllowed(2, 0), 2 := AcceptAnswer(0, 1)]
    && s.shared.invites == map[0 := RUNG.(armed := false, answeredBy := 1)]
    && s.shared.incoming == {0} && s.shared.entered == {0} && s.shared.sessions == map[1 := Session(1, 1, true, false)]
  }

  lemma AcceptAnswering() returns (r: seq<Action>)
    ensures Answering(Run(EMPTY, r))
  {
    hide Run, ExecEnd, ExecDial, ExecClose, ExecArrive;
    r := AcceptClaiming();
    var s := Run(EMPTY, r);
    r, s := Do(r, s, Advance(2, Succeeds));
    assert s.threads == map[0 := ArriveEmit(0), 1 := RejectAllowed(2, 0), 2 := AcceptLog(1, 0)];
    r, s := Do(r, s, Advance(2, Succeeds));
    assert s.threads == map[0 := ArriveEmit(0), 1 := RejectAllowed(2, 0), 2 := AcceptSetUp(1, 0, 1)];
    r, s := Do(r, s, Advance(2, Succeeds));
    assert s.threads == map[0 := ArriveEmit(0), 1 := RejectAllowed(2, 0), 2 := AcceptAssign(1, 0, 1)];
    r, s := Do(r, s, Advance(2, Succeeds));
    assert Answering(s);
  }

  ghost predicate Registering(s: State) {
    && s.threads == map[0 := ArriveEmit(0), 1 := RejectAllowed(2, 0), 2 := AcceptRegister(0, 1)]
    && s.shared.invites == map[0 := RUNG.(armed := false, answeredBy := 1, connected := true)]
    && s.shared.entered == {0} && s.shared.sessions == map[1 := Session(1, 1, true, false)]
  }

  lemma AcceptRegistering() returns (r: seq<Action>)
    ensures Registering(Run(EMPTY, r))
  {
    hide Run, ExecEnd, ExecDial, ExecClose, ExecArrive, ExecClaim;
    r := AcceptAnswering();
    var s := Run(EMPTY, r);
    r, s := Do(r, s, Advance(2, Succeeds));
    assert s.threads == map[0 := ArriveEmit(0), 1 := RejectAllowed(2, 0), 2 := AcceptConnect(0, 1)];
    r, s := Do(r, s, Advance(2, Succeeds));
    assert Registering(s);
  }

  ghost predicate Removing(s: State) {
    && s.threads == map[0 := ArriveEmit(0), 1 := RejectAllowed(2, 0), 2 := AcceptRemove(0)]
    && s.shared.invites == map[0 := RUNG.(armed := false, answeredBy := 1, connected := true)]
    && s.shared.entered == {0} && 1 in s.shared.byID
  }

  lemma AcceptRemoving() returns (r: seq<Action>)
    ensures Removing(Run(EMPTY, r))
  {
    hide Run, ExecEnd, ExecDial, ExecClose, ExecArrive, ExecClaim;
    r := AcceptRegistering();
    var s := Run(EMPTY, r);
    r, s := Do(r, s, Advance(2, Succeeds));
    assert s.threads == map[0 := ArriveEmit(0), 1 := RejectAllowed(2, 0), 2 := AcceptRemove(0)];
  }

  lemma RejectAfterAnswer() returns (r: seq<Action>)
    ensures var s := Run(EMPTY, r);
            && 1 in s.threads && s.threads[1] == RejectAllowed(2, 0)
            && Answered(s.shared, 0) && s.shared.invites[0].users == {1, 2} && 1 in s.shared.byID
  {
    hide Run, ExecEnd, ExecDial, ExecClose, ExecArrive, ExecClaim;
    r := AcceptRemoving();
    var s := Run(EMPTY, r);
    r, s := Do(r, s, Advance(2, Succeeds));
  }

  /** A reject that is past its checks when another user answers still ends the invite afterwards: the call that
      was answered is live, yet a Stopped event goes out and its dialog is closed. */
  lemma AnsweredThenStopped()
    ensures exists run, more :: var s := Run(EMPTY, run);
                                && Answered(s.shared, 0) && 1 in s.shared.byID
                                && 0 in Run(s, more).shared.invites && Run(s, more).shared.invites[0].ended
  {
    var r := RejectAfterAnswer();
    hide Run, Answered;
    var s := Run(EMPTY, r);
    var more := SomeRunEnds(s, 1, 0);
    assert Run(EMPTY, r) == s;
  }
}
