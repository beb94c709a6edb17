/** How often an invite can be answered when accepts interleave: a claim does not shut out another. */
module CallAnswers {
  import opened CallInterleaving
  import opened CallInterleavingSafety
  import opened CallLatch
  import opened CallGaps
  import opened CallRegistration

  /** The thread has claimed invite `i` and can still announce the answer. */
  ghost predicate CanAnswer(pc: Pc, i: nat) {
    match pc
    case AcceptLog(_, j) => j == i
    case AcceptSetUp(_, j, _) => j == i
    case AcceptAssign(_, j, _) => j == i
    case AcceptAnswer(j, _) => j == i
    case AcceptConnect(j, _) => j == i
    case AcceptRegister(j, _) => j == i
    case AcceptRemove(j) => j == i
    case AcceptEmit(j) => j == i
    case _ => false
  }

  ghost function Answers(s: Shared, i: nat): nat {
    Count(s.trace, AnsweredSent(i))
  }

  /** What the step observes, if anything. */
  ghost predicate Sees(s: Shared, t: Shared, i: nat, answered: bool) {
    || (t.trace == s.trace && !answered)
    || exists e :: t.trace == s.trace + [e] && (e == AnsweredSent(i) <==> answered)
  }

  lemma SeenAnswers(s: Shared, t: Shared, i: nat, answered: bool)
    requires Sees(s, t, i, answered)
    ensures Answers(t, i) == Answers(s, i) + if answered then 1 else 0
  {
    if t.trace != s.trace {
      var e :| t.trace == s.trace + [e] && (e == AnsweredSent(i) <==> answered);
      CountAppend(s.trace, e, AnsweredSent(i));
    }
  }

  lemma SeesOne(s: Shared, t: Shared, i: nat, e: Observed)
    requires t.trace == s.trace + [e]
    ensures Sees(s, t, i, e == AnsweredSent(i))
  {}

  // ----- no further answer -----

  ghost predicate Connected(s: Shared, i: nat) {
    i in s.invites && s.invites[i].connected
  }

  /** The invite stays connected, no answer is announced, and the thread cannot come to announce one. */
  ghost predicate Quiet(s: Shared, r: (Shared, Pc), i: nat) {
    Connected(r.0, i) && !CanAnswer(r.1, i) && Sees(s, r.0, i, false)
  }

  lemma ClaimQuietly(s: Shared, pc: Pc, choice: Choice, i: nat)
    requires Connected(s, i) && !CanAnswer(pc, i) && IsClaim(pc) && pc.invite in s.invites
    ensures Quiet(s, ExecClaim(s, pc, s.invites[pc.invite], choice), i)
  {
    var t := ExecClaim(s, pc, s.invites[pc.invite], choice).0;
    hide NewSession;
    if t.trace != s.trace { SeesOne(s, t, i, Claimed(pc.invite)); }
  }

  lemma AnswerQuietly(s: Shared, pc: Pc, choice: Choice, i: nat)
    requires Connected(s, i) && !CanAnswer(pc, i) && IsAnswer(pc) && pc.invite in s.invites
    ensures Quiet(s, ExecAnswer(s, pc, s.invites[pc.invite], choice), i)
  {
    var t := ExecAnswer(s, pc, s.invites[pc.invite], choice).0;
    hide Assign, Register;
    if pc.AcceptAnswer? && t.trace != s.trace { SeesOne(s, t, i, OkSent(pc.invite)); }
    if pc.AcceptEmit? { SeesOne(s, t, i, AnsweredSent(pc.invite)); }
  }

  lemma EndQuietly(s: Shared, pc: Pc, choice: Choice, i: nat)
    requires Connected(s, i) && IsEnd(pc) && pc.invite in s.invites
    ensures Quiet(s, ExecEnd(s, pc, s.invites[pc.invite], choice), i)
  {
    var t, j := ExecEnd(s, pc, s.invites[pc.invite], choice).0, pc.invite;
    if t.trace != s.trace {
      SeesOne(s, t, i, if pc.Respond? then RejectSent(j) else if pc.FinishEmit? then StoppedSent(j) else DialogClosed(j));
    }
  }

  lemma DialQuietly(s: Shared, pc: Pc, choice: Choice, i: nat)
    requires Connected(s, i) && IsDial(pc)
    ensures Quiet(s, ExecDial(s, pc, choice), i)
  {
    hide NewSession, Assign, OpenDialog, Register;
  }

  lemma CloseQuietly(s: Shared, pc: Pc, choice: Choice, i: nat)
    requires Connected(s, i) && IsClose(pc)
    ensures Quiet(s, ExecClose(s, pc, choice), i)
  {
    var t := ExecClose(s, pc, choice).0;
    hide Unregister;
    if t.trace != s.trace {
      SeesOne(s, t, i,
              if pc.CloseBye? then ByeSent(pc.session)
              else if pc.CloseLog? then RowEnded(s.sessions[pc.session].row)
              else if pc.EndRow? then RowEnded(pc.row) else CallEnded(pc.session));
    }
  }

  lemma ArriveQuietly(s: Shared, pc: Pc, i: nat)
    requires Connected(s, i) && IsArrive(pc) && s.next !in s.invites
    ensures Quiet(s, ExecArrive(s, pc), i)
  {
    var t := ExecArrive(s, pc).0;
    if pc.ArriveEmit? { SeesOne(s, t, i, RingingSent(pc.invite)); }
  }

  lemma ExecQuietly(s: Shared, pc: Pc, choice: Choice, i: nat)
    requires Connected(s, i) && !CanAnswer(pc, i) && s.next !in s.invites
    ensures Quiet(s, Exec(s, pc, choice), i)
  {
    hide ExecClaim, ExecAnswer, ExecEnd, ExecDial, ExecClose, ExecArrive;
    if IsAccept(pc) {
      if pc.invite in s.invites {
        if IsClaim(pc) { ClaimQuietly(s, pc, choice, i); } else { AnswerQuietly(s, pc, choice, i); }
      }
    } else if IsEnd(pc) {
      if pc.invite in s.invites { EndQuietly(s, pc, choice, i); }
    } else if IsArrive(pc) {
      ArriveQuietly(s, pc, i);
    } else if IsDial(pc) {
      DialQuietly(s, pc, choice, i);
    } else {
      CloseQuietly(s, pc, choice, i);
    }
  }

  ghost predicate NoMore(s: State, i: nat, answers: nat) {
    Connected(s.shared, i) && Answers(s.shared, i) == answers && forall t <- s.threads :: !CanAnswer(s.threads[t], i)
  }

  lemma ActNoMore(s: State, a: Action, i: nat)
    requires Inv(s) && NoMore(s, i, Answers(s.shared, i))
    ensures NoMore(Act(s, a), i, Answers(s.shared, i))
  {
    hide SharedInv, Exec, Count, TokenOf, TokenOk, Sees;
    match a
    case Spawn(t, pc) =>
    case Advance(t, choice) =>
      if t in s.threads {
        NextFree(s.shared);
        ExecQuietly(s.shared, s.threads[t], choice, i);
        SeenAnswers(s.shared, Exec(s.shared, s.threads[t], choice).0, i, false);
      }
  }

  lemma {:induction false} RunNoMore(s: State, actions: seq<Action>, i: nat)
    requires Inv(s) && NoMore(s, i, Answers(s.shared, i))
    ensures Answers(Run(s, actions).shared, i) == Answers(s.shared, i)
    decreases actions
  {
    hide Inv, NoMore, Act, Answers;
    if actions != [] {
      ActNoMore(s, actions[0], i);
      ActKeeps(s, actions[0]);
      NoMoreIs(Act(s, actions[0]), i, Answers(s.shared, i));
      RunNoMore(Act(s, actions[0]), actions[1..], i);
    }
  }

  lemma NoMoreIs(s: State, i: nat, answers: nat)
    requires NoMore(s, i, answers)
    ensures Answers(s.shared, i) == answers
  {}

  // ----- one answer more -----

  function Left(pc: Pc): nat {
    match pc
    case AcceptLog(_, _) => 8
    case AcceptSetUp(_, _, _) => 7
    case AcceptAssign(_, _, _) => 6
    case AcceptAnswer(_, _) => 5
    case AcceptConnect(_, _) => 4
    case AcceptRegister(_, _) => 3
    case AcceptRemove(_) => 2
    case _ => 1
  }

  /** The answer is announced, or the thread has come closer to it. */
  ghost predicate Nears(s: Shared, pc: Pc, r: (Shared, Pc), i: nat) {
    && i in r.0.invites && Sees(s, r.0, i, pc.AcceptEmit?)
    && (!pc.AcceptEmit? ==> CanAnswer(r.1, i) && Left(r.1) < Left(pc))
  }

  lemma ClaimNears(s: Shared, pc: Pc, i: nat)
    requires i in s.invites && IsClaim(pc) && CanAnswer(pc, i)
    ensures pc.invite == i && Nears(s, pc, ExecClaim(s, pc, s.invites[i], Succeeds), i)
  {
    hide NewSession;
  }

  lemma AnswerNears(s: Shared, pc: Pc, i: nat)
    requires i in s.invites && IsAnswer(pc) && CanAnswer(pc, i)
    ensures pc.invite == i && Nears(s, pc, ExecAnswer(s, pc, s.invites[i], Succeeds), i)
  {
    hide Assign, Register;
    var t := ExecAnswer(s, pc, s.invites[i], Succeeds).0;
    if pc.AcceptAnswer? { SeesOne(s, t, i, OkSent(i)); }
    if pc.AcceptEmit? { SeesOne(s, t, i, AnsweredSent(i)); }
  }

  lemma AcceptNears(s: Shared, pc: Pc, i: nat)
    requires i in s.invites && CanAnswer(pc, i)
    ensures IsAccept(pc) && pc.invite == i && Nears(s, pc, ExecAccept(s, pc, s.invites[i], Succeeds), i)
  {
    hide ExecClaim, ExecAnswer, Nears;
    if IsClaim(pc) { ClaimNears(s, pc, i); } else { AnswerNears(s, pc, i); }
  }

  lemma AnswerStep(s: State, t: nat, i: nat)
    requires t in s.threads && i in s.shared.invites && CanAnswer(s.threads[t], i)
    ensures var u := Act(s, Advance(t, Succeeds));
            && t in u.threads && u.threads == s.threads[t := u.threads[t]] && i in u.shared.invites
            && Answers(u.shared, i) == Answers(s.shared, i) + (if s.threads[t].AcceptEmit? then 1 else 0)
            && (!s.threads[t].AcceptEmit? ==> CanAnswer(u.threads[t], i) && Left(u.threads[t]) < Left(s.threads[t]))
  {
    hide ExecAccept, CanAnswer, Left, Sees, Answers;
    AcceptNears(s.shared, s.threads[t], i);
    SeenAnswers(s.shared, Act(s, Advance(t, Succeeds)).shared, i, s.threads[t].AcceptEmit?);
  }

  lemma {:induction false} SomeRunAnswers(s: State, t: nat, i: nat) returns (actions: seq<Action>)
    requires t in s.threads && i in s.shared.invites && CanAnswer(s.threads[t], i)
    ensures var u := Run(s, actions);
            && Answers(u.shared, i) == Answers(s.shared, i) + 1 && i in u.shared.invites
            && t in u.threads && u.threads == s.threads[t := u.threads[t]]
    decreases Left(s.threads[t])
  {
    hide Act, CanAnswer, Left, Answers;
    var a := Advance(t, Succeeds);
    var u := Act(s, a);
    AnswerStep(s, t, i);
    if s.threads[t].AcceptEmit? {
      actions := [a];
      assert Run(u, []) == u;
    } else {
      var rest := SomeRunAnswers(u, t, i);
      actions := [a] + rest;
      assert actions[1..] == rest;
    }
  }

  /** An invite that is connected is announced as answered again, in some continuation, if and only if some thread
      had claimed it before and has not announced its own answer: a claim does not shut out another. */
  lemma AnsweredAgainIff(s: State, i: nat)
    requires Inv(s) && i in s.shared.invites && s.shared.invites[i].connected
    ensures (exists t <- s.threads :: CanAnswer(s.threads[t], i))
            <==> exists actions :: Answers(Run(s, actions).shared, i) > Answers(s.shared, i)
  {
    hide Inv, CanAnswer, Answers, Run;
    if t :| t in s.threads && CanAnswer(s.threads[t], i) {
      var actions := SomeRunAnswers(s, t, i);
    } else {
      assert NoMore(s, i, Answers(s.shared, i));
      forall actions
        ensures Answers(Run(s, actions).shared, i) == Answers(s.shared, i)
      {
        RunNoMore(s, actions, i);
      }
    }
  }

  // ----- a run with two answers -----

  lemma BothAsk() returns (r: seq<Action>)
    ensures Run(EMPTY, r) == State(EMPTY.shared.(next := 1, invites := map[0 := RUNG], incoming := {0}, entered := {0}),
                                   map[0 := ArriveEmit(0), 1 := AcceptLookup(1, 0), 2 := AcceptLookup(2, 0)])
  {
    hide Run, ExecAccept, ExecEnd, ExecArrive, ExecDial, ExecClose;
    r := OneRinging();
    var s := Run(EMPTY, r);
    r, s := Do(r, s, Spawn(1, AcceptLookup(1, 0)));
    r, s := Do(r, s, Spawn(2, AcceptLookup(2, 0)));
    assert s.threads == map[0 := ArriveEmit(0), 1 := AcceptLookup(1, 0), 2 := AcceptLookup(2, 0)];
  }

  lemma FirstMayClaim() returns (r: seq<Action>)
    ensures Run(EMPTY, r) == State(EMPTY.shared.(next := 1, invites := map[0 := RUNG], incoming := {0}, entered := {0}),
                                   map[0 := ArriveEmit(0), 1 := AcceptClaim(1, 0), 2 := AcceptLookup(2, 0)])
  {
    hide Run, ExecAnswer, ExecEnd, ExecArrive, ExecDial, ExecClose;
    r := BothAsk();
    var s := Run(EMPTY, r);
    r, s := Do(r, s, Advance(1, Succeeds));
    assert s.threads[1] == AcceptAllowed(1, 0);
    r, s := Do(r, s, Advance(1, Succeeds));
    assert s.threads[1] == AcceptGuard(1, 0);
    r, s := Do(r, s, Advance(1, Succeeds));
    assert s.threads == map[0 := ArriveEmit(0), 1 := AcceptClaim(1, 0), 2 := AcceptLookup(2, 0)];
  }

  lemma BothMayClaim() returns (r: seq<Action>)
    ensures Run(EMPTY, r) == State(EMPTY.shared.(next := 1, invites := map[0 := RUNG], incoming := {0}, entered := {0}),
                                   map[0 := ArriveEmit(0), 1 := AcceptClaim(1, 0), 2 := AcceptClaim(2, 0)])
  {
    hide Run, ExecAnswer, ExecEnd, ExecArrive, ExecDial, ExecClose;
    r := FirstMayClaim();
    var s := Run(EMPTY, r);
    r, s := Do(r, s, Advance(2, Succeeds));
    assert s.threads[2] == AcceptAllowed(2, 0);
    r, s := Do(r, s, Advance(2, Succeeds));
    assert s.threads[2] == AcceptGuard(2, 0);
    r, s := Do(r, s, Advance(2, Succeeds));
    assert s.threads == map[0 := ArriveEmit(0), 1 := AcceptClaim(1, 0), 2 := AcceptClaim(2, 0)];
  }

  lemma BothClaimed() returns (r: seq<Action>)
    ensures var s := Run(EMPTY, r);
            && 1 in s.threads && 2 in s.threads && CanAnswer(s.threads[1], 0) && CanAnswer(s.threads[2], 0)
            && 0 in s.shared.invites
  {
    hide Run, ExecAnswer, ExecEnd, ExecArrive, ExecDial, ExecClose;
    r := BothMayClaim();
    var s := Run(EMPTY, r);
    r, s := Do(r, s, Advance(1, Succeeds));
    r, s := Do(r, s, Advance(2, Succeeds));
  }

  /** Two users who accept at once can both be told that they have the call. */
  lemma AnsweredTwice()
    ensures exists run :: Answers(Run(EMPTY, run).shared, 0) >= 2
  {
    hide Run, CanAnswer, Answers;
    var first := BothClaimed();
    var s := Run(EMPTY, first);
    var second := SomeRunAnswers(s, 1, 0);
    var u := Run(s, second);
    assert u.threads[2] == s.threads[2];
    var third := SomeRunAnswers(u, 2, 0);
    RunInTwo(EMPTY, first, second);
    RunInTwo(EMPTY, first + second, third);
    assert Answers(Run(EMPTY, first + second + third).shared, 0) >= 2;
  }
}
