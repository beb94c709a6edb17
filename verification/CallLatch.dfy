/** The latches of an invite hold in every interleaving. */
module CallLatch {
  import opened CallInterleaving
  import opened CallInterleavingSafety

  /** What one step may do to the flags and to the table of ringing invites. */
  ghost predicate FlagsLatched(s: Shared, t: Shared, tok: Token) {
    && (forall i <- s.invites ::
          && i in t.invites
          && (s.invites[i].ended ==> t.invites[i].ended)
          && (s.invites[i].connected ==> t.invites[i].connected))
    && s.entered <= t.entered
    && (forall i <- t.incoming :: i in s.incoming || tok == Inserting(i))
  }

  /** What one step may send. */
  ghost predicate SendsLatched(s: Shared, t: Shared) {
    || t.trace == s.trace
    || (|t.trace| == |s.trace| + 1 && t.trace[..|s.trace|] == s.trace
        && var e := t.trace[|s.trace|];
           e.RejectSent? || e.Claimed? ==>
             e.invite in s.invites && !s.invites[e.invite].ended && !s.invites[e.invite].connected)
  }

  ghost predicate Latched(s: Shared, t: Shared, tok: Token) {
    FlagsLatched(s, t, tok) && SendsLatched(s, t)
  }

  lemma DialLatched(s: Shared, pc: Pc, choice: Choice)
    ensures Latched(s, ExecDial(s, pc, choice).0, TokenOf(pc))
  {
    hide NewSession, Assign, OpenDialog, Register;
  }

  lemma CloseLatched(s: Shared, pc: Pc, choice: Choice)
    ensures Latched(s, ExecClose(s, pc, choice).0, TokenOf(pc))
  {
    hide Unregister;
  }

  lemma ClaimFlags(s: Shared, pc: Pc, choice: Choice)
    requires IsClaim(pc) && pc.invite in s.invites
    ensures FlagsLatched(s, ExecClaim(s, pc, s.invites[pc.invite], choice).0, TokenOf(pc))
  {
    hide FlagsLatched, NewSession, Observe, SetInvite, TokenOf;
    var v, tok := s.invites[pc.invite], TokenOf(pc);
    if pc.AcceptClaim? {
      var w := v.(answeredBy := pc.user, armed := false);
      SameFlags(s, tok);
      SetFlags(s, pc.invite, w, tok);
      ObserveFlags(s, SetInvite(s, pc.invite, w), Claimed(pc.invite), tok);
    } else {
      OtherFlags(s, ExecClaim(s, pc, v, choice).0, tok);
    }
  }

  lemma AnswerFlags(s: Shared, pc: Pc, choice: Choice)
    requires IsAnswer(pc) && pc.invite in s.invites
    ensures FlagsLatched(s, ExecAnswer(s, pc, s.invites[pc.invite], choice).0, TokenOf(pc))
  {
    hide FlagsLatched, Assign, Register, Observe, SetInvite, TokenOf;
    var v, tok := s.invites[pc.invite], TokenOf(pc);
    if pc.AcceptConnect? {
      SetFlags(s, pc.invite, v.(connected := true), tok);
    } else if pc.AcceptRemove? {
      RemoveFlags(s, pc.invite, tok);
    } else {
      OtherFlags(s, ExecAnswer(s, pc, v, choice).0, tok);
    }
  }

  lemma AcceptFlags(s: Shared, pc: Pc, choice: Choice)
    requires IsAccept(pc) && pc.invite in s.invites
    ensures FlagsLatched(s, ExecAccept(s, pc, s.invites[pc.invite], choice).0, TokenOf(pc))
  {
    hide ExecClaim, ExecAnswer, FlagsLatched, TokenOf;
    if IsClaim(pc) { ClaimFlags(s, pc, choice); } else { AnswerFlags(s, pc, choice); }
  }

  lemma OtherFlags(s: Shared, t: Shared, tok: Token)
    ensures SameInvites(s, t) ==> FlagsLatched(s, t, tok)
  {}

  lemma AcceptSends(s: Shared, pc: Pc, choice: Choice)
    requires IsAccept(pc) && pc.invite in s.invites
    ensures SendsLatched(s, ExecAccept(s, pc, s.invites[pc.invite], choice).0)
  {
    hide NewSession, Assign, Register;
  }

  lemma AcceptLatched(s: Shared, pc: Pc, choice: Choice)
    requires IsAccept(pc) && pc.invite in s.invites
    ensures Latched(s, ExecAccept(s, pc, s.invites[pc.invite], choice).0, TokenOf(pc))
  {
    hide ExecAccept, FlagsLatched, SendsLatched;
    AcceptFlags(s, pc, choice);
    AcceptSends(s, pc, choice);
  }

  lemma EndFlags(s: Shared, pc: Pc, choice: Choice)
    requires IsEnd(pc) && pc.invite in s.invites
    ensures FlagsLatched(s, ExecEnd(s, pc, s.invites[pc.invite], choice).0, TokenOf(pc))
  {
    hide FlagsLatched, Observe, SetInvite, TokenOf;
    var v, tok := s.invites[pc.invite], TokenOf(pc);
    SameFlags(s, tok);
    match pc
    case Respond(i, _) =>
      SetFlags(s, i, v.(armed := false), tok);
      ObserveFlags(s, SetInvite(s, i, v.(armed := false)), RejectSent(i), tok);
    case FinishEnd(i) => SetFlags(s, i, v.(ended := true, armed := false), tok);
    case FinishRemove(i) => RemoveFlags(s, i, tok);
    case FinishEmit(i) => ObserveFlags(s, s, StoppedSent(i), tok);
    case FinishClose(i) => ObserveFlags(s, s, DialogClosed(i), tok);
    case _ =>
  }

  lemma SameFlags(s: Shared, tok: Token)
    ensures FlagsLatched(s, s, tok)
  {}

  lemma SetFlags(s: Shared, i: nat, v: Invite, tok: Token)
    requires i in s.invites && (s.invites[i].ended ==> v.ended) && (s.invites[i].connected ==> v.connected)
    ensures FlagsLatched(s, SetInvite(s, i, v), tok)
  {}

  lemma ObserveFlags(s: Shared, t: Shared, e: Observed, tok: Token)
    requires FlagsLatched(s, t, tok)
    ensures FlagsLatched(s, Observe(t, e), tok)
  {}

  lemma RemoveFlags(s: Shared, i: nat, tok: Token)
    ensures FlagsLatched(s, s.(incoming := s.incoming - {i}), tok)
  {}

  lemma EndSends(s: Shared, pc: Pc, choice: Choice)
    requires IsEnd(pc) && pc.invite in s.invites
    ensures SendsLatched(s, ExecEnd(s, pc, s.invites[pc.invite], choice).0)
  {}

  lemma EndLatched(s: Shared, pc: Pc, choice: Choice)
    requires IsEnd(pc) && pc.invite in s.invites
    ensures Latched(s, ExecEnd(s, pc, s.invites[pc.invite], choice).0, TokenOf(pc))
  {
    hide ExecEnd, FlagsLatched, SendsLatched;
    EndFlags(s, pc, choice);
    EndSends(s, pc, choice);
  }

  lemma ArriveLatched(s: Shared, pc: Pc)
    requires s.next !in s.invites
    ensures Latched(s, ExecArrive(s, pc).0, TokenOf(pc))
  {}

  lemma SameLatched(s: Shared, tok: Token)
    ensures Latched(s, s, tok)
  {}

  lemma ExecLatched(s: Shared, pc: Pc, choice: Choice)
    requires s.next !in s.invites
    ensures Latched(s, Exec(s, pc, choice).0, TokenOf(pc))
  {
    hide ExecAccept, ExecDial, ExecClose, ExecEnd, ExecArrive, FlagsLatched, SendsLatched, TokenOf;
    SameLatched(s, TokenOf(pc));
    if IsAccept(pc) && pc.invite in s.invites {
      AcceptLatched(s, pc, choice);
    } else if IsEnd(pc) && pc.invite in s.invites {
      EndLatched(s, pc, choice);
    } else if IsArrive(pc) {
      ArriveLatched(s, pc);
    } else if IsDial(pc) {
      DialLatched(s, pc, choice);
    } else if !IsAccept(pc) && !IsEnd(pc) {
      CloseLatched(s, pc, choice);
    }
  }

  /** From `s` on, nothing undoes the latches of invite `i`, and nothing more is claimed or rejected. */
  ghost predicate Holds(s: Shared, t: Shared, i: nat)
    requires i in s.invites
  {
    var v := s.invites[i];
    && i in t.invites
    && (v.ended ==> t.invites[i].ended)
    && (v.connected ==> t.invites[i].connected)
    && (v.ended || v.connected ==>
          && Count(t.trace, RejectSent(i)) == Count(s.trace, RejectSent(i))
          && Count(t.trace, Claimed(i)) == Count(s.trace, Claimed(i)))
    && (i in s.entered && i !in s.incoming ==> i in t.entered && i !in t.incoming)
  }

  lemma LatchedHolds(s: Shared, t: Shared, tok: Token, i: nat)
    requires Latched(s, t, tok) && i in s.invites
    requires tok == Inserting(i) ==> i !in s.entered
    ensures Holds(s, t, i)
  {
    if t.trace != s.trace {
      var e := t.trace[|s.trace|];
      assert t.trace == s.trace + [e];
      CountAppend(s.trace, e, RejectSent(i));
      CountAppend(s.trace, e, Claimed(i));
    }
  }

  lemma ActHolds(s: State, a: Action, i: nat)
    requires Inv(s) && i in s.shared.invites
    ensures Holds(s.shared, Act(s, a).shared, i)
  {
    hide SharedInv, Exec, Count, Latched, Starts;
    match a
    case Spawn(t, pc) =>
    case Advance(t, choice) =>
      if t in s.threads {
        NextFree(s.shared);
        ExecLatched(s.shared, s.threads[t], choice);
        LatchedHolds(s.shared, Exec(s.shared, s.threads[t], choice).0, TokenOf(s.threads[t]), i);
      }
  }

  lemma HoldsTransitive(s: Shared, t: Shared, u: Shared, i: nat)
    requires i in s.invites && Holds(s, t, i) && Holds(t, u, i)
    ensures Holds(s, u, i)
  {
    hide Count;
  }

  /** The latch: in every interleaving, from any reachable state on, `ended` and `connected` never revert,
      once one is set no rejecting response goes out and no accept passes its claim check, and an invite that
      has left the table of ringing invites never returns. */
  lemma {:induction false} InviteLatch(s: State, actions: seq<Action>, i: nat)
    requires Inv(s) && i in s.shared.invites
    ensures Holds(s.shared, Run(s, actions).shared, i)
    decreases actions
  {
    hide Inv, Act, Holds;
    if actions == [] {
      HoldsItself(s.shared, i);
    } else {
      ActHolds(s, actions[0], i);
      ActKeeps(s, actions[0]);
      HoldsInvites(s.shared, Act(s, actions[0]).shared, i);
      InviteLatch(Act(s, actions[0]), actions[1..], i);
      HoldsTransitive(s.shared, Act(s, actions[0]).shared, Run(s, actions).shared, i);
    }
  }

  lemma HoldsItself(s: Shared, i: nat)
    requires i in s.invites
    ensures Holds(s, s, i)
  {}

  lemma HoldsInvites(s: Shared, t: Shared, i: nat)
    requires i in s.invites && Holds(s, t, i)
    ensures i in t.invites
  {}

  // ----- who may answer -----

  /** The thread acts for a user to whom its invite is addressed. */
  ghost predicate RightUser(s: Shared, pc: Pc) {
    pc.AcceptGuard? || pc.AcceptClaim? || pc.AcceptLog? || pc.AcceptSetUp? || pc.AcceptAssign? ==>
      pc.invite in s.invites && pc.user in s.invites[pc.invite].users
  }

  ghost predicate AnsweredByTheirs(s: Shared) {
    forall i <- s.invites :: s.invites[i].answeredBy == 0 || s.invites[i].answeredBy in s.invites[i].users
  }

  ghost predicate UsersStay(s: Shared, t: Shared) {
    forall i <- s.invites :: i in t.invites && t.invites[i].users == s.invites[i].users
  }

  /** The step keeps the addressees, and lets only them on. */
  ghost predicate Theirs(s: Shared, r: (Shared, Pc)) {
    RightUser(r.0, r.1) && AnsweredByTheirs(r.0) && UsersStay(s, r.0)
  }

  lemma SameTheirs(s: Shared, t: Shared, pc': Pc)
    requires t.invites == s.invites && AnsweredByTheirs(s) && RightUser(s, pc')
    ensures Theirs(s, (t, pc'))
  {}

  lemma ClaimTheirs(s: Shared, pc: Pc, choice: Choice)
    requires RightUser(s, pc) && AnsweredByTheirs(s) && IsClaim(pc) && pc.invite in s.invites
    ensures Theirs(s, ExecClaim(s, pc, s.invites[pc.invite], choice))
  {
    hide NewSession, Observe;
  }

  /** At most one invite changes, and keeps its addressees and who answers it. */
  lemma ChangedTheirs(s: Shared, r: (Shared, Pc), i: nat, v: Invite)
    requires AnsweredByTheirs(s) && i in s.invites && v.users == s.invites[i].users && v.answeredBy == s.invites[i].answeredBy
    requires r.0.invites == s.invites || r.0.invites == s.invites[i := v]
    requires IsEnd(r.1) || r.1.Done? || (IsAnswer(r.1) && !r.1.AcceptAssign?) || r.1.CloseOnce?
    ensures Theirs(s, r)
  {}

  lemma AnswerTheirs(s: Shared, pc: Pc, choice: Choice)
    requires AnsweredByTheirs(s) && IsAnswer(pc) && pc.invite in s.invites
    ensures Theirs(s, ExecAnswer(s, pc, s.invites[pc.invite], choice))
  {
    hide Assign, Register, Observe, AnsweredByTheirs, Theirs;
    var v := s.invites[pc.invite];
    ChangedTheirs(s, ExecAnswer(s, pc, v, choice), pc.invite, v.(connected := true));
  }

  lemma EndTheirs(s: Shared, pc: Pc, choice: Choice)
    requires AnsweredByTheirs(s) && IsEnd(pc) && pc.invite in s.invites
    ensures Theirs(s, ExecEnd(s, pc, s.invites[pc.invite], choice))
  {
    hide Observe, AnsweredByTheirs, Theirs;
    var v := s.invites[pc.invite];
    ChangedTheirs(s, ExecEnd(s, pc, v, choice), pc.invite,
                  if pc.Respond? then v.(armed := false) else v.(ended := true, armed := false));
  }

  lemma OtherTheirs(s: Shared, pc: Pc, choice: Choice)
    requires AnsweredByTheirs(s) && s.next !in s.invites
    ensures IsArrive(pc) ==> Theirs(s, ExecArrive(s, pc))
    ensures IsDial(pc) ==> Theirs(s, ExecDial(s, pc, choice))
  {
    hide NewSession, Assign, OpenDialog, Register, Observe;
  }

  lemma CloseTheirs(s: Shared, pc: Pc, choice: Choice)
    requires AnsweredByTheirs(s) && IsClose(pc)
    ensures Theirs(s, ExecClose(s, pc, choice))
  {
    hide Unregister, Observe, EndLog;
  }

  lemma ExecTheirs(s: Shared, pc: Pc, choice: Choice)
    requires RightUser(s, pc) && AnsweredByTheirs(s) && s.next !in s.invites
    ensures Theirs(s, Exec(s, pc, choice))
  {
    hide ExecClaim, ExecAnswer, ExecEnd, ExecArrive, ExecDial, ExecClose, AnsweredByTheirs;
    SameTheirs(s, s, Done);
    hide Theirs;
    if IsAccept(pc) {
      if pc.invite in s.invites {
        if IsClaim(pc) { ClaimTheirs(s, pc, choice); } else { AnswerTheirs(s, pc, choice); }
      }
    } else if IsEnd(pc) {
      if pc.invite in s.invites { EndTheirs(s, pc, choice); }
    } else if IsArrive(pc) || IsDial(pc) {
      OtherTheirs(s, pc, choice);
    } else {
      CloseTheirs(s, pc, choice);
    }
  }

  ghost predicate AllTheirs(s: State) {
    AnsweredByTheirs(s.shared) && forall t <- s.threads :: RightUser(s.shared, s.threads[t])
  }

  lemma ActTheirs(s: State, a: Action)
    requires Inv(s) && AllTheirs(s)
    ensures AllTheirs(Act(s, a))
  {
    hide SharedInv, Exec, TokenOf, TokenOk, Count;
    match a
    case Spawn(t, pc) =>
    case Advance(t, choice) =>
      if t in s.threads {
        NextFree(s.shared);
        ExecTheirs(s.shared, s.threads[t], choice);
      }
  }

  lemma {:induction false} RunTheirs(s: State, actions: seq<Action>)
    requires Inv(s) && AllTheirs(s)
    ensures AllTheirs(Run(s, actions))
    decreases actions
  {
    hide Inv, AllTheirs, Act;
    if actions != [] {
      ActTheirs(s, actions[0]);
      ActKeeps(s, actions[0]);
      RunTheirs(Act(s, actions[0]), actions[1..]);
    }
  }

  /** In every interleaving an invite is claimed only by users to whom it is addressed, and no accept of anybody else
      gets past its checks. */
  lemma OnlyAddresseesAnswer(actions: seq<Action>)
    ensures var s := Run(EMPTY, actions);
            && (forall i <- s.shared.invites ::
                  s.shared.invites[i].answeredBy == 0 || s.shared.invites[i].answeredBy in s.shared.invites[i].users)
            && forall t <- s.threads ::
                 s.threads[t].AcceptClaim? || s.threads[t].AcceptSetUp? || s.threads[t].AcceptAssign? ==>
                   && s.threads[t].invite in s.shared.invites
                   && s.threads[t].user in s.shared.invites[s.threads[t].invite].users
  {
    hide Run;
    assert Inv(EMPTY) && AllTheirs(EMPTY);
    hide Inv;
    RunTheirs(EMPTY, actions);
  }
}
