/** Every handler of the call manager keeps the invariant, hence every run does. */
module CallPreservation {
  import opened Wrappers
  import opened Strings
  import opened CallModel
  import opened CallInvariants

  // ----- every handler keeps the invariant -----

  /** A session being set up gets its last fields `c` and is then closed. */
  lemma AbandonKeeps(s: State, id: nat, c: Session, how: Closer, endOk: bool)
    requires CallsInv(s, {id}, {}) && id in s.sessions
    requires OnceOnly(c) && !c.closeOnce && c.logID == s.sessions[id].logID && c.user !in s.byUser
    ensures CallsInv(Close(s.(sessions := s.sessions[id := c]), id, how, endOk), {}, {})
  {
    hide SessionsOk, OpenExactly, UsersOk, SipOk, RowsOk, OnceOnly, Close;
    SetUpKeeps(s, id, c, {id});
    CloseKeeps(s.(sessions := s.sessions[id := c]), id, how, endOk, {id});
    assert {id} - {id} == {};
  }

  lemma CompleteKeeps(s: State, id: nat, c: Session, sipCallID: string)
    requires CallsInv(s, {id}, {}) && id in s.sessions
    requires OnceOnly(c) && !c.closeOnce && c.logID == s.sessions[id].logID && c.user !in s.byUser && c.readyOnce
    ensures CallsInv(Register(s.(sessions := s.sessions[id := c]), id, sipCallID), {}, {})
  {
    hide SessionsOk, OpenExactly, UsersOk, SipOk, RowsOk, OnceOnly, Register;
    SetUpKeeps(s, id, c, {id});
    RegisterKeeps(s.(sessions := s.sessions[id := c]), id, sipCallID);
  }

  lemma SessionInSetup(s: State, id: nat)
    requires CallsInv(s, {id}, {})
    ensures id in s.sessions && OnceOnly(s.sessions[id]) && !s.sessions[id].closeOnce
    ensures s.sessions[id].user !in s.byUser
  {
    hide RowsOk;
  }

  lemma DialKeeps(s: State, id: nat, user: int, box: int, env: DialEnv)
    requires CallsInv(s, {id}, {}) && id in s.sessions && user !in s.byUser
    ensures CallsInv(Dial(s, id, user, box, env).0, {}, {})
  {
    hide CallsInv, Close, Register;
    SessionInSetup(s, id);
    var c := s.sessions[id].(user := user, box := box);
    var c2 := c.(dialog := ClientDialog);
    if !env.publicIP {
      AbandonKeeps(s, id, c, Closer(false, "failed", "media public ip missing"), env.endOk);
    } else if env.inviteError.Some? {
      AbandonKeeps(s, id, c, Closer(false, "failed", env.inviteError.value), env.endOk);
    } else if !env.answerSDP {
      AbandonKeeps(s, id, c2, Closer(true, "failed", "bad remote SDP"), env.endOk);
    } else {
      CompleteKeeps(s, id, MarkReady(c2), env.sipCallID);
    }
  }

  lemma SetUpMediaKeeps(s: State, logOk: bool, user: int, box: int, status: string, media: Media, endOk: bool)
    requires CallsInv(s, {}, {})
    ensures var (s1, logID) := CreateLog(s, logOk, user, box, status);
            var (s2, created) := CreateWebRTCSide(s1, media, logID, endOk);
            CallsInv(s2, if created.Some? then {created.value} else {}, {})
  {
    hide CallsInv, CreateWebRTCSide;
    CreateLogKeeps(s, logOk, user, box, status, {});
    var (s1, logID) := CreateLog(s, logOk, user, box, status);
    CreateWebRTCSideKeeps(s1, media, logID, endOk, {});
    assert forall k: nat :: {} + {k} == {k};
  }

  lemma SameInvitesKeep(s: State, t: State)
    requires InvitesInv(s) && SameInvites(s, t) && s.next <= t.next
    ensures InvitesInv(t)
  {
    hide TracesOk;
  }

  lemma StartCallKeeps(s: State, user: int, box: int, number: string, env: DialEnv)
    requires Inv(s)
    ensures Inv(StartCall(s, user, box, number, env).0)
  {
    DialledKeeps(s, user, box, number, env);
    hide CallsInv, InvitesInv, StartCall;
    SameInvitesKeep(s, StartCall(s, user, box, number, env).0);
  }

  lemma DialledKeeps(s: State, user: int, box: int, number: string, env: DialEnv)
    requires CallsInv(s, {}, {})
    ensures CallsInv(StartCall(s, user, box, number, env).0, {}, {})
  {
    hide CallsInv, CreateWebRTCSide, Dial;
    if Trim(number) != "" && user !in s.byUser && env.box == Found && env.registration == Found {
      SetUpMediaKeeps(s, env.logOk, user, box, "dialing", env.media, env.endOk);
      var (s1, logID) := CreateLog(s, env.logOk, user, box, "dialing");
      var (s2, created) := CreateWebRTCSide(s1, env.media, logID, env.endOk);
      if created.Some? {
        DialKeeps(s2, created.value, user, box, env);
      }
    }
  }

  lemma PendingInvite(s: State, inv: nat)
    requires InvitesInv(s) && inv in s.incoming
    ensures s.incoming[inv] == inv && inv in s.invites
    ensures InviteOk(s.invites[inv], inv, true, Trace(s.events, inv))
  {
    hide InviteOk;
  }

  lemma FinishIsRejectUnanswered(s: State, inv: nat, reason: string)
    requires inv in s.invites && !s.invites[inv].ended && !s.invites[inv].connected
    ensures FinishInbound(s, inv, reason) == RejectAndFinish(s, inv, false, reason)
  {
    var s1 := RejectWithResponse(s, inv, false).0;
    assert FinishInbound(s1, inv, reason).invites == FinishInbound(s, inv, reason).invites;
  }

  /** Ending a pending invite, with or without a rejecting response. */
  lemma EndInviteKeeps(s: State, inv: nat, respondOk: bool, reason: string)
    requires Inv(s) && inv in s.incoming
    ensures inv in s.invites
    ensures Inv(RejectAndFinish(s, inv, respondOk, reason)) && Inv(FinishInbound(s, inv, reason))
  {
    hide SessionsOk, OpenExactly, UsersOk, SipOk, RowsOk, InvitesOk, TraceOk, RejectAndFinish, FinishInbound;
    PendingInvite(s, inv);
    RejectAndFinishKeeps(s, inv, respondOk, reason);
    RejectAndFinishKeeps(s, inv, false, reason);
    FinishIsRejectUnanswered(s, inv, reason);
  }

  lemma UpdateTraces(invites: map<nat, Invite>, incoming: map<nat, nat>, events: seq<Event>, inv: nat, j: Invite)
    requires TracesOk(invites, incoming, events) && inv in invites
    requires InviteOk(j, inv, inv in incoming, Trace(events, inv))
    ensures TracesOk(invites[inv := j], incoming, events)
  {
    hide InviteOk;
    forall k | k in invites
      ensures InviteOk(invites[inv := j][k], k, k in incoming, Trace(events, k))
    {
      assert InviteOk(invites[k], k, k in incoming, Trace(events, k));
    }
  }

  /** An invite may change owner or timer while it is pending. */
  lemma UpdateInviteKeeps(s: State, inv: nat, j: Invite)
    requires InvitesInv(s) && inv in s.incoming && inv in s.invites
    requires InviteOk(j, inv, true, Trace(s.events, inv))
    ensures InvitesInv(s.(invites := s.invites[inv := j]))
  {
    hide InviteOk, TracesOk;
    UpdateTraces(s.invites, s.incoming, s.events, inv, j);
  }

  lemma AnsweredKeeps(s: State, inv: nat, t: State)
    requires InvitesInv(s) && inv in s.incoming
    requires var i := s.invites[inv];
             && i.answeredBy in i.users && !i.armed
             && t.invites == s.invites[inv := i.(connected := true)]
             && t.incoming == s.incoming - {inv}
             && t.events == s.events + [Event(Answered, inv, i.users, i.answeredBy, "answered")]
             && t.next >= s.next
    ensures InvitesInv(t)
  {
    hide InvitesOk;
    PendingInvite(s, inv);
    var i := s.invites[inv];
    var e := Event(Answered, inv, i.users, i.answeredBy, "answered");
    var j := i.(connected := true);
    TerminalTrace(i, j, inv, Trace(s.events, inv), e);
    TerminalEvent(s, inv, j, e, t);
  }

  lemma ConnectKeeps(s: State, id: nat, user: int, inv: nat, env: AcceptEnv)
    requires CallsInv(s, {id}, {}) && id in s.sessions && user !in s.byUser
    requires InvitesInv(s) && inv in s.incoming && inv in s.invites
    requires s.invites[inv].answeredBy == user && user in s.invites[inv].users && !s.invites[inv].armed
    ensures Inv(Connect(s, id, user, inv, env).0)
  {
    hide SessionsOk, OpenExactly, UsersOk, SipOk, RowsOk, Close, Register, InvitesOk, RejectAndFinish, FinishInbound;
    SessionInSetup(s, id);
    var i := s.invites[inv];
    var c := s.sessions[id];
    if !env.publicIP {
      var how := Closer(false, "failed", "media public ip missing");
      AbandonKeeps(s, id, c, how, env.endOk);
      assert s.sessions[id := c] == s.sessions;
      EndInviteKeeps(Close(s, id, how, env.endOk), inv, env.rejectOk, "media public ip missing");
    } else {
      var c1 := MarkReady(c.(user := user, box := i.box, dialog := ServerDialog));
      var s1 := s.(sessions := s.sessions[id := c1]);
      if !env.answerOk {
        var how := Closer(false, "failed", "respond sip answer failed");
        AbandonKeeps(s, id, c1, how, env.endOk);
        EndInviteKeeps(Close(s1, id, how, env.endOk), inv, true, "sip answer failed");
      } else {
        CompleteKeeps(s, id, c1, i.sipCallID);
        var t := Connect(s, id, user, inv, env).0;
        ConnectedShape(s, id, user, inv, env);
        AnsweredKeeps(s, inv, t);
      }
    }
  }

  lemma ConnectedShape(s: State, id: nat, user: int, inv: nat, env: AcceptEnv)
    requires id in s.sessions && inv in s.invites && env.publicIP && env.answerOk
    ensures var t := Connect(s, id, user, inv, env).0;
            var i := s.invites[inv];
            var c := MarkReady(s.sessions[id].(user := user, box := i.box, dialog := ServerDialog));
            && t.next == s.next
            && SameCalls(Register(s.(sessions := s.sessions[id := c]), id, i.sipCallID), t)
            && t.invites == s.invites[inv := i.(connected := true)]
            && t.incoming == s.incoming - {inv}
            && t.events == s.events + [Event(Answered, inv, i.users, i.answeredBy, "answered")]
  {}

  lemma AnswerKeeps(s: State, user: int, inv: nat, env: AcceptEnv)
    requires Inv(s) && inv in s.incoming && inv in s.invites && user !in s.byUser
    requires s.invites[inv].answeredBy == user && user in s.invites[inv].users && !s.invites[inv].armed
    ensures Inv(Answer(s, user, inv, env).0)
  {
    hide SessionsOk, OpenExactly, UsersOk, SipOk, RowsOk, CreateWebRTCSide, Connect, RejectAndFinish;
    var box := s.invites[inv].box;
    SetUpMediaKeeps(s, env.logOk, user, box, "connecting", env.media, env.endOk);
    var (s1, logID) := CreateLog(s, env.logOk, user, box, "connecting");
    var (s2, created) := CreateWebRTCSide(s1, env.media, logID, env.endOk);
    if created.None? {
      EndInviteKeeps(s2, inv, env.rejectOk, "accept failed");
    } else {
      ConnectKeeps(s2, created.value, user, inv, env);
    }
  }

  lemma AcceptIncomingKeeps(s: State, user: int, inviteID: nat, env: AcceptEnv)
    requires Inv(s)
    ensures Inv(AcceptIncoming(s, user, inviteID, env).0)
  {
    hide SessionsOk, OpenExactly, UsersOk, SipOk, RowsOk, Answer, InvitesOk;
    if inviteID in s.incoming {
      PendingInvite(s, inviteID);
      var i := s.invites[inviteID];
      if user in i.users && user !in s.byUser {
        var j := i.(answeredBy := user, armed := false);
        UpdateInviteKeeps(s, inviteID, j);
        AnswerKeeps(s.(invites := s.invites[inviteID := j]), user, inviteID, env);
      }
    }
  }

  lemma RejectIncomingKeeps(s: State, user: int, inviteID: nat, reason: string, respondOk: bool)
    requires Inv(s)
    ensures Inv(RejectIncoming(s, user, inviteID, reason, respondOk).0)
  {
    hide SessionsOk, OpenExactly, UsersOk, SipOk, RowsOk, FinishInbound, InvitesOk;
    if inviteID in s.incoming {
      PendingInvite(s, inviteID);
      var i := s.invites[inviteID];
      UpdateInviteKeeps(s, inviteID, i.(armed := false));
      var why := if Trim(reason) == "" then "declined" else reason;
      EndInviteKeeps(s, inviteID, true, why);
    }
  }

  lemma StepKeeps(s: State, op: Op)
    requires Inv(s)
    ensures Inv(Step(s, op))
  {
    hide SessionsOk, OpenExactly, UsersOk, SipOk, RowsOk, StartCall, AcceptIncoming, RejectIncoming, Close, OnIncomingInvite;
    match op
    case Dials(user, box, number, env) => StartCallKeeps(s, user, box, number, env);
    case Arrives(box, sipCallID, env) => ArrivesKeeps(s, box, sipCallID, env);
    case Accepts(user, invite, env) => AcceptIncomingKeeps(s, user, invite, env);
    case Rejects(user, invite, reason, respondOk) => RejectIncomingKeeps(s, user, invite, reason, respondOk);
    case Expires(invite, respondOk) => InviteTimersKeep(s, invite, respondOk);
    case Cancels(invite) => InviteTimersKeep(s, invite, true);
    case Byes(callID, endOk) =>
      if callID in s.bySIP && s.bySIP[callID] in s.sessions {
        CloseKeepsInv(s, s.bySIP[callID], Closer(false, "ended", "remote hangup"), endOk);
      }
    case Closes(session, how, endOk) =>
      if session in s.sessions { CloseKeepsInv(s, session, how, endOk); }
  }

  lemma ArrivesKeeps(s: State, box: int, sipCallID: string, env: RingEnv)
    requires Inv(s)
    ensures Inv(OnIncomingInvite(s, box, sipCallID, env))
  {
    hide RowsOk;
    OnIncomingInviteKeeps(s, box, sipCallID, env);
  }

  lemma InviteTimersKeep(s: State, inv: nat, respondOk: bool)
    requires Inv(s)
    ensures Inv(TimerFires(s, inv, respondOk)) && Inv(DialogDone(s, inv))
  {
    hide SessionsOk, OpenExactly, UsersOk, SipOk, RowsOk, RejectAndFinish, FinishInbound;
    if inv in s.invites {
      assert InviteOk(s.invites[inv], inv, inv in s.incoming, Trace(s.events, inv));
      if inv in s.incoming {
        EndInviteKeeps(s, inv, respondOk, "timeout");
        EndInviteKeeps(s, inv, respondOk, "remote canceled");
      }
    }
  }

  lemma CloseKeepsInv(s: State, id: nat, how: Closer, endOk: bool)
    requires Inv(s) && id in s.sessions
    ensures Inv(Close(s, id, how, endOk))
  {
    hide SessionsOk, OpenExactly, UsersOk, SipOk, RowsOk;
    CloseKeeps(s, id, how, endOk, {});
    assert {} - {id} == {};
  }

  /** Every reachable state satisfies the invariant. */
  lemma {:induction false} RunKeeps(s: State, ops: seq<Op>)
    requires Inv(s)
    ensures Inv(Run(s, ops))
    decreases ops
  {
    hide Inv, Step;
    if ops != [] {
      StepKeeps(s, ops[0]);
      RunKeeps(Step(s, ops[0]), ops[1..]);
    }
  }

  lemma EmptyInv()
    ensures Inv(EMPTY)
  {
    assert Positive(LogMap(map[], map[], {})) == {};
    assert OpenRows([]) == {};
  }
}
