/** What the error exits of StartCall and AcceptIncoming leave behind: nothing but one ended log row. */
module CallFailures {
  import opened Wrappers
  import opened Strings
  import opened CallModel
  import opened CallInvariants
  import opened CallPreservation
  import opened CallGuarantees

  /** Every index and every earlier session is as before. */
  ghost predicate Untouched(s: State, t: State) {
    && t.byID == s.byID && t.bySIP == s.bySIP && t.byUser == s.byUser
    && t.sockets == s.sockets && t.peers == s.peers
    && forall k <- s.sessions :: k in t.sessions && t.sessions[k] == s.sessions[k]
  }

  /** Row `logID` of the log is ended once as failed, or lost if its ending update failed. */
  ghost predicate EndedOnce(rows: seq<Row>, lost: set<nat>, t: State, logID: nat, endOk: bool) {
    if endOk then
      t.lost == lost && exists why :: t.rows == EndRow(rows, logID, "failed", why)
    else
      t.rows == rows && t.lost == if 0 < logID <= |rows| then lost + {logID} else lost
  }

  /** The next session number and a user are in no index and no set of open media. */
  ghost predicate Unused(s: State, id: nat) {
    && id !in s.byID && id !in s.sessions && id !in s.sockets && id !in s.peers
    && forall c <- s.bySIP :: s.bySIP[c] != id
  }

  lemma NextUnused(s: State)
    requires Inv(s)
    ensures Unused(s, s.next)
  {
    hide InvitesInv, RowsOk, OnceOnly, UsersOk;
  }

  lemma DetachedFresh(s: State, logID: nat, c: Session, how: Closer)
    requires Unused(s, s.next) && c.user !in s.byUser
    ensures var o := OpenSession(s, logID);
            var d := Detached(o.(sessions := o.sessions[s.next := c]), s.next, how);
            Untouched(s, d) && d.rows == s.rows && d.lost == s.lost
  {
    var o := OpenSession(s, logID);
    var d := Detached(o.(sessions := o.sessions[s.next := c]), s.next, how);
    assert d.byID == s.byID && d.byUser == s.byUser && d.bySIP == s.bySIP;
    assert d.sockets == s.sockets && d.peers == s.peers;
  }

  lemma EndedAfter(s: State, d: State, logID: nat, endOk: bool, why: string)
    requires Untouched(s, d) && d.rows == s.rows && d.lost == s.lost
    ensures var t := EndLog(d, logID, endOk, "failed", why);
            Untouched(s, t) && EndedOnce(s.rows, s.lost, t, logID, endOk)
  {
    assert endOk ==> EndLog(d, logID, endOk, "failed", why).rows == EndRow(s.rows, logID, "failed", why);
  }

  /** A session opened in `s` is given the fields `c` and closed again. */
  lemma AbandonedSession(s: State, logID: nat, c: Session, how: Closer, endOk: bool)
    requires Unused(s, s.next) && how.status == "failed"
    requires c.logID == logID && !c.closeOnce && c.user !in s.byUser
    ensures var o := OpenSession(s, logID);
            var t := Close(o.(sessions := o.sessions[s.next := c]), s.next, how, endOk);
            Untouched(s, t) && EndedOnce(s.rows, s.lost, t, logID, endOk)
  {
    hide Untouched, EndedOnce, EndLog, Unregister, Closed;
    DetachedFresh(s, logID, c, how);
    var o := OpenSession(s, logID);
    EndedAfter(s, Detached(o.(sessions := o.sessions[s.next := c]), s.next, how), logID, endOk, how.reason);
  }

  lemma SocketIsReleased(s: State)
    requires Unused(s, s.next)
    ensures CloseSocket(OpenSocket(s), s.next) == s
  {
    assert s.sockets + {s.next} - {s.next} == s.sockets;
  }

  lemma FailedSetUp(s: State, media: Media, logID: nat, endOk: bool)
    requires Unused(s, s.next) && !media.Ready? && 0 !in s.byUser
    ensures var t := CreateWebRTCSide(s, media, logID, endOk).0;
            Untouched(s, t) && EndedOnce(s.rows, s.lost, t, logID, endOk)
  {
    hide EndedOnce, Close, EndLog, Unused;
    match media
    case SocketError => EndedAfter(s, s, logID, endOk, "rtp socket error");
    case PeerError =>
      SocketIsReleased(s);
      EndedAfter(s, s, logID, endOk, "webrtc create error");
    case SetupError(step) =>
      var o := OpenSession(s, logID);
      assert o.sessions[s.next := NewSession(logID)] == o.sessions;
      AbandonedSession(s, logID, NewSession(logID), Closer(false, "failed", SetupReason(step)), endOk);
  }

  lemma FailedDial(s: State, logID: nat, user: int, box: int, env: DialEnv)
    requires Unused(s, s.next) && user !in s.byUser
    requires Dial(OpenSession(s, logID), s.next, user, box, env).1.Err?
    ensures var t := Dial(OpenSession(s, logID), s.next, user, box, env).0;
            Untouched(s, t) && EndedOnce(s.rows, s.lost, t, logID, env.endOk)
  {
    hide Close, Untouched, EndedOnce, Unused, Register;
    var c := NewSession(logID).(user := user, box := box);
    if !env.publicIP {
      AbandonedSession(s, logID, c, Closer(false, "failed", "media public ip missing"), env.endOk);
    } else if env.inviteError.Some? {
      AbandonedSession(s, logID, c, Closer(false, "failed", env.inviteError.value), env.endOk);
    } else {
      AbandonedSession(s, logID, c.(dialog := ClientDialog), Closer(true, "failed", "bad remote SDP"), env.endOk);
    }
  }

  /** Every error exit of StartCall: either no log row was created and nothing changed at all, or the row it
      created is ended once as failed; the socket, the peer connection and the indexes are as before. */
  lemma FailedStartCall(s: State, user: int, box: int, number: string, env: DialEnv)
    requires Inv(s) && StartCall(s, user, box, number, env).1.Err?
    ensures var t := StartCall(s, user, box, number, env).0;
            var (s1, logID) := CreateLog(s, env.logOk, user, box, "dialing");
            Untouched(s, t) && (t == s || EndedOnce(s1.rows, s1.lost, t, logID, env.endOk))
  {
    hide Inv, Unused, EndedOnce, CreateWebRTCSide, Dial;
    if Trim(number) != "" && user !in s.byUser && env.box == Found && env.registration == Found {
      var (s1, logID) := CreateLog(s, env.logOk, user, box, "dialing");
      FreshLog(s, env.logOk, user, box, "dialing");
      if env.media.Ready? {
        ReadyIsOpen(s1, logID, env.endOk);
        FailedDial(s1, logID, user, box, env);
      } else {
        FailedSetUp(s1, env.media, logID, env.endOk);
      }
    }
  }

  lemma ReadyIsOpen(s: State, logID: nat, endOk: bool)
    ensures CreateWebRTCSide(s, Ready, logID, endOk) == (OpenSession(s, logID), Some(s.next))
  {}

  lemma FreshLog(s: State, ok: bool, user: int, box: int, status: string)
    requires Inv(s)
    ensures var s1 := CreateLog(s, ok, user, box, status).0;
            Unused(s1, s1.next) && 0 !in s1.byUser
  {
    hide InvitesInv, RowsOk, OnceOnly;
    NextUnused(s);
  }

  lemma SameCallsEnded(s: State, u: State, t: State, logID: nat, endOk: bool)
    requires SameCalls(u, t) && Untouched(s, u) && EndedOnce(s.rows, s.lost, u, logID, endOk)
    ensures Untouched(s, t) && EndedOnce(s.rows, s.lost, t, logID, endOk)
  {
  }

  lemma FinishEnds(s: State, inv: nat, respondOk: bool, reason: string)
    requires inv in s.invites && !s.invites[inv].ended && !s.invites[inv].connected
    ensures FinishInbound(s, inv, reason).incoming == s.incoming - {inv}
    ensures RejectAndFinish(s, inv, respondOk, reason).incoming == s.incoming - {inv}
  {}

  lemma FailedConnect(s: State, logID: nat, user: int, inv: nat, env: AcceptEnv)
    requires user !in s.byUser && 0 !in s.byUser && Unused(s, s.next)
    requires inv in s.invites && !s.invites[inv].ended && !s.invites[inv].connected
    requires Connect(OpenSession(s, logID), s.next, user, inv, env).1.Err?
    ensures var t := Connect(OpenSession(s, logID), s.next, user, inv, env).0;
            Untouched(s, t) && EndedOnce(s.rows, s.lost, t, logID, env.endOk) && t.incoming == s.incoming - {inv}
  {
    hide Close, EndedOnce, Unused, Untouched, Register, RejectAndFinish, FinishInbound;
    var o := OpenSession(s, logID);
    if !env.publicIP {
      var c := NewSession(logID);
      var how := Closer(false, "failed", "media public ip missing");
      assert o.sessions[s.next := c] == o.sessions;
      AbandonedSession(s, logID, c, how, env.endOk);
      var u := Close(o, s.next, how, env.endOk);
      FinishEnds(u, inv, env.rejectOk, "media public ip missing");
      SameCallsEnded(s, u, RejectAndFinish(u, inv, env.rejectOk, "media public ip missing"), logID, env.endOk);
    } else {
      var c := MarkReady(NewSession(logID).(user := user, box := s.invites[inv].box, dialog := ServerDialog));
      var how := Closer(false, "failed", "respond sip answer failed");
      AbandonedSession(s, logID, c, how, env.endOk);
      var u := Close(o.(sessions := o.sessions[s.next := c]), s.next, how, env.endOk);
      FinishEnds(u, inv, env.rejectOk, "sip answer failed");
      SameCallsEnded(s, u, FinishInbound(u, inv, "sip answer failed"), logID, env.endOk);
    }
  }

  lemma FailedAnswer(s: State, user: int, inv: nat, env: AcceptEnv)
    requires Inv(s) && inv in s.incoming && inv in s.invites && user !in s.byUser
    requires !s.invites[inv].ended && !s.invites[inv].connected
    requires Answer(s, user, inv, env).1.Err?
    ensures var t := Answer(s, user, inv, env).0;
            var (s1, logID) := CreateLog(s, env.logOk, user, s.invites[inv].box, "connecting");
            Untouched(s1, t) && EndedOnce(s1.rows, s1.lost, t, logID, env.endOk) && t.incoming == s.incoming - {inv}
  {
    hide Inv, EndedOnce, Unused, Untouched, CreateWebRTCSide, Connect, RejectAndFinish;
    var box := s.invites[inv].box;
    var (s1, logID) := CreateLog(s, env.logOk, user, box, "connecting");
    FreshLog(s, env.logOk, user, box, "connecting");
    if env.media.Ready? {
      ReadyIsOpen(s1, logID, env.endOk);
      FailedConnect(s1, logID, user, inv, env);
    } else {
      FailedSetUp(s1, env.media, logID, env.endOk);
      var u := CreateWebRTCSide(s1, env.media, logID, env.endOk).0;
      FinishEnds(u, inv, env.rejectOk, "accept failed");
      SameCallsEnded(s1, u, RejectAndFinish(u, inv, env.rejectOk, "accept failed"), logID, env.endOk);
    }
  }

  lemma ClaimKeeps(s: State, user: int, inv: nat)
    requires Inv(s) && inv in s.incoming
    ensures inv in s.invites && s.incoming[inv] == inv
    ensures !s.invites[inv].ended && !s.invites[inv].connected
    ensures Inv(s.(invites := s.invites[inv := s.invites[inv].(answeredBy := user, armed := false)]))
  {
    hide SessionsOk, OpenExactly, UsersOk, SipOk, RowsOk, InvitesOk;
    PendingInvite(s, inv);
    UpdateInviteKeeps(s, inv, s.invites[inv].(answeredBy := user, armed := false));
  }

  /** Every error exit of AcceptIncoming: either nothing changed, or the invite was claimed and is over, and the
      log row is ended once as failed; the socket, the peer connection and the indexes are as before. */
  lemma FailedAccept(s: State, user: int, inv: nat, env: AcceptEnv)
    requires Inv(s) && AcceptIncoming(s, user, inv, env).1.Err?
    ensures var t := AcceptIncoming(s, user, inv, env).0;
            && Untouched(s, t)
            && (t == s
                || (&& inv in s.incoming && inv in s.invites
                    && t.incoming == s.incoming - {inv}
                    && var (s1, logID) := CreateLog(s, env.logOk, user, s.invites[inv].box, "connecting");
                       EndedOnce(s1.rows, s1.lost, t, logID, env.endOk)))
  {
    hide Inv, Answer, EndedOnce;
    if inv in s.incoming {
      ClaimKeeps(s, user, inv);
      var i := s.invites[inv];
      if user in i.users && user !in s.byUser {
        var sc := s.(invites := s.invites[inv := i.(answeredBy := user, armed := false)]);
        FailedAnswer(sc, user, inv, env);
      }
    }
  }
}
