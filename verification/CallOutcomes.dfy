/** What each handler answers, exactly when, and what it leaves behind. */
module CallOutcomes {
  import opened Wrappers
  import opened Strings
  import opened CallModel
  import opened CallInvariants
  import opened CallFailures

  // ----- when a dial succeeds -----

  /** The number is not blank and the user has no call. */
  predicate MayDial(s: State, user: int, number: string) {
    Trim(number) != "" && user !in s.byUser
  }

  /** The gateway that is dialled exists and is registered. */
  predicate Online(env: DialEnv) {
    env.box.Found? && env.registration.Found?
  }

  lemma DialOutcome(s: State, id: nat, user: int, box: int, env: DialEnv)
    requires id in s.sessions
    ensures var r := Dial(s, id, user, box, env).1;
            && (r == Ok(id) <==> env.publicIP && env.inviteError.None? && env.answerSDP)
            && (r.Ok? ==> r == Ok(id))
            && (r == Err(PublicIPMissing) <==> !env.publicIP)
            && (r == Err(InviteFailed) <==> env.publicIP && env.inviteError.Some?)
            && (r == Err(BadRemoteSDP) <==> env.publicIP && env.inviteError.None? && !env.answerSDP)
  {
    hide Close, Register;
  }

  lemma StartCallIs(s: State, user: int, box: int, number: string, env: DialEnv)
    requires MayDial(s, user, number) && Online(env)
    ensures var (s1, logID) := CreateLog(s, env.logOk, user, box, "dialing");
            StartCall(s, user, box, number, env)
            == if env.media.Ready? then Dial(OpenSession(s1, logID), s1.next, user, box, env)
               else (CreateWebRTCSide(s1, env.media, logID, env.endOk).0, Err(MediaFailed))
  {
    var (s1, logID) := CreateLog(s, env.logOk, user, box, "dialing");
    ReadyIsOpen(s1, logID, env.endOk);
    hide CreateWebRTCSide, Dial, Trim, OpenSession;
  }

  lemma StartCallRefused(s: State, user: int, box: int, number: string, env: DialEnv)
    requires !(MayDial(s, user, number) && Online(env))
    ensures var (t, r) := StartCall(s, user, box, number, env);
            && t == s
            && (r == Err(NumberRequired) <==> Trim(number) == "")
            && (r == Err(UserBusy) <==> Trim(number) != "" && user in s.byUser)
            && (r == Err(BoxNotFound) <==> MayDial(s, user, number) && env.box.NotFound?)
            && (r == Err(BoxOffline) <==> MayDial(s, user, number) && env.box.Found? && env.registration.NotFound?)
            && (r == Err(StoreError) <==>
                MayDial(s, user, number) && (env.box.Broken? || (env.box.Found? && env.registration.Broken?)))
            && r.Err? && r.error in {NumberRequired, UserBusy, BoxNotFound, BoxOffline, StoreError}
  {
    hide CreateWebRTCSide, Dial, Trim;
  }

  /** When a dial succeeds, and the exact cause of every error. */
  lemma StartCallOutcome(s: State, user: int, box: int, number: string, env: DialEnv)
    ensures var r, ready := StartCall(s, user, box, number, env).1, MayDial(s, user, number) && Online(env);
            && (r.Ok? <==> ready && env.media.Ready? && env.publicIP && env.inviteError.None? && env.answerSDP)
            && (r == Err(MediaFailed) <==> ready && !env.media.Ready?)
            && (r == Err(PublicIPMissing) <==> ready && env.media.Ready? && !env.publicIP)
            && (r == Err(InviteFailed) <==> ready && env.media.Ready? && env.publicIP && env.inviteError.Some?)
            && (r == Err(BadRemoteSDP) <==>
                ready && env.media.Ready? && env.publicIP && env.inviteError.None? && !env.answerSDP)
    ensures var r, may := StartCall(s, user, box, number, env).1, MayDial(s, user, number);
            && (r == Err(NumberRequired) <==> Trim(number) == "")
            && (r == Err(UserBusy) <==> Trim(number) != "" && user in s.byUser)
            && (r == Err(BoxNotFound) <==> may && env.box.NotFound?)
            && (r == Err(BoxOffline) <==> may && env.box.Found? && env.registration.NotFound?)
            && (r == Err(StoreError) <==> may && (env.box.Broken? || (env.box.Found? && env.registration.Broken?)))
  {
    hide StartCall, Dial, CreateWebRTCSide, Trim, OpenSession;
    if MayDial(s, user, number) && Online(env) {
      StartCallIs(s, user, box, number, env);
      var (s1, logID) := CreateLog(s, env.logOk, user, box, "dialing");
      OpenedHas(s1, logID);
      DialOutcome(OpenSession(s1, logID), s1.next, user, box, env);
    } else {
      StartCallRefused(s, user, box, number, env);
    }
  }

  lemma OpenedHas(s: State, logID: nat)
    ensures s.next in OpenSession(s, logID).sessions
  {}

  // ----- what a call that succeeds leaves -----

  /** The session is live, with its media open, and every index leads to it. */
  ghost predicate Live(t: State, id: nat, user: int, box: int, dialog: Dialog, callID: string) {
    && id in t.sessions && id in t.byID && t.byID[id] == id && id in t.sockets && id in t.peers
    && (user > 0 ==> user in t.byUser && t.byUser[user] == id)
    && (callID != "" ==> callID in t.bySIP && t.bySIP[callID] == id)
    && t.sessions[id] == Session(user, box, t.sessions[id].logID, dialog, true, false, 1, 0, [])
  }

  /** Nothing else is registered or changed. */
  ghost predicate OnlyAdds(s: State, t: State, id: nat, user: int, callID: string) {
    && id !in s.sessions && t.sessions.Keys == s.sessions.Keys + {id}
    && (forall k <- s.sessions :: t.sessions[k] == s.sessions[k])
    && t.byID == s.byID[id := id] && t.sockets == s.sockets + {id} && t.peers == s.peers + {id} && t.lost == s.lost
    && t.byUser == (if user > 0 then s.byUser[user := id] else s.byUser)
    && t.bySIP == (if callID != "" then s.bySIP[callID := id] else s.bySIP)
  }

  /** The log has one more row, which is the session's, unless the insert failed. */
  ghost predicate Logged(s: State, t: State, id: nat, ok: bool, row: Row)
    requires id in t.sessions
  {
    && t.rows == (if ok then s.rows + [row] else s.rows)
    && t.sessions[id].logID == if ok then |t.rows| else 0
  }

  /** A session that is opened, set up and registered in one go. */
  lemma OpenedAndRegistered(s: State, ok: bool, user: int, box: int, status: string, dialog: Dialog, callID: string)
    requires s.next !in s.sessions
    ensures var (s1, logID) := CreateLog(s, ok, user, box, status);
            var o := OpenSession(s1, logID);
            var c := MarkReady(NewSession(logID).(user := user, box := box, dialog := dialog));
            var t := Register(o.(sessions := o.sessions[s.next := c]), s.next, callID);
            && Live(t, s.next, user, box, dialog, callID) && OnlyAdds(s, t, s.next, user, callID)
            && Logged(s, t, s.next, ok, Row(user, box, status, "", false, 0))
            && t.invites == s.invites && t.incoming == s.incoming && t.events == s.events
  {}

  /** What a dial that succeeds leaves: a new live call to the box, under its user and its Call-ID. */
  lemma CallStarted(s: State, user: int, box: int, number: string, env: DialEnv)
    requires Inv(s) && StartCall(s, user, box, number, env).1.Ok?
    ensures var (t, r) := StartCall(s, user, box, number, env);
            && Live(t, r.value, user, box, ClientDialog, env.sipCallID)
            && OnlyAdds(s, t, r.value, user, env.sipCallID)
            && Logged(s, t, r.value, env.logOk, Row(user, box, "dialing", "", false, 0))
            && t.invites == s.invites && t.incoming == s.incoming && t.events == s.events
  {
    NextUnused(s);
    hide Inv, StartCall, OpenSession, Register, Live, OnlyAdds, Logged, Trim, MarkReady;
    StartCallOutcome(s, user, box, number, env);
    StartCallIs(s, user, box, number, env);
    OpenedAndRegistered(s, env.logOk, user, box, "dialing", ClientDialog, env.sipCallID);
    var (s1, logID) := CreateLog(s, env.logOk, user, box, "dialing");
    OpenedIs(s1, logID);
  }

  lemma OpenedIs(s: State, logID: nat)
    ensures var o := OpenSession(s, logID); s.next in o.sessions && o.sessions[s.next] == NewSession(logID)
  {}

  // ----- what a call that fails leaves -----

  /** Why the media side failed, as the log tells it. */
  function MediaReason(media: Media): string {
    match media
    case SocketError => "rtp socket error"
    case PeerError => "webrtc create error"
    case SetupError(step) => SetupReason(step)
    case Ready => ""
  }

  /** The row of a call that came to nothing: it says why, unless the ending update failed. */
  function FailedRow(user: int, box: int, status: string, why: string, endOk: bool): Row {
    if endOk then Row(user, box, "failed", why, true, 1) else Row(user, box, status, "", false, 0)
  }

  /** The session that was made for the call is closed; a BYE went out if `bye`. */
  ghost predicate GivenUp(t: State, id: nat, bye: bool, why: string) {
    && id in t.sessions && t.sessions[id].closeOnce && t.sessions[id].hangups == [why]
    && t.sessions[id].byes == if bye then 1 else 0
  }

  lemma EndLast(rows: seq<Row>, r: Row, why: string)
    ensures EndRow(rows + [r], |rows| + 1, "failed", why)
            == rows + [r.(status := "failed", reason := why, ended := true, ends := r.ends + 1)]
  {}

  /** A session that is opened, given its fields and closed again. */
  lemma OpenedAndClosed(s: State, ok: bool, user: int, box: int, status: string, c: Session, how: Closer, endOk: bool)
    requires how.status == "failed" && !c.closeOnce && c.byes == 0 && c.hangups == []
    requires c.logID == CreateLog(s, ok, user, box, status).1
    ensures var (s1, logID) := CreateLog(s, ok, user, box, status);
            var o := OpenSession(s1, logID);
            var t := Close(o.(sessions := o.sessions[s.next := c]), s.next, how, endOk);
            && GivenUp(t, s.next, how.sendBye && c.dialog != NoDialog, how.reason)
            && t.rows == if ok then s.rows + [FailedRow(user, box, status, how.reason, endOk)] else s.rows
  {
    EndLast(s.rows, Row(user, box, status, "", false, 0), how.reason);
    hide EndRow, Unregister;
  }

  lemma MediaRow(s: State, ok: bool, user: int, box: int, status: string, media: Media, endOk: bool)
    requires !media.Ready?
    ensures var (s1, logID) := CreateLog(s, ok, user, box, status);
            CreateWebRTCSide(s1, media, logID, endOk).0.rows
            == if ok then s.rows + [FailedRow(user, box, status, MediaReason(media), endOk)] else s.rows
  {
    EndLast(s.rows, Row(user, box, status, "", false, 0), MediaReason(media));
    hide EndRow, Unregister;
  }

  /** What a dial that fails leaves in the log, and whether the gateway is sent a BYE: only once the INVITE was
      answered without a usable description. */
  lemma CallNotStarted(s: State, user: int, box: int, number: string, env: DialEnv)
    requires StartCall(s, user, box, number, env).1.Err?
    ensures var (t, r) := StartCall(s, user, box, number, env);
            var why := match r.error
                       case MediaFailed => MediaReason(env.media)
                       case PublicIPMissing => "media public ip missing"
                       case InviteFailed => if env.inviteError.Some? then env.inviteError.value else ""
                       case BadRemoteSDP => "bad remote SDP"
                       case _ => "";
            if r.error in {MediaFailed, PublicIPMissing, InviteFailed, BadRemoteSDP}
            then && t.rows == (if env.logOk then s.rows + [FailedRow(user, box, "dialing", why, env.endOk)] else s.rows)
                 && (r.error != MediaFailed ==> GivenUp(t, s.next, r.error == BadRemoteSDP, why))
            else t == s
  {
    hide StartCall, Close, OpenSession, CreateWebRTCSide, Trim, MediaReason, FailedRow, GivenUp, Register;
    StartCallOutcome(s, user, box, number, env);
    if MayDial(s, user, number) && Online(env) {
      StartCallIs(s, user, box, number, env);
      var (s1, logID) := CreateLog(s, env.logOk, user, box, "dialing");
      if env.media.Ready? {
        OpenedIs(s1, logID);
        var c := NewSession(logID).(user := user, box := box);
        if !env.publicIP {
          OpenedAndClosed(s, env.logOk, user, box, "dialing", c, Closer(false, "failed", "media public ip missing"), env.endOk);
        } else if env.inviteError.Some? {
          OpenedAndClosed(s, env.logOk, user, box, "dialing", c, Closer(false, "failed", env.inviteError.value), env.endOk);
        } else {
          OpenedAndClosed(s, env.logOk, user, box, "dialing", c.(dialog := ClientDialog),
                          Closer(true, "failed", "bad remote SDP"), env.endOk);
        }
      } else {
        MediaRow(s, env.logOk, user, box, "dialing", env.media, env.endOk);
      }
    } else {
      StartCallRefused(s, user, box, number, env);
    }
  }

  // ----- accepting -----

  /** The invite is in the table and addressed to the user. */
  predicate Addressed(s: State, user: int, inv: nat) {
    inv in s.incoming && s.incoming[inv] in s.invites && user in s.invites[s.incoming[inv]].users
  }

  /** The invite can be claimed by the user, who has no call. */
  predicate MayAccept(s: State, user: int, inv: nat) {
    && Addressed(s, user, inv) && user !in s.byUser
    && !s.invites[s.incoming[inv]].ended && !s.invites[s.incoming[inv]].connected
  }

  function Claimed(s: State, user: int, inv: nat): State
    requires inv in s.invites
  {
    s.(invites := s.invites[inv := s.invites[inv].(answeredBy := user, armed := false)])
  }

  lemma ConnectOutcome(s: State, id: nat, user: int, inv: nat, env: AcceptEnv)
    requires inv in s.invites && id in s.sessions
    ensures var r := Connect(s, id, user, inv, env).1;
            && (r == Ok(id) <==> env.publicIP && env.answerOk) && (r.Ok? ==> r == Ok(id))
            && (r == Err(PublicIPMissing) <==> !env.publicIP)
            && (r == Err(AnswerFailed) <==> env.publicIP && !env.answerOk)
  {
    hide Close, Register, RejectAndFinish, FinishInbound, Emit;
  }

  lemma AcceptIs(s: State, user: int, inv: nat, env: AcceptEnv)
    requires MayAccept(s, user, inv)
    ensures var k := s.incoming[inv];
            var (s1, logID) := CreateLog(Claimed(s, user, k), env.logOk, user, s.invites[k].box, "connecting");
            AcceptIncoming(s, user, inv, env)
            == if env.media.Ready? then Connect(OpenSession(s1, logID), s1.next, user, k, env)
               else (RejectAndFinish(CreateWebRTCSide(s1, env.media, logID, env.endOk).0, k, env.rejectOk, "accept failed"),
                     Err(MediaFailed))
  {
    var k := s.incoming[inv];
    var (s1, logID) := CreateLog(Claimed(s, user, k), env.logOk, user, s.invites[k].box, "connecting");
    ReadyIsOpen(s1, logID, env.endOk);
    hide CreateWebRTCSide, Connect, OpenSession, RejectAndFinish;
  }

  lemma AcceptRefused(s: State, user: int, inv: nat, env: AcceptEnv)
    requires !MayAccept(s, user, inv)
    ensures var (t, r) := AcceptIncoming(s, user, inv, env);
            && t == s && r.Err? && r.error in {InviteNotFound, NotAllowed, UserBusy, AlreadyEnded, AlreadyAnswered}
            && (r == Err(InviteNotFound) <==> inv !in s.incoming || s.incoming[inv] !in s.invites)
            && (r == Err(NotAllowed) <==> inv in s.incoming && s.incoming[inv] in s.invites && !Addressed(s, user, inv))
            && (r == Err(UserBusy) <==> Addressed(s, user, inv) && user in s.byUser)
            && (r == Err(AlreadyEnded) <==>
                Addressed(s, user, inv) && user !in s.byUser && s.invites[s.incoming[inv]].ended)
            && (r == Err(AlreadyAnswered) <==>
                && Addressed(s, user, inv) && user !in s.byUser
                && !s.invites[s.incoming[inv]].ended && s.invites[s.incoming[inv]].connected)
  {
    hide Answer;
  }

  lemma PendingMay(s: State, user: int, inv: nat)
    requires Inv(s)
    ensures inv in s.incoming ==> s.incoming[inv] == inv && inv in s.invites
    ensures MayAccept(s, user, inv) <==> Addressed(s, user, inv) && user !in s.byUser
  {
    if inv in s.incoming { ClaimKeeps(s, user, inv); }
    hide Inv;
  }

  /** When an accept succeeds, and the exact cause of every error. */
  lemma AcceptOutcome(s: State, user: int, inv: nat, env: AcceptEnv)
    requires Inv(s)
    ensures var r := AcceptIncoming(s, user, inv, env).1;
            var may := Addressed(s, user, inv) && user !in s.byUser;
            && (r.Ok? <==> may && env.media.Ready? && env.publicIP && env.answerOk)
            && (r == Err(InviteNotFound) <==> inv !in s.incoming)
            && (r == Err(NotAllowed) <==> inv in s.incoming && !Addressed(s, user, inv))
            && (r == Err(UserBusy) <==> Addressed(s, user, inv) && user in s.byUser)
            && (r == Err(MediaFailed) <==> may && !env.media.Ready?)
            && (r == Err(PublicIPMissing) <==> may && env.media.Ready? && !env.publicIP)
            && (r == Err(AnswerFailed) <==> may && env.media.Ready? && env.publicIP && !env.answerOk)
            && r != Err(AlreadyEnded) && r != Err(AlreadyAnswered)
  {
    hide Inv, AcceptIncoming, Connect, CreateWebRTCSide, RejectAndFinish, OpenSession;
    PendingMay(s, user, inv);
    if MayAccept(s, user, inv) {
      AcceptIs(s, user, inv, env);
      var (s1, logID) := CreateLog(Claimed(s, user, inv), env.logOk, user, s.invites[inv].box, "connecting");
      OpenedIs(s1, logID);
      OpenedInvites(s1, logID);
      ConnectOutcome(OpenSession(s1, logID), s1.next, user, inv, env);
    } else {
      AcceptRefused(s, user, inv, env);
    }
  }

  lemma OpenedInvites(s: State, logID: nat)
    ensures OpenSession(s, logID).invites == s.invites
  {}

  /** The invite's own part of an answer. */
  function AnsweredInvites(s: State, user: int, inv: nat): State
    requires inv in s.invites
  {
    var i := s.invites[inv];
    s.(invites := s.invites[inv := i.(answeredBy := user, armed := false, connected := true)], incoming := s.incoming - {inv},
       events := s.events + [Event(Answered, inv, i.users, user, "answered")])
  }

  lemma ConnectedIs(s: State, user: int, inv: nat, env: AcceptEnv)
    requires inv in s.invites && env.publicIP && env.answerOk
    ensures var (s1, logID) := CreateLog(Claimed(s, user, inv), env.logOk, user, s.invites[inv].box, "connecting");
            var (s2, _) := CreateLog(AnsweredInvites(s, user, inv), env.logOk, user, s.invites[inv].box, "connecting");
            var c := MarkReady(NewSession(logID).(user := user, box := s.invites[inv].box, dialog := ServerDialog));
            var o := OpenSession(s2, logID);
            Connect(OpenSession(s1, logID), s1.next, user, inv, env)
            == (Register(o.(sessions := o.sessions[s.next := c]), s.next, s.invites[inv].sipCallID), Ok(s.next))
  {
    var i := s.invites[inv].(answeredBy := user, armed := false);
    assert s.invites[inv := i][inv := i.(connected := true)] == s.invites[inv := i.(connected := true)];
  }

  /** What an accept that succeeds leaves: a new live call to the invite's box, under the user and the invite's
      Call-ID; the invite has left the table, and its last event is Answered by the user. */
  lemma CallAccepted(s: State, user: int, inv: nat, env: AcceptEnv)
    requires Inv(s) && AcceptIncoming(s, user, inv, env).1.Ok?
    ensures inv in s.invites
    ensures var (t, r) := AcceptIncoming(s, user, inv, env);
            var i := s.invites[inv];
            && Live(t, r.value, user, i.box, ServerDialog, i.sipCallID)
            && OnlyAdds(s, t, r.value, user, i.sipCallID)
            && Logged(s, t, r.value, env.logOk, Row(user, i.box, "connecting", "", false, 0))
            && t.invites == s.invites[inv := i.(answeredBy := user, armed := false, connected := true)]
            && t.incoming == s.incoming - {inv}
            && t.events == s.events + [Event(Answered, inv, i.users, user, "answered")]
  {
    NextUnused(s);
    hide Inv, AcceptIncoming, OpenSession, Register, Live, Logged, MarkReady, Connect, OnlyAdds;
    AcceptOutcome(s, user, inv, env);
    PendingMay(s, user, inv);
    AcceptIs(s, user, inv, env);
    ConnectedIs(s, user, inv, env);
    var i, u := s.invites[inv], AnsweredInvites(s, user, inv);
    OpenedAndRegistered(u, env.logOk, user, i.box, "connecting", ServerDialog, i.sipCallID);
    SameAdds(s, u, AcceptIncoming(s, user, inv, env).0, s.next, user, i.sipCallID);
    SameLogged(s, u, AcceptIncoming(s, user, inv, env).0, s.next, env.logOk, Row(user, i.box, "connecting", "", false, 0));
  }

  lemma SameAdds(s: State, u: State, t: State, id: nat, user: int, callID: string)
    requires SameCalls(s, u) && OnlyAdds(u, t, id, user, callID)
    ensures OnlyAdds(s, t, id, user, callID)
  {}

  lemma SameLogged(s: State, u: State, t: State, id: nat, ok: bool, row: Row)
    requires SameCalls(s, u) && id in t.sessions && Logged(u, t, id, ok, row)
    ensures Logged(s, t, id, ok, row)
  {}

  /** The invite was claimed and then stopped: it has left the table, its dialog is closed, and everybody is told why. */
  ghost predicate ClaimedAndStopped(s: State, t: State, user: int, inv: nat, refused: bool, why: string)
    requires inv in s.invites
  {
    var i := s.invites[inv];
    && t.invites == s.invites[inv := i.(answeredBy := user, armed := false, ended := true, dialogCloses := i.dialogCloses + 1,
                                        rejections := i.rejections + if refused then 1 else 0)]
    && t.incoming == s.incoming - {inv}
    && t.events == s.events + [Event(Stopped, inv, i.users, user, why)]
  }

  lemma FinishShape(s: State, inv: nat, why: string)
    requires inv in s.invites && !s.invites[inv].ended
    ensures var i := s.invites[inv];
            FinishInbound(s, inv, why)
            == s.(invites := s.invites[inv := i.(ended := true, armed := false, dialogCloses := i.dialogCloses + 1)],
                  incoming := s.incoming - {inv}, events := s.events + [Event(Stopped, inv, i.users, i.answeredBy, why)])
  {
    var i := s.invites[inv];
    var j := i.(ended := true, armed := false);
    assert s.invites[inv := j][inv := j.(dialogCloses := i.dialogCloses + 1)] == s.invites[inv := j.(dialogCloses := i.dialogCloses + 1)];
  }

  lemma StoppedIs(s: State, u: State, user: int, inv: nat, respondOk: bool, why: string)
    requires inv in s.invites && !s.invites[inv].ended && !s.invites[inv].connected
    requires SameInvites(Claimed(s, user, inv), u)
    ensures ClaimedAndStopped(s, RejectAndFinish(u, inv, respondOk, why), user, inv, respondOk, why)
    ensures ClaimedAndStopped(s, FinishInbound(u, inv, why), user, inv, false, why)
  {
    RejectAndFinishShape(u, inv, respondOk, why);
    FinishShape(u, inv, why);
    hide RejectAndFinish, FinishInbound;
    var i := s.invites[inv].(answeredBy := user, armed := false);
    var j := i.(ended := true, dialogCloses := i.dialogCloses + 1);
    assert s.invites[inv := i][inv := j] == s.invites[inv := j];
    var r := j.(rejections := i.rejections + if respondOk then 1 else 0);
    assert s.invites[inv := i][inv := r] == s.invites[inv := r];
  }

  /** What an accept that fails after its checks leaves: the invite is over and everybody is told why; the caller is
      sent a refusal unless the answer itself had gone wrong; the log tells why. */
  lemma CallNotAccepted(s: State, user: int, inv: nat, env: AcceptEnv)
    requires Inv(s) && AcceptIncoming(s, user, inv, env).1.Err?
    ensures var (t, r) := AcceptIncoming(s, user, inv, env);
            if r.error in {MediaFailed, PublicIPMissing, AnswerFailed}
            then && inv in s.invites
                 && var why := match r.error
                               case MediaFailed => MediaReason(env.media)
                               case PublicIPMissing => "media public ip missing"
                               case _ => "respond sip answer failed";
                    var told := match r.error
                                case MediaFailed => "accept failed"
                                case PublicIPMissing => "media public ip missing"
                                case _ => "sip answer failed";
                    var box := s.invites[inv].box;
                    && ClaimedAndStopped(s, t, user, inv, r.error != AnswerFailed && env.rejectOk, told)
                    && t.rows == (if env.logOk then s.rows + [FailedRow(user, box, "connecting", why, env.endOk)] else s.rows)
                    && (r.error != MediaFailed ==> GivenUp(t, s.next, false, why))
            else t == s
  {
    hide Inv, AcceptIncoming, Close, OpenSession, CreateWebRTCSide, MediaReason, FailedRow, GivenUp, RejectAndFinish,
      FinishInbound, ClaimedAndStopped, Register, Emit, EndLog;
    AcceptOutcome(s, user, inv, env);
    PendingMay(s, user, inv);
    if MayAccept(s, user, inv) {
      AcceptIs(s, user, inv, env);
      var box, sc := s.invites[inv].box, Claimed(s, user, inv);
      var (s1, logID) := CreateLog(sc, env.logOk, user, box, "connecting");
      if !env.media.Ready? {
        MediaRow(sc, env.logOk, user, box, "connecting", env.media, env.endOk);
        StoppedIs(s, CreateWebRTCSide(s1, env.media, logID, env.endOk).0, user, inv, env.rejectOk, "accept failed");
      } else {
        OpenedIs(s1, logID);
        OpenedInvites(s1, logID);
        UnconnectedIs(s, user, inv, env);
      }
    } else {
      AcceptRefused(s, user, inv, env);
    }
  }

  lemma OpenedSame(s: State, logID: nat, c: Session)
    ensures var o := OpenSession(s, logID);
            SameInvites(s, o) && o.sessions[s.next := NewSession(logID)] == o.sessions
            && SameInvites(s, o.(sessions := o.sessions[s.next := c]))
  {}

  lemma GivenUpStays(t: State, u: State, id: nat, bye: bool, why: string)
    requires GivenUp(t, id, bye, why) && u.sessions == t.sessions
    ensures GivenUp(u, id, bye, why)
  {}

  lemma UnconnectedIs(s: State, user: int, inv: nat, env: AcceptEnv)
    requires inv in s.invites && !s.invites[inv].ended && !s.invites[inv].connected && !(env.publicIP && env.answerOk)
    ensures var box := s.invites[inv].box;
            var (s1, logID) := CreateLog(Claimed(s, user, inv), env.logOk, user, box, "connecting");
            var o := OpenSession(s1, logID);
            && s1.next in o.sessions && inv in o.invites
            && var t := Connect(o, s1.next, user, inv, env).0;
               var why := if env.publicIP then "respond sip answer failed" else "media public ip missing";
               && ClaimedAndStopped(s, t, user, inv, !env.publicIP && env.rejectOk,
                                    if env.publicIP then "sip answer failed" else "media public ip missing")
               && t.rows == (if env.logOk then s.rows + [FailedRow(user, box, "connecting", why, env.endOk)] else s.rows)
               && GivenUp(t, s.next, false, why)
  {
    hide Close, OpenSession, FailedRow, GivenUp, RejectAndFinish, FinishInbound, ClaimedAndStopped, Register, Emit;
    var box, sc := s.invites[inv].box, Claimed(s, user, inv);
    var (s1, logID) := CreateLog(sc, env.logOk, user, box, "connecting");
    var o := OpenSession(s1, logID);
    var c := if env.publicIP then MarkReady(NewSession(logID).(user := user, box := box, dialog := ServerDialog)) else NewSession(logID);
    var how := Closer(false, "failed", if env.publicIP then "respond sip answer failed" else "media public ip missing");
    OpenedIs(s1, logID);
    OpenedSame(s1, logID, c);
    OpenedAndClosed(sc, env.logOk, user, box, "connecting", c, how, env.endOk);
    var u := Close(o.(sessions := o.sessions[s.next := c]), s.next, how, env.endOk);
    StoppedIs(s, u, user, inv, env.rejectOk, "media public ip missing");
    StoppedIs(s, u, user, inv, env.rejectOk, "sip answer failed");
    GivenUpStays(u, Connect(o, s1.next, user, inv, env).0, s.next, false, how.reason);
  }

  // ----- rejecting, timing out, cancelling, arriving, hanging up -----

  /** The invite is over and everybody is told why; nothing else changes. */
  ghost predicate OnlyStops(s: State, t: State, inv: nat, refused: bool, why: string)
    requires inv in s.invites
  {
    var i := s.invites[inv];
    t == s.(invites := s.invites[inv := i.(armed := false, ended := true, dialogCloses := i.dialogCloses + 1,
                                           rejections := i.rejections + if refused then 1 else 0)],
            incoming := s.incoming - {inv},
            events := s.events + [Event(Stopped, inv, i.users, i.answeredBy, why)])
  }

  lemma PendingIs(s: State, inv: nat)
    requires Inv(s)
    ensures inv in s.incoming ==> s.incoming[inv] == inv && inv in s.invites
    ensures inv in s.invites ==> (inv in s.incoming <==> !s.invites[inv].ended && !s.invites[inv].connected)
    ensures inv in s.invites && s.invites[inv].armed ==> inv in s.incoming
    ensures inv in s.incoming && inv in s.invites ==> s.invites[inv].rejections == 0 && s.invites[inv].dialogCloses == 0
  {
    hide CallsInv, TraceOk;
    if inv in s.invites { assert InviteOk(s.invites[inv], inv, inv in s.incoming, Trace(s.events, inv)); }
  }

  lemma RejectedStops(s: State, inv: nat, respondOk: bool, why: string)
    requires inv in s.invites && !s.invites[inv].ended && !s.invites[inv].connected
    ensures OnlyStops(s, RejectAndFinish(s, inv, respondOk, why), inv, respondOk, why)
    ensures RejectAndFinish(s, inv, respondOk, why) == FinishInbound(RejectWithResponse(s, inv, respondOk).0, inv, why)
  {
    RejectAndFinishShape(s, inv, respondOk, why);
    hide FinishInbound;
  }

  /** A reject succeeds exactly when the invite is pending, addressed to the user, and the refusal went out; it then
      stops the invite, with the reason given or "declined". If the refusal failed only the timer is off. */
  lemma RejectOutcome(s: State, user: int, inv: nat, reason: string, respondOk: bool)
    requires Inv(s)
    ensures var (t, r) := RejectIncoming(s, user, inv, reason, respondOk);
            && (r.Ok? <==> Addressed(s, user, inv) && respondOk)
            && (r == Err(InviteNotFound) <==> inv !in s.incoming)
            && (r == Err(NotAllowed) <==> inv in s.incoming && !Addressed(s, user, inv))
            && (r == Err(RespondFailed) <==> Addressed(s, user, inv) && !respondOk)
            && (Addressed(s, user, inv) ==>
                  && inv in s.invites
                  && if respondOk then OnlyStops(s, t, inv, true, if Trim(reason) == "" then "declined" else reason)
                     else t == s.(invites := s.invites[inv := s.invites[inv].(armed := false)]))
            && (!Addressed(s, user, inv) ==> t == s)
  {
    hide Inv, Trim, RejectAndFinish, OnlyStops, FinishInbound;
    PendingIs(s, inv);
    if Addressed(s, user, inv) {
      RejectedStops(s, inv, respondOk, if Trim(reason) == "" then "declined" else reason);
    }
  }

  /** An armed timer stops its invite for "timeout" whether or not the refusal can be sent; another does nothing. */
  lemma TimerOutcome(s: State, inv: nat, respondOk: bool)
    requires Inv(s) && inv in s.invites
    ensures if s.invites[inv].armed then OnlyStops(s, TimerFires(s, inv, respondOk), inv, respondOk, "timeout")
            else TimerFires(s, inv, respondOk) == s
  {
    hide Inv, OnlyStops, RejectAndFinish;
    PendingIs(s, inv);
    if s.invites[inv].armed { RejectedStops(s, inv, respondOk, "timeout"); }
  }

  /** A caller who gives up stops a pending invite without a refusal, and no other. */
  lemma CancelOutcome(s: State, inv: nat)
    requires Inv(s) && inv in s.invites
    ensures if inv in s.incoming then OnlyStops(s, DialogDone(s, inv), inv, false, "remote canceled")
            else DialogDone(s, inv) == s
  {
    PendingIs(s, inv);
    hide Inv;
    if inv in s.incoming { FinishShape(s, inv, "remote canceled"); }
  }

  /** An INVITE rings exactly when its audio can be used, the store names users to ring, and they have devices; it
      then is a pending invite to those users, armed, and they are told. Otherwise nothing changes. */
  lemma ArrivalOutcome(s: State, box: int, sipCallID: string, env: RingEnv)
    ensures var t := OnIncomingInvite(s, box, sipCallID, env);
            if env.remoteSDP && env.users.Some? && env.users.value != {} && env.devices.Some? && env.devices.value > 0
            then t == s.(next := s.next + 1, incoming := s.incoming[s.next := s.next],
                         invites := s.invites[s.next := Invite(box, sipCallID, env.users.value, true, false, false, 0, 0, 0)],
                         events := s.events + [Event(Ringing, s.next, env.users.value, 0, "incoming")])
            else t == s
  {}

  /** A BYE under a known Call-ID ends that call, without a BYE of our own; another does nothing. */
  lemma ByeOutcome(s: State, callID: string, endOk: bool)
    requires Inv(s)
    ensures callID in s.bySIP ==> s.bySIP[callID] in s.sessions && !s.sessions[s.bySIP[callID]].closeOnce
    ensures var t := OnRemoteBye(s, callID, endOk);
            if callID in s.bySIP
            then var k := s.bySIP[callID];
                    var c, n := s.sessions[k], s.sessions[k].logID;
                    && GivenUp(t, k, false, "remote hangup") && k !in t.byID
                    && (forall id <- t.bySIP :: t.bySIP[id] != k) && (c.user > 0 ==> c.user !in t.byUser)
                    && t.rows == if endOk then EndRow(s.rows, n, "ended", "remote hangup") else s.rows
            else t == s
  {
    if callID in s.bySIP { ByKnown(s, callID); }
    hide Inv;
  }

  lemma ByKnown(s: State, callID: string)
    requires Inv(s) && callID in s.bySIP
    ensures var k := s.bySIP[callID];
            k in s.sessions && k in s.byID && !s.sessions[k].closeOnce && s.sessions[k].byes == 0 && s.sessions[k].hangups == []
  {
    hide InvitesInv, RowsOk, UsersOk, OpenExactly;
  }
}
