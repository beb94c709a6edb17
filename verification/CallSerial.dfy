/** A thread that runs alone does nothing but what some handler does: the converse of CallGranularity. */
module CallSerial {
  import opened Wrappers
  import opened Strings
  import M = CallModel
  import V = CallInvariants
  import Q = CallGuarantees
  import opened I = CallInterleaving
  import opened Z = CallInterleavingSafety
  import opened G = CallGranularity

  // ----- one step of a thread that ends -----

  /** A thread that is not done and ends takes a step first. */
  lemma Next(sh: Shared, pc: Pc, t: Shared) returns (c: Choice)
    requires pc != Done && Reaches(sh, pc, t, Done)
    ensures Reaches(Exec(sh, pc, c).0, Exec(sh, pc, c).1, t, Done)
  {
    hide Exec;
    var choices :| Solo(sh, pc, choices) == (t, Done);
    c := choices[0];
    assert Solo(Exec(sh, pc, c).0, Exec(sh, pc, c).1, choices[1..]) == (t, Done);
  }

  lemma {:induction false} DoneStays(sh: Shared, choices: seq<Choice>)
    ensures Solo(sh, Done, choices) == (sh, Done)
    decreases choices
  {
    if choices != [] { DoneStays(sh, choices[1..]); }
  }

  lemma Ended(sh: Shared, t: Shared)
    requires Reaches(sh, Done, t, Done)
    ensures t == sh
  {
    var choices :| Solo(sh, Done, choices) == (t, Done);
    DoneStays(sh, choices);
  }

  // ----- which function runs a step -----

  predicate IsClosing(pc: Pc) {
    pc.CloseOnce? || pc.CloseBye? || pc.CloseUnregister? || pc.CloseLog? || pc.CloseDone? || pc.EndRow?
  }

  lemma ClosingIs(sh: Shared, pc: Pc, c: Choice)
    requires IsClosing(pc)
    ensures Exec(sh, pc, c) == ExecClose(sh, pc, c)
  {
    hide ExecClose;
  }

  lemma EndingIs(sh: Shared, pc: Pc, c: Choice)
    requires IsEnd(pc)
    ensures Exec(sh, pc, c) == if pc.invite in sh.invites then ExecEnd(sh, pc, sh.invites[pc.invite], c) else (sh, Done)
  {
    hide ExecEnd;
  }

  lemma ClaimingIs(sh: Shared, pc: Pc, c: Choice)
    requires IsClaim(pc)
    ensures Exec(sh, pc, c) == if pc.invite in sh.invites then ExecClaim(sh, pc, sh.invites[pc.invite], c) else (sh, Done)
  {
    hide ExecClaim;
  }

  lemma AnsweringIs(sh: Shared, pc: Pc, c: Choice)
    requires IsAnswer(pc)
    ensures Exec(sh, pc, c) == if pc.invite in sh.invites then ExecAnswer(sh, pc, sh.invites[pc.invite], c) else (sh, Done)
  {
    hide ExecAnswer;
  }

  lemma DiallingIs(sh: Shared, pc: Pc, c: Choice)
    requires IsDial(pc)
    ensures Exec(sh, pc, c) == ExecDial(sh, pc, c)
  {
    hide ExecDial;
  }

  lemma ArrivingIs(sh: Shared, pc: Pc, c: Choice)
    requires IsArrive(pc)
    ensures Exec(sh, pc, c) == ExecArrive(sh, pc)
  {
    hide ExecArrive;
  }

  // ----- closing a session -----

  lemma CloseExec(sh: Shared, k: nat, bye: bool, after: After, c: Choice)
    requires k in sh.sessions
    ensures Exec(sh, CloseOnce(k, bye, after), c) ==
            if sh.sessions[k].closing then (sh, Resume(after))
            else (sh.(sessions := sh.sessions[k := sh.sessions[k].(closing := true)]), CloseBye(k, bye, after))
    ensures Exec(sh, CloseBye(k, bye, after), c)
            == (if bye && sh.sessions[k].dialog then Observe(sh, ByeSent(k)) else sh, CloseUnregister(k, after))
  {
    hide Exec, Observe, Resume;
    ClosingIs(sh, CloseOnce(k, bye, after), c);
    ClosingIs(sh, CloseBye(k, bye, after), c);
  }

  lemma UnregisterExec(sh: Shared, k: nat, after: After, c: Choice)
    requires k in sh.sessions
    ensures Exec(sh, CloseUnregister(k, after), c) == (Unregister(sh, k), CloseLog(k, after))
    ensures Exec(sh, CloseLog(k, after), c)
            == (EndLog(sh, sh.sessions[k].row, Chosen(c.Succeeds?)), CloseDone(k, after))
    ensures Exec(sh, CloseDone(k, after), c) == (Observe(sh, CallEnded(k)), Resume(after))
  {
    hide Exec, Unregister, Observe, Resume;
    ClosingIs(sh, CloseUnregister(k, after), c);
    ClosingIs(sh, CloseLog(k, after), c);
    ClosingIs(sh, CloseDone(k, after), c);
  }

  lemma ClosedOnly(sh: Shared, k: nat, bye: bool, after: After, t: Shared) returns (endOk: bool)
    requires k in sh.sessions && Reaches(sh, CloseOnce(k, bye, after), t, Done)
    ensures Reaches(if sh.sessions[k].closing then sh else ClosedShared(sh, k, bye, endOk), Resume(after), t, Done)
  {
    hide Reaches, Exec, Unregister, Observe, EndLog, Resume;
    endOk := true;
    var c := Next(sh, CloseOnce(k, bye, after), t);
    CloseExec(sh, k, bye, after, c);
    if !sh.sessions[k].closing {
      var sh1 := sh.(sessions := sh.sessions[k := sh.sessions[k].(closing := true)]);
      c := Next(sh1, CloseBye(k, bye, after), t);
      CloseExec(sh1, k, bye, after, c);
      var sh2 := ByeShared(sh, k, bye);
      endOk := UnregisteredOnly(sh2, k, after, t);
    }
  }

  lemma UnregisteredOnly(sh: Shared, k: nat, after: After, t: Shared) returns (endOk: bool)
    requires k in sh.sessions && Reaches(sh, CloseUnregister(k, after), t, Done)
    ensures Reaches(Observe(EndLog(Unregister(sh, k), sh.sessions[k].row, Chosen(endOk)), CallEnded(k)), Resume(after), t, Done)
  {
    hide Reaches, Exec, Unregister, Observe, EndLog, Resume;
    var c := Next(sh, CloseUnregister(k, after), t);
    UnregisterExec(sh, k, after, c);
    var sh1 := Unregister(sh, k);
    c := Next(sh1, CloseLog(k, after), t);
    UnregisterExec(sh1, k, after, c);
    endOk := c.Succeeds?;
    var sh2 := EndLog(sh1, sh.sessions[k].row, Chosen(endOk));
    c := Next(sh2, CloseDone(k, after), t);
    UnregisterExec(sh2, k, after, c);
  }

  lemma CloseAlone(s: M.State, sh: Shared, k: nat, after: After, how: M.Closer, t: Shared) returns (endOk: bool, sh1: Shared)
    requires Same(s, sh) && k in s.sessions && Reaches(sh, CloseOnce(k, how.sendBye, after), t, Done)
    ensures Same(M.Close(s, k, how, endOk), sh1) && Reaches(sh1, Resume(after), t, Done)
  {
    SessionIs(s, sh, k);
    hide Same, Reaches, Resume, ClosedShared, M.EndLog, M.Unregister;
    endOk := ClosedOnly(sh, k, how.sendBye, after, t);
    if s.sessions[k].closeOnce {
      sh1 := sh;
    } else {
      sh1 := ClosedShared(sh, k, how.sendBye, endOk);
      ClosedSame(s, sh, k, how, endOk);
    }
  }

  // ----- ending an invite -----

  lemma FinishExec(sh: Shared, i: nat, c: Choice)
    requires i in sh.invites
    ensures Exec(sh, FinishEnd(i), c) ==
            if sh.invites[i].ended then (sh, Done)
            else (SetInvite(sh, i, sh.invites[i].(ended := true, armed := false)), FinishRemove(i))
    ensures Exec(sh, FinishRemove(i), c) == (sh.(incoming := sh.incoming - {i}), FinishEmit(i))
  {
    hide Exec, SetInvite;
    EndingIs(sh, FinishEnd(i), c);
    EndingIs(sh, FinishRemove(i), c);
  }

  lemma FinishTold(sh: Shared, i: nat, c: Choice)
    requires i in sh.invites
    ensures Exec(sh, FinishEmit(i), c) == (Observe(sh, StoppedSent(i)), FinishClose(i))
    ensures Exec(sh, FinishClose(i), c) == (Observe(sh, DialogClosed(i)), Done)
  {
    hide Exec, Observe;
    EndingIs(sh, FinishEmit(i), c);
    EndingIs(sh, FinishClose(i), c);
  }

  lemma FinishedOnly(sh: Shared, i: nat, t: Shared)
    requires i in sh.invites && Reaches(sh, FinishEnd(i), t, Done)
    ensures t == if sh.invites[i].ended then sh else FinishedShared(sh, i)
  {
    var c := Next(sh, FinishEnd(i), t);
    FinishExec(sh, i, c);
    if sh.invites[i].ended {
      Ended(sh, t);
    } else {
      var sh1 := SetInvite(sh, i, sh.invites[i].(ended := true, armed := false));
      hide Reaches, Exec, Observe;
      c := Next(sh1, FinishRemove(i), t);
      FinishExec(sh1, i, c);
      var sh2 := sh1.(incoming := sh1.incoming - {i});
      c := Next(sh2, FinishEmit(i), t);
      FinishTold(sh2, i, c);
      c := Next(Observe(sh2, StoppedSent(i)), FinishClose(i), t);
      FinishTold(Observe(sh2, StoppedSent(i)), i, c);
      Ended(FinishedShared(sh, i), t);
    }
  }

  lemma FinishAlone(s: M.State, sh: Shared, i: nat, reason: string, t: Shared)
    requires Same(s, sh) && i in s.invites && Reaches(sh, FinishEnd(i), t, Done)
    ensures Same(M.FinishInbound(s, i, reason), t)
  {
    InviteIs(s, sh, i);
    hide Same, Reaches, FinishedShared;
    FinishedOnly(sh, i, t);
    if !s.invites[i].ended { FinishedSame(s, sh, i, reason); }
  }

  lemma RespondExec(sh: Shared, i: nat, strict: bool, c: Choice)
    requires i in sh.invites
    ensures var v := sh.invites[i];
            Exec(sh, Respond(i, strict), c)
            == (RefusedShared(sh, i, c.Succeeds?),
                if v.ended || v.connected || c.Succeeds? || !strict then FinishEnd(i) else Done)
  {
    hide Exec, SetInvite, Observe;
    EndingIs(sh, Respond(i, strict), c);
  }

  lemma RespondAlone(s: M.State, sh: Shared, i: nat, strict: bool, t: Shared) returns (respondOk: bool, sh1: Shared)
    requires Same(s, sh) && i in s.invites && Reaches(sh, Respond(i, strict), t, Done)
    ensures var (s1, ok) := M.RejectWithResponse(s, i, respondOk);
            Same(s1, sh1) && Reaches(sh1, if ok || !strict then FinishEnd(i) else Done, t, Done)
  {
    InviteIs(s, sh, i);
    hide Same, Reaches, Exec, RefusedShared;
    var c := Next(sh, Respond(i, strict), t);
    RespondExec(sh, i, strict, c);
    respondOk := c.Succeeds?;
    RefusedSame(s, sh, i, respondOk);
    sh1 := RefusedShared(sh, i, respondOk);
  }

  lemma RejectAlone(s: M.State, sh: Shared, i: nat, reason: string, t: Shared) returns (respondOk: bool)
    requires Same(s, sh) && i in s.invites && Reaches(sh, Respond(i, false), t, Done)
    ensures Same(M.RejectAndFinish(s, i, respondOk, reason), t)
  {
    hide Same, Reaches, M.FinishInbound, M.RejectWithResponse;
    var sh1;
    respondOk, sh1 := RespondAlone(s, sh, i, false, t);
    FinishAlone(M.RejectWithResponse(s, i, respondOk).0, sh1, i, reason, t);
  }

  // ----- accepting -----

  lemma ConnectExec(sh: Shared, i: nat, k: nat, c: Choice)
    requires i in sh.invites
    ensures Exec(sh, AcceptConnect(i, k), c)
            == (SetInvite(sh, i, sh.invites[i].(connected := true)), AcceptRegister(i, k))
    ensures Exec(sh, AcceptRegister(i, k), c) == (Register(sh, k, sh.invites[i].sipCallID), AcceptRemove(i))
  {
    hide Exec, SetInvite, Register;
    AnsweringIs(sh, AcceptConnect(i, k), c);
    AnsweringIs(sh, AcceptRegister(i, k), c);
  }

  lemma AnsweredExec(sh: Shared, i: nat, c: Choice)
    requires i in sh.invites
    ensures Exec(sh, AcceptRemove(i), c) == (sh.(incoming := sh.incoming - {i}), AcceptEmit(i))
    ensures Exec(sh, AcceptEmit(i), c) == (Observe(sh, AnsweredSent(i)), Done)
  {
    hide Exec, Observe;
    AnsweringIs(sh, AcceptRemove(i), c);
    AnsweringIs(sh, AcceptEmit(i), c);
  }

  lemma ConnectedAlone(s: M.State, sh: Shared, k: nat, i: nat, reason: string, t: Shared)
    requires Same(s, sh) && k in s.sessions && i in s.invites && Reaches(sh, AcceptConnect(i, k), t, Done)
    ensures var v := s.invites[i].(connected := true);
            var s2 := M.Register(s.(invites := s.invites[i := v]), k, s.invites[i].sipCallID);
            Same(M.Emit(s2.(incoming := s2.incoming - {i}), M.Answered, i, reason), t)
  {
    var v := s.invites[i].(connected := true);
    InviteIs(s, sh, i);
    InviteSame(s, sh, i, v);
    var s1, sh1 := s.(invites := s.invites[i := v]), SetInvite(sh, i, Short(v));
    RegisterSame(s1, sh1, k, v.sipCallID);
    var s2, sh2 := M.Register(s1, k, v.sipCallID), Register(sh1, k, v.sipCallID);
    AnsweredSame(s2, sh2, i, reason);
    var sh3 := sh2.(incoming := sh2.incoming - {i});
    hide Same, Reaches, Exec, Register, M.Register, Observe, M.Emit;
    var c := Next(sh, AcceptConnect(i, k), t);
    ConnectExec(sh, i, k, c);
    c := Next(sh1, AcceptRegister(i, k), t);
    ConnectExec(sh1, i, k, c);
    c := Next(sh2, AcceptRemove(i), t);
    AnsweredExec(sh2, i, c);
    c := Next(sh3, AcceptEmit(i), t);
    AnsweredExec(sh3, i, c);
    Ended(Observe(sh3, AnsweredSent(i)), t);
  }

  lemma AnswerExec(sh: Shared, user: int, i: nat, k: nat, c: Choice)
    requires i in sh.invites
    ensures Exec(sh, AcceptAssign(user, i, k), c) ==
            if c.Fails? then (sh, CloseOnce(k, false, ThenReject(i))) else (Assign(sh, k, user, true), AcceptAnswer(i, k))
    ensures Exec(sh, AcceptAnswer(i, k), c) ==
            if c.Succeeds? then (Observe(sh, OkSent(i)), AcceptConnect(i, k)) else (sh, CloseOnce(k, false, ThenFinish(i)))
  {
    hide Exec, Assign, Observe;
    AnsweringIs(sh, AcceptAssign(user, i, k), c);
    AnsweringIs(sh, AcceptAnswer(i, k), c);
  }

  /** What Connect does in its three outcomes. */
  lemma ConnectIs(s: M.State, k: nat, user: int, i: nat, env: M.AcceptEnv)
    requires k in s.sessions && i in s.invites
    ensures var v := s.invites[i];
            var s1 := s.(sessions := s.sessions[k := Mine(s, k, user, i)]);
            M.Connect(s, k, user, i, env).0 ==
            if !env.publicIP then M.RejectAndFinish(M.Close(s, k, NO_ADDRESS, env.endOk), i, env.rejectOk, "media public ip missing")
            else if !env.answerOk then M.FinishInbound(M.Close(s1, k, UNANSWERED, env.endOk), i, "sip answer failed")
            else
              var s2 := M.Register(s1.(invites := s1.invites[i := v.(connected := true)]), k, v.sipCallID);
              M.Emit(s2.(incoming := s2.incoming - {i}), M.Answered, i, "answered")
  {
    hide M.Close, M.Register, M.RejectAndFinish, M.FinishInbound, M.Emit, M.MarkReady;
  }

  const UNANSWERED := M.Closer(false, "failed", "respond sip answer failed")
  const NO_ADDRESS := M.Closer(false, "failed", "media public ip missing")

  /** The session with the user, the box and the dialog of the answer. */
  function Mine(s: M.State, k: nat, user: int, i: nat): M.Session
    requires k in s.sessions && i in s.invites
  {
    M.MarkReady(s.sessions[k].(user := user, box := s.invites[i].box, dialog := M.ServerDialog))
  }

  lemma MineIs(s: M.State, sh: Shared, k: nat, user: int, i: nat)
    requires Same(s, sh) && k in s.sessions && i in s.invites
    ensures Same(s.(sessions := s.sessions[k := Mine(s, k, user, i)]), Assign(sh, k, user, true))
  {
    hide Same, Assign;
    UserSame(s, sh, k, Mine(s, k, user, i));
  }

  lemma NoAnswerAlone(s: M.State, sh: Shared, k: nat, i: nat, t: Shared) returns (endOk: bool)
    requires Same(s, sh) && k in s.sessions && i in s.invites && Reaches(sh, CloseOnce(k, false, ThenFinish(i)), t, Done)
    ensures Same(M.FinishInbound(M.Close(s, k, UNANSWERED, endOk), i, "sip answer failed"), t)
  {
    hide Same, Reaches, M.Close, M.FinishInbound;
    var sh1;
    endOk, sh1 := CloseAlone(s, sh, k, ThenFinish(i), UNANSWERED, t);
    FinishAlone(M.Close(s, k, UNANSWERED, endOk), sh1, i, "sip answer failed", t);
  }

  lemma NoAddressAlone(s: M.State, sh: Shared, k: nat, i: nat, t: Shared) returns (endOk: bool, rejectOk: bool)
    requires Same(s, sh) && k in s.sessions && i in s.invites && Reaches(sh, CloseOnce(k, false, ThenReject(i)), t, Done)
    ensures Same(M.RejectAndFinish(M.Close(s, k, NO_ADDRESS, endOk), i, rejectOk, "media public ip missing"), t)
  {
    hide Same, Reaches, M.Close, M.RejectAndFinish;
    var sh1;
    endOk, sh1 := CloseAlone(s, sh, k, ThenReject(i), NO_ADDRESS, t);
    rejectOk := RejectAlone(M.Close(s, k, NO_ADDRESS, endOk), sh1, i, "media public ip missing", t);
  }

  /** The SIP answer, by a session that has its user: it went out or it did not. */
  lemma AnswerAlone(s: M.State, sh: Shared, k: nat, i: nat, t: Shared) returns (answerOk: bool, endOk: bool)
    requires Same(s, sh) && k in s.sessions && i in s.invites && Reaches(sh, AcceptAnswer(i, k), t, Done)
    ensures var v := s.invites[i];
            var s2 := M.Register(s.(invites := s.invites[i := v.(connected := true)]), k, v.sipCallID);
            if answerOk then Same(M.Emit(s2.(incoming := s2.incoming - {i}), M.Answered, i, "answered"), t)
            else Same(M.FinishInbound(M.Close(s, k, UNANSWERED, endOk), i, "sip answer failed"), t)
  {
    hide Same, Reaches, Exec, Assign, Observe, M.Close, M.Register, M.FinishInbound, M.Emit;
    InviteIs(s, sh, i);
    var c := Next(sh, AcceptAnswer(i, k), t);
    AnswerExec(sh, 0, i, k, c);
    answerOk, endOk := c.Succeeds?, true;
    if answerOk {
      ObserveSame(s, sh, OkSent(i));
      ConnectedAlone(s, Observe(sh, OkSent(i)), k, i, "answered", t);
    } else {
      endOk := NoAnswerAlone(s, sh, k, i, t);
    }
  }

  /** AcceptIncoming after the media side exists. */
  lemma ConnectAlone(s: M.State, sh: Shared, k: nat, user: int, i: nat, logOk: bool, t: Shared) returns (env: M.AcceptEnv)
    requires Same(s, sh) && k in s.sessions && i in s.invites && Reaches(sh, AcceptAssign(user, i, k), t, Done)
    ensures env.media.Ready? && env.logOk == logOk && Same(M.Connect(s, k, user, i, env).0, t)
  {
    hide Same, Reaches, Exec, Assign, M.Connect, M.Close, M.Register, M.RejectAndFinish, M.FinishInbound, M.Emit, Mine;
    InviteIs(s, sh, i);
    env := M.AcceptEnv(logOk, M.Ready, false, false, false, false);
    var c := Next(sh, AcceptAssign(user, i, k), t);
    AnswerExec(sh, user, i, k, c);
    if c.Fails? {
      var endOk, rejectOk := NoAddressAlone(s, sh, k, i, t);
      env := env.(endOk := endOk, rejectOk := rejectOk);
    } else {
      MineIs(s, sh, k, user, i);
      var answerOk, endOk := AnswerAlone(s.(sessions := s.sessions[k := Mine(s, k, user, i)]), Assign(sh, k, user, true), k, i, t);
      env := env.(publicIP := true, answerOk := answerOk, endOk := endOk);
    }
    ConnectIs(s, k, user, i, env);
  }

  lemma SetUpExec(sh: Shared, user: int, i: nat, row: nat, c: Choice)
    requires i in sh.invites
    ensures Exec(sh, AcceptSetUp(user, i, row), c) ==
            match c
            case Fails => (sh, EndRow(row, ThenReject(i)))
            case FailsLate => (NewSession(sh, row), CloseOnce(sh.next, false, ThenReject(i)))
            case Succeeds => (NewSession(sh, row), AcceptAssign(user, i, sh.next))
    ensures Exec(sh, AcceptLog(user, i), c)
            == (LoggedShared(sh, c.Succeeds?).0, AcceptSetUp(user, i, LoggedShared(sh, c.Succeeds?).1))
  {
    hide Exec, NewSession;
    ClaimingIs(sh, AcceptSetUp(user, i, row), c);
    ClaimingIs(sh, AcceptLog(user, i), c);
  }

  /** A set-up that ends its row or closes its session. */
  lemma NoSessionAlone(s: M.State, sh: Shared, logID: nat, after: After, t: Shared) returns (endOk: bool, sh1: Shared)
    requires Same(s, sh) && logID <= |s.rows| && Reaches(sh, EndRow(logID, after), t, Done)
    ensures Same(M.CreateWebRTCSide(s, M.SocketError, logID, endOk).0, sh1) && Reaches(sh1, Resume(after), t, Done)
  {
    hide Same, Reaches, Exec, Resume, EndLog, M.EndLog;
    var c := Next(sh, EndRow(logID, after), t);
    endOk := c.Succeeds?;
    EndRowExec(sh, logID, after, c);
    sh1 := EndLog(sh, logID, Chosen(endOk));
    EndLogSame(s, sh, logID, endOk, "failed", "rtp socket error");
  }

  lemma EndRowExec(sh: Shared, row: nat, after: After, c: Choice)
    ensures Exec(sh, EndRow(row, after), c) == (EndLog(sh, row, Chosen(c.Succeeds?)), Resume(after))
  {
    hide Exec, Resume;
    ClosingIs(sh, EndRow(row, after), c);
  }

  lemma SetUpErrorAlone(s: M.State, sh: Shared, logID: nat, after: After, t: Shared) returns (endOk: bool, sh1: Shared)
    requires Same(s, sh) && logID <= |s.rows| && Reaches(NewSession(sh, logID), CloseOnce(sh.next, false, after), t, Done)
    ensures Same(M.CreateWebRTCSide(s, M.SetupError(M.CreateTrack), logID, endOk).0, sh1) && Reaches(sh1, Resume(after), t, Done)
  {
    hide Same, Reaches, Resume, NewSession, M.Close;
    NewSame(s, sh, logID);
    endOk, sh1 := CloseAlone(M.OpenSession(s, logID), NewSession(sh, logID), s.next, after,
                             M.Closer(false, "failed", M.SetupReason(M.CreateTrack)), t);
  }

  /** The media side comes to no session, and the accept ends with the invite. */
  lemma NoMediaAlone(s: M.State, sh: Shared, user: int, i: nat, logID: nat, late: bool, t: Shared)
    returns (media: M.Media, endOk: bool, rejectOk: bool)
    requires Same(s, sh) && i in s.invites && logID <= |s.rows|
    requires if late then Reaches(NewSession(sh, logID), CloseOnce(sh.next, false, ThenReject(i)), t, Done)
             else Reaches(sh, EndRow(logID, ThenReject(i)), t, Done)
    ensures !media.Ready? && Same(M.RejectAndFinish(M.CreateWebRTCSide(s, media, logID, endOk).0, i, rejectOk, "accept failed"), t)
  {
    hide Same, Reaches, NewSession, M.CreateWebRTCSide, M.RejectAndFinish;
    var sh1;
    if late {
      media := M.SetupError(M.CreateTrack);
      endOk, sh1 := SetUpErrorAlone(s, sh, logID, ThenReject(i), t);
    } else {
      media := M.SocketError;
      endOk, sh1 := NoSessionAlone(s, sh, logID, ThenReject(i), t);
    }
    rejectOk := RejectAlone(M.CreateWebRTCSide(s, media, logID, endOk).0, sh1, i, "accept failed", t);
  }

  lemma MediaAlone(s: M.State, sh: Shared, user: int, i: nat, logID: nat, logOk: bool, t: Shared) returns (env: M.AcceptEnv)
    requires Same(s, sh) && i in s.invites && logID <= |s.rows| && Reaches(sh, AcceptSetUp(user, i, logID), t, Done)
    ensures env.logOk == logOk
    ensures var (s2, created) := M.CreateWebRTCSide(s, env.media, logID, env.endOk);
            Same(if created.None? then M.RejectAndFinish(s2, i, env.rejectOk, "accept failed")
                 else M.Connect(s2, created.value, user, i, env).0, t)
  {
    hide Same, Reaches, Exec, NewSession, M.Connect, M.CreateWebRTCSide, M.RejectAndFinish;
    InviteIs(s, sh, i);
    var c := Next(sh, AcceptSetUp(user, i, logID), t);
    SetUpExec(sh, user, i, logID, c);
    if c.Succeeds? {
      NewSame(s, sh, logID);
      env := ConnectAlone(M.OpenSession(s, logID), NewSession(sh, logID), s.next, user, i, logOk, t);
    } else {
      var media, endOk, rejectOk := NoMediaAlone(s, sh, user, i, logID, c.FailsLate?, t);
      env := M.AcceptEnv(logOk, media, false, false, rejectOk, endOk);
    }
    CreatedIs(s, env.media, logID, env.endOk);
  }

  lemma ClaimedAlone(s: M.State, sh: Shared, user: int, i: nat, t: Shared) returns (env: M.AcceptEnv)
    requires Same(s, sh) && i in s.invites && Reaches(sh, AcceptLog(user, i), t, Done)
    ensures Same(M.Answer(s, user, i, env).0, t)
  {
    hide Same, Reaches, Exec, M.Connect, M.CreateWebRTCSide, M.RejectAndFinish;
    InviteIs(s, sh, i);
    var c := Next(sh, AcceptLog(user, i), t);
    SetUpExec(sh, user, i, 0, c);
    LogSame(s, sh, c.Succeeds?, user, s.invites[i].box, "connecting");
    var (s1, logID) := M.CreateLog(s, c.Succeeds?, user, s.invites[i].box, "connecting");
    env := MediaAlone(s1, LoggedShared(sh, c.Succeeds?).0, user, i, logID, c.Succeeds?, t);
  }

  lemma ChecksExec(sh: Shared, user: int, i: nat, c: Choice)
    requires i in sh.invites
    ensures Exec(sh, AcceptLookup(user, i), c) == (sh, if i in sh.incoming then AcceptAllowed(user, i) else Done)
    ensures Exec(sh, AcceptAllowed(user, i), c) == (sh, if user in sh.invites[i].users then AcceptGuard(user, i) else Done)
    ensures Exec(sh, AcceptGuard(user, i), c) == (sh, if user in sh.byUser then Done else AcceptClaim(user, i))
  {
    hide Exec;
    ClaimingIs(sh, AcceptLookup(user, i), c);
    ClaimingIs(sh, AcceptAllowed(user, i), c);
    ClaimingIs(sh, AcceptGuard(user, i), c);
  }

  lemma ClaimExec(sh: Shared, user: int, i: nat, c: Choice)
    requires i in sh.invites
    ensures var v := sh.invites[i];
            Exec(sh, AcceptClaim(user, i), c) ==
            if v.ended || v.connected then (sh, Done)
            else (Observe(SetInvite(sh, i, v.(answeredBy := user, armed := false)), Claimed(i)), AcceptLog(user, i))
  {
    hide Exec, Observe, SetInvite;
    ClaimingIs(sh, AcceptClaim(user, i), c);
  }

  /** The checks of AcceptIncoming pass exactly if it goes on. */
  predicate MayClaim(s: M.State, user: int, i: nat) {
    i in s.invites && i in s.incoming && user in s.invites[i].users && user !in s.byUser
    && !s.invites[i].ended && !s.invites[i].connected
  }

  lemma AcceptIs(s: M.State, user: int, i: nat, env: M.AcceptEnv)
    requires Named(s)
    ensures MayClaim(s, user, i) ==>
              M.AcceptIncoming(s, user, i, env).0
              == M.Answer(s.(invites := s.invites[i := s.invites[i].(answeredBy := user, armed := false)]), user, i, env).0
    ensures !MayClaim(s, user, i) ==> M.AcceptIncoming(s, user, i, env).0 == s
  {
    hide M.Answer;
  }

  lemma ChecksAlone(s: M.State, sh: Shared, user: int, i: nat, t: Shared)
    requires Same(s, sh) && i in s.invites && Reaches(sh, AcceptLookup(user, i), t, Done)
    ensures i in sh.invites && sh.invites[i] == Short(s.invites[i])
    ensures if MayClaim(s, user, i)
            then Reaches(Observe(SetInvite(sh, i, sh.invites[i].(answeredBy := user, armed := false)), Claimed(i)),
                         AcceptLog(user, i), t, Done)
            else t == sh
  {
    hide Same, Reaches, Exec, Observe, SetInvite;
    TablesAre(s, sh);
    InviteIs(s, sh, i);
    var c := Next(sh, AcceptLookup(user, i), t);
    ChecksExec(sh, user, i, c);
    if i in s.incoming {
      c := Next(sh, AcceptAllowed(user, i), t);
      ChecksExec(sh, user, i, c);
      if user in s.invites[i].users {
        c := Next(sh, AcceptGuard(user, i), t);
        ChecksExec(sh, user, i, c);
        if user !in s.byUser {
          c := Next(sh, AcceptClaim(user, i), t);
          ClaimExec(sh, user, i, c);
        }
      }
    }
    if !MayClaim(s, user, i) { Ended(sh, t); }
  }

  lemma AcceptAlone(s: M.State, sh: Shared, user: int, i: nat, t: Shared) returns (env: M.AcceptEnv)
    requires Same(s, sh) && Named(s) && i in s.invites && Reaches(sh, AcceptLookup(user, i), t, Done)
    ensures Same(M.AcceptIncoming(s, user, i, env).0, t)
  {
    hide Same, Reaches, Observe, SetInvite, Named, M.Answer, M.AcceptIncoming;
    ChecksAlone(s, sh, user, i, t);
    env := M.AcceptEnv(false, M.Ready, false, false, false, false);
    if MayClaim(s, user, i) {
      var v := s.invites[i].(answeredBy := user, armed := false);
      var s1 := s.(invites := s.invites[i := v]);
      InviteSame(s, sh, i, v);
      ObserveSame(s1, SetInvite(sh, i, Short(v)), Claimed(i));
      env := ClaimedAlone(s1, Observe(SetInvite(sh, i, Short(v)), Claimed(i)), user, i, t);
    }
    AcceptIs(s, user, i, env);
  }

  // ----- dialling -----

  lemma GuardExec(sh: Shared, user: int, callID: string, c: Choice)
    ensures Exec(sh, DialGuard(user, callID), c) == (sh, if user in sh.byUser || c.Fails? then Done else DialLog(user, callID))
    ensures Exec(sh, DialLog(user, callID), c)
            == (LoggedShared(sh, c.Succeeds?).0, DialSetUp(user, callID, LoggedShared(sh, c.Succeeds?).1))
  {
    hide Exec;
    DiallingIs(sh, DialGuard(user, callID), c);
    DiallingIs(sh, DialLog(user, callID), c);
  }

  lemma DialSetUpExec(sh: Shared, user: int, callID: string, row: nat, c: Choice)
    ensures Exec(sh, DialSetUp(user, callID, row), c) ==
            match c
            case Fails => (sh, EndRow(row, Nothing))
            case FailsLate => (NewSession(sh, row), CloseOnce(sh.next, false, Nothing))
            case Succeeds => (NewSession(sh, row), DialAssign(user, callID, sh.next))
  {
    hide Exec, NewSession;
    DiallingIs(sh, DialSetUp(user, callID, row), c);
  }

  lemma InviteExec(sh: Shared, user: int, callID: string, k: nat, c: Choice)
    ensures Exec(sh, DialAssign(user, callID, k), c) == (Assign(sh, k, user, false), DialInvite(callID, k))
    ensures Exec(sh, DialInvite(callID, k), c) ==
            match c
            case Fails => (sh, CloseOnce(k, false, Nothing))
            case FailsLate => (OpenDialog(sh, k), CloseOnce(k, true, Nothing))
            case Succeeds => (OpenDialog(sh, k), DialRegister(callID, k))
    ensures Exec(sh, DialRegister(callID, k), c) == (Register(sh, k, callID), Done)
  {
    hide Exec, Assign, OpenDialog, Register;
    DiallingIs(sh, DialAssign(user, callID, k), c);
    DiallingIs(sh, DialInvite(callID, k), c);
    DiallingIs(sh, DialRegister(callID, k), c);
  }

  /** A session that is given its fields and closed, as the last thing a thread does. */
  lemma AbandonAlone(s: M.State, sh: Shared, k: nat, c: M.Session, how: M.Closer, t: Shared) returns (endOk: bool)
    requires Same(s, sh) && k in s.sessions && Alike(c, s.sessions[k])
    requires Reaches(Assign(sh, k, c.user, c.dialog != M.NoDialog), CloseOnce(k, how.sendBye, Nothing), t, Done)
    ensures Same(M.Close(s.(sessions := s.sessions[k := c]), k, how, endOk), t)
  {
    hide Same, Reaches, Assign, M.Close;
    UserSame(s, sh, k, c);
    var s1 := s.(sessions := s.sessions[k := c]);
    var sh2;
    endOk, sh2 := CloseAlone(s1, Assign(sh, k, c.user, c.dialog != M.NoDialog), k, Nothing, how, t);
    Ended(sh2, t);
  }

  /** The INVITE by a session that has its user, and what follows. */
  lemma InviteAlone(s: M.State, sh: Shared, k: nat, user: int, box: int, callID: string, logOk: bool, t: Shared)
    returns (env: M.DialEnv)
    requires Same(s, sh) && k in s.sessions && s.sessions[k].dialog == M.NoDialog
    requires Reaches(Assign(sh, k, user, false), DialInvite(callID, k), t, Done)
    ensures env.box.Found? && env.registration.Found? && env.logOk == logOk && env.media.Ready?
    ensures Same(M.Dial(s, k, user, box, env).0, t)
  {
    hide Same, Reaches, Exec, Register, Assign, OpenDialog, M.Register, M.Close, M.Dial, M.MarkReady;
    var mine, sh1 := s.sessions[k].(user := user, box := box), Assign(sh, k, user, false);
    var c := Next(sh1, DialInvite(callID, k), t);
    InviteExec(sh1, user, callID, k, c);
    DialogOpens(sh, k, user);
    var endOk := true;
    if c.Fails? {
      endOk := AbandonAlone(s, sh, k, mine, NO_ADDRESS, t);
    } else if c.FailsLate? {
      endOk := AbandonAlone(s, sh, k, mine.(dialog := M.ClientDialog), M.Closer(true, "failed", "bad remote SDP"), t);
    } else {
      RegisteredAlone(s, sh, k, mine.(dialog := M.ClientDialog), callID, t);
    }
    env := M.DialEnv(M.Found, M.Found, logOk, M.Ready, !c.Fails?, None, c.Succeeds?, callID, endOk);
    DialIs(s, k, user, box, env);
  }

  lemma DialAlone(s: M.State, sh: Shared, k: nat, user: int, box: int, callID: string, logOk: bool, t: Shared)
    returns (env: M.DialEnv)
    requires Same(s, sh) && k in s.sessions && s.sessions[k].dialog == M.NoDialog
    requires Reaches(sh, DialAssign(user, callID, k), t, Done)
    ensures env.box.Found? && env.registration.Found? && env.logOk == logOk && env.media.Ready?
    ensures Same(M.Dial(s, k, user, box, env).0, t)
  {
    hide Same, Reaches, Exec, Register, Assign, OpenDialog, M.Dial;
    var c := Next(sh, DialAssign(user, callID, k), t);
    InviteExec(sh, user, callID, k, c);
    env := InviteAlone(s, sh, k, user, box, callID, logOk, t);
  }

  lemma RegisteredAlone(s: M.State, sh: Shared, k: nat, c: M.Session, callID: string, t: Shared)
    requires Same(s, sh) && k in s.sessions && Alike(c, s.sessions[k]) && c.dialog != M.NoDialog
    requires Reaches(Assign(sh, k, c.user, true), DialRegister(callID, k), t, Done)
    ensures Same(M.Register(s.(sessions := s.sessions[k := M.MarkReady(c)]), k, callID), t)
  {
    hide Same, Reaches, Exec, Register, Assign, OpenDialog, M.Register;
    var sh1 := Assign(sh, k, c.user, true);
    var step := Next(sh1, DialRegister(callID, k), t);
    InviteExec(sh1, c.user, callID, k, step);
    UserSame(s, sh, k, M.MarkReady(c));
    RegisterSame(s.(sessions := s.sessions[k := M.MarkReady(c)]), sh1, k, callID);
    Ended(Register(sh1, k, callID), t);
  }

  lemma NoDialAlone(s: M.State, sh: Shared, logID: nat, late: bool, t: Shared) returns (media: M.Media, endOk: bool)
    requires Same(s, sh) && logID <= |s.rows|
    requires if late then Reaches(NewSession(sh, logID), CloseOnce(sh.next, false, Nothing), t, Done)
             else Reaches(sh, EndRow(logID, Nothing), t, Done)
    ensures !media.Ready? && Same(M.CreateWebRTCSide(s, media, logID, endOk).0, t)
  {
    hide Same, Reaches, NewSession, M.CreateWebRTCSide;
    var sh1;
    if late {
      media := M.SetupError(M.CreateTrack);
      endOk, sh1 := SetUpErrorAlone(s, sh, logID, Nothing, t);
    } else {
      media := M.SocketError;
      endOk, sh1 := NoSessionAlone(s, sh, logID, Nothing, t);
    }
    Ended(sh1, t);
  }

  lemma DialSetUpAlone(s: M.State, sh: Shared, user: int, box: int, callID: string, logID: nat, logOk: bool, t: Shared)
    returns (env: M.DialEnv)
    requires Same(s, sh) && logID <= |s.rows| && Reaches(sh, DialSetUp(user, callID, logID), t, Done)
    ensures env.box.Found? && env.registration.Found? && env.logOk == logOk
    ensures var (s2, created) := M.CreateWebRTCSide(s, env.media, logID, env.endOk);
            Same(if created.None? then s2 else M.Dial(s2, created.value, user, box, env).0, t)
  {
    hide Same, Reaches, Exec, NewSession, M.Dial, M.CreateWebRTCSide;
    var c := Next(sh, DialSetUp(user, callID, logID), t);
    DialSetUpExec(sh, user, callID, logID, c);
    if c.Succeeds? {
      NewSame(s, sh, logID);
      env := DialAlone(M.OpenSession(s, logID), NewSession(sh, logID), s.next, user, box, callID, logOk, t);
    } else {
      var media, endOk := NoDialAlone(s, sh, logID, c.FailsLate?, t);
      env := M.DialEnv(M.Found, M.Found, logOk, media, true, None, true, callID, endOk);
    }
    CreatedIs(s, env.media, logID, env.endOk);
  }

  lemma StartCallAlone(s: M.State, sh: Shared, user: int, box: int, callID: string, t: Shared)
    returns (number: string, env: M.DialEnv)
    requires Same(s, sh) && Reaches(sh, DialGuard(user, callID), t, Done)
    ensures Same(M.StartCall(s, user, box, number, env).0, t)
  {
    hide Same, Reaches, Exec, M.CreateWebRTCSide, M.Dial;
    TablesAre(s, sh);
    env := M.DialEnv(M.NotFound, M.NotFound, true, M.Ready, true, None, true, callID, true);
    number := "1";
    var c := Next(sh, DialGuard(user, callID), t);
    GuardExec(sh, user, callID, c);
    if user in s.byUser || c.Fails? {
      Ended(sh, t);
    } else {
      c := Next(sh, DialLog(user, callID), t);
      GuardExec(sh, user, callID, c);
      LogSame(s, sh, c.Succeeds?, user, box, "dialing");
      var (s1, logID) := M.CreateLog(s, c.Succeeds?, user, box, "dialing");
      env := DialSetUpAlone(s1, LoggedShared(sh, c.Succeeds?).0, user, box, callID, logID, c.Succeeds?, t);
      TrimStays("1");
    }
  }

  // ----- rejecting, timing out, cancelling, arriving -----

  lemma RejectExec(sh: Shared, user: int, i: nat, c: Choice)
    requires i in sh.invites
    ensures Exec(sh, RejectLookup(user, i), c) == (sh, if i in sh.incoming then RejectAllowed(user, i) else Done)
    ensures Exec(sh, RejectAllowed(user, i), c) == (sh, if user in sh.invites[i].users then Respond(i, true) else Done)
  {
    hide Exec;
    EndingIs(sh, RejectLookup(user, i), c);
    EndingIs(sh, RejectAllowed(user, i), c);
  }

  lemma CancelExec(sh: Shared, i: nat, c: Choice)
    requires i in sh.invites
    ensures Exec(sh, CancelCheck(i), c) == (sh, if sh.invites[i].ended || sh.invites[i].connected then Done else FinishEnd(i))
  {
    hide Exec;
    EndingIs(sh, CancelCheck(i), c);
  }

  predicate MayReject(s: M.State, user: int, i: nat) {
    i in s.invites && i in s.incoming && user in s.invites[i].users
  }

  lemma RejectIs(s: M.State, user: int, i: nat, respondOk: bool)
    requires Named(s)
    ensures MayReject(s, user, i) ==>
              M.RejectIncoming(s, user, i, "declined", respondOk).0 ==
              var (s1, ok) := M.RejectWithResponse(s, i, respondOk); if ok then M.FinishInbound(s1, i, "declined") else s1
    ensures !MayReject(s, user, i) ==> M.RejectIncoming(s, user, i, "declined", respondOk).0 == s
  {
    TrimStays("declined");
    hide M.RejectWithResponse, M.FinishInbound;
  }

  lemma RejectIncomingAlone(s: M.State, sh: Shared, user: int, i: nat, t: Shared) returns (respondOk: bool)
    requires Same(s, sh) && Named(s) && i in s.invites && Reaches(sh, RejectLookup(user, i), t, Done)
    ensures Same(M.RejectIncoming(s, user, i, "declined", respondOk).0, t)
  {
    hide Same, Reaches, Exec, Named, M.RejectIncoming, M.RejectWithResponse, M.FinishInbound;
    TablesAre(s, sh);
    InviteIs(s, sh, i);
    respondOk := true;
    var c := Next(sh, RejectLookup(user, i), t);
    RejectExec(sh, user, i, c);
    if i in s.incoming {
      c := Next(sh, RejectAllowed(user, i), t);
      RejectExec(sh, user, i, c);
    }
    if MayReject(s, user, i) {
      var sh1;
      respondOk, sh1 := RespondAlone(s, sh, i, true, t);
      var (s1, ok) := M.RejectWithResponse(s, i, respondOk);
      if ok { FinishAlone(s1, sh1, i, "declined", t); } else { Ended(sh1, t); }
    } else {
      Ended(sh, t);
    }
    RejectIs(s, user, i, respondOk);
  }

  lemma TimerAlone(s: M.State, sh: Shared, i: nat, t: Shared) returns (respondOk: bool)
    requires Same(s, sh) && i in s.invites && s.invites[i].armed && !s.invites[i].ended && !s.invites[i].connected
    requires Reaches(Started(sh, Respond(i, false)), Respond(i, false), t, Done)
    ensures Same(M.TimerFires(s, i, respondOk), t)
  {
    InviteIs(s, sh, i);
    var v := s.invites[i].(armed := false);
    var s1 := s.(invites := s.invites[i := v]);
    InviteSame(s, sh, i, v);
    hide Same, Reaches, M.FinishInbound, M.RejectAndFinish;
    respondOk := RejectAlone(s1, SetInvite(sh, i, Short(v)), i, "timeout", t);
    FiredIs(s, i, respondOk);
  }

  lemma CancelAlone(s: M.State, sh: Shared, i: nat, t: Shared)
    requires Same(s, sh) && i in s.invites && Reaches(sh, CancelCheck(i), t, Done)
    ensures Same(M.DialogDone(s, i), t)
  {
    hide Same, Reaches, Exec, M.FinishInbound;
    InviteIs(s, sh, i);
    var c := Next(sh, CancelCheck(i), t);
    CancelExec(sh, i, c);
    if s.invites[i].ended || s.invites[i].connected { Ended(sh, t); } else { FinishAlone(s, sh, i, "remote canceled", t); }
  }

  lemma ArriveExec(sh: Shared, users: set<int>, sipCallID: string, i: nat, c: Choice)
    ensures Exec(sh, ArriveArm(users, sipCallID), c)
            == (sh.(next := sh.next + 1, invites := sh.invites[sh.next := Invite(users, sipCallID, true, false, false, 0)]),
                ArriveInsert(sh.next))
    ensures Exec(sh, ArriveInsert(i), c) == (sh.(incoming := sh.incoming + {i}, entered := sh.entered + {i}), ArriveEmit(i))
    ensures Exec(sh, ArriveEmit(i), c) == (Observe(sh, RingingSent(i)), Done)
  {
    hide Exec, Observe;
    ArrivingIs(sh, ArriveArm(users, sipCallID), c);
    ArrivingIs(sh, ArriveInsert(i), c);
    ArrivingIs(sh, ArriveEmit(i), c);
  }

  lemma ArrivedOnly(sh: Shared, users: set<int>, sipCallID: string, t: Shared)
    requires Reaches(sh, ArriveArm(users, sipCallID), t, Done)
    ensures t == ArrivedShared(sh, users, sipCallID)
  {
    hide Reaches, Exec, Observe;
    var i := sh.next;
    var c := Next(sh, ArriveArm(users, sipCallID), t);
    ArriveExec(sh, users, sipCallID, i, c);
    var sh1 := sh.(next := i + 1, invites := sh.invites[i := Invite(users, sipCallID, true, false, false, 0)]);
    c := Next(sh1, ArriveInsert(i), t);
    ArriveExec(sh1, users, sipCallID, i, c);
    TellsOnly(sh1.(incoming := sh1.incoming + {i}, entered := sh1.entered + {i}), i, t);
  }

  lemma TellsOnly(sh: Shared, i: nat, t: Shared)
    requires Reaches(sh, ArriveEmit(i), t, Done)
    ensures t == Observe(sh, RingingSent(i))
  {
    hide Reaches, Exec, Observe;
    var c := Next(sh, ArriveEmit(i), t);
    ArriveExec(sh, {}, "", i, c);
    Ended(Observe(sh, RingingSent(i)), t);
  }

  // ----- every thread, and every run of one thread after the other -----

  /** A thread for an invite that does not exist finds nothing. */
  lemma UnknownAlone(sh: Shared, pc: Pc, t: Shared)
    requires (IsAccept(pc) || IsEnd(pc)) && pc.invite !in sh.invites && Reaches(sh, pc, t, Done)
    ensures t == sh
  {
    var c := Next(sh, pc, t);
    assert Exec(sh, pc, c) == (sh, Done);
    hide Exec, Reaches;
    Ended(sh, t);
  }

  /** An INVITE whose audio cannot be used. */
  const NOTHING := M.Arrives(0, "", M.RingEnv(false, None, None))

  lemma NothingHappens(s: M.State)
    ensures M.Step(s, NOTHING) == s
  {}

  lemma InviteThread(s: M.State, sh: Shared, pc: Pc, t: Shared) returns (op: M.Op)
    requires Same(s, sh) && Named(s) && (pc.AcceptLookup? || pc.RejectLookup? || pc.CancelCheck?) && Reaches(sh, pc, t, Done)
    ensures Same(M.Step(s, op), t)
  {
    hide Same, Reaches, Named, M.AcceptIncoming, M.RejectIncoming, M.DialogDone;
    TablesAre(s, sh);
    op := NOTHING;
    if pc.invite !in s.invites {
      UnknownAlone(sh, pc, t);
      NothingHappens(s);
    } else if pc.AcceptLookup? {
      var env := AcceptAlone(s, sh, pc.user, pc.invite, t);
      op := M.Accepts(pc.user, pc.invite, env);
    } else if pc.RejectLookup? {
      var respondOk := RejectIncomingAlone(s, sh, pc.user, pc.invite, t);
      op := M.Rejects(pc.user, pc.invite, "declined", respondOk);
    } else {
      CancelAlone(s, sh, pc.invite, t);
      op := M.Cancels(pc.invite);
    }
  }

  lemma OtherThread(s: M.State, sh: Shared, pc: Pc, t: Shared) returns (op: M.Op)
    requires Same(s, sh) && Starts(sh, pc) && (pc.DialGuard? || pc.ArriveArm? || pc.CloseOnce?) && Reaches(sh, pc, t, Done)
    ensures Same(M.Step(s, op), t)
  {
    hide Same, Reaches, ArrivedShared, M.StartCall, M.OnIncomingInvite, M.Close;
    if pc.DialGuard? {
      var number, env := StartCallAlone(s, sh, pc.user, 0, pc.callID, t);
      op := M.Dials(pc.user, 0, number, env);
    } else if pc.ArriveArm? {
      var env := M.RingEnv(true, Some(pc.users), Some(1));
      ArrivedSame(s, sh, 0, pc.sipCallID, env);
      ArrivedOnly(sh, pc.users, pc.sipCallID, t);
      op := M.Arrives(0, pc.sipCallID, env);
    } else {
      TablesAre(s, sh);
      var how := M.Closer(pc.bye, "ended", "");
      var endOk, sh1 := CloseAlone(s, sh, pc.session, Nothing, how, t);
      Ended(sh1, t);
      op := M.Closes(pc.session, how, endOk);
    }
  }

  lemma ArmedIs(s: M.State, sh: Shared, i: nat)
    requires V.Inv(s) && Same(s, sh) && Starts(sh, Respond(i, false))
    ensures i in s.invites && s.invites[i].armed && !s.invites[i].ended && !s.invites[i].connected
  {
    hide V.Inv, Same;
    InvitesNamed(s);
    TablesAre(s, sh);
    InviteIs(s, sh, i);
  }

  lemma TimerThread(s: M.State, sh: Shared, i: nat, t: Shared) returns (op: M.Op)
    requires V.Inv(s) && Same(s, sh) && Starts(sh, Respond(i, false))
    requires Reaches(Started(sh, Respond(i, false)), Respond(i, false), t, Done)
    ensures Same(M.Step(s, op), t)
  {
    hide V.Inv, Same, Reaches, Starts, Started, M.TimerFires;
    ArmedIs(s, sh, i);
    var respondOk := TimerAlone(s, sh, i, t);
    op := M.Expires(i, respondOk);
  }

  /** Whatever a thread does that starts and runs alone to its end, some handler does in one step: together with
      HandlerRunsAlone, the critical sections of a handler make up the handler, no less and no more. */
  lemma ThreadIsAHandler(s: M.State, sh: Shared, pc: Pc, t: Shared) returns (op: M.Op)
    requires V.Inv(s) && Same(s, sh) && Starts(sh, pc) && Reaches(Started(sh, pc), pc, t, Done)
    ensures Same(M.Step(s, op), t)
  {
    hide V.Inv, Same, Reaches, M.Step;
    if pc.Respond? {
      op := TimerThread(s, sh, pc.invite, t);
    } else {
      NotFiring(sh, pc);
      if pc.AcceptLookup? || pc.RejectLookup? || pc.CancelCheck? {
        InvitesNamed(s);
        op := InviteThread(s, sh, pc, t);
      } else {
        op := OtherThread(s, sh, pc, t);
      }
    }
  }

  /** Threads run one after the other, each alone. */
  ghost predicate Serial(tables: seq<Shared>) {
    && tables != [] && tables[0] == EMPTY.shared
    && forall j :: 0 <= j < |tables| - 1 ==> RunsAlone(tables[j], tables[j + 1])
  }

  lemma {:induction false} OpsAppend(s: M.State, ops: seq<M.Op>, op: M.Op)
    ensures M.Run(s, ops + [op]) == M.Step(M.Run(s, ops), op)
    decreases ops
  {
    hide M.Step;
    if ops == [] {
      assert [op][1..] == [] && [] + [op] == [op];
      assert M.Run(s, [op]) == M.Run(M.Step(s, op), []);
    } else {
      assert (ops + [op])[1..] == ops[1..] + [op];
      OpsAppend(M.Step(s, ops[0]), ops[1..], op);
    }
  }

  lemma OneMore(s: M.State, sh: Shared, t: Shared) returns (op: M.Op)
    requires V.Inv(s) && Same(s, sh) && RunsAlone(sh, t)
    ensures Same(M.Step(s, op), t)
  {
    hide V.Inv, Same, Reaches, Starts, Started, M.Step;
    if t == sh {
      NothingHappens(s);
      op := NOTHING;
    } else {
      var pc :| Starts(sh, pc) && Reaches(Started(sh, pc), pc, t, Done);
      op := ThreadIsAHandler(s, sh, pc, t);
    }
  }

  /** Whatever threads reach that run one after the other, some run of whole handlers reaches. */
  lemma {:induction false} SerialRunsAreWholeHandlers(tables: seq<Shared>) returns (ops: seq<M.Op>)
    requires Serial(tables)
    ensures Same(M.Run(M.EMPTY, ops), tables[|tables| - 1])
    decreases |tables|
  {
    hide V.Inv, Same, RunsAlone;
    if |tables| == 1 {
      ops := [];
      EmptySame();
      assert M.Run(M.EMPTY, []) == M.EMPTY;
    } else {
      var n := |tables| - 1;
      ops := SerialRunsAreWholeHandlers(tables[..n]);
      Q.Reachable(ops);
      assert RunsAlone(tables[n - 1], tables[n - 1 + 1]);
      var op := OneMore(M.Run(M.EMPTY, ops), tables[n - 1], tables[n]);
      OpsAppend(M.EMPTY, ops, op);
      ops := ops + [op];
    }
  }

  lemma EmptySame()
    ensures Same(M.EMPTY, EMPTY.shared)
  {}
}
