/**
 The two granularities of the call manager fit together: a handler that runs alone through
 its critical sections does to the tables what the handler does in one step, so every run of
 whole handlers is one of the interleavings.
 */
module CallGranularity {
  import opened Wrappers
  import opened Strings
  import M = CallModel
  import V = CallInvariants
  import P = CallPreservation
  import opened I = CallInterleaving
  import opened Z = CallInterleavingSafety

  // ----- the same tables -----

  function Brief(c: M.Session): Session {
    Session(c.user, c.logID, c.dialog != M.NoDialog, c.closeOnce)
  }

  ghost predicate SameSessions(a: map<nat, M.Session>, b: map<nat, Session>) {
    a.Keys == b.Keys && forall k <- a :: b[k] == Brief(a[k])
  }

  function Short(i: M.Invite): Invite {
    Invite(i.users, i.sipCallID, i.armed, i.ended, i.connected, i.answeredBy)
  }

  ghost predicate SameRinging(a: map<nat, M.Invite>, b: map<nat, Invite>) {
    a.Keys == b.Keys && forall k <- a :: b[k] == Short(a[k])
  }

  predicate IsAnnouncement(o: Observed) {
    o.RingingSent? || o.AnsweredSent? || o.StoppedSent?
  }

  /** What the notifier sees of the trace. */
  function Announced(trace: seq<Observed>): seq<Observed> {
    if trace == [] then []
    else
      var o := trace[|trace| - 1];
      Announced(trace[..|trace| - 1]) + if IsAnnouncement(o) then [o] else []
  }

  function Announcement(e: M.Event): Observed {
    match e.kind
    case Ringing => RingingSent(e.invite)
    case Answered => AnsweredSent(e.invite)
    case Stopped => StoppedSent(e.invite)
  }

  function Announcements(events: seq<M.Event>): seq<Observed> {
    if events == [] then [] else Announcements(events[..|events| - 1]) + [Announcement(events[|events| - 1])]
  }

  lemma AnnouncedAppend(trace: seq<Observed>, o: Observed)
    ensures Announced(trace + [o]) == Announced(trace) + (if IsAnnouncement(o) then [o] else [])
  {
    assert (trace + [o])[..|trace|] == trace;
  }

  lemma AnnouncementsAppend(events: seq<M.Event>, e: M.Event)
    ensures Announcements(events + [e]) == Announcements(events) + [Announcement(e)]
  {
    assert (events + [e])[..|events|] == events;
  }

  ghost predicate EndsAre(sessions: map<nat, M.Session>, trace: seq<Observed>, k: nat) {
    && Count(trace, CallEnded(k)) == (if k in sessions then |sessions[k].hangups| else 0)
    && Count(trace, ByeSent(k)) == (if k in sessions then sessions[k].byes else 0)
  }

  /** The same BYEs went out and the same ends were reported. */
  ghost predicate SameEnds(sessions: map<nat, M.Session>, trace: seq<Observed>) {
    forall k: nat :: EndsAre(sessions, trace, k)
  }

  /** The same rows of the call log were ended, as often. */
  ghost predicate SameRows(rows: seq<M.Row>, trace: seq<Observed>) {
    forall r: nat :: Count(trace, RowEnded(r)) == if 0 < r <= |rows| then rows[r - 1].ends else 0
  }

  ghost predicate Numbered(sessions: map<nat, M.Session>, next: nat, rows: nat) {
    forall k <- sessions :: k < next && sessions[k].logID <= rows
  }

  /** The tables agree; the same events went out in the same order, with the same BYEs and ends of calls and rows. */
  ghost predicate Same(s: M.State, sh: Shared) {
    && Announced(sh.trace) == Announcements(s.events)
    && SameEnds(s.sessions, sh.trace) && SameRows(s.rows, sh.trace)
    && Numbered(s.sessions, s.next, |s.rows|) && sh.rows == |s.rows|
    && sh.next == s.next && sh.byID == s.byID && sh.bySIP == s.bySIP && sh.byUser == s.byUser
    && sh.incoming == s.incoming.Keys
    && SameSessions(s.sessions, sh.sessions) && SameRinging(s.invites, sh.invites)
  }

  /** A session changes, or is new. */
  lemma SessionChanges(a: map<nat, M.Session>, b: map<nat, Session>, next: nat, rows: nat, k: nat, c: M.Session)
    requires SameSessions(a, b) && Numbered(a, next, rows) && c.logID <= rows
    ensures SameSessions(a[k := c], b[k := Brief(c)])
    ensures Numbered(a[k := c], if k < next then next else k + 1, rows)
  {}

  // ----- one thread alone -----

  function Solo(sh: Shared, pc: Pc, choices: seq<Choice>): (Shared, Pc)
    decreases choices
  {
    if choices == [] then (sh, pc)
    else
      var (sh1, pc1) := Exec(sh, pc, choices[0]);
      Solo(sh1, pc1, choices[1..])
  }

  ghost predicate Reaches(sh: Shared, pc: Pc, t: Shared, end: Pc) {
    exists choices :: Solo(sh, pc, choices) == (t, end)
  }

  lemma {:induction false} SoloAppend(sh: Shared, pc: Pc, first: seq<Choice>, second: seq<Choice>)
    ensures Solo(sh, pc, first + second) == (var (sh1, pc1) := Solo(sh, pc, first); Solo(sh1, pc1, second))
    decreases first
  {
    hide Exec;
    if first == [] {
      assert [] + second == second;
    } else {
      var (sh1, pc1) := Exec(sh, pc, first[0]);
      assert (first + second)[1..] == first[1..] + second;
      SoloAppend(sh1, pc1, first[1..], second);
    }
  }

  ghost predicate Steps(sh: Shared, pc: Pc, sh1: Shared, pc1: Pc) {
    exists c :: Exec(sh, pc, c) == (sh1, pc1)
  }

  lemma OneStep(sh: Shared, pc: Pc, c: Choice)
    ensures Steps(sh, pc, Exec(sh, pc, c).0, Exec(sh, pc, c).1)
  {
    hide Exec;
    assert Exec(sh, pc, c) == (Exec(sh, pc, c).0, Exec(sh, pc, c).1);
  }

  /** The thread takes one step and then goes on as it is known to. */
  lemma StepThen(sh: Shared, pc: Pc, sh1: Shared, pc1: Pc, t: Shared, end: Pc)
    requires Steps(sh, pc, sh1, pc1) && Reaches(sh1, pc1, t, end)
    ensures Reaches(sh, pc, t, end)
  {
    hide Exec;
    var c :| Exec(sh, pc, c) == (sh1, pc1);
    var choices :| Solo(sh1, pc1, choices) == (t, end);
    assert ([c] + choices)[1..] == choices;
    assert Solo(sh, pc, [c] + choices) == (t, end);
  }

  lemma Stays(sh: Shared, pc: Pc)
    ensures Reaches(sh, pc, sh, pc)
  {
    assert Solo(sh, pc, []) == (sh, pc);
  }

  lemma Then(sh: Shared, pc: Pc, sh1: Shared, pc1: Pc, t: Shared, end: Pc)
    requires Reaches(sh, pc, sh1, pc1) && Reaches(sh1, pc1, t, end)
    ensures Reaches(sh, pc, t, end)
  {
    hide Solo;
    var first :| Solo(sh, pc, first) == (sh1, pc1);
    var second :| Solo(sh1, pc1, second) == (t, end);
    SoloAppend(sh, pc, first, second);
  }

  // ----- the critical sections, one by one -----

  function Chosen(ok: bool): Choice {
    if ok then Succeeds else Fails
  }

  lemma CloseSteps(sh: Shared, k: nat, bye: bool, after: After, endOk: bool)
    requires k in sh.sessions
    ensures !sh.sessions[k].closing ==>
              Steps(sh, CloseOnce(k, bye, after),
                    sh.(sessions := sh.sessions[k := sh.sessions[k].(closing := true)]), CloseBye(k, bye, after))
    ensures sh.sessions[k].closing ==> Steps(sh, CloseOnce(k, bye, after), sh, Resume(after))
    ensures Steps(sh, CloseBye(k, bye, after),
                  if bye && sh.sessions[k].dialog then Observe(sh, ByeSent(k)) else sh, CloseUnregister(k, after))
    ensures Steps(sh, CloseUnregister(k, after), Unregister(sh, k), CloseLog(k, after))
    ensures Steps(sh, CloseLog(k, after), EndLog(sh, sh.sessions[k].row, Chosen(endOk)), CloseDone(k, after))
    ensures Steps(sh, CloseDone(k, after), Observe(sh, CallEnded(k)), Resume(after))
  {
    hide Steps, ExecAccept, ExecEnd, ExecArrive, ExecDial, Unregister, Observe, EndLog, Resume;
    OneStep(sh, CloseOnce(k, bye, after), Succeeds);
    OneStep(sh, CloseBye(k, bye, after), Succeeds);
    OneStep(sh, CloseUnregister(k, after), Succeeds);
    OneStep(sh, CloseLog(k, after), Chosen(endOk));
    OneStep(sh, CloseDone(k, after), Succeeds);
  }

  lemma EndRowSteps(sh: Shared, row: nat, after: After, endOk: bool)
    ensures Steps(sh, EndRow(row, after), EndLog(sh, row, Chosen(endOk)), Resume(after))
  {
    hide Steps, ExecAccept, ExecEnd, ExecArrive, ExecDial, EndLog, Resume;
    OneStep(sh, EndRow(row, after), Chosen(endOk));
  }

  /** The call log as the insert of a row leaves it, and the row. */
  function LoggedShared(sh: Shared, ok: bool): (Shared, nat) {
    if ok then (sh.(rows := sh.rows + 1), sh.rows + 1) else (sh, 0)
  }

  lemma GuardSteps(sh: Shared, user: int, callID: string, ok: bool)
    ensures Steps(sh, DialGuard(user, callID), sh, if user in sh.byUser then Done else DialLog(user, callID))
    ensures Steps(sh, DialGuard(user, callID), sh, Done)
    ensures var (sh1, row) := LoggedShared(sh, ok); Steps(sh, DialLog(user, callID), sh1, DialSetUp(user, callID, row))
  {
    hide Steps, ExecAccept, ExecEnd, ExecArrive, ExecClose;
    OneStep(sh, DialGuard(user, callID), Succeeds);
    OneStep(sh, DialGuard(user, callID), Fails);
    OneStep(sh, DialLog(user, callID), Chosen(ok));
  }

  lemma SetUpSteps(sh: Shared, user: int, callID: string, row: nat)
    ensures Steps(sh, DialSetUp(user, callID, row), sh, EndRow(row, Nothing))
    ensures Steps(sh, DialSetUp(user, callID, row), NewSession(sh, row), CloseOnce(sh.next, false, Nothing))
    ensures Steps(sh, DialSetUp(user, callID, row), NewSession(sh, row), DialAssign(user, callID, sh.next))
  {
    hide Steps, ExecAccept, ExecEnd, ExecArrive, ExecClose, NewSession;
    OneStep(sh, DialSetUp(user, callID, row), Fails);
    OneStep(sh, DialSetUp(user, callID, row), FailsLate);
    OneStep(sh, DialSetUp(user, callID, row), Succeeds);
  }

  lemma DialSteps(sh: Shared, user: int, callID: string, k: nat)
    ensures Steps(sh, DialAssign(user, callID, k), Assign(sh, k, user, false), DialInvite(callID, k))
    ensures Steps(sh, DialInvite(callID, k), OpenDialog(sh, k), DialRegister(callID, k))
    ensures Steps(sh, DialInvite(callID, k), OpenDialog(sh, k), CloseOnce(k, true, Nothing))
    ensures Steps(sh, DialInvite(callID, k), sh, CloseOnce(k, false, Nothing))
    ensures Steps(sh, DialRegister(callID, k), Register(sh, k, callID), Done)
  {
    hide Steps, ExecAccept, ExecEnd, ExecArrive, ExecClose, Register, Assign, OpenDialog;
    OneStep(sh, DialAssign(user, callID, k), Succeeds);
    OneStep(sh, DialInvite(callID, k), Succeeds);
    OneStep(sh, DialInvite(callID, k), FailsLate);
    OneStep(sh, DialInvite(callID, k), Fails);
    OneStep(sh, DialRegister(callID, k), Succeeds);
  }

  lemma FinishSteps(sh: Shared, i: nat)
    requires i in sh.invites
    ensures sh.invites[i].ended ==> Steps(sh, FinishEnd(i), sh, Done)
    ensures !sh.invites[i].ended ==>
              Steps(sh, FinishEnd(i), SetInvite(sh, i, sh.invites[i].(ended := true, armed := false)), FinishRemove(i))
    ensures Steps(sh, FinishRemove(i), sh.(incoming := sh.incoming - {i}), FinishEmit(i))
    ensures Steps(sh, FinishEmit(i), Observe(sh, StoppedSent(i)), FinishClose(i))
    ensures Steps(sh, FinishClose(i), Observe(sh, DialogClosed(i)), Done)
  {
    OneStep(sh, FinishEnd(i), Succeeds);
    OneStep(sh, FinishRemove(i), Succeeds);
    OneStep(sh, FinishEmit(i), Succeeds);
    OneStep(sh, FinishClose(i), Succeeds);
    hide Steps, ExecAccept, ExecDial, ExecClose, ExecArrive, SetInvite, Observe;
  }

  lemma RespondSteps(sh: Shared, i: nat, strict: bool)
    requires i in sh.invites
    ensures var v := sh.invites[i];
            if v.ended || v.connected then Steps(sh, Respond(i, strict), sh, FinishEnd(i))
            else
              var sh1 := SetInvite(sh, i, v.(armed := false));
              && Steps(sh, Respond(i, strict), Observe(sh1, RejectSent(i)), FinishEnd(i))
              && Steps(sh, Respond(i, strict), sh1, if strict then Done else FinishEnd(i))
  {
    OneStep(sh, Respond(i, strict), Succeeds);
    OneStep(sh, Respond(i, strict), Fails);
    hide Steps, ExecAccept, ExecDial, ExecClose, ExecArrive, SetInvite, Observe;
  }

  lemma RejectSteps(sh: Shared, user: int, i: nat)
    requires i in sh.invites
    ensures Steps(sh, RejectLookup(user, i), sh, if i in sh.incoming then RejectAllowed(user, i) else Done)
    ensures Steps(sh, RejectAllowed(user, i), sh, if user in sh.invites[i].users then Respond(i, true) else Done)
    ensures Steps(sh, CancelCheck(i), sh, if sh.invites[i].ended || sh.invites[i].connected then Done else FinishEnd(i))
  {
    OneStep(sh, RejectLookup(user, i), Succeeds);
    OneStep(sh, RejectAllowed(user, i), Succeeds);
    OneStep(sh, CancelCheck(i), Succeeds);
    hide Steps, ExecAccept, ExecDial, ExecClose, ExecArrive;
  }

  lemma ClaimSteps(sh: Shared, user: int, i: nat, ok: bool)
    requires i in sh.invites
    ensures Steps(sh, AcceptLookup(user, i), sh, if i in sh.incoming then AcceptAllowed(user, i) else Done)
    ensures Steps(sh, AcceptAllowed(user, i), sh, if user in sh.invites[i].users then AcceptGuard(user, i) else Done)
    ensures Steps(sh, AcceptGuard(user, i), sh, if user in sh.byUser then Done else AcceptClaim(user, i))
    ensures var v := sh.invites[i];
            if v.ended || v.connected then Steps(sh, AcceptClaim(user, i), sh, Done)
            else Steps(sh, AcceptClaim(user, i),
                       Observe(SetInvite(sh, i, v.(answeredBy := user, armed := false)), Claimed(i)), AcceptLog(user, i))
    ensures var (sh1, row) := LoggedShared(sh, ok); Steps(sh, AcceptLog(user, i), sh1, AcceptSetUp(user, i, row))
  {
    OneStep(sh, AcceptLookup(user, i), Succeeds);
    OneStep(sh, AcceptAllowed(user, i), Succeeds);
    OneStep(sh, AcceptGuard(user, i), Succeeds);
    OneStep(sh, AcceptClaim(user, i), Succeeds);
    OneStep(sh, AcceptLog(user, i), Chosen(ok));
    hide Steps, ExecEnd, ExecDial, ExecClose, ExecArrive, Observe, SetInvite;
  }

  lemma MediaSteps(sh: Shared, user: int, i: nat, row: nat)
    requires i in sh.invites
    ensures Steps(sh, AcceptSetUp(user, i, row), sh, EndRow(row, ThenReject(i)))
    ensures Steps(sh, AcceptSetUp(user, i, row), NewSession(sh, row), CloseOnce(sh.next, false, ThenReject(i)))
    ensures Steps(sh, AcceptSetUp(user, i, row), NewSession(sh, row), AcceptAssign(user, i, sh.next))
  {
    hide Steps, ExecAnswer, ExecEnd, ExecDial, ExecClose, ExecArrive, NewSession;
    OneStep(sh, AcceptSetUp(user, i, row), Fails);
    OneStep(sh, AcceptSetUp(user, i, row), FailsLate);
    OneStep(sh, AcceptSetUp(user, i, row), Succeeds);
  }

  lemma AnswerSteps(sh: Shared, user: int, i: nat, k: nat)
    requires i in sh.invites
    ensures Steps(sh, AcceptAssign(user, i, k), sh, CloseOnce(k, false, ThenReject(i)))
    ensures Steps(sh, AcceptAssign(user, i, k), Assign(sh, k, user, true), AcceptAnswer(i, k))
    ensures Steps(sh, AcceptAnswer(i, k), sh, CloseOnce(k, false, ThenFinish(i)))
    ensures Steps(sh, AcceptAnswer(i, k), Observe(sh, OkSent(i)), AcceptConnect(i, k))
  {
    hide Steps, ExecClaim, ExecEnd, ExecDial, ExecClose, ExecArrive, Observe, Assign;
    OneStep(sh, AcceptAssign(user, i, k), Fails);
    OneStep(sh, AcceptAssign(user, i, k), Succeeds);
    OneStep(sh, AcceptAnswer(i, k), Fails);
    OneStep(sh, AcceptAnswer(i, k), Succeeds);
  }

  lemma ConnectSteps(sh: Shared, i: nat, k: nat)
    requires i in sh.invites
    ensures Steps(sh, AcceptConnect(i, k), SetInvite(sh, i, sh.invites[i].(connected := true)), AcceptRegister(i, k))
    ensures Steps(sh, AcceptRegister(i, k), Register(sh, k, sh.invites[i].sipCallID), AcceptRemove(i))
    ensures Steps(sh, AcceptRemove(i), sh.(incoming := sh.incoming - {i}), AcceptEmit(i))
    ensures Steps(sh, AcceptEmit(i), Observe(sh, AnsweredSent(i)), Done)
  {
    OneStep(sh, AcceptConnect(i, k), Succeeds);
    OneStep(sh, AcceptRegister(i, k), Succeeds);
    OneStep(sh, AcceptRemove(i), Succeeds);
    OneStep(sh, AcceptEmit(i), Succeeds);
    hide Steps, ExecEnd, ExecDial, ExecClose, ExecArrive, Observe, SetInvite, Register;
  }

  lemma ArriveSteps(sh: Shared, users: set<int>, sipCallID: string, i: nat)
    ensures Steps(sh, ArriveArm(users, sipCallID),
                  sh.(next := sh.next + 1, invites := sh.invites[sh.next := Invite(users, sipCallID, true, false, false, 0)]),
                  ArriveInsert(sh.next))
    ensures Steps(sh, ArriveInsert(i), sh.(incoming := sh.incoming + {i}, entered := sh.entered + {i}), ArriveEmit(i))
    ensures Steps(sh, ArriveEmit(i), Observe(sh, RingingSent(i)), Done)
  {
    OneStep(sh, ArriveArm(users, sipCallID), Succeeds);
    OneStep(sh, ArriveInsert(i), Succeeds);
    OneStep(sh, ArriveEmit(i), Succeeds);
    hide Steps, ExecEnd, ExecDial, ExecClose, ExecAccept, Observe;
  }

  // ----- what the trace says -----

  lemma OtherEnds(sessions: map<nat, M.Session>, trace: seq<Observed>, o: Observed)
    requires SameEnds(sessions, trace) && !o.CallEnded? && !o.ByeSent?
    ensures SameEnds(sessions, trace + [o])
  {
    forall k: nat
      ensures EndsAre(sessions, trace + [o], k)
    {
      assert EndsAre(sessions, trace, k);
      CountAppend(trace, o, CallEnded(k));
      CountAppend(trace, o, ByeSent(k));
    }
  }

  lemma ByeEnds(sessions: map<nat, M.Session>, trace: seq<Observed>, k: nat, c: M.Session)
    requires SameEnds(sessions, trace) && k in sessions
    requires c.hangups == sessions[k].hangups && c.byes == sessions[k].byes + 1
    ensures SameEnds(sessions[k := c], trace + [ByeSent(k)])
  {
    hide Count;
    var after := sessions[k := c];
    forall j: nat
      ensures EndsAre(after, trace + [ByeSent(k)], j)
    {
      assert EndsAre(sessions, trace, j);
      CountAppend(trace, ByeSent(k), CallEnded(j));
      CountAppend(trace, ByeSent(k), ByeSent(j));
    }
  }

  lemma HangupEnds(sessions: map<nat, M.Session>, trace: seq<Observed>, k: nat, c: M.Session)
    requires SameEnds(sessions, trace) && k in sessions
    requires |c.hangups| == |sessions[k].hangups| + 1 && c.byes == sessions[k].byes
    ensures SameEnds(sessions[k := c], trace + [CallEnded(k)])
  {
    hide Count;
    var after := sessions[k := c];
    forall j: nat
      ensures EndsAre(after, trace + [CallEnded(k)], j)
    {
      assert EndsAre(sessions, trace, j);
      CountAppend(trace, CallEnded(k), CallEnded(j));
      CountAppend(trace, CallEnded(k), ByeSent(j));
    }
  }

  /** A session that is new, or whose BYEs and hangups are as before. */
  lemma AlikeEnds(sessions: map<nat, M.Session>, trace: seq<Observed>, k: nat, c: M.Session)
    requires SameEnds(sessions, trace)
    requires if k in sessions then c.byes == sessions[k].byes && |c.hangups| == |sessions[k].hangups|
             else c.byes == 0 && c.hangups == []
    ensures SameEnds(sessions[k := c], trace)
  {
    hide Count;
    var after := sessions[k := c];
    forall j: nat
      ensures EndsAre(after, trace, j)
    {
      assert EndsAre(sessions, trace, j);
    }
  }

  lemma OtherRows(rows: seq<M.Row>, trace: seq<Observed>, o: Observed)
    requires SameRows(rows, trace) && !o.RowEnded?
    ensures SameRows(rows, trace + [o])
  {
    forall r: nat
      ensures Count(trace + [o], RowEnded(r)) == Count(trace, RowEnded(r))
    {
      CountAppend(trace, o, RowEnded(r));
    }
    hide Count;
  }

  lemma EndedRows(rows: seq<M.Row>, trace: seq<Observed>, row: nat, status: string, reason: string)
    requires SameRows(rows, trace) && 0 < row <= |rows|
    ensures SameRows(M.EndRow(rows, row, status, reason), trace + [RowEnded(row)])
  {
    forall r: nat
      ensures Count(trace + [RowEnded(row)], RowEnded(r)) == Count(trace, RowEnded(r)) + if r == row then 1 else 0
    {
      CountAppend(trace, RowEnded(row), RowEnded(r));
    }
    hide Count;
  }

  /** What is observed is neither an announcement nor counted. */
  predicate IsSilent(o: Observed) {
    !IsAnnouncement(o) && !o.CallEnded? && !o.ByeSent? && !o.RowEnded?
  }

  lemma ObserveSame(s: M.State, sh: Shared, o: Observed)
    requires Same(s, sh) && IsSilent(o)
    ensures Same(s, Observe(sh, o))
  {
    AnnouncedAppend(sh.trace, o);
    OtherEnds(s.sessions, sh.trace, o);
    OtherRows(s.rows, sh.trace, o);
    hide SameEnds, SameRows, Announced;
  }

  /** The update that ends a row does what it does to the trace. */
  lemma EndLogSame(s: M.State, sh: Shared, logID: nat, ok: bool, status: string, reason: string)
    requires Same(s, sh) && logID <= |s.rows|
    ensures Same(M.EndLog(s, logID, ok, status, reason), EndLog(sh, logID, Chosen(ok)))
  {
    if logID > 0 && ok {
      AnnouncedAppend(sh.trace, RowEnded(logID));
      OtherEnds(s.sessions, sh.trace, RowEnded(logID));
      EndedRows(s.rows, sh.trace, logID, status, reason);
    }
    hide SameEnds, SameRows, Announced;
  }

  // ----- closing a session -----

  function ByeShared(sh: Shared, k: nat, bye: bool): Shared
    requires k in sh.sessions
  {
    var sh1 := sh.(sessions := sh.sessions[k := sh.sessions[k].(closing := true)]);
    if bye && sh.sessions[k].dialog then Observe(sh1, ByeSent(k)) else sh1
  }

  function ClosedShared(sh: Shared, k: nat, bye: bool, endOk: bool): Shared
    requires k in sh.sessions
  {
    Observe(EndLog(Unregister(ByeShared(sh, k, bye), k), sh.sessions[k].row, Chosen(endOk)), CallEnded(k))
  }

  /** The session after the BYE; its end is still to be reported. */
  function Parted(c: M.Session, how: M.Closer): M.Session {
    M.Closed(c, how).(hangups := c.hangups)
  }

  function PartedState(s: M.State, k: nat, how: M.Closer): M.State
    requires k in s.sessions
  {
    s.(sessions := s.sessions[k := Parted(s.sessions[k], how)], sockets := s.sockets - {k}, peers := s.peers - {k})
  }

  lemma ByeSame(s: M.State, sh: Shared, k: nat, how: M.Closer)
    requires Same(s, sh) && k in s.sessions && k in sh.sessions
    ensures Same(PartedState(s, k, how), ByeShared(sh, k, how.sendBye))
  {
    SessionIs(s, sh, k);
    hide SameEnds, SameRows, Announced, SameSessions, Numbered, SameRinging;
    var c := Parted(s.sessions[k], how);
    SessionChanges(s.sessions, sh.sessions, s.next, |s.rows|, k, c);
    if how.sendBye && s.sessions[k].dialog != M.NoDialog {
      AnnouncedAppend(sh.trace, ByeSent(k));
      ByeEnds(s.sessions, sh.trace, k, c);
      OtherRows(s.rows, sh.trace, ByeSent(k));
    } else {
      AlikeEnds(s.sessions, sh.trace, k, c);
    }
  }

  lemma UnregisterSame(s: M.State, sh: Shared, k: nat)
    requires Same(s, sh) && k in s.sessions
    ensures Same(M.Unregister(s, k), Unregister(sh, k))
  {
    hide SameEnds, SameRows, Announced;
  }

  lemma HangupSame(s: M.State, sh: Shared, k: nat, reason: string)
    requires Same(s, sh) && k in s.sessions
    ensures Same(s.(sessions := s.sessions[k := s.sessions[k].(hangups := s.sessions[k].hangups + [reason])]),
                 Observe(sh, CallEnded(k)))
  {
    SessionIs(s, sh, k);
    hide SameEnds, SameRows, Announced, SameSessions, Numbered, SameRinging;
    var c := s.sessions[k].(hangups := s.sessions[k].hangups + [reason]);
    SessionChanges(s.sessions, sh.sessions, s.next, |s.rows|, k, c);
    assert sh.sessions[k := Brief(c)] == sh.sessions;
    AnnouncedAppend(sh.trace, CallEnded(k));
    HangupEnds(s.sessions, sh.trace, k, c);
    OtherRows(s.rows, sh.trace, CallEnded(k));
  }

  lemma CloseIs(s: M.State, k: nat, how: M.Closer, endOk: bool)
    requires k in s.sessions && !s.sessions[k].closeOnce
    ensures var s1 := M.EndLog(M.Unregister(PartedState(s, k, how), k), s.sessions[k].logID, endOk, how.status, how.reason);
            && k in s1.sessions && s1.sessions[k].hangups == s.sessions[k].hangups
            && M.Close(s, k, how, endOk)
               == s1.(sessions := s1.sessions[k := s1.sessions[k].(hangups := s1.sessions[k].hangups + [how.reason])])
  {
    var c := M.Closed(s.sessions[k], how);
    assert s.sessions[k := Parted(s.sessions[k], how)][k := c] == s.sessions[k := c];
    hide M.EndRow;
  }

  lemma SessionIs(s: M.State, sh: Shared, k: nat)
    requires Same(s, sh) && k in s.sessions
    ensures k in sh.sessions && sh.sessions[k] == Brief(s.sessions[k])
    ensures s.sessions[k].logID <= |s.rows| && k < s.next
  {
    hide SameEnds, SameRows, Announced;
  }

  lemma ClosedSame(s: M.State, sh: Shared, k: nat, how: M.Closer, endOk: bool)
    requires Same(s, sh) && k in s.sessions && k in sh.sessions && !s.sessions[k].closeOnce
    ensures Same(M.Close(s, k, how, endOk), ClosedShared(sh, k, how.sendBye, endOk))
  {
    SessionIs(s, sh, k);
    CloseIs(s, k, how, endOk);
    hide Same, M.Close, M.EndLog, Unregister, EndLog, Observe, ByeShared;
    ByeSame(s, sh, k, how);
    var s1, sh1 := PartedState(s, k, how), ByeShared(sh, k, how.sendBye);
    UnregisterSame(s1, sh1, k);
    EndLogSame(M.Unregister(s1, k), Unregister(sh1, k), s.sessions[k].logID, endOk, how.status, how.reason);
    HangupSame(M.EndLog(M.Unregister(s1, k), s.sessions[k].logID, endOk, how.status, how.reason),
               EndLog(Unregister(sh1, k), s.sessions[k].logID, Chosen(endOk)), k, how.reason);
  }

  lemma ByeReached(sh: Shared, k: nat, bye: bool, after: After, t: Shared, end: Pc)
    requires k in sh.sessions && !sh.sessions[k].closing
    requires Reaches(ByeShared(sh, k, bye), CloseUnregister(k, after), t, end)
    ensures Reaches(sh, CloseOnce(k, bye, after), t, end)
  {
    hide Steps, Reaches, Unregister, Observe, EndLog, Resume;
    var sh1 := sh.(sessions := sh.sessions[k := sh.sessions[k].(closing := true)]);
    CloseSteps(sh, k, bye, after, true);
    CloseSteps(sh1, k, bye, after, true);
    StepThen(sh1, CloseBye(k, bye, after), ByeShared(sh, k, bye), CloseUnregister(k, after), t, end);
    StepThen(sh, CloseOnce(k, bye, after), sh1, CloseBye(k, bye, after), t, end);
  }

  lemma ClosedReached(sh: Shared, k: nat, bye: bool, after: After, endOk: bool)
    requires k in sh.sessions && !sh.sessions[k].closing
    ensures Reaches(sh, CloseOnce(k, bye, after), ClosedShared(sh, k, bye, endOk), Resume(after))
  {
    hide Steps, Reaches, Unregister, Observe, EndLog, Resume;
    var sh2 := ByeShared(sh, k, bye);
    var sh3 := Unregister(sh2, k);
    var sh4 := EndLog(sh3, sh.sessions[k].row, Chosen(endOk));
    var t := ClosedShared(sh, k, bye, endOk);
    assert sh2.sessions[k].row == sh.sessions[k].row;
    CloseSteps(sh2, k, bye, after, endOk);
    CloseSteps(sh3, k, bye, after, endOk);
    CloseSteps(sh4, k, bye, after, endOk);
    Stays(t, Resume(after));
    StepThen(sh4, CloseDone(k, after), t, Resume(after), t, Resume(after));
    StepThen(sh3, CloseLog(k, after), sh4, CloseDone(k, after), t, Resume(after));
    StepThen(sh2, CloseUnregister(k, after), sh3, CloseLog(k, after), t, Resume(after));
    ByeReached(sh, k, bye, after, t, Resume(after));
  }

  lemma SoloClose(s: M.State, sh: Shared, k: nat, after: After, how: M.Closer, endOk: bool) returns (t: Shared)
    requires Same(s, sh) && k in s.sessions
    ensures Same(M.Close(s, k, how, endOk), t) && Reaches(sh, CloseOnce(k, how.sendBye, after), t, Resume(after))
  {
    hide Same, Steps, Reaches, Resume, ClosedShared, M.EndLog, M.Unregister;
    SessionIs(s, sh, k);
    if s.sessions[k].closeOnce {
      t := sh;
      CloseSteps(sh, k, how.sendBye, after, endOk);
      Stays(t, Resume(after));
      StepThen(sh, CloseOnce(k, how.sendBye, after), t, Resume(after), t, Resume(after));
    } else {
      ClosedSame(s, sh, k, how, endOk);
      t := ClosedShared(sh, k, how.sendBye, endOk);
      ClosedReached(sh, k, how.sendBye, after, endOk);
    }
  }

  // ----- ending an invite -----

  function FinishedShared(sh: Shared, i: nat): Shared
    requires i in sh.invites
  {
    var sh1 := SetInvite(sh, i, sh.invites[i].(ended := true, armed := false));
    Observe(Observe(sh1.(incoming := sh1.incoming - {i}), StoppedSent(i)), DialogClosed(i))
  }

  lemma FinishedAnnounced(s: M.State, sh: Shared, i: nat, reason: string)
    requires Announced(sh.trace) == Announcements(s.events) && i in s.invites && i in sh.invites && !s.invites[i].ended
    ensures Announced(FinishedShared(sh, i).trace) == Announcements(M.FinishInbound(s, i, reason).events)
  {
    AnnouncedAppend(sh.trace, StoppedSent(i));
    AnnouncedAppend(sh.trace + [StoppedSent(i)], DialogClosed(i));
    var v := s.invites[i];
    AnnouncementsAppend(s.events, M.Event(M.Stopped, i, v.users, v.answeredBy, reason));
    hide Announced, Announcements;
  }

  lemma FinishedSame(s: M.State, sh: Shared, i: nat, reason: string)
    requires Same(s, sh) && i in s.invites && i in sh.invites && !s.invites[i].ended
    ensures Same(M.FinishInbound(s, i, reason), FinishedShared(sh, i))
  {
    FinishedAnnounced(s, sh, i, reason);
    FinishedCounts(s, sh, i);
    hide Announced, Announcements, SameEnds, SameRows;
  }

  lemma FinishedCounts(s: M.State, sh: Shared, i: nat)
    requires Same(s, sh) && i in sh.invites
    ensures SameEnds(s.sessions, FinishedShared(sh, i).trace) && SameRows(s.rows, FinishedShared(sh, i).trace)
  {
    OtherEnds(s.sessions, sh.trace, StoppedSent(i));
    OtherEnds(s.sessions, sh.trace + [StoppedSent(i)], DialogClosed(i));
    OtherRows(s.rows, sh.trace, StoppedSent(i));
    OtherRows(s.rows, sh.trace + [StoppedSent(i)], DialogClosed(i));
    hide SameEnds, SameRows, Announced, Announcements;
  }

  lemma FinishedReached(sh: Shared, i: nat)
    requires i in sh.invites && !sh.invites[i].ended
    ensures Reaches(sh, FinishEnd(i), FinishedShared(sh, i), Done)
  {
    var sh1 := SetInvite(sh, i, sh.invites[i].(ended := true, armed := false));
    var sh2 := sh1.(incoming := sh1.incoming - {i});
    var sh3 := Observe(sh2, StoppedSent(i));
    var t := FinishedShared(sh, i);
    FinishSteps(sh, i);
    FinishSteps(sh1, i);
    FinishSteps(sh2, i);
    FinishSteps(sh3, i);
    Stays(t, Done);
    hide Steps, Reaches, SetInvite, Observe;
    StepThen(sh3, FinishClose(i), t, Done, t, Done);
    StepThen(sh2, FinishEmit(i), sh3, FinishClose(i), t, Done);
    StepThen(sh1, FinishRemove(i), sh2, FinishEmit(i), t, Done);
    StepThen(sh, FinishEnd(i), sh1, FinishRemove(i), t, Done);
  }

  lemma SoloFinish(s: M.State, sh: Shared, i: nat, reason: string) returns (t: Shared)
    requires Same(s, sh) && i in s.invites
    ensures Same(M.FinishInbound(s, i, reason), t) && Reaches(sh, FinishEnd(i), t, Done)
  {
    assert i in sh.invites && sh.invites[i] == Short(s.invites[i]);
    if s.invites[i].ended {
      t := sh;
      FinishSteps(sh, i);
      Stays(t, Done);
      hide Same, Steps, Reaches;
      StepThen(sh, FinishEnd(i), t, Done, t, Done);
    } else {
      FinishedSame(s, sh, i, reason);
      hide Same, Steps, Reaches, M.FinishInbound, FinishedShared;
      t := FinishedShared(sh, i);
      FinishedReached(sh, i);
    }
  }

  function RefusedShared(sh: Shared, i: nat, respondOk: bool): Shared
    requires i in sh.invites
  {
    var v := sh.invites[i];
    if v.ended || v.connected then sh
    else
      var sh1 := SetInvite(sh, i, v.(armed := false));
      if respondOk then Observe(sh1, RejectSent(i)) else sh1
  }

  lemma InviteSame(s: M.State, sh: Shared, i: nat, v: M.Invite)
    requires Same(s, sh)
    ensures Same(s.(invites := s.invites[i := v]), SetInvite(sh, i, Short(v)))
  {
    hide SameEnds, SameRows, Announced;
  }

  lemma InviteIs(s: M.State, sh: Shared, i: nat)
    requires Same(s, sh) && i in s.invites
    ensures i in sh.invites && sh.invites[i] == Short(s.invites[i])
  {
    hide SameEnds, SameRows, Announced;
  }

  lemma RefusedSame(s: M.State, sh: Shared, i: nat, respondOk: bool)
    requires Same(s, sh) && i in s.invites
    ensures i in sh.invites && Same(M.RejectWithResponse(s, i, respondOk).0, RefusedShared(sh, i, respondOk))
  {
    InviteIs(s, sh, i);
    hide Same, SetInvite, Observe;
    var v := M.Refused(s.invites[i], respondOk).0;
    if s.invites[i].ended || s.invites[i].connected {
      assert s.invites[i := v] == s.invites;
    } else {
      InviteSame(s, sh, i, v);
      ObserveSame(s.(invites := s.invites[i := v]), SetInvite(sh, i, Short(v)), RejectSent(i));
    }
  }

  /** The check and the response; a strict caller gives up when the response fails. */
  lemma SoloRespond(s: M.State, sh: Shared, i: nat, strict: bool, respondOk: bool) returns (t: Shared)
    requires Same(s, sh) && i in s.invites
    ensures var (s1, ok) := M.RejectWithResponse(s, i, respondOk);
            Same(s1, t) && Reaches(sh, Respond(i, strict), t, if ok || !strict then FinishEnd(i) else Done)
  {
    RefusedSame(s, sh, i, respondOk);
    assert sh.invites[i] == Short(s.invites[i]);
    t := RefusedShared(sh, i, respondOk);
    var end := if M.RejectWithResponse(s, i, respondOk).1 || !strict then FinishEnd(i) else Done;
    RespondSteps(sh, i, strict);
    Stays(t, end);
    hide Same, Steps, Reaches, SetInvite, Observe;
    assert Steps(sh, Respond(i, strict), t, end);
    StepThen(sh, Respond(i, strict), t, end, t, end);
  }

  lemma SoloReject(s: M.State, sh: Shared, i: nat, respondOk: bool, reason: string) returns (t: Shared)
    requires Same(s, sh) && i in s.invites
    ensures Same(M.RejectAndFinish(s, i, respondOk, reason), t) && Reaches(sh, Respond(i, false), t, Done)
  {
    hide Same, Reaches, M.FinishInbound, M.RejectWithResponse;
    var sh1 := SoloRespond(s, sh, i, false, respondOk);
    t := SoloFinish(M.RejectWithResponse(s, i, respondOk).0, sh1, i, reason);
    Then(sh, Respond(i, false), sh1, FinishEnd(i), t, Done);
  }

  // ----- dialling -----

  lemma NewSame(s: M.State, sh: Shared, logID: nat)
    requires Same(s, sh) && logID <= |s.rows|
    ensures sh.next == s.next && Same(M.OpenSession(s, logID), NewSession(sh, logID))
  {
    NextIsNew(s, sh);
    hide SameEnds, SameRows, Announced, SameSessions, Numbered, SameRinging;
    SessionChanges(s.sessions, sh.sessions, s.next, |s.rows|, s.next, M.NewSession(logID));
    AlikeEnds(s.sessions, sh.trace, s.next, M.NewSession(logID));
  }

  lemma NextIsNew(s: M.State, sh: Shared)
    requires Same(s, sh)
    ensures s.next !in s.sessions
  {
    hide SameEnds, SameRows, Announced, SameSessions, SameRinging;
  }

  lemma RegisterSame(s: M.State, sh: Shared, k: nat, callID: string)
    requires Same(s, sh) && k in s.sessions
    ensures Same(M.Register(s, k, callID), Register(sh, k, callID))
  {
    hide SameEnds, SameRows, Announced;
  }

  /** The session keeps its row, and what was seen of it. */
  ghost predicate Alike(c: M.Session, d: M.Session) {
    c.closeOnce == d.closeOnce && c.logID == d.logID && c.byes == d.byes && c.hangups == d.hangups
  }

  /** Giving a session its user, and perhaps its dialog. */
  lemma UserSame(s: M.State, sh: Shared, k: nat, c: M.Session)
    requires Same(s, sh) && k in s.sessions && Alike(c, s.sessions[k])
    ensures Same(s.(sessions := s.sessions[k := c]), Assign(sh, k, c.user, c.dialog != M.NoDialog))
  {
    SessionIs(s, sh, k);
    hide SameEnds, SameRows, Announced, SameSessions, Numbered, SameRinging;
    SessionChanges(s.sessions, sh.sessions, s.next, |s.rows|, k, c);
    AlikeEnds(s.sessions, sh.trace, k, c);
  }

  /** A session that is given a user and closed at once. */
  lemma SoloAbandon(s: M.State, sh: Shared, k: nat, c: M.Session, after: After, how: M.Closer, endOk: bool) returns (t: Shared)
    requires Same(s, sh) && k in s.sessions && Alike(c, s.sessions[k])
    ensures Same(M.Close(s.(sessions := s.sessions[k := c]), k, how, endOk), t)
    ensures Reaches(Assign(sh, k, c.user, c.dialog != M.NoDialog), CloseOnce(k, how.sendBye, after), t, Resume(after))
  {
    hide Same, Reaches, Assign, Resume, M.Close;
    UserSame(s, sh, k, c);
    t := SoloClose(s.(sessions := s.sessions[k := c]), Assign(sh, k, c.user, c.dialog != M.NoDialog), k, after, how, endOk);
  }

  /** The session that Dial closes on an error, and how. */
  function DialError(c: M.Session, env: M.DialEnv): (M.Session, M.Closer) {
    if !env.publicIP then (c, M.Closer(false, "failed", "media public ip missing"))
    else if env.inviteError.Some? then (c, M.Closer(false, "failed", env.inviteError.value))
    else (c.(dialog := M.ClientDialog), M.Closer(true, "failed", "bad remote SDP"))
  }

  predicate Dialled(env: M.DialEnv) {
    env.publicIP && env.inviteError.None? && env.answerSDP
  }

  lemma DialIs(s: M.State, k: nat, user: int, box: int, env: M.DialEnv)
    requires k in s.sessions
    ensures var c := s.sessions[k].(user := user, box := box);
            M.Dial(s, k, user, box, env).0 ==
            if Dialled(env)
            then M.Register(s.(sessions := s.sessions[k := M.MarkReady(c.(dialog := M.ClientDialog))]), k, env.sipCallID)
            else
              var (c1, how) := DialError(c, env);
              M.Close(s.(sessions := s.sessions[k := c1]), k, how, env.endOk)
  {
    hide M.Close, M.Register, M.MarkReady;
  }

  lemma DialogOpens(sh: Shared, k: nat, user: int)
    ensures OpenDialog(Assign(sh, k, user, false), k) == Assign(sh, k, user, true)
  {
    if k in sh.sessions {
      var c := sh.sessions[k].(user := user, dialog := false);
      assert sh.sessions[k := c][k := c.(dialog := true)] == sh.sessions[k := c.(dialog := true)];
    }
  }

  /** The INVITE and what follows, for a session that has its user. */
  lemma SoloInvite(s: M.State, sh: Shared, k: nat, user: int, box: int, env: M.DialEnv) returns (t: Shared)
    requires Same(s, sh) && k in s.sessions && s.sessions[k].dialog == M.NoDialog
    ensures Same(M.Dial(s, k, user, box, env).0, t)
    ensures Reaches(Assign(sh, k, user, false), DialInvite(env.sipCallID, k), t, Done)
  {
    hide Same, Steps, Reaches, Register, Assign, OpenDialog, M.Register, M.Close, M.Dial;
    var c, sh1 := s.sessions[k].(user := user, box := box), Assign(sh, k, user, false);
    DialIs(s, k, user, box, env);
    DialSteps(sh1, user, env.sipCallID, k);
    DialogOpens(sh, k, user);
    var sh2 := Assign(sh, k, user, true);
    if Dialled(env) {
      DialSteps(sh2, user, env.sipCallID, k);
      var c2 := M.MarkReady(c.(dialog := M.ClientDialog));
      UserSame(s, sh, k, c2);
      RegisterSame(s.(sessions := s.sessions[k := c2]), sh2, k, env.sipCallID);
      t := Register(sh2, k, env.sipCallID);
      Stays(t, Done);
      StepThen(sh2, DialRegister(env.sipCallID, k), t, Done, t, Done);
      StepThen(sh1, DialInvite(env.sipCallID, k), sh2, DialRegister(env.sipCallID, k), t, Done);
    } else {
      var (c1, how) := DialError(c, env);
      t := SoloAbandon(s, sh, k, c1, Nothing, how, env.endOk);
      if how.sendBye {
        StepThen(sh1, DialInvite(env.sipCallID, k), sh2, CloseOnce(k, true, Nothing), t, Done);
      } else {
        StepThen(sh1, DialInvite(env.sipCallID, k), sh1, CloseOnce(k, false, Nothing), t, Done);
      }
    }
  }

  lemma SoloDial(s: M.State, sh: Shared, k: nat, user: int, box: int, env: M.DialEnv) returns (t: Shared)
    requires Same(s, sh) && k in s.sessions && s.sessions[k].dialog == M.NoDialog
    ensures Same(M.Dial(s, k, user, box, env).0, t)
    ensures Reaches(sh, DialAssign(user, env.sipCallID, k), t, Done)
  {
    hide Same, Steps, Reaches, Assign, M.Dial;
    DialSteps(sh, user, env.sipCallID, k);
    t := SoloInvite(s, sh, k, user, box, env);
    StepThen(sh, DialAssign(user, env.sipCallID, k), Assign(sh, k, user, false), DialInvite(env.sipCallID, k), t, Done);
  }

  lemma SoloSetUpError(s: M.State, sh: Shared, media: M.Media, logID: nat, endOk: bool, after: After) returns (t: Shared)
    requires Same(s, sh) && media.SetupError? && logID <= |s.rows|
    ensures Same(M.CreateWebRTCSide(s, media, logID, endOk).0, t)
    ensures Reaches(NewSession(sh, logID), CloseOnce(sh.next, false, after), t, Resume(after))
  {
    hide Same, Reaches, Resume, NewSession, M.Close;
    NewSame(s, sh, logID);
    t := SoloClose(M.OpenSession(s, logID), NewSession(sh, logID), s.next, after,
                   M.Closer(false, "failed", M.SetupReason(media.step)), endOk);
  }

  /** The media side fails before there is a session: the thread ends the row itself. */
  lemma SoloNoSession(s: M.State, sh: Shared, media: M.Media, logID: nat, endOk: bool, after: After) returns (t: Shared)
    requires Same(s, sh) && (media.SocketError? || media.PeerError?) && logID <= |s.rows|
    ensures Same(M.CreateWebRTCSide(s, media, logID, endOk).0, t)
    ensures Reaches(sh, EndRow(logID, after), t, Resume(after)) && SameInvites(sh, t)
  {
    hide Steps, Reaches, Resume, EndLog, SameEnds, SameRows, Announced;
    t := EndLog(sh, logID, Chosen(endOk));
    EndRowSteps(sh, logID, after, endOk);
    Stays(t, Resume(after));
    StepThen(sh, EndRow(logID, after), t, Resume(after), t, Resume(after));
    if media.SocketError? {
      EndLogSame(s, sh, logID, endOk, "failed", "rtp socket error");
    } else {
      EndLogSame(M.CloseSocket(M.OpenSocket(s), s.next), sh, logID, endOk, "failed", "webrtc create error");
    }
  }

  lemma CreatedIs(s: M.State, media: M.Media, logID: nat, endOk: bool)
    ensures var (s2, created) := M.CreateWebRTCSide(s, media, logID, endOk);
            if media.Ready? then s2 == M.OpenSession(s, logID) && created == Some(s.next) else created.None?
  {
    hide M.Close, M.EndLog;
  }

  lemma SoloDialSetUp(s: M.State, sh: Shared, user: int, box: int, logID: nat, env: M.DialEnv) returns (t: Shared)
    requires Same(s, sh) && logID <= |s.rows|
    ensures var (s2, created) := M.CreateWebRTCSide(s, env.media, logID, env.endOk);
            Same(if created.None? then s2 else M.Dial(s2, created.value, user, box, env).0, t)
    ensures Reaches(sh, DialSetUp(user, env.sipCallID, logID), t, Done)
  {
    hide Same, Steps, Reaches, NewSession, M.Dial, M.CreateWebRTCSide;
    var pc := DialSetUp(user, env.sipCallID, logID);
    CreatedIs(s, env.media, logID, env.endOk);
    SetUpSteps(sh, user, env.sipCallID, logID);
    NewSame(s, sh, logID);
    if env.media.Ready? {
      t := SoloDial(M.OpenSession(s, logID), NewSession(sh, logID), s.next, user, box, env);
      StepThen(sh, pc, NewSession(sh, logID), DialAssign(user, env.sipCallID, sh.next), t, Done);
    } else if env.media.SetupError? {
      t := SoloSetUpError(s, sh, env.media, logID, env.endOk, Nothing);
      StepThen(sh, pc, NewSession(sh, logID), CloseOnce(sh.next, false, Nothing), t, Done);
    } else {
      t := SoloNoSession(s, sh, env.media, logID, env.endOk, Nothing);
      StepThen(sh, pc, sh, EndRow(logID, Nothing), t, Done);
    }
  }

  lemma LogSame(s: M.State, sh: Shared, ok: bool, user: int, box: int, status: string)
    requires Same(s, sh)
    ensures var (s1, logID) := M.CreateLog(s, ok, user, box, status);
            && Same(s1, LoggedShared(sh, ok).0) && LoggedShared(sh, ok).1 == logID <= |s1.rows|
    ensures sh.byUser == s.byUser && s.invites == M.CreateLog(s, ok, user, box, status).0.invites
  {
    NewRow(s.rows, sh.trace, M.Row(user, box, status, "", false, 0));
    hide SameEnds, SameRows, Announced;
  }

  lemma NewRow(rows: seq<M.Row>, trace: seq<Observed>, row: M.Row)
    requires SameRows(rows, trace) && row.ends == 0
    ensures SameRows(rows + [row], trace)
  {
    hide Count;
  }

  /** StartCall: a call that is refused before the media side is set up changes nothing. */
  lemma SoloStartCall(s: M.State, sh: Shared, user: int, box: int, number: string, env: M.DialEnv) returns (t: Shared)
    requires Same(s, sh)
    ensures Same(M.StartCall(s, user, box, number, env).0, t)
    ensures Reaches(sh, DialGuard(user, env.sipCallID), t, Done)
  {
    hide Same, Steps, Reaches, M.CreateWebRTCSide, M.Dial;
    var pc := DialGuard(user, env.sipCallID);
    LogSame(s, sh, env.logOk, user, box, "dialing");
    GuardSteps(sh, user, env.sipCallID, env.logOk);
    Stays(sh, Done);
    if user in s.byUser || Trim(number) == "" || env.box != M.Found || env.registration != M.Found {
      t := sh;
      StepThen(sh, pc, sh, Done, t, Done);
    } else {
      var (s1, logID) := M.CreateLog(s, env.logOk, user, box, "dialing");
      var sh1 := LoggedShared(sh, env.logOk).0;
      t := SoloDialSetUp(s1, sh1, user, box, logID, env);
      StepThen(sh, DialLog(user, env.sipCallID), sh1, DialSetUp(user, env.sipCallID, logID), t, Done);
      StepThen(sh, pc, sh, DialLog(user, env.sipCallID), t, Done);
    }
  }

  // ----- accepting -----

  lemma AnsweredSame(s: M.State, sh: Shared, i: nat, reason: string)
    requires Same(s, sh) && i in s.invites
    ensures Same(M.Emit(s.(incoming := s.incoming - {i}), M.Answered, i, reason),
                 Observe(sh.(incoming := sh.incoming - {i}), AnsweredSent(i)))
  {
    AnnouncedAppend(sh.trace, AnsweredSent(i));
    var v := s.invites[i];
    AnnouncementsAppend(s.events, M.Event(M.Answered, i, v.users, v.answeredBy, reason));
    OtherEnds(s.sessions, sh.trace, AnsweredSent(i));
    OtherRows(s.rows, sh.trace, AnsweredSent(i));
    hide Announced, Announcements, SameEnds, SameRows;
  }

  /** AcceptIncoming once the SIP answer has gone out. */
  lemma SoloConnected(s: M.State, sh: Shared, k: nat, i: nat, reason: string) returns (t: Shared)
    requires Same(s, sh) && k in s.sessions && i in s.invites
    ensures var v := s.invites[i].(connected := true);
            var s2 := M.Register(s.(invites := s.invites[i := v]), k, s.invites[i].sipCallID);
            Same(M.Emit(s2.(incoming := s2.incoming - {i}), M.Answered, i, reason), t)
    ensures Reaches(sh, AcceptConnect(i, k), t, Done)
  {
    var v := s.invites[i].(connected := true);
    InviteIs(s, sh, i);
    InviteSame(s, sh, i, v);
    var s1, sh1 := s.(invites := s.invites[i := v]), SetInvite(sh, i, Short(v));
    RegisterSame(s1, sh1, k, v.sipCallID);
    var s2, sh2 := M.Register(s1, k, v.sipCallID), Register(sh1, k, v.sipCallID);
    AnsweredSame(s2, sh2, i, reason);
    var sh3 := sh2.(incoming := sh2.incoming - {i});
    t := Observe(sh3, AnsweredSent(i));
    ConnectSteps(sh, i, k);
    ConnectSteps(sh1, i, k);
    ConnectSteps(sh2, i, k);
    ConnectSteps(sh3, i, k);
    Stays(t, Done);
    hide Same, Steps, Reaches, Register, M.Register, Observe, M.Emit;
    StepThen(sh3, AcceptEmit(i), t, Done, t, Done);
    StepThen(sh2, AcceptRemove(i), sh3, AcceptEmit(i), t, Done);
    StepThen(sh1, AcceptRegister(i, k), sh2, AcceptRemove(i), t, Done);
    StepThen(sh, AcceptConnect(i, k), sh1, AcceptRegister(i, k), t, Done);
  }

  lemma SoloNoAddress(s: M.State, sh: Shared, k: nat, i: nat, how: M.Closer, env: M.AcceptEnv, reason: string) returns (t: Shared)
    requires Same(s, sh) && k in s.sessions && i in s.invites
    ensures Same(M.RejectAndFinish(M.Close(s, k, how, env.endOk), i, env.rejectOk, reason), t)
    ensures Reaches(sh, CloseOnce(k, how.sendBye, ThenReject(i)), t, Done)
  {
    hide Same, Reaches, M.Close, M.RejectAndFinish;
    var sh1 := SoloClose(s, sh, k, ThenReject(i), how, env.endOk);
    t := SoloReject(M.Close(s, k, how, env.endOk), sh1, i, env.rejectOk, reason);
    Then(sh, CloseOnce(k, how.sendBye, ThenReject(i)), sh1, Respond(i, false), t, Done);
  }

  lemma SoloNoAnswer(s: M.State, sh: Shared, k: nat, c: M.Session, i: nat, how: M.Closer, endOk: bool, reason: string)
    returns (t: Shared)
    requires Same(s, sh) && k in s.sessions && i in s.invites && Alike(c, s.sessions[k])
    ensures Same(M.FinishInbound(M.Close(s.(sessions := s.sessions[k := c]), k, how, endOk), i, reason), t)
    ensures Reaches(Assign(sh, k, c.user, c.dialog != M.NoDialog), CloseOnce(k, how.sendBye, ThenFinish(i)), t, Done)
  {
    hide Same, Reaches, Assign, M.Close, M.FinishInbound;
    var sh1 := SoloAbandon(s, sh, k, c, ThenFinish(i), how, endOk);
    t := SoloFinish(M.Close(s.(sessions := s.sessions[k := c]), k, how, endOk), sh1, i, reason);
    Then(Assign(sh, k, c.user, c.dialog != M.NoDialog), CloseOnce(k, how.sendBye, ThenFinish(i)), sh1, FinishEnd(i), t, Done);
  }

  lemma SoloOkSent(s: M.State, sh: Shared, k: nat, c: M.Session, i: nat) returns (t: Shared)
    requires Same(s, sh) && k in s.sessions && i in s.invites && Alike(c, s.sessions[k])
    ensures var v := s.invites[i].(connected := true);
            var s1 := s.(sessions := s.sessions[k := c]);
            var s2 := M.Register(s1.(invites := s1.invites[i := v]), k, s.invites[i].sipCallID);
            Same(M.Emit(s2.(incoming := s2.incoming - {i}), M.Answered, i, "answered"), t)
    ensures Reaches(Observe(Assign(sh, k, c.user, c.dialog != M.NoDialog), OkSent(i)), AcceptConnect(i, k), t, Done)
  {
    hide Same, Reaches, Assign, Observe, M.Register, M.Emit;
    var s1, sh1 := s.(sessions := s.sessions[k := c]), Assign(sh, k, c.user, c.dialog != M.NoDialog);
    UserSame(s, sh, k, c);
    ObserveSame(s1, sh1, OkSent(i));
    t := SoloConnected(s1, Observe(sh1, OkSent(i)), k, i, "answered");
  }

  /** AcceptIncoming after the media side exists. */
  lemma SoloConnect(s: M.State, sh: Shared, k: nat, user: int, i: nat, env: M.AcceptEnv) returns (t: Shared)
    requires Same(s, sh) && k in s.sessions && i in s.invites
    ensures Same(M.Connect(s, k, user, i, env).0, t)
    ensures Reaches(sh, AcceptAssign(user, i, k), t, Done)
  {
    hide Same, Steps, Reaches, Assign, Observe, M.Close, M.Register, M.RejectAndFinish, M.FinishInbound, M.Emit;
    var pc, sh1 := AcceptAssign(user, i, k), Assign(sh, k, user, true);
    InviteIs(s, sh, i);
    AnswerSteps(sh, user, i, k);
    AnswerSteps(sh1, user, i, k);
    var c := M.MarkReady(s.sessions[k].(user := user, box := s.invites[i].box, dialog := M.ServerDialog));
    if !env.publicIP {
      t := SoloNoAddress(s, sh, k, i, M.Closer(false, "failed", "media public ip missing"), env, "media public ip missing");
      StepThen(sh, pc, sh, CloseOnce(k, false, ThenReject(i)), t, Done);
    } else if !env.answerOk {
      var how := M.Closer(false, "failed", "respond sip answer failed");
      t := SoloNoAnswer(s, sh, k, c, i, how, env.endOk, "sip answer failed");
      StepThen(sh1, AcceptAnswer(i, k), sh1, CloseOnce(k, false, ThenFinish(i)), t, Done);
      StepThen(sh, pc, sh1, AcceptAnswer(i, k), t, Done);
    } else {
      t := SoloOkSent(s, sh, k, c, i);
      StepThen(sh1, AcceptAnswer(i, k), Observe(sh1, OkSent(i)), AcceptConnect(i, k), t, Done);
      StepThen(sh, pc, sh1, AcceptAnswer(i, k), t, Done);
    }
  }

  lemma ResumesRejecting(i: nat)
    ensures Resume(ThenReject(i)) == Respond(i, false)
  {}

  /** The media side fails, and so does the accept. */
  lemma SoloNoMedia(s: M.State, sh: Shared, user: int, i: nat, logID: nat, env: M.AcceptEnv) returns (t: Shared)
    requires Same(s, sh) && i in s.invites && !env.media.Ready? && logID <= |s.rows|
    ensures Same(M.RejectAndFinish(M.CreateWebRTCSide(s, env.media, logID, env.endOk).0, i, env.rejectOk, "accept failed"), t)
    ensures Reaches(sh, AcceptSetUp(user, i, logID), t, Done)
  {
    InviteIs(s, sh, i);
    MediaSteps(sh, user, i, logID);
    ResumesRejecting(i);
    hide *;
    var s2 := M.CreateWebRTCSide(s, env.media, logID, env.endOk).0;
    if env.media.SetupError? {
      var pc := CloseOnce(sh.next, false, ThenReject(i));
      var sh2 := SoloSetUpError(s, sh, env.media, logID, env.endOk, ThenReject(i));
      t := SoloReject(s2, sh2, i, env.rejectOk, "accept failed");
      Then(NewSession(sh, logID), pc, sh2, Respond(i, false), t, Done);
      StepThen(sh, AcceptSetUp(user, i, logID), NewSession(sh, logID), pc, t, Done);
    } else {
      var sh2 := SoloNoSession(s, sh, env.media, logID, env.endOk, ThenReject(i));
      t := SoloReject(s2, sh2, i, env.rejectOk, "accept failed");
      Then(sh, EndRow(logID, ThenReject(i)), sh2, Respond(i, false), t, Done);
      StepThen(sh, AcceptSetUp(user, i, logID), sh, EndRow(logID, ThenReject(i)), t, Done);
    }
  }

  lemma SoloMedia(s: M.State, sh: Shared, user: int, i: nat, logID: nat, env: M.AcceptEnv) returns (t: Shared)
    requires Same(s, sh) && i in s.invites && logID <= |s.rows|
    ensures var (s2, created) := M.CreateWebRTCSide(s, env.media, logID, env.endOk);
            Same(if created.None? then M.RejectAndFinish(s2, i, env.rejectOk, "accept failed")
                 else M.Connect(s2, created.value, user, i, env).0, t)
    ensures Reaches(sh, AcceptSetUp(user, i, logID), t, Done)
  {
    hide Same, Steps, Reaches, NewSession, M.Connect, M.CreateWebRTCSide, M.RejectAndFinish;
    CreatedIs(s, env.media, logID, env.endOk);
    if env.media.Ready? {
      InviteIs(s, sh, i);
      MediaSteps(sh, user, i, logID);
      NewSame(s, sh, logID);
      t := SoloConnect(M.OpenSession(s, logID), NewSession(sh, logID), s.next, user, i, env);
      StepThen(sh, AcceptSetUp(user, i, logID), NewSession(sh, logID), AcceptAssign(user, i, sh.next), t, Done);
    } else {
      t := SoloNoMedia(s, sh, user, i, logID, env);
    }
  }

  /** AcceptIncoming after the claim. */
  lemma SoloAnswer(s: M.State, sh: Shared, user: int, i: nat, env: M.AcceptEnv) returns (t: Shared)
    requires Same(s, sh) && i in s.invites
    ensures Same(M.Answer(s, user, i, env).0, t) && Reaches(sh, AcceptLog(user, i), t, Done)
  {
    hide Same, Steps, Reaches, M.Connect, M.CreateWebRTCSide, M.RejectAndFinish;
    var (s1, logID) := M.CreateLog(s, env.logOk, user, s.invites[i].box, "connecting");
    LogSame(s, sh, env.logOk, user, s.invites[i].box, "connecting");
    InviteIs(s, sh, i);
    ClaimSteps(sh, user, i, env.logOk);
    t := SoloMedia(s1, LoggedShared(sh, env.logOk).0, user, i, logID, env);
    StepThen(sh, AcceptLog(user, i), LoggedShared(sh, env.logOk).0, AcceptSetUp(user, i, logID), t, Done);
  }

  /** The table of ringing invites names each invite by itself. */
  ghost predicate Named(s: M.State) {
    forall k <- s.incoming :: s.incoming[k] == k && k in s.invites
  }

  lemma TablesAre(s: M.State, sh: Shared)
    requires Same(s, sh)
    ensures sh.incoming == s.incoming.Keys && sh.byUser == s.byUser && sh.bySIP == s.bySIP
    ensures sh.sessions.Keys == s.sessions.Keys && sh.invites.Keys == s.invites.Keys
  {
    hide SameEnds, SameRows, Announced;
  }

  lemma SoloAccept(s: M.State, sh: Shared, user: int, i: nat, env: M.AcceptEnv) returns (t: Shared)
    requires Same(s, sh) && Named(s) && i in s.invites
    ensures Same(M.AcceptIncoming(s, user, i, env).0, t) && Reaches(sh, AcceptLookup(user, i), t, Done)
  {
    hide Same, Steps, Reaches, M.Answer, SetInvite, Observe;
    TablesAre(s, sh);
    InviteIs(s, sh, i);
    ClaimSteps(sh, user, i, true);
    Stays(sh, Done);
    var v := s.invites[i];
    t := sh;
    StaysThen(sh, AcceptLookup(user, i));
    if i in s.incoming {
      StaysThen(sh, AcceptAllowed(user, i));
      if user in v.users {
        StaysThen(sh, AcceptGuard(user, i));
        if user !in s.byUser {
          StaysThen(sh, AcceptClaim(user, i));
          if !v.ended && !v.connected {
            var v1 := v.(answeredBy := user, armed := false);
            var s1, sh1 := s.(invites := s.invites[i := v1]), Observe(SetInvite(sh, i, Short(v1)), Claimed(i));
            InviteSame(s, sh, i, v1);
            ObserveSame(s1, SetInvite(sh, i, Short(v1)), Claimed(i));
            t := SoloAnswer(s1, sh1, user, i, env);
            StepThen(sh, AcceptClaim(user, i), sh1, AcceptLog(user, i), t, Done);
          }
          StepThen(sh, AcceptGuard(user, i), sh, AcceptClaim(user, i), t, Done);
        }
        StepThen(sh, AcceptAllowed(user, i), sh, AcceptGuard(user, i), t, Done);
      }
      StepThen(sh, AcceptLookup(user, i), sh, AcceptAllowed(user, i), t, Done);
    }
  }

  /** A check that turns the thread away changes nothing. */
  lemma StaysThen(sh: Shared, pc: Pc)
    ensures Steps(sh, pc, sh, Done) ==> Reaches(sh, pc, sh, Done)
  {
    Stays(sh, Done);
    hide Steps, Reaches;
    if Steps(sh, pc, sh, Done) { StepThen(sh, pc, sh, Done, sh, Done); }
  }

  // ----- rejecting, timing out, cancelling, arriving -----

  lemma SoloRejectIncoming(s: M.State, sh: Shared, user: int, i: nat, reason: string, respondOk: bool) returns (t: Shared)
    requires Same(s, sh) && Named(s) && i in s.invites
    ensures Same(M.RejectIncoming(s, user, i, reason, respondOk).0, t) && Reaches(sh, RejectLookup(user, i), t, Done)
  {
    TablesAre(s, sh);
    InviteIs(s, sh, i);
    RejectSteps(sh, user, i);
    var v := s.invites[i];
    hide Same, Steps, Reaches, M.FinishInbound, M.RejectWithResponse;
    t := sh;
    StaysThen(sh, RejectLookup(user, i));
    if i in s.incoming {
      StaysThen(sh, RejectAllowed(user, i));
      if user in v.users {
        t := SoloRespond(s, sh, i, true, respondOk);
        var (s1, ok) := M.RejectWithResponse(s, i, respondOk);
        if ok {
          var sh1 := t;
          t := SoloFinish(s1, sh1, i, if Trim(reason) == "" then "declined" else reason);
          Then(sh, Respond(i, true), sh1, FinishEnd(i), t, Done);
        }
        StepThen(sh, RejectAllowed(user, i), sh, Respond(i, true), t, Done);
      }
      StepThen(sh, RejectLookup(user, i), sh, RejectAllowed(user, i), t, Done);
    }
  }

  /** Firing takes the timer off before the callback runs; the refusal takes it off as well. */
  lemma SoloTimer(s: M.State, sh: Shared, i: nat, respondOk: bool) returns (t: Shared)
    requires Same(s, sh) && i in s.invites && s.invites[i].armed && !s.invites[i].ended && !s.invites[i].connected
    ensures i in sh.invites && sh.invites[i].armed
    ensures Same(M.TimerFires(s, i, respondOk), t) && Reaches(Started(sh, Respond(i, false)), Respond(i, false), t, Done)
  {
    InviteIs(s, sh, i);
    var v := s.invites[i].(armed := false);
    var s1 := s.(invites := s.invites[i := v]);
    InviteSame(s, sh, i, v);
    FiredIs(s, i, respondOk);
    hide Same, Reaches, M.FinishInbound, M.RejectAndFinish;
    t := SoloReject(s1, SetInvite(sh, i, Short(v)), i, respondOk, "timeout");
  }

  lemma FiredIs(s: M.State, i: nat, respondOk: bool)
    requires i in s.invites && !s.invites[i].ended && !s.invites[i].connected
    ensures var s1 := s.(invites := s.invites[i := s.invites[i].(armed := false)]);
            M.RejectAndFinish(s1, i, respondOk, "timeout") == M.RejectAndFinish(s, i, respondOk, "timeout")
  {
    hide M.FinishInbound;
    var v := s.invites[i].(armed := false);
    var w := M.Refused(s.invites[i], respondOk).0;
    assert s.invites[i := v][i := w] == s.invites[i := w];
  }

  lemma SoloCancel(s: M.State, sh: Shared, i: nat) returns (t: Shared)
    requires Same(s, sh) && i in s.invites
    ensures Same(M.DialogDone(s, i), t) && Reaches(sh, CancelCheck(i), t, Done)
  {
    InviteIs(s, sh, i);
    RejectSteps(sh, 0, i);
    hide Same, Steps, Reaches, M.FinishInbound;
    StaysThen(sh, CancelCheck(i));
    if s.invites[i].ended || s.invites[i].connected {
      t := sh;
    } else {
      t := SoloFinish(s, sh, i, "remote canceled");
      StepThen(sh, CancelCheck(i), sh, FinishEnd(i), t, Done);
    }
  }

  function ArrivedShared(sh: Shared, users: set<int>, sipCallID: string): Shared {
    var i := sh.next;
    Observe(sh.(next := i + 1, invites := sh.invites[i := Invite(users, sipCallID, true, false, false, 0)],
                incoming := sh.incoming + {i}, entered := sh.entered + {i}), RingingSent(i))
  }

  lemma ArrivedSame(s: M.State, sh: Shared, box: int, sipCallID: string, env: M.RingEnv)
    requires Same(s, sh) && M.Rings(env)
    ensures Same(M.OnIncomingInvite(s, box, sipCallID, env), ArrivedShared(sh, env.users.value, sipCallID))
  {
    hide Announced, Announcements, SameEnds, SameRows, SameSessions, Numbered;
    AnnouncedAppend(sh.trace, RingingSent(sh.next));
    AnnouncementsAppend(s.events, M.Event(M.Ringing, s.next, env.users.value, 0, "incoming"));
    OtherEnds(s.sessions, sh.trace, RingingSent(sh.next));
    OtherRows(s.rows, sh.trace, RingingSent(sh.next));
    NextGrows(s.sessions, s.next, |s.rows|);
  }

  lemma NextGrows(sessions: map<nat, M.Session>, next: nat, rows: nat)
    requires Numbered(sessions, next, rows)
    ensures Numbered(sessions, next + 1, rows)
  {}

  lemma SoloArrive(sh: Shared, users: set<int>, sipCallID: string)
    ensures Reaches(sh, ArriveArm(users, sipCallID), ArrivedShared(sh, users, sipCallID), Done)
  {
    var i := sh.next;
    var sh1 := sh.(next := i + 1, invites := sh.invites[i := Invite(users, sipCallID, true, false, false, 0)]);
    ArriveSteps(sh, users, sipCallID, i);
    hide Steps, Reaches, Observe;
    SoloInsert(sh1, users, sipCallID, i);
    StepThen(sh, ArriveArm(users, sipCallID), sh1, ArriveInsert(i), ArrivedShared(sh, users, sipCallID), Done);
  }

  lemma SoloInsert(sh: Shared, users: set<int>, sipCallID: string, i: nat)
    ensures Reaches(sh, ArriveInsert(i),
                    Observe(sh.(incoming := sh.incoming + {i}, entered := sh.entered + {i}), RingingSent(i)), Done)
  {
    var sh2 := sh.(incoming := sh.incoming + {i}, entered := sh.entered + {i});
    var t := Observe(sh2, RingingSent(i));
    ArriveSteps(sh, users, sipCallID, i);
    ArriveSteps(sh2, users, sipCallID, i);
    Stays(t, Done);
    hide Steps, Reaches, Observe;
    StepThen(sh2, ArriveEmit(i), t, Done, t, Done);
    StepThen(sh, ArriveInsert(i), sh2, ArriveEmit(i), t, Done);
  }

  // ----- every handler, and every run -----

  /** The shared state is left alone, or a handler that may start in it runs to its end alone. */
  ghost predicate RunsAlone(sh: Shared, t: Shared) {
    t == sh || exists pc :: Starts(sh, pc) && Reaches(Started(sh, pc), pc, t, Done)
  }

  lemma Alone(sh: Shared, pc: Pc, t: Shared)
    requires Starts(sh, pc) && Reaches(Started(sh, pc), pc, t, Done)
    ensures RunsAlone(sh, t)
  {}

  lemma InvitesNamed(s: M.State)
    requires V.Inv(s)
    ensures Named(s) && forall i <- s.invites :: s.invites[i].armed ==> !s.invites[i].ended && !s.invites[i].connected
  {
    hide V.CallsInv;
  }

  /** What finds no invite, no timer and nobody to ring. */
  predicate Idle(s: M.State, op: M.Op) {
    match op
    case Arrives(_, _, env) => !M.Rings(env)
    case Accepts(_, i, _) => i !in s.invites
    case Rejects(_, i, _, _) => i !in s.invites
    case Expires(i, _) => i !in s.invites || !s.invites[i].armed
    case Cancels(i) => i !in s.invites
    case _ => false
  }

  lemma Ignored(s: M.State, op: M.Op)
    requires Named(s) && Idle(s, op)
    ensures M.Step(s, op) == s
  {
    hide M.Answer, M.FinishInbound, M.RejectWithResponse, M.StartCall, M.Close;
  }

  lemma CloseRunsAlone(s: M.State, sh: Shared, k: nat, how: M.Closer, endOk: bool) returns (t: Shared)
    requires Same(s, sh) && k in s.sessions
    ensures Same(M.Close(s, k, how, endOk), t) && RunsAlone(sh, t)
  {
    hide Same, Reaches, RunsAlone, M.Close;
    TablesAre(s, sh);
    t := SoloClose(s, sh, k, Nothing, how, endOk);
    Alone(sh, CloseOnce(k, how.sendBye, Nothing), t);
  }

  lemma DialRunsAlone(s: M.State, sh: Shared, user: int, box: int, number: string, env: M.DialEnv) returns (t: Shared)
    requires Same(s, sh)
    ensures Same(M.StartCall(s, user, box, number, env).0, t) && RunsAlone(sh, t)
  {
    hide Same, Reaches, RunsAlone, M.StartCall;
    t := SoloStartCall(s, sh, user, box, number, env);
    Alone(sh, DialGuard(user, env.sipCallID), t);
  }

  lemma CallRunsAlone(s: M.State, sh: Shared, op: M.Op) returns (t: Shared)
    requires Same(s, sh) && (op.Dials? || op.Byes? || op.Closes?)
    ensures Same(M.Step(s, op), t) && RunsAlone(sh, t)
  {
    hide Same, M.StartCall, M.Close;
    t := sh;
    match op
    case Dials(user, box, number, env) => t := DialRunsAlone(s, sh, user, box, number, env);
    case Byes(callID, endOk) =>
      if callID in s.bySIP && s.bySIP[callID] in s.sessions {
        t := CloseRunsAlone(s, sh, s.bySIP[callID], M.Closer(false, "ended", "remote hangup"), endOk);
      }
    case Closes(k, how, endOk) =>
      if k in s.sessions { t := CloseRunsAlone(s, sh, k, how, endOk); }
  }

  lemma InviteRunsAlone(s: M.State, sh: Shared, op: M.Op) returns (t: Shared)
    requires Same(s, sh) && Named(s) && !Idle(s, op) && !op.Dials? && !op.Byes? && !op.Closes?
    requires forall i <- s.invites :: s.invites[i].armed ==> !s.invites[i].ended && !s.invites[i].connected
    ensures Same(M.Step(s, op), t) && RunsAlone(sh, t)
  {
    hide Same, Reaches, RunsAlone, Named, M.AcceptIncoming, M.RejectIncoming, M.TimerFires, M.DialogDone, M.OnIncomingInvite,
      ArrivedShared, Started;
    match op
    case Arrives(box, sipCallID, env) =>
      ArrivedSame(s, sh, box, sipCallID, env);
      t := ArrivedShared(sh, env.users.value, sipCallID);
      SoloArrive(sh, env.users.value, sipCallID);
      NotFiring(sh, ArriveArm(env.users.value, sipCallID));
      Alone(sh, ArriveArm(env.users.value, sipCallID), t);
    case Accepts(user, i, env) =>
      t := SoloAccept(s, sh, user, i, env);
      NotFiring(sh, AcceptLookup(user, i));
      Alone(sh, AcceptLookup(user, i), t);
    case Rejects(user, i, reason, respondOk) =>
      t := SoloRejectIncoming(s, sh, user, i, reason, respondOk);
      NotFiring(sh, RejectLookup(user, i));
      Alone(sh, RejectLookup(user, i), t);
    case Expires(i, respondOk) =>
      t := SoloTimer(s, sh, i, respondOk);
      Alone(sh, Respond(i, false), t);
    case Cancels(i) =>
      t := SoloCancel(s, sh, i);
      NotFiring(sh, CancelCheck(i));
      Alone(sh, CancelCheck(i), t);
  }

  lemma NotFiring(sh: Shared, pc: Pc)
    requires !pc.Respond?
    ensures Started(sh, pc) == sh
  {}

  /** Whatever a handler does in one step, it does when it runs alone through its critical sections. */
  lemma HandlerRunsAlone(s: M.State, sh: Shared, op: M.Op) returns (t: Shared)
    requires V.Inv(s) && Same(s, sh)
    ensures Same(M.Step(s, op), t) && RunsAlone(sh, t)
  {
    InvitesNamed(s);
    if op.Dials? || op.Byes? || op.Closes? {
      hide *;
      t := CallRunsAlone(s, sh, op);
    } else if Idle(s, op) {
      Ignored(s, op);
      t := sh;
    } else {
      hide V.Inv, Same, RunsAlone, M.Step, Idle, Named;
      t := InviteRunsAlone(s, sh, op);
    }
  }

  function Advances(n: nat, choices: seq<Choice>): seq<Action> {
    if choices == [] then [] else [Advance(n, choices[0])] + Advances(n, choices[1..])
  }

  /** A thread that runs alone is a run in which only that thread advances. */
  lemma {:induction false} SoloIsRun(w: State, n: nat, choices: seq<Choice>)
    requires n in w.threads
    ensures var (t, end) := Solo(w.shared, w.threads[n], choices);
            Run(w, Advances(n, choices)) == State(t, w.threads[n := end])
    decreases choices
  {
    if choices == [] {
      assert w.threads[n := w.threads[n]] == w.threads;
    } else {
      var w1 := Act(w, Advance(n, choices[0]));
      SoloIsRun(w1, n, choices[1..]);
      var (t, end) := Solo(w.shared, w.threads[n], choices);
      hide Exec;
      assert w.threads[n := w1.threads[n]][n := end] == w.threads[n := end];
      assert ([Advance(n, choices[0])] + Advances(n, choices[1..]))[1..] == Advances(n, choices[1..]);
    }
  }

  lemma {:induction false} RunAppend(w: State, first: seq<Action>, second: seq<Action>)
    ensures Run(w, first + second) == Run(Run(w, first), second)
    decreases first
  {
    hide Act;
    if first == [] {
      assert [] + second == second;
    } else {
      assert (first + second)[1..] == first[1..] + second;
      RunAppend(Act(w, first[0]), first[1..], second);
    }
  }

  ghost predicate ThreadsBelow(w: State, n: nat) {
    forall t <- w.threads :: t < n
  }

  /** A handler that runs alone, as a thread of its own. */
  lemma AsThread(w: State, n: nat, t: Shared) returns (actions: seq<Action>)
    requires RunsAlone(w.shared, t) && ThreadsBelow(w, n)
    ensures Run(w, actions).shared == t && ThreadsBelow(Run(w, actions), n + 1)
  {
    if t == w.shared {
      actions := [];
      assert Run(w, []) == w;
    } else {
      var pc :| Starts(w.shared, pc) && Reaches(Started(w.shared, pc), pc, t, Done);
      var choices :| Solo(Started(w.shared, pc), pc, choices) == (t, Done);
      var w1 := Act(w, Spawn(n, pc));
      SoloIsRun(w1, n, choices);
      actions := [Spawn(n, pc)] + Advances(n, choices);
      assert actions[1..] == Advances(n, choices);
    }
  }

  lemma {:induction false} RunFrom(s: M.State, w: State, ops: seq<M.Op>, n: nat) returns (actions: seq<Action>)
    requires V.Inv(s) && Same(s, w.shared) && ThreadsBelow(w, n)
    ensures Same(M.Run(s, ops), Run(w, actions).shared)
    decreases ops
  {
    hide V.Inv, Same, ThreadsBelow, M.Step, RunsAlone;
    if ops == [] {
      actions := [];
      assert Run(w, []) == w;
    } else {
      var t := HandlerRunsAlone(s, w.shared, ops[0]);
      P.StepKeeps(s, ops[0]);
      var first := AsThread(w, n, t);
      var rest := RunFrom(M.Step(s, ops[0]), Run(w, first), ops[1..], n + 1);
      RunAppend(w, first, rest);
      actions := first + rest;
    }
  }

  /** Every run of whole handlers from empty tables is one of the interleavings: some run of critical sections ends
      with the same sessions, indexes and invites, after the same events in the same order and with the same BYEs, ends
      of calls and ends of rows. */
  lemma WholeHandlersAreInterleavings(ops: seq<M.Op>)
    ensures exists actions :: Same(M.Run(M.EMPTY, ops), Run(EMPTY, actions).shared)
  {
    assert V.Inv(M.EMPTY) by { P.EmptyInv(); }
    assert Same(M.EMPTY, EMPTY.shared);
    assert ThreadsBelow(EMPTY, 0);
    hide V.Inv, Same, ThreadsBelow;
    var actions := RunFrom(M.EMPTY, EMPTY, ops, 0);
  }
}
