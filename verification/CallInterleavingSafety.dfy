/** What survives when the handlers of the call manager interleave at their locks. */
module CallInterleavingSafety {
  import opened CallInterleaving

  /** How often something was observed. */
  ghost function Count(trace: seq<Observed>, o: Observed): nat {
    if trace == [] then 0
    else Count(trace[..|trace| - 1], o) + if trace[|trace| - 1] == o then 1 else 0
  }

  lemma CountAppend(trace: seq<Observed>, e: Observed, o: Observed)
    ensures Count(trace + [e], o) == Count(trace, o) + if e == o then 1 else 0
  {
    assert (trace + [e])[..|trace|] == trace;
  }

  // ----- the invariant -----

  /** Each index entry leads to a registered session, under its own identifier or its own user. */
  ghost predicate Coherent(sessions: map<nat, Session>, byID: map<nat, nat>, bySIP: map<string, nat>, byUser: map<int, nat>) {
    && (forall k <- byID :: byID[k] == k && k in sessions)
    && (forall c <- bySIP :: c != "" && bySIP[c] in byID)
    && (forall u <- byUser :: u > 0 && byUser[u] in byID && byUser[u] in sessions && sessions[byUser[u]].user == u)
  }

  ghost predicate Tables(s: Shared) {
    && (forall k <- s.sessions :: k < s.next)
    && (forall i <- s.invites :: i < s.next)
    && s.incoming <= s.entered
    && (forall i <- s.entered :: i in s.invites)
  }

  /** One Stopped event and one closing of the dialog at most, and none before `ended`. */
  ghost predicate EndedOnce(invites: map<nat, Invite>, trace: seq<Observed>) {
    forall i: nat ::
      var most := if i in invites && invites[i].ended then 1 else 0;
      Count(trace, StoppedSent(i)) <= most && Count(trace, DialogClosed(i)) <= most
  }

  /** One report of a session's end and one BYE at most, and none before it is closing. */
  ghost predicate ClosedOnce(sessions: map<nat, Session>, trace: seq<Observed>) {
    forall k: nat ::
      var most := if k in sessions && sessions[k].closing then 1 else 0;
      Count(trace, CallEnded(k)) <= most && Count(trace, ByeSent(k)) <= most
  }

  /** No two sessions have the same row of the call log. */
  ghost predicate OwnRows(sessions: map<nat, Session>, rows: nat) {
    && (forall k <- sessions :: sessions[k].row <= rows)
    && (forall j <- sessions, k <- sessions :: sessions[j].row == sessions[k].row > 0 ==> j == k)
  }

  ghost predicate Unowned(sessions: map<nat, Session>, row: nat) {
    forall k <- sessions :: sessions[k].row != row
  }

  /** Each row is ended once at most, and not while its session is live. */
  ghost predicate RowsEndOnce(sessions: map<nat, Session>, rows: nat, trace: seq<Observed>) {
    && (forall r: nat :: Count(trace, RowEnded(r)) <= if 0 < r <= rows then 1 else 0)
    && (forall k <- sessions :: !sessions[k].closing ==> Count(trace, RowEnded(sessions[k].row)) == 0)
  }

  /** What one thread alone may do next: give a row to a session or end it, register a session, finish closing one,
      insert an invite, or finish ending one. */
  datatype Token =
    | NoToken | Logging(row: nat) | SettingUp(session: nat) | Closing(session: nat)
    | Inserting(invite: nat) | Ending(invite: nat)

  ghost function RowToken(row: nat): Token {
    if row > 0 then Logging(row) else NoToken
  }

  ghost function TokenOf(pc: Pc): Token {
    match pc
    case DialSetUp(_, _, r) => RowToken(r)
    case AcceptSetUp(_, _, r) => RowToken(r)
    case EndRow(r, _) => RowToken(r)
    case DialAssign(_, _, k) => SettingUp(k)
    case DialInvite(_, k) => SettingUp(k)
    case DialRegister(_, k) => SettingUp(k)
    case CloseBye(k, _, _) => Closing(k)
    case CloseUnregister(k, _) => Closing(k)
    case CloseLog(k, _) => Closing(k)
    case CloseDone(k, _) => Closing(k)
    case AcceptAssign(_, _, k) => SettingUp(k)
    case AcceptAnswer(_, k) => SettingUp(k)
    case AcceptConnect(_, k) => SettingUp(k)
    case AcceptRegister(_, k) => SettingUp(k)
    case ArriveInsert(i) => Inserting(i)
    case FinishRemove(i) => Ending(i)
    case FinishEmit(i) => Ending(i)
    case FinishClose(i) => Ending(i)
    case _ => NoToken
  }

  /** What is left to do of a close that has not reported its end. */
  ghost predicate ClosingOk(sessions: map<nat, Session>, trace: seq<Observed>, pc: Pc, k: nat) {
    && k in sessions && sessions[k].closing && Count(trace, CallEnded(k)) == 0
    && (pc.CloseBye? ==> Count(trace, ByeSent(k)) == 0)
    && (!pc.CloseDone? ==> Count(trace, RowEnded(sessions[k].row)) == 0)
  }

  ghost predicate LoggingOk(sessions: map<nat, Session>, rows: nat, trace: seq<Observed>, row: nat) {
    0 < row <= rows && Unowned(sessions, row) && Count(trace, RowEnded(row)) == 0
  }

  ghost predicate TokenOk(s: Shared, pc: Pc) {
    match TokenOf(pc)
    case NoToken => true
    case Logging(r) => LoggingOk(s.sessions, s.rows, s.trace, r)
    case SettingUp(k) => k in s.sessions && k !in s.byID && (IsAccept(pc) ==> pc.invite in s.invites)
    case Closing(k) => ClosingOk(s.sessions, s.trace, pc, k)
    case Inserting(i) => i in s.invites && i !in s.entered
    case Ending(i) =>
      && i in s.invites && s.invites[i].ended
      && Count(s.trace, DialogClosed(i)) == 0
      && (!pc.FinishClose? ==> Count(s.trace, StoppedSent(i)) == 0)
  }

  ghost predicate SharedInv(s: Shared) {
    && Coherent(s.sessions, s.byID, s.bySIP, s.byUser) && Tables(s)
    && EndedOnce(s.invites, s.trace) && ClosedOnce(s.sessions, s.trace)
    && OwnRows(s.sessions, s.rows) && RowsEndOnce(s.sessions, s.rows, s.trace)
  }

  ghost predicate Inv(s: State) {
    && SharedInv(s.shared)
    && (forall t <- s.threads :: TokenOk(s.shared, s.threads[t]))
    && (forall t <- s.threads, u <- s.threads ::
          t != u && TokenOf(s.threads[t]) == TokenOf(s.threads[u]) ==> TokenOf(s.threads[t]).NoToken?)
  }

  /** A token that no thread can hold in `s`. */
  ghost predicate Fresh(s: Shared, tok: Token) {
    match tok
    case NoToken => true
    case Logging(r) => r > s.rows
    case SettingUp(k) => k !in s.sessions
    case Closing(k) => k in s.sessions && !s.sessions[k].closing
    case Inserting(i) => i !in s.invites
    case Ending(i) => i in s.invites && !s.invites[i].ended
  }

  // ----- one step -----

  lemma RegisterCoherent(s: Shared, k: nat, callID: string)
    requires Coherent(s.sessions, s.byID, s.bySIP, s.byUser)
    ensures var t := Register(s, k, callID); Coherent(t.sessions, t.byID, t.bySIP, t.byUser)
  {}

  lemma UnregisterCoherent(s: Shared, k: nat)
    requires Coherent(s.sessions, s.byID, s.bySIP, s.byUser)
    ensures var t := Unregister(s, k); Coherent(t.sessions, t.byID, t.bySIP, t.byUser)
  {}

  /** A session outside the table may take any user; one inside may only start closing. */
  lemma SessionCoherent(s: Shared, k: nat, c: Session)
    requires Coherent(s.sessions, s.byID, s.bySIP, s.byUser)
    requires k in s.byID ==> k in s.sessions && c.user == s.sessions[k].user
    ensures Coherent(s.sessions[k := c], s.byID, s.bySIP, s.byUser)
  {}

  /** What may be observed at most once was not observed before. */
  ghost predicate MayObserve(s: Shared, e: Observed) {
    match e
    case StoppedSent(i) => i in s.invites && s.invites[i].ended && Count(s.trace, e) == 0
    case DialogClosed(i) => i in s.invites && s.invites[i].ended && Count(s.trace, e) == 0
    case CallEnded(k) => k in s.sessions && s.sessions[k].closing && Count(s.trace, e) == 0
    case ByeSent(k) => k in s.sessions && s.sessions[k].closing && Count(s.trace, e) == 0
    case RowEnded(r) =>
      && 0 < r <= s.rows && Count(s.trace, e) == 0
      && forall k <- s.sessions :: s.sessions[k].row == r ==> s.sessions[k].closing
    case _ => true
  }

  lemma ObserveInvites(s: Shared, e: Observed)
    requires EndedOnce(s.invites, s.trace) && MayObserve(s, e)
    ensures EndedOnce(s.invites, s.trace + [e])
  {
    forall i: nat
      ensures var most := if i in s.invites && s.invites[i].ended then 1 else 0;
              Count(s.trace + [e], StoppedSent(i)) <= most && Count(s.trace + [e], DialogClosed(i)) <= most
    {
      CountAppend(s.trace, e, StoppedSent(i));
      CountAppend(s.trace, e, DialogClosed(i));
    }
  }

  lemma ObserveSessions(s: Shared, e: Observed)
    requires ClosedOnce(s.sessions, s.trace) && MayObserve(s, e)
    ensures ClosedOnce(s.sessions, s.trace + [e])
  {
    forall k: nat
      ensures var most := if k in s.sessions && s.sessions[k].closing then 1 else 0;
              Count(s.trace + [e], CallEnded(k)) <= most && Count(s.trace + [e], ByeSent(k)) <= most
    {
      CountAppend(s.trace, e, CallEnded(k));
      CountAppend(s.trace, e, ByeSent(k));
    }
  }

  lemma ObserveRows(s: Shared, e: Observed)
    requires RowsEndOnce(s.sessions, s.rows, s.trace) && MayObserve(s, e)
    ensures RowsEndOnce(s.sessions, s.rows, s.trace + [e])
  {
    forall r: nat
      ensures Count(s.trace + [e], RowEnded(r)) == Count(s.trace, RowEnded(r)) + if e == RowEnded(r) then 1 else 0
    {
      CountAppend(s.trace, e, RowEnded(r));
    }
    hide Count;
  }

  /** A session's entry changes; it keeps its row and does not stop closing. */
  lemma SessionKeeps(sessions: map<nat, Session>, trace: seq<Observed>, k: nat, c: Session)
    requires ClosedOnce(sessions, trace)
    requires k in sessions && sessions[k].closing ==> c.closing
    ensures ClosedOnce(sessions[k := c], trace)
  {
    forall j: nat
      ensures var most := if j in sessions[k := c] && sessions[k := c][j].closing then 1 else 0;
              Count(trace, CallEnded(j)) <= most && Count(trace, ByeSent(j)) <= most
    {
      var most := if j in sessions && sessions[j].closing then 1 else 0;
      assert Count(trace, CallEnded(j)) <= most && Count(trace, ByeSent(j)) <= most;
    }
  }

  /** A session keeps its row, or is new with a row that nobody has. */
  lemma SessionRows(sessions: map<nat, Session>, rows: nat, trace: seq<Observed>, k: nat, c: Session)
    requires OwnRows(sessions, rows) && RowsEndOnce(sessions, rows, trace)
    requires if k in sessions then c.row == sessions[k].row && (sessions[k].closing ==> c.closing)
             else c.row == 0 || LoggingOk(sessions, rows, trace, c.row)
    ensures OwnRows(sessions[k := c], rows) && RowsEndOnce(sessions[k := c], rows, trace)
  {
    hide Count;
  }

  // ----- what steps are made of -----

  lemma NewSessionKeeps(s: Shared, row: nat)
    requires SharedInv(s) && (row == 0 || LoggingOk(s.sessions, s.rows, s.trace, row))
    ensures SharedInv(NewSession(s, row))
  {
    NextUnregistered(s);
    hide Coherent, EndedOnce, ClosedOnce, OwnRows, RowsEndOnce, LoggingOk;
    SessionCoherent(s, s.next, Session(0, row, false, false));
    SessionKeeps(s.sessions, s.trace, s.next, Session(0, row, false, false));
    SessionRows(s.sessions, s.rows, s.trace, s.next, Session(0, row, false, false));
  }

  lemma ChangeSessionKeeps(s: Shared, k: nat, c: Session)
    requires SharedInv(s) && k in s.sessions
    requires k in s.byID ==> c.user == s.sessions[k].user
    requires c.row == s.sessions[k].row && (s.sessions[k].closing ==> c.closing)
    ensures SharedInv(s.(sessions := s.sessions[k := c]))
  {
    hide Coherent, EndedOnce, ClosedOnce, OwnRows, RowsEndOnce;
    SessionCoherent(s, k, c);
    SessionKeeps(s.sessions, s.trace, k, c);
    SessionRows(s.sessions, s.rows, s.trace, k, c);
  }

  lemma RegisterInv(s: Shared, k: nat, callID: string)
    requires SharedInv(s)
    ensures SharedInv(Register(s, k, callID)) && SharedInv(Unregister(s, k))
  {
    RegisterCoherent(s, k, callID);
    UnregisterCoherent(s, k);
    RegisterFrame(s, k, callID);
    hide Coherent, EndedOnce, ClosedOnce, OwnRows, RowsEndOnce, Register, Unregister;
  }

  lemma SetInviteKeeps(s: Shared, i: nat, v: Invite)
    requires SharedInv(s) && i in s.invites && (s.invites[i].ended ==> v.ended)
    ensures SharedInv(SetInvite(s, i, v))
  {
    InviteKeeps(s.invites, s.trace, i, v);
    hide Coherent, EndedOnce, ClosedOnce, OwnRows, RowsEndOnce;
  }

  lemma ObservedKeeps(s: Shared, e: Observed)
    requires SharedInv(s) && MayObserve(s, e)
    ensures SharedInv(Observe(s, e))
  {
    ObserveInvites(s, e);
    ObserveSessions(s, e);
    ObserveRows(s, e);
    hide Coherent, EndedOnce, ClosedOnce, OwnRows, RowsEndOnce, MayObserve;
  }

  lemma RemoveKeeps(s: Shared, i: nat)
    requires SharedInv(s)
    ensures SharedInv(s.(incoming := s.incoming - {i}))
  {
    hide Coherent, EndedOnce, ClosedOnce, OwnRows, RowsEndOnce;
  }

  lemma NewRowKeeps(s: Shared)
    requires SharedInv(s)
    ensures SharedInv(s.(rows := s.rows + 1)) && LoggingOk(s.sessions, s.rows + 1, s.trace, s.rows + 1)
  {
    hide Coherent, EndedOnce, ClosedOnce, Count;
  }

  /** A row is ended by a thread whose set-up has failed, or by the closer of its session. */
  lemma EndLogKeeps(s: Shared, row: nat, choice: Choice)
    requires SharedInv(s) && (row > 0 ==> MayObserve(s, RowEnded(row)))
    ensures SharedInv(EndLog(s, row, choice))
  {
    if row > 0 { ObservedKeeps(s, RowEnded(row)); }
    hide SharedInv, MayObserve, Observe;
  }

  lemma MayEnd(s: Shared, pc: Pc, k: nat)
    requires TokenOk(s, pc) && TokenOf(pc) == Closing(k)
    ensures k in s.sessions && MayObserve(s, CallEnded(k)) && (pc.CloseBye? ==> MayObserve(s, ByeSent(k)))
  {}

  lemma RowMayEnd(s: Shared, pc: Pc)
    requires SharedInv(s) && TokenOk(s, pc)
    ensures pc.EndRow? && pc.row > 0 ==> MayObserve(s, RowEnded(pc.row))
    ensures pc.CloseLog? && s.sessions[pc.session].row > 0 ==> MayObserve(s, RowEnded(s.sessions[pc.session].row))
  {
    hide Coherent, EndedOnce, ClosedOnce, Count, Tables;
  }

  // ----- the steps -----

  predicate IsClose(pc: Pc) {
    !IsDial(pc) && !IsAccept(pc) && !IsEnd(pc) && !IsArrive(pc)
  }

  /** One step of a call keeps the tables. */
  lemma DialStep(s: Shared, pc: Pc, choice: Choice)
    requires SharedInv(s) && TokenOk(s, pc) && IsDial(pc)
    ensures SharedInv(ExecDial(s, pc, choice).0)
  {
    hide SharedInv, NewSession, Register, Count, Observe, LoggingOk;
    match pc
    case DialLog(_, _) => NewRowKeeps(s);
    case DialSetUp(_, _, row) => NewSessionKeeps(s, row);
    case DialAssign(user, _, k) => ChangeSessionKeeps(s, k, s.sessions[k].(user := user, dialog := false));
    case DialInvite(_, k) => ChangeSessionKeeps(s, k, s.sessions[k].(dialog := true));
    case DialRegister(callID, k) => RegisterInv(s, k, callID);
    case _ =>
  }

  lemma CloseStep(s: Shared, pc: Pc, choice: Choice)
    requires SharedInv(s) && TokenOk(s, pc) && IsClose(pc)
    ensures SharedInv(ExecClose(s, pc, choice).0)
  {
    hide SharedInv, Unregister, Count, Observe, EndLog, LoggingOk, MayObserve;
    RowMayEnd(s, pc);
    match pc
    case CloseOnce(k, _, _) => if k in s.sessions { ChangeSessionKeeps(s, k, s.sessions[k].(closing := true)); }
    case CloseBye(k, _, _) =>
      MayEnd(s, pc, k);
      ObservedKeeps(s, ByeSent(k));
    case CloseUnregister(k, _) => RegisterInv(s, k, "");
    case CloseLog(k, _) => EndLogKeeps(s, s.sessions[k].row, choice);
    case CloseDone(k, _) =>
      MayEnd(s, pc, k);
      ObservedKeeps(s, CallEnded(k));
    case EndRow(row, _) => EndLogKeeps(s, row, choice);
    case _ =>
  }

  /** A step keeps its own token, or takes one that was free. */
  ghost predicate TokenMoves(s: Shared, pc: Pc, t: Shared, pc': Pc) {
    TokenOk(t, pc') && (TokenOf(pc') == TokenOf(pc) || Fresh(s, TokenOf(pc')))
  }

  lemma MovesFree(s: Shared, pc: Pc, t: Shared, pc': Pc)
    requires TokenOf(pc').NoToken?
    ensures TokenMoves(s, pc, t, pc')
  {}

  lemma MovesLogging(s: Shared, pc: Pc, t: Shared, pc': Pc, row: nat)
    requires TokenOf(pc') == RowToken(row) && (row > 0 ==> LoggingOk(t.sessions, t.rows, t.trace, row))
    requires TokenOf(pc) == RowToken(row) || row > s.rows
    ensures TokenMoves(s, pc, t, pc')
  {
    hide LoggingOk;
  }

  lemma MovesSetUp(s: Shared, pc: Pc, t: Shared, pc': Pc, k: nat)
    requires TokenOf(pc') == SettingUp(k) && k in t.sessions && k !in t.byID && (IsAccept(pc') ==> pc'.invite in t.invites)
    requires TokenOf(pc) == SettingUp(k) || k !in s.sessions
    ensures TokenMoves(s, pc, t, pc')
  {}

  lemma MovesClosing(s: Shared, pc: Pc, t: Shared, pc': Pc, k: nat)
    requires TokenOf(pc') == Closing(k) && ClosingOk(t.sessions, t.trace, pc', k)
    requires TokenOf(pc) == Closing(k) || (k in s.sessions && !s.sessions[k].closing)
    ensures TokenMoves(s, pc, t, pc')
  {
    hide ClosingOk;
  }

  lemma LoggingIs(s: Shared, pc: Pc)
    requires TokenOk(s, pc)
    ensures TokenOf(pc).Logging? ==>
              LoggingOk(s.sessions, s.rows, s.trace, TokenOf(pc).row) && Unowned(s.sessions, TokenOf(pc).row)
  {
    hide Unowned, Count;
  }

  lemma SetUpIs(s: Shared, pc: Pc, k: nat)
    requires TokenOk(s, pc) && TokenOf(pc) == SettingUp(k)
    ensures k in s.sessions && k !in s.byID && (IsAccept(pc) ==> pc.invite in s.invites)
  {}

  lemma ClosingIs(s: Shared, pc: Pc, k: nat)
    requires TokenOk(s, pc) && TokenOf(pc) == Closing(k)
    ensures ClosingOk(s.sessions, s.trace, pc, k)
  {
    hide ClosingOk;
  }

  lemma NewDialToken(s: Shared, pc: Pc, choice: Choice)
    requires SharedInv(s) && TokenOk(s, pc) && (pc.DialLog? || pc.DialSetUp?)
    ensures var (t, pc') := ExecDial(s, pc, choice); TokenMoves(s, pc, t, pc')
  {
    hide SharedInv, TokenOk, LoggingOk, TokenMoves, Unowned, Count, Fresh;
    var (t, pc') := ExecDial(s, pc, choice);
    LoggingIs(s, pc);
    NextUnregistered(s);
    if pc.DialLog? {
      NewRowKeeps(s);
      MovesLogging(s, pc, t, pc', if choice.Succeeds? then s.rows + 1 else 0);
    } else if choice.Fails? {
      MovesLogging(s, pc, t, pc', pc.row);
    } else if choice.Succeeds? {
      MovesSetUp(s, pc, t, pc', s.next);
    } else {
      MovesFree(s, pc, t, pc');
    }
  }

  lemma DialToken(s: Shared, pc: Pc, choice: Choice)
    requires SharedInv(s) && TokenOk(s, pc) && IsDial(pc)
    ensures var (t, pc') := ExecDial(s, pc, choice); TokenMoves(s, pc, t, pc')
  {
    hide SharedInv, TokenOk, Register, TokenMoves, Count, Fresh;
    if pc.DialLog? || pc.DialSetUp? {
      NewDialToken(s, pc, choice);
    } else {
      var (t, pc') := ExecDial(s, pc, choice);
      if TokenOf(pc').SettingUp? {
        SetUpIs(s, pc, pc.session);
        MovesSetUp(s, pc, t, pc', pc.session);
      } else {
        MovesFree(s, pc, t, pc');
      }
    }
  }

  lemma CloseToken(s: Shared, pc: Pc, choice: Choice)
    requires SharedInv(s) && TokenOk(s, pc) && IsClose(pc)
    ensures var (t, pc') := ExecClose(s, pc, choice); TokenMoves(s, pc, t, pc')
  {
    var (t, pc') := ExecClose(s, pc, choice);
    hide SharedInv, TokenOk, Unregister, Count, TokenMoves, Resume;
    match pc
    case CloseOnce(k, _, after) =>
      ResumesFree(after);
      if k in s.sessions && !s.sessions[k].closing {
        NotEndedYet(s, k);
        MovesClosing(s, pc, t, pc', k);
      } else {
        MovesFree(s, pc, t, pc');
      }
    case CloseBye(k, _, _) =>
      ClosingIs(s, pc, k);
      CountAppend(s.trace, ByeSent(k), CallEnded(k));
      CountAppend(s.trace, ByeSent(k), RowEnded(s.sessions[k].row));
      MovesClosing(s, pc, t, pc', k);
    case CloseUnregister(k, _) =>
      ClosingIs(s, pc, k);
      MovesClosing(s, pc, t, pc', k);
    case CloseLog(k, _) =>
      ClosingIs(s, pc, k);
      CountAppend(s.trace, RowEnded(s.sessions[k].row), CallEnded(k));
      MovesClosing(s, pc, t, pc', k);
    case CloseDone(_, after) =>
      ResumesFree(after);
      MovesFree(s, pc, t, pc');
    case EndRow(_, after) =>
      ResumesFree(after);
      MovesFree(s, pc, t, pc');
    case _ => MovesFree(s, pc, t, pc');
  }

  lemma ResumesFree(after: After)
    ensures TokenOf(Resume(after)).NoToken?
  {}

  lemma NotEndedYet(s: Shared, k: nat)
    requires SharedInv(s) && k in s.sessions && !s.sessions[k].closing
    ensures Count(s.trace, CallEnded(k)) == 0 && Count(s.trace, ByeSent(k)) == 0
    ensures Count(s.trace, RowEnded(s.sessions[k].row)) == 0
  {
    hide Coherent, EndedOnce, OwnRows, Tables;
  }

  lemma NextUnregistered(s: Shared)
    requires SharedInv(s)
    ensures s.next !in s.sessions && s.next !in s.byID && s.next !in s.invites
    ensures s.next !in s.entered
  {}

  lemma RegisterFrame(s: Shared, k: nat, callID: string)
    ensures var t := Register(s, k, callID); t == s.(byID := t.byID, bySIP := t.bySIP, byUser := t.byUser)
    ensures var t := Unregister(s, k); t == s.(byID := t.byID, bySIP := t.bySIP, byUser := t.byUser)
    ensures forall j <- Register(s, k, callID).byID :: j in s.byID || j == k
    ensures forall j <- Unregister(s, k).byID :: j in s.byID
  {}

  lemma InviteKeeps(invites: map<nat, Invite>, trace: seq<Observed>, i: nat, v: Invite)
    requires EndedOnce(invites, trace)
    requires i in invites && invites[i].ended ==> v.ended
    ensures EndedOnce(invites[i := v], trace)
  {
    forall j: nat
      ensures var most := if j in invites[i := v] && invites[i := v][j].ended then 1 else 0;
              Count(trace, StoppedSent(j)) <= most && Count(trace, DialogClosed(j)) <= most
    {
      var most := if j in invites && invites[j].ended then 1 else 0;
      assert Count(trace, StoppedSent(j)) <= most && Count(trace, DialogClosed(j)) <= most;
    }
  }

  lemma ClaimStep(s: Shared, pc: Pc, choice: Choice)
    requires SharedInv(s) && TokenOk(s, pc) && IsClaim(pc) && pc.invite in s.invites
    ensures SharedInv(ExecClaim(s, pc, s.invites[pc.invite], choice).0)
  {
    hide SharedInv, NewSession, SetInvite, Count, Observe, LoggingOk;
    match pc
    case AcceptClaim(user, i) =>
      var v := s.invites[i].(answeredBy := user, armed := false);
      SetInviteKeeps(s, i, v);
      ObservedKeeps(SetInvite(s, i, v), Claimed(i));
    case AcceptLog(_, _) => NewRowKeeps(s);
    case AcceptSetUp(_, _, row) => NewSessionKeeps(s, row);
    case _ =>
  }

  lemma AnswerStep(s: Shared, pc: Pc, choice: Choice)
    requires SharedInv(s) && TokenOk(s, pc) && IsAnswer(pc) && pc.invite in s.invites
    ensures SharedInv(ExecAnswer(s, pc, s.invites[pc.invite], choice).0)
  {
    hide SharedInv, SetInvite, Register, Count, Observe;
    var v := s.invites[pc.invite];
    match pc
    case AcceptAssign(user, _, k) => ChangeSessionKeeps(s, k, s.sessions[k].(user := user, dialog := true));
    case AcceptAnswer(i, _) => ObservedKeeps(s, OkSent(i));
    case AcceptConnect(i, _) => SetInviteKeeps(s, i, v.(connected := true));
    case AcceptRegister(_, k) => RegisterInv(s, k, v.sipCallID);
    case AcceptRemove(i) => RemoveKeeps(s, i);
    case AcceptEmit(i) => ObservedKeeps(s, AnsweredSent(i));
  }

  lemma AcceptStep(s: Shared, pc: Pc, choice: Choice)
    requires SharedInv(s) && TokenOk(s, pc) && IsAccept(pc) && pc.invite in s.invites
    ensures SharedInv(ExecAccept(s, pc, s.invites[pc.invite], choice).0)
  {
    hide ExecClaim, ExecAnswer, SharedInv, TokenOk;
    if IsClaim(pc) { ClaimStep(s, pc, choice); } else { AnswerStep(s, pc, choice); }
  }

  lemma ClaimToken(s: Shared, pc: Pc, choice: Choice)
    requires SharedInv(s) && TokenOk(s, pc) && IsClaim(pc) && pc.invite in s.invites
    ensures var (t, pc') := ExecClaim(s, pc, s.invites[pc.invite], choice); TokenMoves(s, pc, t, pc')
  {
    hide SharedInv, TokenOk, LoggingOk, TokenMoves, Unowned, Count, Fresh, Observe, SetInvite;
    var (t, pc') := ExecClaim(s, pc, s.invites[pc.invite], choice);
    LoggingIs(s, pc);
    NextUnregistered(s);
    match pc
    case AcceptLog(_, _) =>
      NewRowKeeps(s);
      MovesLogging(s, pc, t, pc', if choice.Succeeds? then s.rows + 1 else 0);
    case AcceptSetUp(_, _, row) =>
      if choice.Fails? { MovesLogging(s, pc, t, pc', row); }
      else if choice.Succeeds? { MovesSetUp(s, pc, t, pc', s.next); }
      else { MovesFree(s, pc, t, pc'); }
    case _ => MovesFree(s, pc, t, pc');
  }

  lemma AnswerToken(s: Shared, pc: Pc, choice: Choice)
    requires SharedInv(s) && TokenOk(s, pc) && IsAnswer(pc) && pc.invite in s.invites
    ensures var (t, pc') := ExecAnswer(s, pc, s.invites[pc.invite], choice); TokenMoves(s, pc, t, pc')
  {
    hide SharedInv, TokenOk, Register, TokenMoves, Count, Fresh, Observe;
    var (t, pc') := ExecAnswer(s, pc, s.invites[pc.invite], choice);
    if TokenOf(pc').SettingUp? {
      SetUpIs(s, pc, pc.session);
      MovesSetUp(s, pc, t, pc', pc.session);
    } else {
      MovesFree(s, pc, t, pc');
    }
  }

  lemma AcceptToken(s: Shared, pc: Pc, choice: Choice)
    requires SharedInv(s) && TokenOk(s, pc) && IsAccept(pc) && pc.invite in s.invites
    ensures var (t, pc') := ExecAccept(s, pc, s.invites[pc.invite], choice); TokenMoves(s, pc, t, pc')
  {
    hide ExecClaim, ExecAnswer, SharedInv, TokenOk, TokenMoves;
    if IsClaim(pc) { ClaimToken(s, pc, choice); } else { AnswerToken(s, pc, choice); }
  }

  lemma NothingYet(s: Shared, i: nat)
    requires SharedInv(s) && i in s.invites && !s.invites[i].ended
    ensures Count(s.trace, StoppedSent(i)) == 0 && Count(s.trace, DialogClosed(i)) == 0
  {
    hide Coherent, ClosedOnce, OwnRows, RowsEndOnce, Tables;
  }

  lemma EndStep(s: Shared, pc: Pc, choice: Choice)
    requires SharedInv(s) && TokenOk(s, pc) && IsEnd(pc) && pc.invite in s.invites
    ensures SharedInv(ExecEnd(s, pc, s.invites[pc.invite], choice).0)
  {
    hide SharedInv, SetInvite, Count, Observe;
    var v := s.invites[pc.invite];
    match pc
    case Respond(i, _) =>
      SetInviteKeeps(s, i, v.(armed := false));
      ObservedKeeps(SetInvite(s, i, v.(armed := false)), RejectSent(i));
    case FinishEnd(i) => SetInviteKeeps(s, i, v.(ended := true, armed := false));
    case FinishRemove(i) => RemoveKeeps(s, i);
    case FinishEmit(i) => ObservedKeeps(s, StoppedSent(i));
    case FinishClose(i) => ObservedKeeps(s, DialogClosed(i));
    case _ =>
  }

  lemma MovesEnding(s: Shared, pc: Pc, t: Shared, pc': Pc, i: nat)
    requires TokenOf(pc') == Ending(i) && i in t.invites && t.invites[i].ended && Count(t.trace, DialogClosed(i)) == 0
    requires !pc'.FinishClose? ==> Count(t.trace, StoppedSent(i)) == 0
    requires TokenOf(pc) == Ending(i) || (i in s.invites && !s.invites[i].ended)
    ensures TokenMoves(s, pc, t, pc')
  {
    hide Count;
  }

  lemma EndingIs(s: Shared, pc: Pc, i: nat)
    requires TokenOk(s, pc) && TokenOf(pc) == Ending(i)
    ensures i in s.invites && s.invites[i].ended && Count(s.trace, DialogClosed(i)) == 0
    ensures !pc.FinishClose? ==> Count(s.trace, StoppedSent(i)) == 0
  {
    hide Count;
  }

  lemma EndToken(s: Shared, pc: Pc, choice: Choice)
    requires SharedInv(s) && TokenOk(s, pc) && IsEnd(pc) && pc.invite in s.invites
    ensures var (t, pc') := ExecEnd(s, pc, s.invites[pc.invite], choice); TokenMoves(s, pc, t, pc')
  {
    hide SharedInv, TokenOk, TokenMoves, Count, Fresh;
    if pc.FinishEnd? || pc.FinishRemove? || pc.FinishEmit? || pc.FinishClose? {
      FinishToken(s, pc, choice);
    } else {
      hide SetInvite, Observe;
      MovesFree(s, pc, ExecEnd(s, pc, s.invites[pc.invite], choice).0, ExecEnd(s, pc, s.invites[pc.invite], choice).1);
    }
  }

  lemma FinishToken(s: Shared, pc: Pc, choice: Choice)
    requires SharedInv(s) && TokenOk(s, pc) && (pc.FinishEnd? || pc.FinishRemove? || pc.FinishEmit? || pc.FinishClose?)
    requires pc.invite in s.invites
    ensures var (t, pc') := ExecEnd(s, pc, s.invites[pc.invite], choice); TokenMoves(s, pc, t, pc')
  {
    hide SharedInv, TokenOk, TokenMoves, Count, Fresh;
    var i := pc.invite;
    var (t, pc') := ExecEnd(s, pc, s.invites[i], choice);
    if pc.FinishClose? || (pc.FinishEnd? && s.invites[i].ended) {
      MovesFree(s, pc, t, pc');
    } else {
      if pc.FinishEnd? { NothingYet(s, i); } else { EndingIs(s, pc, i); }
      if pc.FinishEmit? { CountAppend(s.trace, StoppedSent(i), DialogClosed(i)); }
      MovesEnding(s, pc, t, pc', i);
    }
  }

  lemma NewInviteKeeps(s: Shared, v: Invite)
    requires SharedInv(s)
    ensures SharedInv(s.(next := s.next + 1, invites := s.invites[s.next := v]))
  {
    NextUnregistered(s);
    InviteKeeps(s.invites, s.trace, s.next, v);
    hide Coherent, EndedOnce, ClosedOnce, OwnRows, RowsEndOnce;
  }

  lemma InsertKeeps(s: Shared, i: nat)
    requires SharedInv(s) && i in s.invites
    ensures SharedInv(s.(incoming := s.incoming + {i}, entered := s.entered + {i}))
  {
    hide Coherent, EndedOnce, ClosedOnce, OwnRows, RowsEndOnce;
  }

  lemma ArriveStep(s: Shared, pc: Pc)
    requires SharedInv(s) && TokenOk(s, pc) && IsArrive(pc)
    ensures SharedInv(ExecArrive(s, pc).0)
  {
    hide SharedInv, Observe, Count;
    match pc
    case ArriveArm(users, sipCallID) => NewInviteKeeps(s, Invite(users, sipCallID, true, false, false, 0));
    case ArriveInsert(i) => InsertKeeps(s, i);
    case ArriveEmit(i) => ObservedKeeps(s, RingingSent(i));
  }

  lemma ArriveToken(s: Shared, pc: Pc)
    requires SharedInv(s) && TokenOk(s, pc) && IsArrive(pc)
    ensures var (t, pc') := ExecArrive(s, pc); TokenMoves(s, pc, t, pc')
  {
    hide SharedInv, TokenOk, TokenMoves, Observe, Count, Fresh;
    var (t, pc') := ExecArrive(s, pc);
    if pc.ArriveArm? {
      NextUnregistered(s);
      MovesInserting(s, pc, t, pc', s.next);
    } else {
      MovesFree(s, pc, t, pc');
    }
  }

  lemma MovesInserting(s: Shared, pc: Pc, t: Shared, pc': Pc, i: nat)
    requires TokenOf(pc') == Inserting(i) && i in t.invites && i !in t.entered && i !in s.invites
    ensures TokenMoves(s, pc, t, pc')
  {}

  lemma ExecStep(s: Shared, pc: Pc, choice: Choice)
    requires SharedInv(s) && TokenOk(s, pc)
    ensures var (t, pc') := Exec(s, pc, choice); SharedInv(t) && TokenMoves(s, pc, t, pc')
  {
    hide SharedInv, ExecAccept, ExecDial, ExecClose, ExecEnd, ExecArrive, ClosingOk, LoggingOk;
    if IsAccept(pc) {
      if pc.invite in s.invites {
        AcceptStep(s, pc, choice);
        AcceptToken(s, pc, choice);
      }
    } else if IsEnd(pc) {
      if pc.invite in s.invites {
        EndStep(s, pc, choice);
        EndToken(s, pc, choice);
      }
    } else if IsArrive(pc) {
      ArriveStep(s, pc);
      ArriveToken(s, pc);
    } else if IsDial(pc) {
      DialStep(s, pc, choice);
      DialToken(s, pc, choice);
    } else {
      CloseStep(s, pc, choice);
      CloseToken(s, pc, choice);
    }
  }

  // ----- what a step can change -----

  /** The trace grows by at most one observation; what may be observed once needs the token. */
  ghost predicate TraceGrows(sessions: map<nat, Session>, trace: seq<Observed>, after: seq<Observed>, tok: Token) {
    || after == trace
    || (|after| == |trace| + 1 && after[..|trace|] == trace
        && var e := after[|trace|];
           && (e.StoppedSent? || e.DialogClosed? ==> tok == Ending(e.invite))
           && (e.CallEnded? || e.ByeSent? ==> tok == Closing(e.session))
           && (e.RowEnded? ==> e.row > 0 && (tok == Logging(e.row) || ClosesRow(sessions, tok, e.row))))
  }

  /** The token is that of closing the session that has the row. */
  ghost predicate ClosesRow(sessions: map<nat, Session>, tok: Token, row: nat) {
    tok.Closing? && tok.session in sessions && sessions[tok.session].row == row
  }

  /** What happens to the tables. */
  ghost predicate TablesGrow(s: Shared, t: Shared, tok: Token) {
    && (forall k <- s.sessions ::
          k in t.sessions && t.sessions[k].row == s.sessions[k].row && (s.sessions[k].closing ==> t.sessions[k].closing))
    && (forall k <- t.sessions :: k in s.sessions || t.sessions[k].row == 0 || tok == Logging(t.sessions[k].row))
    && s.rows <= t.rows
    && (forall k <- t.byID :: k in s.byID || tok == SettingUp(k))
    && (forall i <- s.invites :: i in t.invites && (s.invites[i].ended ==> t.invites[i].ended))
    && (forall i <- t.entered :: i in s.entered || tok == Inserting(i))
  }

  ghost predicate Effect(s: Shared, t: Shared, tok: Token) {
    TablesGrow(s, t, tok) && TraceGrows(s.sessions, s.trace, t.trace, tok)
  }

  lemma DialTables(s: Shared, pc: Pc, choice: Choice)
    requires IsDial(pc) && s.next !in s.sessions
    ensures TablesGrow(s, ExecDial(s, pc, choice).0, TokenOf(pc))
  {}

  lemma DialTrace(s: Shared, pc: Pc, choice: Choice)
    ensures TraceGrows(s.sessions, s.trace, ExecDial(s, pc, choice).0.trace, TokenOf(pc))
  {
    hide NewSession, Assign, OpenDialog, Register;
  }

  lemma DialEffect(s: Shared, pc: Pc, choice: Choice)
    requires IsDial(pc) && s.next !in s.sessions
    ensures Effect(s, ExecDial(s, pc, choice).0, TokenOf(pc))
  {
    DialTables(s, pc, choice);
    DialTrace(s, pc, choice);
    hide ExecDial, TablesGrow, TraceGrows, TokenOf;
  }

  lemma CloseTables(s: Shared, pc: Pc, choice: Choice)
    requires !IsDial(pc)
    ensures TablesGrow(s, ExecClose(s, pc, choice).0, TokenOf(pc))
  {
    hide Observe, EndLog;
  }

  lemma CloseTrace(s: Shared, pc: Pc, choice: Choice)
    ensures TraceGrows(s.sessions, s.trace, ExecClose(s, pc, choice).0.trace, TokenOf(pc))
  {
    hide Unregister;
  }

  lemma CloseEffect(s: Shared, pc: Pc, choice: Choice)
    requires !IsDial(pc)
    ensures Effect(s, ExecClose(s, pc, choice).0, TokenOf(pc))
  {
    CloseTables(s, pc, choice);
    CloseTrace(s, pc, choice);
    hide ExecClose, TablesGrow, TraceGrows, TokenOf;
  }

  lemma ClaimTables(s: Shared, pc: Pc, choice: Choice)
    requires IsClaim(pc) && pc.invite in s.invites && s.next !in s.sessions
    ensures TablesGrow(s, ExecClaim(s, pc, s.invites[pc.invite], choice).0, TokenOf(pc))
  {
    hide Observe;
  }

  lemma AnswerTables(s: Shared, pc: Pc, choice: Choice)
    requires IsAnswer(pc) && pc.invite in s.invites
    ensures TablesGrow(s, ExecAnswer(s, pc, s.invites[pc.invite], choice).0, TokenOf(pc))
  {
    hide Observe;
  }

  lemma AcceptTables(s: Shared, pc: Pc, choice: Choice)
    requires IsAccept(pc) && pc.invite in s.invites && s.next !in s.sessions
    ensures TablesGrow(s, ExecAccept(s, pc, s.invites[pc.invite], choice).0, TokenOf(pc))
  {
    hide ExecClaim, ExecAnswer, TablesGrow, TokenOf;
    if IsClaim(pc) { ClaimTables(s, pc, choice); } else { AnswerTables(s, pc, choice); }
  }

  lemma ClaimTrace(s: Shared, pc: Pc, choice: Choice)
    requires IsClaim(pc) && pc.invite in s.invites
    ensures TraceGrows(s.sessions, s.trace, ExecClaim(s, pc, s.invites[pc.invite], choice).0.trace, TokenOf(pc))
  {
    hide NewSession;
  }

  lemma AnswerTrace(s: Shared, pc: Pc, choice: Choice)
    requires IsAnswer(pc) && pc.invite in s.invites
    ensures TraceGrows(s.sessions, s.trace, ExecAnswer(s, pc, s.invites[pc.invite], choice).0.trace, TokenOf(pc))
  {
    hide Assign, Register;
  }

  lemma AcceptTrace(s: Shared, pc: Pc, choice: Choice)
    requires IsAccept(pc) && pc.invite in s.invites
    ensures TraceGrows(s.sessions, s.trace, ExecAccept(s, pc, s.invites[pc.invite], choice).0.trace, TokenOf(pc))
  {
    hide ExecClaim, ExecAnswer, TraceGrows, TokenOf;
    if IsClaim(pc) { ClaimTrace(s, pc, choice); } else { AnswerTrace(s, pc, choice); }
  }

  lemma AcceptEffect(s: Shared, pc: Pc, choice: Choice)
    requires IsAccept(pc) && pc.invite in s.invites && s.next !in s.sessions
    ensures Effect(s, ExecAccept(s, pc, s.invites[pc.invite], choice).0, TokenOf(pc))
  {
    AcceptTables(s, pc, choice);
    AcceptTrace(s, pc, choice);
    hide ExecAccept, TablesGrow, TraceGrows, TokenOf;
  }

  lemma EndTables(s: Shared, pc: Pc, choice: Choice)
    requires IsEnd(pc) && pc.invite in s.invites
    ensures TablesGrow(s, ExecEnd(s, pc, s.invites[pc.invite], choice).0, TokenOf(pc))
  {
    hide TablesGrow, TokenOf, SetInvite, Observe;
    var i, v, tok := pc.invite, s.invites[pc.invite], TokenOf(pc);
    InviteTables(s, i, v.(armed := false), tok);
    InviteTables(s, i, v.(ended := true, armed := false), tok);
    ObserveTables(s, SetInvite(s, i, v.(armed := false)), RejectSent(i), tok);
    ObserveTables(s, s, StoppedSent(i), tok);
    ObserveTables(s, s, DialogClosed(i), tok);
  }

  lemma InviteTables(s: Shared, i: nat, v: Invite, tok: Token)
    requires i in s.invites && (s.invites[i].ended ==> v.ended)
    ensures TablesGrow(s, SetInvite(s, i, v), tok)
    ensures TablesGrow(s, s, tok) && TablesGrow(s, s.(incoming := s.incoming - {i}), tok)
  {}

  lemma ObserveTables(s: Shared, t: Shared, e: Observed, tok: Token)
    requires TablesGrow(s, t, tok)
    ensures TablesGrow(s, Observe(t, e), tok)
  {}

  lemma EndTrace(s: Shared, pc: Pc, choice: Choice)
    requires IsEnd(pc) && pc.invite in s.invites
    ensures TraceGrows(s.sessions, s.trace, ExecEnd(s, pc, s.invites[pc.invite], choice).0.trace, TokenOf(pc))
  {}

  lemma EndEffect(s: Shared, pc: Pc, choice: Choice)
    requires IsEnd(pc) && pc.invite in s.invites
    ensures Effect(s, ExecEnd(s, pc, s.invites[pc.invite], choice).0, TokenOf(pc))
  {
    EndTables(s, pc, choice);
    EndTrace(s, pc, choice);
    hide ExecEnd, TablesGrow, TraceGrows, TokenOf;
  }

  lemma ArriveEffect(s: Shared, pc: Pc)
    requires s.next !in s.invites
    ensures Effect(s, ExecArrive(s, pc).0, TokenOf(pc))
  {}

  lemma Unchanged(s: Shared, tok: Token)
    ensures Effect(s, s, tok)
  {}

  lemma ExecEffect(s: Shared, pc: Pc, choice: Choice)
    requires s.next !in s.invites && s.next !in s.sessions
    ensures Effect(s, Exec(s, pc, choice).0, TokenOf(pc))
  {
    hide ExecAccept, ExecDial, ExecClose, ExecEnd, ExecArrive, TraceGrows, TablesGrow;
    Unchanged(s, TokenOf(pc));
    if IsAccept(pc) && pc.invite in s.invites {
      AcceptEffect(s, pc, choice);
    } else if IsEnd(pc) && pc.invite in s.invites {
      EndEffect(s, pc, choice);
    } else if IsArrive(pc) {
      ArriveEffect(s, pc);
    } else if IsDial(pc) {
      DialEffect(s, pc, choice);
    } else if !IsAccept(pc) && !IsEnd(pc) {
      CloseEffect(s, pc, choice);
    }
  }

  lemma CountGrows(sessions: map<nat, Session>, trace: seq<Observed>, after: seq<Observed>, tok: Token, i: nat)
    requires TraceGrows(sessions, trace, after, tok) && tok != Ending(i)
    ensures Count(after, StoppedSent(i)) == Count(trace, StoppedSent(i))
    ensures Count(after, DialogClosed(i)) == Count(trace, DialogClosed(i))
  {
    if after != trace {
      var e := after[|trace|];
      assert after == trace + [e];
      CountAppend(trace, e, StoppedSent(i));
      CountAppend(trace, e, DialogClosed(i));
    }
  }

  lemma EndedCountGrows(sessions: map<nat, Session>, trace: seq<Observed>, after: seq<Observed>, tok: Token, k: nat)
    requires TraceGrows(sessions, trace, after, tok) && tok != Closing(k)
    ensures Count(after, CallEnded(k)) == Count(trace, CallEnded(k))
    ensures Count(after, ByeSent(k)) == Count(trace, ByeSent(k))
  {
    if after != trace {
      var e := after[|trace|];
      assert after == trace + [e];
      CountAppend(trace, e, CallEnded(k));
      CountAppend(trace, e, ByeSent(k));
    }
  }

  lemma RowCountGrows(sessions: map<nat, Session>, trace: seq<Observed>, after: seq<Observed>, tok: Token, row: nat)
    requires TraceGrows(sessions, trace, after, tok) && (row == 0 || (tok != Logging(row) && !ClosesRow(sessions, tok, row)))
    ensures Count(after, RowEnded(row)) == Count(trace, RowEnded(row))
  {
    if after != trace {
      var e := after[|trace|];
      assert after == trace + [e];
      CountAppend(trace, e, RowEnded(row));
    }
  }

  /** A step of one thread leaves the tokens of the others as they were. */
  lemma OthersKeep(s: Shared, tok: Token, t: Shared, other: Pc)
    requires Effect(s, t, tok) && TokenOk(s, other) && OwnRows(s.sessions, s.rows)
    requires tok == TokenOf(other) ==> tok.NoToken?
    requires tok.Logging? ==> Unowned(s.sessions, tok.row)
    ensures TokenOk(t, other)
  {
    hide Count, TraceGrows;
    match TokenOf(other)
    case Ending(i) => CountGrows(s.sessions, s.trace, t.trace, tok, i);
    case Closing(k) =>
      EndedCountGrows(s.sessions, s.trace, t.trace, tok, k);
      RowCountGrows(s.sessions, s.trace, t.trace, tok, s.sessions[k].row);
    case Logging(r) => RowCountGrows(s.sessions, s.trace, t.trace, tok, r);
    case _ =>
  }

  lemma StartStep(s: Shared, pc: Pc)
    requires SharedInv(s) && Starts(s, pc)
    ensures SharedInv(Started(s, pc)) && Effect(s, Started(s, pc), NoToken)
    ensures TokenOf(pc) == NoToken && TokenOk(Started(s, pc), pc)
  {
    hide Coherent, EndedOnce, ClosedOnce, OwnRows, RowsEndOnce, Count;
    if pc.Respond? {
      InviteKeeps(s.invites, s.trace, pc.invite, s.invites[pc.invite].(armed := false));
    }
  }

  lemma ActKeeps(s: State, a: Action)
    requires Inv(s)
    ensures Inv(Act(s, a))
  {
    hide SharedInv, Effect, Exec, TokenOk, TokenOf, Starts, Started, Fresh, OwnRows, Unowned;
    match a
    case Spawn(t, pc) =>
      if Starts(s.shared, pc) && t !in s.threads {
        StartStep(s.shared, pc);
        TheirRows(s.shared);
        forall u | u in s.threads
          ensures TokenOk(Started(s.shared, pc), s.threads[u])
        {
          OthersKeep(s.shared, NoToken, Started(s.shared, pc), s.threads[u]);
        }
      }
    case Advance(t, choice) =>
      if t in s.threads {
        var pc := s.threads[t];
        var (shared, pc') := Exec(s.shared, pc, choice);
        NextFree(s.shared);
        TheirRows(s.shared);
        LoggingIs(s.shared, pc);
        ExecStep(s.shared, pc, choice);
        ExecEffect(s.shared, pc, choice);
        forall u | u in s.threads && u != t
          ensures TokenOk(shared, s.threads[u])
          ensures TokenOf(s.threads[u]) == TokenOf(pc') ==> TokenOf(pc').NoToken?
        {
          OthersKeep(s.shared, TokenOf(pc), shared, s.threads[u]);
          if Fresh(s.shared, TokenOf(pc')) {
            FreshIsFree(s.shared, TokenOf(pc'), s.threads[u]);
          }
        }
      }
  }

  lemma NextFree(s: Shared)
    requires SharedInv(s)
    ensures s.next !in s.invites && s.next !in s.sessions
  {}

  lemma TheirRows(s: Shared)
    requires SharedInv(s)
    ensures OwnRows(s.sessions, s.rows)
  {
    hide Coherent, EndedOnce, ClosedOnce, RowsEndOnce, OwnRows, Tables;
  }

  lemma FreshIsFree(s: Shared, tok: Token, other: Pc)
    requires Fresh(s, tok) && TokenOk(s, other)
    ensures TokenOf(other) == tok ==> tok.NoToken?
  {}

  lemma {:induction false} RunKeeps(s: State, actions: seq<Action>)
    requires Inv(s)
    ensures Inv(Run(s, actions))
    decreases actions
  {
    hide Inv, Act;
    if actions != [] {
      ActKeeps(s, actions[0]);
      RunKeeps(Act(s, actions[0]), actions[1..]);
    }
  }

  lemma Reachable(actions: seq<Action>)
    ensures Inv(Run(EMPTY, actions))
  {
    hide Run;
    assert Inv(EMPTY);
    RunKeeps(EMPTY, actions);
  }

  // ----- the guarantees -----

  /** In every interleaving each entry of `callsBySIPID` and `callsByUser` leads to a session that is in
      `callsByID` under its own identifier, and under that user. */
  lemma IndexCoherence(actions: seq<Action>)
    ensures var s := Run(EMPTY, actions).shared;
            && (forall k <- s.byID :: s.byID[k] == k && k in s.sessions)
            && (forall c <- s.bySIP :: c != "" && s.bySIP[c] in s.byID)
            && (forall u <- s.byUser :: u > 0 && s.byUser[u] in s.byID && s.byUser[u] in s.sessions
                                        && s.sessions[s.byUser[u]].user == u)
  {
    hide Run, EndedOnce;
    Reachable(actions);
  }

  /** In every interleaving an invite has at most one Stopped event and one closing of its dialog by
      finishInbound, and neither before `ended` is set. */
  lemma StoppedAtMostOnce(actions: seq<Action>, i: nat)
    ensures var s := Run(EMPTY, actions).shared;
            var most := if i in s.invites && s.invites[i].ended then 1 else 0;
            Count(s.trace, StoppedSent(i)) <= most && Count(s.trace, DialogClosed(i)) <= most
  {
    hide Run, Count, Coherent;
    Reachable(actions);
  }

  /** In every interleaving the end of a session is reported once at most and at most one BYE is sent for it, and
      neither before it is closing: the once-guard of `close` holds however many closers run at once. */
  lemma EndReportedAtMostOnce(actions: seq<Action>, k: nat)
    ensures var s := Run(EMPTY, actions).shared;
            var most := if k in s.sessions && s.sessions[k].closing then 1 else 0;
            Count(s.trace, CallEnded(k)) <= most && Count(s.trace, ByeSent(k)) <= most
  {
    hide Run, Count, Coherent, EndedOnce, OwnRows, RowsEndOnce;
    Reachable(actions);
  }

  /** In every interleaving no two sessions have the same row of the call log, each row is ended once at most, and
      the row of a session is not ended before the session is closing. */
  lemma RowsEndedAtMostOnce(actions: seq<Action>, row: nat)
    ensures var s := Run(EMPTY, actions).shared;
            && Count(s.trace, RowEnded(row)) <= (if 0 < row <= s.rows then 1 else 0)
            && (forall j <- s.sessions, k <- s.sessions :: s.sessions[j].row == s.sessions[k].row > 0 ==> j == k)
            && forall k <- s.sessions ::
                 s.sessions[k].row == row && Count(s.trace, RowEnded(row)) > 0 ==> s.sessions[k].closing
  {
    hide Run, Count, Coherent, EndedOnce, ClosedOnce;
    Reachable(actions);
  }
}
