/**
 The call manager with every handler cut at the critical sections of `m.mu` and `inv.mu`, so
 that any number of handlers interleave. A thread is a program counter; one step runs one
 critical section of one thread, with the outcome of library calls chosen by the step.
 */
module CallInterleaving {

  datatype Invite = Invite(users: set<int>, sipCallID: string, armed: bool, ended: bool, connected: bool, answeredBy: int)

  /** `row` is the session's row in the call log, or 0. */
  datatype Session = Session(user: int, row: nat, dialog: bool, closing: bool)

  /** What the SIP peer, the notifier and the call log see. */
  datatype Observed =
    | RingingSent(invite: nat) | AnsweredSent(invite: nat) | StoppedSent(invite: nat)
    | Claimed(invite: nat) | OkSent(invite: nat) | RejectSent(invite: nat) | DialogClosed(invite: nat)
    | CallEnded(session: nat) | ByeSent(session: nat) | RowEnded(row: nat)

  /** `rows` is how many rows the call log has; `entered` remembers which invites have been in the table of ringing
      invites. */
  datatype Shared = Shared(
    next: nat, rows: nat,
    sessions: map<nat, Session>, byID: map<nat, nat>, bySIP: map<string, nat>, byUser: map<int, nat>,
    invites: map<nat, Invite>, incoming: set<nat>, entered: set<nat>,
    trace: seq<Observed>)

  /** What a failed accept still has to do once its session is closed. */
  datatype After = Nothing | ThenReject(invite: nat) | ThenFinish(invite: nat)

  datatype Pc =
    | Done
      // StartCall
    | DialGuard(user: int, callID: string) | DialLog(user: int, callID: string)
    | DialSetUp(user: int, callID: string, row: nat)
    | DialAssign(user: int, callID: string, session: nat) | DialInvite(callID: string, session: nat)
    | DialRegister(callID: string, session: nat)
      // close, and the end of a set-up that has no session to close
    | CloseOnce(session: nat, bye: bool, after: After) | CloseBye(session: nat, bye: bool, after: After)
    | CloseUnregister(session: nat, after: After)
    | CloseLog(session: nat, after: After) | CloseDone(session: nat, after: After)
    | EndRow(row: nat, after: After)
      // AcceptIncoming
    | AcceptLookup(user: int, invite: nat) | AcceptAllowed(user: int, invite: nat) | AcceptGuard(user: int, invite: nat)
    | AcceptClaim(user: int, invite: nat) | AcceptLog(user: int, invite: nat)
    | AcceptSetUp(user: int, invite: nat, row: nat)
    | AcceptAssign(user: int, invite: nat, session: nat) | AcceptAnswer(invite: nat, session: nat)
    | AcceptConnect(invite: nat, session: nat)
    | AcceptRegister(invite: nat, session: nat) | AcceptRemove(invite: nat) | AcceptEmit(invite: nat)
      // RejectIncoming, the timer, and the end of the dialog
    | RejectLookup(user: int, invite: nat) | RejectAllowed(user: int, invite: nat)
    | Respond(invite: nat, strict: bool) | CancelCheck(invite: nat)
      // finishInbound
    | FinishEnd(invite: nat) | FinishRemove(invite: nat) | FinishEmit(invite: nat) | FinishClose(invite: nat)
      // onIncomingInvite
    | ArriveArm(users: set<int>, sipCallID: string) | ArriveInsert(invite: nat) | ArriveEmit(invite: nat)

  datatype Choice = Succeeds | Fails | FailsLate

  function Resume(after: After): Pc {
    match after
    case Nothing => Done
    case ThenReject(i) => Respond(i, false)
    case ThenFinish(i) => FinishEnd(i)
  }

  /** Sessions and their indexes are not about invites. */
  ghost predicate SameInvites(s: Shared, t: Shared) {
    t.invites == s.invites && t.incoming == s.incoming && t.entered == s.entered
  }

  ghost predicate SameIndexes(s: Shared, t: Shared) {
    t.byID == s.byID && t.bySIP == s.bySIP && t.byUser == s.byUser
  }

  function Observe(s: Shared, o: Observed): (t: Shared)
    ensures SameInvites(s, t) && SameIndexes(s, t) && t.sessions == s.sessions && t.rows == s.rows && t.next == s.next
  {
    s.(trace := s.trace + [o])
  }

  function NewSession(s: Shared, row: nat): (t: Shared)
    ensures SameInvites(s, t) && SameIndexes(s, t) && t.trace == s.trace && t.rows == s.rows
  {
    s.(next := s.next + 1, sessions := s.sessions[s.next := Session(0, row, false, false)])
  }

  function Assign(s: Shared, k: nat, user: int, dialog: bool): (t: Shared)
    ensures SameInvites(s, t) && SameIndexes(s, t) && t.trace == s.trace && t.rows == s.rows
  {
    if k in s.sessions then s.(sessions := s.sessions[k := s.sessions[k].(user := user, dialog := dialog)]) else s
  }

  function OpenDialog(s: Shared, k: nat): (t: Shared)
    ensures SameInvites(s, t) && SameIndexes(s, t) && t.trace == s.trace && t.rows == s.rows
  {
    if k in s.sessions then s.(sessions := s.sessions[k := s.sessions[k].(dialog := true)]) else s
  }

  /** The update that ends a row may fail in the database; there is none for row 0. */
  function EndLog(s: Shared, row: nat, choice: Choice): (t: Shared)
    ensures SameInvites(s, t) && SameIndexes(s, t) && t.sessions == s.sessions && t.rows == s.rows && t.next == s.next
  {
    if row > 0 && choice.Succeeds? then Observe(s, RowEnded(row)) else s
  }

  function Register(s: Shared, k: nat, callID: string): (t: Shared)
    ensures SameInvites(s, t) && t.trace == s.trace && t.sessions == s.sessions && t.rows == s.rows
  {
    if k !in s.sessions then s
    else
      var user := s.sessions[k].user;
      s.(byID := s.byID[k := k],
         bySIP := if callID != "" then s.bySIP[callID := k] else s.bySIP,
         byUser := if user > 0 then s.byUser[user := k] else s.byUser)
  }

  function Unregister(s: Shared, k: nat): (t: Shared)
    ensures SameInvites(s, t) && t.trace == s.trace && t.sessions == s.sessions && t.rows == s.rows
  {
    if k !in s.sessions then s
    else
      var user := s.sessions[k].user;
      s.(byID := s.byID - {k},
         bySIP := map c | c in s.bySIP && s.bySIP[c] != k :: s.bySIP[c],
         byUser := if user > 0 then s.byUser - {user} else s.byUser)
  }

  function SetInvite(s: Shared, i: nat, v: Invite): Shared {
    s.(invites := s.invites[i := v])
  }

  /** StartCall; a dial whose box is unknown or offline stops after the guard. */
  function ExecDial(s: Shared, pc: Pc, choice: Choice): (Shared, Pc) {
    match pc
    case DialGuard(user, callID) => (s, if user in s.byUser || choice.Fails? then Done else DialLog(user, callID))
    case DialLog(user, callID) =>
      if choice.Succeeds? then (s.(rows := s.rows + 1), DialSetUp(user, callID, s.rows + 1))
      else (s, DialSetUp(user, callID, 0))
    case DialSetUp(user, callID, row) =>
      (match choice
       case Fails => (s, EndRow(row, Nothing))
       case FailsLate => (NewSession(s, row), CloseOnce(s.next, false, Nothing))
       case Succeeds => (NewSession(s, row), DialAssign(user, callID, s.next)))
    case DialAssign(user, callID, k) => (Assign(s, k, user, false), DialInvite(callID, k))
    case DialInvite(callID, k) =>
      (match choice
       case Fails => (s, CloseOnce(k, false, Nothing))
       case FailsLate => (OpenDialog(s, k), CloseOnce(k, true, Nothing))
       case Succeeds => (OpenDialog(s, k), DialRegister(callID, k)))
    case DialRegister(callID, k) => (Register(s, k, callID), Done)
    case _ => (s, pc)
  }

  /** close, and the end of a row whose session never came to be. */
  function ExecClose(s: Shared, pc: Pc, choice: Choice): (Shared, Pc) {
    match pc
    case CloseOnce(k, bye, after) =>
      if k !in s.sessions || s.sessions[k].closing then (s, Resume(after))
      else (s.(sessions := s.sessions[k := s.sessions[k].(closing := true)]), CloseBye(k, bye, after))
    case CloseBye(k, bye, after) =>
      (if bye && k in s.sessions && s.sessions[k].dialog then Observe(s, ByeSent(k)) else s, CloseUnregister(k, after))
    case CloseUnregister(k, after) => (Unregister(s, k), CloseLog(k, after))
    case CloseLog(k, after) => (if k in s.sessions then EndLog(s, s.sessions[k].row, choice) else s, CloseDone(k, after))
    case EndRow(row, after) => (EndLog(s, row, choice), Resume(after))
    case CloseDone(k, after) => (Observe(s, CallEnded(k)), Resume(after))
    case _ => (s, pc)
  }

  /** AcceptIncoming up to the media side; `v` is its invite. */
  function ExecClaim(s: Shared, pc: Pc, v: Invite, choice: Choice): (Shared, Pc) {
    match pc
    case AcceptLookup(user, i) => (s, if i in s.incoming then AcceptAllowed(user, i) else Done)
    case AcceptAllowed(user, i) => (s, if user in v.users then AcceptGuard(user, i) else Done)
    case AcceptGuard(user, i) => (s, if user in s.byUser then Done else AcceptClaim(user, i))
    case AcceptClaim(user, i) =>
      if v.ended || v.connected then (s, Done)
      else (Observe(SetInvite(s, i, v.(answeredBy := user, armed := false)), Claimed(i)), AcceptLog(user, i))
    case AcceptLog(user, i) =>
      if choice.Succeeds? then (s.(rows := s.rows + 1), AcceptSetUp(user, i, s.rows + 1))
      else (s, AcceptSetUp(user, i, 0))
    case AcceptSetUp(user, i, row) =>
      (match choice
       case Fails => (s, EndRow(row, ThenReject(i)))
       case FailsLate => (NewSession(s, row), CloseOnce(s.next, false, ThenReject(i)))
       case Succeeds => (NewSession(s, row), AcceptAssign(user, i, s.next)))
    case _ => (s, pc)
  }

  /** The rest of AcceptIncoming. */
  function ExecAnswer(s: Shared, pc: Pc, v: Invite, choice: Choice): (Shared, Pc) {
    match pc
    case AcceptAssign(user, i, k) =>
      if choice.Fails? then (s, CloseOnce(k, false, ThenReject(i))) else (Assign(s, k, user, true), AcceptAnswer(i, k))
    case AcceptAnswer(i, k) =>
      if choice.Succeeds? then (Observe(s, OkSent(i)), AcceptConnect(i, k)) else (s, CloseOnce(k, false, ThenFinish(i)))
    case AcceptConnect(i, k) => (SetInvite(s, i, v.(connected := true)), AcceptRegister(i, k))
    case AcceptRegister(i, k) => (Register(s, k, v.sipCallID), AcceptRemove(i))
    case AcceptRemove(i) => (s.(incoming := s.incoming - {i}), AcceptEmit(i))
    case AcceptEmit(i) => (Observe(s, AnsweredSent(i)), Done)
    case _ => (s, pc)
  }

  function ExecAccept(s: Shared, pc: Pc, v: Invite, choice: Choice): (Shared, Pc) {
    if IsClaim(pc) then ExecClaim(s, pc, v, choice) else ExecAnswer(s, pc, v, choice)
  }

  /** RejectIncoming, the timer callback, the end of the dialog, and finishInbound; `v` is the invite. */
  function ExecEnd(s: Shared, pc: Pc, v: Invite, choice: Choice): (Shared, Pc) {
    match pc
    case RejectLookup(user, i) => (s, if i in s.incoming then RejectAllowed(user, i) else Done)
    case RejectAllowed(user, i) => (s, if user in v.users then Respond(i, true) else Done)
    case Respond(i, strict) =>
      if v.ended || v.connected then (s, FinishEnd(i))
      else
        var s1 := SetInvite(s, i, v.(armed := false));
        if choice.Succeeds? then (Observe(s1, RejectSent(i)), FinishEnd(i))
        else (s1, if strict then Done else FinishEnd(i))
    case CancelCheck(i) => (s, if v.ended || v.connected then Done else FinishEnd(i))
    case FinishEnd(i) =>
      if v.ended then (s, Done) else (SetInvite(s, i, v.(ended := true, armed := false)), FinishRemove(i))
    case FinishRemove(i) => (s.(incoming := s.incoming - {i}), FinishEmit(i))
    case FinishEmit(i) => (Observe(s, StoppedSent(i)), FinishClose(i))
    case FinishClose(i) => (Observe(s, DialogClosed(i)), Done)
    case _ => (s, pc)
  }

  function ExecArrive(s: Shared, pc: Pc): (Shared, Pc) {
    match pc
    case ArriveArm(users, sipCallID) =>
      (s.(next := s.next + 1, invites := s.invites[s.next := Invite(users, sipCallID, true, false, false, 0)]), ArriveInsert(s.next))
    case ArriveInsert(i) => (s.(incoming := s.incoming + {i}, entered := s.entered + {i}), ArriveEmit(i))
    case ArriveEmit(i) => (Observe(s, RingingSent(i)), Done)
    case _ => (s, pc)
  }

  predicate IsDial(pc: Pc) {
    pc.DialGuard? || pc.DialLog? || pc.DialSetUp? || pc.DialAssign? || pc.DialInvite? || pc.DialRegister?
  }

  predicate IsClaim(pc: Pc) {
    pc.AcceptLookup? || pc.AcceptAllowed? || pc.AcceptGuard? || pc.AcceptClaim? || pc.AcceptLog? || pc.AcceptSetUp?
  }

  predicate IsAnswer(pc: Pc) {
    pc.AcceptAssign? || pc.AcceptAnswer? || pc.AcceptConnect? || pc.AcceptRegister? || pc.AcceptRemove? || pc.AcceptEmit?
  }

  predicate IsAccept(pc: Pc) {
    IsClaim(pc) || IsAnswer(pc)
  }

  predicate IsEnd(pc: Pc) {
    pc.RejectLookup? || pc.RejectAllowed? || pc.Respond? || pc.CancelCheck?
    || pc.FinishEnd? || pc.FinishRemove? || pc.FinishEmit? || pc.FinishClose?
  }

  predicate IsArrive(pc: Pc) {
    pc.ArriveArm? || pc.ArriveInsert? || pc.ArriveEmit?
  }

  /** One critical section. An identifier that no invite has makes the lookups fail. */
  function Exec(s: Shared, pc: Pc, choice: Choice): (Shared, Pc) {
    if IsAccept(pc) then
      if pc.invite in s.invites then ExecAccept(s, pc, s.invites[pc.invite], choice) else (s, Done)
    else if IsEnd(pc) then
      if pc.invite in s.invites then ExecEnd(s, pc, s.invites[pc.invite], choice) else (s, Done)
    else if IsArrive(pc) then ExecArrive(s, pc)
    else if IsDial(pc) then ExecDial(s, pc, choice)
    else ExecClose(s, pc, choice)
  }

  // ----- runs -----

  datatype State = State(shared: Shared, threads: map<nat, Pc>)

  const EMPTY := State(Shared(0, 0, map[], map[], map[], map[], map[], {}, {}, []), map[])

  /** What starts a handler: a WebSocket or SIP message, a timer, or anybody who closes a session. */
  predicate Starts(s: Shared, pc: Pc) {
    || pc.DialGuard? || pc.AcceptLookup? || pc.RejectLookup? || (pc.ArriveArm? && pc.users != {}) || pc.CancelCheck?
    || (pc.Respond? && !pc.strict && pc.invite in s.invites && s.invites[pc.invite].armed)
    || (pc.CloseOnce? && pc.after.Nothing? && pc.session in s.sessions)
  }

  /** Firing takes the timer off; the other handlers start without a step of their own. */
  function Started(s: Shared, pc: Pc): Shared {
    if pc.Respond? && pc.invite in s.invites
    then SetInvite(s, pc.invite, s.invites[pc.invite].(armed := false))
    else s
  }

  datatype Action = Spawn(thread: nat, pc: Pc) | Advance(thread: nat, choice: Choice)

  /** A thread number is used once. */
  function Act(s: State, a: Action): State {
    match a
    case Spawn(t, pc) =>
      if Starts(s.shared, pc) && t !in s.threads
      then State(Started(s.shared, pc), s.threads[t := pc])
      else s
    case Advance(t, choice) =>
      if t in s.threads
      then
        var (shared, pc) := Exec(s.shared, s.threads[t], choice);
        State(shared, s.threads[t := pc])
      else s
  }

  function Run(s: State, actions: seq<Action>): State
    decreases actions
  {
    if actions == [] then s else Run(Act(s, actions[0]), actions[1..])
  }
}
