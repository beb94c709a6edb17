/**
 The value-level specification of the call manager: its tables, what each handler does
 to them when it runs without interleaving, and runs of handlers.

 A session or an invite is an object in the source; here a natural number, drawn from one
 counter, stands for the object and for the random identifier it is given.
 */
module CallModel {
  import opened Wrappers
  import opened Strings

  datatype EventKind = Ringing | Answered | Stopped

  datatype Event = Event(kind: EventKind, invite: nat, users: set<int>, answeredBy: int, reason: string)

  datatype Dialog = NoDialog | ClientDialog | ServerDialog

  /** One CallSession with what the outside world has seen of it. */
  datatype Session = Session(
    user: int, box: int, logID: nat, dialog: Dialog,
    readyOnce: bool, closeOnce: bool,
    readyCloses: nat, byes: nat, hangups: seq<string>)

  /** One row of call_logs; `ends` counts the updates that ended it. */
  datatype Row = Row(user: int, box: int, status: string, reason: string, ended: bool, ends: nat)

  /** One InboundInvite with what the outside world has seen of it. */
  datatype Invite = Invite(
    box: int, sipCallID: string, users: set<int>, armed: bool,
    ended: bool, connected: bool, answeredBy: int,
    rejections: nat, dialogCloses: nat)

  /** `lost` collects the log rows whose ending update failed in the database. */
  datatype State = State(
    next: nat,
    sessions: map<nat, Session>,
    byID: map<nat, nat>, bySIP: map<string, nat>, byUser: map<int, nat>,
    invites: map<nat, Invite>, incoming: map<nat, nat>,
    rows: seq<Row>, lost: set<nat>,
    sockets: set<nat>, peers: set<nat>,
    events: seq<Event>)

  const EMPTY := State(0, map[], map[], map[], map[], map[], map[], [], {}, {}, {}, [])

  // ----- call log -----

  function CreateLog(s: State, ok: bool, user: int, box: int, status: string): (State, nat) {
    if ok then (s.(rows := s.rows + [Row(user, box, status, "", false, 0)]), |s.rows| + 1) else (s, 0)
  }

  /** What call setup and teardown leave alone. */
  ghost predicate SameInvites(s: State, t: State) {
    t.invites == s.invites && t.incoming == s.incoming && t.events == s.events
  }

  /** Every session of `s` but `id` is as before. */
  ghost predicate SameSessions(s: State, t: State, id: nat) {
    forall k <- s.sessions :: k != id ==> k in t.sessions && t.sessions[k] == s.sessions[k]
  }

  function EndLog(s: State, logID: nat, ok: bool, status: string, reason: string): (t: State)
    ensures SameInvites(s, t) && t.sessions == s.sessions && t.next == s.next
    ensures ok ==> t.lost == s.lost
  {
    s.(rows := if ok then EndRow(s.rows, logID, status, reason) else s.rows,
       lost := if !ok && 0 < logID <= |s.rows| then s.lost + {logID} else s.lost)
  }

  /** The UPDATE that ends a row; it matches no row when the identifier is 0. */
  function EndRow(rows: seq<Row>, logID: nat, status: string, reason: string): seq<Row> {
    if 0 < logID <= |rows| then
      var r := rows[logID - 1];
      rows[logID - 1 := r.(status := status, reason := reason, ended := true, ends := r.ends + 1)]
    else rows
  }

  // ----- sessions -----

  function MarkReady(c: Session): Session {
    if c.readyOnce then c else c.(readyOnce := true, readyCloses := c.readyCloses + 1)
  }

  function Register(s: State, id: nat, sipCallID: string): State
    requires id in s.sessions
  {
    var user := s.sessions[id].user;
    s.(byID := s.byID[id := id],
       bySIP := if sipCallID != "" then s.bySIP[sipCallID := id] else s.bySIP,
       byUser := if user > 0 then s.byUser[user := id] else s.byUser)
  }

  function Unregister(s: State, id: nat): State
    requires id in s.sessions
  {
    var user := s.sessions[id].user;
    s.(byID := s.byID - {id},
       bySIP := map k | k in s.bySIP && s.bySIP[k] != id :: s.bySIP[k],
       byUser := if user > 0 then s.byUser - {user} else s.byUser)
  }

  /** Who closes a session, and with what status and reason. */
  datatype Closer = Closer(sendBye: bool, status: string, reason: string)

  function Closed(c: Session, how: Closer): Session {
    MarkReady(c).(
    closeOnce := true,
    byes := if how.sendBye && c.dialog != NoDialog then c.byes + 1 else c.byes,
    hangups := c.hangups + [how.reason])
  }

  function Close(s: State, id: nat, how: Closer, endOk: bool): (t: State)
    requires id in s.sessions
    ensures SameInvites(s, t) && t.sessions.Keys == s.sessions.Keys && t.next == s.next
    ensures endOk ==> t.lost == s.lost
    ensures SameSessions(s, t, id)
  {
    var c := s.sessions[id];
    if c.closeOnce then s
    else
      var s1 := s.(sessions := s.sessions[id := Closed(c, how)],
                   sockets := s.sockets - {id}, peers := s.peers - {id});
      EndLog(Unregister(s1, id), c.logID, endOk, how.status, how.reason)
  }

  /** The ways createWebRTCSide can end. */
  datatype Media = SocketError | PeerError | SetupError(step: SetupStep) | Ready

  datatype SetupStep =
    | CreateTrack | AddTrack | SetRemote | CreateAnswer | SetLocal | NegotiatePCMU | ReadLocal

  function SetupReason(step: SetupStep): string {
    match step
    case CreateTrack => "create local track failed"
    case AddTrack => "add local track failed"
    case SetRemote => "set remote SDP failed"
    case CreateAnswer => "create answer failed"
    case SetLocal => "set local SDP failed"
    case NegotiatePCMU => "browser codec must support PCMU"
    case ReadLocal => "local description missing"
  }

  function NewSession(logID: nat): Session {
    Session(0, 0, logID, NoDialog, false, false, 0, 0, [])
  }

  function CreateWebRTCSide(s: State, media: Media, logID: nat, endOk: bool): (r: (State, Option<nat>))
    ensures SameInvites(s, r.0) && s.next <= r.0.next
    ensures endOk ==> r.0.lost == s.lost
    ensures SameSessions(s, r.0, s.next)
    ensures r.1.Some? <==> media.Ready?
    ensures r.1.Some? ==> r.1.value == s.next && s.next in r.0.sessions
    ensures r.1.Some? ==> r.0.byID == s.byID && r.0.bySIP == s.bySIP && r.0.byUser == s.byUser
  {
    match media
    case SocketError => (EndLog(s, logID, endOk, "failed", "rtp socket error"), None)
    case PeerError => (EndLog(CloseSocket(OpenSocket(s), s.next), logID, endOk, "failed", "webrtc create error"), None)
    case SetupError(step) =>
      (Close(OpenSession(s, logID), s.next, Closer(false, "failed", SetupReason(step)), endOk), None)
    case Ready => (OpenSession(s, logID), Some(s.next))
  }

  /** The RTP socket is opened first, for the session that is to come. */
  function OpenSocket(s: State): State {
    s.(sockets := s.sockets + {s.next})
  }

  function CloseSocket(s: State, socket: nat): State {
    s.(sockets := s.sockets - {socket})
  }

  /** The session object appears together with its peer connection. */
  function OpenPeer(s: State, logID: nat): State {
    s.(next := s.next + 1, sessions := s.sessions[s.next := NewSession(logID)], peers := s.peers + {s.next})
  }

  function OpenSession(s: State, logID: nat): State {
    OpenPeer(OpenSocket(s), logID)
  }

  datatype CallError =
    | NumberRequired | UserBusy | BoxNotFound | BoxOffline | StoreError | MediaFailed
    | PublicIPMissing | InviteFailed | BadRemoteSDP
    | InviteNotFound | NotAllowed | AlreadyEnded | AlreadyAnswered | AnswerFailed | RespondFailed

  datatype Lookup = Found | NotFound | Broken

  /** What the database, the media stack and the SIP peer answer while a call is being dialled. */
  datatype DialEnv = DialEnv(
    box: Lookup, registration: Lookup, logOk: bool, media: Media, publicIP: bool,
    inviteError: Option<string>, answerSDP: bool, sipCallID: string, endOk: bool)

  function StartCall(s: State, user: int, box: int, number: string, env: DialEnv): (r: (State, Result<nat, CallError>))
    ensures SameInvites(s, r.0) && s.next <= r.0.next
    ensures env.endOk ==> r.0.lost == s.lost
  {
    if Trim(number) == "" then (s, Err(NumberRequired))
    else if user in s.byUser then (s, Err(UserBusy))
    else if env.box != Found then (s, Err(if env.box == NotFound then BoxNotFound else StoreError))
    else if env.registration != Found then (s, Err(if env.registration == NotFound then BoxOffline else StoreError))
    else
      var (s1, logID) := CreateLog(s, env.logOk, user, box, "dialing");
      var (s2, created) := CreateWebRTCSide(s1, env.media, logID, env.endOk);
      if created.None? then (s2, Err(MediaFailed))
      else Dial(s2, created.value, user, box, env)
  }

  /** The part of StartCall after the media side exists. */
  function Dial(s: State, id: nat, user: int, box: int, env: DialEnv): (r: (State, Result<nat, CallError>))
    requires id in s.sessions
    ensures SameInvites(s, r.0) && s.next == r.0.next
    ensures env.endOk ==> r.0.lost == s.lost
  {
    var c := s.sessions[id].(user := user, box := box);
    var s1 := s.(sessions := s.sessions[id := c]);
    if !env.publicIP then (Close(s1, id, Closer(false, "failed", "media public ip missing"), env.endOk), Err(PublicIPMissing))
    else if env.inviteError.Some? then
      (Close(s1, id, Closer(false, "failed", env.inviteError.value), env.endOk), Err(InviteFailed))
    else
      var c2 := c.(dialog := ClientDialog);
      var s2 := s.(sessions := s.sessions[id := c2]);
      if !env.answerSDP then (Close(s2, id, Closer(true, "failed", "bad remote SDP"), env.endOk), Err(BadRemoteSDP))
      else (Register(s.(sessions := s.sessions[id := MarkReady(c2)]), id, env.sipCallID), Ok(id))
  }

  // ----- invites -----

  /** What answering, rejecting and ending an invite leaves alone. */
  ghost predicate SameCalls(s: State, t: State) {
    && t.sessions == s.sessions && t.byID == s.byID && t.bySIP == s.bySIP && t.byUser == s.byUser
    && t.rows == s.rows && t.lost == s.lost && t.sockets == s.sockets && t.peers == s.peers
    && t.next == s.next
  }

  function Emit(s: State, kind: EventKind, inv: nat, reason: string): (t: State)
    requires inv in s.invites
    ensures SameCalls(s, t) && s.events <= t.events
  {
    var i := s.invites[inv];
    s.(events := s.events + [Event(kind, inv, i.users, i.answeredBy, reason)])
  }

  /** `users` is what ListUsersForIncomingFXO answered, `devices` how many devices those users have. */
  datatype RingEnv = RingEnv(remoteSDP: bool, users: Option<set<int>>, devices: Option<nat>)

  predicate Rings(env: RingEnv) {
    env.remoteSDP && env.users.Some? && env.users.value != {} && env.devices.Some? && env.devices.value != 0
  }

  function OnIncomingInvite(s: State, box: int, sipCallID: string, env: RingEnv): State {
    if !Rings(env) then s
    else
      var id := s.next;
      var inv := Invite(box, sipCallID, env.users.value, true, false, false, 0, 0, 0);
      Emit(s.(next := s.next + 1, invites := s.invites[id := inv], incoming := s.incoming[id := id]),
           Ringing, id, "incoming")
  }

  /** rejectWithResponse on the invite itself; false when the SIP response could not be sent. */
  function Refused(i: Invite, respondOk: bool): (Invite, bool) {
    if i.ended || i.connected then (i, true)
    else (i.(armed := false, rejections := i.rejections + if respondOk then 1 else 0), respondOk)
  }

  function RejectWithResponse(s: State, inv: nat, respondOk: bool): (r: (State, bool))
    requires inv in s.invites
    ensures SameCalls(s, r.0) && r.0.invites.Keys == s.invites.Keys && s.events == r.0.events
  {
    var (i, ok) := Refused(s.invites[inv], respondOk);
    (s.(invites := s.invites[inv := i]), ok)
  }

  function FinishInbound(s: State, inv: nat, reason: string): (t: State)
    requires inv in s.invites
    ensures SameCalls(s, t) && s.events <= t.events
  {
    var i := s.invites[inv];
    if i.ended then s
    else
      var s1 := s.(invites := s.invites[inv := i.(ended := true, armed := false)], incoming := s.incoming - {inv});
      var s2 := Emit(s1, Stopped, inv, reason);
      s2.(invites := s2.invites[inv := s2.invites[inv].(dialogCloses := i.dialogCloses + 1)])
  }

  function RejectAndFinish(s: State, inv: nat, respondOk: bool, reason: string): (t: State)
    requires inv in s.invites
    ensures SameCalls(s, t) && s.events <= t.events
  {
    FinishInbound(RejectWithResponse(s, inv, respondOk).0, inv, reason)
  }

  datatype AcceptEnv = AcceptEnv(
    logOk: bool, media: Media, publicIP: bool, answerOk: bool, rejectOk: bool, endOk: bool)

  function AcceptIncoming(s: State, user: int, inviteID: nat, env: AcceptEnv): (r: (State, Result<nat, CallError>))
    ensures env.endOk ==> r.0.lost == s.lost
    ensures SameSessions(s, r.0, s.next) && s.events <= r.0.events
  {
    if inviteID !in s.incoming || s.incoming[inviteID] !in s.invites then (s, Err(InviteNotFound))
    else
      var inv := s.incoming[inviteID];
      var i := s.invites[inv];
      if user !in i.users then (s, Err(NotAllowed))
      else if user in s.byUser then (s, Err(UserBusy))
      else if i.ended then (s, Err(AlreadyEnded))
      else if i.connected then (s, Err(AlreadyAnswered))
      else Answer(s.(invites := s.invites[inv := i.(answeredBy := user, armed := false)]), user, inv, env)
  }

  /** AcceptIncoming after the claim on the invite. */
  function Answer(s: State, user: int, inv: nat, env: AcceptEnv): (r: (State, Result<nat, CallError>))
    requires inv in s.invites
    ensures env.endOk ==> r.0.lost == s.lost
    ensures SameSessions(s, r.0, s.next) && s.events <= r.0.events
  {
    var (s1, logID) := CreateLog(s, env.logOk, user, s.invites[inv].box, "connecting");
    var (s2, created) := CreateWebRTCSide(s1, env.media, logID, env.endOk);
    if created.None? then (RejectAndFinish(s2, inv, env.rejectOk, "accept failed"), Err(MediaFailed))
    else Connect(s2, created.value, user, inv, env)
  }

  /** AcceptIncoming after the media side exists. */
  function Connect(s: State, id: nat, user: int, inv: nat, env: AcceptEnv): (r: (State, Result<nat, CallError>))
    requires inv in s.invites && id in s.sessions
    ensures env.endOk ==> r.0.lost == s.lost
    ensures SameSessions(s, r.0, id) && s.events <= r.0.events
  {
    if !env.publicIP then
      (RejectAndFinish(Close(s, id, Closer(false, "failed", "media public ip missing"), env.endOk),
                       inv, env.rejectOk, "media public ip missing"), Err(PublicIPMissing))
    else
      var i := s.invites[inv];
      var c := MarkReady(s.sessions[id].(user := user, box := i.box, dialog := ServerDialog));
      var s1 := s.(sessions := s.sessions[id := c]);
      if !env.answerOk then
        (FinishInbound(Close(s1, id, Closer(false, "failed", "respond sip answer failed"), env.endOk),
                       inv, "sip answer failed"), Err(AnswerFailed))
      else
        var s2 := Register(s1.(invites := s1.invites[inv := i.(connected := true)]), id, i.sipCallID);
        (Emit(s2.(incoming := s2.incoming - {inv}), Answered, inv, "answered"), Ok(id))
  }

  function RejectIncoming(s: State, user: int, inviteID: nat, reason: string, respondOk: bool): (State, Result<(), CallError>) {
    if inviteID !in s.incoming || s.incoming[inviteID] !in s.invites then (s, Err(InviteNotFound))
    else
      var inv := s.incoming[inviteID];
      if user !in s.invites[inv].users then (s, Err(NotAllowed))
      else
        var (s1, ok) := RejectWithResponse(s, inv, respondOk);
        if !ok then (s1, Err(RespondFailed))
        else (FinishInbound(s1, inv, if Trim(reason) == "" then "declined" else reason), Ok(()))
  }

  /** The 35 s timer; a stopped timer does not fire. */
  function TimerFires(s: State, inv: nat, respondOk: bool): State {
    if inv in s.invites && s.invites[inv].armed
    then RejectAndFinish(s, inv, respondOk, "timeout")
    else s
  }

  /** The goroutine that waits for the end of the SIP dialog. */
  function DialogDone(s: State, inv: nat): State {
    if inv !in s.invites || s.invites[inv].ended || s.invites[inv].connected then s
    else FinishInbound(s, inv, "remote canceled")
  }

  function OnRemoteBye(s: State, callID: string, endOk: bool): State {
    if callID in s.bySIP && s.bySIP[callID] in s.sessions
    then Close(s, s.bySIP[callID], Closer(false, "ended", "remote hangup"), endOk)
    else s
  }

  function ListPendingIncoming(s: State, user: int): set<nat> {
    set k | k in s.incoming && s.incoming[k] in s.invites
            && user in s.invites[s.incoming[k]].users && !s.invites[s.incoming[k]].ended :: s.incoming[k]
  }

  function IsBoxInUse(s: State, box: int): bool {
    box > 0 && exists k | k in s.byID :: s.byID[k] in s.sessions && s.sessions[s.byID[k]].box == box
  }

  // ----- runs -----

  /** One handler, run to completion. `Closes` covers Hangup, a failed or closed peer connection and a non-PCMU track. */
  datatype Op =
    | Dials(user: int, box: int, number: string, dialEnv: DialEnv)
    | Arrives(box: int, sipCallID: string, ringEnv: RingEnv)
    | Accepts(user: int, invite: nat, acceptEnv: AcceptEnv)
    | Rejects(user: int, invite: nat, reason: string, respondOk: bool)
    | Expires(invite: nat, respondOk: bool)
    | Cancels(invite: nat)
    | Byes(callID: string, endOk: bool)
    | Closes(session: nat, how: Closer, endOk: bool)

  function Step(s: State, op: Op): State {
    match op
    case Dials(user, box, number, env) => StartCall(s, user, box, number, env).0
    case Arrives(box, sipCallID, env) => OnIncomingInvite(s, box, sipCallID, env)
    case Accepts(user, invite, env) => AcceptIncoming(s, user, invite, env).0
    case Rejects(user, invite, reason, respondOk) => RejectIncoming(s, user, invite, reason, respondOk).0
    case Expires(invite, respondOk) => TimerFires(s, invite, respondOk)
    case Cancels(invite) => DialogDone(s, invite)
    case Byes(callID, endOk) => OnRemoteBye(s, callID, endOk)
    case Closes(session, how, endOk) => if session in s.sessions then Close(s, session, how, endOk) else s
  }

  function Run(s: State, ops: seq<Op>): State
    decreases ops
  {
    if ops == [] then s else Run(Step(s, ops[0]), ops[1..])
  }
}
