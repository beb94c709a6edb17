/**
 What every run of call handlers keeps: each handler is one step.

 `x` are sessions that a handler has opened and not yet registered or closed, `l` log rows
 it has created and not yet given to a session; between handlers both are empty.
 */
module CallInvariants {
  import opened Wrappers
  import opened CallModel

  // ----- sessions, indexes, media -----

  ghost predicate OnceOnly(c: Session) {
    && c.readyCloses == (if c.readyOnce then 1 else 0)
    && |c.hangups| == (if c.closeOnce then 1 else 0)
    && c.byes <= |c.hangups|
    && (c.closeOnce ==> c.readyOnce)
  }

  /** A session is closed, or registered, or in `x`; registered ones have their media target. */
  ghost predicate SessionsOk(sessions: map<nat, Session>, byID: map<nat, nat>, next: nat, x: set<nat>) {
    && (forall k <- byID :: byID[k] == k && k in sessions && k !in x && sessions[k].readyOnce)
    && (forall k <- x :: k in sessions)
    && (forall k <- sessions :: k < next && OnceOnly(sessions[k]))
    && (forall k <- sessions :: sessions[k].closeOnce <==> k !in x && k !in byID)
  }

  /** The open sockets, or the open peer connections. */
  ghost predicate OpenExactly(open: set<nat>, byID: map<nat, nat>, x: set<nat>) {
    forall k :: k in open <==> k in byID || k in x
  }

  /** `callsByUser` is the inverse of the user of registered sessions; the others have no entry. */
  ghost predicate UsersOk(sessions: map<nat, Session>, byID: map<nat, nat>, byUser: map<int, nat>, x: set<nat>) {
    && (forall k <- x :: k in sessions && sessions[k].user !in byUser)
    && (forall u <- byUser :: u > 0 && byUser[u] in byID && byUser[u] in sessions && sessions[byUser[u]].user == u)
    && (forall k <- byID :: k in sessions && sessions[k].user > 0 ==>
                              sessions[k].user in byUser && byUser[sessions[k].user] == k)
  }

  ghost predicate SipOk(bySIP: map<string, nat>, byID: map<nat, nat>) {
    forall c <- bySIP :: c != "" && bySIP[c] in byID
  }

  // ----- call log -----

  predicate RowOpen(rows: seq<Row>, n: nat) {
    1 <= n <= |rows| && !rows[n - 1].ended
  }

  ghost function OpenRows(rows: seq<Row>): set<nat> {
    set n: nat | n <= |rows| && RowOpen(rows, n)
  }

  /** The log row of each live session. */
  ghost function LogMap(sessions: map<nat, Session>, byID: map<nat, nat>, x: set<nat>): map<nat, nat> {
    map k | k in sessions && (k in byID || k in x) :: sessions[k].logID
  }

  ghost function Positive(m: map<nat, nat>): set<nat> {
    set k | k in m && m[k] > 0 :: m[k]
  }

  ghost predicate Injective(m: map<nat, nat>) {
    forall j <- m, k <- m :: m[j] == m[k] > 0 ==> j == k
  }

  /** The un-ended rows are those of live sessions, the lost ones and `l`, without overlap. */
  ghost predicate RowsOk(rows: seq<Row>, lost: set<nat>, m: map<nat, nat>, l: set<nat>) {
    && Injective(m)
    && 0 !in l
    && Positive(m) !! lost !! l
    && OpenRows(rows) == Positive(m) + lost + l
    && (forall r <- rows :: r.ends == if r.ended then 1 else 0)
  }

  ghost predicate TablesInv(s: State, x: set<nat>) {
    && SessionsOk(s.sessions, s.byID, s.next, x)
    && OpenExactly(s.sockets, s.byID, x)
    && OpenExactly(s.peers, s.byID, x)
    && UsersOk(s.sessions, s.byID, s.byUser, x)
    && SipOk(s.bySIP, s.byID)
  }

  ghost predicate CallsInv(s: State, x: set<nat>, l: set<nat>) {
    TablesInv(s, x) && RowsOk(s.rows, s.lost, LogMap(s.sessions, s.byID, x), l)
  }

  // ----- invites -----

  /** The events of one invite, in order. */
  ghost function Trace(events: seq<Event>, inv: nat): seq<Event> {
    if events == [] then []
    else
      var e := events[|events| - 1];
      Trace(events[..|events| - 1], inv) + if e.invite == inv then [e] else []
  }

  /** One Ringing, then nothing while pending, else one Answered xor one Stopped. */
  ghost predicate TraceOk(i: Invite, inv: nat, t: seq<Event>) {
    && |t| == (if i.ended || i.connected then 2 else 1)
    && t[0].kind == Ringing
    && (i.connected ==> t[1].kind == Answered && t[1].answeredBy in i.users)
    && (i.ended ==> t[1].kind == Stopped)
    && forall e <- t :: e.invite == inv && e.users == i.users
  }

  ghost predicate InviteOk(i: Invite, inv: nat, pending: bool, t: seq<Event>) {
    && !(i.ended && i.connected)
    && (pending <==> !i.ended && !i.connected)
    && i.dialogCloses == (if i.ended then 1 else 0)
    && i.rejections <= i.dialogCloses
    && (i.armed ==> pending)
    && TraceOk(i, inv, t)
  }

  ghost predicate TracesOk(invites: map<nat, Invite>, incoming: map<nat, nat>, events: seq<Event>) {
    forall k | k in invites :: InviteOk(invites[k], k, k in incoming, Trace(events, k))
  }

  ghost predicate InvitesOk(invites: map<nat, Invite>, incoming: map<nat, nat>, events: seq<Event>, next: nat) {
    && (forall k <- incoming :: incoming[k] == k && k in invites)
    && (forall e <- events :: e.invite in invites)
    && (forall k <- invites :: k < next)
    && TracesOk(invites, incoming, events)
  }

  ghost predicate InvitesInv(s: State) {
    InvitesOk(s.invites, s.incoming, s.events, s.next)
  }

  /** The invariant of handler-atomic runs. */
  ghost predicate Inv(s: State) {
    CallsInv(s, {}, {}) && InvitesInv(s)
  }

  // ----- call log steps -----

  ghost function Single(logID: nat): set<nat> {
    if logID == 0 then {} else {logID}
  }

  lemma RemoveLog(m: map<nat, nat>, k: nat)
    requires Injective(m) && k in m
    ensures Injective(m - {k})
    ensures Positive(m) == Positive(m - {k}) + Single(m[k])
    ensures Positive(m - {k}) !! Single(m[k])
  {
    var m' := m - {k};
    forall n | n in Positive(m) && n !in Single(m[k])
      ensures n in Positive(m')
    {
      var j :| j in m && m[j] > 0 && m[j] == n;
      assert j in m' && m'[j] == n;
    }
    assert m[k] > 0 ==> m[k] in Positive(m);
  }

  lemma AddLog(m: map<nat, nat>, k: nat, logID: nat)
    requires Injective(m) && k !in m && logID !in Positive(m)
    ensures Injective(m[k := logID])
    ensures Positive(m[k := logID]) == Positive(m) + Single(logID)
  {
    var m' := m[k := logID];
    forall n | n in Positive(m)
      ensures n in Positive(m')
    {
      var j :| j in m && m[j] > 0 && m[j] == n;
      assert j in m' && m'[j] == n;
    }
    assert m'[k] == logID;
    forall j | j in m
      ensures m[j] > 0 ==> m[j] in Positive(m)
    {}
  }

  lemma CreateLogKeeps(s: State, ok: bool, user: int, box: int, status: string, x: set<nat>)
    requires CallsInv(s, x, {})
    ensures var (t, id) := CreateLog(s, ok, user, box, status); CallsInv(t, x, Single(id))
  {
    var (t, id) := CreateLog(s, ok, user, box, status);
    if ok {
      assert OpenRows(t.rows) == OpenRows(s.rows) + {id};
      assert forall n <- OpenRows(s.rows) :: n <= |s.rows|;
    }
  }

  /** Ending a row that no open session owns. */
  lemma EndLogRows(s: State, logID: nat, ok: bool, status: string, reason: string, m: map<nat, nat>)
    requires RowsOk(s.rows, s.lost, m, Single(logID))
    ensures var t := EndLog(s, logID, ok, status, reason); RowsOk(t.rows, t.lost, m, {})
  {
    var t := EndLog(s, logID, ok, status, reason);
    if logID != 0 {
      assert logID in OpenRows(s.rows);
      assert OpenRows(t.rows) == if ok then OpenRows(s.rows) - {logID} else OpenRows(s.rows);
    }
  }

  lemma EndLogKeeps(s: State, logID: nat, ok: bool, status: string, reason: string, x: set<nat>)
    requires CallsInv(s, x, Single(logID))
    ensures CallsInv(EndLog(s, logID, ok, status, reason), x, {})
  {
    EndLogRows(s, logID, ok, status, reason, LogMap(s.sessions, s.byID, x));
  }

  // ----- session steps -----

  lemma OpenSessionTables(s: State, logID: nat, x: set<nat>)
    requires TablesInv(s, x)
    ensures s.next !in s.sessions && s.next !in x
    ensures TablesInv(OpenSession(s, logID), x + {s.next})
  {}

  lemma OpenSessionRows(s: State, logID: nat, x: set<nat>, m: map<nat, nat>)
    requires s.next !in s.sessions && s.next !in x
    requires m == LogMap(s.sessions, s.byID, x) && RowsOk(s.rows, s.lost, m, Single(logID))
    ensures var t := OpenSession(s, logID); RowsOk(t.rows, t.lost, LogMap(t.sessions, t.byID, x + {s.next}), {})
  {
    var t := OpenSession(s, logID);
    OpenedLogs(s, logID, x);
    hide LogMap, OpenRows, OpenSession, Injective, Positive;
    AddLog(m, s.next, logID);
  }

  lemma OpenedLogs(s: State, logID: nat, x: set<nat>)
    requires s.next !in s.sessions && s.next !in x
    ensures var t := OpenSession(s, logID);
            && LogMap(t.sessions, t.byID, x + {s.next}) == LogMap(s.sessions, s.byID, x)[s.next := logID]
            && s.next !in LogMap(s.sessions, s.byID, x) && t.rows == s.rows && t.lost == s.lost
  {}

  lemma OpenSessionKeeps(s: State, logID: nat, x: set<nat>)
    requires CallsInv(s, x, Single(logID))
    ensures CallsInv(OpenSession(s, logID), x + {s.next}, {})
  {
    OpenSessionTables(s, logID, x);
    OpenSessionRows(s, logID, x, LogMap(s.sessions, s.byID, x));
  }

  /** A session that is being set up takes its user, box, dialog and media target. */
  lemma SetUpKeeps(s: State, id: nat, c: Session, x: set<nat>)
    requires CallsInv(s, x, {}) && id in x
    requires OnceOnly(c) && !c.closeOnce && c.logID == s.sessions[id].logID && c.user !in s.byUser
    ensures CallsInv(s.(sessions := s.sessions[id := c]), x, {})
  {
    assert LogMap(s.sessions[id := c], s.byID, x) == LogMap(s.sessions, s.byID, x);
  }

  lemma RegisterTables(s: State, id: nat, sipCallID: string)
    requires TablesInv(s, {id}) && s.sessions[id].readyOnce
    ensures TablesInv(Register(s, id, sipCallID), {})
  {}

  lemma RegisterKeeps(s: State, id: nat, sipCallID: string)
    requires CallsInv(s, {id}, {}) && s.sessions[id].readyOnce
    ensures CallsInv(Register(s, id, sipCallID), {}, {})
  {
    RegisterTables(s, id, sipCallID);
    var t := Register(s, id, sipCallID);
    assert LogMap(t.sessions, t.byID, {}) == LogMap(s.sessions, s.byID, {id});
  }

  /** `close` up to the point where the session has left every index. */
  ghost function Detached(s: State, id: nat, how: Closer): State
    requires id in s.sessions
  {
    Unregister(s.(sessions := s.sessions[id := Closed(s.sessions[id], how)],
                  sockets := s.sockets - {id}, peers := s.peers - {id}), id)
  }

  lemma DetachedTables(s: State, id: nat, how: Closer, x: set<nat>)
    requires TablesInv(s, x) && id in s.sessions && !s.sessions[id].closeOnce
    ensures TablesInv(Detached(s, id, how), x - {id})
  {}

  lemma DetachedRows(s: State, id: nat, how: Closer, x: set<nat>, m: map<nat, nat>)
    requires id in s.sessions && (id in s.byID || id in x)
    requires m == LogMap(s.sessions, s.byID, x) && RowsOk(s.rows, s.lost, m, {})
    ensures var t := Detached(s, id, how);
            RowsOk(t.rows, t.lost, LogMap(t.sessions, t.byID, x - {id}), Single(s.sessions[id].logID))
  {
    var t := Detached(s, id, how);
    RemoveLog(m, id);
    assert LogMap(t.sessions, t.byID, x - {id}) == m - {id};
  }

  lemma CloseKeeps(s: State, id: nat, how: Closer, endOk: bool, x: set<nat>)
    requires CallsInv(s, x, {}) && id in s.sessions
    ensures CallsInv(Close(s, id, how, endOk), x - {id}, {})
  {
    var c := s.sessions[id];
    if c.closeOnce {
      assert x - {id} == x;
    } else {
      DetachedTables(s, id, how, x);
      DetachedRows(s, id, how, x, LogMap(s.sessions, s.byID, x));
      EndLogKeeps(Detached(s, id, how), c.logID, endOk, how.status, how.reason, x - {id});
    }
  }

  /** A socket that is closed before its session exists leaves no trace. */
  lemma SocketReleased(s: State, x: set<nat>)
    requires TablesInv(s, x)
    ensures CloseSocket(OpenSocket(s), s.next) == s
  {
    hide UsersOk, OnceOnly;
    assert s.sockets + {s.next} - {s.next} == s.sockets;
  }

  lemma CreateWebRTCSideKeeps(s: State, media: Media, logID: nat, endOk: bool, x: set<nat>)
    requires CallsInv(s, x, Single(logID))
    ensures var (t, id) := CreateWebRTCSide(s, media, logID, endOk);
            CallsInv(t, if id.Some? then x + {id.value} else x, {})
  {
    match media
    case SocketError => EndLogKeeps(s, logID, endOk, "failed", "rtp socket error", x);
    case PeerError =>
      SocketReleased(s, x);
      EndLogKeeps(s, logID, endOk, "failed", "webrtc create error", x);
    case SetupError(step) =>
      assert s.next !in x;
      OpenSessionKeeps(s, logID, x);
      CloseKeeps(OpenSession(s, logID), s.next, Closer(false, "failed", SetupReason(step)), endOk, x + {s.next});
      assert x + {s.next} - {s.next} == x;
    case Ready => OpenSessionKeeps(s, logID, x);
  }

  // ----- invite steps -----

  lemma TraceAppend(events: seq<Event>, e: Event, inv: nat)
    ensures Trace(events + [e], inv) == Trace(events, inv) + if e.invite == inv then [e] else []
  {
    assert (events + [e])[..|events|] == events;
  }

  lemma {:induction false} TraceOfUnknown(events: seq<Event>, inv: nat)
    requires forall e <- events :: e.invite != inv
    ensures Trace(events, inv) == []
  {
    if events != [] {
      TraceOfUnknown(events[..|events| - 1], inv);
    }
  }

  lemma FirstTrace(invites: map<nat, Invite>, incoming: map<nat, nat>, events: seq<Event>, inv: nat, i: Invite, e: Event)
    requires TracesOk(invites, incoming, events) && e.invite == inv && inv !in invites
    requires forall e' <- events :: e'.invite in invites
    requires InviteOk(i, inv, true, [e])
    ensures TracesOk(invites[inv := i], incoming[inv := inv], events + [e])
  {
    forall k | k in invites[inv := i]
      ensures InviteOk(invites[inv := i][k], k, k in incoming[inv := inv], Trace(events + [e], k))
    {
      TraceAppend(events, e, k);
      if k == inv {
        TraceOfUnknown(events, inv);
        assert Trace(events + [e], inv) == [e];
      } else {
        TraceOfOther(events, e, k);
        assert InviteOk(invites[k], k, k in incoming, Trace(events, k));
      }
    }
  }

  lemma OnIncomingInviteKeeps(s: State, box: int, sipCallID: string, env: RingEnv)
    requires InvitesInv(s)
    ensures InvitesInv(OnIncomingInvite(s, box, sipCallID, env))
  {
    if Rings(env) {
      var i := Invite(box, sipCallID, env.users.value, true, false, false, 0, 0, 0);
      var e := Event(Ringing, s.next, i.users, 0, "incoming");
      ArrivedIs(s, box, sipCallID, env, i, e);
      RingingOk(i, s.next, e);
      hide InviteOk, TracesOk, OnIncomingInvite;
      FirstTrace(s.invites, s.incoming, s.events, s.next, i, e);
      GrownInvitesOk(s.invites, s.incoming, s.events, s.next, i, e);
    }
  }

  lemma ArrivedIs(s: State, box: int, sipCallID: string, env: RingEnv, i: Invite, e: Event)
    requires Rings(env) && i == Invite(box, sipCallID, env.users.value, true, false, false, 0, 0, 0)
    requires e == Event(Ringing, s.next, i.users, 0, "incoming")
    ensures var t := OnIncomingInvite(s, box, sipCallID, env);
            && t.invites == s.invites[s.next := i] && t.incoming == s.incoming[s.next := s.next]
            && t.events == s.events + [e] && t.next == s.next + 1
  {}

  lemma GrownInvitesOk(invites: map<nat, Invite>, incoming: map<nat, nat>, events: seq<Event>, next: nat, i: Invite, e: Event)
    requires InvitesOk(invites, incoming, events, next) && e.invite == next
    requires TracesOk(invites[next := i], incoming[next := next], events + [e])
    ensures InvitesOk(invites[next := i], incoming[next := next], events + [e], next + 1)
  {
    hide TracesOk;
  }

  lemma RingingOk(i: Invite, inv: nat, e: Event)
    requires i.armed && !i.ended && !i.connected && i.rejections == 0 && i.dialogCloses == 0
    requires e.kind == Ringing && e.invite == inv && e.users == i.users
    ensures InviteOk(i, inv, true, [e])
  {}

  lemma TerminalTrace(i: Invite, j: Invite, inv: nat, t: seq<Event>, e: Event)
    requires InviteOk(i, inv, true, t)
    requires j.users == i.users && e.invite == inv && e.users == i.users
    requires j.ended != j.connected && !j.armed && j.dialogCloses == (if j.ended then 1 else 0)
    requires j.rejections <= j.dialogCloses
    requires e.kind == if j.ended then Stopped else Answered
    requires j.connected ==> e.answeredBy in j.users
    ensures InviteOk(j, inv, false, t + [e])
  {}

  lemma TraceOfOther(events: seq<Event>, e: Event, inv: nat)
    requires e.invite != inv
    ensures Trace(events + [e], inv) == Trace(events, inv)
  {
    TraceAppend(events, e, inv);
  }

  lemma TerminalTraces(invites: map<nat, Invite>, incoming: map<nat, nat>, events: seq<Event>, inv: nat, j: Invite, e: Event)
    requires TracesOk(invites, incoming, events) && e.invite == inv && inv in invites
    requires InviteOk(j, inv, false, Trace(events, inv) + [e])
    ensures TracesOk(invites[inv := j], incoming - {inv}, events + [e])
  {
    forall k | k in invites
      ensures InviteOk(invites[inv := j][k], k, k in incoming - {inv}, Trace(events + [e], k))
    {
      if k == inv {
        TraceAppend(events, e, k);
      } else {
        TraceOfOther(events, e, k);
        assert InviteOk(invites[k], k, k in incoming, Trace(events, k));
      }
    }
  }

  /** The invite `inv` becomes `j` with its terminal event `e`, and nothing else changes. */
  lemma TerminalEvent(s: State, inv: nat, j: Invite, e: Event, t: State)
    requires InvitesInv(s) && inv in s.incoming && e.invite == inv
    requires InviteOk(j, inv, false, Trace(s.events, inv) + [e])
    requires t.invites == s.invites[inv := j] && t.incoming == s.incoming - {inv}
    requires t.events == s.events + [e] && t.next >= s.next
    ensures InvitesInv(t)
  {
    TerminalTraces(s.invites, s.incoming, s.events, inv, j, e);
  }

  lemma RejectAndFinishShape(s: State, inv: nat, respondOk: bool, reason: string)
    requires inv in s.invites && !s.invites[inv].ended && !s.invites[inv].connected
    ensures var t := RejectAndFinish(s, inv, respondOk, reason);
            var i := s.invites[inv];
            var j := i.(ended := true, armed := false, dialogCloses := i.dialogCloses + 1,
                        rejections := i.rejections + if respondOk then 1 else 0);
            && t == s.(invites := s.invites[inv := j], incoming := s.incoming - {inv},
                       events := s.events + [Event(Stopped, inv, i.users, i.answeredBy, reason)])
  {}

  lemma RejectAndFinishKeeps(s: State, inv: nat, respondOk: bool, reason: string)
    requires InvitesInv(s) && inv in s.incoming
    ensures InvitesInv(RejectAndFinish(s, inv, respondOk, reason))
  {
    var i := s.invites[inv];
    assert InviteOk(i, inv, true, Trace(s.events, inv));
    RejectAndFinishShape(s, inv, respondOk, reason);
    var t := RejectAndFinish(s, inv, respondOk, reason);
    var e := Event(Stopped, inv, i.users, i.answeredBy, reason);
    TerminalTrace(i, t.invites[inv], inv, Trace(s.events, inv), e);
    TerminalEvent(s, inv, t.invites[inv], e, t);
  }
}
