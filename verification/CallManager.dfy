/**
 The call manager with its mutable objects: sessions and invites are heap objects that the
 four tables of the manager point to. Every method is proved to do to the tables exactly what
 the handler of the same name in CallModel does, so all guarantees about runs apply.
 */
module CallManager {
  import opened Wrappers
  import opened Strings
  import M = CallModel

  class CallSession {
    const id: nat
    const logID: nat
    var user: int
    var box: int
    var dialog: M.Dialog
    var readyOnce: bool
    var closeOnce: bool
    ghost var readyCloses: nat
    ghost var byes: nat
    ghost var hangups: seq<string>

    ghost function View(): M.Session
      reads this
    {
      M.Session(user, box, logID, dialog, readyOnce, closeOnce, readyCloses, byes, hangups)
    }

    constructor (id: nat, logID: nat)
      ensures this.id == id && this.logID == logID
      ensures View() == M.NewSession(logID)
    {
      this.id, this.logID := id, logID;
      user, box, dialog := 0, 0, M.NoDialog;
      readyOnce, closeOnce := false, false;
      readyCloses, byes, hangups := 0, 0, [];
    }

    method MarkRemoteReady()
      modifies this
      ensures View() == M.MarkReady(old(View()))
    {
      if !readyOnce {
        readyOnce := true;
        readyCloses := readyCloses + 1;
      }
    }

    method Assign(user: int, box: int, dialog: M.Dialog)
      modifies this
      ensures View() == old(View()).(user := user, box := box, dialog := dialog)
    {
      this.user, this.box, this.dialog := user, box, dialog;
    }

    /** What the body of the once-guard of `close` does to the session and tells its peers. */
    method ShutDown(how: M.Closer)
      modifies this
      ensures View() == M.Closed(old(View()), how)
    {
      closeOnce := true;
      MarkRemoteReady();
      if how.sendBye {
        if dialog.ClientDialog? {
          byes := byes + 1;
        } else if dialog.ServerDialog? {
          byes := byes + 1;
        }
      }
      hangups := hangups + [how.reason];
    }
  }

  class InboundInvite {
    const id: nat
    const box: int
    const sipCallID: string
    const users: set<int>
    var armed: bool
    var ended: bool
    var connected: bool
    var answeredBy: int
    ghost var rejections: nat
    ghost var dialogCloses: nat

    ghost function View(): M.Invite
      reads this
    {
      M.Invite(box, sipCallID, users, armed, ended, connected, answeredBy, rejections, dialogCloses)
    }

    constructor (id: nat, box: int, sipCallID: string, users: set<int>)
      ensures this.id == id
      ensures View() == M.Invite(box, sipCallID, users, true, false, false, 0, 0, 0)
    {
      this.id, this.box, this.sipCallID, this.users := id, box, sipCallID, users;
      armed, ended, connected, answeredBy := true, false, false, 0;
      rejections, dialogCloses := 0, 0;
    }

    method Claim(user: int)
      modifies this
      ensures View() == old(View()).(answeredBy := user, armed := false)
    {
      answeredBy := user;
      armed := false;
    }

    method SetConnected()
      modifies this
      ensures View() == old(View()).(connected := true)
    {
      connected := true;
    }

    method SetEnded()
      modifies this
      ensures View() == old(View()).(ended := true, armed := false)
    {
      ended := true;
      armed := false;
    }

    method CloseDialog()
      modifies this
      ensures View() == old(View()).(dialogCloses := old(View()).dialogCloses + 1)
    {
      dialogCloses := dialogCloses + 1;
    }

    /** Answers whether the caller may go on; a failed response leaves the invite as it is, with the timer stopped. */
    method RejectWithResponse(respondOk: bool) returns (ok: bool)
      modifies this
      ensures (View(), ok) == M.Refused(old(View()), respondOk)
    {
      if ended || connected {
        return true;
      }
      armed := false;
      if !respondOk {
        return false;
      }
      rejections := rejections + 1;
      return true;
    }
  }

  /** A table of objects is the table of identifiers `ids`. */
  ghost predicate Points<K>(m: map<K, CallSession>, ids: map<K, nat>, sessions: map<nat, CallSession>) {
    m.Keys == ids.Keys && forall k <- m :: ids[k] in sessions && m[k] == sessions[ids[k]]
  }

  ghost predicate PointsToInvites(m: map<nat, InboundInvite>, ids: map<nat, nat>, invites: map<nat, InboundInvite>) {
    m.Keys == ids.Keys && forall k <- m :: ids[k] in invites && m[k] == invites[ids[k]]
  }

  ghost predicate SessionsAre(m: map<nat, CallSession>, views: map<nat, M.Session>)
    reads m.Values
  {
    m.Keys == views.Keys && forall k <- m :: m[k].id == k && m[k].View() == views[k]
  }

  ghost predicate InvitesAre(m: map<nat, InboundInvite>, views: map<nat, M.Invite>)
    reads m.Values
  {
    m.Keys == views.Keys && forall k <- m :: m[k].id == k && m[k].View() == views[k]
  }

  lemma PointsAdd<K>(m: map<K, CallSession>, ids: map<K, nat>, sessions: map<nat, CallSession>, k: K, c: CallSession)
    requires Points(m, ids, sessions) && c.id in sessions && sessions[c.id] == c
    ensures Points(m[k := c], ids[k := c.id], sessions)
  {}

  lemma PointsRemove<K>(m: map<K, CallSession>, ids: map<K, nat>, sessions: map<nat, CallSession>, k: K)
    requires Points(m, ids, sessions)
    ensures Points(m - {k}, ids - {k}, sessions)
  {}

  /** Dropping the entries of one object is dropping those of its identifier. */
  lemma PointsWithout<K>(m: map<K, CallSession>, ids: map<K, nat>, sessions: map<nat, CallSession>,
                         rest: map<K, CallSession>, c: CallSession)
    requires Points(m, ids, sessions) && c.id in sessions && sessions[c.id] == c
    requires forall k <- sessions :: sessions[k].id == k
    requires forall k <- rest :: k in m && rest[k] == m[k]
    requires forall k <- m :: k in rest <==> m[k] != c
    ensures Points(rest, map k | k in ids && ids[k] != c.id :: ids[k], sessions)
  {}

  lemma PointsGrow<K>(m: map<K, CallSession>, ids: map<K, nat>, sessions: map<nat, CallSession>, k: nat, c: CallSession)
    requires Points(m, ids, sessions) && k !in sessions
    ensures Points(m, ids, sessions[k := c])
  {}

  lemma InvitesRemove(m: map<nat, InboundInvite>, ids: map<nat, nat>, invites: map<nat, InboundInvite>, k: nat)
    requires PointsToInvites(m, ids, invites)
    ensures PointsToInvites(m - {k}, ids - {k}, invites)
  {}

  lemma InvitesGrow(m: map<nat, InboundInvite>, ids: map<nat, nat>, invites: map<nat, InboundInvite>, k: nat, inv: InboundInvite)
    requires PointsToInvites(m, ids, invites) && k !in invites
    ensures PointsToInvites(m, ids, invites[k := inv])
  {}

  lemma InvitesAreGrow(m: map<nat, InboundInvite>, views: map<nat, M.Invite>, k: nat, inv: InboundInvite)
    requires InvitesAre(m, views) && k !in m && inv.id == k
    ensures InvitesAre(m[k := inv], views[k := inv.View()])
  {}

  lemma SessionsAreGrow(m: map<nat, CallSession>, views: map<nat, M.Session>, k: nat, c: CallSession)
    requires SessionsAre(m, views) && k !in m && c.id == k
    ensures SessionsAre(m[k := c], views[k := c.View()])
  {}

  /** A handler and its specification have the same outcome. */
  ghost predicate SameOutcome(a: Result<CallSession, M.CallError>, b: Result<nat, M.CallError>) {
    match a
    case Ok(sess) => b == Ok(sess.id)
    case Err(error) => b == Err(error)
  }

  class Manager {
    var nextID: nat
    var callsByID: map<nat, CallSession>
    var callsBySIPID: map<string, CallSession>
    var callsByUser: map<int, CallSession>
    var incomingByID: map<nat, InboundInvite>
    var rows: seq<M.Row>
    ghost var sessions: map<nat, CallSession>  // every session ever created, by identifier
    ghost var invites: map<nat, InboundInvite>
    ghost var state: M.State  // the tables as values, and what the outside world has seen

    ghost predicate Valid()
      reads this, sessions.Values, invites.Values
    {
      && state.next == nextID && state.rows == rows
      && (forall k <- sessions :: k < nextID)
      && (forall k <- invites :: k < nextID)
      && SessionsAre(sessions, state.sessions)
      && InvitesAre(invites, state.invites)
      && Points(callsByID, state.byID, sessions)
      && Points(callsBySIPID, state.bySIP, sessions)
      && Points(callsByUser, state.byUser, sessions)
      && PointsToInvites(incomingByID, state.incoming, invites)
    }

    ghost predicate Knows(sess: CallSession)
      reads this
    {
      sess.id in sessions && sessions[sess.id] == sess
    }

    constructor ()
      ensures Valid() && state == M.EMPTY
    {
      nextID := 0;
      callsByID, callsBySIPID, callsByUser, incomingByID := map[], map[], map[], map[];
      rows, sessions, invites, state := [], map[], map[], M.EMPTY;
    }

    // ----- call log -----

    method CreateCallLog(ok: bool, user: int, box: int, status: string) returns (id: nat)
      requires Valid()
      modifies this`rows, this`state
      ensures Valid() && (state, id) == M.CreateLog(old(state), ok, user, box, status)
    {
      if !ok {
        return 0;
      }
      rows := rows + [M.Row(user, box, status, "", false, 0)];
      state := state.(rows := rows);
      return |rows|;
    }

    method EndCallLog(id: nat, ok: bool, status: string, reason: string)
      requires Valid()
      modifies this`rows, this`state
      ensures Valid() && state == M.EndLog(old(state), id, ok, status, reason)
    {
      if ok && 0 < id <= |rows| {
        var r := rows[id - 1];
        rows := rows[id - 1 := r.(status := status, reason := reason, ended := true, ends := r.ends + 1)];
      }
      state := M.EndLog(state, id, ok, status, reason);
    }

    // ----- index tables -----

    lemma KnownView(sess: CallSession)
      requires Valid() && Knows(sess)
      ensures sess.id in state.sessions && state.sessions[sess.id] == sess.View()
    {
      hide Points, PointsToInvites, InvitesAre;
    }

    lemma AllViews()
      requires Valid()
      ensures sessions.Keys == state.sessions.Keys
      ensures forall k <- sessions :: sessions[k].id == k && sessions[k].View() == state.sessions[k]
    {
      hide Points, PointsToInvites, InvitesAre;
    }

    method RegisterCall(sess: CallSession, sipCallID: string)
      requires Valid() && Knows(sess)
      modifies this`callsByID, this`callsBySIPID, this`callsByUser, this`state
      ensures Valid() && state == M.Register(old(state), sess.id, sipCallID)
    {
      hide Points, PointsToInvites, InvitesAre, SessionsAre;
      KnownView(sess);
      PointsAdd(callsByID, state.byID, sessions, sess.id, sess);
      PointsAdd(callsBySIPID, state.bySIP, sessions, sipCallID, sess);
      PointsAdd(callsByUser, state.byUser, sessions, sess.user, sess);
      var bySIP, byUser := callsBySIPID, callsByUser;
      if sipCallID != "" {
        bySIP := bySIP[sipCallID := sess];
      }
      if sess.user > 0 {
        byUser := byUser[sess.user := sess];
      }
      SetIndexes(callsByID[sess.id := sess], bySIP, byUser, M.Register(state, sess.id, sipCallID));
    }

    /** The three indexes change under the lock. */
    method SetIndexes(byID: map<nat, CallSession>, bySIP: map<string, CallSession>, byUser: map<int, CallSession>,
                      ghost next: M.State)
      requires Valid()
      requires next == state.(byID := next.byID, bySIP := next.bySIP, byUser := next.byUser)
      requires Points(byID, next.byID, sessions) && Points(bySIP, next.bySIP, sessions) && Points(byUser, next.byUser, sessions)
      modifies this`callsByID, this`callsBySIPID, this`callsByUser, this`state
      ensures Valid() && state == next
    {
      hide Points, PointsToInvites, InvitesAre, SessionsAre;
      callsByID, callsBySIPID, callsByUser, state := byID, bySIP, byUser, next;
    }

    /** The loop of UnregisterCall over `callsBySIPID`. */
    method OtherSIPEntries(sess: CallSession) returns (rest: map<string, CallSession>)
      ensures forall k <- rest :: k in callsBySIPID && rest[k] == callsBySIPID[k]
      ensures forall k <- callsBySIPID :: k in rest <==> callsBySIPID[k] != sess
    {
      rest := callsBySIPID;
      var todo := rest.Keys;
      while todo != {}
        invariant todo <= rest.Keys
        invariant forall k <- rest :: k in callsBySIPID && rest[k] == callsBySIPID[k]
        invariant forall k <- callsBySIPID :: k in rest <==> k in todo || callsBySIPID[k] != sess
        decreases |todo|
      {
        var k :| k in todo;
        todo := todo - {k};
        if rest[k] == sess {
          rest := rest - {k};
        }
      }
    }

    lemma WithoutSession(sess: CallSession, rest: map<string, CallSession>)
      requires Valid() && Knows(sess)
      requires forall k <- rest :: k in callsBySIPID && rest[k] == callsBySIPID[k]
      requires forall k <- callsBySIPID :: k in rest <==> callsBySIPID[k] != sess
      ensures sess.id in state.sessions
      ensures var t := M.Unregister(state, sess.id);
              && Points(rest, t.bySIP, sessions)
              && Points(callsByID - {sess.id}, t.byID, sessions)
              && Points(if sess.user > 0 then callsByUser - {sess.user} else callsByUser, t.byUser, sessions)
              && t == state.(byID := t.byID, bySIP := t.bySIP, byUser := t.byUser)
    {
      hide Points, PointsToInvites, InvitesAre, SessionsAre;
      KnownView(sess);
      assert forall k <- sessions :: sessions[k].id == k by {
        AllViews();
      }
      PointsRemove(callsByID, state.byID, sessions, sess.id);
      PointsRemove(callsByUser, state.byUser, sessions, sess.user);
      PointsWithout(callsBySIPID, state.bySIP, sessions, rest, sess);
    }

    method UnregisterCall(sess: CallSession)
      requires Valid() && Knows(sess)
      modifies this`callsByID, this`callsBySIPID, this`callsByUser, this`state
      ensures sess.id in old(state).sessions
      ensures Valid() && state == M.Unregister(old(state), sess.id)
    {
      hide Points, PointsToInvites, InvitesAre, SessionsAre, CallSession.View, M.Unregister;
      var byUser := callsByUser;
      if sess.user > 0 {
        byUser := byUser - {sess.user};
      }
      var bySIP := OtherSIPEntries(sess);
      WithoutSession(sess, bySIP);
      SetIndexes(callsByID - {sess.id}, bySIP, byUser, M.Unregister(state, sess.id));
    }

    // ----- sessions -----

    method Close(sess: CallSession, how: M.Closer, endOk: bool)
      requires Valid() && Knows(sess)
      modifies this`callsByID, this`callsBySIPID, this`callsByUser, this`rows, this`state, sess
      ensures Valid() && state == M.Close(old(state), sess.id, how, endOk)
    {
      KnownView(sess);
      if !sess.closeOnce {
        CloseFirst(sess, how, endOk);
      }
    }

    /** The session object has changed; the value of its table follows. */
    ghost method Refresh(sess: CallSession)
      requires Knows(sess) && sess.id in state.sessions
      requires sessions.Keys == state.sessions.Keys
      requires forall k <- sessions :: sessions[k].id == k
      requires forall k <- sessions :: k != sess.id ==> sessions[k].View() == state.sessions[k]
      modifies this`state
      ensures state == old(state).(sessions := old(state.sessions)[sess.id := sess.View()])
      ensures SessionsAre(sessions, state.sessions)
    {
      state := state.(sessions := state.sessions[sess.id := sess.View()]);
    }

    /** The body of the once-guard of `close`. */
    method CloseFirst(sess: CallSession, how: M.Closer, endOk: bool)
      requires Valid() && Knows(sess) && !sess.closeOnce
      modifies this`callsByID, this`callsBySIPID, this`callsByUser, this`rows, this`state, sess
      ensures Valid() && state == M.Close(old(state), sess.id, how, endOk)
    {
      hide Points, PointsToInvites, InvitesAre, SessionsAre;
      KnownView(sess);
      ShutDown(sess, how);
      UnregisterCall(sess);
      EndCallLog(sess.logID, endOk, how.status, how.reason);
    }

    method ShutDown(sess: CallSession, how: M.Closer)
      requires Valid() && Knows(sess) && sess.id in state.sessions
      modifies this`state, sess
      ensures Valid()
      ensures var s := old(state);
              state == s.(sessions := s.sessions[sess.id := M.Closed(s.sessions[sess.id], how)],
                          sockets := s.sockets - {sess.id}, peers := s.peers - {sess.id})
    {
      hide Points, PointsToInvites, InvitesAre, SessionsAre, CallSession.View;
      KnownView(sess);
      AllViews();
      sess.ShutDown(how);
      Refresh(sess);
      state := state.(sockets := state.sockets - {sess.id}, peers := state.peers - {sess.id});
    }

    method Assign(sess: CallSession, user: int, box: int, dialog: M.Dialog)
      requires Valid() && Knows(sess) && sess.id in state.sessions
      modifies this`state, sess
      ensures Valid()
      ensures state == old(state).(sessions := old(state).sessions[sess.id :=
                                     old(state).sessions[sess.id].(user := user, box := box, dialog := dialog)])
    {
      hide Points, PointsToInvites, InvitesAre, SessionsAre, CallSession.View;
      KnownView(sess);
      AllViews();
      sess.Assign(user, box, dialog);
      Refresh(sess);
    }

    method MarkReady(sess: CallSession)
      requires Valid() && Knows(sess) && sess.id in state.sessions
      modifies this`state, sess
      ensures Valid()
      ensures state == old(state).(sessions := old(state).sessions[sess.id := M.MarkReady(old(state).sessions[sess.id])])
    {
      hide Points, PointsToInvites, InvitesAre, SessionsAre, CallSession.View;
      KnownView(sess);
      AllViews();
      sess.MarkRemoteReady();
      Refresh(sess);
    }

    lemma TablesGrow(sess: CallSession)
      requires Valid() && sess.id == nextID
      ensures Points(callsByID, state.byID, sessions[nextID := sess])
      ensures Points(callsBySIPID, state.bySIP, sessions[nextID := sess])
      ensures Points(callsByUser, state.byUser, sessions[nextID := sess])
    {
      hide PointsToInvites, InvitesAre, SessionsAre, Points;
      PointsGrow(callsByID, state.byID, sessions, nextID, sess);
      PointsGrow(callsBySIPID, state.bySIP, sessions, nextID, sess);
      PointsGrow(callsByUser, state.byUser, sessions, nextID, sess);
    }

    method OpenSocket() returns (socket: nat)
      requires Valid()
      modifies this`state
      ensures Valid() && socket == nextID && state == M.OpenSocket(old(state))
    {
      hide PointsToInvites, InvitesAre, Points, SessionsAre;
      socket := nextID;
      state := M.OpenSocket(state);
    }

    method CloseSocket(socket: nat)
      requires Valid()
      modifies this`state
      ensures Valid() && state == M.CloseSocket(old(state), socket)
    {
      hide PointsToInvites, InvitesAre, Points, SessionsAre;
      state := M.CloseSocket(state, socket);
    }

    method OpenPeer(logID: nat) returns (sess: CallSession)
      requires Valid()
      modifies this`nextID, this`sessions, this`state
      ensures Valid() && fresh(sess) && Knows(sess) && sess.id == old(nextID)
      ensures state == M.OpenPeer(old(state), logID)
    {
      hide PointsToInvites, InvitesAre, Points, SessionsAre;
      AllViews();
      sess := new CallSession(nextID, logID);
      Adopt(sess);
    }

    /** A new session object gets the next identifier. */
    method Adopt(sess: CallSession)
      requires Valid() && sess.id == nextID && sess !in sessions.Values && sess.View() == M.NewSession(sess.logID)
      modifies this`nextID, this`sessions, this`state
      ensures Valid() && Knows(sess) && sessions == old(sessions)[old(nextID) := sess]
      ensures state == M.OpenPeer(old(state), sess.logID)
    {
      hide PointsToInvites, InvitesAre, Points, SessionsAre;
      TablesGrow(sess);
      SessionsAreGrow(sessions, state.sessions, nextID, sess);
      sessions := sessions[nextID := sess];
      nextID := nextID + 1;
      state := M.OpenPeer(state, sess.logID);
    }

    method CreateWebRTCSide(media: M.Media, logID: nat, endOk: bool) returns (created: Option<CallSession>)
      requires Valid()
      modifies this
      ensures Valid()
      ensures var (t, id) := M.CreateWebRTCSide(old(state), media, logID, endOk);
              && state == t && (created.Some? <==> id.Some?)
      ensures created.Some? ==> fresh(created.value) && Knows(created.value) && created.value.id == old(nextID)
                                && created.value.id in state.sessions
                                && state.sessions[created.value.id].dialog == M.NoDialog
      ensures invites == old(invites) && incomingByID == old(incomingByID)
    {
      hide Points, PointsToInvites, InvitesAre, SessionsAre;
      if media.SocketError? {
        EndCallLog(logID, endOk, "failed", "rtp socket error");
        return None;
      }
      var socket := OpenSocket();
      if media.PeerError? {
        CloseSocket(socket);
        EndCallLog(logID, endOk, "failed", "webrtc create error");
        return None;
      }
      var sess := OpenPeer(logID);
      if media.SetupError? {
        Close(sess, M.Closer(false, "failed", M.SetupReason(media.step)), endOk);
        return None;
      }
      return Some(sess);
    }

    method StartCall(user: int, box: int, number: string, env: M.DialEnv) returns (r: Result<CallSession, M.CallError>)
      requires Valid()
      modifies this
      ensures Valid()
      ensures var (t, outcome) := M.StartCall(old(state), user, box, number, env);
              state == t && SameOutcome(r, outcome)
    {
      hide Points, PointsToInvites, InvitesAre, SessionsAre, M.CreateWebRTCSide, M.Dial;
      UserEntry(user);
      if Trim(number) == "" {
        return Err(M.NumberRequired);
      }
      if user in callsByUser {
        return Err(M.UserBusy);
      }
      if env.box != M.Found {
        return Err(if env.box == M.NotFound then M.BoxNotFound else M.StoreError);
      }
      if env.registration != M.Found {
        return Err(if env.registration == M.NotFound then M.BoxOffline else M.StoreError);
      }
      var logID := CreateCallLog(env.logOk, user, box, "dialing");
      var created := CreateWebRTCSide(env.media, logID, env.endOk);
      if created.None? {
        return Err(M.MediaFailed);
      }
      r := Dial(created.value, user, box, env);
    }

    lemma UserEntry(user: int)
      requires Valid()
      ensures user in callsByUser <==> user in state.byUser
    {
      hide PointsToInvites, InvitesAre, SessionsAre;
    }

    method Dial(sess: CallSession, user: int, box: int, env: M.DialEnv) returns (r: Result<CallSession, M.CallError>)
      requires Valid() && Knows(sess) && sess.id in state.sessions
      requires state.sessions[sess.id].dialog == M.NoDialog
      modifies this, sess
      ensures Valid()
      ensures var (t, outcome) := M.Dial(old(state), sess.id, user, box, env);
              state == t && SameOutcome(r, outcome)
    {
      hide Points, PointsToInvites, InvitesAre, SessionsAre, M.Close, M.Register;
      ghost var was := state;
      Assign(sess, user, box, M.NoDialog);
      if !env.publicIP {
        Close(sess, M.Closer(false, "failed", "media public ip missing"), env.endOk);
        return Err(M.PublicIPMissing);
      }
      if env.inviteError.Some? {
        Close(sess, M.Closer(false, "failed", env.inviteError.value), env.endOk);
        return Err(M.InviteFailed);
      }
      Assign(sess, user, box, M.ClientDialog);
      ghost var c2 := was.sessions[sess.id].(user := user, box := box, dialog := M.ClientDialog);
      assert state == was.(sessions := was.sessions[sess.id := c2]);
      r := DialAnswered(sess, env);
      assert was.sessions[sess.id := c2][sess.id := M.MarkReady(c2)] == was.sessions[sess.id := M.MarkReady(c2)];
    }

    /** StartCall after the INVITE was answered. */
    method DialAnswered(sess: CallSession, env: M.DialEnv) returns (r: Result<CallSession, M.CallError>)
      requires Valid() && Knows(sess) && sess.id in state.sessions
      modifies this, sess
      ensures Valid() && sess.id in old(state).sessions
      ensures var s := old(state);
              if env.answerSDP then
                && r == Ok(sess)
                && state == M.Register(s.(sessions := s.sessions[sess.id := M.MarkReady(s.sessions[sess.id])]),
                                       sess.id, env.sipCallID)
              else
                && r == Err(M.BadRemoteSDP)
                && state == M.Close(s, sess.id, M.Closer(true, "failed", "bad remote SDP"), env.endOk)
    {
      hide Points, PointsToInvites, InvitesAre, SessionsAre, M.Close, M.Register;
      if !env.answerSDP {
        Close(sess, M.Closer(true, "failed", "bad remote SDP"), env.endOk);
        return Err(M.BadRemoteSDP);
      }
      MarkReady(sess);
      RegisterCall(sess, env.sipCallID);
      return Ok(sess);
    }

    // ----- invites -----

    ghost predicate KnowsInvite(inv: InboundInvite)
      reads this
    {
      inv.id in invites && invites[inv.id] == inv
    }

    lemma InviteView(inv: InboundInvite)
      requires Valid() && KnowsInvite(inv)
      ensures inv.id in state.invites && state.invites[inv.id] == inv.View()
    {
      hide Points, PointsToInvites, SessionsAre;
    }

    lemma AllInviteViews()
      requires Valid()
      ensures invites.Keys == state.invites.Keys
      ensures forall k <- invites :: invites[k].id == k && invites[k].View() == state.invites[k]
    {
      hide Points, PointsToInvites, SessionsAre;
    }

    lemma InviteEntry(id: nat)
      requires Valid()
      ensures id in incomingByID <==> id in state.incoming && state.incoming[id] in state.invites
      ensures id in incomingByID ==> KnowsInvite(incomingByID[id]) && state.incoming[id] == incomingByID[id].id
    {
      hide Points, SessionsAre;
    }

    /** The invite object has changed; the value of its table follows. */
    ghost method RefreshInvite(inv: InboundInvite)
      requires KnowsInvite(inv) && inv.id in state.invites
      requires invites.Keys == state.invites.Keys
      requires forall k <- invites :: invites[k].id == k
      requires forall k <- invites :: k != inv.id ==> invites[k].View() == state.invites[k]
      modifies this`state
      ensures state == old(state).(invites := old(state.invites)[inv.id := inv.View()])
      ensures InvitesAre(invites, state.invites)
    {
      state := state.(invites := state.invites[inv.id := inv.View()]);
    }

    method Emit(kind: M.EventKind, inv: InboundInvite, reason: string)
      requires Valid() && KnowsInvite(inv)
      modifies this`state
      ensures inv.id in old(state).invites
      ensures Valid() && state == M.Emit(old(state), kind, inv.id, reason)
    {
      hide Points, PointsToInvites, InvitesAre, SessionsAre;
      InviteView(inv);
      state := M.Emit(state, kind, inv.id, reason);
    }

    method RemoveInbound(id: nat)
      requires Valid()
      modifies this`incomingByID, this`state
      ensures Valid() && state == old(state).(incoming := old(state).incoming - {id})
    {
      hide Points, PointsToInvites, InvitesAre, SessionsAre;
      InvitesRemove(incomingByID, state.incoming, invites, id);
      incomingByID := incomingByID - {id};
      state := state.(incoming := state.incoming - {id});
    }

    method RejectWithResponse(inv: InboundInvite, respondOk: bool) returns (ok: bool)
      requires Valid() && KnowsInvite(inv) && inv.id in state.invites
      modifies this`state, inv
      ensures Valid() && (state, ok) == M.RejectWithResponse(old(state), inv.id, respondOk)
    {
      hide Points, PointsToInvites, InvitesAre, SessionsAre, InboundInvite.View;
      InviteView(inv);
      AllInviteViews();
      ok := inv.RejectWithResponse(respondOk);
      RefreshInvite(inv);
    }

    method EndInvite(inv: InboundInvite)
      requires Valid() && KnowsInvite(inv) && inv.id in state.invites
      modifies this`state, inv
      ensures Valid()
      ensures state == old(state).(invites := old(state).invites[inv.id :=
                                     old(state).invites[inv.id].(ended := true, armed := false)])
    {
      hide Points, PointsToInvites, InvitesAre, SessionsAre, InboundInvite.View;
      InviteView(inv);
      AllInviteViews();
      inv.SetEnded();
      RefreshInvite(inv);
    }

    method CloseDialog(inv: InboundInvite)
      requires Valid() && KnowsInvite(inv) && inv.id in state.invites
      modifies this`state, inv
      ensures Valid()
      ensures var i := old(state).invites[inv.id];
              state == old(state).(invites := old(state).invites[inv.id := i.(dialogCloses := i.dialogCloses + 1)])
    {
      hide Points, PointsToInvites, InvitesAre, SessionsAre, InboundInvite.View;
      InviteView(inv);
      AllInviteViews();
      inv.CloseDialog();
      RefreshInvite(inv);
    }

    method FinishInbound(inv: InboundInvite, reason: string)
      requires Valid() && KnowsInvite(inv) && inv.id in state.invites
      modifies this`state, this`incomingByID, inv
      ensures Valid() && state == M.FinishInbound(old(state), inv.id, reason)
    {
      hide Points, PointsToInvites, InvitesAre, SessionsAre;
      InviteView(inv);
      if inv.ended {
        return;
      }
      EndInvite(inv);
      RemoveInbound(inv.id);
      Emit(M.Stopped, inv, reason);
      CloseDialog(inv);
    }

    method OnIncomingInvite(box: int, sipCallID: string, env: M.RingEnv)
      requires Valid()
      modifies this
      ensures Valid() && state == M.OnIncomingInvite(old(state), box, sipCallID, env)
    {
      hide Points, PointsToInvites, InvitesAre, SessionsAre;
      if !env.remoteSDP {
        return;
      }
      if env.users.None? || env.users.value == {} {
        return;
      }
      if env.devices.None? || env.devices.value == 0 {
        return;
      }
      var inv := new InboundInvite(nextID, box, sipCallID, env.users.value);
      AdoptInvite(inv);
      AddInbound(inv);
      Emit(M.Ringing, inv, "incoming");
    }

    /** A new invite object gets the next identifier. */
    method AdoptInvite(inv: InboundInvite)
      requires Valid() && inv.id == nextID && inv !in invites.Values
      modifies this`nextID, this`invites, this`state
      ensures Valid() && KnowsInvite(inv) && invites == old(invites)[old(nextID) := inv]
      ensures var s := old(state);
              state == s.(next := s.next + 1, invites := s.invites[s.next := inv.View()])
    {
      hide PointsToInvites, SessionsAre, Points, InvitesAre;
      InvitesGrow(incomingByID, state.incoming, invites, nextID, inv);
      InvitesAreGrow(invites, state.invites, nextID, inv);
      invites := invites[nextID := inv];
      state := state.(next := state.next + 1, invites := state.invites[state.next := inv.View()]);
      nextID := nextID + 1;
    }

    method AddInbound(inv: InboundInvite)
      requires Valid() && KnowsInvite(inv)
      modifies this`incomingByID, this`state
      ensures Valid() && state == old(state).(incoming := old(state).incoming[inv.id := inv.id])
    {
      hide SessionsAre, Points, InvitesAre;
      incomingByID := incomingByID[inv.id := inv];
      state := state.(incoming := state.incoming[inv.id := inv.id]);
    }

    method RejectIncoming(user: int, inviteID: nat, reason: string, respondOk: bool) returns (r: Result<(), M.CallError>)
      requires Valid()
      modifies this, invites.Values
      ensures Valid() && (state, r) == M.RejectIncoming(old(state), user, inviteID, reason, respondOk)
    {
      hide Points, PointsToInvites, InvitesAre, SessionsAre, M.FinishInbound, M.RejectWithResponse;
      InviteEntry(inviteID);
      if inviteID !in incomingByID {
        return Err(M.InviteNotFound);
      }
      var inv := incomingByID[inviteID];
      InviteView(inv);
      if user !in inv.users {
        return Err(M.NotAllowed);
      }
      var ok := RejectWithResponse(inv, respondOk);
      if !ok {
        return Err(M.RespondFailed);
      }
      FinishInbound(inv, if Trim(reason) == "" then "declined" else reason);
      return Ok(());
    }

    method Claim(inv: InboundInvite, user: int)
      requires Valid() && KnowsInvite(inv) && inv.id in state.invites
      modifies this`state, inv
      ensures Valid()
      ensures state == old(state).(invites := old(state).invites[inv.id :=
                                     old(state).invites[inv.id].(answeredBy := user, armed := false)])
    {
      hide Points, PointsToInvites, InvitesAre, SessionsAre, InboundInvite.View;
      InviteView(inv);
      AllInviteViews();
      inv.Claim(user);
      RefreshInvite(inv);
    }

    method SetConnected(inv: InboundInvite)
      requires Valid() && KnowsInvite(inv) && inv.id in state.invites
      modifies this`state, inv
      ensures Valid()
      ensures state == old(state).(invites := old(state).invites[inv.id := old(state).invites[inv.id].(connected := true)])
    {
      hide Points, PointsToInvites, InvitesAre, SessionsAre, InboundInvite.View;
      InviteView(inv);
      AllInviteViews();
      inv.SetConnected();
      RefreshInvite(inv);
    }

    method AcceptIncoming(user: int, inviteID: nat, env: M.AcceptEnv) returns (r: Result<CallSession, M.CallError>)
      requires Valid()
      modifies this, invites.Values
      ensures Valid()
      ensures var (t, outcome) := M.AcceptIncoming(old(state), user, inviteID, env);
              state == t && SameOutcome(r, outcome)
    {
      hide Points, PointsToInvites, InvitesAre, SessionsAre, M.Answer;
      InviteEntry(inviteID);
      UserEntry(user);
      if inviteID !in incomingByID {
        return Err(M.InviteNotFound);
      }
      var inv := incomingByID[inviteID];
      InviteView(inv);
      if user !in inv.users {
        return Err(M.NotAllowed);
      }
      if user in callsByUser {
        return Err(M.UserBusy);
      }
      if inv.ended {
        return Err(M.AlreadyEnded);
      }
      if inv.connected {
        return Err(M.AlreadyAnswered);
      }
      Claim(inv, user);
      r := Answer(user, inv, env);
    }

    /** AcceptIncoming after the claim on the invite. */
    method Answer(user: int, inv: InboundInvite, env: M.AcceptEnv) returns (r: Result<CallSession, M.CallError>)
      requires Valid() && KnowsInvite(inv) && inv.id in state.invites
      modifies this, inv
      ensures Valid()
      ensures var (t, outcome) := M.Answer(old(state), user, inv.id, env);
              state == t && SameOutcome(r, outcome)
    {
      hide Points, PointsToInvites, InvitesAre, SessionsAre, M.CreateWebRTCSide, M.Connect, M.FinishInbound, M.RejectWithResponse;
      InviteView(inv);
      var logID := CreateCallLog(env.logOk, user, inv.box, "connecting");
      var created := CreateWebRTCSide(env.media, logID, env.endOk);
      if created.None? {
        RejectAndFinish(inv, env.rejectOk, "accept failed");
        return Err(M.MediaFailed);
      }
      r := Connect(created.value, user, inv, env);
    }

    method RejectAndFinish(inv: InboundInvite, respondOk: bool, reason: string)
      requires Valid() && KnowsInvite(inv) && inv.id in state.invites
      modifies this`state, this`incomingByID, inv
      ensures Valid() && state == M.RejectAndFinish(old(state), inv.id, respondOk, reason)
    {
      hide Points, PointsToInvites, InvitesAre, SessionsAre, M.FinishInbound, M.RejectWithResponse;
      var _ := RejectWithResponse(inv, respondOk);
      FinishInbound(inv, reason);
    }

    /** AcceptIncoming after the media side exists. */
    method Connect(sess: CallSession, user: int, inv: InboundInvite, env: M.AcceptEnv) returns (r: Result<CallSession, M.CallError>)
      requires Valid() && Knows(sess) && sess.id in state.sessions
      requires KnowsInvite(inv) && inv.id in state.invites
      modifies this, sess, inv
      ensures Valid()
      ensures var (t, outcome) := M.Connect(old(state), sess.id, user, inv.id, env);
              state == t && SameOutcome(r, outcome)
    {
      hide Points, PointsToInvites, InvitesAre, SessionsAre, M.Close, M.Register, M.FinishInbound, M.RejectAndFinish, M.Emit;
      if !env.publicIP {
        Close(sess, M.Closer(false, "failed", "media public ip missing"), env.endOk);
        RejectAndFinish(inv, env.rejectOk, "media public ip missing");
        return Err(M.PublicIPMissing);
      }
      InviteView(inv);
      ghost var was := state;
      Assign(sess, user, inv.box, M.ServerDialog);
      MarkReady(sess);
      ghost var c := was.sessions[sess.id].(user := user, box := inv.box, dialog := M.ServerDialog);
      assert was.sessions[sess.id := c][sess.id := M.MarkReady(c)] == was.sessions[sess.id := M.MarkReady(c)];
      if !env.answerOk {
        Close(sess, M.Closer(false, "failed", "respond sip answer failed"), env.endOk);
        FinishInbound(inv, "sip answer failed");
        return Err(M.AnswerFailed);
      }
      SetConnected(inv);
      RegisterCall(sess, inv.sipCallID);
      RemoveInbound(inv.id);
      Emit(M.Answered, inv, "answered");
      return Ok(sess);
    }

    method TimerFires(inv: InboundInvite, respondOk: bool)
      requires Valid() && KnowsInvite(inv)
      modifies this, inv
      ensures Valid() && state == M.TimerFires(old(state), inv.id, respondOk)
    {
      hide Points, PointsToInvites, InvitesAre, SessionsAre, M.FinishInbound, M.RejectWithResponse;
      InviteView(inv);
      if inv.armed {
        RejectAndFinish(inv, respondOk, "timeout");
      }
    }

    method DialogDone(inv: InboundInvite)
      requires Valid() && KnowsInvite(inv)
      modifies this, inv
      ensures Valid() && state == M.DialogDone(old(state), inv.id)
    {
      hide Points, PointsToInvites, InvitesAre, SessionsAre, M.FinishInbound;
      InviteView(inv);
      if !inv.ended && !inv.connected {
        FinishInbound(inv, "remote canceled");
      }
    }

    method OnRemoteBye(callID: string, endOk: bool)
      requires Valid()
      modifies this, sessions.Values
      ensures Valid() && state == M.OnRemoteBye(old(state), callID, endOk)
    {
      SIPEntry(callID);
      if callID in callsBySIPID {
        Close(callsBySIPID[callID], M.Closer(false, "ended", "remote hangup"), endOk);
      }
    }

    lemma SIPEntry(callID: string)
      requires Valid()
      ensures callID in callsBySIPID <==> callID in state.bySIP && state.bySIP[callID] in state.sessions
      ensures callID in callsBySIPID ==> Knows(callsBySIPID[callID]) && state.bySIP[callID] == callsBySIPID[callID].id
    {
      hide PointsToInvites, InvitesAre;
    }

    // ----- queries -----

    method IsBoxInUse(box: int) returns (inUse: bool)
      requires Valid()
      ensures inUse == M.IsBoxInUse(state, box)
    {
      if box <= 0 {
        return false;
      }
      hide PointsToInvites, InvitesAre;
      var todo := callsByID.Keys;
      while todo != {}
        invariant todo <= callsByID.Keys
        invariant forall k <- callsByID.Keys - todo :: callsByID[k].box != box
        decreases |todo|
      {
        var k :| k in todo;
        if callsByID[k].box == box {
          assert state.byID[k] in state.sessions && state.sessions[state.byID[k]].box == box;
          return true;
        }
        todo := todo - {k};
      }
      return false;
    }

    method ListPendingIncoming(user: int) returns (pending: set<nat>)
      requires Valid()
      ensures pending == M.ListPendingIncoming(state, user)
    {
      hide Points, SessionsAre;
      pending := {};
      var todo := incomingByID.Keys;
      while todo != {}
        invariant todo <= incomingByID.Keys
        invariant pending == set k | k in incomingByID && k !in todo
                                     && user in incomingByID[k].users && !incomingByID[k].ended :: incomingByID[k].id
        decreases |todo|
      {
        var k :| k in todo;
        todo := todo - {k};
        var inv := incomingByID[k];
        if user in inv.users && !inv.ended {
          pending := pending + {inv.id};
        }
      }
      forall k | k in incomingByID
        ensures k in state.incoming && state.incoming[k] == incomingByID[k].id
        ensures state.incoming[k] in state.invites && state.invites[state.incoming[k]] == incomingByID[k].View()
      {}
    }
  }
}
