/** What handler-atomic runs of the call manager guarantee, from empty tables. */
module CallGuarantees {
  import opened Wrappers
  import opened CallModel
  import opened CallInvariants
  import opened CallPreservation

  lemma Reachable(ops: seq<Op>)
    ensures Inv(Run(EMPTY, ops))
  {
    hide Inv, Run;
    EmptyInv();
    RunKeeps(EMPTY, ops);
  }

  // ----- invites -----

  /** Every invite rings once and has at most one terminal event, Answered xor Stopped; it is
      pending exactly while it has none, and all its events go to the users rung. */
  lemma ExactlyOnceOutcome(ops: seq<Op>, inv: nat)
    requires inv in Run(EMPTY, ops).invites
    ensures var s := Run(EMPTY, ops);
            var t := Trace(s.events, inv);
            && (|t| == 1 || |t| == 2)
            && t[0].kind == Ringing
            && (inv in s.incoming <==> |t| == 1)
            && (|t| == 2 ==> t[1].kind == Stopped || (t[1].kind == Answered && t[1].answeredBy in t[1].users))
            && (forall e <- t :: e.users == s.invites[inv].users)
            && s.invites[inv].dialogCloses == (if |t| == 2 && t[1].kind == Stopped then 1 else 0)
            && s.invites[inv].rejections <= s.invites[inv].dialogCloses
  {
    hide CallsInv, Run, Trace;
    Reachable(ops);
    var s := Run(EMPTY, ops);
    assert InviteOk(s.invites[inv], inv, inv in s.incoming, Trace(s.events, inv));
  }

  /** ListPendingIncoming answers exactly the invites without a terminal event that are addressed to the user. */
  lemma PendingListExact(ops: seq<Op>, user: int)
    ensures var s := Run(EMPTY, ops);
            ListPendingIncoming(s, user)
            == set k | k in s.invites && user in s.invites[k].users && |Trace(s.events, k)| == 1
  {
    hide CallsInv, Run, Trace;
    Reachable(ops);
    var s := Run(EMPTY, ops);
    forall k | k in s.invites
      ensures k in ListPendingIncoming(s, user) <==> user in s.invites[k].users && |Trace(s.events, k)| == 1
    {
      assert InviteOk(s.invites[k], k, k in s.incoming, Trace(s.events, k));
    }
  }

  // ----- sessions -----

  /** `callsByUser` and the live sessions of positive users are inverse to each other. */
  lemma OneCallPerUser(ops: seq<Op>)
    ensures var s := Run(EMPTY, ops);
            && (forall u <- s.byUser :: u > 0 && s.byUser[u] in s.byID && s.byUser[u] in s.sessions
                                        && s.sessions[s.byUser[u]].user == u)
            && (forall k <- s.byID :: k in s.sessions && s.byID[k] == k && !s.sessions[k].closeOnce
                                      && (s.sessions[k].user > 0 ==> s.sessions[k].user in s.byUser
                                                                     && s.byUser[s.sessions[k].user] == k))
            && (forall c <- s.bySIP :: c != "" && s.bySIP[c] in s.byID)
  {
    hide InvitesInv, RowsOk, Run;
    Reachable(ops);
  }

  /** After every run a box is in use if and only if some session that is not closed is on it. */
  lemma BoxInUseIff(ops: seq<Op>, box: int)
    ensures var s := Run(EMPTY, ops);
            IsBoxInUse(s, box) <==> box > 0 && exists k <- s.sessions :: !s.sessions[k].closeOnce && s.sessions[k].box == box
  {
    hide InvitesInv, RowsOk, Run, UsersOk, SipOk, OpenExactly, OnceOnly;
    Reachable(ops);
    var s := Run(EMPTY, ops);
    forall k | k in s.sessions
      ensures k in s.byID <==> !s.sessions[k].closeOnce
      ensures k in s.byID ==> s.byID[k] == k
    {}
  }

  lemma OwnEntries(s: State, id: nat)
    requires Inv(s) && id in s.sessions
    ensures id in s.byID <==> !s.sessions[id].closeOnce
    ensures forall u <- s.byUser :: s.byUser[u] == id <==> id in s.byID && u == s.sessions[id].user
    ensures forall c <- s.bySIP :: s.bySIP[c] == id ==> id in s.byID
    ensures forall u <- s.byUser :: u > 0
  {
    hide InvitesInv, RowsOk, OnceOnly, OpenExactly;
    forall u | u in s.byUser
      ensures s.byUser[u] == id <==> id in s.byID && u == s.sessions[id].user
    {
      var k := s.byUser[u];
      assert k in s.byID && s.sessions[k].user == u;
    }
  }

  /** Closing one call leaves every index entry of every other call as it was, and none of its own. */
  lemma CloseTouchesNoOtherCall(s: State, id: nat, how: Closer, endOk: bool)
    requires Inv(s) && id in s.sessions
    ensures var t := Close(s, id, how, endOk);
            && t.byID == s.byID - {id}
            && t.byUser == (map u | u in s.byUser && s.byUser[u] != id :: s.byUser[u])
            && t.bySIP == (map c | c in s.bySIP && s.bySIP[c] != id :: s.bySIP[c])
            && (forall k <- s.sessions :: k != id ==> t.sessions[k] == s.sessions[k])
  {
    hide Inv;
    OwnEntries(s, id);
    var t := Close(s, id, how, endOk);
    forall u | u in s.byUser
      ensures u in t.byUser <==> s.byUser[u] != id
    {}
    assert t.byUser == map u | u in s.byUser && s.byUser[u] != id :: s.byUser[u];
    assert t.bySIP == map c | c in s.bySIP && s.bySIP[c] != id :: s.bySIP[c];
  }

  function CloseAll(s: State, id: nat, closers: seq<(Closer, bool)>): (t: State)
    requires id in s.sessions
    ensures t.sessions.Keys == s.sessions.Keys
    decreases closers
  {
    if closers == [] then s else CloseAll(Close(s, id, closers[0].0, closers[0].1), id, closers[1..])
  }

  lemma {:induction false} CloseAgain(s: State, id: nat, closers: seq<(Closer, bool)>)
    requires id in s.sessions && s.sessions[id].closeOnce
    ensures CloseAll(s, id, closers) == s
    decreases closers
  {
    if closers != [] {
      CloseAgain(s, id, closers[1..]);
    }
  }

  /** The row of a live session is not ended, nor lost. */
  lemma RowOfLive(s: State, id: nat)
    requires CallsInv(s, {}, {}) && id in s.sessions && !s.sessions[id].closeOnce
    ensures var n := s.sessions[id].logID;
            id in s.byID && (n > 0 ==> n <= |s.rows| && !s.rows[n - 1].ended && s.rows[n - 1].ends == 0)
  {
    hide OpenExactly, UsersOk, SipOk, OnceOnly, Injective;
    var m, n := LogMap(s.sessions, s.byID, {}), s.sessions[id].logID;
    assert id in m;
    if n > 0 {
      assert m[id] in Positive(m);
      assert n in OpenRows(s.rows);
      assert s.rows[n - 1] in s.rows;
    }
  }

  /** The first closing of a session ends its row, with its status and reason, if the update works. */
  lemma RowClosed(s: State, id: nat, how: Closer, endOk: bool)
    requires CallsInv(s, {}, {}) && id in s.sessions && !s.sessions[id].closeOnce && s.sessions[id].logID > 0
    ensures var t, n := Close(s, id, how, endOk), s.sessions[id].logID;
            && n <= |t.rows| == |s.rows|
            && (if endOk then t.rows[n - 1].ends == 1 && t.rows[n - 1].status == how.status && t.rows[n - 1].reason == how.reason
                else n in t.lost && !t.rows[n - 1].ended)
  {
    RowOfLive(s, id);
    hide CallsInv;
  }

  lemma SessionClosed(s: State, id: nat, how: Closer, endOk: bool)
    requires CallsInv(s, {}, {}) && id in s.sessions && !s.sessions[id].closeOnce
    ensures var t, c := Close(s, id, how, endOk), s.sessions[id];
            && t.sessions[id].closeOnce && t.sessions[id].readyCloses == 1 && t.sessions[id].hangups == [how.reason]
            && t.sessions[id].byes == (if how.sendBye && c.dialog != NoDialog then 1 else 0)
            && id !in t.byID && id !in t.sockets && id !in t.peers
  {
    hide RowsOk, UsersOk, SipOk, OpenExactly;
  }

  /** However many closers there are and in whatever order, only the first counts: one BYE at most, one
      OnHangup, one closing of `remoteReady`, and one ending of the log row, all with its status and reason. */
  lemma CloseOnce(s: State, id: nat, closers: seq<(Closer, bool)>)
    requires Inv(s) && id in s.sessions && !s.sessions[id].closeOnce && closers != []
    ensures var t := CloseAll(s, id, closers);
            var (how, endOk) := closers[0];
            var c, d := s.sessions[id], t.sessions[id];
            && d.byes == (if how.sendBye && c.dialog != NoDialog then 1 else 0)
            && d.hangups == [how.reason]
            && d.readyCloses == 1
            && id !in t.byID && id !in t.sockets && id !in t.peers
            && (c.logID > 0 ==>
                  && c.logID <= |t.rows| == |s.rows|
                  && (endOk ==> t.rows[c.logID - 1].ends == 1
                                && t.rows[c.logID - 1].status == how.status && t.rows[c.logID - 1].reason == how.reason)
                  && (!endOk ==> c.logID in t.lost && !t.rows[c.logID - 1].ended))
  {
    var (how, endOk) := closers[0];
    SessionClosed(s, id, how, endOk);
    if s.sessions[id].logID > 0 { RowClosed(s, id, how, endOk); }
    hide Inv, Close;
    CloseAgain(Close(s, id, how, endOk), id, closers[1..]);
  }

  /** Events are only ever appended, and a closed session never changes again, whatever runs afterwards. */
  lemma {:induction false} HistoryIsFinal(s: State, ops: seq<Op>)
    requires Inv(s)
    ensures s.events <= Run(s, ops).events
    ensures forall k <- s.sessions :: s.sessions[k].closeOnce ==>
                                        k in Run(s, ops).sessions && Run(s, ops).sessions[k] == s.sessions[k]
    decreases ops
  {
    hide Inv, Step;
    if ops != [] {
      StepHistory(s, ops[0]);
      StepKeeps(s, ops[0]);
      HistoryIsFinal(Step(s, ops[0]), ops[1..]);
    }
  }

  lemma DialSame(s: State, id: nat, user: int, box: int, env: DialEnv)
    requires id in s.sessions
    ensures SameSessions(s, Dial(s, id, user, box, env).0, id)
  {
    hide Close;
  }

  lemma StartCallSame(s: State, user: int, box: int, number: string, env: DialEnv)
    ensures SameSessions(s, StartCall(s, user, box, number, env).0, s.next)
  {
    hide CreateWebRTCSide, Dial;
    var (s1, logID) := CreateLog(s, env.logOk, user, box, "dialing");
    var (s2, created) := CreateWebRTCSide(s1, env.media, logID, env.endOk);
    if created.Some? {
      DialSame(s2, created.value, user, box, env);
    }
  }

  lemma StepEvents(s: State, op: Op)
    ensures s.events <= Step(s, op).events
  {
    hide StartCall, AcceptIncoming, FinishInbound, RejectAndFinish, Close, RejectWithResponse;
  }

  lemma StepSessions(s: State, op: Op, k: nat)
    requires s.next !in s.sessions && k in s.sessions && s.sessions[k].closeOnce
    ensures k in Step(s, op).sessions && Step(s, op).sessions[k] == s.sessions[k]
  {
    if op.Dials? {
      StartCallSame(s, op.user, op.box, op.number, op.dialEnv);
    }
    hide StartCall, AcceptIncoming, FinishInbound, RejectAndFinish, EndLog, RejectWithResponse, Unregister;
  }

  lemma StepHistory(s: State, op: Op)
    requires Inv(s)
    ensures s.events <= Step(s, op).events
    ensures forall k <- s.sessions :: s.sessions[k].closeOnce ==>
                                        k in Step(s, op).sessions && Step(s, op).sessions[k] == s.sessions[k]
  {
    StepEvents(s, op);
    assert s.next !in s.sessions by {
      hide InvitesInv, RowsOk, UsersOk, OnceOnly, OpenExactly;
    }
    hide Inv, Step;
    forall k | k in s.sessions && s.sessions[k].closeOnce
      ensures k in Step(s, op).sessions && Step(s, op).sessions[k] == s.sessions[k]
    {
      StepSessions(s, op, k);
    }
  }

  // ----- call log, sockets and peer connections -----

  predicate EndsOk(op: Op) {
    match op
    case Dials(_, _, _, env) => env.endOk
    case Accepts(_, _, env) => env.endOk
    case Byes(_, endOk) => endOk
    case Closes(_, _, endOk) => endOk
    case _ => true
  }

  lemma {:induction false} NoneLost(s: State, ops: seq<Op>)
    requires forall op <- ops :: EndsOk(op)
    ensures Run(s, ops).lost == s.lost
    decreases ops
  {
    hide EndsOk, Step;
    if ops != [] {
      StepLosesNothing(s, ops[0]);
      NoneLost(Step(s, ops[0]), ops[1..]);
    }
  }

  lemma StepLosesNothing(s: State, op: Op)
    requires EndsOk(op)
    ensures Step(s, op).lost == s.lost
  {
    hide StartCall, AcceptIncoming, Close;
  }

  /** The un-ended rows are exactly those of live sessions, plus those whose ending update failed; no row is
      ended twice; and the open sockets and peer connections are exactly those of live sessions. */
  lemma LedgerConservation(ops: seq<Op>)
    ensures var s := Run(EMPTY, ops);
            && (forall n :: RowOpen(s.rows, n) <==>
                              n in s.lost || exists k :: k in s.byID && k in s.sessions && s.sessions[k].logID == n > 0)
            && (forall k <- s.byID :: k in s.sessions && s.sessions[k].logID !in s.lost)
            && (forall r <- s.rows :: r.ends == if r.ended then 1 else 0)
            && s.sockets == s.byID.Keys && s.peers == s.byID.Keys
            && ((forall op <- ops :: EndsOk(op)) ==> s.lost == {})
  {
    hide InvitesInv, Run;
    Reachable(ops);
    var s := Run(EMPTY, ops);
    LedgerRows(s);
    assert s.sockets == s.byID.Keys && s.peers == s.byID.Keys;
    if forall op <- ops :: EndsOk(op) {
      NoneLost(EMPTY, ops);
    }
  }

  lemma LedgerRows(s: State)
    requires CallsInv(s, {}, {})
    ensures forall n :: RowOpen(s.rows, n) <==>
                          n in s.lost || exists k :: k in s.byID && k in s.sessions && s.sessions[k].logID == n > 0
    ensures forall k <- s.byID :: k in s.sessions && s.sessions[k].logID !in s.lost
    ensures forall r <- s.rows :: r.ends == if r.ended then 1 else 0
  {
    hide OpenExactly, UsersOk, SipOk, OnceOnly;
    var m := LogMap(s.sessions, s.byID, {});
    forall n
      ensures RowOpen(s.rows, n) <==> n in OpenRows(s.rows)
    {}
    forall k | k in s.byID
      ensures s.sessions[k].logID > 0 ==> s.sessions[k].logID in Positive(m)
      ensures s.sessions[k].logID !in s.lost
    {
      assert m[k] == s.sessions[k].logID;
      assert 0 !in OpenRows(s.rows);
    }
  }
}
