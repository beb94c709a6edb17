/** What is fixed when an invite rings, and what a failed refusal leaves of it, over every run of whole handlers. */
module CallRinging {
  import opened Wrappers
  import opened CallModel
  import opened CallInvariants
  import opened CallPreservation
  import Strings
  import D = Database
  import H = StoreHistory

  // ----- an invite's addressees stay, and its timer is armed once -----

  ghost predicate Settled(v: Invite, w: Invite) {
    w.users == v.users && w.box == v.box && w.sipCallID == v.sipCallID && (w.armed ==> v.armed)
  }

  ghost predicate Kept(s: State, t: State) {
    t.invites.Keys == s.invites.Keys && forall i <- s.invites :: Settled(s.invites[i], t.invites[i])
  }

  lemma KeptThrough(s: State, t: State, u: State)
    requires Kept(s, t) && Kept(t, u)
    ensures Kept(s, u)
  {}

  lemma SameKept(s: State, t: State)
    requires t.invites == s.invites
    ensures Kept(s, t)
  {}

  lemma InviteKept(s: State, i: nat, w: Invite)
    requires i in s.invites && Settled(s.invites[i], w)
    ensures Kept(s, s.(invites := s.invites[i := w]))
  {}

  lemma FinishKept(s: State, inv: nat, reason: string)
    requires inv in s.invites
    ensures Kept(s, FinishInbound(s, inv, reason))
  {}

  lemma RejectKept(s: State, inv: nat, respondOk: bool, reason: string)
    requires inv in s.invites
    ensures Kept(s, RejectWithResponse(s, inv, respondOk).0)
    ensures Kept(s, RejectAndFinish(s, inv, respondOk, reason))
  {
    InviteKept(s, inv, Refused(s.invites[inv], respondOk).0);
    hide Kept, FinishInbound;
    var t := RejectWithResponse(s, inv, respondOk).0;
    FinishKept(t, inv, reason);
    KeptThrough(s, t, RejectAndFinish(s, inv, respondOk, reason));
  }

  lemma ConnectKept(s: State, id: nat, user: int, inv: nat, env: AcceptEnv)
    requires inv in s.invites && id in s.sessions
    ensures Kept(s, Connect(s, id, user, inv, env).0)
  {
    hide Kept, Close, Register, FinishInbound, RejectAndFinish;
    var t := Connect(s, id, user, inv, env).0;
    if !env.publicIP {
      var u := Close(s, id, Closer(false, "failed", "media public ip missing"), env.endOk);
      SameKept(s, u);
      RejectKept(u, inv, env.rejectOk, "media public ip missing");
      KeptThrough(s, u, t);
    } else {
      var i := s.invites[inv];
      var c := MarkReady(s.sessions[id].(user := user, box := i.box, dialog := ServerDialog));
      var s1 := s.(sessions := s.sessions[id := c]);
      if env.answerOk {
        ConnectedInvites(s1, id, inv);
        InviteKept(s, inv, i.(connected := true));
        SameKept(s.(invites := s.invites[inv := i.(connected := true)]), t);
        KeptThrough(s, s.(invites := s.invites[inv := i.(connected := true)]), t);
      } else {
        var u := Close(s1, id, Closer(false, "failed", "respond sip answer failed"), env.endOk);
        SameKept(s, u);
        FinishKept(u, inv, "sip answer failed");
        KeptThrough(s, u, t);
      }
    }
  }

  lemma ConnectedInvites(s: State, id: nat, inv: nat)
    requires inv in s.invites && id in s.sessions
    ensures var v := s.invites[inv].(connected := true);
            Register(s.(invites := s.invites[inv := v]), id, s.invites[inv].sipCallID).invites == s.invites[inv := v]
  {}

  lemma AnswerKept(s: State, user: int, inv: nat, env: AcceptEnv)
    requires inv in s.invites
    ensures Kept(s, Answer(s, user, inv, env).0)
  {
    hide Kept, CreateWebRTCSide, Connect, RejectAndFinish;
    var (s1, logID) := CreateLog(s, env.logOk, user, s.invites[inv].box, "connecting");
    var (s2, created) := CreateWebRTCSide(s1, env.media, logID, env.endOk);
    SameKept(s, s2);
    if created.None? {
      RejectKept(s2, inv, env.rejectOk, "accept failed");
    } else {
      ConnectKept(s2, created.value, user, inv, env);
    }
    KeptThrough(s, s2, Answer(s, user, inv, env).0);
  }

  lemma AcceptKept(s: State, user: int, inv: nat, env: AcceptEnv)
    ensures Kept(s, AcceptIncoming(s, user, inv, env).0)
  {
    hide Kept, Answer;
    SameKept(s, s);
    if inv in s.incoming && s.incoming[inv] in s.invites {
      var k := s.incoming[inv];
      var v := s.invites[k].(answeredBy := user, armed := false);
      var s1 := s.(invites := s.invites[k := v]);
      InviteKept(s, k, v);
      AnswerKept(s1, user, k, env);
      KeptThrough(s, s1, Answer(s1, user, k, env).0);
    }
  }

  lemma RejectIncomingKept(s: State, user: int, inv: nat, reason: string, respondOk: bool)
    ensures Kept(s, RejectIncoming(s, user, inv, reason, respondOk).0)
  {
    hide Kept, FinishInbound, RejectWithResponse;
    SameKept(s, s);
    if inv in s.incoming && s.incoming[inv] in s.invites {
      var k := s.incoming[inv];
      var s1 := RejectWithResponse(s, k, respondOk).0;
      RejectKept(s, k, respondOk, "");
      FinishKept(s1, k, if Strings.Trim(reason) == "" then "declined" else reason);
      KeptThrough(s, s1, FinishInbound(s1, k, if Strings.Trim(reason) == "" then "declined" else reason));
    }
  }

  /** The handler rings the next invite, for the users of its environment. */
  ghost predicate RingsNew(s: State, op: Op, t: State) {
    && op.Arrives? && Rings(op.ringEnv)
    && s.next in t.invites && t.invites == s.invites[s.next := t.invites[s.next]]
    && t.invites[s.next].users == op.ringEnv.users.value && t.invites[s.next].box == op.box
  }

  lemma StepKept(s: State, op: Op)
    ensures Kept(s, Step(s, op)) || RingsNew(s, op, Step(s, op))
  {
    SameKept(s, s);
    hide Kept, StartCall, AcceptIncoming, RejectIncoming, Close, FinishInbound, RejectAndFinish;
    match op
    case Dials(user, box, number, env) => SameKept(s, Step(s, op));
    case Arrives(box, sipCallID, env) =>
    case Accepts(user, inv, env) => AcceptKept(s, user, inv, env);
    case Rejects(user, inv, reason, respondOk) => RejectIncomingKept(s, user, inv, reason, respondOk);
    case Expires(inv, respondOk) => if inv in s.invites { RejectKept(s, inv, respondOk, "timeout"); }
    case Cancels(inv) => if inv in s.invites { FinishKept(s, inv, "remote canceled"); }
    case Byes(callID, endOk) => SameKept(s, Step(s, op));
    case Closes(session, how, endOk) => SameKept(s, Step(s, op));
  }

  lemma NextIsNew(s: State)
    requires Inv(s)
    ensures s.next !in s.invites
  {
    hide CallsInv, TracesOk;
  }

  // ----- over runs -----

  /** Handler `n` of the run rang the invite. */
  ghost predicate RungBy(s: State, ops: seq<Op>, n: nat, inv: nat, v: Invite) {
    && n < |ops| && ops[n].Arrives? && Rings(ops[n].ringEnv) && Run(s, ops[..n]).next == inv
    && v.users == ops[n].ringEnv.users.value && v.box == ops[n].box
  }

  lemma RungLater(s: State, ops: seq<Op>, n: nat, inv: nat, v: Invite)
    requires ops != [] && RungBy(Step(s, ops[0]), ops[1..], n, inv, v)
    ensures RungBy(s, ops, n + 1, inv, v)
  {
    hide Step;
    assert ops[..n + 1][1..] == ops[1..][..n];
  }

  lemma SettledThrough(u: Invite, v: Invite, w: Invite)
    requires Settled(u, v) && Settled(v, w)
    ensures Settled(u, w)
  {}

  /** After one handler an invite is as it was, or has just been rung. */
  lemma StepSettles(s: State, op: Op, inv: nat)
    requires Inv(s) && inv in Step(s, op).invites
    ensures var t := Step(s, op);
            if inv in s.invites then Settled(s.invites[inv], t.invites[inv])
            else op.Arrives? && Rings(op.ringEnv) && inv == s.next
                 && t.invites[inv].users == op.ringEnv.users.value && t.invites[inv].box == op.box
  {
    StepKept(s, op);
    NextIsNew(s);
    hide Inv, Step, Rings;
  }

  lemma RungFirst(s: State, ops: seq<Op>, inv: nat, v: Invite, w: Invite)
    requires ops != [] && ops[0].Arrives? && Rings(ops[0].ringEnv) && inv == s.next
    requires v.users == ops[0].ringEnv.users.value && v.box == ops[0].box && Settled(v, w)
    ensures RungBy(s, ops, 0, inv, w)
  {
    assert Run(s, ops[..0]) == s;
  }

  /** Every invite was there before, as it was, or was rung by one handler of the run. */
  lemma {:induction false} RunSettles(s: State, ops: seq<Op>, inv: nat)
    requires Inv(s) && inv in Run(s, ops).invites
    ensures var v := Run(s, ops).invites[inv];
            if inv in s.invites then Settled(s.invites[inv], v) else exists n: nat :: RungBy(s, ops, n, inv, v)
    decreases ops
  {
    hide Inv, Step, Rings, RungBy;
    if ops != [] {
      var t, v := Step(s, ops[0]), Run(s, ops).invites[inv];
      StepKeeps(s, ops[0]);
      RunSettles(t, ops[1..], inv);
      hide Settled;
      if inv !in t.invites {
        StepKeepsKnown(s, ops[0], inv);
        var n: nat :| RungBy(t, ops[1..], n, inv, v);
        RungLater(s, ops, n, inv, v);
      } else {
        StepSettles(s, ops[0], inv);
        if inv in s.invites {
          SettledThrough(s.invites[inv], t.invites[inv], v);
        } else {
          RungFirst(s, ops, inv, t.invites[inv], v);
        }
      }
    }
  }

  lemma StepKeepsKnown(s: State, op: Op, inv: nat)
    ensures inv in s.invites ==> inv in Step(s, op).invites
  {
    StepKept(s, op);
    hide Step;
  }

  /** The addressees and the box of every invite are, for its whole life, those of the handler that rang it. */
  lemma RingFixesUsers(ops: seq<Op>, inv: nat)
    requires inv in Run(EMPTY, ops).invites
    ensures exists n: nat :: RungBy(EMPTY, ops, n, inv, Run(EMPTY, ops).invites[inv])
  {
    EmptyInv();
    hide Inv, Run;
    RunSettles(EMPTY, ops, inv);
  }

  function UsersToRing(db: D.Db, box: int): set<int> {
    set u | u in db.users && D.RungFor(db, box, u)
  }

  /** Each handler that rings asks the store as it is then. */
  ghost predicate AsksTheStore(ops: seq<Op>, dbs: seq<D.Db>) {
    && |dbs| == |ops|
    && forall n :: 0 <= n < |ops| && ops[n].Arrives? && ops[n].ringEnv.users.Some? ==>
                     ops[n].ringEnv.users.value == UsersToRing(dbs[n], ops[n].box)
  }

  /** So an invite is addressed, at any later time, to exactly the users the store listed for its box when it rang. */
  lemma UsersAreTheStoresAnswer(ops: seq<Op>, dbs: seq<D.Db>, inv: nat)
    requires AsksTheStore(ops, dbs) && inv in Run(EMPTY, ops).invites
    ensures var v := Run(EMPTY, ops).invites[inv];
            exists n: nat :: RungBy(EMPTY, ops, n, inv, v) && forall u :: u in v.users <==> D.RungFor(dbs[n], v.box, u)
  {
    RingFixesUsers(ops, inv);
    hide Run;
    var v := Run(EMPTY, ops).invites[inv];
    var n: nat :| RungBy(EMPTY, ops, n, inv, v);
    assert v.users == UsersToRing(dbs[n], v.box);
  }

  /** Whether the user is an admin or last allowed to receive, and did not last decline notice. */
  ghost predicate Wanted(h: seq<H.Op>, u: int, box: int) {
    (H.AdminOf(h, u) || H.ReceiveOf(H.Writes(h, u, box))) && H.NotifyOf(H.Writes(h, u, box))
  }

  lemma WantedIffRung(h: seq<H.Op>, u: int, box: int)
    requires H.Known(h, u, box)
    ensures D.RungFor(H.Run(h), box, u) <==> Wanted(h, u, box)
  {
    H.QueriesAgree(h, u, box, false, 0);
  }

  /** In terms of all that was ever asked of the store: to the admins and the users last allowed to receive, less
      those who last declined notice. */
  lemma UsersFollowTheHistory(ops: seq<Op>, dbs: seq<D.Db>, hs: seq<seq<H.Op>>, inv: nat)
    requires AsksTheStore(ops, dbs) && |hs| == |dbs| && forall n :: 0 <= n < |hs| ==> dbs[n] == H.Run(hs[n])
    requires inv in Run(EMPTY, ops).invites
    ensures var v := Run(EMPTY, ops).invites[inv];
            exists n: nat :: RungBy(EMPTY, ops, n, inv, v) && n < |hs|
                        && forall u :: H.Known(hs[n], u, v.box) ==> (u in v.users <==> Wanted(hs[n], u, v.box))
  {
    UsersAreTheStoresAnswer(ops, dbs, inv);
    var v := Run(EMPTY, ops).invites[inv];
    var n: nat :| RungBy(EMPTY, ops, n, inv, v) && forall u :: u in v.users <==> D.RungFor(dbs[n], v.box, u);
    hide Run, D.RungFor, H.Known, Wanted, H.Run;
    forall u | H.Known(hs[n], u, v.box)
      ensures u in v.users <==> Wanted(hs[n], u, v.box)
    {
      WantedIffRung(hs[n], u, v.box);
    }
  }

  // ----- a refusal that could not be sent -----

  /** A timer that is off stays off. */
  lemma DisarmedForEver(s: State, ops: seq<Op>, inv: nat)
    requires Inv(s) && inv in s.invites && !s.invites[inv].armed
    ensures inv in Run(s, ops).invites && !Run(s, ops).invites[inv].armed
  {
    hide Inv;
    InvitesStay(s, ops, inv);
    RunSettles(s, ops, inv);
  }

  lemma {:induction false} InvitesStay(s: State, ops: seq<Op>, inv: nat)
    requires inv in s.invites
    ensures inv in Run(s, ops).invites
    decreases ops
  {
    if ops != [] {
      StepKept(s, ops[0]);
      hide Step;
      InvitesStay(Step(s, ops[0]), ops[1..], inv);
    }
  }

  lemma RefusedByUser(s: State, user: int, inv: nat, reason: string, respondOk: bool)
    requires InvitesInv(s) && inv in s.incoming && inv in s.invites && user in s.invites[inv].users
    ensures var (t, r) := RejectIncoming(s, user, inv, reason, respondOk);
            && (inv !in t.incoming <==> respondOk) && (r.Ok? <==> respondOk)
            && inv in t.invites && !t.invites[inv].armed
  {
    hide InvitesOk;
    PendingInvite(s, inv);
  }

  /** A reject by an addressee ends a pending invite if and only if the SIP response went out. If it did not, the
      invite stays, and whatever handlers run afterwards its timer never fires again. */
  lemma RejectEndsIffResponded(s: State, user: int, inv: nat, reason: string, respondOk: bool)
    requires Inv(s) && inv in s.incoming && inv in s.invites && user in s.invites[inv].users
    ensures var (t, r) := RejectIncoming(s, user, inv, reason, respondOk);
            && (inv !in t.incoming <==> respondOk)
            && (r.Ok? <==> respondOk)
            && forall ops, again :: TimerFires(Run(t, ops), inv, again) == Run(t, ops)
  {
    RefusedByUser(s, user, inv, reason, respondOk);
    RejectIncomingKeeps(s, user, inv, reason, respondOk);
    hide Inv, RejectIncoming;
    NeverFires(RejectIncoming(s, user, inv, reason, respondOk).0, inv);
  }

  lemma NeverFires(t: State, inv: nat)
    requires Inv(t) && inv in t.invites && !t.invites[inv].armed
    ensures forall ops, again :: TimerFires(Run(t, ops), inv, again) == Run(t, ops)
  {
    hide Inv, Run, RejectAndFinish;
    forall ops, again: bool
      ensures TimerFires(Run(t, ops), inv, again) == Run(t, ops)
    {
      DisarmedForEver(t, ops, inv);
    }
  }
}
