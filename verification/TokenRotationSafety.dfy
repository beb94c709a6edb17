/** What the rotation of refresh tokens guarantees in every interleaving, and what a lost reply breaks. */
module TokenRotationSafety {
  import opened Wrappers
  import opened TokenRotation

  ghost predicate Reachable(w: World) {
    exists actions :: w == Run(LOGGED_IN, actions)
  }

  lemma {:induction false} RunKeeps(w: World, actions: seq<Action>)
    requires Inv(w)
    ensures Inv(Run(w, actions))
    decreases actions
  {
    hide Inv, Act;
    if actions != [] {
      ActKeeps(w, actions[0]);
      RunKeeps(Act(w, actions[0]), actions[1..]);
    }
  }

  lemma LoggedInKeeps()
    ensures Inv(LOGGED_IN)
  {}

  lemma ReachableKeeps(w: World)
    requires Reachable(w)
    ensures Inv(w)
  {
    hide Inv, Run;
    var actions :| w == Run(LOGGED_IN, actions);
    LoggedInKeeps();
    RunKeeps(LOGGED_IN, actions);
  }

  /** Lock-step: while no rotation is on its way to the client, the row holds the digest of the client's refresh
      token if and only if no rotation was ever lost. */
  lemma LockStep(w: World)
    requires Reachable(w) && w.shared.session.Some? && w.shared.pending.None?
    ensures w.shared.server.row == Hash(w.shared.session.value.refresh) <==> !w.shared.lost
  {
    ReachableKeeps(w);
  }

  /** A rotation is on its way only while its request holds the mutex, and one request holds it at a time. */
  lemma OneRefreshAtATime(w: World, t: nat, u: nat)
    requires Reachable(w) && t in w.threads && u in w.threads
    ensures Holds(w.threads[t]) && Holds(w.threads[u]) ==> t == u
    ensures w.shared.pending.Some? ==>
              exists v <- w.threads :: Holds(w.threads[v]) && w.threads[v].Replied? && w.threads[v].reply == Rotated(w.shared.pending.value)
  {
    ReachableKeeps(w);
    if w.shared.pending.Some? {
      var v := w.shared.mutex.value;
      assert ThreadOk(w.shared, v, w.threads[v]);
    }
  }

  /** The server refuses a refresh exactly when the row is dead, a rotation was lost, or its own lookup fails: never
      because of a rotation the client knows of. It rotates exactly when none of that holds and issuing works. */
  lemma RefusedIff(w: World, t: nat, fault: Fault)
    requires Reachable(w) && t in w.threads && w.threads[t].InFlight?
    ensures var reply := HandleRefresh(w.shared.server, w.threads[t].sent, fault).1;
            && (reply.Unauthorized? <==> !w.shared.server.alive || w.shared.lost || fault.LookupFault?)
            && (reply.Rotated? <==> w.shared.server.alive && !w.shared.lost && fault.NoFault?)
  {
    ReachableKeeps(w);
    assert ThreadOk(w.shared, t, w.threads[t]);
  }

  lemma {:induction false} ChainAscends(saves: seq<Save>, session: Option<Tokens>, i: nat, j: nat)
    requires Chain(saves, session) && i < j < |saves|
    ensures saves[i].to.access <= saves[j].from.access
    decreases j
  {
    if i + 1 < j {
      ChainAscends(saves, session, i, j - 1);
    }
  }

  /** At most one refresh succeeds per access token: the tokens with which the saved refreshes' requests were sent
      ascend strictly, and each refresh replaces the session of the one before it. */
  lemma OncePerAccessToken(w: World, i: nat, j: nat)
    requires Reachable(w) && i < j < |w.shared.saves|
    ensures w.shared.saves[i].captured < w.shared.saves[j].captured
    ensures w.shared.saves[i].to == w.shared.saves[i + 1].from
  {
    ReachableKeeps(w);
    ChainAscends(w.shared.saves, w.shared.session, i, j);
  }

  /** Every rotation of the server was saved by the client, is on its way to it, or is the one that was lost. */
  lemma RotationsConserved(w: World)
    requires Reachable(w)
    ensures w.shared.server.issued == |w.shared.saves| + One(w.shared.lost) + One(w.shared.pending.Some?)
    ensures !(w.shared.lost && w.shared.pending.Some?)
  {
    ReachableKeeps(w);
  }

  /** A request is repeated with a newer access token than it was first sent with, and refreshes at most three times. */
  lemma RetriedWithNewerToken(w: World, t: nat)
    requires Reachable(w) && t in w.threads
    ensures w.threads[t].Retry? ==> w.threads[t].access < w.threads[t].again
    ensures w.threads[t].Attempt? || w.threads[t].InFlight? || w.threads[t].Replied? ==> w.threads[t].k < 3
  {
    ReachableKeeps(w);
    assert ThreadOk(w.shared, t, w.threads[t]);
  }

  // ----- reliable replies -----

  /** Nothing is lost or cancelled, the row stays alive and the server can read it; issuing a session may fail. */
  predicate Reliable(a: Action) {
    match a
    case Step(_, c) => c.delivered && !c.fault.LookupFault?
    case Cancel(_) => false
    case Revoke => false
    case _ => true
  }

  /** The request was not refused a refresh and did not find itself logged out. */
  predicate Undisturbed(pc: Pc) {
    && (pc.Replied? ==> !pc.reply.Unauthorized?)
    && (pc.Unlock? ==> !pc.r.AuthError?)
    && (pc.Done? ==> pc.result != RefreshFailed(AuthError) && !pc.result.NotLoggedIn?)
  }

  ghost predicate Sound(w: World) {
    && w.shared.session.Some? && !w.shared.lost && w.shared.server.alive && w.shared.stray == {}
    && forall t <- w.threads :: Undisturbed(w.threads[t])
  }

  lemma FreeSound(s: Shared, t: nat, pc: Pc, c: Choice)
    requires s.session.Some? && Undisturbed(pc)
    ensures var (s', pc') := ExecFree(s, t, pc, c);
            s' == s.(mutex := s'.mutex) && Undisturbed(pc')
  {}

  lemma HolderSound(s: Shared, t: nat, pc: Pc, c: Choice)
    requires SharedOk(s) && ThreadOk(s, t, pc) && Undisturbed(pc) && Holds(pc)
    requires s.session.Some? && !s.lost && s.server.alive && c.delivered && !c.fault.LookupFault?
    ensures var (s', pc') := ExecHolder(s, pc, c);
            s'.session.Some? && !s'.lost && s'.server.alive && s'.stray == s.stray && Undisturbed(pc')
  {
    hide Chain;
  }

  lemma ActSound(w: World, a: Action)
    requires Inv(w) && Sound(w) && Reliable(a)
    ensures Sound(Act(w, a))
  {
    hide SharedOk, ThreadOk, Undisturbed, ExecFree, ExecHolder;
    match a
    case Spawn(t) =>
      StartUndisturbed();
    case Step(t, c) =>
      if t in w.threads {
        if Holds(w.threads[t]) {
          HolderSound(w.shared, t, w.threads[t], c);
        } else {
          FreeSound(w.shared, t, w.threads[t], c);
        }
      }
    case ExpireAccess(access) =>
    case Straggle(sent, fault) =>
  }

  lemma StartUndisturbed()
    ensures Undisturbed(Start)
  {}

  lemma {:induction false} RunSound(w: World, actions: seq<Action>)
    requires Inv(w) && Sound(w) && forall a <- actions :: Reliable(a)
    ensures Sound(Run(w, actions))
    decreases actions
  {
    hide Inv, Sound, Act, Reliable;
    if actions != [] {
      ActSound(w, actions[0]);
      ActKeeps(w, actions[0]);
      RunSound(Act(w, actions[0]), actions[1..]);
    }
  }

  /** With reliable replies, in every interleaving of any number of requests, the client stays logged in, its refresh
      token is the one the server stores whenever no refresh is on its way, and no request is refused a refresh. */
  lemma ReliableLockStep(actions: seq<Action>)
    requires forall a <- actions :: Reliable(a)
    ensures var w := Run(LOGGED_IN, actions);
            && w.shared.session.Some?
            && (w.shared.pending.None? ==> w.shared.server.row == Hash(w.shared.session.value.refresh))
            && forall t <- w.threads :: w.threads[t] != Done(RefreshFailed(AuthError)) && w.threads[t] != Done(NotLoggedIn)
  {
    hide Run, Reliable;
    LoggedInKeeps();
    RunSound(LOGGED_IN, actions);
    RunKeeps(LOGGED_IN, actions);
  }

  // ----- a lost reply -----

  /** Nothing is saved or issued any more. */
  ghost predicate Stuck(w: World, saves: seq<Save>, issued: nat) {
    w.shared.lost && w.shared.saves == saves && w.shared.server.issued == issued
  }

  lemma HolderStuck(s: Shared, t: nat, pc: Pc, c: Choice)
    requires SharedOk(s) && ThreadOk(s, t, pc) && Holds(pc) && s.lost
    ensures var s' := ExecHolder(s, pc, c).0;
            s'.lost && s'.saves == s.saves && s'.server.issued == s.server.issued
  {
    hide Chain;
  }

  lemma ActStuck(w: World, a: Action)
    requires Inv(w) && w.shared.lost
    ensures Stuck(Act(w, a), w.shared.saves, w.shared.server.issued)
  {
    hide Chain, ExecHolder, ThreadOk;
    if a.Step? && a.t in w.threads && Holds(w.threads[a.t]) {
      HolderStuck(w.shared, a.t, w.threads[a.t], a.choice);
    }
  }

  /** Once a rotation is lost no refresh ever succeeds again, in any continuation. */
  lemma {:induction false} LossIsFinal(w: World, actions: seq<Action>)
    requires Inv(w) && w.shared.lost
    ensures Stuck(Run(w, actions), w.shared.saves, w.shared.server.issued)
    decreases actions
  {
    hide Inv, Act;
    if actions != [] {
      ActStuck(w, actions[0]);
      ActKeeps(w, actions[0]);
      LossIsFinal(Act(w, actions[0]), actions[1..]);
    }
  }

  lemma RunFour(w: World, a: Action, b: Action, c: Action, d: Action)
    ensures Run(w, [a, b, c, d]) == Act(Act(Act(Act(w, a), b), c), d)
  {
    hide Act;
    var w1, w2, w3 := Act(w, a), Act(Act(w, a), b), Act(Act(Act(w, a), b), c);
    assert [a, b, c, d][1..] == [b, c, d] && [b, c, d][1..] == [c, d] && [c, d][1..] == [d];
    assert Run(w3, [d]) == Run(Act(w3, d), []);
    assert Run(w2, [c, d]) == Run(w3, [d]);
    assert Run(w1, [b, c, d]) == Run(w2, [c, d]);
  }

  /** If the reply to a rotation is lost and the same request tries again, the client is logged out, although the
      row is alive and the server never fails. */
  lemma LostReplyLogsOut(w: World, t: nat)
    requires Reachable(w) && t in w.threads && w.threads[t].Replied? && w.threads[t].reply.Rotated? && w.threads[t].k < 2
    requires w.shared.server.alive
    ensures var lose, go := Step(t, Choice(false, NoFault)), Step(t, Choice(true, NoFault));
            var w' := Run(w, [lose, go, go, go]);
            w'.shared.session.None? && w'.shared.server.alive
            && t in w'.threads && w'.threads[t] == Unlock(w.threads[t].access, AuthError)
  {
    var lose, go := Step(t, Choice(false, NoFault)), Step(t, Choice(true, NoFault));
    RunFour(w, lose, go, go, go);
    ReachableKeeps(w);
    hide Run, Chain, ExecFree;
    var Replied(a, k, reply) := w.threads[t];
    assert ThreadOk(w.shared, t, w.threads[t]);
    var w1 := Act(w, lose);
    assert w1.threads[t] == Attempt(a, k + 1) && w1.shared.lost;
    var w2 := Act(w1, go);
    assert w2.threads[t] == InFlight(a, k + 1, w.shared.session.value.refresh);
    var w3 := Act(w2, go);
    assert w3.threads[t] == Replied(a, k + 1, Unauthorized);
  }
}
