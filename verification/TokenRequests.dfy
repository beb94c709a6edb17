/** What becomes of one authenticated request: why it ends as it does, and that it succeeds when nothing goes wrong. */
module TokenRequests {
  import opened Wrappers
  import opened TokenRotation
  import opened TokenRotationSafety

  // ----- why a request ends as it does -----

  /** The request has been sent with this access token and its answer is awaited. */
  function SentWith(pc: Pc): Option<nat> {
    match pc
    case Send(a) => Some(a)
    case Retry(_, b) => Some(b)
    case _ => None
  }

  /** Action `a`, in `w`, ends the request with this result. */
  ghost predicate EndsWith(w: World, a: Action, t: nat, result: TokenRotation.Result) {
    && t in w.threads
    && var pc := w.threads[t];
       match result
       case Cancelled => a == Cancel(t) && !pc.Done?
       case Answered =>
         a.Step? && a.t == t && a.choice.delivered && SentWith(pc).Some? && SentWith(pc).value !in w.shared.expired
       case StillUnauthorized =>
         a.Step? && a.t == t && a.choice.delivered && pc.Retry? && pc.again in w.shared.expired
       case NetworkError => a.Step? && a.t == t && !a.choice.delivered && SentWith(pc).Some?
       case NotLoggedIn => a.Step? && a.t == t && w.shared.session.None? && (pc.Start? || pc.Reread?)
       case RefreshFailed(r) => a.Step? && a.t == t && pc.Unlock? && pc.r == r && !r.Refreshed?
  }

  lemma StepEnds(w: World, a: Action, t: nat)
    requires t in w.threads ==> !w.threads[t].Done?
    requires t in Act(w, a).threads && Act(w, a).threads[t].Done?
    ensures EndsWith(w, a, t, Act(w, a).threads[t].result)
  {}

  lemma DoneStays(w: World, a: Action, t: nat)
    requires t in w.threads && w.threads[t].Done?
    ensures t in Act(w, a).threads && Act(w, a).threads[t] == w.threads[t]
  {}

  lemma {:induction false} RunDone(w: World, actions: seq<Action>, t: nat)
    requires t in w.threads && w.threads[t].Done?
    ensures t in Run(w, actions).threads && Run(w, actions).threads[t] == w.threads[t]
    decreases actions
  {
    hide Act;
    if actions != [] {
      DoneStays(w, actions[0], t);
      RunDone(Act(w, actions[0]), actions[1..], t);
    }
  }

  /** Some action of the run, where it stands, ends the request so. */
  ghost predicate Ended(w: World, actions: seq<Action>, t: nat, result: TokenRotation.Result) {
    exists n | 0 <= n < |actions| :: EndsWith(Run(w, actions[..n]), actions[n], t, result)
  }

  lemma EndedLater(w: World, actions: seq<Action>, t: nat, result: TokenRotation.Result)
    requires actions != [] && Ended(Act(w, actions[0]), actions[1..], t, result)
    ensures Ended(w, actions, t, result)
  {
    hide Act, EndsWith;
    var n :| 0 <= n < |actions| - 1 && EndsWith(Run(Act(w, actions[0]), actions[1..][..n]), actions[1..][n], t, result);
    assert actions[..n + 1][1..] == actions[1..][..n];
    assert EndsWith(Run(w, actions[..n + 1]), actions[n + 1], t, result);
  }

  lemma {:induction false} EndsForAReason(w: World, actions: seq<Action>, t: nat)
    requires t in w.threads ==> !w.threads[t].Done?
    requires t in Run(w, actions).threads && Run(w, actions).threads[t].Done?
    ensures Ended(w, actions, t, Run(w, actions).threads[t].result)
    decreases actions
  {
    hide Act, EndsWith, Ended;
    if actions != [] {
      var u := Act(w, actions[0]);
      if t in u.threads && u.threads[t].Done? {
        StepEnds(w, actions[0], t);
        RunDone(u, actions[1..], t);
        EndedNow(w, actions, t, u.threads[t].result);
      } else {
        EndsForAReason(u, actions[1..], t);
        EndedLater(w, actions, t, Run(w, actions).threads[t].result);
      }
    }
  }

  lemma EndedNow(w: World, actions: seq<Action>, t: nat, result: TokenRotation.Result)
    requires actions != [] && EndsWith(w, actions[0], t, result)
    ensures Ended(w, actions, t, result)
  {
    hide EndsWith;
    assert Run(w, actions[..0]) == w;
  }

  /** In every run, whatever a request ends with has its one cause: it is answered when it is delivered with a token
      that has not expired, and unauthorized still when its repetition is delivered with one that has. */
  lemma EveryEndHasItsCause(actions: seq<Action>, t: nat)
    requires t in Run(LOGGED_IN, actions).threads && Run(LOGGED_IN, actions).threads[t].Done?
    ensures Ended(LOGGED_IN, actions, t, Run(LOGGED_IN, actions).threads[t].result)
  {
    hide Run, Ended;
    EndsForAReason(LOGGED_IN, actions, t);
  }

  // ----- a request that runs alone -----

  const GO := Choice(true, NoFault)

  /** Request `t` takes `n` steps on its own; everything arrives and the server does not fail. */
  function Alone(w: World, t: nat, n: nat): World {
    if n == 0 then w else Act(Alone(w, t, n - 1), Step(t, GO))
  }

  /** Logged in, with no rotation lost, a live row, and nobody refreshing. */
  ghost predicate Calm(w: World) {
    && Inv(w) && w.shared.session.Some? && !w.shared.lost && w.shared.server.alive && w.shared.mutex.None?
  }

  lemma CalmIs(w: World)
    requires Calm(w)
    ensures var s := w.shared;
            && s.server.row == Hash(s.session.value.refresh) && s.pending.None? && s.server.next !in s.expired
  {
    hide Chain, ThreadOk;
  }

  /** The request's own steps outside the mutex, and inside it. */
  lemma FreeStep(w: World, t: nat)
    requires t in w.threads && !Holds(w.threads[t])
    ensures var (s, pc) := ExecFree(w.shared, t, w.threads[t], GO);
            Act(w, Step(t, GO)) == World(s, w.threads[t := pc])
  {
    hide ExecFree;
  }

  lemma HolderStep(w: World, t: nat)
    requires t in w.threads && Holds(w.threads[t])
    ensures var (s, pc) := ExecHolder(w.shared, w.threads[t], GO);
            Act(w, Step(t, GO)) == World(s, w.threads[t := pc])
  {
    hide ExecHolder;
  }

  lemma {:induction false} AloneKeeps(w: World, t: nat, n: nat)
    requires Inv(w)
    ensures Inv(Alone(w, t, n))
  {
    hide Inv, Act;
    if n > 0 {
      AloneKeeps(w, t, n - 1);
      ActKeeps(Alone(w, t, n - 1), Step(t, GO));
    }
  }

  lemma {:induction false} AloneInTwo(w: World, t: nat, m: nat, n: nat)
    ensures Alone(w, t, m + n) == Alone(Alone(w, t, m), t, n)
  {
    hide Act;
    if n > 0 { AloneInTwo(w, t, m, n - 1); }
  }

  lemma DoneAlone(w: World, t: nat, n: nat)
    requires t in w.threads && w.threads[t].Done?
    ensures Alone(w, t, n) == w
  {
    if n > 0 { DoneAlone(w, t, n - 1); }
  }

  /** From the mutex to the reply: a request that finds its own token unchanged asks for new ones and gets them. */
  lemma RefreshesAlone(w: World, t: nat)
    requires Calm(w) && t in w.threads && w.threads[t].WaitLock?
    requires w.shared.session.value.access == w.threads[t].access
    ensures var s, a := w.shared, w.threads[t].access;
            var issued := Tokens(s.server.next, s.server.next + 1);
            var server := s.server.(row := Hash(issued.refresh), next := s.server.next + 2, issued := s.server.issued + 1);
            Alone(w, t, 5) == World(SaveSession(s.(mutex := Some(t), server := server), a, s.session.value, issued),
                                    w.threads[t := Unlock(a, Refreshed)])
  {
    CalmIs(w);
    hide Inv, Act, Alone;
    var s, a := w.shared, w.threads[t].access;
    var w1 := World(s.(mutex := Some(t)), w.threads[t := Compare(a)]);
    var w2 := World(w1.shared, w.threads[t := Attempt(a, 0)]);
    var w3 := World(w1.shared, w.threads[t := InFlight(a, 0, s.session.value.refresh)]);
    FreeStep(w, t);
    HolderStep(w1, t);
    HolderStep(w2, t);
    assert w1.threads[t := Attempt(a, 0)] == w2.threads && w2.threads[t := w3.threads[t]] == w3.threads;
    AloneFive(w, t);
    AnsweredAlone(w3, t);
  }

  lemma AloneFive(w: World, t: nat)
    ensures var go := Step(t, GO); Alone(w, t, 5) == Act(Act(Act(Act(Act(w, go), go), go), go), go)
    ensures var go := Step(t, GO); Alone(w, t, 3) == Act(Act(Act(w, go), go), go)
  {
    hide Act;
    var go := Step(t, GO);
    assert Alone(w, t, 0) == w && Alone(w, t, 1) == Act(w, go);
    assert Alone(w, t, 2) == Act(Act(w, go), go);
    assert Alone(w, t, 4) == Act(Alone(w, t, 3), go);
  }

  lemma AnsweredAlone(w: World, t: nat)
    requires t in w.threads && w.threads[t].InFlight? && w.shared.session.Some? && w.shared.server.alive
    requires w.shared.server.row == Hash(w.threads[t].sent)
    ensures var s, a, go := w.shared, w.threads[t].access, Step(t, GO);
            var issued := Tokens(s.server.next, s.server.next + 1);
            var server := s.server.(row := Hash(issued.refresh), next := s.server.next + 2, issued := s.server.issued + 1);
            Act(Act(w, go), go) == World(SaveSession(s.(server := server), a, s.session.value, issued),
                                         w.threads[t := Unlock(a, Refreshed)])
  {
    hide Act;
    var s, a, k := w.shared, w.threads[t].access, w.threads[t].k;
    var issued := Tokens(s.server.next, s.server.next + 1);
    var server := s.server.(row := Hash(issued.refresh), next := s.server.next + 2, issued := s.server.issued + 1);
    HolderStep(w, t);
    var w1 := Act(w, Step(t, GO));
    assert w1 == World(s.(server := server, pending := Some(issued)), w.threads[t := Replied(a, k, Rotated(issued))]);
    HolderStep(w1, t);
    assert w1.threads[t := Unlock(a, Refreshed)] == w.threads[t := Unlock(a, Refreshed)];
  }

  /** From the release of the mutex to the end: the request is repeated with the token of the session. */
  lemma RepeatsAlone(w: World, t: nat)
    requires t in w.threads && w.threads[t].Unlock? && w.threads[t].r.Refreshed? && w.shared.session.Some?
    ensures var s := w.shared;
            Alone(w, t, 3) == World(s.(mutex := None),
                                    w.threads[t := Done(if s.session.value.access in s.expired then StillUnauthorized else Answered)])
  {
    hide Act, Alone;
    var s, a, b := w.shared, w.threads[t].access, w.shared.session.value.access;
    var w1 := World(s.(mutex := None), w.threads[t := Reread(a)]);
    var w2 := World(w1.shared, w.threads[t := Retry(a, b)]);
    HolderStep(w, t);
    FreeStep(w1, t);
    FreeStep(w2, t);
    assert w1.threads[t := Retry(a, b)] == w2.threads;
    AloneFive(w, t);
    var end := Done(if b in s.expired then StillUnauthorized else Answered);
    assert w2.threads[t := end] == w.threads[t := end];
  }

  lemma GetsItsOwn(w: World, t: nat)
    requires Calm(w) && t in w.threads && w.threads[t].WaitLock?
    requires w.shared.session.value.access == w.threads[t].access
    ensures var s, a, u := w.shared, w.threads[t].access, Alone(w, t, 8);
            var tokens := Tokens(s.server.next, s.server.next + 1);
            && u.threads == w.threads[t := Done(Answered)]
            && u.shared.server == Server(Hash(tokens.refresh), true, s.server.next + 2, s.server.issued + 1)
            && u.shared.session == Some(tokens) && u.shared.saves == s.saves + [Save(a, s.session.value, tokens)]
            && u.shared.lost == s.lost && u.shared.mutex.None? && u.shared.expired == s.expired
  {
    hide Inv, Act, Alone;
    CalmIs(w);
    RefreshesAlone(w, t);
    AloneInTwo(w, t, 5, 3);
    RepeatsAlone(Alone(w, t, 5), t);
    var a, end := w.threads[t].access, Done(Answered);
    assert w.threads[t := Unlock(a, Refreshed)][t := end] == w.threads[t := end];
  }

  /** A request that waits for the mutex and then runs alone refreshes once if the session still has its token, and
      not at all if another request has replaced it; it ends Answered if the token it is repeated with has not
      expired, as a new one has not. */
  lemma WaitingAlone(w: World, t: nat)
    requires Calm(w) && t in w.threads && w.threads[t].WaitLock?
    ensures var s, a, u := w.shared, w.threads[t].access, Alone(w, t, 8);
            if s.session.value.access == a
            then && u.threads == w.threads[t := Done(Answered)] && Calm(u)
                 && u.shared.server.issued == s.server.issued + 1
                 && u.shared.session == Some(Tokens(s.server.next, s.server.next + 1))
                 && u.shared.saves == s.saves + [Save(a, s.session.value, u.shared.session.value)]
            else && u.threads == w.threads[t := Done(if s.session.value.access in s.expired then StillUnauthorized else Answered)]
                 && u.shared == s
  {
    hide Inv, Act, Alone;
    AloneKeeps(w, t, 8);
    if w.shared.session.value.access == w.threads[t].access {
      GetsItsOwn(w, t);
    } else {
      KeepsAnothers(w, t);
    }
  }

  lemma KeepsAnothers(w: World, t: nat)
    requires t in w.threads && w.threads[t].WaitLock? && w.shared.mutex.None? && w.shared.session.Some?
    requires w.shared.session.value.access != w.threads[t].access
    ensures var s := w.shared;
            Alone(w, t, 8) == World(s, w.threads[t := Done(if s.session.value.access in s.expired then StillUnauthorized else Answered)])
  {
    hide Act, Alone;
    var s, a := w.shared, w.threads[t].access;
    var w1 := World(s.(mutex := Some(t)), w.threads[t := Compare(a)]);
    var w2 := World(w1.shared, w.threads[t := Unlock(a, Refreshed)]);
    FreeStep(w, t);
    HolderStep(w1, t);
    assert w1.threads[t := Unlock(a, Refreshed)] == w2.threads;
    AloneTwo(w, t);
    RepeatsAlone(w2, t);
    AloneInTwo(w, t, 2, 3);
    AloneInTwo(w, t, 5, 3);
    var end := Done(if s.session.value.access in s.expired then StillUnauthorized else Answered);
    assert w2.threads[t := end] == w.threads[t := end];
    DoneAlone(Alone(w, t, 5), t, 3);
  }

  lemma AloneTwo(w: World, t: nat)
    ensures var go := Step(t, GO); Alone(w, t, 2) == Act(Act(w, go), go)
  {
    hide Act;
    assert Alone(w, t, 0) == w && Alone(w, t, 1) == Act(w, Step(t, GO));
  }

  /** A request that runs alone, from a reachable world that is logged in, in lock-step and with nobody refreshing,
      is answered when everything arrives: with one rotation if its access token had expired, which leaves client
      and server in lock-step again, and with none, and nothing changed at all, otherwise. */
  lemma AnsweredWhenAlone(w: World, t: nat)
    requires Reachable(w) && w.shared.session.Some? && !w.shared.lost && w.shared.server.alive && w.shared.mutex.None?
    requires t in w.threads && w.threads[t].Start?
    ensures var s, u := w.shared, Alone(w, t, 10);
            && u.threads == w.threads[t := Done(Answered)]
            && if s.session.value.access in s.expired
               then && u.shared.server.issued == s.server.issued + 1 && !u.shared.lost && u.shared.mutex.None?
                    && u.shared.session == Some(Tokens(s.server.next, s.server.next + 1))
                    && u.shared.server.row == Hash(s.server.next + 1)
               else u.shared == s
  {
    hide Inv, Act, Alone, Reachable;
    ReachableKeeps(w);
    StartsAlone(w, t);
    AloneInTwo(w, t, 2, 8);
    var u := Alone(w, t, 2);
    if w.shared.session.value.access in w.shared.expired {
      AloneKeeps(w, t, 2);
      WaitingAlone(u, t);
      CalmIs(Alone(u, t, 8));
      assert u.threads[t := Done(Answered)] == w.threads[t := Done(Answered)];
    } else {
      DoneAlone(u, t, 8);
    }
  }

  lemma StartsAlone(w: World, t: nat)
    requires t in w.threads && w.threads[t].Start? && w.shared.session.Some?
    ensures var a := w.shared.session.value.access;
            Alone(w, t, 2) == World(w.shared, w.threads[t := if a in w.shared.expired then WaitLock(a) else Done(Answered)])
  {
    hide Act, Alone;
    var a := w.shared.session.value.access;
    var w1 := World(w.shared, w.threads[t := Send(a)]);
    FreeStep(w, t);
    FreeStep(w1, t);
    AloneTwo(w, t);
    var end := if a in w.shared.expired then WaitLock(a) else Done(Answered);
    assert w1.threads[t := end] == w.threads[t := end];
  }
}
