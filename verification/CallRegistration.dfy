/**
 Exactly when the gaps around registration show: which sessions can still be registered, which
 closed ones leak, and which steps part `callsByUser` from the registered sessions.
 */
module CallRegistration {
  import opened CallInterleaving
  import opened CallInterleavingSafety
  import opened CallGaps

  // ----- which sessions can still be registered -----

  /** Some thread is setting the session up. */
  ghost predicate BeingSetUp(s: State, k: nat) {
    exists t <- s.threads :: TokenOf(s.threads[t]) == SettingUp(k)
  }

  /** The session is not registered and nobody is setting it up. */
  ghost predicate Unset(s: State, k: nat) {
    k in s.shared.sessions && k !in s.shared.byID && !BeingSetUp(s, k)
  }

  lemma ActUnset(s: State, a: Action, k: nat)
    requires Inv(s) && Unset(s, k)
    ensures Unset(Act(s, a), k)
  {
    hide SharedInv, Exec, TokenOk, Starts, Started;
    match a
    case Spawn(t, pc) =>
      if Starts(s.shared, pc) && t !in s.threads {
        StartStep(s.shared, pc);
        StartedSessions(s.shared, pc);
      }
    case Advance(t, choice) =>
      if t in s.threads {
        NextFree(s.shared);
        ExecStep(s.shared, s.threads[t], choice);
        ExecEffect(s.shared, s.threads[t], choice);
        hide TokenOf, TraceGrows;
      }
  }

  lemma StartedSessions(s: Shared, pc: Pc)
    ensures Started(s, pc).sessions == s.sessions && Started(s, pc).byID == s.byID
  {}

  lemma {:induction false} RunUnset(s: State, actions: seq<Action>, k: nat)
    requires Inv(s) && Unset(s, k)
    ensures Unset(Run(s, actions), k)
    decreases actions
  {
    hide Inv, Unset, Act;
    if actions != [] {
      ActUnset(s, actions[0], k);
      ActKeeps(s, actions[0]);
      RunUnset(Act(s, actions[0]), actions[1..], k);
    }
  }

  /** How many steps are left before a session that is being set up is registered. */
  function StepsLeft(pc: Pc): nat {
    match pc
    case AcceptAssign(_, _, _) => 4
    case AcceptAnswer(_, _) => 3
    case DialAssign(_, _, _) => 3
    case AcceptConnect(_, _) => 2
    case DialInvite(_, _) => 2
    case _ => 1
  }

  /** If everything succeeds, the thread registers its session or comes closer to it. */
  lemma CloserToTable(s: Shared, pc: Pc, k: nat)
    requires TokenOk(s, pc) && TokenOf(pc) == SettingUp(k)
    ensures var (t, pc') := Exec(s, pc, Succeeds);
            if k in t.byID then !WillUnregister(pc', k)
            else TokenOf(pc') == SettingUp(k) && StepsLeft(pc') < StepsLeft(pc)
  {
    hide TokenOk, ExecClaim, ExecAnswer, ExecDial, ExecClose, ExecEnd, ExecArrive, TokenOf, StepsLeft, WillUnregister;
    SetUpIs(s, pc, k);
    if IsDial(pc) {
      DialCloser(s, pc, k);
    } else {
      OnlyAnswers(pc, k);
      AnswerCloser(s, pc, k);
    }
  }

  lemma OnlyAnswers(pc: Pc, k: nat)
    requires TokenOf(pc) == SettingUp(k) && !IsDial(pc)
    ensures IsAnswer(pc) && !IsClaim(pc)
  {}

  lemma DialCloser(s: Shared, pc: Pc, k: nat)
    requires TokenOf(pc) == SettingUp(k) && IsDial(pc) && k in s.sessions
    ensures var (t, pc') := ExecDial(s, pc, Succeeds);
            if k in t.byID then !WillUnregister(pc', k)
            else TokenOf(pc') == SettingUp(k) && StepsLeft(pc') < StepsLeft(pc)
  {}

  lemma AnswerCloser(s: Shared, pc: Pc, k: nat)
    requires TokenOf(pc) == SettingUp(k) && IsAnswer(pc) && k in s.sessions && pc.invite in s.invites
    ensures var (t, pc') := ExecAnswer(s, pc, s.invites[pc.invite], Succeeds);
            if k in t.byID then !WillUnregister(pc', k)
            else TokenOf(pc') == SettingUp(k) && StepsLeft(pc') < StepsLeft(pc)
  {}

  lemma SetUpStep(s: State, t: nat, k: nat)
    requires Inv(s) && t in s.threads && TokenOf(s.threads[t]) == SettingUp(k)
    ensures var u := Act(s, Advance(t, Succeeds));
            && Inv(u) && t in u.threads && u.threads == s.threads[t := u.threads[t]]
            && if k in u.shared.byID then !WillUnregister(u.threads[t], k)
               else TokenOf(u.threads[t]) == SettingUp(k) && StepsLeft(u.threads[t]) < StepsLeft(s.threads[t])
  {
    hide SharedInv, Exec, TokenOf, StepsLeft, TokenOk, WillUnregister;
    ActKeeps(s, Advance(t, Succeeds));
    CloserToTable(s.shared, s.threads[t], k);
  }

  lemma {:induction false} SomeRunRegisters(s: State, t: nat, k: nat) returns (actions: seq<Action>)
    requires Inv(s) && t in s.threads && TokenOf(s.threads[t]) == SettingUp(k)
    ensures var u := Run(s, actions);
            && k in u.shared.byID && t in u.threads && !WillUnregister(u.threads[t], k)
            && u.threads == s.threads[t := u.threads[t]]
    decreases StepsLeft(s.threads[t])
  {
    hide Inv, Act, TokenOf, StepsLeft, WillUnregister;
    var a := Advance(t, Succeeds);
    var next := Act(s, a);
    SetUpStep(s, t, k);
    if k in next.shared.byID {
      actions := [a];
      assert Run(next, []) == next;
    } else {
      var rest := SomeRunRegisters(next, t, k);
      actions := [a] + rest;
      assert actions[1..] == rest;
    }
  }

  /** A session that is not registered is registered in some continuation if and only if some thread is setting it up. */
  lemma RegisteredLaterIff(s: State, k: nat)
    requires Inv(s) && k in s.shared.sessions && k !in s.shared.byID
    ensures BeingSetUp(s, k) <==> exists actions :: k in Run(s, actions).shared.byID
  {
    hide Inv, TokenOf, Run;
    if BeingSetUp(s, k) {
      var t :| t in s.threads && TokenOf(s.threads[t]) == SettingUp(k);
      var actions := SomeRunRegisters(s, t, k);
    } else {
      forall actions
        ensures k !in Run(s, actions).shared.byID
      {
        RunUnset(s, actions, k);
      }
    }
  }

  // ----- which closed sessions leak -----

  lemma UnregisterStep(s: Shared, k: nat, bye: bool, after: After, choice: Choice)
    ensures Exec(s, CloseUnregister(k, after), choice) == (Unregister(s, k), CloseLog(k, after))
    ensures Unregister(s, k).sessions == s.sessions
    ensures Exec(s, CloseBye(k, bye, after), choice).1 == CloseUnregister(k, after)
    ensures Exec(s, CloseBye(k, bye, after), choice).0.sessions == s.sessions
  {
    hide ExecAccept, ExecEnd, ExecArrive, ExecDial;
  }

  /** Nobody is about to unregister the session. */
  ghost predicate NoCloser(s: State, k: nat) {
    forall t <- s.threads :: !WillUnregister(s.threads[t], k)
  }

  lemma CloserActs(s: State, t: nat, k: nat)
    requires t in s.threads && WillUnregister(s.threads[t], k)
    ensures var u := Act(s, Advance(t, Succeeds));
            && u.shared.sessions == s.shared.sessions && u.threads.Keys == s.threads.Keys
            && (if s.threads[t].CloseBye? then u.threads[t] == CloseUnregister(k, s.threads[t].after)
                else !WillUnregister(u.threads[t], k))
            && forall w <- s.threads :: w != t ==> u.threads[w] == s.threads[w]
  {
    UnregisterStep(s.shared, k, s.threads[t].CloseBye? && s.threads[t].bye, s.threads[t].after, Succeeds);
    hide Exec, Unregister;
  }

  /** The session is closing and being set up. */
  ghost predicate HalfClosed(s: State, k: nat) {
    Inv(s) && k in s.shared.sessions && s.shared.sessions[k].closing && BeingSetUp(s, k)
  }

  lemma CloserStep(s: State, t: nat, k: nat) returns (u: State)
    requires HalfClosed(s, k) && t in s.threads && WillUnregister(s.threads[t], k)
    ensures u == Act(s, Advance(t, Succeeds)) && HalfClosed(u, k) && t in u.threads
    ensures if s.threads[t].CloseBye? then u.threads[t].CloseUnregister? && u.threads[t].session == k else NoCloser(u, k)
  {
    u := Act(s, Advance(t, Succeeds));
    ActKeeps(s, Advance(t, Succeeds));
    OneCloser(s, t, k);
    CloserActs(s, t, k);
    hide Inv, Act, WillUnregister;
    var w :| w in s.threads && TokenOf(s.threads[w]) == SettingUp(k);
    NotTheCloser(s.threads[w], k);
    assert u.threads[w] == s.threads[w];
  }

  lemma NotTheCloser(pc: Pc, k: nat)
    ensures WillUnregister(pc, k) ==> TokenOf(pc) == Closing(k)
  {}

  /** The thread that is closing the session, if there is one, unregisters it. */
  lemma CloserFinishes(s: State, k: nat) returns (actions: seq<Action>)
    requires HalfClosed(s, k)
    ensures HalfClosed(Run(s, actions), k) && NoCloser(Run(s, actions), k)
  {
    hide HalfClosed, Act;
    if t :| t in s.threads && WillUnregister(s.threads[t], k) {
      var a := Advance(t, Succeeds);
      var u := CloserStep(s, t, k);
      assert Run(u, []) == u;
      actions := [a];
      if s.threads[t].CloseBye? {
        var w := CloserStep(u, t, k);
        assert Run(w, []) == w && [a, a][1..] == [a];
        actions := [a, a];
      }
    } else {
      actions := [];
      assert Run(s, []) == s;
    }
  }

  lemma OneCloser(s: State, t: nat, k: nat)
    requires Inv(s) && t in s.threads && WillUnregister(s.threads[t], k)
    ensures forall u <- s.threads :: u != t ==> !WillUnregister(s.threads[u], k)
  {
    hide SharedInv, TokenOk;
    forall u | u in s.threads && u != t
      ensures !WillUnregister(s.threads[u], k)
    {
      assert TokenOf(s.threads[t]) == Closing(k);
    }
  }

  lemma {:induction false} ClosingStays(s: State, actions: seq<Action>, k: nat)
    requires Inv(s) && k in s.shared.sessions && s.shared.sessions[k].closing
    ensures k in Run(s, actions).shared.sessions && Run(s, actions).shared.sessions[k].closing
    decreases actions
  {
    if actions != [] {
      var a := actions[0];
      ActKeeps(s, a);
      hide Inv, Exec, Starts;
      if a.Spawn? {
        StartedSessions(s.shared, a.pc);
      } else if a.thread in s.threads {
        NumbersFree(s);
        ExecEffect(s.shared, s.threads[a.thread], a.choice);
      }
      hide Act;
      ClosingStays(Act(s, a), actions[1..], k);
    }
  }

  lemma NumbersFree(s: State)
    requires Inv(s)
    ensures s.shared.next !in s.shared.sessions && s.shared.next !in s.shared.invites
    ensures forall k <- s.shared.sessions :: k < s.shared.next
  {
    hide Coherent, EndedOnce, ClosedOnce, OwnRows, RowsEndOnce, TokenOk, TokenOf;
  }

  /** A session that was closed before it was registered stays in the table for ever, in some continuation, if and
      only if some thread is still setting it up. */
  lemma ClosedLeaksIff(s: State, k: nat)
    requires Inv(s) && k in s.shared.sessions && s.shared.sessions[k].closing && k !in s.shared.byID
    ensures BeingSetUp(s, k) <==> exists actions :: Leaked(Run(s, actions), k)
  {
    hide Inv, TokenOf, Run, Act;
    if BeingSetUp(s, k) {
      var first := CloserFinishes(s, k);
      var u := Run(s, first);
      var t :| t in u.threads && TokenOf(u.threads[t]) == SettingUp(k);
      var second := SomeRunRegisters(u, t, k);
      ClosingStays(u, second, k);
      RunKeeps(u, second);
      NumbersFree(Run(u, second));
      RunInTwo(s, first, second);
      assert Leaked(Run(s, first + second), k);
    } else {
      RegisteredLaterIff(s, k);
    }
  }

  lemma {:induction false} RunInTwo(s: State, first: seq<Action>, second: seq<Action>)
    ensures Run(s, first + second) == Run(Run(s, first), second)
    decreases first
  {
    hide Act;
    if first == [] {
      assert [] + second == second;
    } else {
      assert (first + second)[1..] == first[1..] + second;
      RunInTwo(Act(s, first[0]), first[1..], second);
    }
  }

  // ----- which steps part the user index from the registered sessions -----

  /** Every registered session of a user is the one `callsByUser` names for that user. */
  ghost predicate OneEach(sessions: map<nat, Session>, byID: map<nat, nat>, byUser: map<int, nat>) {
    forall k <- byID :: k in sessions && sessions[k].user > 0 ==>
                          sessions[k].user in byUser && byUser[sessions[k].user] == k
  }

  ghost predicate OneCallEach(s: Shared) {
    OneEach(s.sessions, s.byID, s.byUser)
  }

  /** The user of session `k` has an entry that names another session. */
  predicate UserTaken(s: Shared, k: nat) {
    && k in s.sessions && s.sessions[k].user > 0
    && s.sessions[k].user in s.byUser && s.byUser[s.sessions[k].user] != k
  }

  /** The next step registers or unregisters a session whose user has another one. */
  predicate Conflicts(s: Shared, pc: Pc) {
    match pc
    case DialRegister(_, k) => UserTaken(s, k)
    case AcceptRegister(i, k) => i in s.invites && UserTaken(s, k)
    case CloseUnregister(k, _) => UserTaken(s, k)
    case _ => false
  }

  lemma RegisterOneEachIff(s: Shared, k: nat, callID: string)
    requires Coherent(s.sessions, s.byID, s.bySIP, s.byUser) && OneCallEach(s) && k !in s.byID
    ensures OneCallEach(Register(s, k, callID)) <==> !UserTaken(s, k)
  {
    if UserTaken(s, k) {
      var j, t := s.byUser[s.sessions[k].user], Register(s, k, callID);
      assert j in t.byID && t.byUser[s.sessions[j].user] == k;
    }
  }

  lemma UnregisterOneEachIff(s: Shared, k: nat)
    requires Coherent(s.sessions, s.byID, s.bySIP, s.byUser) && OneCallEach(s)
    ensures OneCallEach(Unregister(s, k)) <==> !UserTaken(s, k)
  {
    if UserTaken(s, k) {
      var j, t := s.byUser[s.sessions[k].user], Unregister(s, k);
      assert j in t.byID && s.sessions[j].user !in t.byUser;
    }
  }

  lemma SessionOneEach(s: Shared, t: Shared)
    requires OneCallEach(s) && SameRegistered(s, t)
    ensures OneCallEach(t)
  {}

  lemma RegisteredKnown(s: Shared)
    requires SharedInv(s)
    ensures forall k <- s.byID :: k in s.sessions
    ensures s.next !in s.byID && Coherent(s.sessions, s.byID, s.bySIP, s.byUser)
  {
    hide EndedOnce, ClosedOnce, OwnRows, RowsEndOnce;
  }

  /** The same sessions are registered, for the same users. */
  ghost predicate SameRegistered(s: Shared, t: Shared) {
    && t.byID == s.byID && t.byUser == s.byUser
    && forall k <- s.byID :: k in s.sessions && k in t.sessions && t.sessions[k].user == s.sessions[k].user
  }

  lemma NewKeepsRegistered(s: Shared, row: nat)
    requires SharedInv(s)
    ensures SameRegistered(s, s) && SameRegistered(s, NewSession(s, row))
  {
    RegisteredKnown(s);
    hide SharedInv, Coherent;
  }

  lemma ChangeKeepsRegistered(s: Shared, k: nat, c: Session)
    requires SharedInv(s) && (k in s.byID ==> k in s.sessions && c.user == s.sessions[k].user)
    ensures SameRegistered(s, s.(sessions := s.sessions[k := c]))
  {
    RegisteredKnown(s);
    hide SharedInv, Coherent;
  }

  lemma ObservedKeepsRegistered(s: Shared, e: Observed)
    requires SharedInv(s)
    ensures SameRegistered(s, Observe(s, e)) && SameRegistered(s, s.(rows := s.rows + 1))
  {
    RegisteredKnown(s);
    hide SharedInv, Coherent;
  }

  /** The rest of a call touches only sessions that are not registered, or whether one is closing. */
  lemma DialFrame(s: Shared, pc: Pc, choice: Choice)
    requires SharedInv(s) && TokenOk(s, pc) && IsDial(pc) && !pc.DialRegister?
    ensures SameRegistered(s, ExecDial(s, pc, choice).0)
  {
    hide SharedInv, TokenOk, NewSession, SameRegistered;
    NewKeepsRegistered(s, if pc.DialSetUp? then pc.row else 0);
    match pc
    case DialLog(_, _) => ObservedKeepsRegistered(s, CallEnded(0));
    case DialAssign(user, _, k) =>
      SetUpIs(s, pc, k);
      ChangeKeepsRegistered(s, k, s.sessions[k].(user := user, dialog := false));
    case DialInvite(_, k) =>
      SetUpIs(s, pc, k);
      ChangeKeepsRegistered(s, k, s.sessions[k].(dialog := true));
    case _ =>
  }

  lemma CloseFrame(s: Shared, pc: Pc, choice: Choice)
    requires SharedInv(s) && IsClose(pc) && !pc.CloseUnregister?
    ensures SameRegistered(s, ExecClose(s, pc, choice).0)
  {
    hide SharedInv, SameRegistered, Observe;
    NewKeepsRegistered(s, 0);
    match pc
    case CloseOnce(k, _, _) =>
      if k in s.sessions { ChangeKeepsRegistered(s, k, s.sessions[k].(closing := true)); }
    case CloseBye(k, _, _) => ObservedKeepsRegistered(s, ByeSent(k));
    case CloseLog(k, _) => if k in s.sessions { ObservedKeepsRegistered(s, RowEnded(s.sessions[k].row)); }
    case EndRow(row, _) => ObservedKeepsRegistered(s, RowEnded(row));
    case CloseDone(k, _) => ObservedKeepsRegistered(s, CallEnded(k));
    case _ =>
  }

  lemma AcceptFrame(s: Shared, pc: Pc, choice: Choice)
    requires SharedInv(s) && TokenOk(s, pc) && IsAccept(pc) && pc.invite in s.invites && !pc.AcceptRegister?
    ensures SameRegistered(s, ExecAccept(s, pc, s.invites[pc.invite], choice).0)
  {
    hide SharedInv, TokenOk, SameRegistered;
    NewKeepsRegistered(s, if pc.AcceptSetUp? then pc.row else 0);
    match pc
    case AcceptLog(_, _) => ObservedKeepsRegistered(s, CallEnded(0));
    case AcceptSetUp(_, _, _) =>
    case AcceptAssign(user, _, k) =>
      SetUpIs(s, pc, k);
      ChangeKeepsRegistered(s, k, s.sessions[k].(user := user, dialog := true));
    case _ => AcceptInviteFrame(s, pc, choice);
  }

  /** The rest of an accept touches the invite. */
  lemma AcceptInviteFrame(s: Shared, pc: Pc, choice: Choice)
    requires IsAccept(pc) && pc.invite in s.invites
    requires !pc.AcceptLog? && !pc.AcceptSetUp? && !pc.AcceptAssign? && !pc.AcceptRegister?
    ensures SameRegistered(s, s) ==> SameRegistered(s, ExecAccept(s, pc, s.invites[pc.invite], choice).0)
  {}

  lemma DialOneEachIff(s: Shared, pc: Pc, choice: Choice)
    requires SharedInv(s) && TokenOk(s, pc) && OneCallEach(s) && IsDial(pc)
    ensures OneCallEach(ExecDial(s, pc, choice).0) <==> !Conflicts(s, pc)
  {
    RegisteredKnown(s);
    if pc.DialRegister? {
      hide SharedInv, Coherent, Register, UserTaken, OneEach, Count;
      RegisterOneEachIff(s, pc.session, pc.callID);
    } else {
      hide SharedInv, TokenOk, ExecDial, UserTaken, OneCallEach, SameRegistered;
      DialFrame(s, pc, choice);
      SessionOneEach(s, ExecDial(s, pc, choice).0);
    }
  }

  lemma CloseOneEachIff(s: Shared, pc: Pc, choice: Choice)
    requires SharedInv(s) && OneCallEach(s) && IsClose(pc)
    ensures OneCallEach(ExecClose(s, pc, choice).0) <==> !Conflicts(s, pc)
  {
    RegisteredKnown(s);
    if pc.CloseUnregister? {
      hide SharedInv, Coherent, Unregister, UserTaken, OneEach, Count;
      UnregisterOneEachIff(s, pc.session);
    } else {
      hide SharedInv, ExecClose, UserTaken, OneCallEach, SameRegistered;
      CloseFrame(s, pc, choice);
      SessionOneEach(s, ExecClose(s, pc, choice).0);
    }
  }

  lemma AcceptOneEachIff(s: Shared, pc: Pc, choice: Choice)
    requires SharedInv(s) && TokenOk(s, pc) && OneCallEach(s) && IsAccept(pc) && pc.invite in s.invites
    ensures OneCallEach(ExecAccept(s, pc, s.invites[pc.invite], choice).0) <==> !Conflicts(s, pc)
  {
    RegisteredKnown(s);
    if pc.AcceptRegister? {
      hide SharedInv, Coherent, Register, UserTaken, OneEach, Count, ExecClaim, TokenOk;
      RegisterOneEachIff(s, pc.session, s.invites[pc.invite].sipCallID);
    } else {
      hide SharedInv, TokenOk, ExecAccept, UserTaken, OneCallEach, SameRegistered;
      AcceptFrame(s, pc, choice);
      SessionOneEach(s, ExecAccept(s, pc, s.invites[pc.invite], choice).0);
    }
  }

  lemma EndOneEach(s: Shared, pc: Pc, choice: Choice)
    requires OneCallEach(s) && IsEnd(pc) && pc.invite in s.invites
    ensures OneCallEach(ExecEnd(s, pc, s.invites[pc.invite], choice).0)
  {
    hide OneEach, Observe;
  }

  lemma ArriveOneEach(s: Shared, pc: Pc)
    requires OneCallEach(s) && IsArrive(pc)
    ensures OneCallEach(ExecArrive(s, pc).0)
  {
    hide OneEach, Observe;
  }

  /** One critical section keeps the user index inverse to the registered sessions if and only if it does not
      register or unregister a session whose user's entry names another one. */
  lemma ExecOneEachIff(s: Shared, pc: Pc, choice: Choice)
    requires SharedInv(s) && TokenOk(s, pc) && OneCallEach(s)
    ensures OneCallEach(Exec(s, pc, choice).0) <==> !Conflicts(s, pc)
  {
    hide SharedInv, OneCallEach, TokenOk, ExecAccept, ExecDial, ExecClose, ExecEnd, ExecArrive, UserTaken;
    if IsAccept(pc) {
      if pc.invite in s.invites {
        AcceptOneEachIff(s, pc, choice);
      }
    } else if IsEnd(pc) {
      if pc.invite in s.invites {
        EndOneEach(s, pc, choice);
      }
    } else if IsArrive(pc) {
      ArriveOneEach(s, pc);
    } else if IsDial(pc) {
      DialOneEachIff(s, pc, choice);
    } else {
      CloseOneEachIff(s, pc, choice);
    }
  }

  predicate Clashes(s: State, a: Action) {
    a.Advance? && a.thread in s.threads && Conflicts(s.shared, s.threads[a.thread])
  }

  lemma ActOneEachIff(s: State, a: Action)
    requires Inv(s) && OneCallEach(s.shared)
    ensures OneCallEach(Act(s, a).shared) <==> !Clashes(s, a)
  {
    hide SharedInv, TokenOf, Exec, Conflicts, OneEach, Starts;
    match a
    case Spawn(t, pc) =>
    case Advance(t, choice) =>
      if t in s.threads {
        hide OneCallEach;
        ExecOneEachIff(s.shared, s.threads[t], choice);
      }
  }

  /** The property holds after every prefix of the run. */
  ghost predicate Throughout(s: State, actions: seq<Action>) {
    forall n | 0 <= n <= |actions| :: OneCallEach(Run(s, actions[..n]).shared)
  }

  ghost predicate ClashFree(s: State, actions: seq<Action>) {
    forall n | 0 <= n < |actions| :: !Clashes(Run(s, actions[..n]), actions[n])
  }

  lemma ThroughoutUnfolds(s: State, actions: seq<Action>)
    requires actions != []
    ensures Throughout(s, actions) <==> OneCallEach(s.shared) && Throughout(Act(s, actions[0]), actions[1..])
    ensures ClashFree(s, actions) <==> !Clashes(s, actions[0]) && ClashFree(Act(s, actions[0]), actions[1..])
  {
    hide OneCallEach, Clashes, Act;
    var t, rest := Act(s, actions[0]), actions[1..];
    assert Run(s, actions[..0]) == s;
    forall n | 0 <= n <= |rest|
      ensures Run(s, actions[..n + 1]) == Run(t, rest[..n])
    {
      assert actions[..n + 1][1..] == rest[..n];
    }
    assert forall n | 0 < n <= |actions| :: Run(s, actions[..n]) == Run(t, rest[..n - 1]);
    if Throughout(s, actions) {
      forall n | 0 <= n <= |rest|
        ensures OneCallEach(Run(t, rest[..n]).shared)
      {
        assert OneCallEach(Run(s, actions[..n + 1]).shared);
      }
    }
    if ClashFree(s, actions) {
      forall n | 0 <= n < |rest|
        ensures !Clashes(Run(t, rest[..n]), rest[n])
      {
        assert !Clashes(Run(s, actions[..n + 1]), actions[n + 1]);
      }
    }
  }

  lemma {:induction false} RunOneEachIff(s: State, actions: seq<Action>)
    requires Inv(s) && OneCallEach(s.shared)
    ensures Throughout(s, actions) <==> ClashFree(s, actions)
    decreases actions
  {
    if actions == [] {
      assert Run(s, []) == s;
    } else {
      hide Inv, OneCallEach, Clashes, Act, Throughout, ClashFree;
      ThroughoutUnfolds(s, actions);
      ActOneEachIff(s, actions[0]);
      ActKeeps(s, actions[0]);
      if OneCallEach(Act(s, actions[0]).shared) {
        RunOneEachIff(Act(s, actions[0]), actions[1..]);
      } else {
        NotThroughout(Act(s, actions[0]), actions[1..]);
      }
    }
  }

  lemma NotThroughout(s: State, actions: seq<Action>)
    requires !OneCallEach(s.shared)
    ensures !Throughout(s, actions)
  {
    hide OneCallEach;
    assert Run(s, actions[..0]) == s;
  }

  /** In every interleaving from empty tables, `callsByUser` stays the inverse of the registered sessions' users as
      long as, and no longer than, no step registers or unregisters a session whose user's entry names another. */
  lemma OneCallPerUserIff(actions: seq<Action>)
    ensures Throughout(EMPTY, actions) <==> ClashFree(EMPTY, actions)
  {
    assert Inv(EMPTY) && OneCallEach(EMPTY.shared);
    hide Inv, OneCallEach, Throughout, ClashFree;
    RunOneEachIff(EMPTY, actions);
  }
}
