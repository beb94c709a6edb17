/**
 What a caller can rely on: as long as no two set-ups of one user overlap between the guard
 and the registration, or the end of the close, each user has one call.
 */
module CallOverlap {
  import opened Wrappers
  import opened CallInterleaving
  import opened CallInterleavingSafety
  import opened CallRegistration

  /** The user for whom the thread has passed the guard and has made no session yet, or one without a user. */
  function Wants(pc: Pc): Option<int> {
    match pc
    case DialLog(user, _) => Some(user)
    case DialSetUp(user, _, _) => Some(user)
    case DialAssign(user, _, _) => Some(user)
    case AcceptClaim(user, _) => Some(user)
    case AcceptLog(user, _) => Some(user)
    case AcceptSetUp(user, _, _) => Some(user)
    case AcceptAssign(user, _, _) => Some(user)
    case _ => None
  }

  /** The session that the thread sets up or closes. */
  function Subject(pc: Pc): Option<nat> {
    match pc
    case DialAssign(_, _, k) => Some(k)
    case DialInvite(_, k) => Some(k)
    case DialRegister(_, k) => Some(k)
    case AcceptAssign(_, _, k) => Some(k)
    case AcceptAnswer(_, k) => Some(k)
    case AcceptConnect(_, k) => Some(k)
    case AcceptRegister(_, k) => Some(k)
    case CloseOnce(k, _, _) => Some(k)
    case CloseBye(k, _, _) => Some(k)
    case CloseUnregister(k, _) => Some(k)
    case _ => None
  }

  /** The thread's session is not registered, and the thread may still register or unregister it. */
  predicate Unsettled(s: Shared, pc: Pc) {
    && Subject(pc).Some? && Subject(pc).value in s.sessions && Subject(pc).value !in s.byID
    && (pc.CloseOnce? ==> !s.sessions[pc.session].closing)
  }

  /** The thread is between the guard and the registration of a call of the user, or the end of its close. */
  predicate SetsUp(s: Shared, pc: Pc, user: int) {
    Wants(pc) == Some(user) || (Unsettled(s, pc) && s.sessions[Subject(pc).value].user == user)
  }

  /** Both threads set up a call of the user, and not the same one. */
  predicate Overlapping(s: Shared, pc: Pc, other: Pc, user: int) {
    SetsUp(s, pc, user) && SetsUp(s, other, user) && (Subject(pc).None? || Subject(pc) != Subject(other))
  }

  ghost predicate Overlap(s: State) {
    exists t <- s.threads, w <- s.threads, user: int ::
      t != w && user > 0 && Overlapping(s.shared, s.threads[t], s.threads[w], user)
  }

  /** Nobody has a registered call while one of theirs is set up. */
  predicate Clear(s: Shared, pc: Pc) {
    && (Wants(pc).Some? ==> Wants(pc).value !in s.byUser)
    && (Unsettled(s, pc) ==> s.sessions[Subject(pc).value].user !in s.byUser)
  }

  ghost predicate AllClear(s: State) {
    forall t <- s.threads :: Clear(s.shared, s.threads[t])
  }

  // ----- what a step does to the calls of the others -----

  /** The index stays; at most session `k` gets another user, and none stops closing. */
  ghost predicate OnlyUser(s: Shared, t: Shared, k: nat) {
    && t.byID == s.byID && t.byUser == s.byUser
    && (forall j <- t.sessions :: j !in s.sessions ==> t.sessions[j].user == 0)
    && (forall j <- s.sessions ::
          j in t.sessions && (s.sessions[j].closing ==> t.sessions[j].closing)
          && (j != k ==> t.sessions[j].user == s.sessions[j].user))
  }

  /** The step registers or unregisters its session, gives it the user it was made for, or touches no call's user. */
  ghost predicate Moves(s: Shared, pc: Pc, t: Shared) {
    match pc
    case DialRegister(callID, k) => t == Register(s, k, callID)
    case AcceptRegister(i, k) => t == Register(s, k, if i in s.invites then s.invites[i].sipCallID else "")
    case CloseUnregister(k, _) => t == Unregister(s, k)
    case DialAssign(user, _, k) => OnlyUser(s, t, k) && (k in t.sessions ==> t.sessions[k].user == user)
    case AcceptAssign(user, _, k) =>
      OnlyUser(s, t, k) && (k in t.sessions && k in s.sessions ==> t.sessions[k].user in {user, s.sessions[k].user})
    case _ => OnlyUser(s, t, s.next)
  }

  lemma DialMoves(s: Shared, pc: Pc, choice: Choice)
    requires IsDial(pc) && s.next !in s.sessions
    ensures Moves(s, pc, ExecDial(s, pc, choice).0)
  {
    hide Register;
  }

  lemma CloseMoves(s: Shared, pc: Pc, choice: Choice)
    requires IsClose(pc) && s.next !in s.sessions
    ensures Moves(s, pc, ExecClose(s, pc, choice).0)
  {
    hide Unregister, Observe;
  }

  lemma ClaimMoves(s: Shared, pc: Pc, choice: Choice)
    requires IsClaim(pc) && pc.invite in s.invites && s.next !in s.sessions
    ensures Moves(s, pc, ExecClaim(s, pc, s.invites[pc.invite], choice).0)
  {
    hide Observe;
  }

  lemma AnswerMoves(s: Shared, pc: Pc, choice: Choice)
    requires IsAnswer(pc) && pc.invite in s.invites && s.next !in s.sessions
    ensures Moves(s, pc, ExecAnswer(s, pc, s.invites[pc.invite], choice).0)
  {
    hide Register, Observe;
  }

  lemma EndMoves(s: Shared, pc: Pc, choice: Choice)
    requires IsEnd(pc) && pc.invite in s.invites && s.next !in s.sessions
    ensures Moves(s, pc, ExecEnd(s, pc, s.invites[pc.invite], choice).0)
  {
    hide Observe;
  }

  lemma ArriveMoves(s: Shared, pc: Pc)
    requires IsArrive(pc) && s.next !in s.sessions
    ensures Moves(s, pc, ExecArrive(s, pc).0)
  {
    hide Observe;
  }

  lemma NoneMoves(s: Shared, pc: Pc)
    requires (IsAccept(pc) || IsEnd(pc)) && TokenOk(s, pc) && pc.invite !in s.invites && s.next !in s.sessions
    ensures Moves(s, pc, s)
  {}

  lemma ExecMoves(s: Shared, pc: Pc, choice: Choice)
    requires TokenOk(s, pc) && s.next !in s.sessions
    ensures Moves(s, pc, Exec(s, pc, choice).0)
  {
    hide ExecDial, ExecClose, ExecClaim, ExecAnswer, ExecEnd, ExecArrive, Moves, TokenOk;
    if (IsAccept(pc) || IsEnd(pc)) && pc.invite !in s.invites { NoneMoves(s, pc); }
    if IsAccept(pc) {
      if pc.invite in s.invites {
        if IsClaim(pc) { ClaimMoves(s, pc, choice); } else { AnswerMoves(s, pc, choice); }
      }
    } else if IsEnd(pc) {
      if pc.invite in s.invites { EndMoves(s, pc, choice); }
    } else if IsArrive(pc) {
      ArriveMoves(s, pc);
    } else if IsDial(pc) {
      DialMoves(s, pc, choice);
    } else {
      CloseMoves(s, pc, choice);
    }
  }

  /** The user of the thread's session, or 0. */
  function UserOf(s: Shared, pc: Pc): int {
    if Subject(pc).Some? && Subject(pc).value in s.sessions then s.sessions[Subject(pc).value].user else 0
  }

  ghost predicate UsersPositive(s: Shared) {
    forall u <- s.byUser :: u > 0
  }

  /** The two threads are clear and set up no call of the same user, unless it is the same call. */
  ghost predicate Apart(s: Shared, pc: Pc, other: Pc) {
    && Clear(s, pc) && Clear(s, other) && UsersPositive(s)
    && (TokenOf(pc) == TokenOf(other) ==> TokenOf(pc).NoToken?)
    && (UserOf(s, pc) > 0 ==> !Overlapping(s, pc, other, UserOf(s, pc)))
  }

  lemma RegisteredClear(s: Shared, k: nat, callID: string, other: Pc)
    requires k in s.sessions && k !in s.byID && Clear(s, other)
    requires s.sessions[k].user > 0 && SetsUp(s, other, s.sessions[k].user) ==>
               Subject(other) == Some(k) && Wants(other).None?
    ensures Clear(Register(s, k, callID), other)
  {
    hide Subject, Wants;
  }

  /** A registration by one thread leaves the others clear. */
  lemma RegisterClear(s: Shared, pc: Pc, callID: string, other: Pc)
    requires (pc.DialRegister? || pc.AcceptRegister?) && TokenOk(s, pc) && Apart(s, pc, other)
    ensures Clear(Register(s, pc.session, callID), other)
  {
    hide TokenOk, TokenOf, Clear, Register, UsersPositive;
    var k := pc.session;
    RegistersIts(pc);
    SetUpIs(s, pc, k);
    if Subject(other) == Some(k) && Wants(other).Some? { SameToken(pc, other); }
    RegisteredClear(s, k, callID, other);
  }

  lemma RegistersIts(pc: Pc)
    requires pc.DialRegister? || pc.AcceptRegister?
    ensures Subject(pc) == Some(pc.session) && TokenOf(pc) == SettingUp(pc.session)
  {}

  lemma SameToken(pc: Pc, other: Pc)
    requires (pc.DialRegister? || pc.AcceptRegister?) && Subject(other) == Some(pc.session) && Wants(other).Some?
    ensures TokenOf(pc) == TokenOf(other) && !TokenOf(pc).NoToken?
  {}

  lemma RegistersClear(s: Shared, pc: Pc, t: Shared, other: Pc)
    requires (pc.DialRegister? || pc.AcceptRegister?) && Moves(s, pc, t) && TokenOk(s, pc) && Apart(s, pc, other)
    ensures Clear(t, other)
  {
    hide Clear, TokenOk, Register, Apart;
    match pc
    case DialRegister(callID, _) => RegisterClear(s, pc, callID, other);
    case AcceptRegister(i, _) => RegisterClear(s, pc, if i in s.invites then s.invites[i].sipCallID else "", other);
  }

  lemma UnregisterClear(s: Shared, k: nat, other: Pc)
    requires Clear(s, other) && UsersPositive(s)
    ensures Clear(Unregister(s, k), other)
  {}

  lemma AssignClear(s: Shared, pc: Pc, t: Shared, other: Pc)
    requires (pc.DialAssign? || pc.AcceptAssign?) && Moves(s, pc, t)
    requires Clear(s, other) && Clear(s, pc) && UsersPositive(s) && TokenOk(s, pc)
    ensures Clear(t, other)
  {
    SetUpIs(s, pc, pc.session);
    hide TokenOk, TokenOf, Subject, Wants;
    AssignsFor(pc);
  }

  lemma AssignsFor(pc: Pc)
    requires pc.DialAssign? || pc.AcceptAssign?
    ensures Wants(pc) == Some(pc.user) && Subject(pc) == Some(pc.session) && TokenOf(pc) == SettingUp(pc.session)
  {}

  lemma OtherClear(s: Shared, pc: Pc, t: Shared, other: Pc)
    requires !pc.DialRegister? && !pc.AcceptRegister? && !pc.CloseUnregister? && !pc.DialAssign? && !pc.AcceptAssign?
    requires Moves(s, pc, t) && Clear(s, other) && s.next !in s.sessions && UsersPositive(s)
    ensures Clear(t, other)
  {}

  lemma OthersClear(s: Shared, pc: Pc, t: Shared, other: Pc)
    requires Moves(s, pc, t) && s.next !in s.sessions && TokenOk(s, pc) && Apart(s, pc, other)
    ensures Clear(t, other)
  {
    hide Clear, TokenOk, UsersPositive, Overlapping, TokenOf;
    if pc.DialRegister? || pc.AcceptRegister? {
      hide Moves, Apart;
      RegistersClear(s, pc, t, other);
    } else if pc.CloseUnregister? {
      UnregisterClear(s, pc.session, other);
    } else if pc.DialAssign? || pc.AcceptAssign? {
      hide Moves;
      AssignClear(s, pc, t, other);
    } else {
      hide Moves;
      OtherClear(s, pc, t, other);
    }
  }

  // ----- what a step does to its own call -----

  /** What the thread goes on to set up, it set up before, or has just found clear, or has no user yet. */
  ghost predicate GoesOn(s: Shared, pc: Pc, t: Shared, pc': Pc) {
    && (Wants(pc').Some? ==> (Wants(pc) == Wants(pc') || Wants(pc').value !in s.byUser) && t.byUser == s.byUser)
    && (Unsettled(t, pc') ==>
          t.byUser == s.byUser
          && (t.sessions[Subject(pc').value].user == 0
              || (Unsettled(s, pc) && Subject(pc) == Subject(pc')
                  && t.sessions[Subject(pc').value].user == s.sessions[Subject(pc).value].user)
              || Some(t.sessions[Subject(pc').value].user) == Wants(pc)))
  }

  lemma SelfClear(s: Shared, pc: Pc, t: Shared, pc': Pc)
    requires GoesOn(s, pc, t, pc') && Clear(s, pc) && UsersPositive(s)
    ensures Clear(t, pc')
  {
    hide Unsettled, Subject, Wants;
  }

  lemma DialGoesOn(s: Shared, pc: Pc, choice: Choice)
    requires IsDial(pc) && s.next !in s.sessions && s.next !in s.byID && TokenOk(s, pc)
    ensures var (t, pc') := ExecDial(s, pc, choice); GoesOn(s, pc, t, pc')
  {
    if TokenOf(pc).SettingUp? { SetUpIs(s, pc, pc.session); }
    hide TokenOk, Register;
  }

  lemma CloseGoesOn(s: Shared, pc: Pc, choice: Choice)
    requires IsClose(pc)
    ensures var (t, pc') := ExecClose(s, pc, choice); GoesOn(s, pc, t, pc')
  {
    hide Unregister;
  }

  lemma ClaimGoesOn(s: Shared, pc: Pc, choice: Choice)
    requires IsClaim(pc) && pc.invite in s.invites && s.next !in s.sessions && s.next !in s.byID
    ensures var (t, pc') := ExecClaim(s, pc, s.invites[pc.invite], choice); GoesOn(s, pc, t, pc')
  {
    hide Observe;
  }

  lemma NothingGoesOn(s: Shared, pc: Pc, t: Shared, pc': Pc)
    requires Wants(pc').None? && Subject(pc').None?
    ensures GoesOn(s, pc, t, pc')
  {
    hide Wants, Subject;
  }

  lemma AnswerGoesOn(s: Shared, pc: Pc, choice: Choice)
    requires IsAnswer(pc) && pc.invite in s.invites && TokenOk(s, pc)
    ensures var (t, pc') := ExecAnswer(s, pc, s.invites[pc.invite], choice); GoesOn(s, pc, t, pc')
  {
    if pc.AcceptRegister? || pc.AcceptRemove? || pc.AcceptEmit? {
      hide GoesOn, Register, Observe;
      var (t, pc') := ExecAnswer(s, pc, s.invites[pc.invite], choice);
      NothingGoesOn(s, pc, t, pc');
    } else {
      AnsweringGoesOn(s, pc, choice);
    }
  }

  lemma AnsweringGoesOn(s: Shared, pc: Pc, choice: Choice)
    requires (pc.AcceptAssign? || pc.AcceptAnswer? || pc.AcceptConnect?) && pc.invite in s.invites && TokenOk(s, pc)
    ensures var (t, pc') := ExecAnswer(s, pc, s.invites[pc.invite], choice); GoesOn(s, pc, t, pc')
  {
    SetUpIs(s, pc, pc.session);
    hide TokenOk, TokenOf, Observe;
  }

  lemma EndGoesOn(s: Shared, pc: Pc, choice: Choice)
    requires IsEnd(pc) && pc.invite in s.invites
    ensures var (t, pc') := ExecEnd(s, pc, s.invites[pc.invite], choice); GoesOn(s, pc, t, pc')
  {
    hide GoesOn, Observe, SetInvite;
    var (t, pc') := ExecEnd(s, pc, s.invites[pc.invite], choice);
    NothingGoesOn(s, pc, t, pc');
  }

  lemma ArriveGoesOn(s: Shared, pc: Pc)
    requires IsArrive(pc)
    ensures var (t, pc') := ExecArrive(s, pc); GoesOn(s, pc, t, pc')
  {
    hide Observe;
  }

  lemma NoneGoesOn(s: Shared, pc: Pc)
    ensures GoesOn(s, pc, s, Done)
  {}

  lemma ExecGoesOn(s: Shared, pc: Pc, choice: Choice)
    requires s.next !in s.sessions && s.next !in s.byID && TokenOk(s, pc)
    ensures var (t, pc') := Exec(s, pc, choice); GoesOn(s, pc, t, pc')
  {
    hide ExecDial, ExecClose, ExecClaim, ExecAnswer, ExecEnd, ExecArrive, GoesOn, TokenOk;
    NoneGoesOn(s, pc);
    if IsAccept(pc) {
      if pc.invite in s.invites {
        if IsClaim(pc) { ClaimGoesOn(s, pc, choice); } else { AnswerGoesOn(s, pc, choice); }
      }
    } else if IsEnd(pc) {
      if pc.invite in s.invites { EndGoesOn(s, pc, choice); }
    } else if IsArrive(pc) {
      ArriveGoesOn(s, pc);
    } else if IsDial(pc) {
      DialGoesOn(s, pc, choice);
    } else {
      CloseGoesOn(s, pc, choice);
    }
  }

  // ----- runs without overlap -----

  /** A clear thread does not part the user index from the registered sessions. */
  lemma ClearIsNoConflict(s: Shared, pc: Pc)
    requires Clear(s, pc) && OneCallEach(s) && TokenOk(s, pc)
    ensures !Conflicts(s, pc)
  {
    if pc.DialRegister? || pc.AcceptRegister? { SetUpIs(s, pc, pc.session); }
    hide TokenOk;
  }

  lemma IndexIs(s: Shared)
    requires SharedInv(s)
    ensures UsersPositive(s) && s.next !in s.sessions && s.next !in s.byID
  {
    NextUnregistered(s);
    hide Tables, EndedOnce, ClosedOnce, OwnRows, RowsEndOnce;
  }

  lemma ThreadsApart(s: State, t: nat, w: nat)
    requires Inv(s) && AllClear(s) && !Overlap(s) && t in s.threads && w in s.threads && t != w
    ensures Apart(s.shared, s.threads[t], s.threads[w])
  {
    IndexIs(s.shared);
    hide SharedInv, TokenOk, TokenOf, Clear, Overlapping, UsersPositive;
  }

  // ----- no orphans -----

  /** The session that the thread is to register or to close. */
  function Owns(pc: Pc): Option<nat> {
    match pc
    case DialAssign(_, _, k) => Some(k)
    case DialInvite(_, k) => Some(k)
    case DialRegister(_, k) => Some(k)
    case AcceptAssign(_, _, k) => Some(k)
    case AcceptAnswer(_, k) => Some(k)
    case AcceptConnect(_, k) => Some(k)
    case AcceptRegister(_, k) => Some(k)
    case CloseOnce(k, _, _) => Some(k)
    case _ => None
  }

  predicate Loose(s: Shared, k: nat) {
    k in s.sessions && k !in s.byID && !s.sessions[k].closing
  }

  /** Every session that is neither registered nor closing has a thread that is to register or to close it. */
  ghost predicate Owned(s: State) {
    forall k: nat | Loose(s.shared, k) :: exists t <- s.threads :: Owns(s.threads[t]) == Some(k)
  }

  /** The session that the step may leave loose is its own; it lets go of none that stays loose. */
  ghost predicate Holds(s: Shared, pc: Pc, t: Shared, pc': Pc) {
    forall k: nat | Loose(t, k) :: if Loose(s, k) then Owns(pc) == Some(k) ==> Owns(pc') == Some(k) else Owns(pc') == Some(k)
  }

  lemma DialHolds(s: Shared, pc: Pc, choice: Choice)
    requires IsDial(pc) && s.next !in s.byID && (Owns(pc).Some? ==> Owns(pc).value in s.sessions)
    ensures var (t, pc') := ExecDial(s, pc, choice); Holds(s, pc, t, pc')
  {}

  lemma CloseHolds(s: Shared, pc: Pc, choice: Choice)
    requires IsClose(pc) && (pc.CloseUnregister? ==> pc.session in s.sessions && s.sessions[pc.session].closing)
    ensures var (t, pc') := ExecClose(s, pc, choice); Holds(s, pc, t, pc')
  {
    hide Observe, EndLog;
  }

  lemma ClaimHolds(s: Shared, pc: Pc, choice: Choice)
    requires IsClaim(pc) && pc.invite in s.invites
    ensures var (t, pc') := ExecClaim(s, pc, s.invites[pc.invite], choice); Holds(s, pc, t, pc')
  {
    hide Observe;
  }

  lemma AnswerHolds(s: Shared, pc: Pc, choice: Choice)
    requires IsAnswer(pc) && pc.invite in s.invites && (Owns(pc).Some? ==> Owns(pc).value in s.sessions)
    ensures var (t, pc') := ExecAnswer(s, pc, s.invites[pc.invite], choice); Holds(s, pc, t, pc')
  {
    hide Observe;
  }

  lemma EndHolds(s: Shared, pc: Pc, choice: Choice)
    requires IsEnd(pc) && pc.invite in s.invites
    ensures var (t, pc') := ExecEnd(s, pc, s.invites[pc.invite], choice); Holds(s, pc, t, pc')
  {
    hide Observe;
  }

  lemma ArriveHolds(s: Shared, pc: Pc)
    requires IsArrive(pc)
    ensures var (t, pc') := ExecArrive(s, pc); Holds(s, pc, t, pc')
  {
    hide Observe;
  }

  lemma NoneHolds(s: Shared, pc: Pc)
    requires Owns(pc).None?
    ensures Holds(s, pc, s, Done)
  {}

  /** What the tokens say of owners and closers. */
  lemma OwnersKnown(s: Shared, pc: Pc)
    requires TokenOk(s, pc)
    ensures IsDial(pc) || IsAnswer(pc) ==> Owns(pc).Some? ==> Owns(pc).value in s.sessions
    ensures pc.CloseUnregister? ==> pc.session in s.sessions && s.sessions[pc.session].closing
    ensures (IsAccept(pc) || IsEnd(pc)) && pc.invite !in s.invites ==> Owns(pc).None?
  {}

  lemma ExecHolds(s: Shared, pc: Pc, choice: Choice)
    requires s.next !in s.byID && TokenOk(s, pc)
    ensures var (t, pc') := Exec(s, pc, choice); Holds(s, pc, t, pc')
  {
    hide ExecDial, ExecClose, ExecClaim, ExecAnswer, ExecEnd, ExecArrive, Holds, TokenOk;
    OwnersKnown(s, pc);
    if Owns(pc).None? { NoneHolds(s, pc); }
    if IsAccept(pc) {
      if pc.invite in s.invites {
        if IsClaim(pc) { ClaimHolds(s, pc, choice); } else { AnswerHolds(s, pc, choice); }
      }
    } else if IsEnd(pc) {
      if pc.invite in s.invites { EndHolds(s, pc, choice); }
    } else if IsArrive(pc) {
      ArriveHolds(s, pc);
    } else if IsDial(pc) {
      DialHolds(s, pc, choice);
    } else {
      CloseHolds(s, pc, choice);
    }
  }

  lemma ActOwned(s: State, a: Action)
    requires Inv(s) && Owned(s)
    ensures Owned(Act(s, a))
  {
    IndexIs(s.shared);
    hide SharedInv, TokenOk, TokenOf, Exec, Starts, Loose;
    match a
    case Spawn(t, pc) =>
      if Starts(s.shared, pc) && t !in s.threads {
        StartedLoose(s.shared, pc);
        var threads := s.threads[t := pc];
        forall k: nat | Loose(s.shared, k)
          ensures exists w <- threads :: Owns(threads[w]) == Some(k)
        {
          var w :| w in s.threads && Owns(s.threads[w]) == Some(k);
          assert threads[w] == s.threads[w];
        }
      }
    case Advance(t, choice) =>
      if t in s.threads {
        var (shared, pc') := Exec(s.shared, s.threads[t], choice);
        ExecHolds(s.shared, s.threads[t], choice);
        var threads := s.threads[t := pc'];
        forall k: nat | Loose(shared, k)
          ensures exists w <- threads :: Owns(threads[w]) == Some(k)
        {
          assert threads[t] == pc';
          if Loose(s.shared, k) {
            var w :| w in s.threads && Owns(s.threads[w]) == Some(k);
            assert w != t ==> threads[w] == s.threads[w];
          }
        }
      }
  }

  lemma StartedLoose(s: Shared, pc: Pc)
    ensures forall k: nat :: Loose(Started(s, pc), k) == Loose(s, k)
  {}

  lemma {:induction false} RunOwned(s: State, actions: seq<Action>)
    requires Inv(s) && Owned(s)
    ensures Owned(Run(s, actions))
    decreases actions
  {
    hide Inv, Owned, Act;
    if actions != [] {
      ActOwned(s, actions[0]);
      ActKeeps(s, actions[0]);
      RunOwned(Act(s, actions[0]), actions[1..]);
    }
  }

  /** In every interleaving a session that is neither registered nor closing has a thread that is to register or to
      close it: a set-up that fails never forgets its session. */
  lemma NoOrphans(actions: seq<Action>, k: nat)
    requires Loose(Run(EMPTY, actions).shared, k)
    ensures var s := Run(EMPTY, actions); exists t <- s.threads :: Owns(s.threads[t]) == Some(k)
  {
    hide Run;
    assert Inv(EMPTY) && Owned(EMPTY);
    RunOwned(EMPTY, actions);
  }

  // ----- one call each -----

  ghost predicate Orderly(s: State) {
    Inv(s) && Owned(s) && OneCallEach(s.shared) && AllClear(s)
  }

  lemma SpawnClear(s: State, t: nat, pc: Pc)
    requires Orderly(s) && Starts(s.shared, pc) && t !in s.threads
    ensures AllClear(Act(s, Spawn(t, pc)))
  {
    hide Inv, Owned, Starts, OneCallEach, Unsettled, Wants, Subject, Clear;
    StartedSessions(s.shared, pc);
    StartsClear(s, pc);
    SameClear(s.shared, Started(s.shared, pc));
  }

  /** A thread that starts to close a loose session finds it clear, as the owner of the session does. */
  lemma StartsClear(s: State, pc: Pc)
    requires Owned(s) && AllClear(s) && Starts(s.shared, pc)
    ensures Clear(s.shared, pc)
  {
    if pc.CloseOnce? && Loose(s.shared, pc.session) {
      var t :| t in s.threads && Owns(s.threads[t]) == Some(pc.session);
      assert Clear(s.shared, s.threads[t]);
    }
  }

  lemma SameClear(s: Shared, t: Shared)
    requires t.sessions == s.sessions && t.byID == s.byID && t.byUser == s.byUser
    ensures forall pc :: Clear(s, pc) ==> Clear(t, pc)
  {}

  lemma AdvanceClear(s: State, t: nat, choice: Choice)
    requires Orderly(s) && !Overlap(s) && t in s.threads
    ensures AllClear(Act(s, Advance(t, choice)))
  {
    IndexIs(s.shared);
    hide SharedInv, Owned, Exec, TokenOk, TokenOf, Clear, Overlap, Moves, GoesOn, Apart, UsersPositive, OneCallEach;
    var (shared, pc') := Exec(s.shared, s.threads[t], choice);
    ExecMoves(s.shared, s.threads[t], choice);
    ExecGoesOn(s.shared, s.threads[t], choice);
    SelfClear(s.shared, s.threads[t], shared, pc');
    forall w | w in s.threads && w != t
      ensures Clear(shared, s.threads[w])
    {
      ThreadsApart(s, t, w);
      OthersClear(s.shared, s.threads[t], shared, s.threads[w]);
    }
  }

  lemma ActOrderly(s: State, a: Action)
    requires Orderly(s) && !Overlap(s)
    ensures Orderly(Act(s, a))
  {
    ActKeeps(s, a);
    ActOwned(s, a);
    NoClash(s, a);
    hide Inv, Owned, OneCallEach, Clashes, Overlap, Starts, Exec, AllClear;
    ActOneEachIff(s, a);
    match a
    case Spawn(t, pc) =>
      if Starts(s.shared, pc) && t !in s.threads { SpawnClear(s, t, pc); }
    case Advance(t, choice) =>
      if t in s.threads { AdvanceClear(s, t, choice); }
  }

  lemma NoClash(s: State, a: Action)
    requires Orderly(s)
    ensures !Clashes(s, a)
  {
    hide SharedInv, Owned, OneCallEach, TokenOk, TokenOf, Clear, Conflicts;
    if a.Advance? && a.thread in s.threads { ClearIsNoConflict(s.shared, s.threads[a.thread]); }
  }

  ghost predicate OverlapFree(s: State, actions: seq<Action>) {
    forall n | 0 <= n < |actions| :: !Overlap(Run(s, actions[..n]))
  }

  lemma OverlapFreeUnfolds(s: State, actions: seq<Action>)
    requires actions != [] && OverlapFree(s, actions)
    ensures !Overlap(s) && OverlapFree(Act(s, actions[0]), actions[1..])
  {
    hide Overlap, Act;
    var t, rest := Act(s, actions[0]), actions[1..];
    assert Run(s, actions[..0]) == s;
    forall n | 0 <= n < |rest|
      ensures !Overlap(Run(t, rest[..n]))
    {
      assert actions[..n + 1][1..] == rest[..n];
      assert Run(s, actions[..n + 1]) == Run(t, rest[..n]);
    }
  }

  lemma {:induction false} RunOrderly(s: State, actions: seq<Action>)
    requires Orderly(s) && OverlapFree(s, actions)
    ensures Throughout(s, actions)
    decreases actions
  {
    if actions == [] {
      assert Run(s, []) == s;
    } else {
      OverlapFreeUnfolds(s, actions);
      ThroughoutUnfolds(s, actions);
      ActOrderly(s, actions[0]);
      hide Inv, Owned, OneCallEach, AllClear, OverlapFree, Throughout, Act;
      RunOrderly(Act(s, actions[0]), actions[1..]);
    }
  }

  /** In every interleaving from empty tables in which no two calls of one user are set up at the same time, counted
      from the guard to the registration or to the end of the close, `callsByUser` is throughout the inverse of the
      registered sessions' users. */
  lemma OneCallWithoutOverlap(actions: seq<Action>)
    requires OverlapFree(EMPTY, actions)
    ensures Throughout(EMPTY, actions)
  {
    assert Orderly(EMPTY);
    hide Orderly, OverlapFree, Throughout;
    RunOrderly(EMPTY, actions);
  }
}
