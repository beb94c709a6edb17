/**
 Rotation of the refresh token between the Android client and the server. Any number of
 requests run at once; a request whose access token has expired refreshes under the client's
 mutex, unless another request has done so already. Requests and replies may be lost, a
 request that was given up may reach the server late, and requests may be cancelled.
 */
module TokenRotation {
  import opened Wrappers

  /** The digest the server stores; it is injective. */
  datatype Hash = Hash(of: nat)

  datatype Tokens = Tokens(access: nat, refresh: nat)

  /** The device row. It is dead once it has expired or its device or user is deleted. `issued` counts rotations. */
  datatype Server = Server(row: Hash, alive: bool, next: nat, issued: nat)

  /** Where the server's own database may fail: reading the row or its user, or issuing the new session. */
  datatype Fault = NoFault | LookupFault | IssueFault

  datatype Reply = Rotated(tokens: Tokens) | Unauthorized | Failed

  /** The server's refresh handler, which is atomic. */
  function HandleRefresh(s: Server, sent: nat, fault: Fault): (Server, Reply) {
    if fault.LookupFault? || !s.alive || s.row != Hash(sent) then (s, Unauthorized)
    else if fault.IssueFault? then (s, Failed)
    else (s.(row := Hash(s.next + 1), next := s.next + 2, issued := s.issued + 1), Rotated(Tokens(s.next, s.next + 1)))
  }

  // ----- the machine -----

  datatype RefreshResult = Refreshed | AuthError | OtherError

  datatype Result = Answered | StillUnauthorized | NotLoggedIn | RefreshFailed(r: RefreshResult) | NetworkError | Cancelled

  /** One authenticated request; `access` is the access token it was first sent with. */
  datatype Pc =
    | Start | Send(access: nat) | WaitLock(access: nat) | Compare(access: nat)
    | Attempt(access: nat, k: nat) | InFlight(access: nat, k: nat, sent: nat) | Replied(access: nat, k: nat, reply: Reply)
    | Unlock(access: nat, r: RefreshResult) | Reread(access: nat) | Retry(access: nat, again: nat)
    | Done(result: Result)

  predicate Holds(pc: Pc) {
    pc.Compare? || pc.Attempt? || pc.InFlight? || pc.Replied? || pc.Unlock?
  }

  /** The client saved a new session in place of `from`. */
  datatype Save = Save(captured: nat, from: Tokens, to: Tokens)

  /** `lost` is set when the server has rotated and the client will never hear of it; `known` are the refresh tokens
      the client has held; `pending` is a rotation whose reply is on its way. */
  datatype Shared = Shared(
    session: Option<Tokens>, mutex: Option<nat>, server: Server, expired: set<nat>, stray: set<nat>,
    lost: bool, known: set<nat>, pending: Option<Tokens>, saves: seq<Save>)

  datatype Choice = Choice(delivered: bool, fault: Fault)

  function Again(access: nat, k: nat): Pc {
    if k < 2 then Attempt(access, k + 1) else Unlock(access, OtherError)
  }

  function SaveSession(s: Shared, access: nat, from: Tokens, to: Tokens): Shared {
    s.(session := Some(to), known := s.known + {to.refresh}, pending := None, saves := s.saves + [Save(access, from, to)])
  }

  /** The server handles the refresh of the mutex's holder. */
  function Answer(s: Shared, sent: nat, fault: Fault): (Shared, Reply) {
    var (server, reply) := HandleRefresh(s.server, sent, fault);
    (s.(server := server, pending := if reply.Rotated? then Some(reply.tokens) else s.pending), reply)
  }

  function DropReply(s: Shared, reply: Reply): Shared {
    if reply.Rotated? then s.(lost := true, pending := None) else s
  }

  /** One step of request `t` outside the mutex. */
  function ExecFree(s: Shared, t: nat, pc: Pc, c: Choice): (Shared, Pc) {
    match pc
    case Start => (s, if s.session.Some? then Send(s.session.value.access) else Done(NotLoggedIn))
    case Send(a) =>
      (s, if !c.delivered then Done(NetworkError) else if a in s.expired then WaitLock(a) else Done(Answered))
    case WaitLock(a) => if s.mutex.None? then (s.(mutex := Some(t)), Compare(a)) else (s, pc)
    case Reread(a) => (s, if s.session.Some? then Retry(a, s.session.value.access) else Done(NotLoggedIn))
    case Retry(a, b) =>
      (s, Done(if !c.delivered then NetworkError else if b in s.expired then StillUnauthorized else Answered))
    case _ => (s, pc)
  }

  /** One step of the request that holds the mutex. */
  function ExecHolder(s: Shared, pc: Pc, c: Choice): (Shared, Pc) {
    match pc
    case Compare(a) =>
      (s, if s.session.None? then Unlock(a, OtherError)
          else if s.session.value.access != a then Unlock(a, Refreshed)
          else Attempt(a, 0))
    case Attempt(a, k) => (s, if s.session.None? then Again(a, k) else InFlight(a, k, s.session.value.refresh))
    case InFlight(a, k, sent) =>
      if !c.delivered then (s.(stray := s.stray + {sent}), Again(a, k))
      else
        var (s1, reply) := Answer(s, sent, c.fault);
        (s1, Replied(a, k, reply))
    case Replied(a, k, reply) =>
      if !c.delivered then (DropReply(s, reply), Again(a, k))
      else
        (match reply
         case Rotated(tokens) =>
           (if s.session.Some? then SaveSession(s, a, s.session.value, tokens) else s, Unlock(a, Refreshed))
         case Unauthorized => (s.(session := None), Unlock(a, AuthError))
         case Failed => (s, Again(a, k)))
    case Unlock(a, r) => (s.(mutex := None), if r.Refreshed? then Reread(a) else Done(RefreshFailed(r)))
    case _ => (s, pc)
  }

  /** A cancelled request lets go of the mutex; what it has sent may still reach the server. */
  function Abandon(s: Shared, pc: Pc): Shared {
    var s1 := if pc.InFlight? then s.(stray := s.stray + {pc.sent}) else if pc.Replied? then DropReply(s, pc.reply) else s;
    if Holds(pc) then s1.(mutex := None) else s1
  }

  datatype World = World(shared: Shared, threads: map<nat, Pc>)

  datatype Action =
    | Spawn(t: nat) | Step(t: nat, choice: Choice) | Cancel(t: nat)
    | ExpireAccess(access: nat) | Revoke | Straggle(sent: nat, fault: Fault)

  function Act(w: World, a: Action): World {
    match a
    case Spawn(t) => if t in w.threads then w else w.(threads := w.threads[t := Start])
    case Step(t, c) =>
      if t !in w.threads then w
      else
        var (s, pc) := if Holds(w.threads[t]) then ExecHolder(w.shared, w.threads[t], c) else ExecFree(w.shared, t, w.threads[t], c);
        World(s, w.threads[t := pc])
    case Cancel(t) =>
      if t !in w.threads || w.threads[t].Done? then w
      else World(Abandon(w.shared, w.threads[t]), w.threads[t := Done(Cancelled)])
    case ExpireAccess(access) =>
      if access < w.shared.server.next then w.(shared := w.shared.(expired := w.shared.expired + {access})) else w
    case Revoke => w.(shared := w.shared.(server := w.shared.server.(alive := false)))
    case Straggle(sent, fault) =>
      if sent !in w.shared.stray then w
      else
        var (server, reply) := HandleRefresh(w.shared.server, sent, fault);
        w.(shared := w.shared.(server := server, lost := w.shared.lost || reply.Rotated?))
  }

  function Run(w: World, actions: seq<Action>): World
    decreases actions
  {
    if actions == [] then w else Run(Act(w, actions[0]), actions[1..])
  }

  /** Just logged in. */
  const LOGGED_IN := World(
    Shared(Some(Tokens(0, 1)), None, Server(Hash(1), true, 2, 0), {}, {}, false, {1}, None, []), map[])

  // ----- the invariant -----

  function One(b: bool): nat {
    if b then 1 else 0
  }

  /** The client's tokens against the server's row. */
  ghost predicate TokensOk(session: Option<Tokens>, server: Server, stray: set<nat>, lost: bool, known: set<nat>, pending: Option<Tokens>) {
    && server.row.of < server.next && stray <= known && (forall n <- known :: n < server.next)
    && (session.Some? ==> session.value.refresh in known && session.value.access < server.next)
    && (pending.Some? ==>
          && !lost && server.row == Hash(pending.value.refresh) && pending.value.refresh !in known
          && session.Some? && session.value.access < pending.value.access < server.next)
    && (lost ==> server.row.of !in known)
    && (!lost && pending.None? ==>
          server.row.of in known && (session.Some? ==> session.value.refresh == server.row.of))
  }

  /** Each save replaces the session the save before it made, and was made by a request that was sent with it. */
  ghost predicate Chain(saves: seq<Save>, session: Option<Tokens>) {
    && (forall k :: 0 <= k < |saves| ==> saves[k].captured == saves[k].from.access < saves[k].to.access)
    && (forall k :: 0 < k < |saves| ==> saves[k - 1].to == saves[k].from)
    && (session.Some? && saves != [] ==> saves[|saves| - 1].to == session.value)
  }

  ghost predicate SharedOk(s: Shared) {
    && TokensOk(s.session, s.server, s.stray, s.lost, s.known, s.pending)
    && Chain(s.saves, s.session)
    && s.server.issued == |s.saves| + One(s.lost) + One(s.pending.Some?)
    && (s.mutex.None? ==> s.pending.None?)
    && (forall a <- s.expired :: a < s.server.next)
  }

  ghost predicate NotNewer(session: Option<Tokens>, access: nat) {
    session.Some? ==> access <= session.value.access
  }

  ghost predicate Newer(session: Option<Tokens>, access: nat) {
    session.Some? ==> access < session.value.access
  }

  ghost predicate Refreshing(session: Option<Tokens>, access: nat, k: nat) {
    session.Some? && session.value.access == access && k <= 2
  }

  ghost predicate ThreadOk(s: Shared, t: nat, pc: Pc) {
    && (Holds(pc) <==> s.mutex == Some(t))
    && match pc
       case Start => true
       case Send(a) => NotNewer(s.session, a)
       case WaitLock(a) => NotNewer(s.session, a)
       case Compare(a) => NotNewer(s.session, a) && s.pending.None?
       case Attempt(a, k) => Refreshing(s.session, a, k) && s.pending.None?
       case InFlight(a, k, sent) => Refreshing(s.session, a, k) && s.pending.None? && s.session.value.refresh == sent
       case Replied(a, k, reply) =>
         Refreshing(s.session, a, k) && s.pending == if reply.Rotated? then Some(reply.tokens) else None
       case Unlock(a, r) => s.pending.None? && (r.Refreshed? ==> Newer(s.session, a))
       case Reread(a) => Newer(s.session, a)
       case Retry(a, b) => a < b
       case Done(_) => true
  }

  ghost predicate Inv(w: World) {
    && SharedOk(w.shared)
    && (w.shared.mutex.Some? ==> w.shared.mutex.value in w.threads)
    && forall t <- w.threads :: ThreadOk(w.shared, t, w.threads[t])
  }

  /** The session, once there is one, only moves to newer access tokens. */
  ghost predicate Moves(s: Shared, s': Shared) {
    s'.session.Some? ==> s.session.Some? && s.session.value.access <= s'.session.value.access
  }

  lemma FreeKeeps(s: Shared, t: nat, pc: Pc, c: Choice)
    requires SharedOk(s) && ThreadOk(s, t, pc) && !Holds(pc)
    ensures var (s', pc') := ExecFree(s, t, pc, c);
            && SharedOk(s') && ThreadOk(s', t, pc') && s'.session == s.session && s'.pending == s.pending
            && (s'.mutex == s.mutex || (s.mutex.None? && s'.mutex == Some(t)))
  {
    hide TokensOk, Chain;
  }

  lemma SaveChain(saves: seq<Save>, access: nat, from: Tokens, to: Tokens)
    requires Chain(saves, Some(from)) && access == from.access < to.access
    ensures Chain(saves + [Save(access, from, to)], Some(to))
  {}

  lemma HolderKeeps(s: Shared, t: nat, pc: Pc, c: Choice)
    requires SharedOk(s) && ThreadOk(s, t, pc) && Holds(pc)
    ensures var (s', pc') := ExecHolder(s, pc, c);
            && SharedOk(s') && ThreadOk(s', t, pc') && Moves(s, s')
            && (s'.mutex == s.mutex || s'.mutex.None?)
  {
    hide Chain;
    ChainKept(s);
    if pc.Replied? && pc.reply.Rotated? && s.session.Some? {
      SaveChain(s.saves, pc.access, s.session.value, pc.reply.tokens);
    }
  }

  /** Logging out keeps the chain. */
  lemma ChainKept(s: Shared)
    requires Chain(s.saves, s.session)
    ensures Chain(s.saves, None)
  {}

  lemma OtherThread(s: Shared, s': Shared, t: nat, u: nat, pc: Pc)
    requires ThreadOk(s, u, pc) && u != t && s.mutex != Some(u) && s'.mutex != Some(u)
    requires Moves(s, s')
    ensures ThreadOk(s', u, pc)
  {}

  lemma AbandonKeeps(s: Shared, t: nat, pc: Pc)
    requires SharedOk(s) && ThreadOk(s, t, pc)
    ensures var s' := Abandon(s, pc);
            && SharedOk(s') && s'.mutex != Some(t) && s'.session == s.session
            && (s'.mutex == s.mutex || (s.mutex == Some(t) && s'.mutex.None?))
  {
    hide Chain;
  }

  lemma StraggleKeeps(s: Shared, sent: nat, fault: Fault)
    requires SharedOk(s) && sent in s.stray
    ensures var (server, reply) := HandleRefresh(s.server, sent, fault);
            SharedOk(s.(server := server, lost := s.lost || reply.Rotated?))
  {
    hide Chain;
  }

  lemma StepKeeps(w: World, t: nat, c: Choice)
    requires Inv(w) && t in w.threads
    ensures Inv(Act(w, Step(t, c)))
  {
    var w' := Act(w, Step(t, c));
    assert ThreadOk(w.shared, t, w.threads[t]);
    hide SharedOk, ThreadOk, ExecHolder, ExecFree;
    if Holds(w.threads[t]) {
      HolderKeeps(w.shared, t, w.threads[t], c);
      HolderOwns(w.shared, t, w.threads[t]);
    } else {
      FreeKeeps(w.shared, t, w.threads[t], c);
      FreeKeepsLocked(w.shared, t, w.threads[t], c);
    }
    OthersKeep(w, w', t);
  }

  lemma HolderOwns(s: Shared, t: nat, pc: Pc)
    requires ThreadOk(s, t, pc) && Holds(pc)
    ensures s.mutex == Some(t)
  {}

  /** A request that waits while another holds the mutex changes nothing. */
  lemma FreeKeepsLocked(s: Shared, t: nat, pc: Pc, c: Choice)
    requires !Holds(pc)
    ensures var s' := ExecFree(s, t, pc, c).0;
            Moves(s, s') && (s.mutex.Some? ==> s' == s)
  {}

  lemma CancelKeeps(w: World, t: nat)
    requires Inv(w) && t in w.threads && !w.threads[t].Done?
    ensures Inv(Act(w, Cancel(t)))
  {
    assert ThreadOk(w.shared, t, w.threads[t]);
    AbandonKeeps(w.shared, t, w.threads[t]);
    AbandonLocked(w.shared, t, w.threads[t]);
    hide SharedOk, Abandon;
    OthersKeep(w, Act(w, Cancel(t)), t);
  }

  lemma AbandonLocked(s: Shared, t: nat, pc: Pc)
    requires ThreadOk(s, t, pc)
    ensures s.mutex.Some? && s.mutex != Some(t) ==> Abandon(s, pc) == s
  {}

  lemma ActKeeps(w: World, a: Action)
    requires Inv(w)
    ensures Inv(Act(w, a))
  {
    match a
    case Spawn(t) =>
    case Step(t, c) => if t in w.threads { StepKeeps(w, t, c); }
    case Cancel(t) => if t in w.threads && !w.threads[t].Done? { CancelKeeps(w, t); }
    case ExpireAccess(access) =>
    case Revoke =>
    case Straggle(sent, fault) =>
      if sent in w.shared.stray { StraggleKeeps(w.shared, sent, fault); }
  }

  lemma OthersKeep(w: World, w': World, t: nat)
    requires Inv(w) && t in w.threads && SharedOk(w'.shared) && Moves(w.shared, w'.shared)
    requires t in w'.threads && ThreadOk(w'.shared, t, w'.threads[t])
    requires w'.threads == w.threads[t := w'.threads[t]]
    requires w'.shared.mutex == w.shared.mutex || w'.shared.mutex == Some(t) || w'.shared.mutex.None?
    requires w.shared.mutex.Some? && w.shared.mutex != Some(t) ==> w'.shared.mutex == w.shared.mutex && w'.shared == w.shared
    ensures Inv(w')
  {
    hide SharedOk;
    forall u | u in w'.threads
      ensures ThreadOk(w'.shared, u, w'.threads[u])
    {
      if u != t && w.shared.mutex != Some(u) {
        OtherThread(w.shared, w'.shared, t, u, w.threads[u]);
      }
    }
  }
}
