/** The refreshing half of the Android API client, with the session store and the server it updates in place. */
module ApiClient {
  import opened Wrappers
  import opened TokenRotation

  /** What happens to one refresh request on the network. */
  datatype Fate = RequestLost | ReplyLost(fault: Fault) | Delivered(fault: Fault)

  datatype Sides = Sides(session: Option<Tokens>, server: Server, result: RefreshResult)

  /** One refresh request. Only a 401 logs the client out; every other failure leaves its session alone. */
  function RefreshOnce(session: Option<Tokens>, server: Server, fate: Fate): Sides {
    if session.None? || fate.RequestLost? then Sides(session, server, OtherError)
    else
      var (server1, reply) := HandleRefresh(server, session.value.refresh, fate.fault);
      if fate.ReplyLost? then Sides(session, server1, OtherError)
      else
        match reply
        case Rotated(tokens) => Sides(Some(tokens), server1, Refreshed)
        case Unauthorized => Sides(None, server1, AuthError)
        case Failed => Sides(session, server1, OtherError)
  }

  /** `attempts` refresh requests at most; `fate(k)` is what happens to request `k`. */
  function Retries(session: Option<Tokens>, server: Server, fate: nat -> Fate, k: nat, attempts: nat): Sides
    requires attempts > 0
    decreases attempts
  {
    var first := RefreshOnce(session, server, fate(k));
    if first.result.OtherError? && attempts > 1
    then Retries(first.session, first.server, fate, k + 1, attempts - 1)
    else first
  }

  /** coerceIn(1, 5). */
  function Clamp(maxAttempts: int): (n: nat)
    ensures 1 <= maxAttempts <= 5 ==> n == maxAttempts
    ensures maxAttempts < 1 ==> n == 1
    ensures maxAttempts > 5 ==> n == 5
  {
    if maxAttempts < 1 then 1 else if maxAttempts > 5 then 5 else maxAttempts
  }

  /** backoffDelayMs. */
  function BackoffDelayMs(attempt: nat): (ms: nat)
    ensures 250 <= ms <= 1500
    ensures attempt > 0 ==> BackoffDelayMs(attempt - 1) <= ms
  {
    if attempt == 0 then 250 else if attempt == 1 then 800 else 1500
  }

  // ----- what the retries achieve -----

  /** The server stores the digest of the client's refresh token. */
  predicate Locked(session: Option<Tokens>, server: Server) {
    session.Some? && server.row == Hash(session.value.refresh) && server.row.of < server.next
  }

  /** The request changes nothing on either side. */
  predicate Harmless(fate: Fate) {
    fate.RequestLost? || (fate.ReplyLost? && !fate.fault.NoFault?) || fate == Delivered(IssueFault)
  }

  lemma HarmlessChangesNothing(session: Option<Tokens>, server: Server, fate: Fate)
    requires Locked(session, server) && server.alive
    ensures RefreshOnce(session, server, fate) == Sides(session, server, OtherError) <==> Harmless(fate)
  {}

  /** From a client that is out of step nothing is refreshed. */
  lemma {:induction false} OutOfStep(session: Option<Tokens>, server: Server, fate: nat -> Fate, k: nat, attempts: nat)
    requires attempts > 0 && (session.None? || !server.alive || server.row != Hash(session.value.refresh))
    ensures !Retries(session, server, fate, k, attempts).result.Refreshed?
    ensures Retries(session, server, fate, k, attempts).server == server
    decreases attempts
  {
    if attempts > 1 {
      OutOfStep(session, server, fate, k + 1, attempts - 1);
    }
  }

  /** The first request that matters, if there is one, is request `j`. */
  predicate FirstThatMatters(fate: nat -> Fate, k: nat, attempts: nat, j: nat) {
    k <= j < k + attempts && !Harmless(fate(j)) && forall i :: k <= i < j ==> Harmless(fate(i))
  }

  /** From lock-step, the retries succeed if and only if the first request that is not harmless is answered with new
      tokens. They then leave both sides in lock-step after exactly one rotation. */
  lemma {:induction false} RetriesSucceedIff(session: Option<Tokens>, server: Server, fate: nat -> Fate, k: nat, attempts: nat)
    requires attempts > 0 && Locked(session, server) && server.alive
    ensures var end := Retries(session, server, fate, k, attempts);
            && (end.result.Refreshed? <==> exists j :: FirstThatMatters(fate, k, attempts, j) && fate(j) == Delivered(NoFault))
            && (end.result.Refreshed? ==> Locked(end.session, end.server) && end.server.issued == server.issued + 1)
    decreases attempts
  {
    HarmlessChangesNothing(session, server, fate(k));
    if Harmless(fate(k)) {
      if attempts > 1 {
        RetriesSucceedIff(session, server, fate, k + 1, attempts - 1);
        forall j
          ensures FirstThatMatters(fate, k, attempts, j) <==> FirstThatMatters(fate, k + 1, attempts - 1, j)
        {
        }
      }
    } else {
      assert FirstThatMatters(fate, k, attempts, k);
      var first := RefreshOnce(session, server, fate(k));
      if first.result.OtherError? && attempts > 1 {
        OutOfStep(first.session, first.server, fate, k + 1, attempts - 1);
      }
    }
  }

  /** Afterwards the two sides are in lock-step exactly when the server rotated no more than the client saved. */
  lemma {:induction false} LockedAfterIff(session: Option<Tokens>, server: Server, fate: nat -> Fate, k: nat, attempts: nat)
    requires attempts > 0 && Locked(session, server) && server.alive
    ensures var end := Retries(session, server, fate, k, attempts);
            && (end.session.Some? ==>
                  (Locked(end.session, end.server) <==> end.server.issued == server.issued + One(end.result.Refreshed?)))
            && (end.session.None? <==> end.result.AuthError?)
    decreases attempts
  {
    HarmlessChangesNothing(session, server, fate(k));
    var first := RefreshOnce(session, server, fate(k));
    if first.result.OtherError? && attempts > 1 {
      if Harmless(fate(k)) {
        LockedAfterIff(session, server, fate, k + 1, attempts - 1);
      } else {
        StaysOutOfStep(first.session, first.server, fate, k + 1, attempts - 1);
      }
    }
  }

  lemma {:induction false} StaysOutOfStep(session: Option<Tokens>, server: Server, fate: nat -> Fate, k: nat, attempts: nat)
    requires attempts > 0 && session.Some? && server.alive && server.row != Hash(session.value.refresh)
    ensures var end := Retries(session, server, fate, k, attempts);
            && end.server == server && !end.result.Refreshed?
            && ((end.session == session && end.result.OtherError?) || (end.session.None? && end.result.AuthError?))
    decreases attempts
  {
    if attempts > 1 {
      StaysOutOfStep(session, server, fate, k + 1, attempts - 1);
    }
  }

  // ----- the retries are what the holder of the mutex does step by step -----

  function HolderRun(s: Shared, pc: Pc, choices: seq<Choice>): (Shared, Pc)
    decreases choices
  {
    if choices == [] then (s, pc)
    else
      var (s1, pc1) := ExecHolder(s, pc, choices[0]);
      HolderRun(s1, pc1, choices[1..])
  }

  lemma {:induction false} HolderRunAppend(s: Shared, pc: Pc, first: seq<Choice>, second: seq<Choice>)
    ensures HolderRun(s, pc, first + second)
            == (var (s1, pc1) := HolderRun(s, pc, first); HolderRun(s1, pc1, second))
    decreases first
  {
    if first == [] {
      assert [] + second == second;
    } else {
      var (s1, pc1) := ExecHolder(s, pc, first[0]);
      assert (first + second)[1..] == first[1..] + second;
      HolderRunAppend(s1, pc1, first[1..], second);
    }
  }

  /** The choices by which the machine acts out one fate. */
  function Choices(fate: Fate): seq<Choice> {
    match fate
    case RequestLost => [Choice(true, NoFault), Choice(false, NoFault)]
    case ReplyLost(fault) => [Choice(true, NoFault), Choice(true, fault), Choice(false, NoFault)]
    case Delivered(fault) => [Choice(true, NoFault), Choice(true, fault), Choice(true, NoFault)]
  }

  lemma OneAttempt(s: Shared, access: nat, k: nat, fate: Fate)
    requires s.session.Some?
    ensures var (s', pc') := HolderRun(s, Attempt(access, k), Choices(fate));
            var end := RefreshOnce(s.session, s.server, fate);
            && s'.session == end.session && s'.server == end.server
            && pc' == if end.result.OtherError? then Again(access, k) else Unlock(access, end.result)
  {
    var c := Choices(fate);
    var (s1, pc1) := ExecHolder(s, Attempt(access, k), c[0]);
    var (s2, pc2) := ExecHolder(s1, pc1, c[1]);
    hide ExecHolder, HandleRefresh;
    assert HolderRun(s1, pc1, c[1..]) == HolderRun(s2, pc2, c[1..][1..]);
    if fate.RequestLost? {
      assert HolderRun(s2, pc2, []) == (s2, pc2);
    } else {
      var (s3, pc3) := ExecHolder(s2, pc2, c[2]);
      assert c[1..][1..] == [c[2]];
      assert HolderRun(s2, pc2, [c[2]]) == HolderRun(s3, pc3, []);
    }
  }

  /** Whatever happens to the requests, the machine can act out the three attempts exactly as the loop makes them. */
  lemma {:induction false} LoopIsStepwise(s: Shared, access: nat, k: nat, fate: nat -> Fate) returns (choices: seq<Choice>)
    requires s.session.Some? && k <= 2
    ensures var (s', pc') := HolderRun(s, Attempt(access, k), choices);
            var end := Retries(s.session, s.server, fate, k, 3 - k);
            s'.session == end.session && s'.server == end.server && pc' == Unlock(access, end.result)
    decreases 2 - k
  {
    choices := Choices(fate(k));
    OneAttempt(s, access, k, fate(k));
    var (s1, pc1) := HolderRun(s, Attempt(access, k), choices);
    var first := RefreshOnce(s.session, s.server, fate(k));
    if first.result.OtherError? && k < 2 {
      hide HolderRun, Choices;
      var rest := LoopIsStepwise(s1, access, k + 1, fate);
      HolderRunAppend(s, Attempt(access, k), choices, rest);
      choices := choices + rest;
    }
  }

  // ----- the objects -----

  class SessionStore {
    var session: Option<Tokens>

    constructor (tokens: Tokens)
      ensures session == Some(tokens)
    {
      session := Some(tokens);
    }

    method SaveSession(tokens: Tokens)
      modifies this
      ensures session == Some(tokens)
    {
      session := Some(tokens);
    }

    method ClearSession()
      modifies this
      ensures session == None
    {
      session := None;
    }
  }

  /** The device row of the client, and the server's supply of fresh tokens. */
  class AuthServer {
    var refreshTokenHash: Hash
    var alive: bool
    var next: nat
    var issued: nat

    constructor (refresh: nat)
      ensures refreshTokenHash == Hash(refresh) && alive && next == refresh + 1 && issued == 0
    {
      refreshTokenHash, alive, next, issued := Hash(refresh), true, refresh + 1, 0;
    }

    function View(): Server
      reads this
    {
      Server(refreshTokenHash, alive, next, issued)
    }

    /** issueDeviceSession: new tokens, and the upsert of the row. */
    method IssueDeviceSession() returns (tokens: Tokens)
      modifies this
      ensures HandleRefresh(Server(old(refreshTokenHash), true, old(next), old(issued)), old(refreshTokenHash).of, NoFault)
              == (View().(alive := true), Rotated(tokens))
      ensures alive == old(alive)
    {
      tokens := Tokens(next, next + 1);
      refreshTokenHash := Hash(tokens.refresh);
      next := next + 2;
      issued := issued + 1;
    }

    /** handleRefresh. */
    method Refresh(sent: nat, fault: Fault) returns (reply: Reply)
      modifies this
      ensures (View(), reply) == HandleRefresh(old(View()), sent, fault)
    {
      if fault.LookupFault? || !alive || refreshTokenHash != Hash(sent) {
        return Unauthorized;
      }
      if fault.IssueFault? {
        return Failed;
      }
      var tokens := IssueDeviceSession();
      reply := Rotated(tokens);
    }
  }

  class Client {
    const store: SessionStore
    const server: AuthServer

    constructor (store: SessionStore, server: AuthServer)
      ensures this.store == store && this.server == server
    {
      this.store, this.server := store, server;
    }

    method Refresh(fate: Fate) returns (result: RefreshResult)
      modifies store, server
      ensures Sides(store.session, server.View(), result) == RefreshOnce(old(store.session), old(server.View()), fate)
    {
      if store.session.None? || fate.RequestLost? {
        return OtherError;
      }
      var reply := server.Refresh(store.session.value.refresh, fate.fault);
      if fate.ReplyLost? {
        return OtherError;
      }
      match reply
      case Unauthorized =>
        store.ClearSession();
        result := AuthError;
      case Failed =>
        result := OtherError;
      case Rotated(tokens) =>
        store.SaveSession(tokens);
        result := Refreshed;
    }

    /** `delays` are the pauses it made, one before each repeated attempt. */
    method RefreshWithRetry(maxAttempts: int, fate: nat -> Fate) returns (result: RefreshResult, delays: seq<nat>)
      modifies store, server
      ensures Sides(store.session, server.View(), result)
              == Retries(old(store.session), old(server.View()), fate, 0, Clamp(maxAttempts))
      ensures |delays| < Clamp(maxAttempts) && delays <= [250, 800, 1500, 1500]
      ensures result.OtherError? ==> |delays| == Clamp(maxAttempts) - 1
    {
      var attempts := Clamp(maxAttempts);
      delays := [];
      var idx := 0;
      while idx < attempts
        invariant 0 <= idx <= attempts
        invariant idx < attempts ==>
                    Retries(store.session, server.View(), fate, idx, attempts - idx)
                    == Retries(old(store.session), old(server.View()), fate, 0, attempts)
        invariant idx == attempts ==>
                    Sides(store.session, server.View(), OtherError)
                    == Retries(old(store.session), old(server.View()), fate, 0, attempts)
        invariant |delays| == if idx < attempts then idx else attempts - 1
        invariant forall i :: 0 <= i < |delays| ==> delays[i] == BackoffDelayMs(i)
      {
        result := Refresh(fate(idx));
        if !result.OtherError? {
          return;
        }
        if idx < attempts - 1 {
          delays := delays + [BackoffDelayMs(idx)];
        }
        idx := idx + 1;
      }
      result := OtherError;
    }

    /** Called with the mutex held: another request may have refreshed since `captured` was read. */
    method RefreshIfNeeded(captured: Tokens, fate: nat -> Fate) returns (result: RefreshResult)
      modifies store, server
      ensures old(store.session).Some? && old(store.session).value.access != captured.access ==>
                result == Refreshed && store.session == old(store.session) && server.View() == old(server.View())
      ensures old(store.session).Some? && old(store.session).value.access == captured.access ==>
                Sides(store.session, server.View(), result) == Retries(old(store.session), old(server.View()), fate, 0, 3)
      ensures old(store.session).None? ==>
                result == OtherError && store.session.None? && server.View() == old(server.View())
    {
      if store.session.None? {
        return OtherError;
      }
      if store.session.value.access != captured.access {
        return Refreshed;
      }
      var delays;
      result, delays := RefreshWithRetry(3, fate);
    }
  }
}
