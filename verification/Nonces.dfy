/** The registrar's nonces: made from the clock, issued with a lifetime, dropped when a late one is presented, and swept. */
module Nonces {
  import opened Wrappers
  import opened Clock

  // ----- how a nonce is made -----

  type Byte = n: nat | n < 256

  function ShiftRight(x: nat, n: nat): nat {
    if n == 0 then x else ShiftRight(x / 2, n - 1)
  }

  /** Byte `i` of a token, from the nanoseconds the clock then shows. */
  function TokenByte(nanos: nat, i: nat): Byte {
    ShiftRight(nanos, i % 8) % 256
  }

  const DIGITS := "0123456789abcdef"

  function Hex(bytes: seq<Byte>): (s: string)
    ensures |s| == 2 * |bytes|
  {
    if bytes == [] then ""
    else
      var last := bytes[|bytes| - 1];
      Hex(bytes[..|bytes| - 1]) + [DIGITS[last / 16], DIGITS[last % 16]]
  }

  function TokenBytes(readings: seq<nat>): (bytes: seq<Byte>)
    ensures |bytes| == |readings|
  {
    seq(|readings|, i requires 0 <= i < |readings| => TokenByte(readings[i], i))
  }

  /** `readings` is what the clock shows in each iteration; no randomness is involved. */
  method NewToken(readings: seq<nat>) returns (token: string)
    ensures token == Hex(TokenBytes(readings))
  {
    var b: seq<Byte> := [];
    for i := 0 to |readings|
      invariant b == TokenBytes(readings)[..i]
    {
      b := b + [TokenByte(readings[i], i)];
    }
    assert b == TokenBytes(readings);
    token := Hex(b);
  }

  /** The value of a hexadecimal digit; only small letters are printed. */
  function DigitValue(c: char): int {
    if '0' <= c <= '9' then c as int - '0' as int
    else if 'a' <= c <= 'f' then c as int - 'a' as int + 10
    else -1
  }

  lemma DigitIs(n: nat)
    requires n < 16
    ensures DigitValue(DIGITS[n]) == n
  {}

  /** Every byte is printed as two hexadecimal digits, the higher one first, in order. */
  lemma {:induction false} HexReads(bytes: seq<Byte>, i: nat)
    requires i < |bytes|
    ensures DigitValue(Hex(bytes)[2 * i]) == bytes[i] / 16 && DigitValue(Hex(bytes)[2 * i + 1]) == bytes[i] % 16
  {
    var n := |bytes| - 1;
    if i < n {
      HexReads(bytes[..n], i);
    } else {
      DigitIs(bytes[i] / 16);
      DigitIs(bytes[i] % 16);
    }
  }

  lemma HexInjective(a: seq<Byte>, b: seq<Byte>)
    requires |a| == |b|
    ensures Hex(a) == Hex(b) <==> a == b
  {
    hide Hex, DigitValue;
    if Hex(a) == Hex(b) {
      forall i | 0 <= i < |a|
        ensures a[i] == b[i]
      {
        HexReads(a, i);
        HexReads(b, i);
        assert a[i] == a[i] / 16 * 16 + a[i] % 16;
      }
    }
  }

  function ShiftLeft(x: nat, n: nat): nat {
    if n == 0 then x else 2 * ShiftLeft(x, n - 1)
  }

  lemma {:induction false} ShiftBack(x: nat, n: nat, r: nat)
    ensures ShiftRight(ShiftLeft(x, n) + r, n) == x + ShiftRight(r, n)
  {
    if n > 0 { ShiftBack(x, n - 1, r / 2); }
  }

  lemma {:induction false} ShiftOn(x: nat, n: nat, m: nat)
    ensures ShiftLeft(ShiftLeft(x, n), m) == ShiftLeft(x, n + m)
  {
    if m > 0 { ShiftOn(x, n, m - 1); }
  }

  lemma FifteenBits(q: nat)
    ensures ShiftLeft(q, 8) == 256 * q && ShiftLeft(q, 15) == 32768 * q
  {
    ShiftOn(q, 4, 4);
    ShiftOn(q, 8, 4);
    ShiftOn(q, 12, 3);
    FourBits(q);
    FourBits(ShiftLeft(q, 4));
    FourBits(ShiftLeft(q, 8));
    FourBits(ShiftLeft(q, 12));
  }

  lemma FourBits(x: nat)
    ensures ShiftLeft(x, 3) == 8 * x && ShiftLeft(x, 4) == 16 * x
  {
    assert ShiftLeft(x, 1) == 2 * x;
    assert ShiftLeft(x, 2) == 4 * x;
  }

  lemma {:induction false} ShiftBounds(x: nat, n: nat)
    ensures ShiftLeft(ShiftRight(x, n), n) <= x < ShiftLeft(ShiftRight(x, n) + 1, n)
  {
    if n > 0 { ShiftBounds(x / 2, n - 1); }
  }

  lemma ZeroBits(x: nat)
    ensures ShiftLeft(x, 0) == x
  {}

  lemma SevenBits(x: nat)
    ensures ShiftLeft(x, 1) == 2 * x && ShiftLeft(x, 2) == 4 * x && ShiftLeft(x, 3) == 8 * x && ShiftLeft(x, 4) == 16 * x
    ensures ShiftLeft(x, 5) == 32 * x && ShiftLeft(x, 6) == 64 * x && ShiftLeft(x, 7) == 128 * x
  {
    FourBits(x);
    assert ShiftLeft(x, 5) == 32 * x;
    assert ShiftLeft(x, 6) == 64 * x;
  }

  /** Byte `i` is eight bits of the clock, from bit `i` modulo eight on. */
  lemma ByteOfTheClock(x: nat, i: nat)
    ensures TokenByte(x, i) ==
            match i % 8
            case 0 => x % 256
            case 1 => x / 2 % 256
            case 2 => x / 4 % 256
            case 3 => x / 8 % 256
            case 4 => x / 16 % 256
            case 5 => x / 32 % 256
            case 6 => x / 64 % 256
            case _ => x / 128 % 256
  {
    var n, q := i % 8, ShiftRight(x, i % 8);
    hide ShiftRight, ShiftLeft;
    assert ShiftLeft(q, 0) == q && ShiftLeft(q + 1, 0) == q + 1 by { ZeroBits(q); ZeroBits(q + 1); }
    ShiftBounds(x, n);
    SevenBits(q);
    SevenBits(q + 1);
    match n
    case 0 => assert q == x;
    case 1 => assert q == x / 2;
    case 2 => assert q == x / 4;
    case 3 => assert q == x / 8;
    case 4 => assert q == x / 16;
    case 5 => assert q == x / 32;
    case 6 => assert q == x / 64;
    case _ => assert q == x / 128;
  }

  /** A byte is eight of the low fifteen bits of the clock. */
  lemma LowBitsOnly(x: nat, i: nat)
    ensures TokenByte(x, i) == TokenByte(x % 32768, i)
  {
    var q, r, n := x / 32768, x % 32768, i % 8;
    hide ShiftLeft, ShiftRight;
    var k := ShiftLeft(q, 7 - n);
    FifteenBits(q);
    FifteenBits(k);
    ShiftOn(q, 7 - n, 8);
    ShiftOn(q, 15 - n, n);
    ShiftBack(256 * k, n, r);
  }

  /** Two tokens are equal if and only if all their bytes are, and they are whenever the clock showed the same low
      fifteen bits at every byte, however far apart the two were made: nonces can repeat. */
  lemma TokensEqualIff(a: seq<nat>, b: seq<nat>)
    requires |a| == |b|
    ensures Hex(TokenBytes(a)) == Hex(TokenBytes(b))
            <==> forall i :: 0 <= i < |a| ==> TokenByte(a[i], i) == TokenByte(b[i], i)
    ensures (forall i :: 0 <= i < |a| ==> a[i] % 32768 == b[i] % 32768) ==> Hex(TokenBytes(a)) == Hex(TokenBytes(b))
  {
    HexInjective(TokenBytes(a), TokenBytes(b));
    hide TokenByte, Hex;
    forall i | 0 <= i < |a|
      ensures TokenBytes(a)[i] == TokenByte(a[i], i) && TokenBytes(b)[i] == TokenByte(b[i], i)
      ensures a[i] % 32768 == b[i] % 32768 ==> TokenByte(a[i], i) == TokenByte(b[i], i)
    {
      LowBitsOnly(a[i], i);
      LowBitsOnly(b[i], i);
    }
  }

  // ----- the table -----

  /** A check in flight: the nonce presented, and the expiry that was read for it. */
  datatype Check = Check(nonce: string, expires: int)

  function Stored(nonces: map<string, int>, nonce: string, at: int, ttl: int): map<string, int> {
    nonces[nonce := at + ttl]
  }

  /** What a sweep that read the clock at `at` leaves. */
  function Swept(nonces: map<string, int>, at: int): map<string, int> {
    map n | n in nonces && at <= nonces[n] :: nonces[n]
  }

  /** What a check leaves that finds, at `at`, the expiry it has read to be over or not. */
  function Checked(nonces: map<string, int>, check: Check, at: int): map<string, int> {
    if at > check.expires then nonces - {check.nonce} else nonces
  }

  predicate Accepts(nonces: map<string, int>, nonce: string, now: int) {
    nonce != "" && nonce in nonces && now <= nonces[nonce]
  }

  class NonceTable {
    const ttl: int
    var nonces: map<string, int>

    constructor (ttl: int)
      ensures this.ttl == ttl && nonces == map[]
    {
      this.ttl, nonces := ttl, map[];
    }

    method StoreNonce(nonce: string, now: int)
      modifies this
      ensures nonces == Stored(old(nonces), nonce, now, ttl)
    {
      nonces := nonces[nonce := now + ttl];
    }

    /** The first half of a check, under the read lock. */
    method Read(nonce: string) returns (check: Option<Check>)
      ensures check.Some? <==> nonce != "" && nonce in nonces
      ensures check.Some? ==> check.value == Check(nonce, nonces[nonce])
    {
      if nonce == "" || nonce !in nonces { return None; }
      check := Some(Check(nonce, nonces[nonce]));
    }

    /** The second half, with the clock read after the read lock is given up; it may find any table. */
    method Decide(check: Check, now: int) returns (valid: bool)
      modifies this
      ensures valid <==> now <= check.expires
      ensures nonces == Checked(old(nonces), check, now)
    {
      valid := now <= check.expires;
      if !valid { nonces := nonces - {check.nonce}; }
    }

    method ValidateNonce(nonce: string, now: int) returns (valid: bool)
      modifies this
      ensures valid <==> Accepts(old(nonces), nonce, now)
      ensures nonces ==
              if nonce != "" && nonce in old(nonces) && now > old(nonces)[nonce] then old(nonces) - {nonce}
              else old(nonces)
    {
      var check := Read(nonce);
      if check.None? { return false; }
      valid := Decide(check.value, now);
    }

    /** One tick of the sweeper, which visits the entries in any order. */
    method CleanupNonces(now: int)
      modifies this
      ensures nonces == Swept(old(nonces), now)
    {
      var todo := nonces.Keys;
      while todo != {}
        invariant todo <= old(nonces).Keys
        invariant forall n :: n in nonces <==> n in old(nonces) && (n in todo || now <= old(nonces)[n])
        invariant forall n <- nonces :: nonces[n] == old(nonces)[n]
        decreases |todo|
      {
        var n :| n in todo;
        todo := todo - {n};
        if now > nonces[n] {
          nonces := nonces - {n};
        }
      }
    }
  }

  // ----- the table over any history -----

  /**
   The critical sections of all requests and of the sweeper, in the order in which they run. A
   check reads the expiry, later reads the clock and, if it is late, drops the nonce; the sweeper
   reads the clock before it takes the lock. Anything may happen in between.
   */
  datatype Event =
    | Issue(nonce: string, at: int)
    | Look(check: nat, nonce: string) | Finish(check: nat, at: int)
    | Wake(at: int) | Sweep

  /** `checks` are those in flight, and `woken` is what the sweeper read last. */
  datatype State = State(nonces: map<string, int>, checks: map<nat, Check>, woken: Option<int>)

  function After(s: State, e: Event, ttl: int): State {
    match e
    case Issue(n, at) => s.(nonces := Stored(s.nonces, n, at, ttl))
    case Look(c, n) =>
      if n != "" && n in s.nonces && c !in s.checks then s.(checks := s.checks[c := Check(n, s.nonces[n])]) else s
    case Finish(c, at) =>
      if c in s.checks then s.(nonces := Checked(s.nonces, s.checks[c], at), checks := s.checks - {c}) else s
    case Wake(at) => s.(woken := Some(at))
    case Sweep => if s.woken.Some? then s.(nonces := Swept(s.nonces, s.woken.value)) else s
  }

  function At(h: seq<Event>, ttl: int): State {
    if h == [] then State(map[], map[], None) else After(At(h[..|h| - 1], ttl), h[|h| - 1], ttl)
  }

  function Reading(e: Event): Option<int> {
    if e.Look? || e.Sweep? then None else Some(e.at)
  }

  /** When the nonce was last issued. */
  function Latest(h: seq<Event>, nonce: string): Option<int> {
    if h == [] then None
    else if h[|h| - 1].Issue? && h[|h| - 1].nonce == nonce then Some(h[|h| - 1].at)
    else Latest(h[..|h| - 1], nonce)
  }

  /** The event finishes a check of the nonce, too late. */
  predicate Drops(s: State, e: Event, nonce: string) {
    e.Finish? && e.check in s.checks && s.checks[e.check].nonce == nonce && e.at > s.checks[e.check].expires
  }

  /** Some check has dropped the nonce since it was last issued. */
  predicate DroppedSince(h: seq<Event>, ttl: int, nonce: string) {
    if h == [] then false
    else
      var before, e := h[..|h| - 1], h[|h| - 1];
      !(e.Issue? && e.nonce == nonce) && (Drops(At(before, ttl), e, nonce) || DroppedSince(before, ttl, nonce))
  }

  /** The table holds the expiry of the latest issue, unless it was dropped since or was over when the sweeper woke. */
  ghost predicate Follows(s: State, latest: Option<int>, dropped: bool, ttl: int, nonce: string, now: int) {
    && (s.woken.Some? ==> s.woken.value <= now)
    && (nonce in s.nonces ==> latest.Some? && s.nonces[nonce] == latest.value + ttl && !dropped)
    && (nonce !in s.nonces && latest.Some? && !dropped ==> s.woken.Some? && latest.value + ttl < s.woken.value)
  }

  lemma {:induction false} TableFollows(h: seq<Event>, ttl: int, nonce: string, now: int)
    requires ClockBy(h, Reading, now)
    ensures Follows(At(h, ttl), Latest(h, nonce), DroppedSince(h, ttl, nonce), ttl, nonce, now)
  {
    if h != [] {
      var e := h[|h| - 1];
      TableFollows(h[..|h| - 1], ttl, nonce, if Reading(e).Some? then e.at else now);
    }
  }

  /** A nonce is accepted if and only if it is non-empty, was issued, its latest issue is no longer than the lifetime
      ago, and no check has dropped it since: for every interleaving of issues, checks and sweeps. */
  lemma AcceptedIff(h: seq<Event>, ttl: int, nonce: string, now: int)
    requires ClockBy(h, Reading, now)
    ensures Accepts(At(h, ttl).nonces, nonce, now)
            <==> && nonce != "" && Latest(h, nonce).Some? && now <= Latest(h, nonce).value + ttl
                 && !DroppedSince(h, ttl, nonce)
  {
    TableFollows(h, ttl, nonce, now);
  }

  /** Right after a sweep the table holds exactly the nonces that were good when the sweeper read the clock, were not
      dropped since their latest issue, or were issued since. */
  lemma SweepLeavesTheLive(h: seq<Event>, ttl: int, nonce: string, now: int)
    requires ClockBy(h, Reading, now) && At(h, ttl).woken.Some?
    ensures nonce in At(h + [Sweep], ttl).nonces
            <==> && Latest(h, nonce).Some? && At(h, ttl).woken.value <= Latest(h, nonce).value + ttl
                 && !DroppedSince(h, ttl, nonce)
  {
    assert (h + [Sweep])[..|h|] == h;
    TableFollows(h, ttl, nonce, now);
  }

  // ----- when a nonce is good for its whole lifetime -----

  /** Whatever happens after the nonce is issued at `at`, it is accepted until its lifetime is over. */
  ghost predicate GoodThroughout(h: seq<Event>, ttl: int, nonce: string, at: int) {
    forall c, now :: ClockBy(h + [Issue(nonce, at)] + c, Reading, now) && now <= at + ttl ==>
                       Accepts(At(h + [Issue(nonce, at)] + c, ttl).nonces, nonce, now)
  }

  /** No check in flight has read an expiry of the nonce before `expires`. */
  predicate NoneOlder(checks: map<nat, Check>, nonce: string, expires: int) {
    forall c <- checks :: checks[c].nonce == nonce ==> checks[c].expires >= expires
  }

  ghost predicate Kept(s: State, nonce: string, expires: int, now: int) {
    && nonce in s.nonces && s.nonces[nonce] >= expires && NoneOlder(s.checks, nonce, expires)
    && (s.woken.Some? ==> s.woken.value <= now)
  }

  lemma {:induction false} StaysKept(h: seq<Event>, c: seq<Event>, ttl: int, nonce: string, at: int, now: int)
    requires ClockBy(h + [Issue(nonce, at)] + c, Reading, now) && now <= at + ttl
    requires NoneOlder(At(h, ttl).checks, nonce, at + ttl)
    ensures at <= now && Kept(At(h + [Issue(nonce, at)] + c, ttl), nonce, at + ttl, now)
    decreases |c|
  {
    var run := h + [Issue(nonce, at)] + c;
    var n := |run| - 1;
    if c == [] {
      assert run[..n] == h && run[n] == Issue(nonce, at);
      TableFollows(h, ttl, nonce, at);
    } else {
      var e := c[|c| - 1];
      assert run[n] == e && run[..n] == h + [Issue(nonce, at)] + c[..|c| - 1];
      StaysKept(h, c[..|c| - 1], ttl, nonce, at, if Reading(e).Some? then e.at else now);
    }
  }

  /** A nonce that is issued is good for its whole lifetime, whatever happens then, if and only if no check is in
      flight that has read an expiry of an earlier issue of it. */
  lemma GoodForItsLifetimeIff(h: seq<Event>, ttl: int, nonce: string, at: int)
    requires ClockBy(h, Reading, at) && nonce != "" && ttl > 0
    ensures GoodThroughout(h, ttl, nonce, at) <==> NoneOlder(At(h, ttl).checks, nonce, at + ttl)
  {
    var issued := h + [Issue(nonce, at)];
    assert issued[..|h|] == h;
    if c :| c in At(h, ttl).checks && At(h, ttl).checks[c].nonce == nonce && At(h, ttl).checks[c].expires < at + ttl {
      var end := [Finish(c, at + ttl)];
      assert (issued + end)[..|issued|] == issued;
      assert ClockBy(issued, Reading, at + ttl);
      assert ClockBy(issued + end, Reading, at + ttl) && nonce !in At(issued + end, ttl).nonces;
    } else {
      forall c, now | ClockBy(issued + c, Reading, now) && now <= at + ttl
        ensures Accepts(At(issued + c, ttl).nonces, nonce, now)
      {
        StaysKept(h, c, ttl, nonce, at, now);
      }
    }
  }

  // ----- nonces that are not issued again while they are checked -----

  predicate InFlight(checks: map<nat, Check>, nonce: string) {
    exists c <- checks :: checks[c].nonce == nonce
  }

  /** The nonce is never issued while a check of it is in flight. */
  predicate Undisturbed(h: seq<Event>, ttl: int, nonce: string) {
    forall k | 0 <= k < |h| && h[k].Issue? && h[k].nonce == nonce :: !InFlight(At(h[..k], ttl).checks, nonce)
  }

  lemma UndisturbedBefore(h: seq<Event>, ttl: int, nonce: string)
    requires h != [] && Undisturbed(h, ttl, nonce)
    ensures Undisturbed(h[..|h| - 1], ttl, nonce)
    ensures h[|h| - 1].Issue? && h[|h| - 1].nonce == nonce ==> !InFlight(At(h[..|h| - 1], ttl).checks, nonce)
  {
    hide InFlight;
    var before := h[..|h| - 1];
    forall k | 0 <= k < |before| && before[k].Issue? && before[k].nonce == nonce
      ensures !InFlight(At(before[..k], ttl).checks, nonce)
    {
      assert before[..k] == h[..k];
    }
  }

  /** Every check in flight has read the expiry of the latest issue, and what was dropped is over. */
  lemma {:induction false} ChecksReadTheLatest(h: seq<Event>, ttl: int, nonce: string, now: int)
    requires ClockBy(h, Reading, now) && Undisturbed(h, ttl, nonce)
    ensures forall c <- At(h, ttl).checks ::
              At(h, ttl).checks[c].nonce == nonce ==>
                Latest(h, nonce).Some? && At(h, ttl).checks[c].expires == Latest(h, nonce).value + ttl
    ensures DroppedSince(h, ttl, nonce) && Latest(h, nonce).Some? ==> Latest(h, nonce).value + ttl < now
  {
    if h != [] {
      var before, e := h[..|h| - 1], h[|h| - 1];
      UndisturbedBefore(h, ttl, nonce);
      var last := if Reading(e).Some? then e.at else now;
      TableFollows(before, ttl, nonce, last);
      ChecksReadTheLatest(before, ttl, nonce, last);
    }
  }

  /** A nonce that is never issued while it is checked is accepted exactly until its latest issue is over. */
  lemma UndisturbedAcceptedIff(h: seq<Event>, ttl: int, nonce: string, now: int)
    requires ClockBy(h, Reading, now) && Undisturbed(h, ttl, nonce)
    ensures Accepts(At(h, ttl).nonces, nonce, now)
            <==> nonce != "" && Latest(h, nonce).Some? && now <= Latest(h, nonce).value + ttl
  {
    AcceptedIff(h, ttl, nonce, now);
    ChecksReadTheLatest(h, ttl, nonce, now);
  }

  predicate NotIssuedIn(h: seq<Event>, nonce: string) {
    forall e <- h :: !(e.Issue? && e.nonce == nonce)
  }

  lemma {:induction false} UnissuedIsUnknown(h: seq<Event>, ttl: int, nonce: string)
    requires NotIssuedIn(h, nonce)
    ensures nonce !in At(h, ttl).nonces && !InFlight(At(h, ttl).checks, nonce)
  {
    if h != [] {
      var before, e := h[..|h| - 1], h[|h| - 1];
      assert h == before + [e];
      UnissuedIsUnknown(before, ttl, nonce);
    }
  }

  predicate IssuedOnce(h: seq<Event>, nonce: string) {
    forall k | 0 <= k < |h| && h[k].Issue? && h[k].nonce == nonce :: NotIssuedIn(h[..k], nonce)
  }

  /** In particular a nonce that is issued once only, which the making of nonces does not ensure. */
  lemma IssuedOnceAcceptedIff(h: seq<Event>, ttl: int, nonce: string, now: int)
    requires ClockBy(h, Reading, now) && IssuedOnce(h, nonce)
    ensures Accepts(At(h, ttl).nonces, nonce, now)
            <==> nonce != "" && Latest(h, nonce).Some? && now <= Latest(h, nonce).value + ttl
  {
    forall k | 0 <= k < |h| && h[k].Issue? && h[k].nonce == nonce
      ensures !InFlight(At(h[..k], ttl).checks, nonce)
    {
      UnissuedIsUnknown(h[..k], ttl, nonce);
    }
    UndisturbedAcceptedIff(h, ttl, nonce, now);
  }

  /** A nonce that is issued again between the halves of a check is dropped by the second half while it is good. */
  lemma IssuedInBetweenIsLost(nonce: string)
    requires nonce != ""
    ensures var h := [Issue(nonce, 0), Look(7, nonce), Issue(nonce, 2), Finish(7, 2)];
            ClockBy(h, Reading, 2) && Latest(h, nonce) == Some(2) && !Accepts(At(h, 1).nonces, nonce, 2)
  {
    var h := [Issue(nonce, 0), Look(7, nonce), Issue(nonce, 2), Finish(7, 2)];
    var h1, h2 := [Issue(nonce, 0)], [Issue(nonce, 0), Look(7, nonce)];
    var h3 := h2 + [Issue(nonce, 2)];
    assert h1[..0] == [] && h2[..1] == h1 && h3[..2] == h2 && h[..3] == h3;
    assert At(h1, 1) == State(map[nonce := 1], map[], None);
    assert At(h3, 1).checks == map[7 := Check(nonce, 1)];
    assert ClockBy(h2, Reading, 2);
  }
}
