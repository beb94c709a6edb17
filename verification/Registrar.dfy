/** REGISTER requests: the digest challenge, the lifetime asked for, and the binding they leave in the store. */
module Registrar {
  import opened Wrappers
  import opened Strings
  import D = Database
  import S = Store
  import H = StoreHistory
  import N = Nonces

  datatype Contact = NoContact | Contact(wildcard: bool, uri: string, expires: Option<string>)

  /** What the registrar reads of the Authorization header; `digestOk` is the outcome of comparing the response. */
  datatype Credentials = NoHeader | Unparsable | Credentials(username: string, nonce: string, digestOk: bool)

  /** What the store answers when asked for the box of the SIP user name. */
  datatype Lookup = Found(box: int) | Unknown | Broken

  datatype Request = Request(
    auth: Credentials, toUser: Option<string>, lookup: Lookup, contact: Contact, expires: Option<string>,
    source: string, transport: string, callID: string, userAgent: string)

  datatype Answer = Challenge(nonce: string) | Forbidden | BadRequest | ServerError | Accepted

  const DEFAULT_EXPIRES := 3600

  /** The contact's own parameter first, then the header; what is not a number is passed over. */
  function ParseRegisterExpires(contact: Contact, header: Option<string>): (n: int)
    ensures -INT64_LIMIT <= n < INT64_LIMIT
  {
    if contact.Contact? && contact.expires.Some? && Atoi(Trim(contact.expires.value)).Some?
    then Atoi(Trim(contact.expires.value)).value
    else if header.Some? && Atoi(Trim(header.value)).Some? then Atoi(Trim(header.value)).value
    else DEFAULT_EXPIRES
  }

  /** The user name falls back to the To header. */
  function Username(r: Request): (name: string)
    requires r.auth.Credentials?
    ensures Trim(r.auth.username) != "" ==> name == r.auth.username
    ensures Trim(r.auth.username) == "" && r.toUser.Some? ==> name == r.toUser.value
    ensures Trim(r.auth.username) == "" && r.toUser.None? ==> name == r.auth.username
  {
    if Trim(r.auth.username) == "" && r.toUser.Some? then r.toUser.value else r.auth.username
  }

  /** The request names a user and holds a live nonce. */
  predicate Known(r: Request, nonces: map<string, int>, now: int) {
    r.auth.Credentials? && Username(r) != "" && N.Accepts(nonces, r.auth.nonce, now)
  }

  /** It also comes from somebody who holds the password of an existing box. */
  predicate Authentic(r: Request, nonces: map<string, int>, now: int) {
    Known(r, nonces, now) && r.lookup.Found? && r.auth.digestOk
  }

  function Info(r: Request): D.Registration
    requires r.contact.Contact?
  {
    D.Registration(r.contact.uri, r.source, r.transport, r.callID, r.userAgent, 0, 0)
  }

  /** What an authentic request does to the store, if the database takes it. */
  function Bind(db: D.Db, box: int, r: Request, now: int): D.Db {
    H.Step(db, H.Register(box, if r.contact.Contact? then Info(r) else D.Registration("", "", "", "", "", 0, 0),
                          ParseRegisterExpires(r.contact, r.expires), now))
  }

  /** The credentials name a user, and the nonce is checked. */
  predicate Checked(r: Request) {
    r.auth.Credentials? && Username(r) != ""
  }

  /** The nonce is known and over, so that the check drops it. */
  predicate Late(r: Request, nonces: map<string, int>, now: int) {
    Checked(r) && r.auth.nonce != "" && r.auth.nonce in nonces && now > nonces[r.auth.nonce]
  }

  /** The request has no contact that can be bound. */
  predicate NoUsableContact(r: Request) {
    r.contact.NoContact? || r.contact.wildcard
  }

  /** An authentic request that asks for a lifetime and has no such contact. */
  predicate Malformed(r: Request) {
    ParseRegisterExpires(r.contact, r.expires) > 0 && NoUsableContact(r)
  }

  class Service {
    const store: S.Store
    const nonces: N.NonceTable

    constructor (store: S.Store, nonces: N.NonceTable)
      ensures this.store == store && this.nonces == nonces
    {
      this.store, this.nonces := store, nonces;
    }

    method ReplyAuthChallenge(newNonce: string, now: int) returns (answer: Answer)
      modifies nonces
      ensures answer == Challenge(newNonce)
      ensures nonces.nonces == N.Stored(old(nonces.nonces), newNonce, now, nonces.ttl)
    {
      nonces.StoreNonce(newNonce, now);
      answer := Challenge(newNonce);
    }

    /** `newNonce` is the nonce generated if the request is challenged; `writeOk` is whether the database takes the
        change. A release is answered with success even if it does not. */
    method OnRegister(r: Request, newNonce: string, now: int, writeOk: bool) returns (answer: Answer)
      modifies store, nonces
      ensures answer.Challenge? <==>
              !r.auth.Credentials?
              || (Checked(r) && !Known(r, old(nonces.nonces), now))
              || (Known(r, old(nonces.nonces), now) && r.lookup.Found? && !r.auth.digestOk)
      ensures answer.Forbidden? <==>
              (r.auth.Credentials? && Username(r) == "") || (Known(r, old(nonces.nonces), now) && r.lookup.Unknown?)
      ensures answer.BadRequest? <==> Authentic(r, old(nonces.nonces), now) && Malformed(r)
      ensures answer.ServerError? <==>
              || (Known(r, old(nonces.nonces), now) && r.lookup.Broken?)
              || (&& Authentic(r, old(nonces.nonces), now) && !Malformed(r) && ParseRegisterExpires(r.contact, r.expires) > 0
                  && !(writeOk && r.lookup.box in old(store.boxes)))
      ensures store.View() ==
              if Authentic(r, old(nonces.nonces), now) && !Malformed(r) && writeOk then Bind(old(store.View()), r.lookup.box, r, now)
              else old(store.View())
      ensures answer.Challenge? ==> answer.nonce == newNonce
      ensures var left := if Late(r, old(nonces.nonces), now) then old(nonces.nonces) - {r.auth.nonce} else old(nonces.nonces);
              nonces.nonces == if answer.Challenge? then N.Stored(left, newNonce, now, nonces.ttl) else left
    {
      if !r.auth.Credentials? {
        answer := ReplyAuthChallenge(newNonce, now);
        return;
      }
      var username := r.auth.username;
      if Trim(username) == "" && r.toUser.Some? { username := r.toUser.value; }
      if username == "" { return Forbidden; }
      var valid := nonces.ValidateNonce(r.auth.nonce, now);
      if !valid {
        answer := ReplyAuthChallenge(newNonce, now);
        return;
      }
      match r.lookup
      case Unknown => return Forbidden;
      case Broken => return ServerError;
      case Found(box) =>
        if !r.auth.digestOk {
          answer := ReplyAuthChallenge(newNonce, now);
          return;
        }
        var lifetime := ParseRegisterExpires(r.contact, r.expires);
        if lifetime <= 0 {
          if writeOk { store.DeleteRegistration(box); }
          return Accepted;
        }
        if r.contact.NoContact? || r.contact.wildcard { return BadRequest; }
        var reg := D.Registration(r.contact.uri, r.source, r.transport, r.callID, r.userAgent,
                                  D.Expiry(now, lifetime), D.Unix(now));
        var ok := writeOk;
        if writeOk { ok := store.UpsertRegistration(box, reg); }
        answer := if ok then Accepted else ServerError;
    }
  }

  // ----- how long a binding lives, and whose it is -----

  /** A lookup, at `t`, after an authentic request of `now` that the database takes. */
  function LookupAfter(db: D.Db, box: int, r: Request, now: int, t: int): Option<D.Registration> {
    D.Active(if Malformed(r) then db else Bind(db, box, r, now), box, t)
  }

  lemma BoundFor(db: D.Db, box: int, r: Request, now: int, t: int, n: int)
    requires box in db.boxes && now <= t && ParseRegisterExpires(r.contact, r.expires) == n <= H.LONGEST
    ensures Malformed(r) <==> n > 0 && NoUsableContact(r)
    ensures !Malformed(r) ==> (LookupAfter(db, box, r, now, t).Some? <==> n > 0 && D.Unix(t) < D.Unix(now) + n)
  {
    if n > 0 { H.LivesItsLifetimeIff(now, n); }
    hide ParseRegisterExpires, D.Expiry;
  }

  /** A box that names no lifetime at all must name a contact, and is then found for exactly 3600 whole seconds. */
  lemma BoundForAnHour(db: D.Db, box: int, r: Request, now: int, t: int)
    requires box in db.boxes && now <= t && (r.contact.Contact? ==> r.contact.expires.None?) && r.expires.None?
    ensures Malformed(r) <==> NoUsableContact(r)
    ensures !Malformed(r) ==> (LookupAfter(db, box, r, now, t).Some? <==> t / 1_000_000_000 < now / 1_000_000_000 + 3600)
  {
    BoundFor(db, box, r, now, t, 3600);
  }

  /** The contact's own lifetime is what counts, whatever the header says: the box is found for as many whole seconds,
      and released if it is not positive. */
  lemma BoundAsTheContactSays(db: D.Db, box: int, r: Request, now: int, t: int, n: int)
    requires box in db.boxes && now <= t && -INT64_LIMIT <= n <= 9_223_372_036
    requires r.contact.Contact? && r.contact.expires.Some? && Trim(r.contact.expires.value) == Print(n)
    ensures Malformed(r) <==> n > 0 && NoUsableContact(r)
    ensures !Malformed(r) ==>
              (LookupAfter(db, box, r, now, t).Some? <==> n > 0 && t / 1_000_000_000 < now / 1_000_000_000 + n)
  {
    AtoiPrints(n);
    hide Print, Trim, Atoi;
    BoundFor(db, box, r, now, t, n);
  }

  /** The header counts when the contact has no lifetime that is a number. */
  lemma BoundAsTheHeaderSays(db: D.Db, box: int, r: Request, now: int, t: int, n: int)
    requires box in db.boxes && now <= t && -INT64_LIMIT <= n <= 9_223_372_036
    requires r.contact.Contact? && r.contact.expires.Some? ==> Atoi(Trim(r.contact.expires.value)).None?
    requires r.expires.Some? && Trim(r.expires.value) == Print(n)
    ensures Malformed(r) <==> n > 0 && NoUsableContact(r)
    ensures !Malformed(r) ==>
              (LookupAfter(db, box, r, now, t).Some? <==> n > 0 && t / 1_000_000_000 < now / 1_000_000_000 + n)
  {
    AtoiPrints(n);
    hide Print, Trim, Atoi;
    BoundFor(db, box, r, now, t, n);
  }

  /** What is found names the request's own contact, source, transport, Call-ID and user agent, and when it was made. */
  lemma BoundAsRequested(db: D.Db, box: int, r: Request, now: int, t: int)
    requires box in db.boxes && !NoUsableContact(r)
    ensures var found := LookupAfter(db, box, r, now, t);
            found.Some? ==>
              && found.value.contact == r.contact.uri && found.value.source == r.source
              && found.value.transport == r.transport && found.value.callID == r.callID
              && found.value.userAgent == r.userAgent && found.value.updated == now / 1_000_000_000
  {
    hide ParseRegisterExpires, D.Expiry;
  }

  /** No other box's binding, and nothing else in the store, is touched. */
  lemma BindsOneBox(db: D.Db, box: int, r: Request, now: int)
    ensures Bind(db, box, r, now) == db.(regs := Bind(db, box, r, now).regs)
    ensures Bind(db, box, r, now).regs - {box} == db.regs - {box}
  {
    hide ParseRegisterExpires, D.Expiry;
  }

  // ----- a lifetime that is too long -----

  lemma DigitByDigit(s: string)
    requires s != [] && forall c <- s :: IsDigit(c)
    ensures DigitsValue(s) == DigitsValue(s[..|s| - 1]) * 10 + (s[|s| - 1] as int - '0' as int)
  {}

  lemma TooLongIsRead(contact: Contact)
    requires contact.NoContact? || contact.expires.None?
    ensures ParseRegisterExpires(contact, Some("9223372037")) == H.LONGEST + 1
  {
    var s := "9223372037";
    TrimStays(s);
    Leading("9223372");
    assert s[..9] == "922337203" && s[..9][..8] == "92233720" && s[..9][..8][..7] == "9223372";
    DigitByDigit(s);
    DigitByDigit(s[..9]);
    DigitByDigit(s[..9][..8]);
  }

  lemma Leading(s: string)
    requires s == "9223372"
    ensures DigitsValue(s) == 9223372
  {
    assert s[..6] == "922337" && s[..6][..5] == "92233" && s[..6][..5][..4] == "9223";
    DigitByDigit(s);
    DigitByDigit(s[..6]);
    DigitByDigit(s[..6][..5]);
    FourDigits(s[..6][..5][..4]);
  }

  lemma FourDigits(s: string)
    requires s == "9223"
    ensures DigitsValue(s) == 9223
  {
    assert s[..3] == "922" && s[..3][..2] == "92" && s[..3][..2][..1] == "9" && s[..3][..2][..1][..0] == "";
    DigitByDigit(s);
    DigitByDigit(s[..3]);
    DigitByDigit(s[..3][..2]);
    DigitByDigit(s[..3][..2][..1]);
  }

  /** A box that asks for 9223372037 seconds is answered with success and bound, and no later lookup finds it. */
  lemma TooLongIsAcceptedAndLost(db: D.Db, box: int, r: Request, now: int, t: int)
    requires box in db.boxes && now <= t && !NoUsableContact(r) && r.contact.expires.None? && r.expires == Some("9223372037")
    ensures var lifetime := ParseRegisterExpires(r.contact, r.expires);
            var db' := Bind(db, box, r, now);
            lifetime > 0 && !Malformed(r) && box in db'.regs && D.Active(db', box, t).None?
  {
    TooLongIsRead(r.contact);
    hide ParseRegisterExpires;
    H.TooLongIsLost(db, box, Info(r), now, t);
  }
}
