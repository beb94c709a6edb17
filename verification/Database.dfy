/**
 The tables of users, FXO boxes, permissions and registrations, and the statements on them.
 Foreign keys are enforced and identifiers are never used twice.
 */
module Database {
  import opened Wrappers
  import opened Strings

  datatype Perm = Perm(dial: bool, receive: bool, notify: bool)

  /** `expires` and `updated` are whole seconds. */
  datatype Registration = Registration(
    contact: string, source: string, transport: string, callID: string, userAgent: string, expires: int, updated: int)

  /** Who a call was made by, and over which box; the user is 0 for none. */
  datatype Call = Call(user: int, box: int)

  /** The rows that only belong to others: contacts and devices to a user, calls to a box and perhaps a user. */
  datatype Owned = Owned(contacts: map<int, int>, devices: map<string, int>, calls: map<int, Call>, next: int)

  /** `users` and `boxes` are in ascending order; `admins` are the users whose role is admin. */
  datatype Db = Db(
    users: seq<int>, admins: set<int>, nextUser: int, boxes: seq<int>, nextBox: int,
    perms: map<(int, int), Perm>, regs: map<int, Registration>, owned: Owned)

  const EMPTY := Db([], {}, 1, [], 1, map[], map[], Owned(map[], map[], map[], 1))

  predicate Ascending(s: seq<int>) {
    forall i, j :: 0 <= i < j < |s| ==> s[i] < s[j]
  }

  function Without(s: seq<int>, id: int): (r: seq<int>)
    ensures forall x :: x in r <==> x in s && x != id
    ensures Ascending(s) ==> Ascending(r)
  {
    if s == [] then []
    else
      var rest := Without(s[1..], id);
      assert Ascending(s) ==> Ascending(s[1..]) && forall i :: 0 <= i < |rest| ==> rest[i] in s[1..];
      if s[0] == id then rest else [s[0]] + rest
  }

  predicate Valid(db: Db) {
    && Ascending(db.users) && (forall u <- db.users :: u < db.nextUser)
    && Ascending(db.boxes) && (forall b <- db.boxes :: b < db.nextBox)
    && (forall u <- db.admins :: u in db.users)
    && (forall k <- db.perms :: k.0 in db.users && k.1 in db.boxes)
    && (forall b <- db.regs :: b in db.boxes)
    && NoOrphans(db.owned, db.users, db.boxes)
  }

  /** Every owned row names a user or a box that exists. */
  predicate NoOrphans(owned: Owned, users: seq<int>, boxes: seq<int>) {
    && (forall c <- owned.contacts :: owned.contacts[c] in users)
    && (forall d <- owned.devices :: owned.devices[d] in users)
    && (forall c <- owned.calls :: owned.calls[c].box in boxes)
  }

  // ----- time -----

  const NANOS := 1_000_000_000

  /** time.Time.Unix, of a time in nanoseconds. */
  function Unix(time: int): int {
    time / NANOS
  }

  function Wrap64(n: int): int {
    (n + INT64_LIMIT) % (2 * INT64_LIMIT) - INT64_LIMIT
  }

  /** The second at which a binding of `lifetime` seconds made at `now` expires; Go's durations wrap around. */
  function Expiry(now: int, lifetime: int): int {
    Unix(now + Wrap64(lifetime * NANOS))
  }

  // ----- statements -----

  function CreateUser(db: Db, admin: bool): Db {
    db.(users := db.users + [db.nextUser], nextUser := db.nextUser + 1,
        admins := if admin then db.admins + {db.nextUser} else db.admins)
  }

  function WithoutUser(owned: Owned, user: int): Owned {
    owned.(contacts := map c | c in owned.contacts && owned.contacts[c] != user :: owned.contacts[c],
           devices := map d | d in owned.devices && owned.devices[d] != user :: owned.devices[d],
           calls := map c | c in owned.calls && owned.calls[c].user != user :: owned.calls[c])
  }

  /** Contacts and calls are deleted in the same transaction, permissions and devices by cascade. */
  function DeleteUser(db: Db, user: int): Db {
    db.(users := Without(db.users, user), admins := db.admins - {user},
        perms := map k | k in db.perms && k.0 != user :: db.perms[k],
        owned := WithoutUser(db.owned, user))
  }

  function SetRole(db: Db, user: int, admin: bool): Db {
    if user !in db.users then db
    else db.(admins := if admin then db.admins + {user} else db.admins - {user})
  }

  function CreateBox(db: Db): Db {
    db.(boxes := db.boxes + [db.nextBox], nextBox := db.nextBox + 1)
  }

  function DeleteBox(db: Db, box: int): Db {
    db.(boxes := Without(db.boxes, box), regs := db.regs - {box},
        perms := map k | k in db.perms && k.1 != box :: db.perms[k],
        owned := db.owned.(calls := map c | c in db.owned.calls && db.owned.calls[c].box != box :: db.owned.calls[c]))
  }

  function CreateContact(db: Db, user: int): Db {
    if user !in db.users then db
    else db.(owned := db.owned.(contacts := db.owned.contacts[db.owned.next := user], next := db.owned.next + 1))
  }

  /** A device token that is known already changes hands. */
  function UpsertDevice(db: Db, token: string, user: int): Db {
    if user !in db.users then db else db.(owned := db.owned.(devices := db.owned.devices[token := user]))
  }

  /** The user of a call is not checked, its box is. */
  function CreateCall(db: Db, user: int, box: int): Db {
    if box !in db.boxes then db
    else db.(owned := db.owned.(calls := db.owned.calls[db.owned.next := Call(user, box)], next := db.owned.next + 1))
  }

  /** The upserts fail when the user or the box does not exist. */
  function SetPermission(db: Db, user: int, box: int, dial: bool, receive: bool): Db {
    if user !in db.users || box !in db.boxes then db
    else if (user, box) in db.perms
    then db.(perms := db.perms[(user, box) := db.perms[(user, box)].(dial := dial, receive := receive)])
    else db.(perms := db.perms[(user, box) := Perm(dial, receive, true)])
  }

  function SetNotify(db: Db, user: int, box: int, notify: bool): Db {
    if user !in db.users || box !in db.boxes then db
    else if (user, box) in db.perms
    then db.(perms := db.perms[(user, box) := db.perms[(user, box)].(notify := notify)])
    else db.(perms := db.perms[(user, box) := Perm(false, false, notify)])
  }

  function UpsertRegistration(db: Db, box: int, reg: Registration): Db {
    if box !in db.boxes then db else db.(regs := db.regs[box := reg])
  }

  function DeleteRegistration(db: Db, box: int): Db {
    db.(regs := db.regs - {box})
  }

  function CleanupExpired(db: Db, now: int): Db {
    db.(regs := map b | b in db.regs && db.regs[b].expires > Unix(now) :: db.regs[b])
  }

  // ----- queries -----

  function Active(db: Db, box: int, now: int): Option<Registration> {
    if box in db.regs && db.regs[box].expires > Unix(now) then Some(db.regs[box]) else None
  }

  predicate CanDial(db: Db, user: int, box: int, isAdmin: bool) {
    isAdmin || ((user, box) in db.perms && db.perms[(user, box)].dial)
  }

  predicate CanReceive(db: Db, user: int, box: int, isAdmin: bool) {
    isAdmin || ((user, box) in db.perms && db.perms[(user, box)].receive)
  }

  predicate RungFor(db: Db, box: int, user: int) {
    && user in db.users && CanReceive(db, user, box, user in db.admins)
    && ((user, box) in db.perms ==> db.perms[(user, box)].notify)
  }

  datatype BoxForUser = BoxForUser(box: int, perm: Perm, registration: Option<Registration>, online: bool)

  /** A row of ListFXOBoxesWithStatusForUser; `includeAll` overrides the permission columns but not the preference. */
  function RowFor(db: Db, user: int, box: int, includeAll: bool, now: int): BoxForUser {
    var perm := if (user, box) in db.perms then Some(db.perms[(user, box)]) else None;
    var reg := if box in db.regs then Some(db.regs[box]) else None;
    BoxForUser(
      box,
      if includeAll then Perm(true, true, perm.Some? ==> perm.value.notify)
      else if perm.Some? then perm.value else Perm(false, false, false),
      reg,
      reg.Some? && reg.value.expires > Unix(now))
  }

  datatype BoxWithStatus = BoxWithStatus(box: int, registration: Option<Registration>, online: bool)

  /** The row is on the user's list of boxes. */
  predicate Shows(db: Db, user: int, includeAll: bool, now: int, item: BoxForUser) {
    && item.box in db.boxes && CanDial(db, user, item.box, includeAll)
    && item == RowFor(db, user, item.box, includeAll, now)
  }

  /** The list has at most one row for a box. */
  lemma ShowsRow(db: Db, user: int, includeAll: bool, now: int, box: int)
    ensures forall item: BoxForUser | item.box == box :: Shows(db, user, includeAll, now, item) <==>
              box in db.boxes && CanDial(db, user, box, includeAll) && item == RowFor(db, user, box, includeAll, now)
    ensures RowFor(db, user, box, includeAll, now).box == box
  {}

  /** Its online flag is whether a lookup finds a registration. */
  lemma ShownOnline(db: Db, user: int, includeAll: bool, now: int)
    ensures forall item :: Shows(db, user, includeAll, now, item) ==> (item.online <==> Active(db, item.box, now).Some?)
  {}
}
