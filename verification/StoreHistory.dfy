/** The store refines functions of the history of what was asked of it. */
module StoreHistory {
  import opened Wrappers
  import opened Clock
  import opened Strings
  import opened Database

  /** A successful REGISTER binds a box for `lifetime` seconds, or releases it when that is not positive. */
  datatype Op =
    | AddUser(admin: bool) | DropUser(user: int) | Appoint(user: int, admin: bool) | AddBox | DropBox(box: int)
    | Permit(user: int, box: int, dial: bool, receive: bool) | Prefer(user: int, box: int, notify: bool)
    | AddContact(user: int) | AddDevice(token: string, user: int) | AddCall(user: int, box: int)
    | Register(box: int, info: Registration, lifetime: int, now: int) | Cleanup(now: int)

  function Binding(info: Registration, lifetime: int, now: int): Registration {
    info.(expires := Expiry(now, lifetime), updated := Unix(now))
  }

  function Step(db: Db, op: Op): Db {
    match op
    case AddUser(admin) => CreateUser(db, admin)
    case DropUser(u) => if u in db.users then DeleteUser(db, u) else db
    case Appoint(u, admin) => SetRole(db, u, admin)
    case AddBox => CreateBox(db)
    case DropBox(b) => if b in db.boxes then DeleteBox(db, b) else db
    case Permit(u, b, dial, receive) => SetPermission(db, u, b, dial, receive)
    case Prefer(u, b, notify) => SetNotify(db, u, b, notify)
    case AddContact(u) => CreateContact(db, u)
    case AddDevice(token, u) => UpsertDevice(db, token, u)
    case AddCall(u, b) => CreateCall(db, u, b)
    case Register(b, info, lifetime, now) =>
      if lifetime <= 0 then DeleteRegistration(db, b) else UpsertRegistration(db, b, Binding(info, lifetime, now))
    case Cleanup(now) => CleanupExpired(db, now)
  }

  function Run(h: seq<Op>): Db {
    if h == [] then EMPTY else Step(Run(h[..|h| - 1]), h[|h| - 1])
  }

  lemma AppendAscends(s: seq<int>, x: int)
    requires Ascending(s) && forall y <- s :: y < x
    ensures Ascending(s + [x])
  {
    forall i, j | 0 <= i < j < |s + [x]|
      ensures (s + [x])[i] < (s + [x])[j]
    {
      assert s[i] in s;
    }
  }

  lemma CreateValid(db: Db, admin: bool)
    requires Valid(db)
    ensures Valid(CreateUser(db, admin)) && Valid(CreateBox(db))
  {
    AppendAscends(db.users, db.nextUser);
    AppendAscends(db.boxes, db.nextBox);
    hide Ascending;
  }

  lemma DeleteValid(db: Db, id: int)
    requires Valid(db)
    ensures Valid(DeleteUser(db, id)) && Valid(DeleteBox(db, id))
  {
    hide Ascending;
  }

  lemma OwnedValid(db: Db, op: Op)
    requires Valid(db) && (op.AddContact? || op.AddDevice? || op.AddCall?)
    ensures Valid(Step(db, op))
  {
    hide Ascending;
  }

  lemma RowsValid(db: Db, op: Op)
    requires Valid(db) && (op.Permit? || op.Prefer? || op.Appoint? || op.Register? || op.Cleanup?)
    ensures Valid(Step(db, op))
  {
    hide Ascending, NoOrphans, Binding;
  }

  lemma StepValid(db: Db, op: Op)
    requires Valid(db)
    ensures Valid(Step(db, op))
  {
    match op
    case AddUser(admin) => CreateValid(db, admin);
    case AddBox => CreateValid(db, false);
    case DropUser(u) => DeleteValid(db, u);
    case DropBox(b) => DeleteValid(db, b);
    case AddContact(_) => OwnedValid(db, op);
    case AddDevice(_, _) => OwnedValid(db, op);
    case AddCall(_, _) => OwnedValid(db, op);
    case _ => RowsValid(db, op);
    hide Valid, CreateUser, CreateBox, DeleteUser, DeleteBox;
  }

  lemma {:induction false} RunValid(h: seq<Op>)
    ensures Valid(Run(h))
  {
    hide Valid, Step;
    if h == [] {
      EmptyValid();
    } else {
      RunValid(h[..|h| - 1]);
      StepValid(Run(h[..|h| - 1]), h[|h| - 1]);
    }
  }

  /** After any history no contact, device, call, permission or registration names a user or box that is gone, and a
      user who goes takes every call along. */
  lemma NothingDangles(h: seq<Op>)
    ensures var db := Run(h);
            && NoOrphans(db.owned, db.users, db.boxes)
            && (forall k <- db.perms :: k.0 in db.users && k.1 in db.boxes)
            && (forall b <- db.regs :: b in db.boxes)
    ensures forall u <- Run(h).users :: forall c <- Run(h + [DropUser(u)]).owned.calls ::
              Run(h + [DropUser(u)]).owned.calls[c].user != u
  {
    RunValid(h);
    forall u | u in Run(h).users
      ensures forall c <- Run(h + [DropUser(u)]).owned.calls :: Run(h + [DropUser(u)]).owned.calls[c].user != u
    {
      assert (h + [DropUser(u)])[..|h|] == h;
    }
  }

  lemma EmptyValid()
    ensures Valid(EMPTY)
  {}

  // ----- users, roles and boxes -----

  /** How many users the history has made; the last of them has this number. */
  function UsersMade(h: seq<Op>): nat {
    if h == [] then 0 else UsersMade(h[..|h| - 1]) + if h[|h| - 1].AddUser? then 1 else 0
  }

  function BoxesMade(h: seq<Op>): nat {
    if h == [] then 0 else BoxesMade(h[..|h| - 1]) + if h[|h| - 1].AddBox? then 1 else 0
  }

  /** The user was made, and not deleted since. */
  predicate HasUser(h: seq<Op>, u: int) {
    if h == [] then false
    else
      var before := h[..|h| - 1];
      match h[|h| - 1]
      case AddUser(_) => u == UsersMade(h) || HasUser(before, u)
      case DropUser(v) => v != u && HasUser(before, u)
      case _ => HasUser(before, u)
  }

  predicate HasBox(h: seq<Op>, b: int) {
    if h == [] then false
    else
      var before := h[..|h| - 1];
      match h[|h| - 1]
      case AddBox => b == BoxesMade(h) || HasBox(before, b)
      case DropBox(c) => c != b && HasBox(before, b)
      case _ => HasBox(before, b)
  }

  /** The role last given to the user, who has it from the start or by appointment, and loses it with the row. */
  predicate AdminOf(h: seq<Op>, u: int) {
    if h == [] then false
    else
      var before := h[..|h| - 1];
      match h[|h| - 1]
      case AddUser(admin) => if u == UsersMade(h) then admin else AdminOf(before, u)
      case Appoint(v, admin) => if v == u && HasUser(before, u) then admin else AdminOf(before, u)
      case DropUser(v) => v != u && AdminOf(before, u)
      case _ => AdminOf(before, u)
  }

  lemma StepUsers(db: Db, op: Op, u: int)
    requires Valid(db)
    ensures var t := Step(db, op);
            && t.nextUser == db.nextUser + (if op.AddUser? then 1 else 0)
            && (u in t.users <==>
                if op.AddUser? then u == db.nextUser || u in db.users
                else if op.DropUser? then u != op.user && u in db.users else u in db.users)
            && (u in t.admins <==>
                if op.AddUser? then (if u == db.nextUser then op.admin else u in db.admins)
                else if op.Appoint? && op.user == u && u in db.users then op.admin
                else if op.DropUser? then u != op.user && u in db.admins
                else u in db.admins)
  {
    hide Ascending, NoOrphans, WithoutUser, Binding;
  }

  lemma StepBox(db: Db, op: Op, b: int)
    requires Valid(db)
    ensures var t := Step(db, op);
            && t.nextBox == db.nextBox + (if op.AddBox? then 1 else 0)
            && (b in t.boxes <==>
                if op.AddBox? then b == db.nextBox || b in db.boxes
                else if op.DropBox? then b != op.box && b in db.boxes else b in db.boxes)
  {
    hide Ascending, NoOrphans, WithoutUser, Binding;
  }

  /** After any history a user exists if and only if it was made and not deleted since, and is an admin if and only if
      that is the role it was last given; a box exists if and only if it was made and not deleted since. */
  lemma {:induction false} RolesFollow(h: seq<Op>, u: int, b: int)
    ensures var db := Run(h);
            && db.nextUser == UsersMade(h) + 1 && db.nextBox == BoxesMade(h) + 1
            && (u in db.users <==> HasUser(h, u)) && (u in db.admins <==> AdminOf(h, u))
            && (b in db.boxes <==> HasBox(h, b))
  {
    if h != [] {
      var before := h[..|h| - 1];
      RunValid(before);
      hide Valid, Step;
      RolesFollow(before, u, b);
      StepUsers(Run(before), h[|h| - 1], u);
      StepBox(Run(before), h[|h| - 1], b);
    }
  }

  // ----- rows that belong to others -----

  /** How many contacts and calls were taken; the last of them has this number. */
  function RowsMade(h: seq<Op>): nat {
    if h == [] then 0
    else
      var before, op := h[..|h| - 1], h[|h| - 1];
      RowsMade(before) +
      if (op.AddContact? && HasUser(before, op.user)) || (op.AddCall? && HasBox(before, op.box)) then 1 else 0
  }

  function ContactOwner(h: seq<Op>, c: int): Option<int> {
    if h == [] then None
    else
      var before := h[..|h| - 1];
      match h[|h| - 1]
      case AddContact(u) => if HasUser(before, u) && c == RowsMade(h) then Some(u) else ContactOwner(before, c)
      case DropUser(u) => if ContactOwner(before, c) == Some(u) then None else ContactOwner(before, c)
      case _ => ContactOwner(before, c)
  }

  /** The last existing user who registered the device, unless deleted since. */
  function DeviceOwner(h: seq<Op>, token: string): Option<int> {
    if h == [] then None
    else
      var before := h[..|h| - 1];
      match h[|h| - 1]
      case AddDevice(d, u) => if d == token && HasUser(before, u) then Some(u) else DeviceOwner(before, token)
      case DropUser(u) => if DeviceOwner(before, token) == Some(u) then None else DeviceOwner(before, token)
      case _ => DeviceOwner(before, token)
  }

  /** A call goes with its user, if there is one, and with its box. */
  function CallOf(h: seq<Op>, c: int): Option<Call> {
    if h == [] then None
    else
      var before := h[..|h| - 1];
      var was := CallOf(before, c);
      match h[|h| - 1]
      case AddCall(u, b) => if HasBox(before, b) && c == RowsMade(h) then Some(Call(u, b)) else was
      case DropUser(u) => if was.Some? && was.value.user == u && HasUser(before, u) then None else was
      case DropBox(b) => if was.Some? && was.value.box == b && HasBox(before, b) then None else was
      case _ => was
  }

  function Get<K, V>(m: map<K, V>, k: K): Option<V> {
    if k in m then Some(m[k]) else None
  }

  lemma StepOwned(db: Db, op: Op, c: int, token: string)
    requires Valid(db)
    ensures var o, p := db.owned, Step(db, op).owned;
            var takes := (op.AddContact? && op.user in db.users) || (op.AddCall? && op.box in db.boxes);
            && p.next == o.next + (if takes then 1 else 0)
            && Get(p.contacts, c) == (
              if op.AddContact? && op.user in db.users && c == o.next then Some(op.user)
              else if op.DropUser? && Get(o.contacts, c) == Some(op.user) then None else Get(o.contacts, c))
            && Get(p.devices, token) == (
              if op.AddDevice? && op.token == token && op.user in db.users then Some(op.user)
              else if op.DropUser? && Get(o.devices, token) == Some(op.user) then None else Get(o.devices, token))
  {
    hide Ascending, Without, Binding;
  }

  lemma StepCalls(db: Db, op: Op, c: int)
    ensures var o, p := db.owned.calls, Step(db, op).owned.calls;
            Get(p, c) ==
            if op.AddCall? && op.box in db.boxes && c == db.owned.next then Some(Call(op.user, op.box))
            else if op.DropUser? && op.user in db.users && c in o && o[c].user == op.user then None
            else if op.DropBox? && op.box in db.boxes && c in o && o[c].box == op.box then None
            else Get(o, c)
  {
    hide Ascending, Without, Binding;
  }

  /** After any history the owner of every contact and device, and the parties of every call, are what the history
      says of them. */
  lemma {:induction false} OwnedFollows(h: seq<Op>, c: int, token: string)
    ensures var o := Run(h).owned;
            && o.next == RowsMade(h) + 1
            && Get(o.contacts, c) == ContactOwner(h, c) && Get(o.devices, token) == DeviceOwner(h, token)
            && Get(o.calls, c) == CallOf(h, c)
  {
    if h != [] {
      var before, op := h[..|h| - 1], h[|h| - 1];
      RunValid(before);
      hide Valid, Step, Get, HasUser, HasBox;
      OwnedFollows(before, c, token);
      RolesFollow(before, OwnerIn(op), BoxIn(op));
      StepOwned(Run(before), op, c, token);
      StepCalls(Run(before), op, c);
      hide Run;
      GetIs(Run(before).owned.calls, c);
    }
  }

  lemma GetIs<K, V>(m: map<K, V>, k: K)
    ensures Get(m, k).Some? <==> k in m
    ensures k in m ==> Get(m, k).value == m[k]
  {}

  /** The user, and the box, that an operation names. */
  function OwnerIn(op: Op): int {
    match op
    case AddContact(u) => u
    case AddDevice(_, u) => u
    case DropUser(u) => u
    case _ => 0
  }

  function BoxIn(op: Op): int {
    match op
    case AddCall(_, b) => b
    case DropBox(b) => b
    case _ => 0
  }

  /** Deleting a user takes that user's contacts, devices and calls, and nobody else's. */
  lemma DropUserKeepsOthers(h: seq<Op>, u: int)
    requires HasUser(h, u)
    ensures var o, p := Run(h).owned, Run(h + [DropUser(u)]).owned;
            && (forall c :: c in p.contacts <==> c in o.contacts && o.contacts[c] != u)
            && (forall d :: d in p.devices <==> d in o.devices && o.devices[d] != u)
            && (forall c :: c in p.calls <==> c in o.calls && o.calls[c].user != u)
            && (forall c <- p.contacts :: p.contacts[c] == o.contacts[c])
            && (forall d <- p.devices :: p.devices[d] == o.devices[d])
            && (forall c <- p.calls :: p.calls[c] == o.calls[c])
  {
    RolesFollow(h, u, 0);
    assert (h + [DropUser(u)])[..|h|] == h;
    hide HasUser;
  }

  // ----- permissions -----

  predicate Known(h: seq<Op>, u: int, b: int) {
    HasUser(h, u) && HasBox(h, b)
  }

  lemma KnownIs(h: seq<Op>, u: int, b: int)
    ensures Known(h, u, b) <==> u in Run(h).users && b in Run(h).boxes
  {
    RolesFollow(h, u, b);
    hide HasUser, HasBox;
  }

  /** The accepted writes to the permission row of `u` and `b`. */
  function Writes(h: seq<Op>, u: int, b: int): seq<Op> {
    if h == [] then []
    else
      var before, op := h[..|h| - 1], h[|h| - 1];
      if (op.Permit? || op.Prefer?) && op.user == u && op.box == b && Known(before, u, b)
      then Writes(before, u, b) + [op] else Writes(before, u, b)
  }

  /** The value last written to each field. */
  function DialOf(w: seq<Op>): bool {
    if w == [] then false else if w[|w| - 1].Permit? then w[|w| - 1].dial else DialOf(w[..|w| - 1])
  }

  function ReceiveOf(w: seq<Op>): bool {
    if w == [] then false else if w[|w| - 1].Permit? then w[|w| - 1].receive else ReceiveOf(w[..|w| - 1])
  }

  function NotifyOf(w: seq<Op>): bool {
    if w == [] then true else if w[|w| - 1].Prefer? then w[|w| - 1].notify else NotifyOf(w[..|w| - 1])
  }

  ghost predicate RowFollows(perms: map<(int, int), Perm>, u: int, b: int, w: seq<Op>) {
    && ((u, b) in perms <==> w != [])
    && ((u, b) in perms ==> perms[(u, b)] == Perm(DialOf(w), ReceiveOf(w), NotifyOf(w)))
  }

  lemma CountersGrow(db: Db, op: Op)
    ensures db.nextUser <= Step(db, op).nextUser && db.nextBox <= Step(db, op).nextBox
  {}

  lemma {:induction false} NeverWritten(h: seq<Op>, u: int, b: int)
    requires u >= Run(h).nextUser || b >= Run(h).nextBox
    ensures Writes(h, u, b) == []
  {
    if h != [] {
      var before := h[..|h| - 1];
      hide Valid, Step;
      RunValid(before);
      CountersGrow(Run(before), h[|h| - 1]);
      NotYet(Run(before), u, b);
      KnownIs(before, u, b);
      NeverWritten(before, u, b);
    }
  }

  lemma NotYet(db: Db, u: int, b: int)
    requires Valid(db) && (u >= db.nextUser || b >= db.nextBox)
    ensures !(u in db.users && b in db.boxes)
  {}

  lemma WriteRow(db: Db, op: Op, u: int, b: int, w: seq<Op>)
    requires u in db.users && b in db.boxes && RowFollows(db.perms, u, b, w)
    requires (op.Permit? || op.Prefer?) && op.user == u && op.box == b
    ensures RowFollows(Step(db, op).perms, u, b, w + [op])
  {
    assert (w + [op])[..|w|] == w;
  }

  /** Nothing else changes a row that stays. */
  lemma RowStays(db: Db, op: Op, u: int, b: int)
    requires Valid(db) && u in db.users && b in db.boxes
    requires u in Step(db, op).users && b in Step(db, op).boxes
    requires !((op.Permit? || op.Prefer?) && op.user == u && op.box == b)
    ensures var perms := Step(db, op).perms;
            ((u, b) in perms <==> (u, b) in db.perms) && ((u, b) in perms ==> perms[(u, b)] == db.perms[(u, b)])
  {
    hide Ascending, NoOrphans, WithoutUser;
  }

  lemma StepRow(db: Db, op: Op, u: int, b: int, w: seq<Op>)
    requires Valid(db) && u in db.users && b in db.boxes && RowFollows(db.perms, u, b, w)
    requires u in Step(db, op).users && b in Step(db, op).boxes
    ensures var w' := if (op.Permit? || op.Prefer?) && op.user == u && op.box == b then w + [op] else w;
            RowFollows(Step(db, op).perms, u, b, w')
  {
    hide Valid, Step, DialOf, ReceiveOf, NotifyOf;
    if (op.Permit? || op.Prefer?) && op.user == u && op.box == b {
      WriteRow(db, op, u, b, w);
    } else {
      RowStays(db, op, u, b);
    }
  }

  lemma StepNew(db: Db, op: Op, u: int, b: int)
    requires Valid(db) && !(u in db.users && b in db.boxes)
    requires u in Step(db, op).users && b in Step(db, op).boxes
    ensures u >= db.nextUser || b >= db.nextBox
    ensures (u, b) !in Step(db, op).perms
  {}

  /** After any history each field of a permission row is the value last written to that field, with the defaults
      false, false and true; there is a row exactly when something was written. */
  lemma {:induction false} PermissionHistory(h: seq<Op>, u: int, b: int)
    requires Known(h, u, b)
    ensures RowFollows(Run(h).perms, u, b, Writes(h, u, b))
  {
    if h != [] {
      var before, op := h[..|h| - 1], h[|h| - 1];
      RunValid(before);
      KnownIs(before, u, b);
      KnownIs(h, u, b);
      hide Valid, Step, RowFollows, Known;
      if Known(before, u, b) {
        PermissionHistory(before, u, b);
        StepRow(Run(before), op, u, b, Writes(before, u, b));
      } else {
        StepNew(Run(before), op, u, b);
        NeverWritten(before, u, b);
        NoRow(Run(h).perms, u, b);
      }
    }
  }

  lemma NoRow(perms: map<(int, int), Perm>, u: int, b: int)
    requires (u, b) !in perms
    ensures RowFollows(perms, u, b, [])
  {}

  /** The three queries agree with that one history. */
  lemma QueriesAgree(h: seq<Op>, u: int, b: int, isAdmin: bool, now: int)
    requires Known(h, u, b)
    ensures var db, w := Run(h), Writes(h, u, b);
            && (CanDial(db, u, b, isAdmin) <==> isAdmin || DialOf(w))
            && (CanReceive(db, u, b, isAdmin) <==> isAdmin || ReceiveOf(w))
            && (RungFor(db, b, u) <==> (AdminOf(h, u) || ReceiveOf(w)) && NotifyOf(w))
            && (isAdmin ==> RowFor(db, u, b, isAdmin, now).perm == Perm(true, true, NotifyOf(w)))
            && (CanDial(db, u, b, isAdmin) && !isAdmin ==>
                  RowFor(db, u, b, isAdmin, now).perm == Perm(true, ReceiveOf(w), NotifyOf(w)))
  {
    PermissionHistory(h, u, b);
    RolesFollow(h, u, b);
    hide HasUser, HasBox, AdminOf, Run;
  }

  /** A user or box that does not exist, or no longer exists, grants nothing. */
  lemma UnknownGrantsNothing(h: seq<Op>, u: int, b: int)
    requires !Known(h, u, b)
    ensures (u, b) !in Run(h).perms
    ensures !CanDial(Run(h), u, b, false) && !CanReceive(Run(h), u, b, false)
  {
    RunValid(h);
    KnownIs(h, u, b);
    hide Known;
  }

  // ----- registrations -----

  /** The last binding of the box that was not released since. */
  function LastBinding(h: seq<Op>, b: int): Option<Registration> {
    if h == [] then None
    else
      var before, op := h[..|h| - 1], h[|h| - 1];
      match op
      case Register(box, info, lifetime, now) =>
        if box != b then LastBinding(before, b)
        else if lifetime <= 0 then None
        else if HasBox(before, b) then Some(Binding(info, lifetime, now))
        else LastBinding(before, b)
      case DropBox(box) => if box == b then None else LastBinding(before, b)
      case _ => LastBinding(before, b)
  }

  predicate Timed(op: Op) {
    op.Register? || op.Cleanup?
  }

  function Reading(op: Op): Option<int> {
    if Timed(op) then Some(op.now) else None
  }

  /** The table holds the last binding, or has dropped it once it was over. */
  ghost predicate RegFollows(regs: map<int, Registration>, b: int, last: Option<Registration>, now: int) {
    if b in regs then last == Some(regs[b]) else last.None? || last.value.expires <= Unix(now)
  }

  lemma StepReg(db: Db, op: Op, b: int, last: Option<Registration>, now: int)
    requires Valid(db) && RegFollows(db.regs, b, last, now)
    requires Timed(op) ==> now <= op.now
    requires op.DropBox? && op.box == b ==> b !in Step(db, op).regs
    ensures var now' := if Timed(op) then op.now else now;
            var last' :=
              if op.Register? && op.box == b && op.lifetime <= 0 then None
              else if op.Register? && op.box == b && b in db.boxes then Some(Binding(op.info, op.lifetime, op.now))
              else if op.DropBox? && op.box == b then None
              else last;
            RegFollows(Step(db, op).regs, b, last', now')
  {}

  lemma Later(regs: map<int, Registration>, b: int, last: Option<Registration>, now: int, later: int)
    requires RegFollows(regs, b, last, now) && now <= later
    ensures RegFollows(regs, b, last, later)
  {}

  lemma {:induction false} RegistrationHistory(h: seq<Op>, b: int, now: int)
    requires ClockBy(h, Reading, now)
    ensures RegFollows(Run(h).regs, b, LastBinding(h, b), now)
  {
    if h != [] {
      var before, op := h[..|h| - 1], h[|h| - 1];
      var then_ := if Timed(op) then op.now else now;
      RunValid(before);
      RegistrationHistory(before, b, then_);
      DroppedBox(Run(before), b);
      RolesFollow(before, 0, b);
      hide Valid, RegFollows, HasBox;
      StepReg(Run(before), op, b, LastBinding(before, b), then_);
      Later(Run(h).regs, b, LastBinding(h, b), then_, now);
    }
  }

  lemma DroppedBox(db: Db, b: int)
    requires Valid(db)
    ensures b !in Step(db, DropBox(b)).regs
  {}

  /** Under a clock that never goes back, a lookup finds exactly the last binding that was not released, while its
      expiry is ahead, wherever cleanups were run. */
  lemma LookupFindsLastBinding(h: seq<Op>, b: int, now: int)
    requires ClockBy(h, Reading, now)
    ensures var last := LastBinding(h, b);
            Active(Run(h), b, now) == if last.Some? && last.value.expires > Unix(now) then last else None
  {
    RegistrationHistory(h, b, now);
  }

  lemma StepBoxes(db: Db, db': Db, op: Op)
    requires db.boxes == db'.boxes && db.nextBox == db'.nextBox
    ensures Step(db, op).boxes == Step(db', op).boxes && Step(db, op).nextBox == Step(db', op).nextBox
  {
    hide Without, WithoutUser, Binding;
  }

  lemma SnocStep(h: seq<Op>, op: Op)
    ensures Run(h + [op]) == Step(Run(h), op)
  {
    hide Step;
    assert (h + [op])[..|h|] == h;
  }

  lemma {:induction false} BoxesWithoutCleanup(h: seq<Op>, more: seq<Op>, at: int)
    ensures Run(h + [Cleanup(at)] + more).boxes == Run(h + more).boxes
    ensures Run(h + [Cleanup(at)] + more).nextBox == Run(h + more).nextBox
    decreases more
  {
    if more == [] {
      assert h + [Cleanup(at)] + more == h + [Cleanup(at)] && h + more == h;
      SnocStep(h, Cleanup(at));
    } else {
      var rest, op := more[..|more| - 1], more[|more| - 1];
      assert h + [Cleanup(at)] + more == h + [Cleanup(at)] + rest + [op] && h + more == h + rest + [op];
      BoxesWithoutCleanup(h, rest, at);
      hide Step, Run;
      SnocStep(h + [Cleanup(at)] + rest, op);
      SnocStep(h + rest, op);
      StepBoxes(Run(h + [Cleanup(at)] + rest), Run(h + rest), op);
    }
  }

  lemma SameBinding(h: seq<Op>, h': seq<Op>, op: Op, b: int)
    requires LastBinding(h, b) == LastBinding(h', b) && Run(h).boxes == Run(h').boxes
    ensures LastBinding(h + [op], b) == LastBinding(h' + [op], b)
  {
    RolesFollow(h, 0, b);
    RolesFollow(h', 0, b);
    hide Run, Binding, HasBox;
    assert (h + [op])[..|h|] == h && (h' + [op])[..|h'|] == h';
  }

  lemma CleanupBinding(h: seq<Op>, at: int, b: int)
    ensures LastBinding(h + [Cleanup(at)], b) == LastBinding(h, b)
  {
    assert (h + [Cleanup(at)])[..|h|] == h;
  }

  lemma {:induction false} WithoutCleanup(h: seq<Op>, more: seq<Op>, at: int, b: int)
    ensures LastBinding(h + [Cleanup(at)] + more, b) == LastBinding(h + more, b)
    decreases more
  {
    hide Run, LastBinding;
    if more == [] {
      assert h + [Cleanup(at)] + more == h + [Cleanup(at)] && h + more == h;
      CleanupBinding(h, at, b);
    } else {
      var rest, op := more[..|more| - 1], more[|more| - 1];
      assert h + [Cleanup(at)] + more == h + [Cleanup(at)] + rest + [op] && h + more == h + rest + [op];
      WithoutCleanup(h, rest, at, b);
      BoxesWithoutCleanup(h, rest, at);
      SameBinding(h + [Cleanup(at)] + rest, h + rest, op, b);
    }
  }

  /** A cleanup at any moment is unobservable to lookups. */
  lemma CleanupUnobservable(h: seq<Op>, more: seq<Op>, at: int, b: int, now: int)
    requires ClockBy(h + [Cleanup(at)] + more, Reading, now) && ClockBy(h + more, Reading, now)
    ensures Active(Run(h + [Cleanup(at)] + more), b, now) == Active(Run(h + more), b, now)
  {
    WithoutCleanup(h, more, at, b);
    LookupFindsLastBinding(h + [Cleanup(at)] + more, b, now);
    LookupFindsLastBinding(h + more, b, now);
  }

  /** Right after a cleanup the table holds exactly the bindings whose expiry is ahead, as they were. */
  lemma CleanupRemovesTheExpired(h: seq<Op>, at: int, b: int)
    ensures var db, t := Run(h), Run(h + [Cleanup(at)]);
            && (b in t.regs <==> Active(db, b, at).Some?)
            && (b in t.regs ==> b in db.regs && t.regs[b] == db.regs[b] && t.regs[b].expires > at / 1_000_000_000)
  {
    assert (h + [Cleanup(at)])[..|h|] == h;
  }

  /** The longest lifetime, in seconds, that a 64-bit count of nanoseconds can hold. */
  const LONGEST := 9_223_372_036

  /** A binding expires `lifetime` whole seconds after the second it was made in, if and only if the lifetime fits
      into a duration. */
  lemma LivesItsLifetimeIff(now: int, lifetime: int)
    requires 0 < lifetime < INT64_LIMIT
    ensures Expiry(now, lifetime) == Unix(now) + lifetime <==> lifetime <= LONGEST
  {
    var d := lifetime * NANOS;
    if lifetime <= LONGEST {
      assert Wrap64(d) == d;
      assert (now + lifetime * NANOS) / NANOS == now / NANOS + lifetime;
    } else {
      WrapsDown(d);
      assert (now + (lifetime - 1) * NANOS) / NANOS == now / NANOS + lifetime - 1;
      DivideMonotone(now + Wrap64(d), now + (lifetime - 1) * NANOS);
    }
  }

  lemma DivideMonotone(a: int, b: int)
    requires a <= b
    ensures a / NANOS <= b / NANOS
  {}

  lemma WrapsDown(d: int)
    requires d >= INT64_LIMIT
    ensures Wrap64(d) <= d - 2 * INT64_LIMIT
  {
    var q := (d + INT64_LIMIT) / (2 * INT64_LIMIT);
    assert q >= 1;
  }

  /** A box that registers and is then left alone is found for exactly as many whole seconds as it asked for. */
  lemma ActiveForItsLifetime(h: seq<Op>, b: int, info: Registration, lifetime: int, now: int, t: int)
    requires ClockBy(h, Reading, now) && b in Run(h).boxes && 0 < lifetime <= LONGEST && now <= t
    ensures Active(Run(h + [Register(b, info, lifetime, now)]), b, t).Some? <==> Unix(t) < Unix(now) + lifetime
  {
    var h' := h + [Register(b, info, lifetime, now)];
    assert h'[..|h|] == h;
    LookupFindsLastBinding(h', b, t);
    LivesItsLifetimeIff(now, lifetime);
  }

  /** One second more than that is stored as a binding that is over at once: no later lookup finds it. */
  lemma TooLongIsLost(db: Db, b: int, info: Registration, now: int, t: int)
    requires b in db.boxes && now <= t
    ensures var db' := Step(db, Register(b, info, LONGEST + 1, now));
            b in db'.regs && Active(db', b, t).None?
  {
    assert Wrap64((LONGEST + 1) * NANOS) == (LONGEST + 1) * NANOS - 2 * INT64_LIMIT < 0;
    DivideMonotone(now + Wrap64((LONGEST + 1) * NANOS), t);
  }
}
