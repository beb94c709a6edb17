/** The store, which changes its tables in place. */
module Store {
  import opened Wrappers
  import opened D = Database

  class Store {
    var users: seq<int>
    var admins: set<int>
    var nextUser: int
    var boxes: seq<int>
    var nextBox: int
    var perms: map<(int, int), Perm>
    var regs: map<int, Registration>
    var contacts: map<int, int>
    var devices: map<string, int>
    var calls: map<int, Call>
    var nextRow: int

    constructor ()
      ensures View() == EMPTY
    {
      users, admins, nextUser := [], {}, 1;
      boxes, nextBox := [], 1;
      perms, regs := map[], map[];
      contacts, devices, calls, nextRow := map[], map[], map[], 1;
    }

    function View(): Db
      reads this
    {
      Db(users, admins, nextUser, boxes, nextBox, perms, regs, Owned(contacts, devices, calls, nextRow))
    }

    method CreateUser(admin: bool) returns (id: int)
      modifies this
      ensures View() == D.CreateUser(old(View()), admin) && id == old(nextUser)
    {
      id := nextUser;
      users, nextUser := users + [id], nextUser + 1;
      if admin { admins := admins + {id}; }
    }

    method DeleteUser(id: int) returns (found: bool)
      modifies this
      ensures found <==> id in old(users)
      ensures found ==> View() == D.DeleteUser(old(View()), id)
      ensures !found ==> View() == old(View())
    {
      hide Without;
      found := id in users;
      if found {
        users, admins := Without(users, id), admins - {id};
        perms := map k | k in perms && k.0 != id :: perms[k];
        contacts := map c | c in contacts && contacts[c] != id :: contacts[c];
        devices := map d | d in devices && devices[d] != id :: devices[d];
        calls := map c | c in calls && calls[c].user != id :: calls[c];
      }
    }

    method SetUserRole(user: int, admin: bool) returns (found: bool)
      modifies this`admins
      ensures found <==> user in users
      ensures View() == SetRole(old(View()), user, admin)
    {
      found := user in users;
      if found { admins := if admin then admins + {user} else admins - {user}; }
    }

    method CreateFXOBox() returns (id: int)
      modifies this
      ensures View() == CreateBox(old(View())) && id == old(nextBox)
    {
      id := nextBox;
      boxes, nextBox := boxes + [id], nextBox + 1;
    }

    method DeleteFXOBox(id: int) returns (found: bool)
      modifies this
      ensures found <==> id in old(boxes)
      ensures found ==> View() == DeleteBox(old(View()), id)
      ensures !found ==> View() == old(View())
    {
      found := id in boxes;
      if found {
        boxes, regs := Without(boxes, id), regs - {id};
        perms := map k | k in perms && k.1 != id :: perms[k];
        calls := map c | c in calls && calls[c].box != id :: calls[c];
      }
    }

    method CreateContact(user: int) returns (ok: bool)
      modifies this`contacts, this`nextRow
      ensures ok <==> user in users
      ensures View() == D.CreateContact(old(View()), user)
    {
      ok := user in users;
      if ok { contacts, nextRow := contacts[nextRow := user], nextRow + 1; }
    }

    method UpsertUserDevice(token: string, user: int) returns (ok: bool)
      modifies this`devices
      ensures ok <==> user in users
      ensures View() == UpsertDevice(old(View()), token, user)
    {
      ok := user in users;
      if ok { devices := devices[token := user]; }
    }

    method CreateCallLog(user: int, box: int) returns (id: int)
      modifies this`calls, this`nextRow
      ensures if box in boxes then id == old(nextRow) else id == 0
      ensures View() == CreateCall(old(View()), user, box)
    {
      id := 0;
      if box in boxes {
        id := nextRow;
        calls, nextRow := calls[id := Call(user, box)], nextRow + 1;
      }
    }

    method SetUserFXOPermission(user: int, box: int, canDial: bool, canReceive: bool) returns (ok: bool)
      modifies this`perms
      ensures ok <==> user in users && box in boxes
      ensures View() == SetPermission(old(View()), user, box, canDial, canReceive)
      ensures ok ==> forall k :: k != (user, box) ==> (k in perms <==> k in old(perms)) && (k in perms ==> perms[k] == old(perms)[k])
    {
      ok := user in users && box in boxes;
      if ok {
        var notify := if (user, box) in perms then perms[(user, box)].notify else true;
        perms := perms[(user, box) := Perm(canDial, canReceive, notify)];
      }
    }

    method SetUserNotifyPreference(user: int, box: int, notify: bool) returns (ok: bool)
      modifies this`perms
      ensures ok <==> user in users && box in boxes
      ensures View() == SetNotify(old(View()), user, box, notify)
    {
      ok := user in users && box in boxes;
      if ok {
        var perm := if (user, box) in perms then perms[(user, box)] else Perm(false, false, notify);
        perms := perms[(user, box) := perm.(notify := notify)];
      }
    }

    method UserCanDialFXO(user: int, box: int, isAdmin: bool) returns (allowed: bool)
      ensures allowed <==> CanDial(View(), user, box, isAdmin)
    {
      if isAdmin { return true; }
      allowed := (user, box) in perms && perms[(user, box)].dial;
    }

    method UserCanReceiveFXO(user: int, box: int, isAdmin: bool) returns (allowed: bool)
      ensures allowed <==> CanReceive(View(), user, box, isAdmin)
    {
      if isAdmin { return true; }
      allowed := (user, box) in perms && perms[(user, box)].receive;
    }

    /** Exactly the users to ring, each once, in ascending order. */
    method ListUsersForIncomingFXO(box: int) returns (out: seq<int>)
      requires Valid(View())
      ensures Ascending(out) && forall u :: u in out <==> RungFor(View(), box, u)
    {
      assert Ascending(users);
      hide Valid;
      out := [];
      for i := 0 to |users|
        invariant Ascending(out) && forall k :: 0 <= k < |out| ==> out[k] in users[..i]
        invariant forall u :: u in out <==> u in users[..i] && RungFor(View(), box, u)
      {
        var u := users[i];
        assert users[..i + 1] == users[..i] + [u];
        var receives := u in admins || ((u, box) in perms && perms[(u, box)].receive);
        var notify := if (u, box) in perms then perms[(u, box)].notify else true;
        if receives && notify { out := out + [u]; }
      }
    }

    /** Every box in ascending order, with the registration the table holds, active or not. */
    method ListFXOBoxesWithStatus(now: int) returns (out: seq<BoxWithStatus>)
      ensures |out| == |boxes|
      ensures forall i :: 0 <= i < |out| ==>
                && out[i].box == boxes[i]
                && (out[i].online <==> Active(View(), boxes[i], now).Some?)
                && out[i].registration == if boxes[i] in regs then Some(regs[boxes[i]]) else None
    {
      out := [];
      for i := 0 to |boxes|
        invariant |out| == i
        invariant forall j :: 0 <= j < i ==>
                    && out[j].box == boxes[j]
                    && (out[j].online <==> Active(View(), boxes[j], now).Some?)
                    && out[j].registration == if boxes[j] in regs then Some(regs[boxes[j]]) else None
      {
        var box := boxes[i];
        if box in regs {
          out := out + [BoxWithStatus(box, Some(regs[box]), regs[box].expires > Unix(now))];
        } else {
          out := out + [BoxWithStatus(box, None, false)];
        }
      }
    }

    /** One row of the list of boxes. */
    method ScanBox(user: int, box: int, includeAll: bool, now: int) returns (row: BoxForUser)
      ensures row == RowFor(View(), user, box, includeAll, now)
    {
      var perm := if (user, box) in perms then Some(perms[(user, box)]) else None;
      var shown := Perm(false, false, false);
      if includeAll {
        shown := Perm(true, true, perm.Some? ==> perm.value.notify);
      } else if perm.Some? {
        shown := perm.value;
      }
      var reg := if box in regs then Some(regs[box]) else None;
      row := BoxForUser(box, shown, reg, reg.Some? && reg.value.expires > Unix(now));
    }

    /** Every box, or those the user may dial, each once and in ascending order. */
    method ListFXOBoxesWithStatusForUser(user: int, includeAll: bool, now: int) returns (out: seq<BoxForUser>)
      requires Valid(View())
      ensures forall i, j :: 0 <= i < j < |out| ==> out[i].box < out[j].box
      ensures forall item :: item in out <==> Shows(View(), user, includeAll, now, item)
      ensures forall item <- out :: item.online <==> Active(View(), item.box, now).Some?
    {
      assert Ascending(boxes);
      hide Valid, RowFor, Shows;
      out := [];
      for i := 0 to |boxes|
        invariant forall k, j :: 0 <= k < j < |out| ==> out[k].box < out[j].box
        invariant forall k :: 0 <= k < |out| ==> out[k].box in boxes[..i]
        invariant forall item :: item in out <==> item.box in boxes[..i] && Shows(View(), user, includeAll, now, item)
      {
        var box := boxes[i];
        assert boxes[..i + 1] == boxes[..i] + [box];
        var allowed := UserCanDialFXO(user, box, includeAll);
        var row := ScanBox(user, box, includeAll, now);
        ShowsRow(View(), user, includeAll, now, box);
        if allowed { out := out + [row]; }
      }
      ShownOnline(View(), user, includeAll, now);
    }

    method UpsertRegistration(box: int, reg: Registration) returns (ok: bool)
      modifies this`regs
      ensures ok <==> box in boxes
      ensures View() == D.UpsertRegistration(old(View()), box, reg)
    {
      ok := box in boxes;
      if ok { regs := regs[box := reg]; }
    }

    method DeleteRegistration(box: int)
      modifies this`regs
      ensures View() == D.DeleteRegistration(old(View()), box)
    {
      regs := regs - {box};
    }

    method GetActiveRegistration(box: int, now: int) returns (reg: Option<Registration>)
      ensures reg == Active(View(), box, now)
    {
      if box in regs && regs[box].expires > Unix(now) { return Some(regs[box]); }
      reg := None;
    }

    method CleanupExpiredRegistrations(now: int)
      modifies this`regs
      ensures View() == CleanupExpired(old(View()), now)
    {
      regs := map b | b in regs && regs[b].expires > Unix(now) :: regs[b];
    }
  }
}
