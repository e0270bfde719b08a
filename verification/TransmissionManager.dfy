/** `TransmissionManager` itself. Notifications queue up while the state lock is
    held and reach the session store when its outermost scope ends. */
module TransmissionManagers {
  import opened Ordering
  import opened SessionTables
  import S = RoomsSpec

  // One step of each collecting loop.

  lemma LostRoomsStep(hosts: map<string, string>, users: map<S.Handle, string>, found: seq<string>, rooms: seq<string>)
    requires rooms != [] && forall k :: k in rooms ==> k in hosts
    ensures found + S.LostRooms(hosts, users, rooms)
         == (if S.Connected(users, hosts[rooms[0]]) then found else found + [rooms[0]]) + S.LostRooms(hosts, users, rooms[1..])
  {
    hide S.Connected;
  }

  lemma LostInStep(grants: map<string, map<string, S.Handle>>, users: map<S.Handle, string>, live: set<S.Handle>, room: string, found: seq<(string, string)>, list: seq<string>)
    requires list != []
    ensures found + S.LostIn(grants, users, live, room, list)
         == (if S.Present(grants, users, live, room, list[0]) then found else found + [(room, list[0])]) + S.LostIn(grants, users, live, room, list[1..])
  {
    hide S.Present;
  }

  lemma LostGuestsStep(guests: map<string, seq<string>>, grants: map<string, map<string, S.Handle>>, users: map<S.Handle, string>, live: set<S.Handle>, found: seq<(string, string)>, rooms: seq<string>)
    requires rooms != [] && forall k :: k in rooms ==> k in guests
    ensures found + S.LostGuests(guests, grants, users, live, rooms)
         == (found + S.LostIn(grants, users, live, rooms[0], guests[rooms[0]])) + S.LostGuests(guests, grants, users, live, rooms[1..])
  {
    hide S.LostIn;
    hide S.Present;
  }

  lemma RoomsGrantedStep(grants: map<string, map<string, S.Handle>>, found: seq<string>, rooms: seq<string>, user: string, h: S.Handle)
    requires rooms != []
    ensures found + S.RoomsGranted(grants, rooms, user, h)
         == (if S.GrantedOn(grants, rooms[0], user, h) then found + [rooms[0]] else found) + S.RoomsGranted(grants, rooms[1..], user, h)
  {
    hide S.GrantedOn;
  }

  lemma Tail<T>(s: seq<T>, i: nat)
    requires i < |s|
    ensures s[i..] != [] && s[i..][0] == s[i] && s[i..][1..] == s[i + 1..]
  {
  }

  class TransmissionManager {
    var hosts: map<string, string>
    var guests: map<string, seq<string>>
    var grants: map<string, map<string, S.Handle>>
    var routes: map<string, S.Handle>
    var users: map<S.Handle, string>
    var verified: map<S.Handle, string>
    var active: map<S.Handle, nat>
    var callback: SessionStore?
    var lockDepth: nat
    var pending: seq<S.Note>
    ghost var delivered: seq<S.Note>

    ghost function State(): S.Rooms
      reads this
    {
      S.Rooms(hosts, guests, grants, routes, users, verified, active, callback != null, delivered + pending)
    }

    ghost function Frame(): set<object>
      reads this
    {
      if callback == null then {this} else {this, callback}
    }

    ghost function Store(): Tables
      reads this, callback
    {
      if callback == null then Tables(map[], map[]) else callback.State()
    }

    /** Outside the lock nothing is left to deliver. */
    ghost predicate Ready()
      reads this
    {
      lockDepth == 0 || callback == null ==> pending == []
    }

    /** In the scope of a lock: nothing has been delivered since it was taken. */
    twostate predicate Locked()
      reads this, callback
    {
      && lockDepth == old(lockDepth) + 1 && callback == old(callback) && Ready()
      && Store() == old(Store()) && delivered == old(delivered)
    }

    /** The new notifications wait for the outermost unlock, or have been
        delivered by it in order. */
    twostate predicate Told()
      reads this, callback
    {
      && lockDepth == old(lockDepth) && callback == old(callback) && Ready()
      && if lockDepth > 0 then Store() == old(Store()) && delivered == old(delivered)
         else old(State()).notes <= State().notes
              && Store() == Deliver(old(Store()), State().notes[|old(State()).notes|..])
    }

    constructor ()
      ensures State() == S.NO_ROOMS && lockDepth == 0 && Ready() && callback == null
    {
      hosts, guests, grants, routes := map[], map[], map[], map[];
      users, verified, active := map[], map[], map[];
      callback, lockDepth, pending, delivered := null, 0, [], [];
    }

    method SetRemoteControlSessionCallback(store: SessionStore)
      requires lockDepth == 0 && Ready()
      modifies this
      ensures State() == old(State()).(watched := true) && callback == store && lockDepth == 0 && Ready()
    {
      callback := store;
    }

    method Lock()
      requires Ready()
      modifies this`lockDepth
      ensures Locked() && State() == old(State()) && pending == old(pending)
    {
      lockDepth := lockDepth + 1;
    }

    method Unlock()
      requires lockDepth > 0 && Ready()
      modifies Frame()
      ensures lockDepth == old(lockDepth) - 1 && callback == old(callback) && Ready()
      ensures State() == old(State())
      ensures lockDepth > 0 ==> Store() == old(Store()) && delivered == old(delivered) && pending == old(pending)
      ensures lockDepth == 0 ==> Store() == Deliver(old(Store()), State().notes[|old(delivered)|..])
    {
      lockDepth := lockDepth - 1;
      if lockDepth != 0 {
        return;
      }
      var callbacks := pending;
      delivered, pending := delivered + callbacks, [];
      assert State().notes[|old(delivered)|..] == callbacks;
      if callback != null {
        var i := 0;
        while i < |callbacks|
          invariant i <= |callbacks|
          invariant State() == old(State()) && lockDepth == 0 && pending == [] && callback == old(callback)
          invariant Deliver(Store(), callbacks[i..]) == Deliver(old(Store()), callbacks)
          modifies callback
        {
          callback.Note(callbacks[i]);
          i := i + 1;
        }
      }
    }

    method NotifyRemoteControl(room: string, host: string, guest: string, started: bool)
      requires Ready() && lockDepth > 0
      modifies this`pending
      ensures State() == S.Notify(old(State()), S.Note(room, host, guest, started)) && Ready()
    {
      if callback != null {
        pending := pending + [S.Note(room, host, guest, started)];
        assert delivered + pending == old(delivered + pending) + [S.Note(room, host, guest, started)];
      }
    }

    method ReleaseTransmission(room: string)
      requires Ready()
      modifies Frame()
      ensures State() == S.ReleaseRoom(old(State()), room)
      ensures Told()
    {
      hide Deliver;
      Lock();
      var host := if room in hosts then hosts[room] else "";
      if room in guests {
        NotifyEnds(room, host, guests[room]);
        guests := guests - {room};
      }
      grants := grants - {room};
      hosts := hosts - {room};
      hide S.Ends;
      assert State() == S.ReleaseRoom(old(State()), room);
      hide S.ReleaseRoom;
      Unlock();
    }

    method NotifyEnds(room: string, host: string, list: seq<string>)
      requires Ready() && lockDepth > 0
      modifies this`pending
      ensures State() == old(State()).(notes := if callback != null then old(State()).notes + S.Ends(room, host, list) else old(State()).notes)
      ensures Ready()
    {
      var i := 0;
      while i < |list|
        invariant i <= |list| && Ready()
        invariant callback == null ==> pending == old(pending)
        invariant callback != null ==> State().notes + S.Ends(room, host, list[i..]) == old(State()).notes + S.Ends(room, host, list)
      {
        NotifyRemoteControl(room, host, list[i], false);
        i := i + 1;
      }
    }

    method BindHostToTransmission(host: string, room: string) returns (bound: bool)
      modifies this`hosts
      ensures (State(), bound) == S.BindHost(old(State()), host, room)
    {
      if S.Temporary(host) || S.Temporary(room) {
        return false;
      }
      if room !in hosts {
        hosts := hosts[room := host];
        return true;
      }
      bound := false;
    }

    method BindGuestToTransmission(guest: string, room: string) returns (bound: bool)
      requires Ready()
      modifies Frame()
      ensures (State(), bound) == S.AddGuest(old(State()), guest, room)
      ensures Told()
    {
      Lock();
      if guest == "" || room == "" || room !in hosts || hosts[room] == guest || guest in S.Guests(guests, room) {
        bound := false;
      } else {
        guests := guests[room := S.Guests(guests, room) + [guest]];
        NotifyRemoteControl(room, hosts[room], guest, true);
        bound := true;
      }
      Unlock();
    }

    static lemma AddedAlready(r: S.Rooms, guest: string, room: string)
      requires guest in S.Guests(r.guests, room)
      ensures S.AddGuest(r, guest, room) == (r, false)
    {
    }

    /** The overload that also grants the room to a connection. */
    method BindGuestHandle(guest: string, room: string, h: S.Handle, live: set<S.Handle>) returns (bound: bool)
      requires Ready()
      modifies Frame()
      ensures (State(), bound) == S.GrantGuest(old(State()), guest, room, h, live)
      ensures Told()
    {
      hide S.AddGuest;
      hide Deliver;
      Lock();
      bound := false;
      if guest in S.Guests(guests, room) {
        AddedAlready(State(), guest, room);
      }
      if guest != "" && h in live && S.UserOf(users, h) == guest && room in hosts && hosts[room] != guest {
        var added := guest in S.Guests(guests, room);
        if !added {
          added := BindGuestToTransmission(guest, room);
        }
        if added {
          var given := if room in grants then grants[room] else map[];
          grants := grants[room := given[guest := h]];
          bound := true;
        }
      }
      assert (State(), bound) == S.GrantGuest(old(State()), guest, room, h, live);
      hide S.GrantGuest;
      Unlock();
    }

    method BindUserToWsHandle(user: string, h: S.Handle, device: string, now: nat, live: set<S.Handle>) returns (bound: bool)
      modifies this`routes, this`users, this`verified, this`active
      ensures (State(), bound) == S.BindUser(old(State()), user, h, device, now, live)
    {
      if user == "" || h !in live {
        return false;
      }
      if h in users && users[h] != user {
        return false;
      }
      if S.Alias(user) {
        if user !in routes {
          routes := routes[user := h];
        }
      } else {
        routes := routes[user := h];
      }
      users := users[h := user];
      if device != "" {
        verified := verified[h := device];
      }
      active := active[h := now];
      bound := true;
    }

    method EraseHandle(room: string, guest: string)
      modifies this`grants
      ensures grants == S.Revoke(old(grants), room, guest)
    {
      if room in grants {
        var handles := grants[room] - {guest};
        grants := if handles == map[] then grants - {room} else grants[room := handles];
      }
    }

    method ReleaseGuestFromTransmission(guest: string, room: string) returns (released: bool)
      requires Ready()
      modifies Frame()
      ensures (State(), released) == S.DropGuest(old(State()), guest, room)
      ensures Told()
    {
      hide S.Revoke;
      hide Deliver;
      Lock();
      if guest !in S.Guests(guests, room) {
        released := false;
      } else {
        NotifyRemoteControl(room, if room in hosts then hosts[room] else "", guest, false);
        var left := S.Without(guests[room], guest);
        EraseHandle(room, guest);
        guests := if left == [] then guests - {room} else guests[room := left];
        released := true;
      }
      assert (State(), released) == S.DropGuest(old(State()), guest, room);
      hide S.DropGuest;
      Unlock();
    }

    /** Releases the guest from the given rooms, one after the other. */
    method ReleaseGuestFromRooms(guest: string, rooms: seq<string>)
      requires Ready() && lockDepth > 0
      modifies Frame()
      ensures State() == S.DropFrom(old(State()), guest, rooms)
      ensures Told()
    {
      hide S.DropGuest;
      var i := 0;
      while i < |rooms|
        invariant i <= |rooms| && lockDepth == old(lockDepth) && Told()
        invariant S.DropFrom(State(), guest, rooms[i..]) == S.DropFrom(old(State()), guest, rooms)
      {
        var _ := ReleaseGuestFromTransmission(guest, rooms[i]);
        assert rooms[i..][1..] == rooms[i + 1..];
        i := i + 1;
      }
    }

    method ReleaseGuestEverywhere(guest: string)
      requires Ready()
      modifies Frame()
      ensures State() == S.DropEverywhere(old(State()), guest)
      ensures Told()
    {
      Lock();
      ReleaseGuestFromRooms(guest, SortedKeys(guests.Keys));
      Unlock();
    }

    method DisconnectTransmission(room: string)
      requires Ready()
      modifies Frame()
      ensures State() == if room in old(hosts) then S.ReleaseRoom(old(State()), room) else old(State())
      ensures Told()
    {
      Lock();
      if room in hosts {
        ReleaseTransmission(room);
      }
      hide S.ReleaseRoom;
      Unlock();
    }

    // --------------------------------------------------------------- pruning

    method DisconnectedTransmissions() returns (lost: seq<string>)
      ensures lost == S.LostRooms(hosts, users, SortedKeys(hosts.Keys))
    {
      hide Less;
      hide SortedKeys;
      var keys := SortedKeys(hosts.Keys);
      lost := [];
      var i := 0;
      while i < |keys|
        invariant i <= |keys|
        invariant lost + S.LostRooms(hosts, users, keys[i..]) == S.LostRooms(hosts, users, keys)
      {
        Tail(keys, i);
        hide S.LostRooms;
        hide S.Connected;
        LostRoomsStep(hosts, users, lost, keys[i..]);
        if !S.Connected(users, hosts[keys[i]]) {
          lost := lost + [keys[i]];
        }
        i := i + 1;
      }
      assert keys[i..] == [];
    }

    method ReleaseTransmissions(rooms: seq<string>) returns (released: nat)
      requires Ready() && lockDepth > 0
      modifies Frame()
      ensures (State(), released) == S.ReleaseRooms(old(State()), rooms)
      ensures Told()
    {
      hide S.ReleaseRoom;
      released := 0;
      var i := 0;
      while i < |rooms|
        invariant i <= |rooms| && lockDepth == old(lockDepth) && Told()
        invariant S.ReleaseRooms(State(), rooms[i..]).0 == S.ReleaseRooms(old(State()), rooms).0
        invariant released + S.ReleaseRooms(State(), rooms[i..]).1 == S.ReleaseRooms(old(State()), rooms).1
      {
        assert rooms[i..][0] == rooms[i] && rooms[i..][1..] == rooms[i + 1..];
        if rooms[i] in guests {
          released := released + |guests[rooms[i]]|;
        }
        ReleaseTransmission(rooms[i]);
        i := i + 1;
      }
    }

    method DisconnectedIn(room: string, live: set<S.Handle>) returns (lost: seq<(string, string)>)
      requires room in guests
      ensures lost == S.LostIn(grants, users, live, room, guests[room])
    {
      var list := guests[room];
      lost := [];
      var i := 0;
      while i < |list|
        invariant i <= |list|
        invariant lost + S.LostIn(grants, users, live, room, list[i..]) == S.LostIn(grants, users, live, room, list)
      {
        Tail(list, i);
        LostInStep(grants, users, live, room, lost, list[i..]);
        hide S.LostIn;
        hide S.Connected;
        var connected := S.Connected(users, list[i]);
        if room in grants && list[i] in grants[room] {
          var h := grants[room][list[i]];
          connected := h in live && S.UserOf(users, h) == list[i];
        }
        if !connected {
          lost := lost + [(room, list[i])];
        }
        i := i + 1;
      }
    }

    method DisconnectedGuests(live: set<S.Handle>) returns (lost: seq<(string, string)>)
      ensures lost == S.LostGuests(guests, grants, users, live, SortedKeys(guests.Keys))
    {
      hide S.LostIn;
      hide S.Present;
      hide Less;
      hide SortedKeys;
      var keys := SortedKeys(guests.Keys);
      lost := [];
      var i := 0;
      assert keys[i..] == keys;
      while i < |keys|
        invariant i <= |keys|
        invariant lost + S.LostGuests(guests, grants, users, live, keys[i..]) == S.LostGuests(guests, grants, users, live, keys)
      {
        Tail(keys, i);
        hide S.LostGuests;
        LostGuestsStep(guests, grants, users, live, lost, keys[i..]);
        var some := DisconnectedIn(keys[i], live);
        lost := lost + some;
        i := i + 1;
      }
      assert keys[i..] == [];
    }

    method ReleaseGuests(pairs: seq<(string, string)>) returns (released: nat)
      requires Ready() && lockDepth > 0
      modifies Frame()
      ensures (State(), released) == S.DropPairs(old(State()), pairs)
      ensures Told()
    {
      hide S.DropGuest;
      released := 0;
      var i := 0;
      while i < |pairs|
        invariant i <= |pairs| && lockDepth == old(lockDepth) && Told()
        invariant S.DropPairs(State(), pairs[i..]).0 == S.DropPairs(old(State()), pairs).0
        invariant released + S.DropPairs(State(), pairs[i..]).1 == S.DropPairs(old(State()), pairs).1
      {
        assert pairs[i..][0] == pairs[i] && pairs[i..][1..] == pairs[i + 1..];
        var dropped := ReleaseGuestFromTransmission(pairs[i].1, pairs[i].0);
        if dropped {
          released := released + 1;
        }
        i := i + 1;
      }
    }

    method PruneDisconnectedTransmissions(live: set<S.Handle>) returns (pruned: nat)
      requires Ready()
      modifies Frame()
      ensures (State(), pruned) == S.Prune(old(State()), live)
      ensures Told()
    {
      hide S.LostRooms;
      hide S.LostGuests;
      hide S.ReleaseRooms;
      hide S.DropPairs;
      hide SortedKeys;
      hide Deliver;
      Lock();
      var rooms := DisconnectedTransmissions();
      pruned := ReleaseTransmissions(rooms);
      var pairs := DisconnectedGuests(live);
      var more := ReleaseGuests(pairs);
      pruned := pruned + more;
      Unlock();
    }

    // ----------------------------------------------------- ending a connection

    method FirstBound(user: string) returns (other: Option<S.Handle>)
      ensures other == S.FirstHandle(SortedNats(users.Keys), users, user)
    {
      hide SortedNats;
      var handles := SortedNats(users.Keys);
      var i := 0;
      while i < |handles| && users[handles[i]] != user
        invariant i <= |handles|
        invariant S.FirstHandle(handles[i..], users, user) == S.FirstHandle(handles, users, user)
      {
        Tail(handles, i);
        i := i + 1;
      }
      other := if i < |handles| then Some(handles[i]) else None;
    }

    /** Moves the route of a user whose handle `h` was just unbound. */
    method MoveRoute(user: string, h: S.Handle, ghost before: map<S.Handle, string>)
      requires h in before && before[h] == user && users == before - {h}
      modifies this`routes
      ensures routes == S.Reroute(old(routes), before, h)
    {
      hide S.FirstHandle;
      hide SortedNats;
      if user in routes && routes[user] == h {
        var other := FirstBound(user);
        routes := if other.Some? then routes[user := other.value] else routes - {user};
      }
    }

    method ReleaseUserFromWsHandle(h: S.Handle) returns (user: string)
      modifies this`users, this`routes, this`verified, this`active
      ensures (State(), user) == S.ReleaseHandle(old(State()), h)
    {
      hide S.Reroute;
      active := active - {h};
      verified := verified - {h};
      if h !in users {
        assert users - {h} == users;
        return "";
      }
      user := users[h];
      ghost var before := users;
      users := users - {h};
      MoveRoute(user, h, before);
    }

    method JoinedOn(user: string, h: S.Handle) returns (rooms: seq<string>)
      ensures rooms == S.RoomsGranted(grants, SortedKeys(grants.Keys), user, h)
    {
      hide Less;
      hide SortedKeys;
      var keys := SortedKeys(grants.Keys);
      rooms := [];
      var i := 0;
      while i < |keys|
        invariant i <= |keys|
        invariant rooms + S.RoomsGranted(grants, keys[i..], user, h) == S.RoomsGranted(grants, keys, user, h)
      {
        Tail(keys, i);
        hide S.RoomsGranted;
        RoomsGrantedStep(grants, rooms, keys[i..], user, h);
        var room := grants[keys[i]];
        if user in room && room[user] == h {
          rooms := rooms + [keys[i]];
        }
        i := i + 1;
      }
      assert keys[i..] == [];
    }

    method IsHost(user: string) returns (room: string)
      ensures room == S.FirstHosted(hosts, SortedKeys(hosts.Keys), user)
    {
      hide Less;
      hide SortedKeys;
      var keys := SortedKeys(hosts.Keys);
      var i := 0;
      while i < |keys| && hosts[keys[i]] != user
        invariant i <= |keys|
        invariant S.FirstHosted(hosts, keys[i..], user) == S.FirstHosted(hosts, keys, user)
      {
        assert keys[i..][0] == keys[i] && keys[i..][1..] == keys[i + 1..];
        i := i + 1;
      }
      room := if i < |keys| then keys[i] else "";
    }

    method ReleaseUserSession(h: S.Handle) returns (id: string)
      requires Ready()
      modifies Frame()
      ensures (State(), id) == S.ReleaseSession(old(State()), h)
      ensures Told()
    {
      hide S.ReleaseHandle;
      hide S.DropFrom;
      hide S.RoomsGranted;
      hide S.Depart;
      hide SortedKeys;
      hide Deliver;
      Lock();
      id := ReleaseUserFromWsHandle(h);
      if id != "" {
        var rooms := JoinedOn(id, h);
        ReleaseGuestFromRooms(id, rooms);
        if S.Connected(users, id) {
          id := "";
        } else {
          LogOut(id);
        }
      }
      Unlock();
    }

    method UpdateWsHandleLastActiveTime(h: S.Handle, now: nat) returns (known: bool)
      requires Ready()
      modifies this`active
      ensures (State(), known) == S.Beat(old(State()), h, now) && Ready()
    {
      known := h in users;
      if known {
        active := active[h := now];
      }
    }

    static lemma ErasedFirst(r: S.Rooms, h: S.Handle)
      ensures S.ReleaseSession(r.(active := r.active - {h}), h) == S.ReleaseSession(r, h)
    {
      hide S.Reroute;
      hide S.TakeBack;
      hide S.Depart;
      hide S.Connected;
      assert r.active - {h} - {h} == r.active - {h};
      assert S.ReleaseHandle(r.(active := r.active - {h}), h) == S.ReleaseHandle(r, h);
    }

    method ExpireEach(handles: seq<S.Handle>, live: set<S.Handle>, now: nat) returns (ended: seq<(S.Handle, string)>)
      requires Ready() && lockDepth > 0
      modifies Frame()
      ensures (State(), ended) == S.ExpireFrom(old(State()), handles, live, now)
      ensures Told()
    {
      hide S.ReleaseSession;
      ended := [];
      var i := 0;
      while i < |handles|
        invariant i <= |handles| && lockDepth == old(lockDepth) && Told()
        invariant S.ExpireFrom(State(), handles[i..], live, now).0 == S.ExpireFrom(old(State()), handles, live, now).0
        invariant ended + S.ExpireFrom(State(), handles[i..], live, now).1 == S.ExpireFrom(old(State()), handles, live, now).1
      {
        var h := handles[i];
        assert handles[i..][0] == h && handles[i..][1..] == handles[i + 1..];
        if h in active && (h !in live || now > active[h] + S.INACTIVITY) {
          ErasedFirst(State(), h);
          active := active - {h};
          var id := ReleaseUserSession(h);
          ended := ended + [(h, id)];
        }
        i := i + 1;
      }
      assert handles[i..] == [] && ended + [] == ended;
    }

    /** Ends every connection that is gone or silent for too long; each is then
        to be closed, and its id, if any, logged out. */
    method ExpireInactiveSessions(live: set<S.Handle>, now: nat) returns (ended: seq<(S.Handle, string)>)
      requires Ready()
      modifies Frame()
      ensures (State(), ended) == S.ExpireInactive(old(State()), live, now)
      ensures Told()
    {
      hide S.ExpireFrom;
      hide SortedNats;
      hide Deliver;
      Lock();
      var handles := SortedNats(active.Keys);
      ended := ExpireEach(handles, live, now);
      Unlock();
    }

    method LogOut(user: string)
      requires Ready() && lockDepth > 0
      modifies Frame()
      ensures State() == S.Depart(old(State()), user)
      ensures Told()
    {
      hide S.DropEverywhere;
      hide S.ReleaseRoom;
      hide SortedKeys;
      ReleaseGuestEverywhere(user);
      var room := IsHost(user);
      if room != "" {
        ReleaseTransmission(room);
      }
    }

    // --------------------------------------------------------------- queries

    method GetUserHandle(user: string) returns (h: Option<S.Handle>)
      ensures h == S.Route(State(), user)
    {
      h := if user in routes then Some(routes[user]) else None;
    }

    method GetWsHandle(user: string, room: string) returns (h: Option<S.Handle>)
      ensures h == S.MemberHandle(State(), user, room)
    {
      if user == "" || room == "" || room !in hosts {
        return None;
      }
      if hosts[room] == user {
        return if user in routes then Some(routes[user]) else None;
      }
      if room !in grants || user !in grants[room] || S.UserOf(users, grants[room][user]) != user {
        return None;
      }
      h := Some(grants[room][user]);
    }

    method IsConnectionInTransmission(h: S.Handle, room: string, live: set<S.Handle>) returns (inside: bool)
      ensures inside == S.InTransmission(State(), h, room, live)
    {
      var member := GetWsHandle(S.UserOf(users, h), room);
      inside := h in live && member == Some(h);
    }

    method IsAuthorizedPeerSignal(h: S.Handle, user: string, remote: string, room: string, live: set<S.Handle>) returns (ok: bool)
      ensures ok == S.Authorized(State(), h, user, remote, room, live)
    {
      hide S.MemberHandle;
      if h !in live || user == "" || remote == "" || room == "" || user == remote || S.UserOf(users, h) != user {
        return false;
      }
      var host := if room in hosts then hosts[room] else "";
      if host == "" || (user != host && remote != host) {
        return false;
      }
      var inside := IsConnectionInTransmission(h, room, live);
      var other := GetWsHandle(remote, room);
      ok := inside && other.Some? && other.value in live;
    }
  }
}
