/** Properties of `TransmissionManager` that every operation keeps. */
module RoomsFacts {
  import opened Ordering
  import opened RoomsSpec

  // ------------------------------------------------------------ notifications

  lemma ReplaySnoc(base: set<(string, string)>, notes: seq<Note>, n: Note)
    ensures var before := Replay(base, notes);
            Replay(base, notes + [n]) ==
            if before.None? || n.started == ((n.room, n.guest) in before.value) then None
            else Some(if n.started then before.value + {(n.room, n.guest)} else before.value - {(n.room, n.guest)})
  {
    assert (notes + [n])[..|notes|] == notes;
  }

  ghost function RoomPairs(room: string, list: seq<string>): set<(string, string)> {
    set g | g in list :: (room, g)
  }

  lemma PairsHead(room: string, list: seq<string>)
    requires list != [] && NoDup(list)
    ensures RoomPairs(room, list) == {(room, list[0])} + RoomPairs(room, list[1..])
    ensures (room, list[0]) !in RoomPairs(room, list[1..])
  {
    forall p
      ensures p in RoomPairs(room, list) <==> p in {(room, list[0])} + RoomPairs(room, list[1..])
    {
      assert list == [list[0]] + list[1..];
    }
  }

  lemma {:induction false} ReplayEnds(base: set<(string, string)>, notes: seq<Note>, room: string, host: string, list: seq<string>)
    requires Replay(base, notes).Some? && NoDup(list)
    requires RoomPairs(room, list) <= Replay(base, notes).value
    ensures Replay(base, notes + Ends(room, host, list)) == Some(Replay(base, notes).value - RoomPairs(room, list))
    decreases |list|
  {
    hide Replay;
    if list == [] {
      assert notes + Ends(room, host, list) == notes;
      assert Replay(base, notes).value - RoomPairs(room, list) == Replay(base, notes).value;
    } else {
      var n := Note(room, host, list[0], false);
      PairsHead(room, list);
      hide RoomPairs;
      var before := Replay(base, notes).value;
      ReplaySnoc(base, notes, n);
      ReplayEnds(base, notes + [n], room, host, list[1..]);
      assert before - {(room, list[0])} - RoomPairs(room, list[1..]) == before - RoomPairs(room, list);
      assert notes + Ends(room, host, list) == (notes + [n]) + Ends(room, host, list[1..]);
    }
  }

  // ----------------------------------------------------------- membership

  lemma {:induction false} WithoutFacts(list: seq<string>, x: string)
    requires NoDup(list)
    ensures NoDup(Without(list, x))
    ensures |Without(list, x)| == |list| - if x in list then 1 else 0
  {
    if list != [] {
      WithoutFacts(list[1..], x);
      var rest := Without(list[1..], x);
      assert ([list[0]] + rest)[1..] == rest;
      assert Without(list, x) == if list[0] == x then rest else [list[0]] + rest;
    }
  }

  lemma {:induction false} NoDupSnoc(list: seq<string>, x: string)
    requires NoDup(list) && x !in list
    ensures NoDup(list + [x])
  {
    if list != [] {
      NoDupSnoc(list[1..], x);
      assert (list + [x])[1..] == list[1..] + [x];
    }
  }

  lemma {:induction false} WithoutAbsent(list: seq<string>, x: string)
    requires x !in list
    ensures Without(list, x) == list
  {
    if list != [] {
      WithoutAbsent(list[1..], x);
      assert list == [list[0]] + list[1..];
    }
  }

  lemma InMembers(guests: map<string, seq<string>>, room: string, g: string)
    ensures (room, g) in Members(guests) <==> g in Guests(guests, room)
  {
  }

  lemma MembersPut(guests: map<string, seq<string>>, room: string, list: seq<string>)
    ensures Members(PutGuests(guests, room, list)) == Members(guests) - RoomPairs(room, Guests(guests, room)) + RoomPairs(room, list)
    ensures forall k :: Guests(PutGuests(guests, room, list), k) == if k == room then list else Guests(guests, k)
  {
    var s := PutGuests(guests, room, list);
    forall k, g
      ensures (k, g) in Members(s) <==> (k, g) in Members(guests) - RoomPairs(room, Guests(guests, room)) + RoomPairs(room, list)
    {
      InMembers(s, k, g);
      InMembers(guests, k, g);
    }
  }

  lemma PairsIn(guests: map<string, seq<string>>, room: string)
    ensures RoomPairs(room, Guests(guests, room)) <= Members(guests)
  {
    forall p | p in RoomPairs(room, Guests(guests, room))
      ensures p in Members(guests)
    {
      InMembers(guests, room, p.1);
    }
  }

  lemma {:induction false} PairsCount(room: string, list: seq<string>)
    requires NoDup(list)
    ensures |RoomPairs(room, list)| == |list|
  {
    if list != [] {
      PairsCount(room, list[1..]);
      assert RoomPairs(room, list) == RoomPairs(room, list[1..]) + {(room, list[0])};
      assert list[0] !in list[1..];
    } else {
      assert RoomPairs(room, list) == {};
    }
  }

  lemma GoodPut(hosts: map<string, string>, guests: map<string, seq<string>>, room: string, list: seq<string>)
    requires GoodRooms(hosts, guests) && room in hosts
    requires list == [] || GoodList(hosts[room], room, list)
    ensures GoodRooms(hosts, PutGuests(guests, room, list))
  {
  }

  lemma GoodListWithout(host: string, room: string, list: seq<string>, x: string)
    requires GoodList(host, room, list)
    ensures Without(list, x) == [] || GoodList(host, room, Without(list, x))
  {
    WithoutFacts(list, x);
  }

  lemma GoodAt(hosts: map<string, string>, guests: map<string, seq<string>>, room: string)
    requires GoodRooms(hosts, guests)
    ensures NoDup(Guests(guests, room))
    ensures room in guests ==> room in hosts && GoodList(hosts[room], room, guests[room])
  {
  }

  /** What membership operations leave alone. */
  ghost predicate SameIndex(r: Rooms, s: Rooms) {
    s.routes == r.routes && s.users == r.users && s.verified == r.verified && s.active == r.active && s.watched == r.watched
  }

  lemma DropGuestGood(r: Rooms, guest: string, room: string)
    requires GoodRooms(r.hosts, r.guests)
    ensures var s := DropGuest(r, guest, room).0;
            GoodRooms(s.hosts, s.guests) && SameIndex(r, s) && s.hosts == r.hosts
  {
    hide GoodList;
    hide GoodRooms;
    if guest in Guests(r.guests, room) {
      GoodAt(r.hosts, r.guests, room);
      GoodListWithout(r.hosts[room], room, r.guests[room], guest);
      GoodPut(r.hosts, r.guests, room, Without(r.guests[room], guest));
    }
  }

  lemma WithoutPairs(room: string, list: seq<string>, guest: string)
    requires guest in list
    ensures RoomPairs(room, list) == RoomPairs(room, Without(list, guest)) + {(room, guest)}
    ensures (room, guest) !in RoomPairs(room, Without(list, guest))
  {
    hide Without;
  }

  lemma DropGuestMembers(r: Rooms, guest: string, room: string)
    requires GoodRooms(r.hosts, r.guests)
    ensures var (s, dropped) := DropGuest(r, guest, room);
            && dropped == ((room, guest) in Members(r.guests))
            && Members(s.guests) == Members(r.guests) - {(room, guest)}
            && (forall k :: Guests(s.guests, k) == if k == room then Without(Guests(r.guests, k), guest) else Guests(r.guests, k))
            && |Members(s.guests)| == |Members(r.guests)| - if dropped then 1 else 0
  {
    hide GoodRooms;
    hide Members;
    var (s, dropped) := DropGuest(r, guest, room);
    InMembers(r.guests, room, guest);
    var before := Guests(r.guests, room);
    if dropped {
      var list := Without(before, guest);
      MembersPut(r.guests, room, list);
      PairsIn(r.guests, room);
      WithoutPairs(room, before, guest);
      hide RoomPairs;
      hide Without;
      assert Members(s.guests) == Members(r.guests) - {(room, guest)};
    } else {
      WithoutAbsent(before, guest);
      assert Members(r.guests) == Members(r.guests) - {(room, guest)};
    }
  }

  /** `after` is `before` without the grants of the pairs in `gone`. */
  ghost predicate GrantsLess(before: map<string, map<string, Handle>>, after: map<string, map<string, Handle>>, gone: set<(string, string)>) {
    && (forall k, g :: (k in after && g in after[k]) <==> (k in before && g in before[k] && (k, g) !in gone))
    && (forall k, g :: k in after && g in after[k] ==> after[k][g] == before[k][g])
  }

  lemma RevokeEffect(grants: map<string, map<string, Handle>>, room: string, guest: string)
    ensures GrantsLess(grants, Revoke(grants, room, guest), {(room, guest)})
  {
    var s := Revoke(grants, room, guest);
    if room in grants {
      var left := grants[room] - {guest};
      forall k, g
        ensures (k in s && g in s[k]) <==> (k in grants && g in grants[k] && (k, g) != (room, guest))
      {
        if k == room && left == map[] {
          assert g !in left;
        }
      }
    }
  }

  lemma GrantsKept(grants: map<string, map<string, Handle>>, room: string, guest: string)
    requires room in grants ==> guest !in grants[room]
    ensures GrantsLess(grants, grants, {(room, guest)})
  {
  }

  lemma DropGuestGrants(r: Rooms, guest: string, room: string, h: Handle, user: string)
    requires GoodRooms(r.hosts, r.guests) && GrantsFor(r, h, user)
    ensures GrantsLess(r.grants, DropGuest(r, guest, room).0.grants, {(room, guest)})
    ensures GrantsFor(DropGuest(r, guest, room).0, h, user)
  {
    hide GoodRooms;
    hide Revoke;
    DropGuestMembers(r, guest, room);
    DropGuestGood(r, guest, room);
    if guest in Guests(r.guests, room) {
      RevokeEffect(r.grants, room, guest);
    } else {
      GrantsKept(r.grants, room, guest);
    }
    var s := DropGuest(r, guest, room).0;
    assert GrantsLess(r.grants, s.grants, {(room, guest)});
    hide DropGuest;
    hide Members;
  }

  lemma DropGuestReplayed(base: set<(string, string)>, r: Rooms, guest: string, room: string)
    requires GoodRooms(r.hosts, r.guests) && Replayed(base, r)
    ensures Replayed(base, DropGuest(r, guest, room).0)
  {
    hide GoodRooms;
    hide Members;
    DropGuestMembers(r, guest, room);
    ReplaySnoc(base, r.notes, Note(room, HostOf(r, room), guest, false));
  }

  /** Dropping a guest keeps everything an operation may rely on. */
  lemma DropGuestKeeps(base: set<(string, string)>, r: Rooms, guest: string, room: string)
    requires Valid(r) && Replayed(base, r)
    ensures var s := DropGuest(r, guest, room).0;
            Valid(s) && Replayed(base, s) && SameIndex(r, s) && s.hosts == r.hosts
  {
    hide GoodRooms;
    hide Replayed;
    DropGuestGood(r, guest, room);
    DropGuestReplayed(base, r, guest, room);
    DropGuestGrants(r, guest, room, 0, "");
    GrantsGood(r, 0);
    GrantsGood(DropGuest(r, guest, room).0, 0);
    hide DropGuest;
  }

  lemma GrantsGood(r: Rooms, h: Handle)
    requires GoodRooms(r.hosts, r.guests)
    ensures GoodGrants(r) <==> GrantsFor(r, h, "")
  {
    forall room
      ensures "" !in Guests(r.guests, room)
    {
      GoodAt(r.hosts, r.guests, room);
    }
  }

  lemma SetSizes<T>(all: set<T>, left: set<T>, gone: set<T>)
    requires gone <= all && left == all - gone
    ensures |left| == |all| - |gone|
  {
    assert all == left + gone;
  }

  lemma ReleaseRoomMembers(r: Rooms, room: string)
    requires NoDup(Guests(r.guests, room))
    ensures var s := ReleaseRoom(r, room);
            && Members(s.guests) == Members(r.guests) - RoomPairs(room, Guests(r.guests, room))
            && RoomPairs(room, Guests(r.guests, room)) <= Members(r.guests)
            && |Members(s.guests)| == |Members(r.guests)| - |Guests(r.guests, room)|
  {
    hide Members;
    hide NoDup;
    var s := ReleaseRoom(r, room);
    var list := Guests(r.guests, room);
    assert s.guests == PutGuests(r.guests, room, []);
    hide ReleaseRoom;
    MembersPut(r.guests, room, []);
    PairsIn(r.guests, room);
    PairsCount(room, list);
    assert RoomPairs(room, []) == {};
    hide RoomPairs;
    hide PutGuests;
    hide Guests;
    SetSizes(Members(r.guests), Members(s.guests), RoomPairs(room, list));
  }

  lemma ReleaseRoomEffect(r: Rooms, room: string)
    requires GoodRooms(r.hosts, r.guests)
    ensures var s := ReleaseRoom(r, room);
            && GoodRooms(s.hosts, s.guests) && SameIndex(r, s)
            && Members(s.guests) == Members(r.guests) - RoomPairs(room, Guests(r.guests, room))
            && RoomPairs(room, Guests(r.guests, room)) <= Members(r.guests)
            && |Members(s.guests)| == |Members(r.guests)| - |Guests(r.guests, room)|
  {
    GoodAt(r.hosts, r.guests, room);
    ReleaseRoomMembers(r, room);
    hide Members;
    hide GoodList;
    hide RoomPairs;
    hide Temporary;
  }

  lemma ReleaseRoomKeeps(base: set<(string, string)>, r: Rooms, room: string, h: Handle, user: string)
    requires GoodRooms(r.hosts, r.guests) && GrantsFor(r, h, user) && Replayed(base, r)
    ensures var s := ReleaseRoom(r, room);
            GoodRooms(s.hosts, s.guests) && GrantsFor(s, h, user) && Replayed(base, s)
  {
    ReleaseRoomEffect(r, room);
    GoodAt(r.hosts, r.guests, room);
    hide GoodRooms;
    hide Members;
    hide RoomPairs;
    if r.watched {
      hide GrantsFor;
      ReplayEnds(base, r.notes, room, HostOf(r, room), Guests(r.guests, room));
    }
    hide Replay;
    hide GoodList;
  }

  lemma AppendMember(hosts: map<string, string>, guests: map<string, seq<string>>, room: string, guest: string)
    requires GoodRooms(hosts, guests) && room in hosts && room != "" && guest != "" && guest != hosts[room]
    requires guest !in Guests(guests, room)
    ensures var s := guests[room := Guests(guests, room) + [guest]];
            && GoodRooms(hosts, s)
            && Members(s) == Members(guests) + {(room, guest)} && (room, guest) !in Members(guests)
            && (forall k, g :: g in Guests(guests, k) ==> g in Guests(s, k))
            && guest in Guests(s, room)
  {
    var list := Guests(guests, room) + [guest];
    InMembers(guests, room, guest);
    GoodAt(hosts, guests, room);
    NoDupSnoc(Guests(guests, room), guest);
    assert GoodList(hosts[room], room, list);
    GoodPut(hosts, guests, room, list);
    hide GoodRooms;
    hide GoodList;
    hide Members;
    var s := guests[room := list];
    assert s == PutGuests(guests, room, list);
    MembersPut(guests, room, list);
    PairsIn(guests, room);
    assert RoomPairs(room, list) == RoomPairs(room, Guests(guests, room)) + {(room, guest)};
    assert Members(s) == Members(guests) + {(room, guest)};
  }

  lemma AddGuestMembers(r: Rooms, guest: string, room: string)
    requires GoodRooms(r.hosts, r.guests)
    ensures var (s, added) := AddGuest(r, guest, room);
            && GoodRooms(s.hosts, s.guests) && SameIndex(r, s) && s.hosts == r.hosts && s.grants == r.grants
            && Members(s.guests) == Members(r.guests) + (if added then {(room, guest)} else {})
            && (added ==> (room, guest) !in Members(r.guests))
            && (forall k, g :: g in Guests(r.guests, k) ==> g in Guests(s.guests, k))
            && (added ==> guest in Guests(s.guests, room))
  {
    if AddGuest(r, guest, room).1 {
      AppendMember(r.hosts, r.guests, room, guest);
    } else {
      assert Members(r.guests) == Members(r.guests) + {};
    }
    hide GoodRooms;
    hide Members;
  }

  lemma AddGuestKeeps(base: set<(string, string)>, r: Rooms, guest: string, room: string)
    requires Valid(r) && Replayed(base, r)
    ensures Valid(AddGuest(r, guest, room).0) && Replayed(base, AddGuest(r, guest, room).0)
  {
    hide GoodRooms;
    hide Members;
    AddGuestMembers(r, guest, room);
    if AddGuest(r, guest, room).1 {
      ReplaySnoc(base, r.notes, Note(room, r.hosts[room], guest, true));
    }
  }

  /** `s` is `r` with the membership of `guest` and its grant to `h`. */
  ghost predicate Granted(r: Rooms, s: Rooms, guest: string, room: string, h: Handle, live: set<Handle>) {
    && s.hosts == r.hosts && SameIndex(r, s)
    && Members(s.guests) == Members(r.guests) + {(room, guest)}
    && GrantedOn(s.grants, room, guest, h) && h in live && UserOf(r.users, h) == guest
    && room in r.hosts && r.hosts[room] != guest && guest != ""
    && s.notes == if r.watched && (room, guest) !in Members(r.guests) then r.notes + [Note(room, r.hosts[room], guest, true)] else r.notes
  }

  lemma AddedGranted(r: Rooms, a: Rooms, guest: string, room: string, h: Handle, live: set<Handle>)
    requires a == AddGuest(r, guest, room).0 && GoodRooms(r.hosts, r.guests)
    requires AddGuest(r, guest, room).1 || guest in Guests(r.guests, room)
    requires guest != "" && h in live && UserOf(r.users, h) == guest && room in r.hosts && r.hosts[room] != guest
    ensures Granted(r, a.(grants := PutGrant(a.grants, room, guest, h)), guest, room, h, live)
  {
    AddGuestMembers(r, guest, room);
    AddGuestFails(r, guest, room);
    InMembers(r.guests, room, guest);
    hide GoodRooms;
    hide Members;
    if guest in Guests(r.guests, room) {
      assert Members(r.guests) == Members(r.guests) + {(room, guest)};
    }
    hide Guests;
  }

  lemma GrantGuestEffect(r: Rooms, guest: string, room: string, h: Handle, live: set<Handle>)
    requires GoodRooms(r.hosts, r.guests)
    ensures var g := GrantGuest(r, guest, room, h, live);
            if g.1 then Granted(r, g.0, guest, room, h, live) else g.0 == r
  {
    hide GoodRooms;
    hide Granted;
    hide PutGrant;
    AddGuestFails(r, guest, room);
    if GrantGuest(r, guest, room, h, live).1 {
      AddedGranted(r, AddGuest(r, guest, room).0, guest, room, h, live);
    }
    hide AddGuest;
    hide Guests;
  }

  lemma AddGuestFails(r: Rooms, guest: string, room: string)
    ensures !AddGuest(r, guest, room).1 ==> AddGuest(r, guest, room).0 == r
  {
  }

  lemma GrantAdded(a: Rooms, room: string, guest: string, h: Handle)
    requires GoodGrants(a) && guest in Guests(a.guests, room) && UserOf(a.users, h) == guest
    ensures GoodGrants(a.(grants := PutGrant(a.grants, room, guest, h)))
  {
  }

  lemma GrantGuestKeeps(base: set<(string, string)>, r: Rooms, guest: string, room: string, h: Handle, live: set<Handle>)
    requires Valid(r) && Replayed(base, r)
    ensures Valid(GrantGuest(r, guest, room, h, live).0) && Replayed(base, GrantGuest(r, guest, room, h, live).0)
  {
    AddGuestKeeps(base, r, guest, room);
    AddGuestMembers(r, guest, room);
    AddGuestFails(r, guest, room);
    hide AddGuest;
    hide GoodRooms;
    hide Members;
    hide Replay;
    var (a, added) := AddGuest(r, guest, room);
    if GrantGuest(r, guest, room, h, live).1 {
      GrantAdded(a, room, guest, h);
      hide GoodGrants;
      IndexedSame(a, a.(grants := PutGrant(a.grants, room, guest, h)));
      hide Indexed;
    }
  }

  lemma IndexedSame(r: Rooms, s: Rooms)
    requires SameIndex(r, s) && Indexed(r)
    ensures Indexed(s)
  {
  }

  lemma BindHostGood(hosts: map<string, string>, guests: map<string, seq<string>>, host: string, room: string)
    requires GoodRooms(hosts, guests) && room !in hosts && !Temporary(room) && !Temporary(host)
    ensures GoodRooms(hosts[room := host], guests)
  {
    hide GoodList;
    hide Temporary;
  }

  lemma BindHostKeeps(base: set<(string, string)>, r: Rooms, host: string, room: string)
    requires Valid(r) && Replayed(base, r)
    ensures var (s, ok) := BindHost(r, host, room);
            Valid(s) && Replayed(base, s) && SameIndex(r, s) && s.guests == r.guests && s.grants == r.grants
  {
    if BindHost(r, host, room).1 {
      BindHostGood(r.hosts, r.guests, host, room);
      IndexedSame(r, BindHost(r, host, room).0);
    }
    hide GoodRooms;
    hide Indexed;
    hide Temporary;
    hide Members;
    hide Replay;
  }

  lemma BindUserIndexed(r: Rooms, user: string, h: Handle, device: string, now: nat, live: set<Handle>)
    requires Indexed(r)
    ensures Indexed(BindUser(r, user, h, device, now, live).0)
  {
    hide Alias;
  }

  lemma BindUserGrants(r: Rooms, user: string, h: Handle, device: string, now: nat, live: set<Handle>)
    requires Valid(r)
    ensures GoodGrants(BindUser(r, user, h, device, now, live).0)
  {
    hide Alias;
    hide Indexed;
    var s := BindUser(r, user, h, device, now, live).0;
    forall room, g | room in s.grants && g in s.grants[room]
      ensures g in Guests(s.guests, room) && UserOf(s.users, s.grants[room][g]) == g
    {
      GoodAt(r.hosts, r.guests, room);
    }
  }

  lemma BindUserKeeps(base: set<(string, string)>, r: Rooms, user: string, h: Handle, device: string, now: nat, live: set<Handle>)
    requires Valid(r) && Replayed(base, r)
    ensures var s := BindUser(r, user, h, device, now, live).0;
            && Valid(s) && Replayed(base, s)
            && s.guests == r.guests && s.hosts == r.hosts && s.grants == r.grants && s.watched == r.watched
  {
    BindUserIndexed(r, user, h, device, now, live);
    BindUserGrants(r, user, h, device, now, live);
    hide GoodRooms;
    hide GoodGrants;
    hide Indexed;
    hide Members;
    hide Replay;
    hide Alias;
    var s := BindUser(r, user, h, device, now, live).0;
    assert s.guests == r.guests && s.hosts == r.hosts && s.grants == r.grants && s.watched == r.watched && s.notes == r.notes;
    hide BindUser;
  }

  lemma {:induction false} FirstHandleFacts(handles: seq<Handle>, users: map<Handle, string>, user: string)
    requires forall h :: h in handles ==> h in users
    ensures var o := FirstHandle(handles, users, user);
            && (o.Some? ==> o.value in handles && users[o.value] == user)
            && (o.None? ==> forall h :: h in handles ==> users[h] != user)
  {
    if handles != [] {
      FirstHandleFacts(handles[1..], users, user);
    }
  }

  lemma RerouteAgrees(routes: map<string, Handle>, users: map<Handle, string>, h: Handle)
    requires h in users && Agree(routes, users)
    ensures Agree(Reroute(routes, users, h), users - {h})
  {
    hide FirstHandle;
    hide SortedNats;
    var left := users - {h};
    FirstHandleFacts(SortedNats(left.Keys), left, users[h]);
  }

  lemma ReleaseHandleIndexed(r: Rooms, h: Handle)
    requires Indexed(r)
    ensures Indexed(ReleaseHandle(r, h).0)
    ensures ReleaseHandle(r, h).1 == "" <==> h !in r.users
  {
    if h in r.users {
      RerouteAgrees(r.routes, r.users, h);
    } else {
      assert r.users - {h} == r.users;
      assert Indexed(ReleaseHandle(r, h).0);
    }
    assert h in r.users ==> r.users[h] != "";
    hide Reroute;
    hide Agree;
  }

  lemma ReleaseHandleGrants(r: Rooms, h: Handle)
    requires Valid(r)
    ensures var (s, user) := ReleaseHandle(r, h);
            GrantsFor(s, h, user)
  {
    hide FirstHandle;
    hide SortedNats;
    ReleaseHandleIndexed(r, h);
    var (s, user) := ReleaseHandle(r, h);
    forall room, g | room in s.grants && g in s.grants[room]
      ensures g in Guests(s.guests, room) && (UserOf(s.users, s.grants[room][g]) == g || (g == user && s.grants[room][g] == h))
    {
      GoodAt(r.hosts, r.guests, room);
    }
  }
}
