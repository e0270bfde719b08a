/** Releasing rooms, guests and connections: what goes and what stays. */
module RoomsRelease {
  import opened Ordering
  import opened RoomsSpec
  import opened RoomsFacts

  // --------------------------------------------------------------- releasing

  /** The invariant in the middle of a release: `h` was just unbound from
      `user`, whose grants on it are still to be taken back. */
  ghost predicate Releasing(base: set<(string, string)>, r: Rooms, h: Handle, user: string) {
    GoodRooms(r.hosts, r.guests) && Indexed(r) && GrantsFor(r, h, user) && Replayed(base, r)
  }

  lemma DropGuestReleases(base: set<(string, string)>, r: Rooms, guest: string, room: string, h: Handle, user: string)
    requires Releasing(base, r, h, user)
    ensures Releasing(base, DropGuest(r, guest, room).0, h, user)
  {
    DropGuestGood(r, guest, room);
    DropGuestReplayed(base, r, guest, room);
    DropGuestGrants(r, guest, room, h, user);
    IndexedSame(r, DropGuest(r, guest, room).0);
    hide DropGuest;
    hide Indexed;
    hide GoodRooms;
    hide GrantsFor;
  }

  /** `s` is `r` without the memberships in `gone` and their grants. */
  ghost predicate Lost(r: Rooms, s: Rooms, gone: set<(string, string)>) {
    && SameIndex(r, s) && s.hosts == r.hosts
    && Members(s.guests) == Members(r.guests) - gone
    && GrantsLess(r.grants, s.grants, gone)
  }

  lemma DropGuestExactly(base: set<(string, string)>, r: Rooms, guest: string, room: string, h: Handle, user: string)
    requires Releasing(base, r, h, user)
    ensures Lost(r, DropGuest(r, guest, room).0, {(room, guest)})
  {
    DropGuestGood(r, guest, room);
    DropGuestMembers(r, guest, room);
    DropGuestGrants(r, guest, room, h, user);
    hide DropGuest;
    hide Indexed;
    hide GoodRooms;
    hide Members;
  }

  lemma LostChain(r: Rooms, s: Rooms, t: Rooms, a: set<(string, string)>, b: set<(string, string)>)
    requires Lost(r, s, a) && Lost(s, t, b)
    ensures Lost(r, t, a + b)
  {
    hide Members;
  }

  ghost function PairsOf(rooms: seq<string>, guest: string): set<(string, string)> {
    set k | k in rooms :: (k, guest)
  }

  lemma {:induction false} DropFromReleases(base: set<(string, string)>, r: Rooms, guest: string, rooms: seq<string>, h: Handle, user: string)
    requires Releasing(base, r, h, user)
    ensures Releasing(base, DropFrom(r, guest, rooms), h, user)
    ensures Lost(r, DropFrom(r, guest, rooms), PairsOf(rooms, guest))
    decreases |rooms|
  {
    hide Releasing;
    if rooms == [] {
      assert PairsOf(rooms, guest) == {};
      hide Members;
    } else {
      var s := DropGuest(r, guest, rooms[0]).0;
      DropGuestReleases(base, r, guest, rooms[0], h, user);
      DropGuestExactly(base, r, guest, rooms[0], h, user);
      hide DropGuest;
      hide Lost;
      DropFromReleases(base, s, guest, rooms[1..], h, user);
      LostChain(r, s, DropFrom(s, guest, rooms[1..]), {(rooms[0], guest)}, PairsOf(rooms[1..], guest));
      assert PairsOf(rooms, guest) == {(rooms[0], guest)} + PairsOf(rooms[1..], guest);
    }
  }

  lemma ReleaseRoomReleases(base: set<(string, string)>, r: Rooms, room: string, h: Handle, user: string)
    requires Releasing(base, r, h, user)
    ensures Releasing(base, ReleaseRoom(r, room), h, user)
  {
    ReleaseRoomKeeps(base, r, room, h, user);
    IndexedSame(r, ReleaseRoom(r, room));
    hide Indexed;
    hide GoodRooms;
    hide GrantsFor;
    hide Replayed;
  }

  // ------------------------------------------------------- ending a connection

  ghost predicate NoGrantOn(grants: map<string, map<string, Handle>>, h: Handle) {
    forall room, g :: room in grants && g in grants[room] ==> grants[room][g] != h
  }

  lemma UnbindReleases(base: set<(string, string)>, r: Rooms, h: Handle)
    requires Valid(r) && Replayed(base, r)
    ensures Releasing(base, ReleaseHandle(r, h).0, h, UserOf(r.users, h))
  {
    ReleaseHandleGrants(r, h);
    ReleaseHandleIndexed(r, h);
    hide Reroute;
    hide GoodRooms;
    hide GrantsFor;
    hide Indexed;
    hide Members;
    hide Replay;
  }

  /** Once the grants of `user` on `h` are gone the invariant is whole again. */
  lemma ReleasedValid(base: set<(string, string)>, r: Rooms, h: Handle, user: string)
    requires Releasing(base, r, h, user) && h !in r.users
    requires forall room :: !GrantedOn(r.grants, room, user, h)
    ensures Valid(r) && Replayed(base, r) && NoGrantOn(r.grants, h)
  {
    forall room, g | room in r.grants && g in r.grants[room]
      ensures UserOf(r.users, r.grants[room][g]) == g && r.grants[room][g] != h
    {
      GoodAt(r.hosts, r.guests, room);
      assert !GrantedOn(r.grants, room, user, h);
    }
    hide GoodRooms;
    hide Indexed;
    hide Replayed;
  }

  ghost function PairsGrantedOn(r: Rooms, user: string, h: Handle): set<(string, string)> {
    set room | room in r.grants && GrantedOn(r.grants, room, user, h) :: (room, user)
  }

  lemma {:induction false} RoomsGrantedFacts(grants: map<string, map<string, Handle>>, rooms: seq<string>, user: string, h: Handle)
    ensures forall room :: room in RoomsGranted(grants, rooms, user, h) <==> room in rooms && GrantedOn(grants, room, user, h)
  {
    hide GrantedOn;
    if rooms != [] {
      RoomsGrantedFacts(grants, rooms[1..], user, h);
      assert rooms == [rooms[0]] + rooms[1..];
    }
  }

  /** The grants of one user on one handle, taken back room by room. */
  lemma TakeBackExactly(base: set<(string, string)>, r: Rooms, h: Handle, user: string)
    requires Releasing(base, r, h, user) && h !in r.users
    ensures var s := TakeBack(r, user, h);
            && Valid(s) && Replayed(base, s) && NoGrantOn(s.grants, h)
            && Lost(r, s, PairsGrantedOn(r, user, h))
  {
    hide Releasing;
    hide SortedKeys;
    var rooms := RoomsGranted(r.grants, SortedKeys(r.grants.Keys), user, h);
    RoomsGrantedFacts(r.grants, SortedKeys(r.grants.Keys), user, h);
    hide RoomsGranted;
    var s := DropFrom(r, user, rooms);
    DropFromReleases(base, r, user, rooms, h, user);
    assert PairsOf(rooms, user) == PairsGrantedOn(r, user, h);
    hide DropFrom;
    hide Members;
    forall room
      ensures !GrantedOn(s.grants, room, user, h)
    {
      assert GrantedOn(r.grants, room, user, h) ==> (room, user) in PairsOf(rooms, user);
    }
    ReleasedValid(base, s, h, user);
  }

  lemma ValidReleasing(base: set<(string, string)>, r: Rooms, h: Handle)
    requires Valid(r) && Replayed(base, r)
    ensures Releasing(base, r, h, "")
  {
    GrantsGood(r, h);
    hide GoodRooms;
    hide Indexed;
    hide GrantsFor;
    hide Replayed;
  }

  lemma ReleasingValid(base: set<(string, string)>, r: Rooms, h: Handle)
    requires Releasing(base, r, h, "")
    ensures Valid(r) && Replayed(base, r)
  {
    GrantsGood(r, h);
    hide GoodRooms;
    hide Indexed;
    hide GrantsFor;
    hide Replayed;
  }

  lemma DropEverywhereKeeps(base: set<(string, string)>, r: Rooms, guest: string)
    requires Valid(r) && Replayed(base, r)
    ensures var s := DropEverywhere(r, guest);
            && Valid(s) && Replayed(base, s)
            && Lost(r, s, PairsOf(SortedKeys(r.guests.Keys), guest))
            && (forall room :: (room, guest) !in Members(s.guests))
  {
    var rooms := SortedKeys(r.guests.Keys);
    hide SortedKeys;
    ValidReleasing(base, r, 0);
    DropFromReleases(base, r, guest, rooms, 0, "");
    ReleasingValid(base, DropEverywhere(r, guest), 0);
    hide Valid;
    hide Releasing;
    hide Replayed;
    forall room
      ensures (room, guest) !in Members(DropFrom(r, guest, rooms).guests)
    {
      if (room, guest) in Members(r.guests) {
        assert (room, guest) in PairsOf(rooms, guest);
      }
    }
  }

  lemma ReleaseRoomValid(base: set<(string, string)>, r: Rooms, room: string)
    requires Valid(r) && Replayed(base, r)
    ensures Valid(ReleaseRoom(r, room)) && Replayed(base, ReleaseRoom(r, room))
  {
    ValidReleasing(base, r, 0);
    ReleaseRoomReleases(base, r, room, 0, "");
    ReleasingValid(base, ReleaseRoom(r, room), 0);
    hide Valid;
    hide Releasing;
    hide Replayed;
  }

  lemma ReleaseRoomNoGrant(r: Rooms, room: string, h: Handle)
    requires NoGrantOn(r.grants, h)
    ensures NoGrantOn(ReleaseRoom(r, room).grants, h)
  {
  }

  lemma GrantsLessNoGrant(before: map<string, map<string, Handle>>, after: map<string, map<string, Handle>>, gone: set<(string, string)>, h: Handle)
    requires GrantsLess(before, after, gone) && NoGrantOn(before, h)
    ensures NoGrantOn(after, h)
  {
  }

  lemma NoGrantUnbound(r: Rooms, h: Handle)
    requires Valid(r) && h !in r.users
    ensures NoGrantOn(r.grants, h)
  {
    forall room, g | room in r.grants && g in r.grants[room]
      ensures r.grants[room][g] != h
    {
      GoodAt(r.hosts, r.guests, room);
    }
  }

  /** The memberships of others, outside the closed room. */
  ghost function Others(members: set<(string, string)>, user: string, room: string): set<(string, string)> {
    set p | p in members && p.1 != user && (room == "" || p.0 != room)
  }

  lemma OthersAre(members: set<(string, string)>, left: set<(string, string)>, keys: seq<string>, user: string, room: string, list: seq<string>)
    requires left == members - PairsOf(keys, user) && forall p :: p in members ==> p.0 in keys
    requires forall p :: p in RoomPairs(room, list) <==> p in left && p.0 == room
    ensures room == "" ==> left == Others(members, user, room)
    ensures room != "" ==> left - RoomPairs(room, list) == Others(members, user, room)
  {
    forall p
      ensures p in PairsOf(keys, user) <==> p.0 in keys && p.1 == user
    {
    }
    hide PairsOf;
    hide RoomPairs;
  }

  lemma RoomPairsAre(guests: map<string, seq<string>>, room: string, p: (string, string))
    ensures p in RoomPairs(room, Guests(guests, room)) <==> p in Members(guests) && p.0 == room
  {
  }

  lemma DepartMembers(r: Rooms, user: string)
    requires Lost(r, DropEverywhere(r, user), PairsOf(SortedKeys(r.guests.Keys), user))
    requires Valid(DropEverywhere(r, user))
    ensures var room := FirstHosted(r.hosts, SortedKeys(r.hosts.Keys), user);
            Members(Depart(r, user).guests) == Others(Members(r.guests), user, room)
  {
    hide DropEverywhere;
    hide FirstHosted;
    hide SortedKeys;
    hide PairsOf;
    hide Others;
    hide RoomPairs;
    hide ReleaseRoom;
    hide GrantsLess;
    var c := DropEverywhere(r, user);
    var keys := SortedKeys(r.guests.Keys);
    var room := FirstHosted(c.hosts, SortedKeys(c.hosts.Keys), user);
    GoodAt(c.hosts, c.guests, room);
    ReleaseRoomMembers(c, room);
    assert forall p :: p in Members(r.guests) ==> p.0 in keys;
    hide Valid;
    hide Members;
    forall p
      ensures p in RoomPairs(room, Guests(c.guests, room)) <==> p in Members(c.guests) && p.0 == room
    {
      RoomPairsAre(c.guests, room, p);
    }
    OthersAre(Members(r.guests), Members(c.guests), keys, user, room, Guests(c.guests, room));
  }

  lemma DepartKeeps(base: set<(string, string)>, r: Rooms, user: string, h: Handle)
    requires Valid(r) && Replayed(base, r) && NoGrantOn(r.grants, h)
    ensures var s := Depart(r, user);
            && Valid(s) && Replayed(base, s) && NoGrantOn(s.grants, h)
            && s.users == r.users && s.routes == r.routes
            && (forall room :: (room, user) !in Members(s.guests))
            && var room := FirstHosted(r.hosts, SortedKeys(r.hosts.Keys), user);
               && s.hosts == (if room == "" then r.hosts else r.hosts - {room})
               && Members(s.guests) == Others(Members(r.guests), user, room)
  {
    hide SortedKeys;
    hide Others;
    hide PairsOf;
    hide Replayed;
    hide NoGrantOn;
    DropEverywhereKeeps(base, r, user);
    DepartMembers(r, user);
    var c := DropEverywhere(r, user);
    GrantsLessNoGrant(r.grants, c.grants, PairsOf(SortedKeys(r.guests.Keys), user), h);
    hide FirstHosted;
    hide DropEverywhere;
    var room := FirstHosted(c.hosts, SortedKeys(c.hosts.Keys), user);
    GoodAt(c.hosts, c.guests, room);
    ReleaseRoomMembers(c, room);
    ReleaseRoomValid(base, c, room);
    ReleaseRoomNoGrant(c, room, h);
    hide Valid;
    hide Members;
  }

  lemma OthersLeft(r: Rooms, user: string, h: Handle, room: string)
    ensures Others(Members(r.guests) - PairsGrantedOn(r, user, h), user, room) == Others(Members(r.guests), user, room)
  {
    hide Members;
  }

  lemma HandleGone(r: Rooms, h: Handle)
    requires Valid(r)
    ensures var a := ReleaseHandle(r, h).0;
            && a.users == r.users - {h} && a.hosts == r.hosts && a.guests == r.guests && a.grants == r.grants
            && ReleaseHandle(r, h).1 == UserOf(r.users, h) && (UserOf(r.users, h) == "" <==> h !in r.users)
            && PairsGrantedOn(a, UserOf(r.users, h), h) == PairsGrantedOn(r, UserOf(r.users, h), h)
  {
    ReleaseHandleIndexed(r, h);
    hide Reroute;
    hide GoodRooms;
    hide GoodGrants;
    hide Indexed;
  }

  /** A connection that was not logged in holds nothing. */
  lemma NobodyEnds(base: set<(string, string)>, r: Rooms, a: Rooms, h: Handle)
    requires Valid(r) && Releasing(base, a, h, "") && h !in r.users
    requires a.users == r.users && a.guests == r.guests && a.grants == r.grants
    ensures Valid(a) && Replayed(base, a) && NoGrantOn(a.grants, h) && !Connected(a.users, "")
    ensures Members(r.guests) == Members(r.guests) - PairsGrantedOn(r, "", h)
  {
    ReleasingValid(base, a, h);
    NobodyConnected(a);
    NoGrantUnbound(r, h);
    hide Valid;
    hide Replayed;
    hide Releasing;
    hide Members;
  }

  /** What ending a connection does: it gives back what that connection held,
      and when it was the user's last one the user leaves every room and closes
      the first one it hosts, whose guests leave with it; all others stay. */
  lemma SessionEnds(base: set<(string, string)>, r: Rooms, h: Handle)
    requires Valid(r) && Replayed(base, r)
    ensures var (s, id) := ReleaseSession(r, h);
            var user := UserOf(r.users, h);
            && Valid(s) && Replayed(base, s) && NoGrantOn(s.grants, h)
            && s.users == r.users - {h}
            && id == (if Connected(r.users - {h}, user) then "" else user)
            && (id == "" ==> s.hosts == r.hosts && Members(s.guests) == Members(r.guests) - PairsGrantedOn(r, user, h))
            && (id != "" ==> id !in s.routes && (forall room :: (room, id) !in Members(s.guests)))
            && (id != "" ==> var room := FirstHosted(r.hosts, SortedKeys(r.hosts.Keys), id);
                             && s.hosts == (if room == "" then r.hosts else r.hosts - {room})
                             && Members(s.guests) == Others(Members(r.guests), id, room))
  {
    hide Members;
    hide PairsGrantedOn;
    hide NoGrantOn;
    hide Replayed;
    hide FirstHosted;
    hide SortedKeys;
    hide Others;
    hide Valid;
    hide TakeBack;
    hide Depart;
    UnbindReleases(base, r, h);
    HandleGone(r, h);
    hide ReleaseHandle;
    hide Releasing;
    var a := ReleaseHandle(r, h).0;
    var user := UserOf(r.users, h);
    if user == "" {
      NobodyEnds(base, r, a, h);
    } else {
      TakeBackExactly(base, a, h, user);
      var b := TakeBack(a, user, h);
      if !Connected(b.users, user) {
        DepartKeeps(base, b, user, h);
        OthersLeft(r, user, h, FirstHosted(r.hosts, SortedKeys(r.hosts.Keys), user));
        RouteGone(Depart(b, user), user);
      }
    }
    hide Connected;
    hide GrantsLess;
  }

  lemma NobodyConnected(r: Rooms)
    requires Indexed(r)
    ensures !Connected(r.users, "")
  {
  }

  lemma RouteGone(r: Rooms, user: string)
    requires Valid(r) && !Connected(r.users, user)
    ensures user !in r.routes
  {
  }

  ghost function HostedBy(hosts: map<string, string>, user: string): set<string> {
    set room | room in hosts && hosts[room] == user
  }

  /** A logout leaves the user hosting nothing exactly when it hosted at most one
      room, and that room has a name. */
  lemma LogoutClosesRooms(base: set<(string, string)>, r: Rooms, h: Handle)
    requires Valid(r) && Replayed(base, r) && ReleaseSession(r, h).1 != ""
    ensures var (s, id) := ReleaseSession(r, h);
            HostedBy(s.hosts, id) == {} <==> |HostedBy(r.hosts, id)| <= 1 && "" !in HostedBy(r.hosts, id)
  {
    hide ReleaseSession;
    hide Valid;
    hide Members;
    hide Others;
    hide Replayed;
    SessionEnds(base, r, h);
    var id := ReleaseSession(r, h).1;
    FirstAndOnly(r.hosts, id, FirstHosted(r.hosts, SortedKeys(r.hosts.Keys), id));
    hide HostedBy;
    hide SortedKeys;
  }

  lemma TwoOrUnnamed(hosts: map<string, string>)
    requires hosts == map["a" := "u", "b" := "u"] || hosts == map["" := "u"]
    ensures forall room :: room in hosts ==> hosts[room] == "u" && !Temporary(room)
    ensures |HostedBy(hosts, "u")| > 1 || "" in HostedBy(hosts, "u")
  {
    if "" !in hosts {
      assert HostedBy(hosts, "u") == {"a", "b"};
      assert "a" != "b";
    }
  }

  /** It can fail: a user of one connection with two rooms still hosts the second
      one after its logout, and so it does with a room named "". */
  lemma LogoutLeavesRooms(hosts: map<string, string>)
    requires hosts == map["a" := "u", "b" := "u"] || hosts == map["" := "u"]
    ensures var r := NO_ROOMS.(hosts := hosts, routes := map["u" := 1], users := map[1 := "u"]);
            && Valid(r) && ReleaseSession(r, 1).1 == "u" && HostedBy(ReleaseSession(r, 1).0.hosts, "u") != {}
  {
    TwoOrUnnamed(hosts);
    hide Temporary;
    hide ReleaseSession;
    hide HostedBy;
    hide Valid;
    hide Replayed;
    var r := NO_ROOMS.(hosts := hosts, routes := map["u" := 1], users := map[1 := "u"]);
    LoneUser(r);
    LogoutClosesRooms({}, r, 1);
  }

  lemma LoneUser(r: Rooms)
    requires r == NO_ROOMS.(hosts := r.hosts, routes := map["u" := 1], users := map[1 := "u"])
    requires forall room :: room in r.hosts ==> r.hosts[room] == "u" && !Temporary(room)
    ensures Valid(r) && Replayed({}, r) && ReleaseSession(r, 1).1 == "u"
  {
    assert r.users - {1} == map[];
    assert !Temporary("u");
    SessionEnds({}, r, 1);
    hide ReleaseSession;
  }

  lemma FirstAndOnly(hosts: map<string, string>, user: string, room: string)
    requires room != "" ==> room in HostedBy(hosts, user)
    requires room == "" ==> "" in HostedBy(hosts, user) || HostedBy(hosts, user) == {}
    ensures var left := if room == "" then hosts else hosts - {room};
            HostedBy(left, user) == {} <==> |HostedBy(hosts, user)| <= 1 && "" !in HostedBy(hosts, user)
  {
    var before := HostedBy(hosts, user);
    var after := HostedBy(if room == "" then hosts else hosts - {room}, user);
    if room == "" {
      assert after == before;
    } else {
      assert after == before - {room};
      assert |after| == |before| - 1;
    }
  }

  /** The user holds nothing: no connection, route, membership, grant or room. */
  ghost predicate NoTraceOf(r: Rooms, id: string) {
    && !Connected(r.users, id) && id !in r.routes
    && (forall room :: (room, id) !in Members(r.guests))
    && (forall room :: room in r.grants ==> id !in r.grants[room])
    && HostedBy(r.hosts, id) == {}
  }

  lemma NoMembershipNoGrant(r: Rooms, id: string)
    requires Valid(r)
    requires forall room :: (room, id) !in Members(r.guests)
    ensures forall room :: room in r.grants ==> id !in r.grants[room]
  {
    forall room | room in r.grants
      ensures id !in r.grants[room]
    {
      InMembers(r.guests, room, id);
    }
  }

  lemma OwnRoomOnly(hosts: map<string, string>, id: string)
    requires id != "" && forall room :: room in hosts ==> room == hosts[room]
    ensures |HostedBy(hosts, id)| <= 1 && "" !in HostedBy(hosts, id)
  {
    if id in hosts {
      assert HostedBy(hosts, id) == {id};
    } else {
      assert HostedBy(hosts, id) == {};
    }
  }

  /** With rooms keyed by their host, as logins bind them, a logout is complete. */
  lemma LogoutIsComplete(base: set<(string, string)>, r: Rooms, h: Handle)
    requires Valid(r) && Replayed(base, r) && ReleaseSession(r, h).1 != ""
    requires forall room :: room in r.hosts ==> room == r.hosts[room]
    ensures ReleaseSession(r, h).1 == UserOf(r.users, h)
    ensures NoTraceOf(ReleaseSession(r, h).0, ReleaseSession(r, h).1)
  {
    hide ReleaseSession;
    hide Members;
    hide FirstHosted;
    hide Others;
    hide SortedKeys;
    hide Replayed;
    hide Valid;
    var s, id := ReleaseSession(r, h).0, ReleaseSession(r, h).1;
    SessionEnds(base, r, h);
    LogoutClosesRooms(base, r, h);
    OwnRoomOnly(r.hosts, id);
    NoMembershipNoGrant(s, id);
    hide HostedBy;
  }

  lemma {:induction false} FirstOfRooms(hosts: map<string, string>, rooms: seq<string>, user: string)
    requires forall k :: k in rooms ==> k in hosts
    requires forall i, j :: 0 <= i < j < |rooms| ==> Less(rooms[i], rooms[j])
    ensures var room := FirstHosted(hosts, rooms, user);
            room != "" ==> forall k :: k in rooms && hosts[k] == user ==> k == room || Less(room, k)
  {
    hide Less;
    if rooms != [] {
      assert rooms == [rooms[0]] + rooms[1..];
      FirstOfRooms(hosts, rooms[1..], user);
    }
  }

  /** Of several rooms of one host the logout closes the first in key order. */
  lemma LogoutClosesFirst(base: set<(string, string)>, r: Rooms, h: Handle, room: string, k: string)
    requires Valid(r) && Replayed(base, r) && ReleaseSession(r, h).1 != ""
    requires var (s, id) := ReleaseSession(r, h);
             room in r.hosts && room !in s.hosts && k in r.hosts && r.hosts[k] == id
    ensures k == room || Less(room, k)
  {
    hide ReleaseSession;
    hide Valid;
    hide Members;
    hide Others;
    hide Replayed;
    hide FirstHosted;
    SessionEnds(base, r, h);
    FirstOfRooms(r.hosts, SortedKeys(r.hosts.Keys), ReleaseSession(r, h).1);
  }
}
