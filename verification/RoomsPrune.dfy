/** `PruneDisconnectedTransmissions`: what one pass removes, and that it is done. */
module RoomsPrune {
  import opened Ordering
  import opened RoomsSpec
  import opened RoomsFacts
  import opened RoomsRelease

  /** `s` is `r` without the rooms in `gone`. */
  ghost predicate Closed(r: Rooms, s: Rooms, gone: set<string>) {
    SameIndex(r, s) && s.hosts == r.hosts - gone && s.guests == r.guests - gone && s.grants == r.grants - gone
  }

  ghost function Named(rooms: seq<string>): set<string> {
    set k | k in rooms
  }

  lemma ReleaseRoomCloses(base: set<(string, string)>, r: Rooms, room: string)
    requires Valid(r) && Replayed(base, r)
    ensures var s := ReleaseRoom(r, room);
            && Valid(s) && Replayed(base, s) && Closed(r, s, {room})
            && |Guests(r.guests, room)| == |Members(r.guests)| - |Members(s.guests)|
  {
    ReleaseRoomValid(base, r, room);
    GoodAt(r.hosts, r.guests, room);
    ReleaseRoomMembers(r, room);
    hide Valid;
    hide Replayed;
    hide Members;
  }

  lemma NothingClosed(r: Rooms)
    ensures Closed(r, r, {})
  {
  }

  lemma {:induction false} ReleaseRoomsKeeps(base: set<(string, string)>, r: Rooms, rooms: seq<string>)
    requires Valid(r) && Replayed(base, r)
    ensures var (s, n) := ReleaseRooms(r, rooms);
            && Valid(s) && Replayed(base, s)
            && Closed(r, s, Named(rooms))
            && n == |Members(r.guests)| - |Members(s.guests)|
    decreases |rooms|
  {
    hide Replayed;
    hide Valid;
    hide Closed;
    hide Members;
    if rooms != [] {
      var a := ReleaseRoom(r, rooms[0]);
      ReleaseRoomCloses(base, r, rooms[0]);
      ReleaseRoomsKeeps(base, a, rooms[1..]);
      ClosedChain(r, a, ReleaseRooms(a, rooms[1..]).0, {rooms[0]}, Named(rooms[1..]));
      assert Named(rooms) == {rooms[0]} + Named(rooms[1..]);
    } else {
      NothingClosed(r);
      assert Named(rooms) == {};
    }
    hide ReleaseRoom;
  }

  lemma ClosedChain(r: Rooms, s: Rooms, t: Rooms, a: set<string>, b: set<string>)
    requires Closed(r, s, a) && Closed(s, t, b)
    ensures Closed(r, t, a + b)
  {
    assert r.hosts - a - b == r.hosts - (a + b);
    assert r.guests - a - b == r.guests - (a + b);
    assert r.grants - a - b == r.grants - (a + b);
  }

  ghost function Keys(pairs: seq<(string, string)>): set<(string, string)> {
    set p | p in pairs
  }

  lemma NothingLost(r: Rooms)
    ensures Lost(r, r, {})
  {
    assert Members(r.guests) - {} == Members(r.guests);
  }

  lemma {:induction false} DropPairsKeeps(base: set<(string, string)>, r: Rooms, pairs: seq<(string, string)>)
    requires Releasing(base, r, 0, "")
    ensures var (s, n) := DropPairs(r, pairs);
            && Releasing(base, s, 0, "")
            && Lost(r, s, Keys(pairs))
            && n == |Members(r.guests)| - |Members(s.guests)|
    decreases |pairs|
  {
    hide Lost;
    hide Members;
    if pairs != [] {
      var room, guest := pairs[0].0, pairs[0].1;
      var a := DropGuest(r, guest, room).0;
      DropGuestReleases(base, r, guest, room, 0, "");
      DropGuestExactly(base, r, guest, room, 0, "");
      DropGuestMembers(r, guest, room);
      hide DropGuest;
      hide Releasing;
      DropPairsKeeps(base, a, pairs[1..]);
      LostChain(r, a, DropPairs(a, pairs[1..]).0, {(room, guest)}, Keys(pairs[1..]));
      assert Keys(pairs) == {(room, guest)} + Keys(pairs[1..]);
    } else {
      NothingLost(r);
      assert Keys(pairs) == {};
    }
    hide DropGuest;
    hide Releasing;
  }

  /** A membership survives pruning when its host is connected and it is present. */
  ghost predicate Stays(r: Rooms, live: set<Handle>, room: string, guest: string) {
    (room, guest) in Members(r.guests) && room in r.hosts && Connected(r.users, r.hosts[room])
    && Present(r.grants, r.users, live, room, guest)
  }

  ghost predicate Pruned(r: Rooms, s: Rooms, live: set<Handle>) {
    && SameIndex(r, s)
    && (forall room :: room in s.hosts <==> room in r.hosts && Connected(r.users, r.hosts[room]))
    && (forall room :: room in s.hosts ==> s.hosts[room] == r.hosts[room])
    && (forall room, guest :: (room, guest) in Members(s.guests) <==> Stays(r, live, room, guest))
    && (forall room, guest :: Stays(r, live, room, guest) ==> Present(s.grants, s.users, live, room, guest))
  }

  lemma ClosedMembers(r: Rooms, s: Rooms, gone: set<string>, room: string, guest: string)
    requires Closed(r, s, gone)
    ensures (room, guest) in Members(s.guests) <==> (room, guest) in Members(r.guests) && room !in gone
  {
    InMembers(s.guests, room, guest);
    InMembers(r.guests, room, guest);
  }

  lemma PresentSame(before: map<string, map<string, Handle>>, after: map<string, map<string, Handle>>, gone: set<(string, string)>, users: map<Handle, string>, live: set<Handle>, room: string, guest: string)
    requires GrantsLess(before, after, gone) && (room, guest) !in gone
    ensures Present(before, users, live, room, guest) <==> Present(after, users, live, room, guest)
  {
    hide Connected;
  }

  lemma {:induction false} LostRoomsFacts(hosts: map<string, string>, users: map<Handle, string>, rooms: seq<string>)
    requires forall k :: k in rooms ==> k in hosts
    ensures forall k :: k in LostRooms(hosts, users, rooms) <==> k in rooms && !Connected(users, hosts[k])
  {
    hide Connected;
    if rooms != [] {
      LostRoomsFacts(hosts, users, rooms[1..]);
      assert rooms == [rooms[0]] + rooms[1..];
    }
  }

  lemma {:induction false} LostInFacts(grants: map<string, map<string, Handle>>, users: map<Handle, string>, live: set<Handle>, room: string, list: seq<string>)
    ensures forall p :: p in LostIn(grants, users, live, room, list) <==> p.0 == room && p.1 in list && !Present(grants, users, live, room, p.1)
  {
    hide Present;
    if list != [] {
      LostInFacts(grants, users, live, room, list[1..]);
      assert list == [list[0]] + list[1..];
    }
  }

  lemma {:induction false} LostGuestsFacts(guests: map<string, seq<string>>, grants: map<string, map<string, Handle>>, users: map<Handle, string>, live: set<Handle>, rooms: seq<string>)
    requires forall k :: k in rooms ==> k in guests
    ensures forall p :: p in LostGuests(guests, grants, users, live, rooms) <==>
              p.0 in rooms && p.1 in guests[p.0] && !Present(grants, users, live, p.0, p.1)
  {
    hide Present;
    hide LostIn;
    if rooms != [] {
      LostGuestsFacts(guests, grants, users, live, rooms[1..]);
      LostInFacts(grants, users, live, rooms[0], guests[rooms[0]]);
      assert rooms == [rooms[0]] + rooms[1..];
    }
  }

  ghost predicate RoomsPruned(r: Rooms, s: Rooms) {
    && SameIndex(r, s)
    && (forall room :: room in s.hosts <==> room in r.hosts && Connected(r.users, r.hosts[room]))
    && (forall room :: room in s.hosts ==> s.hosts[room] == r.hosts[room])
    && (forall room, guest :: (room, guest) in Members(s.guests) <==> (room, guest) in Members(r.guests) && room in s.hosts)
    && (forall room :: room in s.hosts ==> (room in s.grants <==> room in r.grants) && (room in s.grants ==> s.grants[room] == r.grants[room]))
  }

  lemma ClosedIsPruned(r: Rooms, s: Rooms, rooms: seq<string>)
    requires Valid(r) && Closed(r, s, Named(rooms))
    requires forall k :: k in rooms <==> k in r.hosts && !Connected(r.users, r.hosts[k])
    ensures RoomsPruned(r, s)
  {
    hide Connected;
    forall room, guest
      ensures (room, guest) in Members(s.guests) <==> (room, guest) in Members(r.guests) && room in s.hosts
    {
      ClosedMembers(r, s, Named(rooms), room, guest);
      InMembers(r.guests, room, guest);
      GoodAt(r.hosts, r.guests, room);
    }
    hide Members;
    hide Valid;
  }

  lemma PruneRoomsExactly(base: set<(string, string)>, r: Rooms)
    requires Valid(r) && Replayed(base, r)
    ensures var s := PruneRooms(r).0;
            && Valid(s) && Replayed(base, s) && RoomsPruned(r, s)
            && PruneRooms(r).1 == |Members(r.guests)| - |Members(s.guests)|
  {
    hide Valid;
    hide Replayed;
    hide Members;
    hide LostRooms;
    hide SortedKeys;
    var rooms := LostRooms(r.hosts, r.users, SortedKeys(r.hosts.Keys));
    LostRoomsFacts(r.hosts, r.users, SortedKeys(r.hosts.Keys));
    ReleaseRoomsKeeps(base, r, rooms);
    hide ReleaseRooms;
    ClosedIsPruned(r, PruneRooms(r).0, rooms);
    hide RoomsPruned;
    hide Closed;
  }

  ghost predicate GuestsPruned(r: Rooms, s: Rooms, live: set<Handle>) {
    && SameIndex(r, s) && s.hosts == r.hosts
    && (forall room, guest :: (room, guest) in Members(s.guests) <==>
          (room, guest) in Members(r.guests) && Present(r.grants, r.users, live, room, guest))
    && (forall room, guest :: (room, guest) in Members(s.guests) ==> Present(s.grants, s.users, live, room, guest))
  }

  lemma LostIsPruned(r: Rooms, s: Rooms, live: set<Handle>, pairs: seq<(string, string)>)
    requires Lost(r, s, Keys(pairs))
    requires forall p :: p in pairs <==> p.0 in r.guests && p.1 in r.guests[p.0] && !Present(r.grants, r.users, live, p.0, p.1)
    ensures GuestsPruned(r, s, live)
  {
    hide Present;
    hide GrantsLess;
    forall room, guest
      ensures (room, guest) in Members(s.guests) <==> (room, guest) in Members(r.guests) && Present(r.grants, r.users, live, room, guest)
      ensures (room, guest) in Members(s.guests) ==> Present(s.grants, s.users, live, room, guest)
    {
      InMembers(r.guests, room, guest);
      assert (room, guest) in Keys(pairs) <==> (room, guest) in pairs;
      if (room, guest) !in Keys(pairs) {
        PresentSame(r.grants, s.grants, Keys(pairs), r.users, live, room, guest);
      }
    }
    hide Members;
  }

  lemma PruneGuestsExactly(base: set<(string, string)>, r: Rooms, live: set<Handle>)
    requires Valid(r) && Replayed(base, r)
    ensures var s := PruneGuests(r, live).0;
            && Valid(s) && Replayed(base, s) && GuestsPruned(r, s, live)
            && PruneGuests(r, live).1 == |Members(r.guests)| - |Members(s.guests)|
  {
    hide Valid;
    hide Replayed;
    hide Releasing;
    hide Members;
    hide Present;
    hide LostGuests;
    hide SortedKeys;
    var pairs := LostGuests(r.guests, r.grants, r.users, live, SortedKeys(r.guests.Keys));
    LostGuestsFacts(r.guests, r.grants, r.users, live, SortedKeys(r.guests.Keys));
    ValidReleasing(base, r, 0);
    DropPairsKeeps(base, r, pairs);
    hide DropPairs;
    ReleasingValid(base, PruneGuests(r, live).0, 0);
    LostIsPruned(r, PruneGuests(r, live).0, live, pairs);
    hide GuestsPruned;
    hide Lost;
  }

  lemma PrunedTogether(r: Rooms, a: Rooms, s: Rooms, live: set<Handle>)
    requires Valid(r) && RoomsPruned(r, a) && GuestsPruned(a, s, live)
    ensures Pruned(r, s, live)
  {
    forall room, guest
      ensures (room, guest) in Members(s.guests) <==> Stays(r, live, room, guest)
    {
      InMembers(r.guests, room, guest);
      GoodAt(r.hosts, r.guests, room);
    }
    hide Valid;
    hide Members;
    hide Connected;
  }

  /** One pass keeps exactly the rooms with a connected host and in them exactly
      the members present, and counts the memberships it removed. */
  lemma PruneExactly(base: set<(string, string)>, r: Rooms, live: set<Handle>)
    requires Valid(r) && Replayed(base, r)
    ensures var s := Prune(r, live).0;
            && Valid(s) && Replayed(base, s) && Pruned(r, s, live)
            && Prune(r, live).1 == |Members(r.guests)| - |Members(s.guests)|
  {
    hide Valid;
    hide Replayed;
    hide Members;
    hide PruneRooms;
    hide PruneGuests;
    hide Pruned;
    hide RoomsPruned;
    hide GuestsPruned;
    PruneRoomsExactly(base, r);
    var a := PruneRooms(r).0;
    PruneGuestsExactly(base, a, live);
    PrunedTogether(r, a, PruneGuests(a, live).0, live);
  }

  /** A second pass finds nothing: pruning reaches its fixpoint at once. */
  lemma PruneTwice(base: set<(string, string)>, r: Rooms, live: set<Handle>)
    requires Valid(r) && Replayed(base, r)
    ensures Prune(Prune(r, live).0, live) == (Prune(r, live).0, 0)
  {
    PruneExactly(base, r, live);
    var s := Prune(r, live).0;
    hide Prune;
    hide Valid;
    hide Replayed;
    hide Present;
    hide Connected;
    hide SortedKeys;
    hide LostRooms;
    hide LostGuests;
    forall p: (string, string)
      ensures p.0 in s.guests && p.1 in s.guests[p.0] ==> Present(s.grants, s.users, live, p.0, p.1)
    {
      InMembers(s.guests, p.0, p.1);
    }
    hide Members;
    assert forall room :: room in s.hosts ==> Connected(s.users, s.hosts[room]);
    hide Pruned;
    LostRoomsFacts(s.hosts, s.users, SortedKeys(s.hosts.Keys));
    LostGuestsFacts(s.guests, s.grants, s.users, live, SortedKeys(s.guests.Keys));
    assert forall k :: k !in LostRooms(s.hosts, s.users, SortedKeys(s.hosts.Keys));
    assert forall p :: p !in LostGuests(s.guests, s.grants, s.users, live, SortedKeys(s.guests.Keys));
    PruneNothing(s, live);
  }

  lemma FirstIn<T>(s: seq<T>)
    ensures s == [] || s[0] in s
  {
  }

  lemma PruneNothing(s: Rooms, live: set<Handle>)
    requires forall k :: k !in LostRooms(s.hosts, s.users, SortedKeys(s.hosts.Keys))
    requires forall p :: p !in LostGuests(s.guests, s.grants, s.users, live, SortedKeys(s.guests.Keys))
    ensures Prune(s, live) == (s, 0)
  {
    hide LostRooms;
    hide LostGuests;
    hide SortedKeys;
    FirstIn(LostRooms(s.hosts, s.users, SortedKeys(s.hosts.Keys)));
    FirstIn(LostGuests(s.guests, s.grants, s.users, live, SortedKeys(s.guests.Keys)));
  }

  // ---------------------------------------------------------- what stays, spelled out

  /** The user is bound to some connection. */
  ghost predicate Online(r: Rooms, user: string) {
    exists h :: h in r.users && r.users[h] == user
  }

  /** The connection the room was granted to is live and still the guest's; or
      there is no grant, and the guest is bound to some connection. */
  ghost predicate Reachable(r: Rooms, live: set<Handle>, room: string, guest: string) {
    || (exists h :: GrantedOn(r.grants, room, guest, h) && h in live && h in r.users && r.users[h] == guest)
    || ((forall h :: !GrantedOn(r.grants, room, guest, h)) && Online(r, guest))
  }

  /** A membership stays exactly when the room's host is bound to some connection
      and the guest can be reached; a room stays exactly when its host is bound. */
  lemma PruneKeepsIff(base: set<(string, string)>, r: Rooms, live: set<Handle>, room: string, guest: string)
    requires Valid(r) && Replayed(base, r)
    ensures var s := Prune(r, live).0;
            && (room in s.hosts <==> room in r.hosts && Online(r, r.hosts[room]))
            && ((room, guest) in Members(s.guests) <==>
                  && (room, guest) in Members(r.guests) && room in r.hosts && Online(r, r.hosts[room])
                  && Reachable(r, live, room, guest))
  {
    PruneExactly(base, r, live);
    var s := Prune(r, live).0;
    hide Prune;
    assert room in r.hosts ==> (Connected(r.users, r.hosts[room]) <==> Online(r, r.hosts[room]));
    assert (room, guest) in Members(s.guests) <==> Stays(r, live, room, guest);
    if (room, guest) in Members(r.guests) {
      MemberNamed(r, room, guest);
    }
    PresentReachable(r, live, room, guest);
    hide Valid;
    hide Replayed;
    hide Members;
    hide Connected;
    hide Online;
    hide Reachable;
    hide Present;
  }

  lemma MemberNamed(r: Rooms, room: string, guest: string)
    requires Valid(r) && (room, guest) in Members(r.guests)
    ensures guest != ""
  {
    GoodAt(r.hosts, r.guests, room);
    hide Indexed;
    hide GoodGrants;
  }

  lemma PresentReachable(r: Rooms, live: set<Handle>, room: string, guest: string)
    ensures guest != "" ==> (Present(r.grants, r.users, live, room, guest) <==> Reachable(r, live, room, guest))
  {
    if room in r.grants && guest in r.grants[room] {
      var h := r.grants[room][guest];
      assert GrantedOn(r.grants, room, guest, h);
      assert forall x :: GrantedOn(r.grants, room, guest, x) ==> x == h;
    }
    assert Connected(r.users, guest) <==> Online(r, guest);
  }
}
