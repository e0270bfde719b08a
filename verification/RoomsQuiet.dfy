/** What all releases have in common: they only take away. */
module RoomsQuiet {
  import opened Ordering
  import opened RoomsSpec
  import opened RoomsFacts

  ghost predicate OnlyEnds(notes: seq<Note>) {
    forall n :: n in notes ==> !n.started
  }

  ghost predicate Fewer(before: map<string, map<string, Handle>>, after: map<string, map<string, Handle>>) {
    forall room, g, h :: GrantedOn(after, room, g, h) ==> GrantedOn(before, room, g, h)
  }

  /** `s` comes from `r` by releases: no start is notified, no room and no grant
      appears. */
  ghost predicate Quiet(r: Rooms, s: Rooms) {
    && s.watched == r.watched
    && Fewer(r.grants, s.grants)
    && (OnlyEnds(r.notes) ==> OnlyEnds(s.notes))
    && (forall room :: room in s.hosts ==> room in r.hosts && s.hosts[room] == r.hosts[room])
  }

  lemma {:induction false} EndsOnly(room: string, host: string, list: seq<string>)
    ensures OnlyEnds(Ends(room, host, list))
    decreases |list|
  {
    if list != [] {
      EndsOnly(room, host, list[1..]);
    }
  }

  lemma QuietRoom(r: Rooms, room: string)
    ensures Quiet(r, ReleaseRoom(r, room))
  {
    EndsOnly(room, HostOf(r, room), Guests(r.guests, room));
  }

  lemma QuietGuest(r: Rooms, guest: string, room: string)
    ensures Quiet(r, DropGuest(r, guest, room).0)
  {
    RevokeEffect(r.grants, room, guest);
    hide Revoke;
  }

  lemma {:induction false} QuietFrom(r: Rooms, guest: string, rooms: seq<string>)
    ensures Quiet(r, DropFrom(r, guest, rooms))
    decreases |rooms|
  {
    hide OnlyEnds;
    if rooms != [] {
      QuietGuest(r, guest, rooms[0]);
      hide DropGuest;
      QuietFrom(DropGuest(r, guest, rooms[0]).0, guest, rooms[1..]);
    }
  }

  lemma {:induction false} QuietRooms(r: Rooms, rooms: seq<string>)
    ensures Quiet(r, ReleaseRooms(r, rooms).0)
    decreases |rooms|
  {
    hide OnlyEnds;
    if rooms != [] {
      QuietRoom(r, rooms[0]);
      hide ReleaseRoom;
      QuietRooms(ReleaseRoom(r, rooms[0]), rooms[1..]);
    }
  }

  lemma {:induction false} QuietPairs(r: Rooms, pairs: seq<(string, string)>)
    ensures Quiet(r, DropPairs(r, pairs).0)
    decreases |pairs|
  {
    hide OnlyEnds;
    if pairs != [] {
      QuietGuest(r, pairs[0].1, pairs[0].0);
      hide DropGuest;
      QuietPairs(DropGuest(r, pairs[0].1, pairs[0].0).0, pairs[1..]);
    }
  }

  lemma QuietChain(r: Rooms, s: Rooms, t: Rooms)
    requires Quiet(r, s) && Quiet(s, t)
    ensures Quiet(r, t)
  {
    hide OnlyEnds;
  }

  lemma QuietPrune(r: Rooms, live: set<Handle>)
    ensures Quiet(r, Prune(r, live).0)
  {
    hide Quiet;
    hide LostRooms;
    hide LostGuests;
    hide SortedKeys;
    hide ReleaseRooms;
    hide DropPairs;
    QuietRooms(r, LostRooms(r.hosts, r.users, SortedKeys(r.hosts.Keys)));
    var a := PruneRooms(r).0;
    QuietPairs(a, LostGuests(a.guests, a.grants, a.users, live, SortedKeys(a.guests.Keys)));
    QuietChain(r, a, PruneGuests(a, live).0);
  }

  lemma QuietDepart(r: Rooms, user: string)
    ensures Quiet(r, Depart(r, user))
  {
    hide Quiet;
    hide FirstHosted;
    hide SortedKeys;
    hide DropFrom;
    hide ReleaseRoom;
    QuietFrom(r, user, SortedKeys(r.guests.Keys));
    var s := DropEverywhere(r, user);
    var room := FirstHosted(s.hosts, SortedKeys(s.hosts.Keys), user);
    QuietRoom(s, room);
    QuietChain(r, s, ReleaseRoom(s, room));
  }

  lemma QuietHandle(r: Rooms, h: Handle)
    ensures Quiet(r, ReleaseHandle(r, h).0)
  {
    hide OnlyEnds;
    hide Reroute;
  }

  lemma QuietTakeBack(r: Rooms, user: string, h: Handle)
    ensures Quiet(r, TakeBack(r, user, h))
  {
    hide Quiet;
    hide DropFrom;
    hide SortedKeys;
    hide RoomsGranted;
    QuietFrom(r, user, RoomsGranted(r.grants, SortedKeys(r.grants.Keys), user, h));
  }

  lemma QuietSession(r: Rooms, h: Handle)
    ensures Quiet(r, ReleaseSession(r, h).0)
  {
    hide Quiet;
    hide ReleaseHandle;
    hide TakeBack;
    hide Depart;
    hide Connected;
    var a, user := ReleaseHandle(r, h).0, ReleaseHandle(r, h).1;
    QuietHandle(r, h);
    var b := TakeBack(a, user, h);
    QuietTakeBack(a, user, h);
    QuietDepart(b, user);
    QuietChain(r, a, b);
    QuietChain(r, b, Depart(b, user));
  }
}
