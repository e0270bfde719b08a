/** `TransmissionManager` over whole runs: notifications and signalling. */
module RoomsRuns {
  import opened Ordering
  import opened RoomsSpec
  import opened RoomsFacts
  import opened RoomsRelease
  import opened RoomsPrune
  import opened RoomsQuiet
  import opened RoomsExpiry

  // ----------------------------------------------------------- authorization

  /** A signal is authorized exactly when one end is the host on the host's route
      and the other a guest on the handle granted to it, both live. */
  ghost predicate HostToGuest(r: Rooms, host: string, guest: string, room: string, hh: Handle, gh: Handle) {
    && host != guest && host != "" && guest != "" && room != ""
    && room in r.hosts && r.hosts[room] == host
    && host in r.routes && r.routes[host] == hh
    && GrantedOn(r.grants, room, guest, gh)
  }

  lemma SignalsFollowGrants(r: Rooms, h: Handle, user: string, remote: string, room: string, live: set<Handle>)
    requires Valid(r)
    ensures Authorized(r, h, user, remote, room, live) <==>
            exists other :: h in live && other in live
              && (HostToGuest(r, user, remote, room, h, other) || HostToGuest(r, remote, user, room, other, h))
  {
    GrantBound(r, room, user);
    GrantBound(r, room, remote);
    RouteBound(r, user);
    RouteBound(r, remote);
    hide Valid;
    if Authorized(r, h, user, remote, room, live) {
      var other := MemberHandle(r, remote, room).value;
      assert HostToGuest(r, user, remote, room, h, other) || HostToGuest(r, remote, user, room, other, h);
    }
  }

  /** The reply is authorized too, and comes back to the sender. */
  lemma SignalsAreAnswerable(r: Rooms, h: Handle, user: string, remote: string, room: string, live: set<Handle>)
    requires Valid(r) && Authorized(r, h, user, remote, room, live)
    ensures MemberHandle(r, user, room) == Some(h)
    ensures Authorized(r, MemberHandle(r, remote, room).value, remote, user, room, live)
  {
    GrantBound(r, room, remote);
    RouteBound(r, remote);
    hide Valid;
  }

  lemma GrantBound(r: Rooms, room: string, guest: string)
    requires Valid(r)
    ensures room in r.grants && guest in r.grants[room] ==>
              UserOf(r.users, r.grants[room][guest]) == guest && guest != "" && room in r.hosts && r.hosts[room] != guest
  {
    GoodAt(r.hosts, r.guests, room);
  }

  lemma RouteBound(r: Rooms, user: string)
    requires Valid(r)
    ensures user in r.routes ==> UserOf(r.users, r.routes[user]) == user && user != ""
  {
    hide GoodRooms;
  }

  // ------------------------------------------------------------- alternation

  /** The notifications about one pair, as a sequence of starts and ends. */
  ghost function About(notes: seq<Note>, pair: (string, string)): seq<bool> {
    if notes == [] then []
    else
      var n := notes[|notes| - 1];
      About(notes[..|notes| - 1], pair) + (if (n.room, n.guest) == pair then [n.started] else [])
  }

  ghost function Last(flags: seq<bool>, otherwise: bool): bool {
    if flags == [] then otherwise else flags[|flags| - 1]
  }

  /** Each element differs from the one before it, and the first is `first`. */
  ghost predicate Alternates(flags: seq<bool>, first: bool) {
    flags == [] ||
    var before := flags[..|flags| - 1];
    Alternates(before, first) && flags[|flags| - 1] == !Last(before, !first)
  }

  lemma AlternatesSnoc(flags: seq<bool>, x: bool, first: bool)
    ensures Alternates(flags + [x], first) <==> Alternates(flags, first) && x == !Last(flags, !first)
  {
    assert (flags + [x])[..|flags|] == flags;
  }

  /** A replay succeeds exactly when, pair by pair, starts and ends strictly
      alternate, and then a pair is present according to its last one. */
  lemma {:induction false} ReplayAlternates(base: set<(string, string)>, notes: seq<Note>)
    ensures Replay(base, notes).Some? <==> forall pair :: Alternates(About(notes, pair), pair !in base)
    ensures Replay(base, notes).Some? ==>
              forall pair :: pair in Replay(base, notes).value <==> Last(About(notes, pair), pair in base)
  {
    if notes != [] {
      var n := notes[|notes| - 1];
      var before := notes[..|notes| - 1];
      var own := (n.room, n.guest);
      ReplayAlternates(base, before);
      assert notes == before + [n];
      ReplaySnoc(base, before, n);
      hide Replay;
      hide Alternates;
      assert About(notes, own) == About(before, own) + [n.started];
      AlternatesSnoc(About(before, own), n.started, own !in base);
      forall pair | pair != own
        ensures About(notes, pair) == About(before, pair)
      {
      }
      hide About;
      if Replay(base, before).Some? {
        assert Alternates(About(notes, own), own !in base) <==> n.started == (own !in Replay(base, before).value);
        assert forall pair :: pair != own ==> Alternates(About(notes, pair), pair !in base);
      }
    }
  }

  // -------------------------------------------------------------------- runs

  datatype Call =
    | Host(host: string, room: string)
    | Guest(guest: string, room: string)
    | Grant(guest: string, room: string, handle: Handle)
    | User(user: string, handle: Handle, device: string, now: nat)
    | CloseRoom(room: string)
    | Leave(guest: string, room: string)
    | LeaveAll(guest: string)
    | Disconnect(handle: Handle)
    | Heartbeat(handle: Handle, now: nat)
    | ExpireAll(now: nat)
    | PruneAll

  ghost function ApplyCall(r: Rooms, call: Call, live: set<Handle>): Rooms {
    match call
    case Host(host, room) => BindHost(r, host, room).0
    case Guest(guest, room) => AddGuest(r, guest, room).0
    case Grant(guest, room, h) => GrantGuest(r, guest, room, h, live).0
    case User(user, h, device, now) => BindUser(r, user, h, device, now, live).0
    case CloseRoom(room) => ReleaseRoom(r, room)
    case Leave(guest, room) => DropGuest(r, guest, room).0
    case LeaveAll(guest) => DropEverywhere(r, guest)
    case Disconnect(h) => ReleaseSession(r, h).0
    case Heartbeat(h, now) => Beat(r, h, now).0
    case ExpireAll(now) => ExpireInactive(r, live, now).0
    case PruneAll => Prune(r, live).0
  }

  /** Calls in order, each with the handles that are live at that moment. */
  ghost function RunCalls(r: Rooms, calls: seq<(Call, set<Handle>)>): Rooms
    decreases |calls|
  {
    if calls == [] then r
    else
      var last := calls[|calls| - 1];
      ApplyCall(RunCalls(r, calls[..|calls| - 1]), last.0, last.1)
  }

  lemma ApplyKeeps(base: set<(string, string)>, r: Rooms, call: Call, live: set<Handle>)
    requires Valid(r) && Replayed(base, r)
    ensures Valid(ApplyCall(r, call, live)) && Replayed(base, ApplyCall(r, call, live))
  {
    hide Valid;
    hide Replayed;
    hide BindHost;
    hide AddGuest;
    hide GrantGuest;
    hide BindUser;
    hide ReleaseRoom;
    hide DropGuest;
    hide DropEverywhere;
    hide ReleaseSession;
    hide Prune;
    hide Beat;
    hide ExpireInactive;
    match call
    case Host(host, room) => BindHostKeeps(base, r, host, room);
    case Guest(guest, room) => AddGuestKeeps(base, r, guest, room);
    case Grant(guest, room, h) => GrantGuestKeeps(base, r, guest, room, h, live);
    case User(user, h, device, now) => BindUserKeeps(base, r, user, h, device, now, live);
    case CloseRoom(room) => ReleaseRoomValid(base, r, room);
    case Leave(guest, room) => DropGuestKeeps(base, r, guest, room);
    case LeaveAll(guest) => DropEverywhereKeeps(base, r, guest);
    case Disconnect(h) => SessionEnds(base, r, h);
    case Heartbeat(h, now) => BeatKeeps(base, r, h, now);
    case ExpireAll(now) => ExpireExactly(base, r, live, now);
    case PruneAll => PruneExactly(base, r, live);
  }

  lemma {:induction false} RunKeeps(base: set<(string, string)>, r: Rooms, calls: seq<(Call, set<Handle>)>)
    requires Valid(r) && Replayed(base, r)
    ensures Valid(RunCalls(r, calls)) && Replayed(base, RunCalls(r, calls))
    decreases |calls|
  {
    hide Valid;
    hide Replayed;
    hide ApplyCall;
    if calls != [] {
      var last := calls[|calls| - 1];
      RunKeeps(base, r, calls[..|calls| - 1]);
      ApplyKeeps(base, RunCalls(r, calls[..|calls| - 1]), last.0, last.1);
    }
  }

  lemma ApplyWatched(r: Rooms, call: Call, live: set<Handle>)
    ensures ApplyCall(r, call, live).watched == r.watched
  {
    hide Reroute;
    hide SortedKeys;
    match call
    case CloseRoom(room) => QuietRoom(r, room);
    case Leave(guest, room) => QuietGuest(r, guest, room);
    case LeaveAll(guest) => QuietFrom(r, guest, SortedKeys(r.guests.Keys));
    case Disconnect(h) => QuietSession(r, h);
    case ExpireAll(now) => QuietExpire(r, SortedNats(r.active.Keys), live, now);
    case PruneAll => QuietPrune(r, live);
    case _ =>
      hide ReleaseRoom;
      hide DropGuest;
      hide DropEverywhere;
      hide ReleaseSession;
      hide Prune;
      hide ExpireFrom;
  }

  lemma {:induction false} RunWatched(r: Rooms, calls: seq<(Call, set<Handle>)>)
    ensures RunCalls(r, calls).watched == r.watched
    decreases |calls|
  {
    hide ApplyCall;
    if calls != [] {
      var last := calls[|calls| - 1];
      RunWatched(r, calls[..|calls| - 1]);
      ApplyWatched(RunCalls(r, calls[..|calls| - 1]), last.0, last.1);
    }
  }

  /** From the moment the callback is installed, whatever is called in whatever
      order: the maps stay consistent, the notifications replay to exactly the
      current memberships, and for each pair starts and ends alternate. */
  lemma RunNotifies(r: Rooms, calls: seq<(Call, set<Handle>)>)
    requires Valid(r) && r.watched && r.notes == []
    ensures var s := RunCalls(r, calls);
            && Valid(s)
            && Replay(Members(r.guests), s.notes) == Some(Members(s.guests))
            && (forall pair :: Alternates(About(s.notes, pair), pair !in Members(r.guests)))
            && (forall pair :: pair in Members(s.guests) <==> Last(About(s.notes, pair), pair in Members(r.guests)))
  {
    var base := Members(r.guests);
    assert Replayed(base, r);
    RunKeeps(base, r, calls);
    RunWatched(r, calls);
    ReplayAlternates(base, RunCalls(r, calls).notes);
    hide Members;
    hide Valid;
    hide RunCalls;
    hide Replay;
    hide About;
    hide Alternates;
  }
}
