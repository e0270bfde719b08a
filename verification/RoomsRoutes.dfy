/** Which handle a route leads to, over any sequence of calls: told from the
    logins, disconnections and expiries among them. */
module RoomsRoutes {
  import opened Ordering
  import opened RoomsSpec
  import opened RoomsFacts
  import opened RoomsRelease
  import opened RoomsPrune
  import opened RoomsExpiry
  import opened RoomsRuns

  // --------------------------------------------------- what the calls say

  /** Who is logged in where, with which verified device, last heard of when. */
  datatype Book = Book(users: map<Handle, string>, verified: map<Handle, string>, heard: map<Handle, nat>)

  ghost function BookOf(r: Rooms): Book {
    Book(r.users, r.verified, r.active)
  }

  /** The login of a user on a live connection that is nobody else's. */
  ghost predicate LogsIn(b: Book, call: Call, live: set<Handle>) {
    call.User? && call.user != "" && call.handle in live && (call.handle in b.users ==> b.users[call.handle] == call.user)
  }

  ghost predicate LoggedIn(b: Book, call: Call, live: set<Handle>, user: string) {
    LogsIn(b, call, live) && call.user == user
  }

  /** Connections that are gone, or not heard of for more than 30 seconds. */
  ghost function Lost(b: Book, live: set<Handle>, now: nat): set<Handle> {
    set h | h in b.heard && (h !in live || b.heard[h] + 30 < now)
  }

  ghost function Unlisted(b: Book, gone: set<Handle>): Book {
    Book(b.users - gone, b.verified - gone, b.heard - gone)
  }

  ghost function Entry(b: Book, call: Call, live: set<Handle>): Book {
    if LogsIn(b, call, live) then
      Book(b.users[call.handle := call.user],
           if call.device == "" then b.verified else b.verified[call.handle := call.device],
           b.heard[call.handle := call.now])
    else match call
      case Disconnect(h) => Unlisted(b, {h})
      case ExpireAll(now) => Unlisted(b, Lost(b, live, now))
      case Heartbeat(h, now) => if h in b.users then b.(heard := b.heard[h := now]) else b
      case _ => b
  }

  ghost function HandlesOf(users: map<Handle, string>, user: string): set<Handle> {
    set h | h in users && users[h] == user
  }

  ghost predicate Shared(user: string) {
    |user| >= 2 && user[0] == 'C' && user[1] == '-'
  }

  /** Where a route leads: it stays while its handle is its user's, and else
      moves to the least handle of the user. */
  ghost function Rests(route: Option<Handle>, users: map<Handle, string>, user: string): Option<Handle> {
    if route.Some? && route.value in HandlesOf(users, user) then route
    else if HandlesOf(users, user) == {} then None
    else Some(LeastNat(HandlesOf(users, user)))
  }

  /** A login takes the route over, unless the id may be shared and has one. */
  ghost function Leads(b: Book, route: Option<Handle>, call: Call, live: set<Handle>, user: string): Option<Handle> {
    if LoggedIn(b, call, live, user) && (route == None || !Shared(user)) then Some(call.handle)
    else Rests(route, Entry(b, call, live).users, user)
  }

  ghost function BookAfter(b: Book, calls: seq<(Call, set<Handle>)>): Book {
    if calls == [] then b
    else
      var last := calls[|calls| - 1];
      Entry(BookAfter(b, calls[..|calls| - 1]), last.0, last.1)
  }

  ghost function RouteAfter(b: Book, route: Option<Handle>, calls: seq<(Call, set<Handle>)>, user: string): Option<Handle> {
    if calls == [] then route
    else
      var before, last := calls[..|calls| - 1], calls[|calls| - 1];
      Leads(BookAfter(b, before), RouteAfter(b, route, before, user), last.0, last.1, user)
  }

  // ------------------------------------------------------------- single calls

  lemma AgreedRests(r: Rooms, user: string)
    requires Valid(r)
    ensures Rests(Route(r, user), r.users, user) == Route(r, user)
  {
    if user !in r.routes {
      assert HandlesOf(r.users, user) == {};
    }
    hide GoodRooms;
    hide GoodGrants;
  }

  /** Rests composes while handles only go. */
  lemma RestsChain(route: Option<Handle>, before: map<Handle, string>, after: map<Handle, string>, user: string)
    requires forall h :: h in after ==> h in before && after[h] == before[h]
    ensures Rests(Rests(route, before, user), after, user) == Rests(route, after, user)
  {
    var a, b := HandlesOf(before, user), HandlesOf(after, user);
    assert b <= a;
    if b != {} && !(route.Some? && route.value in a) && LeastNat(a) in b {
      assert LeastNat(a) == LeastNat(b);
    }
  }

  lemma {:induction false} FirstIsLeast(handles: seq<Handle>, users: map<Handle, string>, user: string)
    requires forall h :: h in handles ==> h in users
    requires forall i, j :: 0 <= i < j < |handles| ==> handles[i] < handles[j]
    ensures var o := FirstHandle(handles, users, user);
            && (o.None? ==> forall h :: h in handles ==> users[h] != user)
            && (o.Some? ==> o.value in handles && users[o.value] == user
                            && forall h :: h in handles && users[h] == user ==> o.value <= h)
  {
    if handles != [] {
      assert handles == [handles[0]] + handles[1..];
      FirstIsLeast(handles[1..], users, user);
    }
  }

  ghost function Lookup(routes: map<string, Handle>, user: string): Option<Handle> {
    if user in routes then Some(routes[user]) else None
  }

  /** A user whose routed handle is not `h` does not notice that `h` goes. */
  lemma StillRests(routes: map<string, Handle>, users: map<Handle, string>, h: Handle, user: string)
    requires Agree(routes, users) && Lookup(routes, user) != Some(h)
    ensures Rests(Lookup(routes, user), users - {h}, user) == Lookup(routes, user)
  {
    if user !in routes {
      assert HandlesOf(users - {h}, user) == {};
    }
  }

  lemma LeastRests(users: map<Handle, string>, route: Option<Handle>, user: string)
    requires route.Some? ==> route.value !in HandlesOf(users, user)
    ensures Rests(route, users, user) == FirstHandle(SortedNats(users.Keys), users, user)
  {
    var handles := SortedNats(users.Keys);
    FirstIsLeast(handles, users, user);
    var o := FirstHandle(handles, users, user);
    hide FirstHandle;
    hide SortedNats;
    if o.Some? {
      LeastIs(HandlesOf(users, user), o.value);
      hide LeastNat;
    } else {
      assert HandlesOf(users, user) == {};
    }
  }

  lemma LeastIs(s: set<Handle>, h: Handle)
    requires h in s && forall x :: x in s ==> h <= x
    ensures LeastNat(s) == h
  {
    assert IsLeastNat(s, LeastNat(s));
    hide LeastNat;
  }

  lemma ReroutedRests(routes: map<string, Handle>, users: map<Handle, string>, h: Handle, user: string)
    requires Agree(routes, users) && h in users
    ensures Lookup(Reroute(routes, users, h), user) == Rests(Lookup(routes, user), users - {h}, user)
  {
    var left := users - {h};
    hide FirstHandle;
    hide SortedNats;
    if user == users[h] && Lookup(routes, user) == Some(h) {
      LeastRests(left, Lookup(routes, user), user);
      assert h !in HandlesOf(left, user);
    } else {
      StillRests(routes, users, h, user);
      hide Rests;
    }
  }

  /** Unbinding a handle moves its user's route on. */
  lemma ReleasedRoute(r: Rooms, h: Handle, user: string)
    requires Agree(r.routes, r.users)
    ensures var a := ReleaseHandle(r, h).0;
            BookOf(a) == Unlisted(BookOf(r), {h}) && Lookup(a.routes, user) == Rests(Lookup(r.routes, user), a.users, user)
  {
    if h in r.users {
      ReroutedRests(r.routes, r.users, h, user);
    } else {
      assert Lookup(r.routes, user) != Some(h);
      StillRests(r.routes, r.users, h, user);
    }
    hide Reroute;
    hide Rests;
    hide Lookup;
    hide Agree;
  }

  lemma SessionIndex(r: Rooms, h: Handle)
    ensures SameIndex(ReleaseHandle(r, h).0, ReleaseSession(r, h).0)
  {
    var (a, id) := ReleaseHandle(r, h);
    hide ReleaseHandle;
    TakeBackIndex(a, id, h);
    DepartIndex(TakeBack(a, id, h), id);
    hide TakeBack;
    hide Depart;
    hide Connected;
  }

  lemma SessionRoutes(r: Rooms, h: Handle, user: string)
    requires Valid(r)
    ensures var s := ReleaseSession(r, h).0;
            && BookOf(s) == Unlisted(BookOf(r), {h})
            && Route(s, user) == Rests(Route(r, user), s.users, user)
  {
    assert Agree(r.routes, r.users) by {
      hide GoodRooms;
      hide GoodGrants;
    }
    hide Valid;
    ReleasedRoute(r, h, user);
    var (a, id) := ReleaseHandle(r, h);
    hide ReleaseHandle;
    hide Rests;
    hide Unlisted;
    SessionIndex(r, h);
  }

  lemma {:induction false} ExpireRoutes(base: set<(string, string)>, r: Rooms, handles: seq<Handle>, live: set<Handle>, now: nat, user: string)
    requires Valid(r) && Replayed(base, r)
    ensures var s := ExpireFrom(r, handles, live, now).0;
            && (forall h :: h in s.users ==> h in r.users && s.users[h] == r.users[h])
            && Route(s, user) == Rests(Route(r, user), s.users, user)
            && s.verified == r.verified - (r.active.Keys - s.active.Keys)
            && s.active.Keys <= r.active.Keys
    decreases |handles|
  {
    hide Valid;
    hide Replayed;
    hide ReleaseSession;
    hide Rests;
    hide Route;
    if handles == [] {
      AgreedRests(r, user);
      assert r.verified - (r.active.Keys - r.active.Keys) == r.verified;
    } else if !Inactive(r.active, handles[0], live, now) {
      ExpireRoutes(base, r, handles[1..], live, now, user);
    } else {
      var a := ReleaseSession(r, handles[0]).0;
      SessionExpires(base, r, handles[0]);
      SessionRoutes(r, handles[0], user);
      ExpireRoutes(base, a, handles[1..], live, now, user);
      var s := ExpireFrom(a, handles[1..], live, now).0;
      RestsChain(Route(r, user), a.users, s.users, user);
      assert r.verified - {handles[0]} - (a.active.Keys - s.active.Keys) == r.verified - (r.active.Keys - s.active.Keys);
    }
  }

  lemma LostBook(r: Rooms, s: Rooms, live: set<Handle>, now: nat)
    requires var gone := set h | h in r.active && Inactive(r.active, h, live, now);
             s.users == r.users - gone && s.active == r.active - gone
    requires s.verified == r.verified - (r.active.Keys - s.active.Keys)
    ensures BookOf(s) == Unlisted(BookOf(r), Lost(BookOf(r), live, now))
  {
    var gone := set h | h in r.active && Inactive(r.active, h, live, now);
    assert gone == Lost(BookOf(r), live, now);
    hide Inactive;
    hide Lost;
    assert r.active.Keys - s.active.Keys == gone;
  }

  lemma ExpireBook(base: set<(string, string)>, r: Rooms, live: set<Handle>, now: nat, user: string)
    requires Valid(r) && Replayed(base, r)
    ensures var s := ExpireInactive(r, live, now).0;
            && BookOf(s) == Unlisted(BookOf(r), Lost(BookOf(r), live, now))
            && Route(s, user) == Rests(Route(r, user), s.users, user)
  {
    hide Valid;
    hide Replayed;
    hide Rests;
    hide Route;
    hide ExpireFrom;
    hide LoggedOut;
    hide NoGrantOn;
    hide Connected;
    hide SortedNats;
    hide BookOf;
    hide Lost;
    hide Unlisted;
    var s := ExpireInactive(r, live, now).0;
    ExpireExactly(base, r, live, now);
    ExpireRoutes(base, r, SortedNats(r.active.Keys), live, now, user);
    hide ExpireInactive;
    LostBook(r, s, live, now);
  }

  lemma LoginBook(r: Rooms, call: Call, live: set<Handle>, user: string)
    requires Valid(r) && call.User?
    ensures var s := BindUser(r, call.user, call.handle, call.device, call.now, live).0;
            && BookOf(s) == Entry(BookOf(r), call, live)
            && Route(s, user) == Leads(BookOf(r), Route(r, user), call, live, user)
  {
    AgreedRests(r, user);
    RouteBound(r, user);
    hide Valid;
    hide LeastNat;
    var s := BindUser(r, call.user, call.handle, call.device, call.now, live).0;
    assert Alias(call.user) <==> Shared(call.user) by {
      assert |call.user| >= 2 ==> call.user[..2] == [call.user[0], call.user[1]];
    }
    hide Alias;
    hide Shared;
    if LogsIn(BookOf(r), call, live) && user != call.user {
      OtherLogin(r.users, call.handle, call.user, user);
    }
  }

  lemma OtherLogin(users: map<Handle, string>, h: Handle, name: string, user: string)
    requires user != name && (h in users ==> users[h] == name)
    ensures HandlesOf(users[h := name], user) == HandlesOf(users, user)
  {
  }

  lemma SameIndexBook(r: Rooms, s: Rooms, call: Call, live: set<Handle>, user: string)
    requires Valid(r) && SameIndex(r, s)
    requires !call.User? && !call.Disconnect? && !call.ExpireAll? && !call.Heartbeat?
    ensures BookOf(s) == Entry(BookOf(r), call, live) && Route(s, user) == Leads(BookOf(r), Route(r, user), call, live, user)
  {
    AgreedRests(r, user);
    hide Valid;
    hide Rests;
  }

  lemma ReleasesSameIndex(base: set<(string, string)>, r: Rooms, guest: string, room: string, live: set<Handle>)
    requires Valid(r) && Replayed(base, r)
    ensures SameIndex(r, ReleaseRoom(r, room)) && SameIndex(r, DropEverywhere(r, guest)) && SameIndex(r, Prune(r, live).0)
  {
    assert SameIndex(r, ReleaseRoom(r, room)) by {
      hide Ends;
      hide Valid;
    }
    hide ReleaseRoom;
    DropFromIndex(r, guest, SortedKeys(r.guests.Keys));
    hide DropFrom;
    hide SortedKeys;
    PruneExactly(base, r, live);
    hide Prune;
    hide Valid;
    hide Replayed;
  }

  lemma BindsSameIndex(r: Rooms, host: string, guest: string, room: string)
    ensures SameIndex(r, BindHost(r, host, room).0) && SameIndex(r, AddGuest(r, guest, room).0)
  {
    assert SameIndex(r, BindHost(r, host, room).0);
    hide BindHost;
  }

  lemma ChangesSameIndex(r: Rooms, guest: string, room: string, h: Handle, live: set<Handle>)
    ensures SameIndex(r, DropGuest(r, guest, room).0) && SameIndex(r, GrantGuest(r, guest, room, h, live).0)
  {
    assert SameIndex(r, DropGuest(r, guest, room).0) by {
      hide Revoke;
    }
    hide DropGuest;
    BindsSameIndex(r, "", guest, room);
    hide AddGuest;
    hide PutGrant;
  }

  lemma ApplySameIndex(base: set<(string, string)>, r: Rooms, call: Call, live: set<Handle>)
    requires Valid(r) && Replayed(base, r)
    requires !call.User? && !call.Disconnect? && !call.ExpireAll? && !call.Heartbeat?
    ensures SameIndex(r, ApplyCall(r, call, live))
  {
    hide Valid;
    hide Replayed;
    hide SameIndex;
    hide ReleaseRoom;
    hide DropGuest;
    hide DropEverywhere;
    hide Prune;
    hide BindHost;
    hide AddGuest;
    hide GrantGuest;
    match call
    case Host(host, room) => BindsSameIndex(r, host, "", room);
    case Guest(guest, room) => BindsSameIndex(r, "", guest, room);
    case Grant(guest, room, h) => ChangesSameIndex(r, guest, room, h, live);
    case Leave(guest, room) => ChangesSameIndex(r, guest, room, 0, live);
    case CloseRoom(room) => ReleasesSameIndex(base, r, "", room, live);
    case LeaveAll(guest) => ReleasesSameIndex(base, r, guest, "", live);
    case PruneAll => ReleasesSameIndex(base, r, "", "", live);
  }

  /** What one call does to the book and to the route of any user. */
  lemma CallRoutes(base: set<(string, string)>, r: Rooms, call: Call, live: set<Handle>, user: string)
    requires Valid(r) && Replayed(base, r)
    ensures BookOf(ApplyCall(r, call, live)) == Entry(BookOf(r), call, live)
    ensures Route(ApplyCall(r, call, live), user) == Leads(BookOf(r), Route(r, user), call, live, user)
  {
    hide Valid;
    hide Replayed;
    hide ReleaseSession;
    hide ExpireInactive;
    hide BindUser;
    hide ReleaseRoom;
    hide DropGuest;
    hide DropEverywhere;
    hide Prune;
    hide BindHost;
    hide AddGuest;
    hide GrantGuest;
    hide Lost;
    hide Rests;
    match call {
      case User(_, _, _, _) => LoginBook(r, call, live, user);
      case Disconnect(h) => SessionRoutes(r, h, user);
      case ExpireAll(now) => ExpireBook(base, r, live, now, user);
      case Heartbeat(h, now) => AgreedRests(r, user);
      case _ =>
        ApplySameIndex(base, r, call, live);
        SameIndexBook(r, ApplyCall(r, call, live), call, live, user);
        hide ApplyCall;
        hide Entry;
        hide Leads;
    }
  }

  // ---------------------------------------------------------------- whole runs

  /** Over every sequence of calls, who is logged in where and where each route
      leads is what the logins, disconnections and expiries among them say. */
  lemma {:induction false} RunRoutes(base: set<(string, string)>, r: Rooms, calls: seq<(Call, set<Handle>)>, user: string)
    requires Valid(r) && Replayed(base, r)
    ensures BookOf(RunCalls(r, calls)) == BookAfter(BookOf(r), calls)
    ensures Route(RunCalls(r, calls), user) == RouteAfter(BookOf(r), Route(r, user), calls, user)
    decreases |calls|
  {
    hide Valid;
    hide Replayed;
    hide ApplyCall;
    hide Entry;
    hide Leads;
    hide Route;
    if calls != [] {
      var before, last := calls[..|calls| - 1], calls[|calls| - 1];
      RunRoutes(base, r, before, user);
      RunKeeps(base, r, before);
      CallRoutes(base, RunCalls(r, before), last.0, last.1, user);
    }
  }

  /** The connection of the user's last successful login among the calls. */
  ghost function LastLogin(b: Book, calls: seq<(Call, set<Handle>)>, user: string): Option<Handle> {
    if calls == [] then None
    else
      var before, last := calls[..|calls| - 1], calls[|calls| - 1];
      if LoggedIn(BookAfter(b, before), last.0, last.1, user) then Some(last.0.handle)
      else LastLogin(b, before, user)
  }

  /** Only a login makes a handle someone's. */
  lemma EntryBinds(b: Book, call: Call, live: set<Handle>, user: string, h: Handle)
    requires h in HandlesOf(Entry(b, call, live).users, user)
    ensures h in HandlesOf(b.users, user) || (LoggedIn(b, call, live, user) && call.handle == h)
  {
  }

  lemma {:induction false} RouteFollowsLogin(b: Book, route: Option<Handle>, calls: seq<(Call, set<Handle>)>, user: string)
    requires !Shared(user) && LastLogin(b, calls, user).Some?
    requires LastLogin(b, calls, user).value in HandlesOf(BookAfter(b, calls).users, user)
    ensures RouteAfter(b, route, calls, user) == LastLogin(b, calls, user)
  {
    hide Entry;
    hide LogsIn;
    hide Shared;
    hide HandlesOf;
    var before, last := calls[..|calls| - 1], calls[|calls| - 1];
    var a := BookAfter(b, before);
    if !LoggedIn(a, last.0, last.1, user) {
      EntryBinds(a, last.0, last.1, user, LastLogin(b, calls, user).value);
      RouteFollowsLogin(b, route, before, user);
    }
  }

  /** The route of an id that is not shared leads to the connection of its last
      successful login, for as long as that connection is bound to it. */
  lemma RunFollowsLastLogin(base: set<(string, string)>, r: Rooms, calls: seq<(Call, set<Handle>)>, user: string)
    requires Valid(r) && Replayed(base, r) && !Shared(user)
    requires var login := LastLogin(BookOf(r), calls, user);
             login.Some? && login.value in RunCalls(r, calls).users && RunCalls(r, calls).users[login.value] == user
    ensures Route(RunCalls(r, calls), user) == LastLogin(BookOf(r), calls, user)
  {
    RunRoutes(base, r, calls, user);
    var login := LastLogin(BookOf(r), calls, user);
    assert RunCalls(r, calls).users == BookAfter(BookOf(r), calls).users;
    RouteFollowsLogin(BookOf(r), Route(r, user), calls, user);
    hide RunCalls;
    hide Valid;
    hide RouteAfter;
    hide BookAfter;
    hide LastLogin;
  }

  /** The user keeps this handle throughout the calls. */
  ghost predicate Keeps(b: Book, calls: seq<(Call, set<Handle>)>, user: string, h: Handle) {
    forall n :: 0 <= n <= |calls| ==> h in HandlesOf(BookAfter(b, calls[..n]).users, user)
  }

  lemma {:induction false} SharedStays(b: Book, calls: seq<(Call, set<Handle>)>, user: string, h: Handle)
    requires Shared(user) && Keeps(b, calls, user, h)
    ensures RouteAfter(b, Some(h), calls, user) == Some(h)
  {
    hide Entry;
    hide LogsIn;
    hide Shared;
    hide HandlesOf;
    if calls != [] {
      var before := calls[..|calls| - 1];
      assert calls[..|calls|] == calls;
      forall n | 0 <= n <= |before|
        ensures h in HandlesOf(BookAfter(b, before[..n]).users, user)
      {
        assert before[..n] == calls[..n];
      }
      SharedStays(b, before, user, h);
      assert h in HandlesOf(BookAfter(b, calls).users, user);
    }
  }

  /** The route of a shared id stays where it is while that connection is bound,
      whoever else logs in with the id. */
  lemma RunKeepsSharedRoute(base: set<(string, string)>, r: Rooms, calls: seq<(Call, set<Handle>)>, user: string)
    requires Valid(r) && Replayed(base, r) && Shared(user) && user in r.routes
    requires forall n :: 0 <= n <= |calls| ==> r.routes[user] in HandlesOf(RunCalls(r, calls[..n]).users, user)
    ensures Route(RunCalls(r, calls), user) == Some(r.routes[user])
  {
    forall n | 0 <= n <= |calls|
      ensures r.routes[user] in HandlesOf(BookAfter(BookOf(r), calls[..n]).users, user)
    {
      RunRoutes(base, r, calls[..n], user);
      assert r.routes[user] in HandlesOf(RunCalls(r, calls[..n]).users, user);
    }
    RunRoutes(base, r, calls, user);
    hide RunCalls;
    hide BookAfter;
    hide HandlesOf;
    hide Valid;
    hide Replayed;
    SharedStays(BookOf(r), calls, user, r.routes[user]);
  }

  /** When the routed connection ends, the route moves to the least other handle
      bound to the user, and vanishes when there is none. */
  lemma RouteMovesOn(base: set<(string, string)>, r: Rooms, h: Handle, user: string)
    requires Valid(r) && Replayed(base, r) && Route(r, user) == Some(h)
    ensures var others := HandlesOf(r.users, user) - {h};
            Route(ReleaseSession(r, h).0, user) == if others == {} then None else Some(LeastNat(others))
  {
    SessionRoutes(r, h, user);
    assert HandlesOf(r.users - {h}, user) == HandlesOf(r.users, user) - {h};
    hide ReleaseSession;
    hide Valid;
  }
}
