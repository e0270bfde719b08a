/** What each event does to the memberships, tickets and legacy sessions, spelled
    out: who enters, who leaves, what starts and stops waiting. */
module RecoverySteps {
  import opened Ordering
  import opened RoomsSpec
  import opened RoomsFacts
  import opened RoomsRelease
  import opened RoomsPrune
  import opened RoomsQuiet
  import opened RoomsRuns
  import opened SessionTables
  import opened RecoverySpec
  import opened RecoveryFacts
  import opened RecoveryGrants
  import opened RecoveryRuns

  ghost function Sessions(w: World): set<Pair> {
    Members(w.rooms.guests)
  }

  ghost function InRoom(pairs: set<Pair>, room: string): set<Pair> {
    set p | p in pairs && p.0 == room
  }

  ghost predicate Bound(r: Rooms, h: Handle, user: string) {
    h in r.users && r.users[h] == user
  }

  ghost predicate Routed(r: Rooms, user: string, h: Handle) {
    user in r.routes && r.routes[user] == h
  }

  ghost predicate RouteLive(r: Rooms, user: string, live: set<Handle>) {
    user in r.routes && r.routes[user] in live
  }

  // ------------------------------------------------------------------------ joins

  /** The room exists, its host can be reached, and the connection is the guest's. */
  ghost predicate MayJoin(w: World, h: Handle, user: string, room: string, live: set<Handle>) {
    && user != "" && user != room && h in live && Bound(w.rooms, h, user)
    && room in w.rooms.hosts && RouteLive(w.rooms, room, live)
  }

  lemma JoinsWhen(w: World, h: Handle, user: string, room: string, live: set<Handle>)
    requires Agreed(w)
    ensures MayJoin(w, h, user, room, live) <==>
              && HostOf(w.rooms, room) != "" && Route(w.rooms, HostOf(w.rooms, room)).Some?
              && Route(w.rooms, HostOf(w.rooms, room)).value in live
              && GrantGuest(w.rooms, user, room, h, live).1
    ensures room in w.rooms.hosts ==> w.rooms.hosts[room] == room && room != ""
  {
    if room in w.rooms.hosts {
      HostNamed(w.rooms, room);
    }
    hide Agreed;
    hide PutGrant;
    hide Temporary;
  }

  /** Both ends of the join said that they can resume sessions. */
  ghost predicate Offered(w: World, h: Handle, room: string) {
    room in w.rooms.routes && w.rooms.routes[room] in w.capable && h in w.capable
  }

  /** A join that may happen makes the guest a member on this connection, with its
      row, and a new ticket exactly when both ends can resume; nothing of the
      session waits any more. */
  lemma JoinEffect(w: World, h: Handle, user: string, room: string, token: nat, live: set<Handle>)
    requires Agreed(w)
    ensures var v, key := JoinStep(w, h, user, room, token, live), (room, user);
            if MayJoin(w, h, user, room, live) then
              && Sessions(v) == Sessions(w) + {key} && key in v.tables.ledger
              && GrantedOn(v.rooms.grants, room, user, h) && key !in v.legacy
              && (if Offered(w, h, room) then
                    && key in v.tickets && v.tickets[key].token == token && !v.tickets[key].recovering
                    && key in v.tables.saved && v.tables.saved[key] == SavedTicket(room, token)
                  else key !in v.tickets && key !in v.tables.saved)
            else v == w
  {
    var key := (room, user);
    JoinsWhen(w, h, user, room, live);
    if MayJoin(w, h, user, room, live) {
      JoinAgrees(w, h, user, room, token, live);
      var r := GrantGuest(w.rooms, user, room, h, live).0;
      GrantIs(w.rooms, user, room, h, live);
      GrantSettles(w, r, key, h, live);
      var s := Settle(w, r);
      var t := s.(tables := StartSession(s.tables, room, room, user).0);
      GrantedRouted(w.rooms, r, user, room, h, live);
      IssueIs(t, key, h, token);
      TicketedSaved(JoinStep(w, h, user, room, token, live), key);
      assert JoinStep(w, h, user, room, token, live) == Issue(t, room, room, user, h, token);
      hide Issue;
      hide JoinStep;
      assert t.rooms.grants == r.grants && t.rooms.routes == w.rooms.routes && t.capable == w.capable;
    }
    hide GrantGuest;
    hide Settle;
    hide Agreed;
    hide Members;
    hide Granted;
    hide StartSession;
    hide Rowed;
    hide Valid;
    hide Calm;
  }

  lemma GrantedRouted(r: Rooms, s: Rooms, guest: string, room: string, h: Handle, live: set<Handle>)
    requires Granted(r, s, guest, room, h, live)
    ensures s.routes == r.routes && GrantedOn(s.grants, room, guest, h) && Members(s.guests) == Members(r.guests) + {(room, guest)}
  {
    hide Members;
  }

  lemma IssueIs(s: World, key: Pair, h: Handle, token: nat)
    ensures var v := Issue(s, key.0, key.0, key.1, h, token);
            && v.rooms == s.rooms && v.tables.ledger == s.tables.ledger && key !in v.legacy
            && (if Offered(s, h, key.0) then
                  && key in v.tickets && v.tickets[key].token == token && !v.tickets[key].recovering
                  && key in v.tables.saved && v.tables.saved[key] == SavedTicket(key.0, token)
                else key !in v.tickets)
  {
    assert (key.0, key.1) == key;
  }

  lemma TicketedSaved(w: World, key: Pair)
    requires Agreed(w)
    ensures key in w.tables.saved <==> key in w.tickets && key in w.tables.ledger
  {
    hide Calm;
    hide GoodTables;
    hide Accounted;
  }

  // --------------------------------------------------------------- leaving and kicks

  /** The connection is live and the user's own place in the room. */
  ghost predicate Sits(r: Rooms, h: Handle, user: string, room: string, live: set<Handle>) {
    && user != "" && room != "" && h in live && Bound(r, h, user) && room in r.hosts
    && if room == user then Routed(r, user, h) else GrantedOn(r.grants, room, user, h)
  }

  lemma SitsWhen(r: Rooms, h: Handle, user: string, room: string, live: set<Handle>)
    requires Calm(r)
    ensures Sits(r, h, user, room, live) <==>
              user != "" && room != "" && UserOf(r.users, h) == user && InTransmission(r, h, room, live)
    ensures Sits(r, h, user, room, live) ==> (HostOf(r, room) == user <==> room == user)
  {
    if room in r.hosts {
      HostNamed(r, room);
    }
    GrantBound(r, room, user);
    hide Valid;
    hide Temporary;
  }

  lemma RoomGoes(r: Rooms, room: string)
    requires Valid(r)
    ensures Members(ReleaseRoom(r, room).guests) == Members(r.guests) - InRoom(Members(r.guests), room)
  {
    hide GoodRooms;
    hide Indexed;
    hide GoodGrants;
    hide Ends;
  }

  lemma SettleSessions(w: World, r: Rooms)
    ensures Sessions(Settle(w, r)) == Members(r.guests)
  {
    hide Members;
    hide Deliver;
  }

  /** A guest that leaves ends its session; a host that leaves closes its room. */
  lemma LeaveEffect(w: World, h: Handle, user: string, room: string, live: set<Handle>)
    requires Agreed(w)
    ensures var v := LeaveStep(w, h, user, room, live);
            && (!Sits(w.rooms, h, user, room, live) ==> v == w)
            && (Sits(w.rooms, h, user, room, live) ==>
                  Sessions(v) == Sessions(w) - if room == user then InRoom(Sessions(w), room) else {(room, user)})
  {
    SitsWhen(w.rooms, h, user, room, live);
    RoomGoes(w.rooms, room);
    SettleSessions(w, ReleaseRoom(w.rooms, room));
    DropExactly(w.rooms, (room, user));
    SettleSessions(w, DropGuest(w.rooms, user, room).0);
    hide Agreed;
    hide Calm;
    hide Valid;
    hide Settle;
    hide Members;
    hide InRoom;
    hide ReleaseRoom;
    hide DropGuest;
    hide InTransmission;
    hide Sits;
    hide Sessions;
  }

  /** The host, on its own route, removes a guest that can be reached. */
  ghost predicate MayKick(r: Rooms, h: Handle, user: string, remote: string, room: string, live: set<Handle>) {
    && user == room && room != "" && remote != "" && remote != user && room in r.hosts
    && h in live && Routed(r, user, h)
    && exists other :: other in live && GrantedOn(r.grants, room, remote, other)
  }

  lemma KicksWhen(r: Rooms, h: Handle, user: string, remote: string, room: string, live: set<Handle>)
    requires Calm(r)
    ensures MayKick(r, h, user, remote, room, live) <==> Authorized(r, h, user, remote, room, live) && HostOf(r, room) == user
  {
    if room in r.hosts {
      HostNamed(r, room);
    }
    SignalsFollowGrants(r, h, user, remote, room, live);
    hide Authorized;
    hide Valid;
    hide Temporary;
    hide GrantedOn;
    if MayKick(r, h, user, remote, room, live) {
      var other :| other in live && GrantedOn(r.grants, room, remote, other);
      assert HostToGuest(r, user, remote, room, h, other);
    }
  }

  lemma KickEffect(w: World, h: Handle, user: string, remote: string, room: string, live: set<Handle>)
    requires Agreed(w)
    ensures var v := KickStep(w, h, user, remote, room, live);
            && (!MayKick(w.rooms, h, user, remote, room, live) ==> v == w)
            && (MayKick(w.rooms, h, user, remote, room, live) ==> Sessions(v) == Sessions(w) - {(room, remote)})
  {
    KicksWhen(w.rooms, h, user, remote, room, live);
    DropExactly(w.rooms, (room, remote));
    SettleSessions(w, DropGuest(w.rooms, remote, room).0);
    hide Agreed;
    hide Calm;
    hide Valid;
    hide Settle;
    hide Members;
    hide DropGuest;
    hide Authorized;
    hide MayKick;
  }

  // ------------------------------------------------------------------ connections end

  /** A connection ends: its user's memberships granted on it go; when it was the
      user's last one, all its memberships and its own room go. */
  ghost function EndedWith(w: World, h: Handle): set<Pair> {
    var user := UserOf(w.rooms.users, h);
    if h !in w.rooms.users then {}
    else if exists other :: other != h && Bound(w.rooms, other, user) then
      set p | p in Sessions(w) && p.1 == user && GrantedOn(w.rooms.grants, p.0, user, h)
    else set p | p in Sessions(w) && (p.1 == user || p.0 == user)
  }

  lemma OthersBound(r: Rooms, h: Handle, user: string)
    ensures Connected(r.users - {h}, user) <==> exists other :: other != h && Bound(r, other, user)
  {
    if other :| other != h && Bound(r, other, user) {
      assert other in r.users - {h} && (r.users - {h})[other] == user;
    }
    if Connected(r.users - {h}, user) {
      var other :| other in r.users - {h} && (r.users - {h})[other] == user;
      assert other != h && Bound(r, other, user);
    }
  }

  lemma GrantsAreMembers(r: Rooms, user: string, h: Handle)
    requires Valid(r)
    ensures PairsGrantedOn(r, user, h) == set p | p in Members(r.guests) && p.1 == user && GrantedOn(r.grants, p.0, user, h)
    ensures user == "" ==> PairsGrantedOn(r, user, h) == {}
  {
    forall room
      ensures GrantedOn(r.grants, room, user, h) ==> (room, user) in Members(r.guests) && user != ""
    {
      GrantBound(r, room, user);
      GrantMember(r, room, user);
    }
    hide Valid;
    hide Members;
  }

  lemma GrantMember(r: Rooms, room: string, guest: string)
    requires Valid(r)
    ensures room in r.grants && guest in r.grants[room] ==> (room, guest) in Members(r.guests)
  {
    hide GoodRooms;
    hide Indexed;
  }

  lemma OwnRoom(r: Rooms, id: string)
    requires Calm(r)
    ensures FirstHosted(r.hosts, SortedKeys(r.hosts.Keys), id) == if id in r.hosts then id else ""
    ensures id !in r.hosts ==> forall p :: p in Members(r.guests) ==> p.0 != id
  {
    var room := FirstHosted(r.hosts, SortedKeys(r.hosts.Keys), id);
    hide SortedKeys;
    if room != "" {
      HostNamed(r, room);
    } else if id in r.hosts {
      HostNamed(r, id);
    }
    forall p | p in Members(r.guests)
      ensures p.0 in r.hosts
    {
      GoodAt(r.hosts, r.guests, p.0);
    }
    hide FirstHosted;
  }

  lemma ClosedEffect(w: World, h: Handle)
    requires Agreed(w)
    ensures Sessions(Settle(w, ReleaseSession(w.rooms, h).0)) == Sessions(w) - EndedWith(w, h)
  {
    hide Valid;
    hide Members;
    hide GrantedOn;
    hide FirstHosted;
    hide SortedKeys;
    hide ReleaseSession;
    hide Settle;
    hide Connected;
    hide NoGrantOn;
    hide PairsGrantedOn;
    hide Bound;
    hide GoodTables;
    hide Saved;
    hide Accounted;
    hide Waiting;
    var r := w.rooms;
    NoNotes(r);
    SessionEnds(Members(r.guests), r, h);
    var (s, id) := ReleaseSession(r, h);
    SettleSessions(w, s);
    var user := UserOf(r.users, h);
    if h in r.users {
      BoundNamed(r, h);
    }
    OthersBound(r, h, user);
    GrantsAreMembers(r, user, h);
    if id != "" {
      OwnRoom(r, id);
      assert Others(Members(r.guests), id, if id in r.hosts then id else "") == Members(r.guests) - EndedWith(w, h);
    }
    hide Keyed;
  }

  lemma BoundNamed(r: Rooms, h: Handle)
    requires Calm(r) && h in r.users
    ensures r.users[h] != ""
  {
    hide GoodRooms;
    hide GoodGrants;
  }

  /** A sweep ends the memberships whose host is not bound to any connection or
      whose guest cannot be reached. */
  lemma SweepEffect(w: World, live: set<Handle>)
    requires Agreed(w)
    ensures Sessions(Settle(w, Prune(w.rooms, live).0)) ==
            set p | p in Sessions(w) && p.0 in w.rooms.hosts && Online(w.rooms, w.rooms.hosts[p.0]) && Reachable(w.rooms, live, p.0, p.1)
  {
    hide Valid;
    hide Members;
    hide Prune;
    hide Settle;
    hide Online;
    hide Reachable;
    hide GoodTables;
    hide Saved;
    hide Accounted;
    NoNotes(w.rooms);
    SettleSessions(w, Prune(w.rooms, live).0);
    forall p: Pair
      ensures p in Members(Prune(w.rooms, live).0.guests) <==>
                p in Members(w.rooms.guests) && p.0 in w.rooms.hosts && Online(w.rooms, w.rooms.hosts[p.0]) && Reachable(w.rooms, live, p.0, p.1)
    {
      PruneKeepsIff(Members(w.rooms.guests), w.rooms, live, p.0, p.1);
      assert (p.0, p.1) == p;
    }
  }

  // ------------------------------------------------------------------ administration

  /** A session of the room waits to be resumed. */
  ghost predicate RoomWaits(w: World, room: string) {
    exists guest :: (room, guest) in w.tables.ledger
      && ((room, guest) in w.legacy || ((room, guest) in w.tickets && w.tickets[(room, guest)].recovering))
  }

  lemma AdminEffect(w: World, room: string)
    requires Agreed(w)
    ensures var v := AdminStep(w, room);
            && (room == "" || RoomWaits(w, room) ==> v == w)
            && (room != "" && !RoomWaits(w, room) ==>
                  Sessions(v) == Sessions(w) - InRoom(Sessions(w), room) && InRoom(v.tables.ledger.Keys, room) == {})
  {
    hide Valid;
    hide Members;
    hide Settle;
    hide ReleaseRoom;
    hide EndRoom;
    assert RoomWaits(w, room) <==> RoomRecovering(w, room);
    if room != "" && !RoomWaits(w, room) {
      RoomGoes(w.rooms, room);
      SettleSessions(w, ReleaseRoom(w.rooms, room));
      LeaveAgrees(w, "", room);
      var a := if room in w.rooms.hosts then Settle(w, ReleaseRoom(w.rooms, room)) else w;
      if room !in w.rooms.hosts {
        NoRoomNoMembers(w.rooms, room);
      }
      hide RoomWaits;
      hide RoomRecovering;
      RowsEnd(a, room);
      assert AdminStep(w, room).rooms == a.rooms;
    }
    hide Agreed;
  }

  lemma NoRoomNoMembers(r: Rooms, room: string)
    requires Calm(r) && room !in r.hosts
    ensures InRoom(Members(r.guests), room) == {}
  {
    hide Indexed;
    hide GoodGrants;
  }

  lemma RowsEnd(w: World, room: string)
    requires Agreed(w) && room != ""
    ensures InRoom(EndRoom(w.tables, room).0.ledger.Keys, room) == {}
  {
    hide Calm;
    hide Saved;
    hide Accounted;
  }

  // -------------------------------------------------------------------- reports of end

  /** The token of the session is right, the reporter is one of its ends, its row
      is there, and it is not too late. */
  ghost predicate Credible(w: World, h: Handle, key: Pair, token: nat, now: nat) {
    && key in w.tickets && w.tickets[key].token == token && key in w.tables.ledger
    && (Bound(w.rooms, h, key.0) || Bound(w.rooms, h, key.1))
    && (w.tickets[key].recovering ==> now <= w.tickets[key].deadline)
  }

  lemma CredibleIs(w: World, h: Handle, key: Pair, token: nat, now: nat)
    requires Agreed(w)
    ensures Accepts(w, h, key, token, now) <==> Credible(w, h, key, token, now)
  {
    if key in w.tickets {
      WaitingIsLedgered(w, key);
      if key in w.tables.ledger {
        RowNamed(w, key);
      }
    }
    hide Agreed;
    hide Exists;
  }

  /** A credible report that the session is over ends it, and it cannot be resumed. */
  lemma OverEffect(w: World, h: Handle, key: Pair, token: nat, live: set<Handle>, now: nat)
    requires Agreed(w)
    ensures var v := Report(w, h, key, token, false, live, now);
            if Credible(w, h, key, token, now) then
              Sessions(v) == Sessions(w) - {key} && v.tickets == w.tickets - {key} && key !in v.tables.ledger && key !in v.tables.saved
            else v == w
  {
    hide Valid;
    hide Members;
    hide Dismiss;
    CredibleIs(w, h, key, token, now);
    if Credible(w, h, key, token, now) {
      RowNamed(w, key);
      DismissExactly(w, key);
    }
    hide Agreed;
    hide Credible;
    hide Accepts;
  }

  // ---------------------------------------------------------------------------- logins

  /** Both ends of the session are back in time: their routes are live. */
  ghost predicate BothBack(w: World, key: Pair, live: set<Handle>, now: nat) {
    && key in w.legacy && now <= w.legacy[key].deadline && key in w.tables.ledger
    && RouteLive(w.rooms, key.0, live) && RouteLive(w.rooms, key.1, live)
  }

  lemma BackIs(w: World, key: Pair, live: set<Handle>, now: nat)
    requires Agreed(w)
    ensures BothBack(w, key, live, now) <==> Confirmed(w, key, live, now)
  {
    if key in w.legacy && key in w.tables.ledger {
      RowNamed(w, key);
      LegacyNamed(w, key);
      RouteBound(w.rooms, key.0);
      RouteBound(w.rooms, key.1);
    }
    hide Calm;
    hide GoodTables;
    hide Saved;
    hide Accounted;
  }

  lemma LegacyNamed(w: World, key: Pair)
    requires Agreed(w) && key in w.legacy
    ensures w.legacy[key].host == key.0
  {
    hide Calm;
    hide GoodTables;
    hide Saved;
    hide Accounted;
  }

  /** A login on a live connection that had none: it is announced whether the client
      can resume sessions, its own room is there unless it is temporary, and of the
      sessions without tickets exactly those of the user whose ends are both back
      stop waiting. */
  lemma LoginEffect(w: World, h: Handle, user: string, device: string, capable: bool, live: set<Handle>, now: nat)
    requires Agreed(w)
    ensures var v := LoginStep(w, h, user, device, capable, live, now);
            if h in w.rooms.users || user == "" || h !in live then v == w
            else
              && Sessions(v) == Sessions(w) && v.tickets == w.tickets && v.tables == w.tables
              && Bound(v.rooms, h, user) && (user in v.rooms.hosts <==> user in w.rooms.hosts || !(Prefixed(user, "web-") || Prefixed(user, "cli-")))
              && v.capable == (if capable then w.capable + {h} else w.capable - {h})
              && (forall key :: key in v.legacy <==>
                    (key in w.legacy && !((user == key.0 || user == key.1) && BothBack(w.(rooms := v.rooms), key, live, now))))
  {
    hide Valid;
    hide Members;
    hide BindUser;
    hide BindHost;
    hide Answers;
    hide BothBack;
    LoginAgrees(w, h, user, device, capable, live, now);
    BindUserIs(w.rooms, user, h, device, now, live);
    var a := BindUser(w.rooms, user, h, device, now, live).0;
    var c := BindHost(a, user, user).0;
    if !(h in w.rooms.users || user == "" || h !in live) {
      BindHostIs(a, user);
      var b := w.(rooms := c);
      var v := LoginStep(w, h, user, device, capable, live, now);
      assert v.rooms == c && v.tables == w.tables && v.tickets == w.tickets;
      LoginAccords(w, h, user, device, now, live);
      forall key
        ensures Answers(b, user, key, live, now) <==> key in w.legacy && (user == key.0 || user == key.1) && BothBack(b, key, live, now)
      {
        BackIs(b, key, live, now);
        AnswersWhen(b, user, key, live, now);
      }
      assert v.legacy.Keys == set k | k in w.legacy && !Answers(b, user, k, live, now);
    }
    hide Agreed;
  }

  lemma AnswersWhen(w: World, user: string, key: Pair, live: set<Handle>, now: nat)
    requires Agreed(w)
    ensures Answers(w, user, key, live, now) <==> key in w.legacy && (user == key.0 || user == key.1) && Confirmed(w, key, live, now)
  {
    if key in w.legacy {
      LegacyNamed(w, key);
    }
    hide Agreed;
    hide Confirmed;
  }

  lemma LoginAccords(w: World, h: Handle, user: string, device: string, now: nat, live: set<Handle>)
    requires Agreed(w) && user != ""
    ensures Agreed(w.(rooms := BindHost(BindUser(w.rooms, user, h, device, now, live).0, user, user).0))
  {
    hide Valid;
    hide Members;
    hide Replayed;
    var a := BindUser(w.rooms, user, h, device, now, live).0;
    NoNotes(w.rooms);
    BindUserKeeps(Members(w.rooms.guests), w.rooms, user, h, device, now, live);
    BindUserSilent(w.rooms, user, h, device, now, live);
    hide BindUser;
    assert Agreed(w.(rooms := a)) by {
      hide GoodTables;
      hide Saved;
      hide Waiting;
      hide Accounted;
    }
    hide Agreed;
    BindHostAgrees(w.(rooms := a), user);
    hide BindHost;
  }

  lemma BindUserSilent(r: Rooms, user: string, h: Handle, device: string, now: nat, live: set<Handle>)
    ensures BindUser(r, user, h, device, now, live).0.notes == r.notes
  {
  }

  lemma BindUserIs(r: Rooms, user: string, h: Handle, device: string, now: nat, live: set<Handle>)
    ensures var (s, ok) := BindUser(r, user, h, device, now, live);
            && (h !in r.users ==> (ok <==> user != "" && h in live))
            && (ok ==> h in s.users && s.users[h] == user) && s.hosts == r.hosts && s.guests == r.guests
  {
    hide Alias;
  }

  lemma BindHostIs(r: Rooms, user: string)
    ensures var s := BindHost(r, user, user).0;
            && s.users == r.users && s.guests == r.guests && (user in s.hosts <==> user in r.hosts || !Temporary(user))
  {
    hide Temporary;
  }

  // ------------------------------------------------------------------------ heartbeats

  /** A ticket that expires: its row is gone, or it waited too long. */
  ghost predicate Doomed(w: World, key: Pair, now: nat) {
    key in w.tickets && (key !in w.tables.ledger || (w.tickets[key].recovering && now > w.tickets[key].deadline))
  }

  /** From `w` to `v` the tickets `gone` are forgotten, with their rows. */
  ghost predicate Forgotten(w: World, v: World, gone: set<Pair>) {
    && v.tickets == w.tickets - gone && v.legacy == w.legacy - gone
    && v.tables.ledger == w.tables.ledger - gone && Sessions(v) == Sessions(w)
    && v.capable == w.capable && v.heartbeat == w.heartbeat && v.rooms.routes == w.rooms.routes
  }

  lemma DismissRoutes(w: World, key: Pair)
    ensures Dismiss(w, key).rooms.routes == w.rooms.routes
  {
    hide Deliver;
    hide EndSession;
    hide Revoke;
  }

  lemma TicketForgotten(w: World, key: Pair, now: nat)
    requires Agreed(w)
    ensures Forgotten(w, ExpireTicket(w, key, now), if Doomed(w, key, now) then {key} else {})
  {
    hide Members;
    hide Calm;
    hide Dismiss;
    hide GoodTables;
    hide Saved;
    if key in w.tickets {
      WaitingIsLedgered(w, key);
      DismissRoutes(w, key);
      if w.tickets[key].recovering {
        assert key in Waiting(w.tickets);
        RowNamed(w, key);
        DismissExactly(w, key);
        assert Sessions(w) - {key} == Sessions(w);
      }
    }
    assert w.tickets - {} == w.tickets && w.legacy - {} == w.legacy && w.tables.ledger - {} == w.tables.ledger;
    if key !in w.tables.ledger {
      assert w.tables.ledger - {key} == w.tables.ledger;
    }
    hide Exists;
  }

  lemma ForgottenChain(w: World, v: World, u: World, a: set<Pair>, b: set<Pair>)
    requires Forgotten(w, v, a) && Forgotten(v, u, b)
    ensures Forgotten(w, u, a + b)
  {
    assert w.tickets - a - b == w.tickets - (a + b);
    assert w.legacy - a - b == w.legacy - (a + b);
    assert w.tables.ledger - a - b == w.tables.ledger - (a + b);
    hide Sessions;
  }

  ghost function DoomedOf(w: World, keys: seq<Pair>, now: nat): set<Pair> {
    set k | k in keys && Doomed(w, k, now)
  }

  lemma {:induction false} TicketsForgotten(w: World, keys: seq<Pair>, now: nat)
    requires Agreed(w)
    ensures Forgotten(w, ExpireTickets(w, keys, now), DoomedOf(w, keys, now))
    decreases |keys|
  {
    hide Agreed;
    hide ExpireTicket;
    hide Sessions;
    if keys == [] {
      assert DoomedOf(w, keys, now) == {};
      assert w.tickets - {} == w.tickets && w.legacy - {} == w.legacy && w.tables.ledger - {} == w.tables.ledger;
    } else {
      var v := ExpireTicket(w, keys[0], now);
      ExpireTicketAgrees(w, keys[0], now);
      TicketForgotten(w, keys[0], now);
      TicketsForgotten(v, keys[1..], now);
      var first := if Doomed(w, keys[0], now) then {keys[0]} else {};
      assert keys == [keys[0]] + keys[1..];
      forall k
        ensures k in DoomedOf(w, keys, now) <==> k in first + DoomedOf(v, keys[1..], now)
      {
      }
      assert DoomedOf(w, keys, now) == first + DoomedOf(v, keys[1..], now);
      ForgottenChain(w, v, ExpireTickets(v, keys[1..], now), first, DoomedOf(v, keys[1..], now));
    }
  }

  /** A session without a ticket stops waiting: its row is gone, it waited too long
      or both ends are back. */
  ghost predicate Settles(w: World, key: Pair, live: set<Handle>, now: nat) {
    key in w.legacy && (key !in w.tables.ledger || now > w.legacy[key].deadline || BothBack(w, key, live, now))
  }

  /** It waited too long, and ends. */
  ghost predicate Lapses(w: World, key: Pair, now: nat) {
    key in w.legacy && key in w.tables.ledger && now > w.legacy[key].deadline
  }

  ghost predicate Confirming(w: World, v: World, settled: set<Pair>, ended: set<Pair>) {
    && v.tickets == w.tickets && v.legacy == w.legacy - settled
    && v.tables.ledger == w.tables.ledger - ended && Sessions(v) == Sessions(w) - ended
    && v.capable == w.capable && v.heartbeat == w.heartbeat && v.rooms.routes == w.rooms.routes
  }

  lemma LegacySettles(w: World, key: Pair, live: set<Handle>, now: nat)
    requires Agreed(w)
    ensures Confirming(w, ExpireLegacy(w, key, live, now),
                       if Settles(w, key, live, now) then {key} else {}, if Lapses(w, key, now) then {key} else {})
  {
    hide Members;
    hide Dismiss;
    hide Confirmed;
    hide BothBack;
    BackIs(w, key, live, now);
    DismissRoutes(w, key);
    if key in w.legacy {
      LegacyNamed(w, key);
      if key in w.tables.ledger {
        RowNamed(w, key);
        DismissExactly(w, key);
      }
    }
    hide Agreed;
    assert w.legacy - {} == w.legacy && w.tables.ledger - {} == w.tables.ledger && Sessions(w) - {} == Sessions(w);
  }

  lemma ConfirmingChain(w: World, v: World, u: World, a: set<Pair>, b: set<Pair>, c: set<Pair>, d: set<Pair>)
    requires Confirming(w, v, a, c) && Confirming(v, u, b, d)
    ensures Confirming(w, u, a + b, c + d)
  {
    assert w.legacy - a - b == w.legacy - (a + b);
    assert w.tables.ledger - c - d == w.tables.ledger - (c + d);
    assert Sessions(w) - c - d == Sessions(w) - (c + d);
    hide Sessions;
  }

  ghost function SettledOf(w: World, keys: seq<Pair>, live: set<Handle>, now: nat): set<Pair> {
    set k | k in keys && Settles(w, k, live, now)
  }

  ghost function LapsedOf(w: World, keys: seq<Pair>, now: nat): set<Pair> {
    set k | k in keys && Lapses(w, k, now)
  }

  lemma {:induction false} LegaciesSettle(w: World, keys: seq<Pair>, live: set<Handle>, now: nat)
    requires Agreed(w)
    ensures Confirming(w, ExpireLegacies(w, keys, live, now), SettledOf(w, keys, live, now), LapsedOf(w, keys, now))
    decreases |keys|
  {
    hide Agreed;
    hide ExpireLegacy;
    hide Sessions;
    if keys == [] {
      assert SettledOf(w, keys, live, now) == {} && LapsedOf(w, keys, now) == {};
      assert w.legacy - {} == w.legacy && w.tables.ledger - {} == w.tables.ledger && Sessions(w) - {} == Sessions(w);
    } else {
      var key, rest := keys[0], keys[1..];
      var v := ExpireLegacy(w, key, live, now);
      ExpireLegacyAgrees(w, key, live, now);
      LegacySettles(w, key, live, now);
      LegaciesSettle(v, rest, live, now);
      var a := if Settles(w, key, live, now) then {key} else {};
      var c := if Lapses(w, key, now) then {key} else {};
      assert keys == [key] + rest;
      forall k
        ensures k in SettledOf(w, keys, live, now) <==> k in a + SettledOf(v, rest, live, now)
        ensures k in LapsedOf(w, keys, now) <==> k in c + LapsedOf(v, rest, now)
      {
      }
      assert SettledOf(w, keys, live, now) == a + SettledOf(v, rest, live, now);
      assert LapsedOf(w, keys, now) == c + LapsedOf(v, rest, now);
      hide Confirming;
      ConfirmingChain(w, v, ExpireLegacies(v, rest, live, now), a, SettledOf(v, rest, live, now), c, LapsedOf(v, rest, now));
    }
  }

  lemma BeatStages(w: World, a: World, b: World, v: World, doomed: set<Pair>, settled: set<Pair>, lapsed: set<Pair>,
                   live: set<Handle>, now: nat, key: Pair)
    requires a == w.(heartbeat := now, capable := w.capable * live) && Sessions(a) == Sessions(w)
    requires Forgotten(a, b, doomed) && Confirming(b, v, settled, lapsed)
    requires key in doomed <==> key in a.tickets && Doomed(a, key, now)
    requires key in settled <==> key in b.legacy && Settles(b, key, live, now)
    requires key in lapsed <==> key in b.legacy && Lapses(b, key, now)
    requires key in w.legacy && key in w.tickets ==> !w.tickets[key].recovering
    ensures key in v.tickets <==> key in w.tickets && !Doomed(w, key, now)
    ensures key in v.tickets ==> v.tickets[key] == w.tickets[key]
    ensures key in Sessions(v) <==> key in Sessions(w) && !Lapses(w, key, now)
    ensures key in v.tables.ledger <==> key in w.tables.ledger && !Doomed(w, key, now) && !Lapses(w, key, now)
    ensures key in v.legacy <==> key in w.legacy && !Settles(w, key, live, now)
    ensures v.capable == w.capable * live && v.heartbeat == now
  {
    hide Sessions;
    hide RouteLive;
    assert Doomed(a, key, now) <==> Doomed(w, key, now);
    RoutesLive(w, b, live);
  }

  lemma RoutesLive(w: World, b: World, live: set<Handle>)
    requires b.rooms.routes == w.rooms.routes
    ensures forall user :: RouteLive(b.rooms, user, live) <==> RouteLive(w.rooms, user, live)
  {
  }

  /** A heartbeat forgets exactly the tickets that lost their row or waited too
      long, ends exactly the sessions that waited too long, and of the sessions
      without tickets only those go on waiting that are in time, have a row and
      miss an end. */
  lemma HeartbeatEffect(w: World, live: set<Handle>, now: nat, key: Pair)
    requires Agreed(w)
    ensures var v := Expire(w.(heartbeat := now), live, now);
            && (key in v.tickets <==> key in w.tickets && !Doomed(w, key, now))
            && (key in v.tickets ==> v.tickets[key] == w.tickets[key])
            && (key in Sessions(v) <==> key in Sessions(w) && !Lapses(w, key, now))
            && (key in v.tables.ledger <==> key in w.tables.ledger && !Doomed(w, key, now) && !Lapses(w, key, now))
            && (key in v.legacy <==> key in w.legacy && !Settles(w, key, live, now))
            && v.capable == w.capable * live && v.heartbeat == now
  {
    hide Sessions;
    hide Agreed;
    hide ExpireTickets;
    hide ExpireLegacies;
    hide SortedPairs;
    hide Doomed;
    hide Settles;
    hide Lapses;
    hide Forgotten;
    hide Confirming;
    HeartbeatAgrees(w, now);
    var x := w.(heartbeat := now);
    var a := x.(capable := x.capable * live);
    LegacyShrinks(x, x.legacy, a.capable);
    SameRoomsSessions(w, a);
    var tickets, b := SortedPairs(a.tickets.Keys), ExpireTickets(a, SortedPairs(a.tickets.Keys), now);
    ExpireTicketsAgree(a, tickets, now);
    TicketsForgotten(a, tickets, now);
    SortedPairsHas(a.tickets.Keys, key);
    var legacies, v := SortedPairs(b.legacy.Keys), ExpireLegacies(b, SortedPairs(b.legacy.Keys), live, now);
    LegaciesSettle(b, legacies, live, now);
    SortedPairsHas(b.legacy.Keys, key);
    if key in w.legacy && key in w.tickets {
      LegacyTicketless(w, key);
    }
    BeatStages(w, a, b, v, DoomedOf(a, tickets, now), SettledOf(b, legacies, live, now), LapsedOf(b, legacies, now), live, now, key);
  }

  lemma SameRoomsSessions(w: World, v: World)
    requires v.rooms == w.rooms
    ensures Sessions(v) == Sessions(w)
  {
    hide Members;
  }

  /** A session does not wait both with a ticket and without. */
  lemma LegacyTicketless(w: World, key: Pair)
    requires Agreed(w) && key in w.legacy && key in w.tickets
    ensures !w.tickets[key].recovering
  {
    hide Calm;
    hide GoodTables;
    hide Saved;
    hide Accounted;
    assert w.tickets[key].recovering ==> key in Waiting(w.tickets);
  }

  // ------------------------------------------------------------------------ every event

  /** The sessions an event ends, by what it finds. */
  ghost function Leaving(w: World, e: Event, live: set<Handle>, now: nat): set<Pair> {
    match e
    case Leave(h, user, room) =>
      if !Sits(w.rooms, h, user, room, live) then {} else if room == user then InRoom(Sessions(w), room) else {(room, user)}
    case Kick(h, user, remote, room) => if MayKick(w.rooms, h, user, remote, room, live) then {(room, remote)} else {}
    case Reported(h, key, token, alive) => if !alive && Credible(w, h, key, token, now) then {key} else {}
    case Closed(h) => EndedWith(w, h)
    case Heartbeat => set p | p in Sessions(w) && Lapses(w, p, now)
    case Sweep =>
      set p | p in Sessions(w)
        && !(p.0 in w.rooms.hosts && Online(w.rooms, w.rooms.hosts[p.0]) && Reachable(w.rooms, live, p.0, p.1))
    case AdminDisconnect(room) => if room == "" || RoomWaits(w, room) then {} else InRoom(Sessions(w), room)
    case _ => {}
  }

  ghost function Entering(w: World, e: Event, live: set<Handle>): set<Pair> {
    if e.Join? && MayJoin(w, e.handle, e.user, e.room, live) then {(e.room, e.user)} else {}
  }

  /** Which memberships each event ends and begins; what a report of being alive
      does is told by the reports before it, and what a start does by the tables. */
  lemma StepSessions(w: World, e: Event, live: set<Handle>, now: nat)
    requires Agreed(w) && !e.Restart? && !(e.Reported? && e.alive)
    ensures Sessions(Step(w, e, live, now)) == Sessions(w) - Leaving(w, e, live, now) + Entering(w, e, live)
  {
    hide Agreed;
    hide Sessions;
    hide Settle;
    hide Expire;
    hide LoginStep;
    hide JoinStep;
    hide LeaveStep;
    hide KickStep;
    hide Report;
    hide AdminStep;
    hide ReleaseSession;
    hide Prune;
    hide EndedWith;
    hide InRoom;
    match e {
      case Login(h, user, device, capable) => LoginEffect(w, h, user, device, capable, live, now);
      case Join(h, user, room, token) => JoinEffect(w, h, user, room, token, live);
      case Leave(h, user, room) => LeaveEffect(w, h, user, room, live);
      case Kick(h, user, remote, room) => KickEffect(w, h, user, remote, room, live);
      case Reported(h, key, token, alive) => OverEffect(w, h, key, token, live, now);
      case Closed(h) => ClosedEffect(w, h);
      case Heartbeat =>
        forall p
          ensures p in Sessions(Step(w, e, live, now)) <==> p in Sessions(w) && !Lapses(w, p, now)
        {
          HeartbeatEffect(w, live, now, p);
        }
        hide Step;
      case Sweep => SweepEffect(w, live);
      case AdminDisconnect(room) => AdminEffect(w, room);
    }
  }

  // ------------------------------------------------------------------------- terms

  /** What a start finds: the ledger, unless the server has been down for more than
      two minutes or has never run; a session with a ticket recovers, one without
      is to be confirmed, both for `timeout`. */
  lemma BootTerms(tables: Tables, heartbeat: nat, now: nat, timeout: nat, key: Pair)
    ensures var w := Boot(tables, heartbeat, now, timeout);
            var found := key in tables.ledger && 0 < heartbeat && now <= heartbeat + 120;
            && (key in w.tables.ledger <==> found)
            && (key in w.tickets <==> found && key in tables.saved)
            && (key in w.tickets ==> w.tickets[key].recovering && w.tickets[key].token == tables.saved[key].token
                                     && !w.tickets[key].hostReady && !w.tickets[key].guestReady && w.tickets[key].deadline == now + timeout)
            && (key in w.legacy <==> found && key !in tables.saved)
            && (key in w.legacy ==> w.legacy[key].deadline == now + timeout)
            && w.heartbeat == now && w.capable == {}
  {
    hide RestoreAll;
  }

  /** The legacy sessions of `v` are some of those of `w`, with their deadlines. */
  ghost predicate Fewer(w: World, v: World) {
    forall k :: k in v.legacy ==> k in w.legacy && v.legacy[k] == w.legacy[k]
  }

  lemma FewerChain(w: World, v: World, u: World)
    requires Fewer(w, v) && Fewer(v, u)
    ensures Fewer(w, u)
  {
  }

  lemma ExpireTicketFewer(w: World, key: Pair, now: nat)
    ensures Fewer(w, ExpireTicket(w, key, now))
  {
    hide DropGuest;
    hide Deliver;
    hide EndSession;
  }

  lemma ExpireLegacyFewer(w: World, key: Pair, live: set<Handle>, now: nat)
    ensures Fewer(w, ExpireLegacy(w, key, live, now))
  {
    hide DropGuest;
    hide Deliver;
    hide EndSession;
    hide Confirmed;
  }

  lemma {:induction false} ExpireTicketsFewer(w: World, keys: seq<Pair>, now: nat)
    ensures Fewer(w, ExpireTickets(w, keys, now))
    decreases |keys|
  {
    hide ExpireTicket;
    if keys != [] {
      ExpireTicketFewer(w, keys[0], now);
      ExpireTicketsFewer(ExpireTicket(w, keys[0], now), keys[1..], now);
      FewerChain(w, ExpireTicket(w, keys[0], now), ExpireTickets(w, keys, now));
    }
  }

  lemma {:induction false} ExpireLegaciesFewer(w: World, keys: seq<Pair>, live: set<Handle>, now: nat)
    ensures Fewer(w, ExpireLegacies(w, keys, live, now))
    decreases |keys|
  {
    hide ExpireLegacy;
    if keys != [] {
      ExpireLegacyFewer(w, keys[0], live, now);
      ExpireLegaciesFewer(ExpireLegacy(w, keys[0], live, now), keys[1..], live, now);
      FewerChain(w, ExpireLegacy(w, keys[0], live, now), ExpireLegacies(w, keys, live, now));
    }
  }

  lemma ExpireFewer(w: World, live: set<Handle>, now: nat)
    ensures Fewer(w, Expire(w, live, now))
  {
    hide ExpireTickets;
    hide ExpireLegacies;
    hide SortedPairs;
    var a := w.(capable := w.capable * live);
    var b := ExpireTickets(a, SortedPairs(a.tickets.Keys), now);
    ExpireTicketsFewer(a, SortedPairs(a.tickets.Keys), now);
    ExpireLegaciesFewer(b, SortedPairs(b.legacy.Keys), live, now);
    FewerChain(w, b, Expire(w, live, now));
  }

  lemma ReportFewer(w: World, h: Handle, key: Pair, token: nat, alive: bool, live: set<Handle>, now: nat)
    ensures Fewer(w, Report(w, h, key, token, alive, live, now))
  {
    hide DropGuest;
    hide Deliver;
    hide EndSession;
    hide StartSession;
    hide GrantGuest;
    hide BindHost;
    hide Resumable;
    hide Accepts;
  }

  lemma LoginFewer(w: World, h: Handle, user: string, device: string, capable: bool, live: set<Handle>, now: nat)
    ensures Fewer(w, LoginStep(w, h, user, device, capable, live, now))
  {
    hide BindUser;
    hide BindHost;
    hide Answers;
  }

  lemma JoinFewer(w: World, h: Handle, user: string, room: string, token: nat, live: set<Handle>)
    ensures Fewer(w, JoinStep(w, h, user, room, token, live))
  {
    hide GrantGuest;
    hide Deliver;
    hide StartSession;
  }

  lemma StepFewer(w: World, e: Event, live: set<Handle>, now: nat)
    requires !e.Restart?
    ensures Fewer(w, Step(w, e, live, now))
  {
    hide LoginStep;
    hide JoinStep;
    hide Report;
    hide Expire;
    hide ReleaseSession;
    hide ReleaseRoom;
    hide DropGuest;
    hide Prune;
    hide Deliver;
    hide EndRoom;
    hide Authorized;
    hide InTransmission;
    hide RoomRecovering;
    match e {
      case Login(h, user, device, capable) => LoginFewer(w, h, user, device, capable, live, now);
      case Join(h, user, room, token) => JoinFewer(w, h, user, room, token, live);
      case Reported(h, key, token, alive) => ReportFewer(w, h, key, token, alive, live, now);
      case Heartbeat => ExpireFewer(w.(heartbeat := now), live, now);
      case _ =>
    }
  }

  /** The end of the term that the last start set. */
  ghost function Term(until: nat, events: seq<Timed>): nat
    decreases |events|
  {
    if events == [] then until
    else
      var last := events[|events| - 1];
      if last.event.Restart? then last.now + last.event.timeout else Term(until, events[..|events| - 1])
  }

  /** Over every run: a session without a ticket that is still to be confirmed has
      until the end of the term that the last start set. */
  lemma {:induction false} RunTerms(tables: Tables, heartbeat: nat, now: nat, timeout: nat, events: seq<Timed>, key: Pair)
    ensures var w := Run(Boot(tables, heartbeat, now, timeout), events);
            key in w.legacy ==> w.legacy[key].deadline == Term(now + timeout, events)
    decreases |events|
  {
    hide Boot;
    hide Step;
    if events == [] {
      BootTerms(tables, heartbeat, now, timeout, key);
    } else {
      var before, last := events[..|events| - 1], events[|events| - 1];
      var w := Run(Boot(tables, heartbeat, now, timeout), before);
      RunTerms(tables, heartbeat, now, timeout, before, key);
      if last.event.Restart? {
        BootTerms(w.tables, w.heartbeat, last.now, last.event.timeout, key);
        RestartIs(w, last.event.timeout, last.live, last.now);
      } else {
        StepFewer(w, last.event, last.live, last.now);
      }
    }
  }

  lemma RestartIs(w: World, timeout: nat, live: set<Handle>, now: nat)
    ensures Step(w, Restart(timeout), live, now) == Boot(w.tables, w.heartbeat, now, timeout)
  {
    hide Boot;
  }
}
