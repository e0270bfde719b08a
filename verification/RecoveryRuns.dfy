/** Session recovery over whole runs with logins, joins, reports, disconnects,
    expiry, pruning and restarts. */
module RecoveryRuns {
  import opened Ordering
  import opened RoomsSpec
  import opened RoomsFacts
  import opened RoomsRelease
  import opened RoomsPrune
  import opened RoomsQuiet
  import opened SessionTables
  import opened RecoverySpec
  import opened RecoveryFacts
  import opened RecoveryGrants

  lemma ReadySame(t: Ticket, user: string, h: Handle)
    ensures var s := Ready(t, user, h);
            s.host == t.host && s.token == t.token && s.recovering == t.recovering
  {
  }

  lemma ReportAgrees(w: World, h: Handle, key: Pair, token: nat, alive: bool, live: set<Handle>, now: nat)
    requires Agreed(w)
    ensures Agreed(Report(w, h, key, token, alive, live, now))
  {
    hide Agreed;
    hide Dismiss;
    hide Forget;
    hide Resume;
    if Accepts(w, h, key, token, now) {
      WaitingIsLedgered(w, key);
      RowNamed(w, key);
      DismissForget(w, key);
      var t := Ready(w.tickets[key], UserOf(w.rooms.users, h), h);
      hide Ready;
      ReadySame(w.tickets[key], UserOf(w.rooms.users, h), h);
      ReadyAgrees(w, key, t);
      ResumeAgrees(w.(tickets := w.tickets[key := t]), key, live);
    }
    hide Accepts;
  }

  lemma LoginAgrees(w: World, h: Handle, user: string, device: string, capable: bool, live: set<Handle>, now: nat)
    requires Agreed(w)
    ensures Agreed(LoginStep(w, h, user, device, capable, live, now))
  {
    var a := BindUser(w.rooms, user, h, device, now, live).0;
    NoNotes(w.rooms);
    BindUserKeeps(Members(w.rooms.guests), w.rooms, user, h, device, now, live);
    assert a.notes == [];
    assert BindUser(w.rooms, user, h, device, now, live).1 ==> user != "";
    hide BindUser;
    hide Valid;
    hide Members;
    hide Replayed;
    assert Agreed(w.(rooms := a)) by {
      hide GoodTables;
      hide Saved;
      hide Waiting;
      hide Accounted;
    }
    if BindUser(w.rooms, user, h, device, now, live).1 {
      BindHostAgrees(w.(rooms := a), user);
      var b := w.(rooms := BindHost(a, user, user).0);
      hide Agreed;
      hide BindHost;
      hide Answers;
      LegacyShrinks(b, Announce(b, h, capable, live, now).legacy, Announce(b, h, capable, live, now).capable);
    }
    hide Agreed;
    hide BindHost;
  }

  lemma LeaveAgrees(w: World, guest: string, room: string)
    requires Agreed(w)
    ensures Agreed(Settle(w, ReleaseRoom(w.rooms, room)))
    ensures Agreed(Settle(w, DropGuest(w.rooms, guest, room).0))
  {
    DropExactly(w.rooms, (room, guest));
    NoNotes(w.rooms);
    ReleaseRoomValid(Members(w.rooms.guests), w.rooms, room);
    QuietRoom(w.rooms, room);
    SettleReleases(w, ReleaseRoom(w.rooms, room));
    SettleReleases(w, DropGuest(w.rooms, guest, room).0);
    hide Agreed;
    hide Settle;
  }

  lemma ClosedAgrees(w: World, h: Handle)
    requires Agreed(w)
    ensures Agreed(Settle(w, ReleaseSession(w.rooms, h).0))
  {
    NoNotes(w.rooms);
    SessionEnds(Members(w.rooms.guests), w.rooms, h);
    QuietSession(w.rooms, h);
    hide ReleaseSession;
    SettleReleases(w, ReleaseSession(w.rooms, h).0);
    hide Agreed;
  }

  lemma SweepAgrees(w: World, live: set<Handle>)
    requires Agreed(w)
    ensures Agreed(Settle(w, Prune(w.rooms, live).0))
  {
    NoNotes(w.rooms);
    PruneExactly(Members(w.rooms.guests), w.rooms, live);
    QuietPrune(w.rooms, live);
    hide Prune;
    SettleReleases(w, Prune(w.rooms, live).0);
    hide Agreed;
  }

  lemma NoRows(t: Tables, room: string)
    requires forall k :: k in t.ledger ==> k.0 != room
    ensures EndRoom(t, room).0 == t
  {
    assert RowsOf(t, room) == {};
    assert Erase(t, {}) == t;
  }

  lemma NotInRoom(guests: map<string, seq<string>>, room: string)
    requires room !in guests
    ensures forall k :: k in Members(guests) ==> k.0 != room
  {
  }

  /** No membership and no recovering ticket means no row. */
  lemma RoomWithoutRows(w: World, room: string)
    requires Agreed(w) && room !in w.rooms.guests
    requires forall k :: k in Waiting(w.tickets) ==> k.0 != room
    ensures EndRoom(w.tables, room).0 == w.tables
  {
    NotInRoom(w.rooms.guests, room);
    hide Calm;
    hide Members;
    hide GoodTables;
    hide Saved;
    hide Waiting;
    NoRows(w.tables, room);
    hide EndRoom;
  }

  /** An administrator only closes rooms without recovering sessions. */
  lemma NoneRecovering(w: World, room: string)
    requires Agreed(w)
    requires !RoomRecovering(w, room)
    ensures forall k :: k in Waiting(w.tickets) ==> k.0 != room
  {
    forall k | k in Waiting(w.tickets)
      ensures k.0 != room
    {
      WaitingIsLedgered(w, k);
      assert k == (k.0, k.1);
      assert Recovering(w, (k.0, k.1));
    }
  }

  lemma AdminAgrees(w: World, room: string)
    requires Agreed(w)
    ensures Agreed(AdminStep(w, room))
  {
    if room != "" && !RoomRecovering(w, room) {
      NoneRecovering(w, room);
      LeaveAgrees(w, "", room);
      GoodAt(w.rooms.hosts, w.rooms.guests, room);
      var a := if room in w.rooms.hosts then Settle(w, ReleaseRoom(w.rooms, room)) else w;
      assert room !in a.rooms.guests && a.tickets == w.tickets;
      hide Agreed;
      hide Settle;
      hide Waiting;
      hide GoodList;
      hide ReleaseRoom;
      hide RoomRecovering;
      RoomWithoutRows(a, room);
      assert AdminStep(w, room) == a by {
        hide EndRoom;
      }
    }
    hide Agreed;
    hide EndRoom;
    hide Settle;
    hide ReleaseRoom;
    hide RoomRecovering;
  }

  // ----------------------------------------------------------------- startup

  /** Rooms before the callback is installed. */
  ghost predicate Silent(r: Rooms) {
    Valid(r) && !r.watched && r.notes == [] && Keyed(r.hosts)
  }

  lemma RestoreHost(r: Rooms, room: string)
    requires Silent(r) && room != "" && !Temporary(room)
    ensures var s := BindHost(r, room, room).0;
            Silent(s) && room in s.hosts && s.hosts[room] == room && s.guests == r.guests
  {
    BindHostKeeps({}, r, room, room);
    hide Valid;
    hide Temporary;
  }

  lemma RestoreGuest(r: Rooms, guest: string, room: string)
    requires Silent(r) && room in r.hosts && r.hosts[room] == room && Rowable((room, guest))
    ensures var s := AddGuest(r, guest, room).0;
            Silent(s) && Members(s.guests) == Members(r.guests) + {(room, guest)}
  {
    AddGuestKeeps({}, r, guest, room);
    AddGuestMembers(r, guest, room);
    InMembers(r.guests, room, guest);
    hide Valid;
    hide Members;
    if !AddGuest(r, guest, room).1 {
      assert Members(r.guests) + {} == Members(r.guests) + {(room, guest)};
    }
  }

  ghost function Unmanaged(rows: seq<Pair>, t: Tables): set<Pair> {
    set k | k in rows && k !in t.saved
  }

  lemma {:induction false} RestoreKeeps(r: Rooms, rows: seq<Pair>, t: Tables)
    requires GoodTables(t) && (forall k :: k in rows ==> k in t.ledger) && Silent(r)
    ensures var s := Restore(r, rows, t);
            Silent(s) && Members(s.guests) == Members(r.guests) + Unmanaged(rows, t)
    decreases |rows|
  {
    hide Silent;
    hide Members;
    hide Temporary;
    if rows == [] {
      assert Unmanaged(rows, t) == {};
    } else {
      var key := rows[0];
      assert key in t.ledger && GoodRow(key, t.ledger[key]);
      assert key == (key.0, key.1) && Rowable(key);
      var a := BindHost(r, key.0, key.0).0;
      RestoreHost(r, key.0);
      hide BindHost;
      var b := if key in t.saved then a else AddGuest(a, key.1, key.0).0;
      if key !in t.saved {
        RestoreGuest(a, key.1, key.0);
      }
      hide AddGuest;
      RestoreKeeps(b, rows[1..], t);
      assert Unmanaged(rows, t) == Unmanaged(rows[1..], t) + (if key in t.saved then {} else {key});
    }
  }

  lemma NoRoomsSilent()
    ensures Silent(NO_ROOMS) && Members(NO_ROOMS.guests) == {}
  {
  }

  lemma WatchedCalm(r: Rooms)
    requires Silent(r)
    ensures Calm(r.(watched := true))
  {
  }

  lemma ReopenGood(t: Tables, heartbeat: nat, now: nat)
    requires GoodTables(t)
    ensures var u := Reopen(t, heartbeat, now);
            && GoodTables(u) && u.saved.Keys <= u.ledger.Keys
            && u.ledger == (if heartbeat > 0 && heartbeat + RECOVERY_WINDOW >= now then t.ledger else map[])
            && (forall k :: k in u.saved <==> k in t.saved && k in u.ledger)
            && (forall k :: k in u.saved ==> u.saved[k] == t.saved[k])
  {
  }

  lemma RowsInOrder(ledger: set<Pair>)
    ensures forall k :: k in SortedPairs(ledger) <==> k in ledger
  {
    hide SortedPairs;
    forall k
      ensures k in SortedPairs(ledger) <==> k in ledger
    {
      SortedPairsHas(ledger, k);
    }
  }

  lemma RestoreAllKeeps(t: Tables)
    requires GoodTables(t)
    ensures Silent(RestoreAll(t)) && Members(RestoreAll(t).guests) == t.ledger.Keys - t.saved.Keys
  {
    hide Restore;
    hide Silent;
    hide Members;
    hide SortedPairs;
    hide GoodTables;
    var rows := SortedPairs(t.ledger.Keys);
    RowsInOrder(t.ledger.Keys);
    NoRoomsSilent();
    RestoreKeeps(NO_ROOMS, rows, t);
    assert Unmanaged(rows, t) == t.ledger.Keys - t.saved.Keys;
  }

  lemma ReloadedKeeps(t: Tables, deadline: nat)
    requires GoodTables(t) && t.saved.Keys <= t.ledger.Keys
    ensures Saved(t, Reloaded(t, deadline)) && Waiting(Reloaded(t, deadline)) == t.saved.Keys
    ensures Unticketed(t, deadline).Keys == t.ledger.Keys - t.saved.Keys
    ensures forall k :: k in Unticketed(t, deadline) ==> Unticketed(t, deadline)[k].host == k.0
  {
  }

  lemma StartedAgrees(t: Tables, r: Rooms, deadline: nat, now: nat)
    requires GoodTables(t) && t.saved.Keys <= t.ledger.Keys
    requires Calm(r) && Members(r.guests) == t.ledger.Keys - t.saved.Keys
    ensures Agreed(World(r, t, Reloaded(t, deadline), Unticketed(t, deadline), {}, now))
  {
    hide GoodTables;
    hide Calm;
    hide Members;
    hide Saved;
    hide Waiting;
    hide Reloaded;
    hide Unticketed;
    ReloadedKeeps(t, deadline);
  }

  /** A start on any well-formed tables, whatever was interrupted before it:
      rows without a ticket are memberships again, the others wait. */
  lemma BootAgrees(tables: Tables, heartbeat: nat, now: nat, timeout: nat)
    requires GoodTables(tables)
    ensures var w := Boot(tables, heartbeat, now, timeout);
            && Agreed(w)
            && w.tables == Reopen(tables, heartbeat, now)
            && Members(w.rooms.guests) == w.tables.ledger.Keys - w.tables.saved.Keys
            && Waiting(w.tickets) == w.tables.saved.Keys
  {
    hide Reopen;
    hide Agreed;
    hide GoodTables;
    hide Silent;
    hide Calm;
    hide Members;
    hide RestoreAll;
    hide Saved;
    hide Waiting;
    hide Reloaded;
    hide Unticketed;
    ReopenGood(tables, heartbeat, now);
    var t := Reopen(tables, heartbeat, now);
    RestoreAllKeeps(t);
    WatchedCalm(RestoreAll(t));
    StartedAgrees(t, RestoreAll(t).(watched := true), now + timeout, now);
    ReloadedKeeps(t, now + timeout);
  }

  // -------------------------------------------------------------------- runs

  lemma HeartbeatAgrees(w: World, now: nat)
    requires Agreed(w)
    ensures Agreed(w.(heartbeat := now))
  {
  }

  lemma AgreedTables(w: World)
    requires Agreed(w)
    ensures GoodTables(w.tables)
  {
    hide GoodTables;
  }

  lemma StepAgrees(w: World, e: Event, live: set<Handle>, now: nat)
    requires Agreed(w)
    ensures Agreed(Step(w, e, live, now))
  {
    hide Agreed;
    hide GoodTables;
    HeartbeatAgrees(w, now);
    AgreedTables(w);
    hide LoginStep;
    hide JoinStep;
    hide Report;
    hide Expire;
    hide AdminStep;
    hide Boot;
    hide Settle;
    hide ReleaseSession;
    hide Prune;
    hide ReleaseRoom;
    hide DropGuest;
    hide Authorized;
    hide InTransmission;
    match e
    case Login(h, user, device, capable) => LoginAgrees(w, h, user, device, capable, live, now);
    case Join(h, user, room, token) => JoinAgrees(w, h, user, room, token, live);
    case Leave(h, user, room) => LeaveAgrees(w, user, room);
    case Kick(h, user, remote, room) => LeaveAgrees(w, remote, room);
    case Reported(h, key, token, alive) => ReportAgrees(w, h, key, token, alive, live, now);
    case Closed(h) => ClosedAgrees(w, h);
    case Heartbeat => ExpireAgrees(w.(heartbeat := now), live, now);
    case Sweep => SweepAgrees(w, live);
    case AdminDisconnect(room) => AdminAgrees(w, room);
    case Restart(timeout) => BootAgrees(w.tables, w.heartbeat, now, timeout);
  }

  lemma {:induction false} RunAgrees(w: World, events: seq<Timed>)
    requires Agreed(w)
    ensures Agreed(Run(w, events))
    decreases |events|
  {
    hide Agreed;
    hide Step;
    if events != [] {
      var last := events[|events| - 1];
      RunAgrees(w, events[..|events| - 1]);
      StepAgrees(Run(w, events[..|events| - 1]), last.event, last.live, last.now);
    }
  }

  /** From any start on well-formed tables, through any events, crashes and
      restarts included: the keys of the session ledger are exactly the
      memberships in memory plus the sessions still recovering, and no session is
      counted twice. */
  lemma RunLedger(tables: Tables, heartbeat: nat, now: nat, timeout: nat, events: seq<Timed>)
    requires GoodTables(tables)
    ensures var w := Run(Boot(tables, heartbeat, now, timeout), events);
            && w.tables.ledger.Keys == Members(w.rooms.guests) + Waiting(w.tickets)
            && Members(w.rooms.guests) !! Waiting(w.tickets)
            && Valid(w.rooms) && GoodTables(w.tables)
  {
    BootAgrees(tables, heartbeat, now, timeout);
    RunAgrees(Boot(tables, heartbeat, now, timeout), events);
    hide Run;
    hide Boot;
    hide Valid;
    hide GoodTables;
    hide Members;
    hide Waiting;
    hide Saved;
  }

  /** A restart within the recovery window loses no session: what was a member
      or recovering before is one of the two after, and nothing is added. */
  lemma RestartKeepsSessions(w: World, live: set<Handle>, now: nat, timeout: nat)
    requires Agreed(w)
    ensures var v := Step(w, Restart(timeout), live, now);
            Members(v.rooms.guests) + Waiting(v.tickets) ==
            if w.heartbeat > 0 && w.heartbeat + 120 >= now then Members(w.rooms.guests) + Waiting(w.tickets) else {}
  {
    hide Members;
    hide Waiting;
    hide Calm;
    hide GoodTables;
    hide Saved;
    hide Boot;
    hide Reopen;
    BootAgrees(w.tables, w.heartbeat, now, timeout);
    ReopenGood(w.tables, w.heartbeat, now);
    var v := Boot(w.tables, w.heartbeat, now, timeout);
    assert Members(v.rooms.guests) + Waiting(v.tickets) == v.tables.ledger.Keys;
    hide Agreed;
  }
}
