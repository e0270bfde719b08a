/** Steps that add a membership: password joins and resumed sessions. */
module RecoveryGrants {
  import opened Ordering
  import opened RoomsSpec
  import opened RoomsFacts
  import opened SessionTables
  import opened RecoverySpec
  import opened RecoveryFacts

  // ----------------------------------------------------------------- granting

  /** The pair could be a row: its room carries its host's name. */
  ghost predicate Rowable(key: Pair) {
    key.0 != "" && key.1 != "" && key.0 != key.1 && !Temporary(key.0)
  }

  lemma GrantIs(r: Rooms, guest: string, room: string, h: Handle, live: set<Handle>)
    requires Calm(r)
    ensures var g := GrantGuest(r, guest, room, h, live);
            if g.1 then Granted(r, g.0, guest, room, h, live) && Valid(g.0) else g.0 == r
  {
    GrantGuestEffect(r, guest, room, h, live);
    NoNotes(r);
    GrantGuestKeeps(Members(r.guests), r, guest, room, h, live);
    hide GoodRooms;
    hide Indexed;
    hide GoodGrants;
    hide Replayed;
    hide Granted;
    hide GrantGuest;
  }

  /** The row of `key` exists, added if it was missing; nothing else changed. */
  ghost predicate Rowed(t: Tables, u: Tables, key: Pair) {
    && u.saved == t.saved && key in u.ledger
    && u.ledger == if key in t.ledger then t.ledger else t.ledger[key := key.0]
  }

  lemma StartRows(t: Tables, key: Pair)
    requires Rowable(key)
    ensures var s := StartSession(t, key.0, key.0, key.1);
            s.1 && Rowed(t, s.0, key) && StartSession(s.0, key.0, key.0, key.1).0 == s.0
  {
    assert (key.0, key.1) == key;
  }

  /** At most the start of the membership is notified. */
  lemma StartDelivered(t: Tables, notes: seq<Note>, key: Pair)
    requires Rowable(key) && (notes == [] || notes == [Note(key.0, key.0, key.1, true)])
    ensures var started := StartSession(Deliver(t, notes), key.0, key.0, key.1);
            started.1 && Rowed(t, started.0, key)
  {
    StartRows(t, key);
    StartRows(StartSession(t, key.0, key.0, key.1).0, key);
    if notes != [] {
      var n := notes[0];
      assert notes[1..] == [];
      assert Deliver(t, notes) == Deliver(Record(t, n), []);
      assert Deliver(t, notes) == StartSession(t, key.0, key.0, key.1).0;
    }
    hide Deliver;
    hide StartSession;
  }

  /** Settling a granted membership and starting its session writes its row. */
  lemma GrantSettles(w: World, r: Rooms, key: Pair, h: Handle, live: set<Handle>)
    requires Agreed(w) && Valid(r) && Granted(w.rooms, r, key.1, key.0, h, live)
    ensures Rowable(key) && w.rooms.hosts[key.0] == key.0
    ensures var s := Settle(w, r);
            var started := StartSession(s.tables, key.0, key.0, key.1);
            && Calm(s.rooms) && Members(s.rooms.guests) == Members(w.rooms.guests) + {key}
            && started.1 && Rowed(w.tables, started.0, key)
            && s.rooms.grants == r.grants && s.rooms.users == w.rooms.users && s.rooms.routes == w.rooms.routes
  {
    hide Deliver;
    hide Valid;
    hide Members;
    hide GrantedOn;
    hide Rowed;
    hide StartSession;
    hide GoodTables;
    hide Saved;
    hide Accounted;
    hide Waiting;
    HostNamed(w.rooms, key.0);
    assert (key.0, key.1) == key;
    assert Rowable(key);
    SettledValid(r);
    assert r.notes == [] || r.notes == [Note(key.0, key.0, key.1, true)];
    StartDelivered(w.tables, r.notes, key);
    hide Rowable;
  }

  lemma HostNamed(r: Rooms, room: string)
    requires Calm(r) && room in r.hosts
    ensures room != "" && r.hosts[room] == room && !Temporary(room)
  {
  }

  lemma RowedGood(t: Tables, u: Tables, key: Pair)
    requires GoodTables(t) && Rowed(t, u, key) && Rowable(key)
    ensures GoodTables(u) && u.ledger.Keys == t.ledger.Keys + {key}
  {
  }

  lemma SavedWithout(t: Tables, u: Tables, tickets: map<Pair, Ticket>, key: Pair)
    requires Saved(t, tickets) && Rowed(t, u, key)
    ensures Saved(u.(saved := u.saved - {key}), tickets - {key})
    ensures key !in tickets ==> u.saved - {key} == u.saved && tickets - {key} == tickets
  {
  }

  lemma SavedWith(t: Tables, u: Tables, tickets: map<Pair, Ticket>, key: Pair, ticket: Ticket)
    requires Saved(t, tickets) && Rowed(t, u, key) && ticket.host == key.0
    ensures Saved(u.(saved := u.saved[key := SavedTicket(ticket.host, ticket.token)]), tickets[key := ticket])
  {
  }

  lemma WaitingWith(tickets: map<Pair, Ticket>, key: Pair, ticket: Ticket)
    ensures Waiting(tickets[key := ticket]) == Waiting(tickets) - {key} + (if ticket.recovering then {key} else {})
  {
  }

  lemma AccountedMore(ledger: set<Pair>, members: set<Pair>, waiting: set<Pair>, key: Pair)
    requires Accounted(ledger, members, waiting)
    ensures Accounted(ledger + {key}, members + {key}, waiting - {key})
  {
  }

  /** `s` is `w` after the membership `key` and its row were added. */
  ghost predicate Entered(w: World, s: World, key: Pair) {
    && s == w.(rooms := s.rooms, tables := s.tables) && Calm(s.rooms) && Rowable(key)
    && Members(s.rooms.guests) == Members(w.rooms.guests) + {key} && Rowed(w.tables, s.tables, key)
  }

  lemma ForgetNothing(w: World, s: World, key: Pair)
    requires Agreed(w) && Entered(w, s, key)
    ensures key !in s.tickets && key !in s.legacy ==> Forget(s, key) == s
  {
    hide Calm;
    hide Members;
    hide GoodTables;
    hide Waiting;
    hide Accounted;
    if key !in s.tickets && key !in s.legacy {
      assert key !in s.tables.saved;
      assert s.tables.saved - {key} == s.tables.saved && s.tickets - {key} == s.tickets && s.legacy - {key} == s.legacy;
    }
  }

  lemma EnteredForget(w: World, s: World, key: Pair)
    requires Agreed(w) && Entered(w, s, key)
    ensures Agreed(Forget(s, key))
    ensures key !in s.tickets && key !in s.legacy ==> Forget(s, key) == s
  {
    hide Calm;
    hide Members;
    hide Saved;
    hide Waiting;
    hide Accounted;
    hide Rowed;
    ForgetNothing(w, s, key);
    RowedGood(w.tables, s.tables, key);
    SavedWithout(w.tables, s.tables, w.tickets, key);
    WaitingLess(w.tickets, key);
    AccountedMore(w.tables.ledger.Keys, Members(w.rooms.guests), Waiting(w.tickets), key);
    GoodSaved(s.tables, s.tables.saved - {key});
    hide GoodTables;
  }

  lemma EnteredTicket(w: World, s: World, key: Pair, ticket: Ticket)
    requires Agreed(w) && Entered(w, s, key) && ticket.host == key.0 && !ticket.recovering
    ensures Agreed(PutTicket(s, key, ticket))
  {
    hide Calm;
    hide Members;
    RowedGood(w.tables, s.tables, key);
    SavedWith(w.tables, s.tables, w.tickets, key, ticket);
    WaitingWith(w.tickets, key, ticket);
    AccountedMore(w.tables.ledger.Keys, Members(w.rooms.guests), Waiting(w.tickets), key);
    GoodSaved(s.tables, s.tables.saved[key := SavedTicket(ticket.host, ticket.token)]);
    hide GoodTables;
    hide Saved;
    hide Waiting;
    hide Accounted;
    hide Rowed;
  }

  /** Once the membership and the row are there, issuing or dropping a ticket
      brings everything back in step. */
  lemma IssueAgrees(w: World, s: World, key: Pair, h: Handle, token: nat)
    requires Agreed(w) && Entered(w, s, key)
    ensures Agreed(Issue(s, key.0, key.0, key.1, h, token))
  {
    hide Agreed;
    hide Entered;
    hide Forget;
    hide PutTicket;
    hide Route;
    assert (key.0, key.1) == key;
    var left := s.legacy - {key};
    var v, a := w.(legacy := left), s.(legacy := left);
    EnteredLegacy(w, s, key, left);
    LegacyShrinks(w, left, w.capable);
    EnteredForget(v, a, key);
    EnteredTicket(v, a, key, Ticket(key.0, token, false, false, false, 0, Route(s.rooms, key.0), Some(h)));
  }

  lemma EnteredLegacy(w: World, s: World, key: Pair, left: map<Pair, Legacy>)
    requires Entered(w, s, key)
    ensures Entered(w.(legacy := left), s.(legacy := left), key)
    ensures s.legacy == w.legacy
  {
    hide Calm;
    hide Members;
    hide Rowed;
    hide Rowable;
  }

  lemma GoodSaved(t: Tables, saved: map<Pair, SavedTicket>)
    requires GoodTables(t)
    requires forall k :: k in saved ==> saved[k].host == k.0
    ensures GoodTables(t.(saved := saved))
  {
  }

  lemma JoinAgrees(w: World, h: Handle, user: string, room: string, token: nat, live: set<Handle>)
    requires Agreed(w)
    ensures Agreed(JoinStep(w, h, user, room, token, live))
  {
    hide Issue;
    hide Members;
    GrantIs(w.rooms, user, room, h, live);
    var r := GrantGuest(w.rooms, user, room, h, live).0;
    if GrantGuest(w.rooms, user, room, h, live).1 {
      hide GrantGuest;
      GrantSettles(w, r, (room, user), h, live);
      var s := Settle(w, r);
      var t := s.(tables := StartSession(s.tables, room, room, user).0);
      IssueAgrees(w, t, (room, user), h, token);
    }
    hide GrantGuest;
    hide Agreed;
    hide Settle;
    hide Granted;
    hide Valid;
    hide StartSession;
    hide Rowed;
  }

  // ------------------------------------------------------------- resuming

  lemma BindHostAgrees(w: World, room: string)
    requires Agreed(w) && room != ""
    ensures Agreed(w.(rooms := BindHost(w.rooms, room, room).0))
  {
    NoNotes(w.rooms);
    BindHostKeeps(Members(w.rooms.guests), w.rooms, room, room);
    hide Valid;
    hide Members;
    hide Temporary;
    hide Replayed;
    hide GoodTables;
    hide Saved;
    hide Waiting;
    hide Accounted;
  }

  lemma TicketSaved(t: Tables, tickets: map<Pair, Ticket>, key: Pair, ticket: Ticket)
    requires Saved(t, tickets) && key in tickets
    requires ticket.host == tickets[key].host && ticket.token == tickets[key].token && ticket.recovering == tickets[key].recovering
    ensures Saved(t, tickets[key := ticket]) && Waiting(tickets[key := ticket]) == Waiting(tickets)
  {
  }

  lemma ReadyAgrees(w: World, key: Pair, ticket: Ticket)
    requires Agreed(w) && key in w.tickets
    requires ticket.host == w.tickets[key].host && ticket.token == w.tickets[key].token && ticket.recovering == w.tickets[key].recovering
    ensures Agreed(w.(tickets := w.tickets[key := ticket]))
  {
    hide Calm;
    hide GoodTables;
    hide Saved;
    hide Waiting;
    hide Accounted;
    hide Members;
    TicketSaved(w.tables, w.tickets, key, ticket);
  }

  lemma SavedMatches(w: World, key: Pair)
    requires Agreed(w) && key in w.tickets && key in w.tables.ledger
    ensures w.tickets[key].host == key.0
    ensures key in w.tables.saved && w.tables.saved[key] == SavedTicket(key.0, w.tickets[key].token)
  {
  }

  lemma ReseatIs(w: World, key: Pair, r: Rooms, saved: SavedTicket)
    requires key in w.tickets && w.tickets[key].host == key.0
    requires saved == SavedTicket(key.0, w.tickets[key].token) && key in w.tables.saved && w.tables.saved[key] == saved
    requires var u := StartSession(Settle(w, r).tables, key.0, key.0, key.1);
             u.1 && u.0.saved == w.tables.saved
    ensures var s := Settle(w, r);
            var u := s.(tables := StartSession(s.tables, key.0, key.0, key.1).0);
            Reseat(w, key, r) == PutTicket(u, key, w.tickets[key].(recovering := false))
  {
    assert w.tables.saved[key := saved] == w.tables.saved;
    hide Deliver;
    hide StartSession;
  }

  lemma ReseatAgrees(w: World, key: Pair, r: Rooms, h: Handle, live: set<Handle>)
    requires Agreed(w) && key in w.tickets && key in w.tables.ledger
    requires Valid(r) && Granted(w.rooms, r, key.1, key.0, h, live)
    ensures Agreed(Reseat(w, key, r))
  {
    hide Valid;
    hide Granted;
    hide Agreed;
    hide Calm;
    hide Members;
    hide StartSession;
    hide PutTicket;
    hide Reseat;
    hide Deliver;
    SavedMatches(w, key);
    GrantSettles(w, r, key, h, live);
    var s := Settle(w, r);
    var u := s.(tables := StartSession(s.tables, key.0, key.0, key.1).0);
    ReseatIs(w, key, r, w.tables.saved[key]);
    EnteredTicket(w, u, key, w.tickets[key].(recovering := false));
  }

  lemma ResumeAgrees(w: World, key: Pair, live: set<Handle>)
    requires Agreed(w) && key in w.tickets && key in w.tables.ledger
    ensures Agreed(Resume(w, key, live))
  {
    if Resumable(w, key, live) {
      var at := w.tickets[key].guestAt.value;
      SavedMatches(w, key);
      RowNamed(w, key);
      BindHostAgrees(w, key.0);
      var a := w.(rooms := if key.0 in w.rooms.hosts then w.rooms else BindHost(w.rooms, key.0, key.0).0);
      assert Agreed(a);
      GrantIs(a.rooms, key.1, key.0, at, live);
      hide Agreed;
      hide BindHost;
      if GrantGuest(a.rooms, key.1, key.0, at, live).1 {
        ReseatAgrees(a, key, GrantGuest(a.rooms, key.1, key.0, at, live).0, at, live);
      }
      hide GrantGuest;
      assert forall r :: Reseat(a, key, r) == Reseat(w, key, r);
      hide Reseat;
      hide Granted;
      hide Valid;
      hide Calm;
    }
  }
}
