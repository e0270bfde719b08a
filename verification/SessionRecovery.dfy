/** `SessionRecovery` itself, working on the rooms and on the session store that
    the rooms' notifications reach. */
module SessionRecoveries {
  import opened Ordering
  import opened SessionTables
  import opened TransmissionManagers
  import R = RoomsSpec
  import S = RecoverySpec

  // What was notified earlier does not influence an operation.

  lemma DropNotes(r: R.Rooms, guest: string, room: string)
    ensures var s := R.DropGuest(r, guest, room).0;
            var t := R.DropGuest(r.(notes := []), guest, room).0;
            s.(notes := []) == t.(notes := []) && s.notes == r.notes + t.notes
  {
    hide R.Revoke;
    hide R.PutGuests;
    hide R.Without;
    assert r.notes + [] == r.notes;
    var n := R.Note(room, R.HostOf(r, room), guest, false);
    assert r.notes + ([] + [n]) == r.notes + [n];
  }

  lemma AddNotes(r: R.Rooms, guest: string, room: string)
    ensures var s := R.AddGuest(r, guest, room);
            var t := R.AddGuest(r.(notes := []), guest, room);
            && s.1 == t.1 && s.0.(notes := []) == t.0.(notes := []) && s.0.notes == r.notes + t.0.notes
            && (!t.1 ==> t.0 == r.(notes := []))
  {
    assert r.notes + [] == r.notes;
  }

  lemma GrantNotes(r: R.Rooms, guest: string, room: string, h: R.Handle, live: set<R.Handle>)
    ensures var s := R.GrantGuest(r, guest, room, h, live);
            var t := R.GrantGuest(r.(notes := []), guest, room, h, live);
            && s.1 == t.1 && s.0.(notes := []) == t.0.(notes := []) && s.0.notes == r.notes + t.0.notes
            && (!t.1 ==> t.0 == r.(notes := []))
  {
    hide R.AddGuest;
    hide R.PutGrant;
    hide R.Guests;
    hide R.UserOf;
    AddNotes(r, guest, room);
    assert r.notes + [] == r.notes;
    var a, b := R.AddGuest(r, guest, room).0, R.AddGuest(r.(notes := []), guest, room).0;
    assert b == a.(notes := b.notes);
  }

  lemma AnswersSame(w: S.World, v: S.World, user: string, key: Pair, live: set<R.Handle>, now: nat)
    requires v == w.(legacy := v.legacy, capable := v.capable)
    requires key in w.legacy && key in v.legacy && w.legacy[key] == v.legacy[key]
    ensures S.Answers(w, user, key, live, now) == S.Answers(v, user, key, live, now)
  {
  }

  lemma AllAnswersSame(w: S.World, capable: set<R.Handle>, user: string, live: set<R.Handle>, now: nat)
    ensures forall k :: k in w.legacy ==> S.Answers(w, user, k, live, now) == S.Answers(w.(capable := capable), user, k, live, now)
  {
    hide S.Answers;
    forall k | k in w.legacy
      ensures S.Answers(w, user, k, live, now) == S.Answers(w.(capable := capable), user, k, live, now)
    {
      AnswersSame(w, w.(capable := capable), user, k, live, now);
    }
  }

  lemma AnnounceIs(w: S.World, h: R.Handle, resumes: bool, keys: seq<Pair>, live: set<R.Handle>, now: nat)
    requires forall k :: k in w.legacy ==> k in keys
    ensures var v := w.(capable := if resumes then w.capable + {h} else w.capable - {h});
            var user := R.UserOf(w.rooms.users, h);
            v.(legacy := map k | k in v.legacy && !(k in keys && S.Answers(v, user, k, live, now)) :: v.legacy[k])
            == S.Announce(w, h, resumes, live, now)
  {
    hide S.Answers;
    hide R.UserOf;
    var user := R.UserOf(w.rooms.users, h);
    AllAnswersSame(w, if resumes then w.capable + {h} else w.capable - {h}, user, live, now);
  }

  class SessionRecovery {
    const db: SessionStore
    const transmission: TransmissionManager
    var tickets: map<Pair, S.Ticket>
    var legacy: map<Pair, S.Legacy>
    var capable: set<R.Handle>

    /** What recovery works on; the process heartbeat is not its concern. */
    ghost function State(): S.World
      reads this, db, transmission
    {
      S.World(transmission.State().(notes := []), db.State(), tickets, legacy, capable, 0)
    }

    /** The rooms are unlocked and notify this store. */
    ghost predicate Valid()
      reads this, transmission
    {
      transmission.lockDepth == 0 && transmission.Ready() && transmission.callback == db
    }

    /** Loads the saved tickets and the sessions without one. */
    constructor (db: SessionStore, transmission: TransmissionManager, now: nat, timeout: nat)
      modifies db`saved
      ensures this.db == db && this.transmission == transmission
      ensures db.ledger == old(db.ledger) && db.saved == map k | k in old(db.saved) && k in db.ledger :: old(db.saved[k])
      ensures tickets == S.Reloaded(db.State(), now + timeout) && legacy == S.Unticketed(db.State(), now + timeout)
      ensures capable == {}
    {
      this.db := db;
      this.transmission := transmission;
      capable := {};
      var kept := map k | k in db.saved && k in db.ledger :: db.saved[k];
      tickets := map k | k in kept :: S.Ticket(kept[k].host, kept[k].token, false, false, true, now + timeout, None, None);
      legacy := map k | k in db.ledger && k !in kept :: S.Legacy(db.ledger[k], now + timeout);
      new;
      db.saved := kept;
    }

    method Exists(key: Pair, host: string) returns (found: bool)
      ensures found == S.Exists(db.State(), key, host)
    {
      found := key in db.ledger && db.ledger[key] == host;
    }

    method Remove(key: Pair)
      modifies this`tickets, this`legacy, db`saved
      ensures State() == S.Forget(old(State()), key)
    {
      db.Forget(key);
      tickets := tickets - {key};
      legacy := legacy - {key};
    }

    method Manages(key: Pair) returns (managed: bool)
      ensures managed == (key in tickets)
    {
      managed := key in tickets;
    }

    method IsRecovering(key: Pair) returns (recovering: bool)
      ensures recovering == S.Recovering(State(), key)
    {
      recovering := key in legacy || (key in tickets && tickets[key].recovering);
    }

    /** Ends the membership, if any, and the session row. */
    method Dismiss(key: Pair)
      requires Valid()
      modifies db, transmission
      ensures Valid() && State() == S.Dismiss(old(State()), key)
    {
      DropNotes(transmission.State(), key.1, key.0);
      hide R.DropGuest;
      var _ := transmission.ReleaseGuestFromTransmission(key.1, key.0);
      var _ := db.EndRemoteControlSession(key.0, key.1);
      hide Deliver;
      hide EndSession;
    }

    method Held(at: Option<R.Handle>, id: string, live: set<R.Handle>) returns (held: bool)
      ensures held == S.Held(transmission.State(), at, id, live)
    {
      held := at.Some? && at.value in live && R.UserOf(transmission.users, at.value) == id;
    }

    /** Writes the confirmation of a legacy session whose two ends are back. */
    method ConfirmLegacy(key: Pair, live: set<R.Handle>, now: nat) returns (confirmed: bool)
      requires Valid() && key in legacy
      modifies db
      ensures Valid() && State() == old(State()) && confirmed == S.Confirmed(State(), key, live, now)
    {
      var host := legacy[key].host;
      var found := Exists(key, host);
      if now > legacy[key].deadline || !found {
        return false;
      }
      var hostAt := transmission.GetUserHandle(host);
      var guestAt := transmission.GetUserHandle(key.1);
      var hostBack := Held(hostAt, host, live);
      var guestBack := Held(guestAt, key.1, live);
      if !hostBack || !guestBack {
        return false;
      }
      confirmed := db.StartRemoteControlSession(key.0, host, key.1);
    }

    /** A connection has logged in: its user's legacy sessions may be confirmed. */
    method Login(h: R.Handle, resumes: bool, live: set<R.Handle>, now: nat)
      requires Valid()
      modifies this`capable, this`legacy, db
      ensures Valid() && State() == S.Announce(old(State()), h, resumes, live, now)
    {
      ghost var before := State();
      capable := if resumes then capable + {h} else capable - {h};
      var user := R.UserOf(transmission.users, h);
      var keys := SortedPairs(legacy.Keys);
      forall k
        ensures k in keys <==> k in before.legacy
      {
        SortedPairsHas(before.legacy.Keys, k);
      }
      hide SortedPairs;
      hide SortedKeys;
      hide Less;
      hide S.Answers;
      hide S.Announce;
      hide R.UserOf;
      AnnounceIs(before, h, resumes, keys, live, now);
      assert State() == before.(capable := capable);
      ConfirmAll(keys, user, live, now);
    }

    /** Confirms, of the given legacy sessions, those this user's return completes. */
    method ConfirmAll(keys: seq<Pair>, user: string, live: set<R.Handle>, now: nat)
      requires Valid()
      modifies this`legacy, db
      ensures Valid() && State() == old(State()).(legacy := map k | k in old(legacy) && !(k in keys && S.Answers(old(State()), user, k, live, now)) :: old(legacy)[k])
    {
      ghost var before := State();
      var i := 0;
      while i < |keys|
        invariant i <= |keys| && Valid()
        invariant State() == before.(legacy := map k | k in before.legacy && !(k in keys[..i] && S.Answers(before, user, k, live, now)) :: before.legacy[k])
      {
        var key := keys[i];
        assert keys[..i + 1] == keys[..i] + [key];
        if key in legacy && (user == legacy[key].host || user == key.1) {
          AnswersSame(before, State(), user, key, live, now);
          var confirmed := ConfirmLegacy(key, live, now);
          if confirmed {
            legacy := legacy - {key};
          }
        }
        hide S.Confirmed;
        i := i + 1;
      }
      assert keys[..|keys|] == keys;
    }

    /** A password join has succeeded; `token` is fresh random bytes. */
    method Issue(room: string, host: string, guest: string, h: R.Handle, token: nat)
      requires Valid()
      modifies this`tickets, this`legacy, db`saved
      ensures Valid() && State() == S.Issue(old(State()), room, host, guest, h, token)
    {
      var key := (room, guest);
      var hostAt := transmission.GetUserHandle(host);
      legacy := legacy - {key};
      if hostAt.None? || hostAt.value !in capable || h !in capable {
        if key in tickets {
          Remove(key);
        }
        return;
      }
      var ticket := S.Ticket(host, token, false, false, false, 0, hostAt, Some(h));
      db.Save(key, SavedTicket(host, token));
      tickets := tickets[key := ticket];
    }

    /** A client says whether its session still exists. */
    method Report(h: R.Handle, key: Pair, token: nat, alive: bool, live: set<R.Handle>, now: nat)
      requires Valid()
      modifies this, db, transmission
      ensures Valid() && State() == S.Report(old(State()), h, key, token, alive, live, now)
    {
      if key !in tickets {
        return;
      }
      var ticket := tickets[key];
      var user := R.UserOf(transmission.users, h);
      var found := Exists(key, ticket.host);
      if token != ticket.token || (user != ticket.host && user != key.1) || !found || (ticket.recovering && now > ticket.deadline) {
        return;
      }
      if !alive {
        Dismiss(key);
        Remove(key);
        return;
      }
      if user == ticket.host {
        ticket := ticket.(hostReady := true, hostAt := Some(h));
      } else {
        ticket := ticket.(guestReady := true, guestAt := Some(h));
      }
      tickets := tickets[key := ticket];
      hide S.Resume;
      Resume(key, live);
    }

    method Resume(key: Pair, live: set<R.Handle>)
      requires Valid() && key in tickets
      modifies this`tickets, db, transmission
      ensures Valid() && State() == S.Resume(old(State()), key, live)
    {
      var ticket := tickets[key];
      var hostHolds := Held(ticket.hostAt, ticket.host, live);
      var guestHolds := Held(ticket.guestAt, key.1, live);
      if !ticket.hostReady || !ticket.guestReady || !hostHolds || !guestHolds {
        return;
      }
      ReadyRoom(ticket.host, key.0);
      hide R.BindHost;
      hide R.GrantGuest;
      hide S.Reseat;
      Reseat(key, ticket.guestAt.value, live);
    }

    method ReadyRoom(host: string, room: string)
      requires Valid()
      modifies transmission`hosts
      ensures Valid() && State() == old(State()).(rooms := if room in old(transmission.hosts) then old(State()).rooms else R.BindHost(old(State()).rooms, host, room).0)
    {
      if room !in transmission.hosts {
        var _ := transmission.BindHostToTransmission(host, room);
      }
    }

    method Reseat(key: Pair, at: R.Handle, live: set<R.Handle>)
      requires Valid() && key in tickets
      modifies this`tickets, db, transmission
      ensures Valid()
      ensures var w := old(State());
              var (r, granted) := R.GrantGuest(w.rooms, key.1, key.0, at, live);
              State() == if granted then S.Reseat(w, key, r) else w
    {
      GrantNotes(transmission.State(), key.1, key.0, at, live);
      hide R.GrantGuest;
      hide StartSession;
      var granted := transmission.BindGuestHandle(key.1, key.0, at, live);
      assert Deliver(old(db.State()), []) == old(db.State());
      hide Deliver;
      if granted {
        var started := db.StartRemoteControlSession(key.0, tickets[key].host, key.1);
        if started {
          tickets := tickets[key := tickets[key].(recovering := false)];
        }
      }
    }

    method ExpireTicket(key: Pair, now: nat)
      requires Valid()
      modifies this`tickets, this`legacy, db, transmission
      ensures Valid() && State() == S.ExpireTicket(old(State()), key, now)
    {
      hide S.Dismiss;
      if key !in tickets {
        return;
      }
      var ticket := tickets[key];
      var found := Exists(key, ticket.host);
      if !found || (ticket.recovering && now > ticket.deadline) {
        if ticket.recovering {
          Dismiss(key);
        }
        Remove(key);
      }
    }

    method ExpireLegacy(key: Pair, live: set<R.Handle>, now: nat)
      requires Valid()
      modifies this`legacy, db, transmission
      ensures Valid() && State() == S.ExpireLegacy(old(State()), key, live, now)
    {
      hide S.Dismiss;
      hide S.Confirmed;
      if key !in legacy {
        return;
      }
      var found := Exists(key, legacy[key].host);
      if !found {
        legacy := legacy - {key};
      } else if now > legacy[key].deadline {
        Dismiss(key);
        legacy := legacy - {key};
      } else {
        var confirmed := ConfirmLegacy(key, live, now);
        if confirmed {
          legacy := legacy - {key};
        }
      }
    }

    method Expire(live: set<R.Handle>, now: nat)
      requires Valid()
      modifies this, db, transmission
      ensures Valid() && State() == S.Expire(old(State()), live, now)
    {
      hide SortedPairs;
      hide S.ExpireTicket;
      hide S.ExpireLegacy;
      capable := capable * live;
      var keys := SortedPairs(tickets.Keys);
      var i := 0;
      ghost var a := State();
      while i < |keys|
        invariant i <= |keys| && Valid()
        invariant S.ExpireTickets(State(), keys[i..], now) == S.ExpireTickets(a, keys, now)
      {
        ExpireTicket(keys[i], now);
        Tail(keys, i);
        i := i + 1;
      }
      keys := SortedPairs(legacy.Keys);
      i := 0;
      ghost var b := State();
      while i < |keys|
        invariant i <= |keys| && Valid()
        invariant S.ExpireLegacies(State(), keys[i..], live, now) == S.ExpireLegacies(b, keys, live, now)
      {
        ExpireLegacy(keys[i], live, now);
        Tail(keys, i);
        i := i + 1;
      }
    }
  }
}
