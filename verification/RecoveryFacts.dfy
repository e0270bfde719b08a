/** The session ledger through every step: it is always the memberships in the
    rooms plus the tickets still recovering. */
module RecoveryFacts {
  import opened Ordering
  import opened RoomsSpec
  import opened RoomsFacts
  import opened RoomsQuiet
  import opened SessionTables
  import opened RecoverySpec

  // --------------------------------------------------- delivering notifications

  ghost predicate Named(pairs: set<Pair>) {
    forall p :: p in pairs ==> p.0 != "" && p.1 != ""
  }

  lemma {:induction false} DeliverEnds(t: Tables, base: set<Pair>, notes: seq<Note>)
    requires OnlyEnds(notes) && Replay(base, notes).Some? && Named(base) && base <= t.ledger.Keys
    ensures Replay(base, notes).value <= base
    ensures Deliver(t, notes) == Erase(t, base - Replay(base, notes).value)
    decreases |notes|
  {
    if notes == [] {
      assert base - base == {};
    } else {
      var before := notes[..|notes| - 1];
      var n := notes[|notes| - 1];
      assert notes == before + [n];
      assert n in notes;
      ReplaySnoc(base, before, n);
      hide Replay;
      DeliverEnds(t, base, before);
      DeliverAppend(t, before, [n]);
      assert Deliver(Deliver(t, before), [n]) == Record(Deliver(t, before), n);
      hide Deliver;
      hide OnlyEnds;
      var left := Replay(base, before).value;
      var p := (n.room, n.guest);
      EraseTwice(t, base - left, {p});
      EraseIn(t, base - left, p);
      hide Erase;
      assert base - left + {p} == base - Replay(base, notes).value;
    }
  }

  lemma MembersNamed(r: Rooms)
    requires Valid(r)
    ensures Named(Members(r.guests))
  {
    forall p | p in Members(r.guests)
      ensures p.0 != "" && p.1 != ""
    {
      InMembers(r.guests, p.0, p.1);
      GoodAt(r.hosts, r.guests, p.0);
    }
  }

  lemma EraseKeeps(t: Tables, tickets: map<Pair, Ticket>, gone: set<Pair>)
    requires GoodTables(t) && Saved(t, tickets)
    ensures GoodTables(Erase(t, gone)) && Saved(Erase(t, gone), tickets)
    ensures Erase(t, gone).ledger.Keys == t.ledger.Keys - gone
  {
  }

  lemma EraseAccounted(ledger: set<Pair>, members: set<Pair>, waiting: set<Pair>, left: set<Pair>)
    requires Accounted(ledger, members, waiting) && left <= members
    ensures Accounted(ledger - (members - left), left, waiting)
  {
  }

  lemma QuietKeyed(r: Rooms, s: Rooms)
    requires Quiet(r, s) && Keyed(r.hosts)
    ensures Keyed(s.hosts)
  {
  }

  lemma SettledValid(r: Rooms)
    requires Valid(r)
    ensures Valid(r.(notes := []))
  {
  }

  lemma NoNotes(r: Rooms)
    requires r.notes == []
    ensures Replayed(Members(r.guests), r)
  {
  }

  lemma FoundReplay(base: set<Pair>, r: Rooms)
    requires Replayed(base, r) && r.watched
    ensures Replay(base, r.notes) == Some(Members(r.guests))
  {
  }

  /** After any release, settling the notifications restores agreement. */
  lemma SettleReleases(w: World, r: Rooms)
    requires Agreed(w) && Valid(r) && Quiet(w.rooms, r) && Replayed(Members(w.rooms.guests), r)
    ensures Agreed(Settle(w, r))
    ensures Settle(w, r).tables == Erase(w.tables, Members(w.rooms.guests) - Members(r.guests))
    ensures Members(r.guests) <= Members(w.rooms.guests)
  {
    var base := Members(w.rooms.guests);
    MembersNamed(w.rooms);
    QuietKeyed(w.rooms, r);
    SettledValid(r);
    hide Valid;
    assert OnlyEnds(r.notes) && r.watched;
    FoundReplay(base, r);
    DeliverEnds(w.tables, base, r.notes);
    EraseKeeps(w.tables, w.tickets, base - Members(r.guests));
    EraseAccounted(w.tables.ledger.Keys, base, Waiting(w.tickets), Members(r.guests));
    hide Erase;
    hide Deliver;
    hide Members;
    hide Keyed;
    hide GoodTables;
    hide Saved;
    hide Accounted;
    hide Waiting;
    hide Replayed;
    hide Replay;
    hide Quiet;
  }

  /** A release whose effect on the memberships is known. */
  lemma SettleCalm(w: World, r: Rooms)
    requires Agreed(w) && Valid(r) && Quiet(w.rooms, r) && Replayed(Members(w.rooms.guests), r)
    ensures Calm(Settle(w, r).rooms)
    ensures Settle(w, r).tables == Erase(w.tables, Members(w.rooms.guests) - Members(r.guests))
  {
    SettleReleases(w, r);
    hide Settle;
    hide Calm;
  }

  // ------------------------------------------------------ dismissing a session

  lemma EraseOther(t: Tables, key: Pair, gone: set<Pair>)
    requires gone == {} || gone == {key}
    requires key.0 != "" && key.1 != ""
    ensures EndSession(Erase(t, gone), key.0, key.1).0 == (if gone == {} && key !in t.ledger then t else Erase(t, {key}))
  {
    assert (key.0, key.1) == key;
    EraseIn(t, gone, key);
    if gone == {} {
      assert Erase(t, {}) == t;
    }
    hide Erase;
  }

  lemma EraseAbsent(t: Tables, tickets: map<Pair, Ticket>, key: Pair)
    requires Saved(t, tickets) && key !in t.ledger
    ensures Erase(t, {key}) == t
  {
    assert t.ledger - {key} == t.ledger;
    assert t.saved - {key} == t.saved;
  }

  lemma DropExactly(r: Rooms, key: Pair)
    requires Valid(r) && r.notes == []
    ensures var s := DropGuest(r, key.1, key.0).0;
            && Valid(s) && Quiet(r, s) && Replayed(Members(r.guests), s)
            && Members(s.guests) == Members(r.guests) - {key}
  {
    NoNotes(r);
    DropGuestKeeps(Members(r.guests), r, key.1, key.0);
    DropGuestMembers(r, key.1, key.0);
    QuietGuest(r, key.1, key.0);
    assert (key.0, key.1) == key;
    hide Valid;
    hide Quiet;
    hide Replayed;
    hide DropGuest;
    hide Members;
  }

  lemma EraseMember(t: Tables, tickets: map<Pair, Ticket>, members: set<Pair>, key: Pair)
    requires Saved(t, tickets) && members <= t.ledger.Keys && key.0 != "" && key.1 != ""
    ensures EndSession(Erase(t, members - (members - {key})), key.0, key.1).0 == Erase(t, {key})
  {
    assert members - (members - {key}) == if key in members then {key} else {};
    EraseOther(t, key, members - (members - {key}));
    if key !in t.ledger {
      EraseAbsent(t, tickets, key);
    }
    hide Erase;
    hide EndSession;
  }

  lemma DismissExactly(w: World, key: Pair)
    requires Agreed(w) && key.0 != "" && key.1 != ""
    ensures var d := Dismiss(w, key);
            && d == w.(rooms := d.rooms, tables := d.tables)
            && Calm(d.rooms)
            && d.tables == Erase(w.tables, {key})
            && Members(d.rooms.guests) == Members(w.rooms.guests) - {key}
  {
    DropExactly(w.rooms, key);
    hide Valid;
    hide Replayed;
    hide Quiet;
    hide DropGuest;
    hide Members;
    hide Erase;
    hide EndSession;
    hide Deliver;
    hide Keyed;
    SettleCalm(w, DropGuest(w.rooms, key.1, key.0).0);
    EraseMember(w.tables, w.tickets, Members(w.rooms.guests), key);
    hide GoodTables;
    hide Saved;
    hide Accounted;
    hide Calm;
  }

  lemma WaitingLess(tickets: map<Pair, Ticket>, key: Pair)
    ensures Waiting(tickets - {key}) == Waiting(tickets) - {key}
  {
  }

  lemma AccountedLess(ledger: set<Pair>, members: set<Pair>, waiting: set<Pair>, key: Pair)
    requires Accounted(ledger, members, waiting)
    ensures Accounted(ledger - {key}, members - {key}, waiting - {key})
  {
  }

  lemma ForgetSaved(t: Tables, tickets: map<Pair, Ticket>, key: Pair)
    requires Saved(t, tickets) && GoodTables(t)
    ensures var gone := Erase(t, {key});
            && gone.(saved := gone.saved - {key}) == gone
            && Saved(gone, tickets - {key}) && GoodTables(gone)
  {
    var gone := Erase(t, {key});
    assert gone.saved - {key} == gone.saved;
  }

  /** Erasing a session and forgetting its ticket keeps the ledger in step. */
  lemma ForgetAgrees(w: World, d: World, key: Pair)
    requires Agreed(w)
    requires d == w.(rooms := d.rooms, tables := d.tables) && Calm(d.rooms)
    requires d.tables == Erase(w.tables, {key}) && Members(d.rooms.guests) == Members(w.rooms.guests) - {key}
    ensures Agreed(Forget(d, key))
  {
    hide Calm;
    hide Members;
    ForgetSaved(w.tables, w.tickets, key);
    WaitingLess(w.tickets, key);
    AccountedLess(w.tables.ledger.Keys, Members(w.rooms.guests), Waiting(w.tickets), key);
    EraseKeeps(w.tables, w.tickets, {key});
    hide Erase;
    hide Saved;
    hide GoodTables;
    hide Waiting;
    hide Accounted;
  }

  lemma DismissForget(w: World, key: Pair)
    requires Agreed(w) && key.0 != "" && key.1 != ""
    ensures Agreed(Forget(Dismiss(w, key), key))
  {
    hide Agreed;
    hide Calm;
    hide Dismiss;
    hide Members;
    DismissExactly(w, key);
    ForgetAgrees(w, Dismiss(w, key), key);
  }

  /** A session nothing waits for can be dismissed on its own. */
  lemma DismissAgrees(w: World, key: Pair)
    requires Agreed(w) && key.0 != "" && key.1 != "" && key !in Waiting(w.tickets)
    ensures Agreed(Dismiss(w, key))
  {
    hide Calm;
    hide Dismiss;
    hide Members;
    DismissExactly(w, key);
    EraseKeeps(w.tables, w.tickets, {key});
    AccountedLess(w.tables.ledger.Keys, Members(w.rooms.guests), Waiting(w.tickets), key);
    assert Waiting(w.tickets) - {key} == Waiting(w.tickets);
    hide Erase;
    hide Saved;
    hide GoodTables;
    hide Waiting;
    hide Accounted;
  }

  lemma LegacyShrinks(w: World, left: map<Pair, Legacy>, capable: set<Handle>)
    requires Agreed(w)
    requires forall k :: k in left ==> k in w.legacy && left[k] == w.legacy[k]
    ensures Agreed(w.(legacy := left, capable := capable))
  {
    hide Calm;
    hide GoodTables;
    hide Saved;
    hide Accounted;
    hide Waiting;
  }

  lemma RowNamed(w: World, key: Pair)
    requires Agreed(w) && key in w.tables.ledger
    ensures key.0 != "" && key.1 != "" && w.tables.ledger[key] == key.0 && key.0 != key.1 && !Temporary(key.0)
  {
    hide Calm;
    hide Saved;
    hide Accounted;
  }

  lemma WaitingIsLedgered(w: World, key: Pair)
    requires Agreed(w) && key in w.tickets
    ensures w.tickets[key].host == key.0
    ensures w.tickets[key].recovering ==> key in w.tables.ledger
    ensures Exists(w.tables, key, w.tickets[key].host) <==> key in w.tables.ledger
  {
    hide Calm;
    assert w.tickets[key].recovering ==> key in Waiting(w.tickets);
  }

  lemma ExpireTicketAgrees(w: World, key: Pair, now: nat)
    requires Agreed(w)
    ensures Agreed(ExpireTicket(w, key, now))
  {
    if key in w.tickets {
      WaitingIsLedgered(w, key);
      if key in w.tables.ledger {
        RowNamed(w, key);
        DismissForget(w, key);
      } else {
        EraseAbsent(w.tables, w.tickets, key);
        assert Members(w.rooms.guests) - {key} == Members(w.rooms.guests);
        ForgetAgrees(w, w, key);
      }
    }
    hide Agreed;
    hide Dismiss;
    hide Forget;
    hide Exists;
  }

  lemma ExpireLegacyAgrees(w: World, key: Pair, live: set<Handle>, now: nat)
    requires Agreed(w)
    ensures Agreed(ExpireLegacy(w, key, live, now))
  {
    if key in w.legacy {
      LegacyShrinks(w, w.legacy - {key}, w.capable);
      if key in w.tables.ledger {
        RowNamed(w, key);
        DismissExactly(w, key);
        DismissAgrees(w, key);
        LegacyShrinks(Dismiss(w, key), w.legacy - {key}, w.capable);
      }
    }
    hide Agreed;
    hide Dismiss;
    hide Confirmed;
  }

  lemma {:induction false} ExpireTicketsAgree(w: World, keys: seq<Pair>, now: nat)
    requires Agreed(w)
    ensures Agreed(ExpireTickets(w, keys, now))
    decreases |keys|
  {
    hide Agreed;
    hide ExpireTicket;
    if keys != [] {
      ExpireTicketAgrees(w, keys[0], now);
      ExpireTicketsAgree(ExpireTicket(w, keys[0], now), keys[1..], now);
    }
  }

  lemma {:induction false} ExpireLegaciesAgree(w: World, keys: seq<Pair>, live: set<Handle>, now: nat)
    requires Agreed(w)
    ensures Agreed(ExpireLegacies(w, keys, live, now))
    decreases |keys|
  {
    hide Agreed;
    hide ExpireLegacy;
    if keys != [] {
      ExpireLegacyAgrees(w, keys[0], live, now);
      ExpireLegaciesAgree(ExpireLegacy(w, keys[0], live, now), keys[1..], live, now);
    }
  }

  lemma ExpireAgrees(w: World, live: set<Handle>, now: nat)
    requires Agreed(w)
    ensures Agreed(Expire(w, live, now))
  {
    LegacyShrinks(w, w.legacy, w.capable * live);
    hide Agreed;
    hide SortedPairs;
    var a := w.(capable := w.capable * live);
    ExpireTicketsAgree(a, SortedPairs(a.tickets.Keys), now);
    hide ExpireTickets;
    var b := ExpireTickets(a, SortedPairs(a.tickets.Keys), now);
    ExpireLegaciesAgree(b, SortedPairs(b.legacy.Keys), live, now);
    hide ExpireLegacies;
  }
}
