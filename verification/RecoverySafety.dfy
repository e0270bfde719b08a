/** Recovery never lets anyone in: over runs with crashes, whatever is restored
    goes back to a password join and to reports from both of its ends. */
module RecoverySafety {
  import opened Ordering
  import opened RoomsSpec
  import opened RoomsFacts
  import opened RoomsRelease
  import opened RoomsPrune
  import opened RoomsQuiet
  import opened SessionTables
  import opened RecoverySpec
  import opened RecoveryFacts
  import opened RecoveryGrants
  import opened RecoveryRuns

  // ----------------------------------------------------------------- history

  /** A client reported, on `handle` as `user`, that the session is alive. */
  datatype Seen = Seen(key: Pair, token: nat, handle: Handle, user: string, now: nat)

  datatype History = History(
    joined: set<Pair>,
    seats: set<(Pair, Handle)>,
    issued: set<(Pair, nat)>,
    reports: set<Seen>)

  /** The join with the room's password succeeds. */
  ghost predicate Joins(w: World, h: Handle, user: string, room: string, live: set<Handle>) {
    var host := HostOf(w.rooms, room);
    && host != "" && Route(w.rooms, host).Some? && Route(w.rooms, host).value in live
    && GrantGuest(w.rooms, user, room, h, live).1
  }

  ghost function Remember(p: History, w: World, e: Event, live: set<Handle>, now: nat): History {
    match e
    case Join(h, user, room, token) =>
      if !Joins(w, h, user, room, live) then p
      else p.(joined := p.joined + {(room, user)}, seats := p.seats + {((room, user), h)}, issued := p.issued + {((room, user), token)})
    case Reported(h, key, token, alive) =>
      if alive then p.(reports := p.reports + {Seen(key, token, h, UserOf(w.rooms.users, h), now)}) else p
    case _ => p
  }

  ghost predicate Grew(p: History, q: History) {
    p.joined <= q.joined && p.seats <= q.seats && p.issued <= q.issued && p.reports <= q.reports
  }

  /** The end `user` of this ticket reported on `h`, in time while recovering. */
  ghost predicate Vouched(p: History, key: Pair, t: Ticket, at: Option<Handle>, user: string) {
    at.Some? && exists now: nat :: Seen(key, t.token, at.value, user, now) in p.reports && (t.recovering ==> now <= t.deadline)
  }

  ghost predicate TicketSafe(p: History, key: Pair, t: Ticket) {
    && key in p.joined && (key, t.token) in p.issued
    && (t.hostReady ==> Vouched(p, key, t, t.hostAt, key.0))
    && (t.guestReady ==> Vouched(p, key, t, t.guestAt, key.1))
  }

  /** The connection joined itself, or both ends reported a ticket of a join. */
  ghost predicate SeatSafe(p: History, key: Pair, h: Handle) {
    (key, h) in p.seats ||
    exists token: nat, other: Handle, a: nat, b: nat ::
      (key, token) in p.issued && Seen(key, token, other, key.0, a) in p.reports && Seen(key, token, h, key.1, b) in p.reports
  }

  ghost predicate GrantsSafe(p: History, grants: map<string, map<string, Handle>>) {
    forall room, g, h :: GrantedOn(grants, room, g, h) ==> SeatSafe(p, (room, g), h)
  }

  ghost predicate TicketsSafe(p: History, tickets: map<Pair, Ticket>) {
    forall k :: k in tickets ==> TicketSafe(p, k, tickets[k])
  }

  ghost predicate Safe(p: History, w: World) {
    && w.tables.ledger.Keys <= p.joined && w.legacy.Keys <= p.joined
    && TicketsSafe(p, w.tickets) && GrantsSafe(p, w.rooms.grants)
  }

  lemma GrewSafe(p: History, q: History, w: World)
    requires Grew(p, q) && Safe(p, w)
    ensures Safe(q, w)
  {
    hide GrantedOn;
    forall k | k in w.tickets
      ensures TicketSafe(q, k, w.tickets[k])
    {
      assert TicketSafe(p, k, w.tickets[k]);
    }
    forall room, g, h | GrantedOn(w.rooms.grants, room, g, h)
      ensures SeatSafe(q, (room, g), h)
    {
      assert SeatSafe(p, (room, g), h);
    }
  }

  lemma RememberGrows(p: History, w: World, e: Event, live: set<Handle>, now: nat)
    ensures Grew(p, Remember(p, w, e, live, now))
  {
    hide Joins;
  }

  // ------------------------------------------------------- steps that add nothing

  ghost predicate FewerTickets(before: map<Pair, Ticket>, after: map<Pair, Ticket>) {
    forall k :: k in after ==> k in before && after[k] == before[k]
  }

  /** No row, ticket, legacy entry or grant of `v` is new. */
  ghost predicate Older(w: World, v: World) {
    && v.tables.ledger.Keys <= w.tables.ledger.Keys && v.legacy.Keys <= w.legacy.Keys
    && FewerTickets(w.tickets, v.tickets) && Fewer(w.rooms.grants, v.rooms.grants)
  }

  lemma OlderChain(w: World, v: World, u: World)
    requires Older(w, v) && Older(v, u)
    ensures Older(w, u)
  {
    hide GrantedOn;
  }

  lemma OlderSafe(p: History, w: World, v: World)
    requires Safe(p, w) && Older(w, v)
    ensures Safe(p, v)
  {
    hide GrantedOn;
    hide SeatSafe;
    hide TicketSafe;
  }

  lemma OlderSettle(w: World, r: Rooms)
    requires Agreed(w) && Valid(r) && Quiet(w.rooms, r) && Replayed(Members(w.rooms.guests), r)
    ensures Older(w, Settle(w, r))
  {
    SettleReleases(w, r);
    hide Agreed;
    hide Valid;
    hide Members;
    hide Replayed;
    hide Deliver;
    hide Fewer;
  }

  lemma OlderDismiss(w: World, key: Pair)
    requires Agreed(w) && key.0 != "" && key.1 != ""
    ensures Older(w, Dismiss(w, key))
  {
    DismissExactly(w, key);
    DropExactly(w.rooms, key);
    hide Agreed;
    hide Members;
    hide DropGuest;
    hide Fewer;
    hide Valid;
    hide Deliver;
  }

  lemma OlderForget(w: World, key: Pair)
    ensures Older(w, Forget(w, key))
  {
    hide GrantedOn;
  }

  lemma OlderTicket(w: World, key: Pair, now: nat)
    requires Agreed(w)
    ensures Older(w, ExpireTicket(w, key, now))
  {
    OlderSelf(w);
    if key in w.tickets {
      WaitingIsLedgered(w, key);
      OlderForget(w, key);
      if key in w.tables.ledger {
        RowNamed(w, key);
        OlderDismiss(w, key);
        OlderForget(Dismiss(w, key), key);
        OlderChain(w, Dismiss(w, key), Forget(Dismiss(w, key), key));
      }
    }
    hide Agreed;
    hide Older;
    hide Dismiss;
    hide Forget;
    hide Exists;
  }

  lemma OlderSelf(w: World)
    ensures Older(w, w)
  {
  }

  lemma OlderUnlisted(w: World, left: map<Pair, Legacy>)
    requires left.Keys <= w.legacy.Keys
    ensures Older(w, w.(legacy := left))
  {
    hide GrantedOn;
  }

  lemma OlderLegacy(w: World, key: Pair, live: set<Handle>, now: nat)
    requires Agreed(w)
    ensures Older(w, ExpireLegacy(w, key, live, now))
  {
    OlderSelf(w);
    OlderUnlisted(w, w.legacy - {key});
    if key in w.legacy && key in w.tables.ledger {
      RowNamed(w, key);
      OlderDismiss(w, key);
      var d := Dismiss(w, key);
      OlderUnlisted(d, d.legacy - {key});
      OlderChain(w, d, d.(legacy := d.legacy - {key}));
    }
    hide Agreed;
    hide Older;
    hide Dismiss;
    hide Confirmed;
  }

  lemma {:induction false} OlderTickets(w: World, keys: seq<Pair>, now: nat)
    requires Agreed(w)
    ensures Older(w, ExpireTickets(w, keys, now))
    decreases |keys|
  {
    hide Agreed;
    hide Older;
    hide ExpireTicket;
    OlderSelf(w);
    if keys != [] {
      var v := ExpireTicket(w, keys[0], now);
      ExpireTicketAgrees(w, keys[0], now);
      OlderTicket(w, keys[0], now);
      OlderTickets(v, keys[1..], now);
      OlderChain(w, v, ExpireTickets(v, keys[1..], now));
    }
  }

  lemma {:induction false} OlderLegacies(w: World, keys: seq<Pair>, live: set<Handle>, now: nat)
    requires Agreed(w)
    ensures Older(w, ExpireLegacies(w, keys, live, now))
    decreases |keys|
  {
    hide Agreed;
    hide Older;
    hide ExpireLegacy;
    OlderSelf(w);
    if keys != [] {
      var v := ExpireLegacy(w, keys[0], live, now);
      ExpireLegacyAgrees(w, keys[0], live, now);
      OlderLegacy(w, keys[0], live, now);
      OlderLegacies(v, keys[1..], live, now);
      OlderChain(w, v, ExpireLegacies(v, keys[1..], live, now));
    }
  }

  lemma OlderExpire(w: World, live: set<Handle>, now: nat)
    requires Agreed(w)
    ensures Older(w, Expire(w, live, now))
  {
    var a := w.(capable := w.capable * live);
    LegacyShrinks(w, w.legacy, a.capable);
    OlderSelf(w);
    assert Older(w, a);
    hide Agreed;
    hide Older;
    hide SortedPairs;
    var b := ExpireTickets(a, SortedPairs(a.tickets.Keys), now);
    ExpireTicketsAgree(a, SortedPairs(a.tickets.Keys), now);
    OlderTickets(a, SortedPairs(a.tickets.Keys), now);
    hide ExpireTickets;
    OlderLegacies(b, SortedPairs(b.legacy.Keys), live, now);
    hide ExpireLegacies;
    var c := ExpireLegacies(b, SortedPairs(b.legacy.Keys), live, now);
    OlderChain(w, a, b);
    OlderChain(w, b, c);
  }

  // ------------------------------------------------------------ joins and reports

  lemma GrantAddsOnly(r: Rooms, guest: string, room: string, h: Handle, live: set<Handle>)
    requires GrantGuest(r, guest, room, h, live).1
    ensures var s := GrantGuest(r, guest, room, h, live).0;
            forall k, g, x: Handle :: GrantedOn(s.grants, k, g, x) ==> GrantedOn(r.grants, k, g, x) || (k, g, x) == (room, guest, h)
  {
    var a := AddGuest(r, guest, room).0;
    assert a.grants == r.grants;
    hide AddGuest;
    PutAddsOnly(r.grants, room, guest, h);
    assert GrantGuest(r, guest, room, h, live).0.grants == PutGrant(a.grants, room, guest, h);
    hide GrantGuest;
    hide PutGrant;
    hide GrantedOn;
  }

  lemma PutAddsOnly(grants: map<string, map<string, Handle>>, room: string, guest: string, h: Handle)
    ensures forall k, g, x: Handle :: GrantedOn(PutGrant(grants, room, guest, h), k, g, x) ==>
              GrantedOn(grants, k, g, x) || (k, g, x) == (room, guest, h)
  {
  }

  /** `v` adds to `w` at most the row of `key` and its grant to `h`. */
  ghost predicate OlderBut(w: World, v: World, key: Pair, h: Handle) {
    && v.tables.ledger.Keys <= w.tables.ledger.Keys + {key} && v.legacy.Keys <= w.legacy.Keys
    && FewerTickets(w.tickets, v.tickets - {key})
    && (forall room, g, x: Handle :: GrantedOn(v.rooms.grants, room, g, x) ==> GrantedOn(w.rooms.grants, room, g, x) || ((room, g), x) == (key, h))
  }

  lemma OlderButSafe(p: History, w: World, v: World, key: Pair, h: Handle)
    requires Safe(p, w) && OlderBut(w, v, key, h)
    requires key in p.joined && SeatSafe(p, key, h)
    requires key in v.tickets ==> TicketSafe(p, key, v.tickets[key])
    ensures Safe(p, v)
  {
    hide GrantedOn;
    hide SeatSafe;
    hide TicketSafe;
    forall k | k in v.tickets
      ensures TicketSafe(p, k, v.tickets[k])
    {
      assert k != key ==> k in v.tickets - {key};
    }
  }

  lemma IssueAddsOnly(s: World, key: Pair, h: Handle, token: nat)
    ensures var v := Issue(s, key.0, key.0, key.1, h, token);
            && v.rooms == s.rooms && v.tables.ledger == s.tables.ledger && v.legacy.Keys <= s.legacy.Keys
            && FewerTickets(s.tickets, v.tickets - {key})
            && (key in v.tickets ==> v.tickets[key].token == token && !v.tickets[key].hostReady && !v.tickets[key].guestReady && !v.tickets[key].recovering)
  {
    assert (key.0, key.1) == key;
    hide Route;
  }

  lemma JoinAddsOnly(w: World, h: Handle, user: string, room: string, token: nat, live: set<Handle>)
    requires Agreed(w)
    ensures var v := JoinStep(w, h, user, room, token, live);
            var key := (room, user);
            && (!Joins(w, h, user, room, live) ==> v == w)
            && (Joins(w, h, user, room, live) ==> OlderBut(w, v, key, h))
            && (Joins(w, h, user, room, live) && key in v.tickets ==>
                  && v.tickets[key].token == token && !v.tickets[key].hostReady && !v.tickets[key].guestReady
                  && !v.tickets[key].recovering)
  {
    if Joins(w, h, user, room, live) {
      var key := (room, user);
      var r := GrantGuest(w.rooms, user, room, h, live).0;
      GrantIs(w.rooms, user, room, h, live);
      GrantAddsOnly(w.rooms, user, room, h, live);
      GrantSettles(w, r, key, h, live);
      var s := Settle(w, r);
      var t := s.(tables := StartSession(s.tables, room, room, user).0);
      RowedGood(w.tables, t.tables, key);
      IssueAddsOnly(t, key, h, token);
      assert t.tickets == w.tickets && t.legacy == w.legacy;
      hide Issue;
      hide GrantGuest;
      hide Settle;
      hide StartSession;
      hide GrantedOn;
      hide FewerTickets;
      hide Members;
      hide Valid;
      hide Calm;
      hide GoodTables;
      hide Granted;
    }
    hide Issue;
    hide GrantGuest;
    hide OlderBut;
  }

  lemma JoinSafe(p: History, w: World, h: Handle, user: string, room: string, token: nat, live: set<Handle>, now: nat)
    requires Agreed(w) && Safe(p, w)
    ensures Safe(Remember(p, w, Join(h, user, room, token), live, now), JoinStep(w, h, user, room, token, live))
  {
    var e := Join(h, user, room, token);
    var q := Remember(p, w, e, live, now);
    RememberGrows(p, w, e, live, now);
    GrewSafe(p, q, w);
    JoinAddsOnly(w, h, user, room, token, live);
    hide JoinStep;
    if Joins(w, h, user, room, live) {
      OlderButSafe(q, w, JoinStep(w, h, user, room, token, live), (room, user), h);
    }
    hide Joins;
    hide Safe;
    hide OlderBut;
  }

  /** The session is back: membership, row and grant, and nothing waits for it. */
  ghost predicate Reseated(w: World, v: World, key: Pair) {
    && key in w.tickets && w.tickets[key].guestAt.Some?
    && v.tickets == w.tickets[key := w.tickets[key].(recovering := false)]
    && v.tables.ledger == w.tables.ledger && v.legacy == w.legacy && v.rooms.users == w.rooms.users
    && key in Members(v.rooms.guests)
    && GrantedOn(v.rooms.grants, key.0, key.1, w.tickets[key].guestAt.value)
    && (forall room, g, x: Handle :: GrantedOn(v.rooms.grants, room, g, x) ==>
          GrantedOn(w.rooms.grants, room, g, x) || ((room, g), x) == (key, w.tickets[key].guestAt.value))
  }

  /** A resumption either happens, with both ends present, or changes nothing
      but the list of rooms. */
  lemma ResumeEffect(w: World, key: Pair, live: set<Handle>)
    requires Agreed(w) && key in w.tickets && key in w.tables.ledger
    ensures var v := Resume(w, key, live);
            || (Resumable(w, key, live) && Reseated(w, v, key))
            || (v == w.(rooms := v.rooms) && v.rooms.grants == w.rooms.grants && v.rooms.users == w.rooms.users)
  {
    if Resumable(w, key, live) {
      var at := w.tickets[key].guestAt.value;
      SavedMatches(w, key);
      RowNamed(w, key);
      BindHostAgrees(w, key.0);
      var a := w.(rooms := if key.0 in w.rooms.hosts then w.rooms else BindHost(w.rooms, key.0, key.0).0);
      assert Agreed(a) && a.rooms.grants == w.rooms.grants && a.rooms.users == w.rooms.users;
      hide BindHost;
      GrantIs(a.rooms, key.1, key.0, at, live);
      if GrantGuest(a.rooms, key.1, key.0, at, live).1 {
        var r := GrantGuest(a.rooms, key.1, key.0, at, live).0;
        GrantAddsOnly(a.rooms, key.1, key.0, at, live);
        hide GrantGuest;
        ReseatEffect(a, key, r, at, live);
        assert Reseat(a, key, r) == Reseat(w, key, r);
        hide Reseat;
        hide Reseated;
        assert Reseated(w, Reseat(w, key, r), key) by {
          ReseatedSame(w, a, Reseat(w, key, r), key);
        }
      }
      hide GrantGuest;
      hide Agreed;
      hide Reseat;
      hide Reseated;
    }
    hide Agreed;
  }

  lemma ReseatedSame(w: World, a: World, v: World, key: Pair)
    requires Reseated(a, v, key) && a == w.(rooms := a.rooms) && a.rooms.grants == w.rooms.grants && a.rooms.users == w.rooms.users
    ensures Reseated(w, v, key)
  {
  }

  lemma ReseatEffect(w: World, key: Pair, r: Rooms, at: Handle, live: set<Handle>)
    requires Agreed(w) && key in w.tickets && key in w.tables.ledger && w.tickets[key].guestAt == Some(at)
    requires Valid(r) && Granted(w.rooms, r, key.1, key.0, at, live)
    requires forall k, g, x: Handle :: GrantedOn(r.grants, k, g, x) ==> GrantedOn(w.rooms.grants, k, g, x) || (k, g, x) == (key.0, key.1, at)
    ensures Reseated(w, Reseat(w, key, r), key)
  {
    assert (key.0, key.1) == key;
    SavedMatches(w, key);
    GrantSettles(w, r, key, at, live);
    assert GrantedOn(r.grants, key.0, key.1, at);
    hide Agreed;
    hide Valid;
    hide Members;
    hide Granted;
    hide StartSession;
    hide Deliver;
    hide GrantedOn;
    hide Calm;
  }

  lemma ReportSafe(p: History, w: World, h: Handle, key: Pair, token: nat, alive: bool, live: set<Handle>, now: nat)
    requires Agreed(w) && Safe(p, w)
    ensures Safe(Remember(p, w, Reported(h, key, token, alive), live, now), Report(w, h, key, token, alive, live, now))
  {
    var e := Reported(h, key, token, alive);
    var q := Remember(p, w, e, live, now);
    RememberGrows(p, w, e, live, now);
    GrewSafe(p, q, w);
    hide Remember;
    hide Grew;
    if Accepts(w, h, key, token, now) {
      WaitingIsLedgered(w, key);
      RowNamed(w, key);
      if alive {
        var user := UserOf(w.rooms.users, h);
        var t := Ready(w.tickets[key], user, h);
        ReadySafe(p, w, h, key, token, live, now);
        var a := w.(tickets := w.tickets[key := t]);
        ReadyAgrees(w, key, t);
        ResumeEffect(a, key, live);
        ResumedSafe(q, a, Resume(a, key, live), key, live);
      } else {
        OlderDismiss(w, key);
        OlderForget(Dismiss(w, key), key);
        OlderChain(w, Dismiss(w, key), Forget(Dismiss(w, key), key));
        OlderSafe(q, w, Forget(Dismiss(w, key), key));
      }
    }
    hide Agreed;
    hide Safe;
    hide Accepts;
    hide Dismiss;
    hide Forget;
    hide Resume;
  }

  lemma ReadySafe(p: History, w: World, h: Handle, key: Pair, token: nat, live: set<Handle>, now: nat)
    requires Agreed(w) && Safe(p, w) && Accepts(w, h, key, token, now)
    ensures var q := Remember(p, w, Reported(h, key, token, true), live, now);
            Safe(q, w.(tickets := w.tickets[key := Ready(w.tickets[key], UserOf(w.rooms.users, h), h)]))
  {
    hide Agreed;
    hide GrantsSafe;
    hide Exists;
    var e := Reported(h, key, token, true);
    var q := Remember(p, w, e, live, now);
    var user := UserOf(w.rooms.users, h);
    WaitingIsLedgered(w, key);
    assert Seen(key, token, h, user, now) in q.reports;
    hide Remember;
    RememberGrows(p, w, e, live, now);
    GrewSafe(p, q, w);
    assert TicketSafe(q, key, w.tickets[key]);
    ReadyVouched(q, key, w.tickets[key], user, h, now);
    hide TicketSafe;
    hide Ready;
  }

  lemma ReadyVouched(q: History, key: Pair, t: Ticket, user: string, h: Handle, now: nat)
    requires TicketSafe(q, key, t) && t.host == key.0 && (user == key.0 || user == key.1)
    requires Seen(key, t.token, h, user, now) in q.reports && (t.recovering ==> now <= t.deadline)
    ensures TicketSafe(q, key, Ready(t, user, h))
  {
  }

  lemma ResumedSafe(p: History, w: World, v: World, key: Pair, live: set<Handle>)
    requires Safe(p, w) && key in w.tickets && key in w.tables.ledger
    requires || (Resumable(w, key, live) && Reseated(w, v, key))
             || (v == w.(rooms := v.rooms) && v.rooms.grants == w.rooms.grants)
    ensures Safe(p, v)
  {
    if Resumable(w, key, live) && Reseated(w, v, key) {
      var t := w.tickets[key];
      assert TicketSafe(p, key, t);
      BothVouch(p, key, t);
      assert OlderBut(w, v, key, t.guestAt.value) by {
        hide GrantedOn;
        hide TicketSafe;
        hide Members;
      }
      OlderButSafe(p, w, v, key, t.guestAt.value);
    }
    hide Reseated;
    hide Resumable;
    hide TicketSafe;
    hide SeatSafe;
  }

  lemma BothVouch(p: History, key: Pair, t: Ticket)
    requires TicketSafe(p, key, t) && t.hostReady && t.guestReady
    ensures t.guestAt.Some? && SeatSafe(p, key, t.guestAt.value)
    ensures TicketSafe(p, key, t.(recovering := false))
  {
    var a: nat :| Seen(key, t.token, t.hostAt.value, key.0, a) in p.reports && (t.recovering ==> a <= t.deadline);
    var b: nat :| Seen(key, t.token, t.guestAt.value, key.1, b) in p.reports && (t.recovering ==> b <= t.deadline);
  }

  // ----------------------------------------------------------------- every step

  lemma {:induction false} RestoreGrantsNothing(r: Rooms, rows: seq<Pair>, t: Tables)
    requires forall k :: k in rows ==> k in t.ledger
    ensures Restore(r, rows, t).grants == r.grants
    decreases |rows|
  {
    hide BindHost;
    hide AddGuest;
    if rows != [] {
      var a := BindHost(r, t.ledger[rows[0]], rows[0].0).0;
      BindingGrantsNothing(r, t.ledger[rows[0]], rows[0].1, rows[0].0);
      BindingGrantsNothing(a, "", rows[0].1, rows[0].0);
      RestoreGrantsNothing(if rows[0] in t.saved then a else AddGuest(a, rows[0].1, rows[0].0).0, rows[1..], t);
    }
  }

  lemma BindingGrantsNothing(r: Rooms, host: string, guest: string, room: string)
    ensures BindHost(r, host, room).0.grants == r.grants && AddGuest(r, guest, room).0.grants == r.grants
  {
  }

  /** After a restart only tickets of joined sessions wait, and no connection
      holds a room. */
  lemma BootSafe(p: History, w: World, now: nat, timeout: nat)
    requires Agreed(w) && Safe(p, w)
    ensures Safe(p, Boot(w.tables, w.heartbeat, now, timeout))
  {
    var t := Reopen(w.tables, w.heartbeat, now);
    ReopenGood(w.tables, w.heartbeat, now);
    forall k | k in t.saved
      ensures k in p.joined && (k, t.saved[k].token) in p.issued
    {
      assert k in w.tickets && TicketSafe(p, k, w.tickets[k]);
    }
    RowsInOrder(t.ledger.Keys);
    RestoreGrantsNothing(NO_ROOMS, SortedPairs(t.ledger.Keys), t);
    hide Restore;
    hide SortedPairs;
    hide Reopen;
    hide Agreed;
    assert RestoreAll(t).grants == map[];
    hide RestoreAll;
    var v := Boot(w.tables, w.heartbeat, now, timeout);
    assert TicketsSafe(p, Reloaded(t, now + timeout));
    hide TicketsSafe;
    hide Reloaded;
  }

  lemma OlderHeartbeat(w: World, live: set<Handle>, now: nat)
    requires Agreed(w)
    ensures Older(w, Expire(w.(heartbeat := now), live, now))
  {
    HeartbeatAgrees(w, now);
    hide Agreed;
    hide Expire;
    OlderExpire(w.(heartbeat := now), live, now);
    OlderBeat(w, Expire(w.(heartbeat := now), live, now), now);
  }

  /** Steps other than joins, reports and restarts add nothing. */
  lemma QuietSteps(w: World, e: Event, live: set<Handle>, now: nat)
    requires Agreed(w) && !e.Join? && !e.Reported? && !e.Restart?
    ensures Older(w, Step(w, e, live, now))
  {
    OlderSelf(w);
    hide Agreed;
    hide Older;
    match e
    case Login(h, user, device, capable) =>
      LoginAddsNothing(w, h, user, device, capable, live, now);
    case Leave(h, user, room) =>
      OlderLeave(w, user, room);
      hide Settle;
      hide InTransmission;
    case Kick(h, user, remote, room) =>
      OlderLeave(w, remote, room);
      hide Settle;
      hide Authorized;
    case Closed(h) =>
      OlderClosed(w, h);
      hide Settle;
    case Heartbeat =>
      OlderHeartbeat(w, live, now);
      hide Expire;
    case Sweep =>
      OlderSweep(w, live);
      hide Settle;
    case AdminDisconnect(room) =>
      OlderAdmin(w, room);
      hide AdminStep;
  }

  lemma OlderBeat(w: World, v: World, now: nat)
    requires Older(w.(heartbeat := now), v)
    ensures Older(w, v)
  {
  }

  lemma AnnounceAddsNothing(w: World, b: World, h: Handle, capable: bool, live: set<Handle>, now: nat)
    requires b == w.(rooms := b.rooms) && b.rooms.grants == w.rooms.grants
    ensures Older(w, Announce(b, h, capable, live, now))
  {
    hide Answers;
    OlderSelf(w);
  }

  lemma LoginAddsNothing(w: World, h: Handle, user: string, device: string, capable: bool, live: set<Handle>, now: nat)
    requires Agreed(w)
    ensures Older(w, LoginStep(w, h, user, device, capable, live, now))
  {
    hide Agreed;
    hide Answers;
    OlderSelf(w);
    var a := BindUser(w.rooms, user, h, device, now, live).0;
    assert a.grants == w.rooms.grants;
    hide BindUser;
    var b := w.(rooms := BindHost(a, user, user).0);
    assert b.rooms.grants == w.rooms.grants;
    hide BindHost;
    AnnounceAddsNothing(w, b, h, capable, live, now);
    hide Older;
    hide Announce;
  }

  lemma OlderLeave(w: World, guest: string, room: string)
    requires Agreed(w)
    ensures Older(w, Settle(w, ReleaseRoom(w.rooms, room)))
    ensures Older(w, Settle(w, DropGuest(w.rooms, guest, room).0))
  {
    DropExactly(w.rooms, (room, guest));
    NoNotes(w.rooms);
    ReleaseRoomValid(Members(w.rooms.guests), w.rooms, room);
    QuietRoom(w.rooms, room);
    OlderSettle(w, ReleaseRoom(w.rooms, room));
    OlderSettle(w, DropGuest(w.rooms, guest, room).0);
    hide Agreed;
    hide Settle;
    hide Older;
  }

  lemma OlderClosed(w: World, h: Handle)
    requires Agreed(w)
    ensures Older(w, Settle(w, ReleaseSession(w.rooms, h).0))
  {
    NoNotes(w.rooms);
    SessionEnds(Members(w.rooms.guests), w.rooms, h);
    QuietSession(w.rooms, h);
    hide ReleaseSession;
    OlderSettle(w, ReleaseSession(w.rooms, h).0);
    hide Agreed;
    hide Older;
  }

  lemma OlderSweep(w: World, live: set<Handle>)
    requires Agreed(w)
    ensures Older(w, Settle(w, Prune(w.rooms, live).0))
  {
    NoNotes(w.rooms);
    PruneExactly(Members(w.rooms.guests), w.rooms, live);
    QuietPrune(w.rooms, live);
    hide Prune;
    OlderSettle(w, Prune(w.rooms, live).0);
    hide Agreed;
    hide Older;
  }

  lemma OlderAdmin(w: World, room: string)
    requires Agreed(w)
    ensures Older(w, AdminStep(w, room))
  {
    OlderSelf(w);
    OlderLeave(w, "", room);
    var a := if room in w.rooms.hosts then Settle(w, ReleaseRoom(w.rooms, room)) else w;
    assert Older(a, a.(tables := EndRoom(a.tables, room).0)) by {
      hide GrantedOn;
      hide Settle;
    }
    hide Older;
    hide Settle;
    hide Agreed;
    hide EndRoom;
    hide RoomRecovering;
    OlderChain(w, a, a.(tables := EndRoom(a.tables, room).0));
  }

  lemma StepSafe(p: History, w: World, e: Event, live: set<Handle>, now: nat)
    requires Agreed(w) && Safe(p, w)
    ensures Safe(Remember(p, w, e, live, now), Step(w, e, live, now))
  {
    hide Agreed;
    hide Safe;
    hide JoinStep;
    hide Report;
    hide Boot;
    hide Older;
    if e.Join? {
      JoinSafe(p, w, e.handle, e.user, e.room, e.token, live, now);
    } else if e.Reported? {
      ReportSafe(p, w, e.handle, e.key, e.token, e.alive, live, now);
    } else if e.Restart? {
      BootSafe(p, w, now, e.timeout);
    } else {
      QuietSteps(w, e, live, now);
      hide Step;
      OlderSafe(p, w, Step(w, e, live, now));
    }
  }

  /** The history of a run. */
  ghost function Recall(p: History, w: World, events: seq<Timed>): History
    decreases |events|
  {
    if events == [] then p
    else
      var before := events[..|events| - 1];
      var last := events[|events| - 1];
      Remember(Recall(p, w, before), Run(w, before), last.event, last.live, last.now)
  }

  lemma {:induction false} RunSafe(p: History, w: World, events: seq<Timed>)
    requires Agreed(w) && Safe(p, w)
    ensures Safe(Recall(p, w, events), Run(w, events))
    decreases |events|
  {
    hide Agreed;
    hide Safe;
    hide Step;
    hide Remember;
    if events != [] {
      var before := events[..|events| - 1];
      var last := events[|events| - 1];
      RunSafe(p, w, before);
      RunAgrees(w, before);
      StepSafe(Recall(p, w, before), Run(w, before), last.event, last.live, last.now);
    }
  }

  /** What the first start may count as joined: the rows it finds. */
  ghost function Inherited(t: Tables): History {
    History(t.ledger.Keys, {}, set k | k in t.saved :: (k, t.saved[k].token), {})
  }

  lemma FirstBootSafe(tables: Tables, heartbeat: nat, now: nat, timeout: nat)
    requires GoodTables(tables)
    ensures Safe(Inherited(tables), Boot(tables, heartbeat, now, timeout))
  {
    var p := Inherited(tables);
    var t := Reopen(tables, heartbeat, now);
    ReopenGood(tables, heartbeat, now);
    RowsInOrder(t.ledger.Keys);
    RestoreGrantsNothing(NO_ROOMS, SortedPairs(t.ledger.Keys), t);
    hide Restore;
    hide SortedPairs;
    hide Reopen;
    assert RestoreAll(t).grants == map[];
    hide RestoreAll;
    forall k | k in t.saved
      ensures k in p.joined && (k, t.saved[k].token) in p.issued
    {
    }
    assert TicketsSafe(p, Reloaded(t, now + timeout));
    hide TicketsSafe;
    hide Reloaded;
  }

  /** Over any run with crashes: every session and ticket was authorized by a
      join, every ready end of a ticket reported its token, in time while it was
      recovering, and every connection holding a room joined it itself or was
      let back by reports from both ends naming the token of such a join. */
  lemma RunRestoresOnlyJoins(tables: Tables, heartbeat: nat, now: nat, timeout: nat, events: seq<Timed>)
    requires GoodTables(tables)
    ensures var w := Run(Boot(tables, heartbeat, now, timeout), events);
            var p := Recall(Inherited(tables), Boot(tables, heartbeat, now, timeout), events);
            && w.tables.ledger.Keys <= p.joined
            && (forall k :: k in w.tickets ==> TicketSafe(p, k, w.tickets[k]))
            && (forall room, g, h: Handle :: GrantedOn(w.rooms.grants, room, g, h) ==> SeatSafe(p, (room, g), h))
  {
    BootAgrees(tables, heartbeat, now, timeout);
    FirstBootSafe(tables, heartbeat, now, timeout);
    hide Agreed;
    hide Boot;
    hide Inherited;
    RunSafe(Inherited(tables), Boot(tables, heartbeat, now, timeout), events);
    hide Run;
    hide Recall;
    hide TicketSafe;
    hide SeatSafe;
    hide GrantedOn;
  }

  /** Both ends reported the ticket in time, on connections that are live and
      still theirs. */
  ghost predicate BothReported(p: History, w: World, key: Pair, live: set<Handle>) {
    key in w.tickets &&
    var t := w.tickets[key];
    exists host: Handle, guest: Handle, a: nat, b: nat ::
      && Seen(key, t.token, host, key.0, a) in p.reports && a <= t.deadline
      && Seen(key, t.token, guest, key.1, b) in p.reports && b <= t.deadline
      && host in live && UserOf(w.rooms.users, host) == key.0
      && guest in live && UserOf(w.rooms.users, guest) == key.1
  }

  lemma VouchedBoth(p: History, w: World, t: Ticket, key: Pair, live: set<Handle>)
    requires key in w.tickets && t.token == w.tickets[key].token && t.deadline == w.tickets[key].deadline
    requires TicketSafe(p, key, t) && t.recovering && t.host == key.0
    requires Resumable(w.(tickets := w.tickets[key := t]), key, live)
    ensures BothReported(p, w, key, live)
  {
    var a: nat :| Seen(key, t.token, t.hostAt.value, key.0, a) in p.reports && (t.recovering ==> a <= t.deadline);
    var b: nat :| Seen(key, t.token, t.guestAt.value, key.1, b) in p.reports && (t.recovering ==> b <= t.deadline);
  }

  lemma ReportResumes(p: History, w: World, h: Handle, key: Pair, token: nat, live: set<Handle>, now: nat)
    requires Agreed(w) && Safe(p, w) && Accepts(w, h, key, token, now) && w.tickets[key].recovering
    requires var v := Report(w, h, key, token, true, live, now);
             key in v.tickets && !v.tickets[key].recovering
    ensures BothReported(Remember(p, w, Reported(h, key, token, true), live, now), w, key, live)
  {
    var t := Ready(w.tickets[key], UserOf(w.rooms.users, h), h);
    var a := w.(tickets := w.tickets[key := t]);
    WaitingIsLedgered(w, key);
    ReadyAgrees(w, key, t);
    ResumeEffect(a, key, live);
    hide Agreed;
    hide Resume;
    assert Resumable(a, key, live);
    hide Resumable;
    hide Reseated;
    hide Accepts;
    ReadySafe(p, w, h, key, token, live, now);
    var q := Remember(p, w, Reported(h, key, token, true), live, now);
    assert TicketSafe(q, key, a.tickets[key]);
    hide TicketSafe;
    VouchedBoth(q, w, t, key, live);
  }

  /** A ticket stops recovering only through a new join of the same guest or
      through a report of its token in time, once both ends have reported it. */
  lemma ResumeNeedsBothEnds(p: History, w: World, e: Event, live: set<Handle>, now: nat, key: Pair)
    requires Agreed(w) && Safe(p, w)
    requires key in w.tickets && w.tickets[key].recovering
    requires var v := Step(w, e, live, now);
             key in v.tickets && !v.tickets[key].recovering
    ensures || (e.Join? && key == (e.room, e.user) && Joins(w, e.handle, e.user, e.room, live))
            || (&& e.Reported? && e.alive && e.key == key && e.token == w.tickets[key].token && now <= w.tickets[key].deadline
                && BothReported(Remember(p, w, e, live, now), w, key, live))
  {
    var v := Step(w, e, live, now);
    hide Agreed;
    hide Safe;
    hide BothReported;
    hide Remember;
    hide JoinStep;
    hide Report;
    if e.Join? {
      JoinAddsOnly(w, e.handle, e.user, e.room, e.token, live);
      var own := (e.room, e.user);
      assert key != own ==> key in v.tickets - {own};
    } else if e.Reported? {
      if Accepts(w, e.handle, e.key, e.token, now) && e.alive && e.key == key {
        ReportResumes(p, w, e.handle, key, e.token, live, now);
      } else {
        ReportElsewhere(w, e.handle, e.key, e.token, e.alive, live, now, key);
      }
    } else if !e.Restart? {
      QuietSteps(w, e, live, now);
    }
    hide Step;
    hide Joins;
  }

  lemma ReportElsewhere(w: World, h: Handle, about: Pair, token: nat, alive: bool, live: set<Handle>, now: nat, key: Pair)
    requires Agreed(w) && key in w.tickets
    requires !(Accepts(w, h, about, token, now) && alive && about == key)
    ensures var v := Report(w, h, about, token, alive, live, now);
            key in v.tickets ==> v.tickets[key] == w.tickets[key]
  {
    if Accepts(w, h, about, token, now) {
      WaitingIsLedgered(w, about);
      RowNamed(w, about);
      if alive {
        var t := Ready(w.tickets[about], UserOf(w.rooms.users, h), h);
        var a := w.(tickets := w.tickets[about := t]);
        ReadyAgrees(w, about, t);
        ResumeEffect(a, about, live);
        hide Resume;
        hide GrantedOn;
        hide Members;
      } else {
        DismissExactly(w, about);
        hide Dismiss;
      }
    }
    hide Agreed;
    hide Accepts;
    hide Dismiss;
    hide Resume;
  }
}
