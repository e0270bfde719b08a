/** `SessionRecovery` with the rooms and tables it works on, as functions.

    Between steps no notification is pending: a step's notifications go to the
    session store as soon as the rooms' lock is released. `now` and the set of
    live handles are read at the start of a step. */
module RecoverySpec {
  import opened Ordering
  import opened RoomsSpec
  import opened SessionTables

  datatype Ticket = Ticket(
    host: string, token: nat,
    hostReady: bool, guestReady: bool, recovering: bool, deadline: nat,
    hostAt: Option<Handle>, guestAt: Option<Handle>)

  /** A session of a client without tickets, awaiting both identities. */
  datatype Legacy = Legacy(host: string, deadline: nat)

  datatype World = World(
    rooms: Rooms,
    tables: Tables,
    tickets: map<Pair, Ticket>,
    legacy: map<Pair, Legacy>,
    capable: set<Handle>,
    heartbeat: nat)

  const RECOVERY_WINDOW: nat := 120

  ghost predicate Exists(t: Tables, key: Pair, host: string) {
    key in t.ledger && t.ledger[key] == host
  }

  ghost predicate Recovering(w: World, key: Pair) {
    key in w.legacy || (key in w.tickets && w.tickets[key].recovering)
  }

  /** The rooms' lock is released: their notifications reach the tables. */
  ghost function Settle(w: World, r: Rooms): World {
    w.(rooms := r.(notes := []), tables := Deliver(w.tables, r.notes))
  }

  /** Forgets a ticket, its saved copy and any legacy entry. */
  ghost function Forget(w: World, key: Pair): World {
    w.(tables := w.tables.(saved := w.tables.saved - {key}), tickets := w.tickets - {key}, legacy := w.legacy - {key})
  }

  /** Ends a session: its membership if there is one, and its row. */
  ghost function Dismiss(w: World, key: Pair): World {
    var a := Settle(w, DropGuest(w.rooms, key.1, key.0).0);
    a.(tables := EndSession(a.tables, key.0, key.1).0)
  }

  ghost predicate Held(r: Rooms, at: Option<Handle>, id: string, live: set<Handle>) {
    at.Some? && at.value in live && UserOf(r.users, at.value) == id
  }

  /** Both identities of a legacy session are back in time. */
  ghost predicate Confirmed(w: World, key: Pair, live: set<Handle>, now: nat) {
    key in w.legacy &&
    var host := w.legacy[key].host;
    && now <= w.legacy[key].deadline && Exists(w.tables, key, host)
    && Held(w.rooms, Route(w.rooms, host), host, live)
    && Held(w.rooms, Route(w.rooms, key.1), key.1, live)
    && StartSession(w.tables, key.0, host, key.1).1
  }

  ghost predicate Answers(w: World, user: string, key: Pair, live: set<Handle>, now: nat) {
    key in w.legacy && (user == w.legacy[key].host || user == key.1) && Confirmed(w, key, live, now)
  }

  /** A login confirms the legacy sessions of its user. */
  ghost function Announce(w: World, h: Handle, capable: bool, live: set<Handle>, now: nat): World {
    var user := UserOf(w.rooms.users, h);
    w.(capable := if capable then w.capable + {h} else w.capable - {h},
       legacy := map k | k in w.legacy && !Answers(w, user, k, live, now) :: w.legacy[k])
  }

  ghost function PutTicket(w: World, key: Pair, ticket: Ticket): World {
    w.(tables := w.tables.(saved := w.tables.saved[key := SavedTicket(ticket.host, ticket.token)]),
       tickets := w.tickets[key := ticket])
  }

  /** A join supersedes what was recovering; capable clients get a new ticket. */
  ghost function Issue(w: World, room: string, host: string, guest: string, h: Handle, token: nat): World {
    var key := (room, guest);
    var hostAt := Route(w.rooms, host);
    var a := w.(legacy := w.legacy - {key});
    if hostAt.Some? && hostAt.value in w.capable && h in w.capable then
      PutTicket(a, key, Ticket(host, token, false, false, false, 0, hostAt, Some(h)))
    else if key in w.tickets then Forget(a, key)
    else a
  }

  /** Both ends of a ticket have reported on connections they still hold. */
  ghost predicate Resumable(w: World, key: Pair, live: set<Handle>) {
    key in w.tickets &&
    var t := w.tickets[key];
    && t.hostReady && t.guestReady && Held(w.rooms, t.hostAt, t.host, live) && Held(w.rooms, t.guestAt, key.1, live)
  }

  /** The guest is back in the room, as `r` has it. */
  ghost function Reseat(w: World, key: Pair, r: Rooms): World
    requires key in w.tickets
  {
    var t := w.tickets[key];
    var s := Settle(w, r);
    var (tables, started) := StartSession(s.tables, key.0, t.host, key.1);
    if started then s.(tables := tables, tickets := s.tickets[key := t.(recovering := false)]) else s
  }

  ghost function Resume(w: World, key: Pair, live: set<Handle>): World {
    if !Resumable(w, key, live) then w
    else
      var t := w.tickets[key];
      var a := if key.0 in w.rooms.hosts then w.rooms else BindHost(w.rooms, t.host, key.0).0;
      var (b, granted) := GrantGuest(a, key.1, key.0, t.guestAt.value, live);
      if granted then Reseat(w, key, b) else w.(rooms := a)
  }

  ghost predicate Accepts(w: World, h: Handle, key: Pair, token: nat, now: nat) {
    key in w.tickets &&
    var t := w.tickets[key];
    && token == t.token && (UserOf(w.rooms.users, h) == t.host || UserOf(w.rooms.users, h) == key.1)
    && Exists(w.tables, key, t.host) && (t.recovering ==> now <= t.deadline)
  }

  ghost function Ready(t: Ticket, user: string, h: Handle): Ticket {
    if user == t.host then t.(hostReady := true, hostAt := Some(h)) else t.(guestReady := true, guestAt := Some(h))
  }

  ghost function Report(w: World, h: Handle, key: Pair, token: nat, alive: bool, live: set<Handle>, now: nat): World {
    if !Accepts(w, h, key, token, now) then w
    else if !alive then Forget(Dismiss(w, key), key)
    else Resume(w.(tickets := w.tickets[key := Ready(w.tickets[key], UserOf(w.rooms.users, h), h)]), key, live)
  }

  ghost function ExpireTicket(w: World, key: Pair, now: nat): World {
    if key !in w.tickets then w
    else
      var t := w.tickets[key];
      if Exists(w.tables, key, t.host) && !(t.recovering && now > t.deadline) then w
      else Forget(if t.recovering then Dismiss(w, key) else w, key)
  }

  ghost function ExpireTickets(w: World, keys: seq<Pair>, now: nat): World
    decreases |keys|
  {
    if keys == [] then w else ExpireTickets(ExpireTicket(w, keys[0], now), keys[1..], now)
  }

  ghost function ExpireLegacy(w: World, key: Pair, live: set<Handle>, now: nat): World {
    if key !in w.legacy then w
    else if !Exists(w.tables, key, w.legacy[key].host) then w.(legacy := w.legacy - {key})
    else if now > w.legacy[key].deadline then
      var a := Dismiss(w, key);
      a.(legacy := a.legacy - {key})
    else if Confirmed(w, key, live, now) then w.(legacy := w.legacy - {key})
    else w
  }

  ghost function ExpireLegacies(w: World, keys: seq<Pair>, live: set<Handle>, now: nat): World
    decreases |keys|
  {
    if keys == [] then w else ExpireLegacies(ExpireLegacy(w, keys[0], live, now), keys[1..], live, now)
  }

  ghost function Expire(w: World, live: set<Handle>, now: nat): World {
    var a := w.(capable := w.capable * live);
    var b := ExpireTickets(a, SortedPairs(a.tickets.Keys), now);
    ExpireLegacies(b, SortedPairs(b.legacy.Keys), live, now)
  }

  // ----------------------------------------------------------------- startup

  /** Stale sessions are cleared, and saved tickets without a session. */
  ghost function Reopen(t: Tables, heartbeat: nat, now: nat): Tables {
    var kept := if heartbeat > 0 && heartbeat + RECOVERY_WINDOW >= now then t else Erase(t, t.ledger.Keys);
    kept.(saved := map k | k in kept.saved && k in kept.ledger :: kept.saved[k])
  }

  /** Memberships of the rows that no ticket manages. */
  ghost function Restore(r: Rooms, rows: seq<Pair>, t: Tables): Rooms
    requires forall k :: k in rows ==> k in t.ledger
    decreases |rows|
  {
    if rows == [] then r
    else
      var a := BindHost(r, t.ledger[rows[0]], rows[0].0).0;
      var b := if rows[0] in t.saved then a else AddGuest(a, rows[0].1, rows[0].0).0;
      Restore(b, rows[1..], t)
  }

  ghost function RestoreAll(t: Tables): Rooms {
    assert forall k :: k in SortedPairs(t.ledger.Keys) ==> k in t.ledger by {
      forall k
        ensures k in SortedPairs(t.ledger.Keys) ==> k in t.ledger
      {
        SortedPairsHas(t.ledger.Keys, k);
      }
    }
    Restore(NO_ROOMS, SortedPairs(t.ledger.Keys), t)
  }

  /** Saved tickets wait for both ends to report again. */
  ghost function Reloaded(t: Tables, deadline: nat): map<Pair, Ticket> {
    map k | k in t.saved :: Ticket(t.saved[k].host, t.saved[k].token, false, false, true, deadline, None, None)
  }

  ghost function Unticketed(t: Tables, deadline: nat): map<Pair, Legacy> {
    map k | k in t.ledger && k !in t.saved :: Legacy(t.ledger[k], deadline)
  }

  /** A process starts on the tables; the callback is installed last. */
  ghost function Boot(tables: Tables, heartbeat: nat, now: nat, timeout: nat): World {
    var t := Reopen(tables, heartbeat, now);
    World(RestoreAll(t).(watched := true), t, Reloaded(t, now + timeout), Unticketed(t, now + timeout), {}, now)
  }

  // ------------------------------------------------------------------- steps

  datatype Event =
    | Login(handle: Handle, user: string, device: string, capable: bool)
    | Join(handle: Handle, user: string, room: string, token: nat)
    | Leave(handle: Handle, user: string, room: string)
    | Kick(handle: Handle, user: string, remote: string, room: string)
    | Reported(handle: Handle, key: Pair, token: nat, alive: bool)
    | Closed(handle: Handle)
    | Heartbeat
    | Sweep
    | AdminDisconnect(room: string)
    | Restart(timeout: nat)

  ghost function LoginStep(w: World, h: Handle, user: string, device: string, capable: bool, live: set<Handle>, now: nat): World {
    if h in w.rooms.users then w
    else
      var (a, bound) := BindUser(w.rooms, user, h, device, now, live);
      if !bound then w else Announce(w.(rooms := BindHost(a, user, user).0), h, capable, live, now)
  }

  /** The room's password was accepted for `h`; `token` is a fresh random one. */
  ghost function JoinStep(w: World, h: Handle, user: string, room: string, token: nat, live: set<Handle>): World {
    var host := HostOf(w.rooms, room);
    if host == "" || !(Route(w.rooms, host).Some? && Route(w.rooms, host).value in live) then w
    else
      var (r, granted) := GrantGuest(w.rooms, user, room, h, live);
      if !granted then w
      else
        var s := Settle(w, r);
        Issue(s.(tables := StartSession(s.tables, room, host, user).0), room, host, user, h, token)
  }

  ghost function LeaveStep(w: World, h: Handle, user: string, room: string, live: set<Handle>): World {
    if user == "" || room == "" || UserOf(w.rooms.users, h) != user || !InTransmission(w.rooms, h, room, live) then w
    else if HostOf(w.rooms, room) == user then Settle(w, ReleaseRoom(w.rooms, room))
    else Settle(w, DropGuest(w.rooms, user, room).0)
  }

  ghost function KickStep(w: World, h: Handle, user: string, remote: string, room: string, live: set<Handle>): World {
    if !Authorized(w.rooms, h, user, remote, room, live) || HostOf(w.rooms, room) != user then w
    else Settle(w, DropGuest(w.rooms, remote, room).0)
  }

  ghost predicate RoomRecovering(w: World, room: string) {
    exists guest :: (room, guest) in w.tables.ledger && Recovering(w, (room, guest))
  }

  /** Refused while any session of the room is recovering. */
  ghost function AdminStep(w: World, room: string): World {
    if room == "" || RoomRecovering(w, room) then w
    else
      var a := if room in w.rooms.hosts then Settle(w, ReleaseRoom(w.rooms, room)) else w;
      a.(tables := EndRoom(a.tables, room).0)
  }

  ghost function Step(w: World, e: Event, live: set<Handle>, now: nat): World {
    match e
    case Login(h, user, device, capable) => LoginStep(w, h, user, device, capable, live, now)
    case Join(h, user, room, token) => JoinStep(w, h, user, room, token, live)
    case Leave(h, user, room) => LeaveStep(w, h, user, room, live)
    case Kick(h, user, remote, room) => KickStep(w, h, user, remote, room, live)
    case Reported(h, key, token, alive) => Report(w, h, key, token, alive, live, now)
    case Closed(h) => Settle(w, ReleaseSession(w.rooms, h).0)
    case Heartbeat => Expire(w.(heartbeat := now), live, now)
    case Sweep => Settle(w, Prune(w.rooms, live).0)
    case AdminDisconnect(room) => AdminStep(w, room)
    case Restart(timeout) => Boot(w.tables, w.heartbeat, now, timeout)
  }

  datatype Timed = Timed(event: Event, live: set<Handle>, now: nat)

  /** A process started on some tables, and everything that happens after. */
  ghost function Run(w: World, events: seq<Timed>): World
    decreases |events|
  {
    if events == [] then w
    else
      var last := events[|events| - 1];
      Step(Run(w, events[..|events| - 1]), last.event, last.live, last.now)
  }

  // --------------------------------------------------------------- invariant

  ghost predicate GoodRow(key: Pair, host: string) {
    host == key.0 && key.0 != "" && key.1 != "" && key.1 != key.0 && !Temporary(key.0)
  }

  ghost predicate GoodTables(t: Tables) {
    && (forall k :: k in t.ledger ==> GoodRow(k, t.ledger[k]))
    && (forall k :: k in t.saved ==> t.saved[k].host == k.0)
  }

  /** Rooms carry the name of their host. */
  ghost predicate Keyed(hosts: map<string, string>) {
    forall room :: room in hosts ==> hosts[room] == room && room != ""
  }

  ghost function Waiting(tickets: map<Pair, Ticket>): set<Pair> {
    set k | k in tickets && tickets[k].recovering
  }

  /** Tickets and their saved copies match wherever the session still exists. */
  ghost predicate Saved(t: Tables, tickets: map<Pair, Ticket>) {
    && (forall k :: k in t.saved <==> k in tickets && k in t.ledger)
    && (forall k :: k in t.saved ==> t.saved[k] == SavedTicket(tickets[k].host, tickets[k].token))
    && (forall k :: k in tickets ==> tickets[k].host == k.0)
  }

  /** The ledger is the memberships plus the tickets still recovering. */
  ghost predicate Accounted(ledger: set<Pair>, members: set<Pair>, waiting: set<Pair>) {
    ledger == members + waiting && members !! waiting
  }

  /** Consistent rooms with the callback installed and nothing to deliver. */
  ghost predicate Calm(r: Rooms) {
    Valid(r) && r.watched && r.notes == [] && Keyed(r.hosts)
  }

  ghost predicate Agreed(w: World) {
    && Calm(w.rooms)
    && GoodTables(w.tables)
    && Saved(w.tables, w.tickets)
    && Accounted(w.tables.ledger.Keys, Members(w.rooms.guests), Waiting(w.tickets))
    && (forall k :: k in w.legacy ==> w.legacy[k].host == k.0)
    && w.legacy.Keys !! Waiting(w.tickets)
  }
}
