/** The state of `TransmissionManager`: rooms, memberships, grants and routes,
    with its operations as functions.

    A `Handle` names a connection by its owner, which outlives the connection;
    `live` is the set of handles that have not expired. `notes` is history: the
    start and end notifications issued since the callback was installed. */
module RoomsSpec {
  import opened Ordering

  type Handle = nat

  datatype Note = Note(room: string, host: string, guest: string, started: bool)

  datatype Rooms = Rooms(
    hosts: map<string, string>,
    guests: map<string, seq<string>>,
    grants: map<string, map<string, Handle>>,
    routes: map<string, Handle>,
    users: map<Handle, string>,
    verified: map<Handle, string>,
    active: map<Handle, nat>,
    watched: bool,
    notes: seq<Note>)

  const NO_ROOMS := Rooms(map[], map[], map[], map[], map[], map[], map[], false, [])

  predicate Prefixed(id: string, prefix: string) {
    |prefix| <= |id| && id[..|prefix|] == prefix
  }

  predicate Temporary(id: string) {
    Prefixed(id, "web-") || Prefixed(id, "cli-")
  }

  predicate Alias(id: string) {
    Prefixed(id, "C-")
  }

  function Guests(guests: map<string, seq<string>>, room: string): seq<string> {
    if room in guests then guests[room] else []
  }

  function Without(list: seq<string>, x: string): (r: seq<string>)
    ensures forall y :: y in r <==> y in list && y != x
  {
    if list == [] then []
    else (if list[0] == x then [] else [list[0]]) + Without(list[1..], x)
  }

  function HostOf(r: Rooms, room: string): string {
    if room in r.hosts then r.hosts[room] else ""
  }

  function UserOf(users: map<Handle, string>, h: Handle): string {
    if h in users then users[h] else ""
  }

  predicate Connected(users: map<Handle, string>, user: string) {
    exists h :: h in users && users[h] == user
  }

  ghost function Notify(r: Rooms, note: Note): Rooms {
    if r.watched then r.(notes := r.notes + [note]) else r
  }

  ghost function Ends(room: string, host: string, guests: seq<string>): seq<Note> {
    if guests == [] then [] else [Note(room, host, guests[0], false)] + Ends(room, host, guests[1..])
  }

  // ------------------------------------------------------------- operations

  ghost function ReleaseRoom(r: Rooms, room: string): Rooms {
    r.(notes := if r.watched then r.notes + Ends(room, HostOf(r, room), Guests(r.guests, room)) else r.notes,
       guests := r.guests - {room},
       grants := r.grants - {room},
       hosts := r.hosts - {room})
  }

  function Revoke(grants: map<string, map<string, Handle>>, room: string, guest: string): map<string, map<string, Handle>> {
    if room !in grants then grants
    else
      var left := grants[room] - {guest};
      if left == map[] then grants - {room} else grants[room := left]
  }

  function PutGuests(guests: map<string, seq<string>>, room: string, list: seq<string>): map<string, seq<string>> {
    if list == [] then guests - {room} else guests[room := list]
  }

  ghost function DropGuest(r: Rooms, guest: string, room: string): (Rooms, bool) {
    if guest !in Guests(r.guests, room) then (r, false)
    else (Notify(r, Note(room, HostOf(r, room), guest, false))
          .(guests := PutGuests(r.guests, room, Without(r.guests[room], guest)),
            grants := Revoke(r.grants, room, guest)), true)
  }

  ghost function DropFrom(r: Rooms, guest: string, rooms: seq<string>): Rooms
    decreases |rooms|
  {
    if rooms == [] then r else DropFrom(DropGuest(r, guest, rooms[0]).0, guest, rooms[1..])
  }

  ghost function DropEverywhere(r: Rooms, guest: string): Rooms {
    DropFrom(r, guest, SortedKeys(r.guests.Keys))
  }

  ghost function BindHost(r: Rooms, host: string, room: string): (Rooms, bool) {
    if Temporary(host) || Temporary(room) || room in r.hosts then (r, false)
    else (r.(hosts := r.hosts[room := host]), true)
  }

  ghost function AddGuest(r: Rooms, guest: string, room: string): (Rooms, bool) {
    if guest == "" || room == "" || room !in r.hosts || r.hosts[room] == guest
       || guest in Guests(r.guests, room) then (r, false)
    else (Notify(r, Note(room, r.hosts[room], guest, true))
          .(guests := r.guests[room := Guests(r.guests, room) + [guest]]), true)
  }

  function PutGrant(grants: map<string, map<string, Handle>>, room: string, guest: string, h: Handle): map<string, map<string, Handle>> {
    grants[room := (if room in grants then grants[room] else map[])[guest := h]]
  }

  /** A password-authorized join: membership and the grant of the room to `h`. */
  ghost function GrantGuest(r: Rooms, guest: string, room: string, h: Handle, live: set<Handle>): (Rooms, bool) {
    if guest == "" || h !in live || UserOf(r.users, h) != guest || room !in r.hosts || r.hosts[room] == guest then (r, false)
    else
      var (a, added) := AddGuest(r, guest, room);
      if guest !in Guests(r.guests, room) && !added then (a, false)
      else (a.(grants := PutGrant(a.grants, room, guest, h)), true)
  }

  ghost function BindUser(r: Rooms, user: string, h: Handle, device: string, now: nat, live: set<Handle>): (Rooms, bool) {
    if user == "" || h !in live || (h in r.users && r.users[h] != user) then (r, false)
    else (r.(routes := if Alias(user) && user in r.routes then r.routes else r.routes[user := h],
             users := r.users[h := user],
             verified := if device == "" then r.verified else r.verified[h := device],
             active := r.active[h := now]), true)
  }

  /** The first handle, in owner order, that is bound to `user`. */
  function FirstHandle(handles: seq<Handle>, users: map<Handle, string>, user: string): Option<Handle>
    requires forall h :: h in handles ==> h in users
  {
    if handles == [] then None
    else if users[handles[0]] == user then Some(handles[0])
    else FirstHandle(handles[1..], users, user)
  }

  /** Routes once `h` is unbound: its user's moves to another handle or vanishes. */
  function Reroute(routes: map<string, Handle>, users: map<Handle, string>, h: Handle): map<string, Handle>
    requires h in users
  {
    var left := users - {h};
    if users[h] in routes && routes[users[h]] == h then
      var other := FirstHandle(SortedNats(left.Keys), left, users[h]);
      if other.Some? then routes[users[h] := other.value] else routes - {users[h]}
    else routes
  }

  /** Unbinds a handle; the result names the user it was bound to. */
  ghost function ReleaseHandle(r: Rooms, h: Handle): (Rooms, string) {
    (r.(users := r.users - {h},
        routes := if h in r.users then Reroute(r.routes, r.users, h) else r.routes,
        verified := r.verified - {h},
        active := r.active - {h}), UserOf(r.users, h))
  }

  predicate GrantedOn(grants: map<string, map<string, Handle>>, room: string, user: string, h: Handle) {
    room in grants && user in grants[room] && grants[room][user] == h
  }

  function RoomsGranted(grants: map<string, map<string, Handle>>, rooms: seq<string>, user: string, h: Handle): seq<string> {
    if rooms == [] then []
    else (if GrantedOn(grants, rooms[0], user, h) then [rooms[0]] else []) + RoomsGranted(grants, rooms[1..], user, h)
  }

  /** The first room this user hosts; a room named "" hides the ones after it. */
  function FirstHosted(hosts: map<string, string>, rooms: seq<string>, user: string): (room: string)
    requires forall k :: k in rooms ==> k in hosts
    ensures room != "" ==> room in rooms && hosts[room] == user
    ensures room == "" ==> ("" in rooms && hosts[""] == user) || forall k :: k in rooms ==> hosts[k] != user
  {
    if rooms == [] then ""
    else if hosts[rooms[0]] == user then rooms[0]
    else FirstHosted(hosts, rooms[1..], user)
  }

  /** The user's memberships granted on `h`, given back. */
  ghost function TakeBack(r: Rooms, user: string, h: Handle): Rooms {
    DropFrom(r, user, RoomsGranted(r.grants, SortedKeys(r.grants.Keys), user, h))
  }

  /** The user's last connection is gone: it leaves all rooms and closes its own. */
  ghost function Depart(r: Rooms, user: string): Rooms {
    var s := DropEverywhere(r, user);
    var room := FirstHosted(s.hosts, SortedKeys(s.hosts.Keys), user);
    if room != "" then ReleaseRoom(s, room) else s
  }

  /** A connection ends: the id that logged out, or "" when none did. */
  ghost function ReleaseSession(r: Rooms, h: Handle): (Rooms, string) {
    var (a, user) := ReleaseHandle(r, h);
    if user == "" then (a, "")
    else
      var b := TakeBack(a, user, h);
      if Connected(b.users, user) then (b, "") else (Depart(b, user), user)
  }

  /** A heartbeat; connections that are not logged in have none. */
  ghost function Beat(r: Rooms, h: Handle, now: nat): (Rooms, bool) {
    if h in r.users then (r.(active := r.active[h := now]), true) else (r, false)
  }

  const INACTIVITY: nat := 30

  predicate Inactive(active: map<Handle, nat>, h: Handle, live: set<Handle>, now: nat) {
    h in active && (h !in live || now > active[h] + INACTIVITY)
  }

  /** The inactive connections among the given ones end, in turn; the result
      names each with the id it logged out, if any. */
  ghost function ExpireFrom(r: Rooms, handles: seq<Handle>, live: set<Handle>, now: nat): (Rooms, seq<(Handle, string)>)
    decreases |handles|
  {
    if handles == [] then (r, [])
    else if !Inactive(r.active, handles[0], live, now) then ExpireFrom(r, handles[1..], live, now)
    else
      var (a, id) := ReleaseSession(r, handles[0]);
      var (b, ended) := ExpireFrom(a, handles[1..], live, now);
      (b, [(handles[0], id)] + ended)
  }

  ghost function ExpireInactive(r: Rooms, live: set<Handle>, now: nat): (Rooms, seq<(Handle, string)>) {
    ExpireFrom(r, SortedNats(r.active.Keys), live, now)
  }

  // ---------------------------------------------------------------- pruning

  function LostRooms(hosts: map<string, string>, users: map<Handle, string>, rooms: seq<string>): seq<string>
    requires forall k :: k in rooms ==> k in hosts
  {
    if rooms == [] then []
    else (if Connected(users, hosts[rooms[0]]) then [] else [rooms[0]]) + LostRooms(hosts, users, rooms[1..])
  }

  ghost function ReleaseRooms(r: Rooms, rooms: seq<string>): (Rooms, nat)
    decreases |rooms|
  {
    if rooms == [] then (r, 0)
    else
      var (a, n) := ReleaseRooms(ReleaseRoom(r, rooms[0]), rooms[1..]);
      (a, |Guests(r.guests, rooms[0])| + n)
  }

  /** Connected by the granted handle when there is one, else by any handle. */
  predicate Present(grants: map<string, map<string, Handle>>, users: map<Handle, string>, live: set<Handle>, room: string, guest: string) {
    if room in grants && guest in grants[room] then
      grants[room][guest] in live && UserOf(users, grants[room][guest]) == guest
    else Connected(users, guest)
  }

  function LostIn(grants: map<string, map<string, Handle>>, users: map<Handle, string>, live: set<Handle>, room: string, list: seq<string>): seq<(string, string)> {
    if list == [] then []
    else (if Present(grants, users, live, room, list[0]) then [] else [(room, list[0])]) + LostIn(grants, users, live, room, list[1..])
  }

  function LostGuests(guests: map<string, seq<string>>, grants: map<string, map<string, Handle>>, users: map<Handle, string>, live: set<Handle>, rooms: seq<string>): seq<(string, string)>
    requires forall k :: k in rooms ==> k in guests
  {
    if rooms == [] then []
    else LostIn(grants, users, live, rooms[0], guests[rooms[0]]) + LostGuests(guests, grants, users, live, rooms[1..])
  }

  ghost function DropPairs(r: Rooms, pairs: seq<(string, string)>): (Rooms, nat)
    decreases |pairs|
  {
    if pairs == [] then (r, 0)
    else
      var (a, dropped) := DropGuest(r, pairs[0].1, pairs[0].0);
      var (b, n) := DropPairs(a, pairs[1..]);
      (b, n + if dropped then 1 else 0)
  }

  ghost function PruneRooms(r: Rooms): (Rooms, nat) {
    ReleaseRooms(r, LostRooms(r.hosts, r.users, SortedKeys(r.hosts.Keys)))
  }

  ghost function PruneGuests(r: Rooms, live: set<Handle>): (Rooms, nat) {
    DropPairs(r, LostGuests(r.guests, r.grants, r.users, live, SortedKeys(r.guests.Keys)))
  }

  ghost function Prune(r: Rooms, live: set<Handle>): (Rooms, nat) {
    var (a, n) := PruneRooms(r);
    var (b, m) := PruneGuests(a, live);
    (b, n + m)
  }

  // ---------------------------------------------------------------- queries

  function Route(r: Rooms, user: string): Option<Handle> {
    if user in r.routes then Some(r.routes[user]) else None
  }

  /** The handle through which a member of the room is reached. */
  function MemberHandle(r: Rooms, user: string, room: string): Option<Handle> {
    if user == "" || room == "" || room !in r.hosts then None
    else if r.hosts[room] == user then Route(r, user)
    else if room in r.grants && user in r.grants[room] && UserOf(r.users, r.grants[room][user]) == user then
      Some(r.grants[room][user])
    else None
  }

  predicate InTransmission(r: Rooms, h: Handle, room: string, live: set<Handle>) {
    h in live && MemberHandle(r, UserOf(r.users, h), room) == Some(h)
  }

  /** `IsAuthorizedPeerSignal`: may `h`, as `user`, signal `remote` in the room? */
  predicate Authorized(r: Rooms, h: Handle, user: string, remote: string, room: string, live: set<Handle>) {
    && h in live && user != "" && remote != "" && room != "" && user != remote
    && UserOf(r.users, h) == user
    && HostOf(r, room) != ""
    && (user == HostOf(r, room) || remote == HostOf(r, room))
    && InTransmission(r, h, room, live)
    && MemberHandle(r, remote, room).Some? && MemberHandle(r, remote, room).value in live
  }

  // -------------------------------------------------------------- invariant

  ghost predicate NoDup(list: seq<string>) {
    list == [] || (list[0] !in list[1..] && NoDup(list[1..]))
  }

  ghost predicate GoodList(host: string, room: string, list: seq<string>) {
    room != "" && list != [] && NoDup(list) && "" !in list && host !in list
  }

  /** Rooms with guests have a host, who is not among them. */
  ghost predicate GoodRooms(hosts: map<string, string>, guests: map<string, seq<string>>) {
    && (forall room :: room in guests ==> room in hosts && GoodList(hosts[room], room, guests[room]))
    && (forall room :: room in hosts ==> !Temporary(room) && !Temporary(hosts[room]))
  }

  /** Every route leads to a handle of its user, and every bound user has one. */
  ghost predicate Agree(routes: map<string, Handle>, users: map<Handle, string>) {
    && (forall u :: u in routes ==> routes[u] in users && users[routes[u]] == u)
    && (forall h :: h in users ==> users[h] in routes && users[h] != "")
  }

  ghost predicate Indexed(r: Rooms) {
    Agree(r.routes, r.users) && r.verified.Keys <= r.users.Keys && r.active.Keys <= r.users.Keys
  }

  /** Every grant is to a member, on a handle bound to it; a handle `h` that was
      just unbound from `user` may still carry grants of that user. */
  ghost predicate GrantsFor(r: Rooms, h: Handle, user: string) {
    forall room, g :: room in r.grants && g in r.grants[room] ==>
      && g in Guests(r.guests, room)
      && (UserOf(r.users, r.grants[room][g]) == g || (g == user && r.grants[room][g] == h))
  }

  ghost predicate GoodGrants(r: Rooms) {
    forall room, g :: room in r.grants && g in r.grants[room] ==>
      g in Guests(r.guests, room) && UserOf(r.users, r.grants[room][g]) == g
  }

  ghost predicate Valid(r: Rooms) {
    GoodRooms(r.hosts, r.guests) && Indexed(r) && GoodGrants(r)
  }

  ghost function Members(guests: map<string, seq<string>>): set<(string, string)> {
    set room, g | room in guests && g in guests[room] :: (room, g)
  }

  /** Applies notifications to a membership; `None` when a start finds its pair
      present or an end finds it absent. */
  ghost function Replay(base: set<(string, string)>, notes: seq<Note>): Option<set<(string, string)>> {
    if notes == [] then Some(base)
    else
      var n := notes[|notes| - 1];
      var before := Replay(base, notes[..|notes| - 1]);
      if before.None? || n.started == ((n.room, n.guest) in before.value) then None
      else Some(if n.started then before.value + {(n.room, n.guest)} else before.value - {(n.room, n.guest)})
  }

  /** The notifications since installation lead from `base` to the membership. */
  ghost predicate Replayed(base: set<(string, string)>, r: Rooms) {
    r.watched ==> Replay(base, r.notes) == Some(Members(r.guests))
  }
}
