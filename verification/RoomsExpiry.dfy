/** Expiry of inactive connections. */
module RoomsExpiry {
  import opened Ordering
  import opened RoomsSpec
  import opened RoomsFacts
  import opened RoomsRelease
  import opened RoomsQuiet

  lemma BeatKeeps(base: set<(string, string)>, r: Rooms, h: Handle, now: nat)
    requires Valid(r) && Replayed(base, r)
    ensures Valid(Beat(r, h, now).0) && Replayed(base, Beat(r, h, now).0)
  {
    hide GoodRooms;
    hide Agree;
    hide Replay;
  }

  // ------------------------------------------------------------ one connection

  lemma {:induction false} DropFromIndex(r: Rooms, guest: string, rooms: seq<string>)
    ensures SameIndex(r, DropFrom(r, guest, rooms))
    decreases |rooms|
  {
    if rooms != [] {
      var s := DropGuest(r, guest, rooms[0]).0;
      assert SameIndex(r, s);
      hide DropGuest;
      DropFromIndex(s, guest, rooms[1..]);
    }
  }

  lemma DepartIndex(r: Rooms, user: string)
    ensures SameIndex(r, Depart(r, user))
  {
    DropFromIndex(r, user, SortedKeys(r.guests.Keys));
    hide DropFrom;
    hide FirstHosted;
  }

  lemma TakeBackIndex(r: Rooms, user: string, h: Handle)
    ensures SameIndex(r, TakeBack(r, user, h))
  {
    DropFromIndex(r, user, RoomsGranted(r.grants, SortedKeys(r.grants.Keys), user, h));
    hide DropFrom;
    hide RoomsGranted;
  }

  lemma HandleUnbinds(r: Rooms, h: Handle)
    ensures var s := ReleaseHandle(r, h).0;
            s.users == r.users - {h} && s.active == r.active - {h}
  {
    hide Reroute;
  }

  /** Ending a connection unbinds that connection and no other. */
  lemma SessionUnbinds(r: Rooms, h: Handle)
    ensures var s := ReleaseSession(r, h).0;
            s.users == r.users - {h} && s.active == r.active - {h}
  {
    hide ReleaseHandle;
    hide TakeBack;
    hide Depart;
    hide Connected;
    var a, user := ReleaseHandle(r, h).0, ReleaseHandle(r, h).1;
    HandleUnbinds(r, h);
    TakeBackIndex(a, user, h);
    DepartIndex(TakeBack(a, user, h), user);
  }

  // ------------------------------------------------------- all that are inactive

  ghost function InactiveOf(r: Rooms, handles: seq<Handle>, live: set<Handle>, now: nat): set<Handle> {
    set h | h in handles && Inactive(r.active, h, live, now)
  }

  /** The handles in `gone` are unbound and hold no grant; nothing was gained. */
  ghost predicate Unbound(r: Rooms, s: Rooms, gone: set<Handle>) {
    && s.users == r.users - gone && s.active == r.active - gone
    && (forall h :: h in gone ==> NoGrantOn(s.grants, h))
    && Fewer(r.grants, s.grants)
  }

  lemma UnboundChain(r: Rooms, a: Rooms, s: Rooms, h: Handle, gone: set<Handle>)
    requires Unbound(r, a, {h}) && Unbound(a, s, gone)
    ensures Unbound(r, s, gone + {h})
  {
    assert r.users - {h} - gone == r.users - (gone + {h});
    assert r.active - {h} - gone == r.active - (gone + {h});
    forall room, g | room in s.grants && g in s.grants[room]
      ensures s.grants[room][g] != h
    {
      assert GrantedOn(s.grants, room, g, s.grants[room][g]);
      assert GrantedOn(a.grants, room, g, s.grants[room][g]);
      assert NoGrantOn(a.grants, h);
    }
  }

  ghost function LoggedOut(ended: seq<(Handle, string)>): set<string> {
    set e | e in ended :: e.1
  }

  /** Exactly the users of ended connections who have none left are logged out. */
  ghost predicate LogsOut(r: Rooms, s: Rooms, gone: set<Handle>, out: set<string>) {
    forall u :: u != "" ==> (u in out <==> (exists h :: h in gone && UserOf(r.users, h) == u) && !Connected(s.users, u))
  }

  lemma LogsOutMore(r: Rooms, a: Rooms, s: Rooms, h: Handle, id: string, gone: set<Handle>, out: set<string>)
    requires h !in gone && a.users == r.users - {h} && s.users == a.users - gone
    requires id == if Connected(a.users, UserOf(r.users, h)) then "" else UserOf(r.users, h)
    requires LogsOut(a, s, gone, out)
    ensures LogsOut(r, s, gone + {h}, out + {id})
  {
    forall u | u != ""
      ensures u in out + {id} <==> (exists g :: g in gone + {h} && UserOf(r.users, g) == u) && !Connected(s.users, u)
    {
      if (exists g :: g in gone + {h} && UserOf(r.users, g) == u) && !Connected(s.users, u) && u != id {
        var g :| g in gone + {h} && UserOf(r.users, g) == u;
        if g == h {
          assert Connected(a.users, u);
          var other :| other in a.users && a.users[other] == u;
          assert other !in s.users;
          assert other in gone && UserOf(a.users, other) == u;
        } else {
          assert g in gone && UserOf(a.users, g) == u;
        }
      }
      if u in out {
        var g :| g in gone && UserOf(a.users, g) == u;
        assert g in gone + {h} && UserOf(r.users, g) == u;
      }
      if u == id {
        assert h in gone + {h} && UserOf(r.users, h) == u;
      }
    }
  }

  lemma {:induction false} ExpireFromExactly(base: set<(string, string)>, r: Rooms, handles: seq<Handle>, live: set<Handle>, now: nat)
    requires Valid(r) && Replayed(base, r)
    requires forall i, j :: 0 <= i < j < |handles| ==> handles[i] < handles[j]
    ensures var (s, ended) := ExpireFrom(r, handles, live, now);
            var gone := InactiveOf(r, handles, live, now);
            && Valid(s) && Replayed(base, s)
            && Unbound(r, s, gone) && LogsOut(r, s, gone, LoggedOut(ended))
    decreases |handles|
  {
    hide Valid;
    hide Replayed;
    hide ReleaseSession;
    hide LogsOut;
    hide Unbound;
    var gone := InactiveOf(r, handles, live, now);
    if handles == [] {
      assert gone == {};
      NothingExpired(r);
    } else {
      var h, rest := handles[0], handles[1..];
      assert handles == [h] + rest;
      if !Inactive(r.active, h, live, now) {
        assert gone == InactiveOf(r, rest, live, now);
        ExpireFromExactly(base, r, rest, live, now);
      } else {
        var a, id := ReleaseSession(r, h).0, ReleaseSession(r, h).1;
        SessionExpires(base, r, h);
        ExpireFromExactly(base, a, rest, live, now);
        var later := InactiveOf(a, rest, live, now);
        InactiveRest(r, a, handles, live, now);
        var s, ended := ExpireFrom(a, rest, live, now).0, ExpireFrom(a, rest, live, now).1;
        UnboundChain(r, a, s, h, later);
        UnboundUsers(a, s, later);
        LogsOutMore(r, a, s, h, id, later, LoggedOut(ended));
        assert LoggedOut([(h, id)] + ended) == LoggedOut(ended) + {id};
      }
    }
  }

  /** What ending one connection contributes. */
  lemma SessionExpires(base: set<(string, string)>, r: Rooms, h: Handle)
    requires Valid(r) && Replayed(base, r)
    ensures var (a, id) := ReleaseSession(r, h);
            && Valid(a) && Replayed(base, a) && Unbound(r, a, {h})
            && a.users == r.users - {h} && a.active == r.active - {h}
            && id == if Connected(a.users, UserOf(r.users, h)) then "" else UserOf(r.users, h)
  {
    hide Valid;
    hide Replayed;
    hide ReleaseSession;
    hide NoGrantOn;
    SessionEnds(base, r, h);
    SessionUnbinds(r, h);
    QuietSession(r, h);
    SessionUnbound(r, ReleaseSession(r, h).0, h);
    hide Unbound;
    hide Connected;
    hide Quiet;
  }

  lemma InactiveRest(r: Rooms, a: Rooms, handles: seq<Handle>, live: set<Handle>, now: nat)
    requires handles != [] && Inactive(r.active, handles[0], live, now) && a.active == r.active - {handles[0]}
    requires forall i, j :: 0 <= i < j < |handles| ==> handles[i] < handles[j]
    ensures handles[0] !in InactiveOf(a, handles[1..], live, now)
    ensures InactiveOf(r, handles, live, now) == InactiveOf(a, handles[1..], live, now) + {handles[0]}
  {
    var h, rest := handles[0], handles[1..];
    assert handles == [h] + rest;
    assert h !in rest;
  }

  lemma NothingExpired(r: Rooms)
    ensures Unbound(r, r, {}) && LogsOut(r, r, {}, LoggedOut([]))
  {
  }

  lemma UnboundUsers(r: Rooms, s: Rooms, gone: set<Handle>)
    requires Unbound(r, s, gone)
    ensures s.users == r.users - gone
  {
  }

  lemma SessionUnbound(r: Rooms, a: Rooms, h: Handle)
    requires a.users == r.users - {h} && a.active == r.active - {h} && NoGrantOn(a.grants, h) && Quiet(r, a)
    ensures Unbound(r, a, {h})
  {
  }

  /** One pass ends exactly the connections that are gone or silent for too long:
      they are unbound and hold no grant, the others stay bound, and a user is
      logged out exactly when one of its connections ended and none is left. */
  lemma ExpireExactly(base: set<(string, string)>, r: Rooms, live: set<Handle>, now: nat)
    requires Valid(r) && Replayed(base, r)
    ensures var (s, ended) := ExpireInactive(r, live, now);
            var gone := set h | h in r.active && Inactive(r.active, h, live, now);
            && Valid(s) && Replayed(base, s)
            && s.users == r.users - gone && s.active == r.active - gone
            && (forall h :: h in gone ==> NoGrantOn(s.grants, h))
            && (forall h :: !Inactive(s.active, h, live, now))
            && (forall u :: u != "" ==>
                  (u in LoggedOut(ended) <==> (exists h :: h in gone && UserOf(r.users, h) == u) && !Connected(s.users, u)))
  {
    hide Valid;
    hide Replayed;
    hide ExpireFrom;
    hide Connected;
    hide NoGrantOn;
    hide SortedNats;
    hide Fewer;
    var handles := SortedNats(r.active.Keys);
    ExpireFromExactly(base, r, handles, live, now);
    var gone := set h | h in r.active && Inactive(r.active, h, live, now);
    assert InactiveOf(r, handles, live, now) == gone;
    var s := ExpireFrom(r, handles, live, now).0;
    NoneInactive(r, s, gone, live, now);
    hide Inactive;
    hide InactiveOf;
    hide LoggedOut;
  }

  lemma NoneInactive(r: Rooms, s: Rooms, gone: set<Handle>, live: set<Handle>, now: nat)
    requires s.active == r.active - gone && forall h :: Inactive(r.active, h, live, now) ==> h in gone
    ensures forall h :: !Inactive(s.active, h, live, now)
  {
  }

  lemma {:induction false} QuietExpire(r: Rooms, handles: seq<Handle>, live: set<Handle>, now: nat)
    ensures Quiet(r, ExpireFrom(r, handles, live, now).0)
    decreases |handles|
  {
    hide Quiet;
    hide ReleaseSession;
    if handles == [] {
      QuietSelf(r);
    } else if !Inactive(r.active, handles[0], live, now) {
      QuietExpire(r, handles[1..], live, now);
    } else {
      var a := ReleaseSession(r, handles[0]).0;
      QuietSession(r, handles[0]);
      QuietExpire(a, handles[1..], live, now);
      QuietChain(r, a, ExpireFrom(a, handles[1..], live, now).0);
    }
  }

  lemma QuietSelf(r: Rooms)
    ensures Quiet(r, r)
  {
  }
}
