/** A recovering session comes back exactly when both of its ends have reported
    it in time on connections they still hold, told from the reports alone. */
module RecoveryReturns {
  import opened Ordering
  import opened RoomsSpec
  import opened RoomsFacts
  import opened SessionTables
  import opened RecoverySpec
  import opened RecoveryFacts
  import opened RecoveryGrants
  import opened RecoveryRuns
  import opened RecoverySafety

  // ---------------------------------------------------------- what was reported

  /** The connections of each end's latest report in time since the last start,
      and the deadline that start set. */
  datatype Ends = Ends(host: Option<Handle>, guest: Option<Handle>, until: nat)

  /** An end of the session `key` reports on `h`, in time, that it is alive. */
  ghost predicate Vouches(x: Ends, w: World, e: Event, now: nat, key: Pair, token: nat) {
    && e.Reported? && e.alive && e.key == key && e.token == token && now <= x.until
    && (UserOf(w.rooms.users, e.handle) == key.0 || UserOf(w.rooms.users, e.handle) == key.1)
  }

  ghost function Heard(x: Ends, w: World, e: Event, now: nat, key: Pair, token: nat): Ends {
    if e.Restart? then Ends(None, None, now + e.timeout)
    else if !Vouches(x, w, e, now, key, token) then x
    else if UserOf(w.rooms.users, e.handle) == key.0 then x.(host := Some(e.handle))
    else x.(guest := Some(e.handle))
  }

  /** The reports of a run that began with the deadline `until`. */
  ghost function Reports(w: World, until: nat, events: seq<Timed>, key: Pair, token: nat): Ends
    decreases |events|
  {
    if events == [] then Ends(None, None, until)
    else
      var before, last := events[..|events| - 1], events[|events| - 1];
      Heard(Reports(w, until, before, key, token), Run(w, before), last.event, last.now, key, token)
  }

  ghost predicate HeldBy(w: World, at: Option<Handle>, user: string, live: set<Handle>) {
    at.Some? && at.value in live && UserOf(w.rooms.users, at.value) == user
  }

  /** The event is such a report, and with it both ends have reported, on
      connections that are live and still theirs. */
  ghost predicate Reunites(x: Ends, w: World, e: Event, live: set<Handle>, now: nat, key: Pair, token: nat) {
    var y := Heard(x, w, e, now, key, token);
    Vouches(x, w, e, now, key, token) && HeldBy(w, y.host, key.0, live) && HeldBy(w, y.guest, key.1, live)
  }

  /** The pair is a member, on this connection of the guest. */
  ghost predicate Seated(w: World, key: Pair, at: Option<Handle>) {
    at.Some? && key in Members(w.rooms.guests) && GrantedOn(w.rooms.grants, key.0, key.1, at.value)
  }

  // -------------------------------------------------------------- single steps

  /** A ticket that is recovering remembers what was reported. */
  ghost predicate Tracks(x: Ends, w: World, key: Pair, token: nat) {
    key in w.tickets && w.tickets[key].recovering && w.tickets[key].token == token ==>
      var t := w.tickets[key];
      && t.deadline == x.until && t.hostAt == x.host && t.guestAt == x.guest
      && t.hostReady == x.host.Some? && t.guestReady == x.guest.Some?
  }

  /** Nothing is missing for a resumption but its two ends. */
  lemma ResumeHappens(w: World, key: Pair, live: set<Handle>)
    requires Agreed(w) && key in w.tickets && key in w.tables.ledger && Resumable(w, key, live)
    ensures Reseated(w, Resume(w, key, live), key)
  {
    var at := w.tickets[key].guestAt.value;
    SavedMatches(w, key);
    RowNamed(w, key);
    BindHostAgrees(w, key.0);
    var a := w.(rooms := if key.0 in w.rooms.hosts then w.rooms else BindHost(w.rooms, key.0, key.0).0);
    assert Agreed(a) && a.rooms.grants == w.rooms.grants && a.rooms.users == w.rooms.users;
    HostListed(w, a, key.0);
    hide BindHost;
    GrantIs(a.rooms, key.1, key.0, at, live);
    MayEnter(a.rooms, key.1, key.0, at, live);
    var r := GrantGuest(a.rooms, key.1, key.0, at, live).0;
    GrantAddsOnly(a.rooms, key.1, key.0, at, live);
    hide GrantGuest;
    ReseatEffect(a, key, r, at, live);
    assert Reseat(a, key, r) == Reseat(w, key, r);
    hide Reseat;
    hide Reseated;
    ReseatedSame(w, a, Reseat(w, key, r), key);
    hide Agreed;
    hide Granted;
  }

  lemma HostListed(w: World, a: World, room: string)
    requires Agreed(a) && !Temporary(room)
    requires a.rooms == if room in w.rooms.hosts then w.rooms else BindHost(w.rooms, room, room).0
    ensures room in a.rooms.hosts && a.rooms.hosts[room] == room
  {
    hide Valid;
    hide GoodTables;
    hide Saved;
    hide Accounted;
  }

  lemma MayEnter(r: Rooms, guest: string, room: string, h: Handle, live: set<Handle>)
    requires guest != "" && room != "" && h in live && UserOf(r.users, h) == guest && room in r.hosts && r.hosts[room] != guest
    ensures GrantGuest(r, guest, room, h, live).1
  {
  }

  lemma ReadyTracks(x: Ends, w: World, h: Handle, key: Pair, token: nat, live: set<Handle>, now: nat)
    requires key in w.tickets && w.tickets[key].recovering && Tracks(x, w, key, w.tickets[key].token)
    requires w.tickets[key].host == key.0 != key.1
    requires Vouches(x, w, Reported(h, key, token, true), now, key, w.tickets[key].token)
    ensures var e := Reported(h, key, token, true);
            var a := w.(tickets := w.tickets[key := Ready(w.tickets[key], UserOf(w.rooms.users, h), h)]);
            && Tracks(Heard(x, w, e, now, key, token), a, key, token)
            && a.tickets[key].guestAt == Heard(x, w, e, now, key, token).guest
            && (Resumable(a, key, live) <==> Reunites(x, w, e, live, now, key, token))
  {
  }

  /** An accepted report of an end: the ticket remembers it, and comes back when
      both ends are there. */
  lemma ReportReturns(x: Ends, w: World, h: Handle, key: Pair, token: nat, live: set<Handle>, now: nat)
    requires Agreed(w) && key in w.tickets && w.tickets[key].recovering && Tracks(x, w, key, w.tickets[key].token)
    requires Vouches(x, w, Reported(h, key, token, true), now, key, w.tickets[key].token)
    ensures var e := Reported(h, key, token, true);
            var v, y := Report(w, h, key, token, true, live, now), Heard(x, w, e, now, key, token);
            && key in v.tickets && v.tickets[key].token == token
            && (v.tickets[key].recovering <==> !Reunites(x, w, e, live, now, key, token))
            && Tracks(y, v, key, token)
            && (Reunites(x, w, e, live, now, key, token) ==> Seated(v, key, y.guest))
  {
    var e := Reported(h, key, token, true);
    var y := Heard(x, w, e, now, key, token);
    WaitingIsLedgered(w, key);
    RowNamed(w, key);
    ReadyAgrees(w, key, Ready(w.tickets[key], UserOf(w.rooms.users, h), h));
    hide Agreed;
    assert Accepts(w, h, key, token, now);
    ReadyTracks(x, w, h, key, token, live, now);
    var a := w.(tickets := w.tickets[key := Ready(w.tickets[key], UserOf(w.rooms.users, h), h)]);
    assert Report(w, h, key, token, true, live, now) == Resume(a, key, live);
    assert a.tickets[key].token == token && a.tickets[key].recovering && a.tickets[key].guestAt == y.guest;
    hide Report;
    hide Heard;
    hide Reunites;
    hide Ready;
    hide Accepts;
    hide Vouches;
    ResumeEffect(a, key, live);
    if Resumable(a, key, live) {
      ResumeHappens(a, key, live);
    }
    hide Resume;
    hide Resumable;
    hide GrantedOn;
    hide Members;
  }

  /** A ticket other than the one concerned keeps what it has, or goes. */
  ghost predicate SameTicket(w: World, v: World, key: Pair) {
    key in v.tickets ==> key in w.tickets && v.tickets[key] == w.tickets[key]
  }

  lemma ElsewhereSame(w: World, e: Event, live: set<Handle>, now: nat, key: Pair)
    requires Agreed(w) && !e.Restart?
    requires !(e.Join? && key == (e.room, e.user) && Joins(w, e.handle, e.user, e.room, live))
    requires !(e.Reported? && e.alive && e.key == key && Accepts(w, e.handle, key, e.token, now))
    ensures SameTicket(w, Step(w, e, live, now), key)
  {
    hide Agreed;
    hide Joins;
    hide Accepts;
    hide JoinStep;
    hide Report;
    var v := Step(w, e, live, now);
    if e.Join? {
      JoinAddsOnly(w, e.handle, e.user, e.room, e.token, live);
      var own := (e.room, e.user);
      assert key != own && key in v.tickets ==> key in v.tickets - {own};
    } else if e.Reported? {
      ReportSame(w, e.handle, e.key, e.token, e.alive, live, now, key);
    } else {
      QuietSteps(w, e, live, now);
    }
    hide Step;
  }

  lemma ReportSame(w: World, h: Handle, about: Pair, token: nat, alive: bool, live: set<Handle>, now: nat, key: Pair)
    requires Agreed(w) && !(alive && about == key && Accepts(w, h, key, token, now))
    ensures SameTicket(w, Report(w, h, about, token, alive, live, now), key)
  {
    if key in w.tickets {
      ReportElsewhere(w, h, about, token, alive, live, now, key);
    } else if Accepts(w, h, about, token, now) {
      WaitingIsLedgered(w, about);
      RowNamed(w, about);
      if alive {
        var t := Ready(w.tickets[about], UserOf(w.rooms.users, h), h);
        var a := w.(tickets := w.tickets[about := t]);
        ReadyAgrees(w, about, t);
        ResumeEffect(a, about, live);
        hide Resume;
        hide GrantedOn;
        hide Members;
      } else {
        DismissExactly(w, about);
        hide Dismiss;
      }
    }
    hide Agreed;
    hide Accepts;
    hide Dismiss;
    hide Resume;
  }

  /** An event that is no report in time of a recovering ticket is not accepted
      as one. */
  lemma AcceptedVouches(x: Ends, w: World, e: Event, now: nat, key: Pair)
    requires Agreed(w) && key in w.tickets && w.tickets[key].recovering && Tracks(x, w, key, w.tickets[key].token)
    requires e.Reported? && e.alive && e.key == key
    ensures Accepts(w, e.handle, key, e.token, now) <==> Vouches(x, w, e, now, key, w.tickets[key].token)
  {
    WaitingIsLedgered(w, key);
    RowNamed(w, key);
    hide Agreed;
  }

  /** A recovering ticket: what an event other than its guest's join and a start
      does to it. */
  lemma RecoveringStep(x: Ends, w: World, e: Event, live: set<Handle>, now: nat, key: Pair, token: nat)
    requires Agreed(w) && !e.Restart? && key in w.tickets && w.tickets[key].recovering && w.tickets[key].token == token
    requires Tracks(x, w, key, token)
    requires !(e.Join? && key == (e.room, e.user) && Joins(w, e.handle, e.user, e.room, live))
    ensures var v, y := Step(w, e, live, now), Heard(x, w, e, now, key, token);
            && Tracks(y, v, key, token)
            && (key in v.tickets && !v.tickets[key].recovering <==> Reunites(x, w, e, live, now, key, token))
            && (key in v.tickets ==> v.tickets[key].token == token)
            && (Reunites(x, w, e, live, now, key, token) ==> Seated(v, key, y.guest))
  {
    if e.Reported? && e.alive && e.key == key {
      AcceptedVouches(x, w, e, now, key);
    }
    if Vouches(x, w, e, now, key, token) {
      ReportReturns(x, w, e.handle, key, token, live, now);
      hide Report;
    } else {
      ElsewhereSame(w, e, live, now, key);
      hide Step;
    }
    hide Agreed;
    hide Joins;
    hide Accepts;
    hide Seated;
    hide Vouches;
    hide HeldBy;
  }

  lemma StepTracks(x: Ends, w: World, e: Event, live: set<Handle>, now: nat, key: Pair, token: nat)
    requires Agreed(w) && Tracks(x, w, key, token)
    ensures Tracks(Heard(x, w, e, now, key, token), Step(w, e, live, now), key, token)
  {
    hide Agreed;
    var v := Step(w, e, live, now);
    if e.Restart? {
      RestartTracks(w, e.timeout, now, key, token);
    } else if e.Join? && key == (e.room, e.user) && Joins(w, e.handle, e.user, e.room, live) {
      JoinAddsOnly(w, e.handle, e.user, e.room, e.token, live);
      hide JoinStep;
      hide Joins;
    } else if key in w.tickets && w.tickets[key].recovering && w.tickets[key].token == token {
      RecoveringStep(x, w, e, live, now, key, token);
      hide Step;
    } else {
      hide Heard;
      StillNotRecovering(w, e, live, now, key, token);
      hide Step;
    }
    hide Reunites;
    hide Joins;
  }

  lemma RestartTracks(w: World, timeout: nat, now: nat, key: Pair, token: nat)
    ensures Tracks(Ends(None, None, now + timeout), Boot(w.tables, w.heartbeat, now, timeout), key, token)
  {
    hide Reopen;
    hide RestoreAll;
  }

  /** A ticket that is not recovering, or none, is not recovering before the next
      start. */
  lemma StillNotRecovering(w: World, e: Event, live: set<Handle>, now: nat, key: Pair, token: nat)
    requires Agreed(w) && !e.Restart?
    requires !(key in w.tickets && w.tickets[key].recovering && w.tickets[key].token == token)
    ensures var v := Step(w, e, live, now);
            !(key in v.tickets && v.tickets[key].recovering && v.tickets[key].token == token)
  {
    if e.Join? && key == (e.room, e.user) && Joins(w, e.handle, e.user, e.room, live) {
      JoinAddsOnly(w, e.handle, e.user, e.room, e.token, live);
      hide JoinStep;
    } else if e.Reported? && e.alive && e.key == key && Accepts(w, e.handle, key, e.token, now) {
      AcceptedKeeps(w, e.handle, key, e.token, live, now);
      hide Report;
    } else {
      ElsewhereSame(w, e, live, now, key);
      hide Step;
    }
    hide Agreed;
    hide Joins;
    hide Accepts;
  }

  lemma AcceptedKeeps(w: World, h: Handle, key: Pair, token: nat, live: set<Handle>, now: nat)
    requires Agreed(w) && Accepts(w, h, key, token, now)
    ensures var v := Report(w, h, key, token, true, live, now);
            && key in v.tickets && v.tickets[key].token == w.tickets[key].token
            && (v.tickets[key].recovering ==> w.tickets[key].recovering)
  {
    WaitingIsLedgered(w, key);
    var t := Ready(w.tickets[key], UserOf(w.rooms.users, h), h);
    var a := w.(tickets := w.tickets[key := t]);
    ReadyAgrees(w, key, t);
    ResumeEffect(a, key, live);
    hide Resume;
    hide Agreed;
    hide GrantedOn;
    hide Members;
  }

  // ---------------------------------------------------------------- whole runs

  lemma {:induction false} RunTracks(tables: Tables, heartbeat: nat, now: nat, timeout: nat, events: seq<Timed>, key: Pair, token: nat)
    requires GoodTables(tables)
    ensures var w := Boot(tables, heartbeat, now, timeout);
            && Agreed(Run(w, events))
            && Tracks(Reports(w, now + timeout, events, key, token), Run(w, events), key, token)
    decreases |events|
  {
    hide Agreed;
    hide Tracks;
    hide Step;
    hide Heard;
    hide Boot;
    var w := Boot(tables, heartbeat, now, timeout);
    BootAgrees(tables, heartbeat, now, timeout);
    RunAgrees(w, events);
    if events == [] {
      FirstTracks(tables, heartbeat, now, timeout, key, token);
    } else {
      var before, last := events[..|events| - 1], events[|events| - 1];
      RunTracks(tables, heartbeat, now, timeout, before, key, token);
      StepTracks(Reports(w, now + timeout, before, key, token), Run(w, before), last.event, last.live, last.now, key, token);
    }
  }

  lemma FirstTracks(tables: Tables, heartbeat: nat, now: nat, timeout: nat, key: Pair, token: nat)
    ensures Tracks(Ends(None, None, now + timeout), Boot(tables, heartbeat, now, timeout), key, token)
  {
    hide Reopen;
    hide RestoreAll;
  }

  /** Over any run with crashes, whatever the next event is but a start or a new
      join of the same guest: a recovering session comes back with it exactly when
      it is a report in time of the session's token, and each end's latest such
      report since the last start came on a connection that is live and still its
      own. Then the guest is a member again, on that connection. */
  lemma RunResumesIff(tables: Tables, heartbeat: nat, now: nat, timeout: nat, events: seq<Timed>, next: Timed, key: Pair, token: nat)
    requires GoodTables(tables) && !next.event.Restart?
    requires var w := Run(Boot(tables, heartbeat, now, timeout), events);
             && key in w.tickets && w.tickets[key].recovering && w.tickets[key].token == token
             && !(next.event.Join? && key == (next.event.room, next.event.user))
    ensures var first := Boot(tables, heartbeat, now, timeout);
            var w, x := Run(first, events), Reports(first, now + timeout, events, key, token);
            var v, y := Step(w, next.event, next.live, next.now), Heard(x, w, next.event, next.now, key, token);
            && (key in v.tickets && !v.tickets[key].recovering <==> Reunites(x, w, next.event, next.live, next.now, key, token))
            && (key in v.tickets && !v.tickets[key].recovering ==> Seated(v, key, y.guest))
  {
    var first := Boot(tables, heartbeat, now, timeout);
    RunTracks(tables, heartbeat, now, timeout, events, key, token);
    hide Boot;
    hide Run;
    hide Reports;
    hide Agreed;
    hide Tracks;
    hide Step;
    hide Heard;
    hide Reunites;
    hide Seated;
    RecoveringStep(Reports(first, now + timeout, events, key, token), Run(first, events), next.event, next.live, next.now, key, token);
  }

  /** Some report since the last start reunited the two ends. */
  ghost predicate Reunited(w: World, until: nat, events: seq<Timed>, key: Pair, token: nat)
    decreases |events|
  {
    events != [] && !events[|events| - 1].event.Restart? &&
    var before, last := events[..|events| - 1], events[|events| - 1];
    || Reunited(w, until, before, key, token)
    || Reunites(Reports(w, until, before, key, token), Run(w, before), last.event, last.live, last.now, key, token)
  }

  /** The guest joined again since the last start. */
  ghost predicate Rejoined(w: World, events: seq<Timed>, key: Pair)
    decreases |events|
  {
    events != [] && !events[|events| - 1].event.Restart? &&
    var before, last := events[..|events| - 1], events[|events| - 1];
    || Rejoined(w, before, key)
    || (last.event.Join? && key == (last.event.room, last.event.user)
        && Joins(Run(w, before), last.event.handle, last.event.user, last.event.room, last.live))
  }

  /** Over any run with crashes: unless its guest joined again, a session that has
      a ticket is recovering exactly while no report since the last start has
      reunited its ends. */
  lemma {:induction false} RunRecovering(tables: Tables, heartbeat: nat, now: nat, timeout: nat, events: seq<Timed>, key: Pair, token: nat)
    requires GoodTables(tables)
    requires var first := Boot(tables, heartbeat, now, timeout);
             var w := Run(first, events);
             key in w.tickets && w.tickets[key].token == token && !Rejoined(first, events, key)
    ensures var first := Boot(tables, heartbeat, now, timeout);
            Run(first, events).tickets[key].recovering <==> !Reunited(first, now + timeout, events, key, token)
    decreases |events|
  {
    var first := Boot(tables, heartbeat, now, timeout);
    assert forall k :: k in first.tickets ==> first.tickets[k].recovering by {
      hide Reopen;
      hide RestoreAll;
    }
    hide Boot;
    hide Agreed;
    hide Tracks;
    hide Step;
    hide Heard;
    hide Reunites;
    hide Seated;
    hide Joins;
    if events != [] {
      var before, last := events[..|events| - 1], events[|events| - 1];
      var w := Run(first, before);
      RunTracks(tables, heartbeat, now, timeout, before, key, token);
      if last.event.Restart? {
        RestartRecovers(w, last.event.timeout, last.live, last.now, key);
      } else {
        Survives(w, last.event, last.live, last.now, key);
        RunRecovering(tables, heartbeat, now, timeout, before, key, token);
        if w.tickets[key].recovering {
          RecoveringStep(Reports(first, now + timeout, before, key, token), w, last.event, last.live, last.now, key, token);
        } else {
          StillNotRecovering(w, last.event, last.live, last.now, key, token);
        }
      }
    }
  }

  lemma RestartRecovers(w: World, timeout: nat, live: set<Handle>, now: nat, key: Pair)
    ensures var v := Step(w, Restart(timeout), live, now);
            key in v.tickets ==> v.tickets[key].recovering
  {
    hide Reopen;
    hide RestoreAll;
  }

  /** A ticket there after a step without a join was there before, with its token. */
  lemma Survives(w: World, e: Event, live: set<Handle>, now: nat, key: Pair)
    requires Agreed(w) && !e.Restart? && key in Step(w, e, live, now).tickets
    requires !(e.Join? && key == (e.room, e.user) && Joins(w, e.handle, e.user, e.room, live))
    ensures key in w.tickets && w.tickets[key].token == Step(w, e, live, now).tickets[key].token
  {
    if e.Reported? && e.alive && e.key == key && Accepts(w, e.handle, key, e.token, now) {
      AcceptedKeeps(w, e.handle, key, e.token, live, now);
      hide Report;
    } else {
      ElsewhereSame(w, e, live, now, key);
      hide Step;
    }
    hide Agreed;
    hide Joins;
    hide Accepts;
  }
}
