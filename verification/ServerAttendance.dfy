/** Which connections the server has, over whole runs, told from the events: who
    was accepted, has opened, lives and is still listed. */
module ServerAttendance {
  import opened Ordering
  import opened WorkLimiting
  import opened ServerSpec
  import opened ServerReserve
  import opened ServerOrder
  import opened ServerCleanups
  import Q = QueueSpec

  // -------------------------------------------------------------- what the events say

  datatype Seat = Seat(listed: bool, isOpen: bool, alive: bool)

  ghost function Ended(seat: Option<Seat>): Option<Seat> {
    if seat.Some? && seat.value.listed then Some(seat.value.(alive := false)) else seat
  }

  /** Another message of `c` would be one too many, for it or for the worker. */
  ghost predicate Full(s: Server, c: nat) {
    c in s.conns && (|s.conns[c].deferred| + |QueuedFor(s.jobs, c)| >= 128 || |s.jobs| >= s.capacity)
  }

  /** What an event does to `c`: it is admitted, opens, is closed, is told to go, or
      floods the server. */
  ghost function NextSeat(seat: Option<Seat>, e: Event, c: nat, welcome: bool, full: bool, stopping: bool): Option<Seat> {
    match e
    case AcceptDone(d) => if d == Some(c) && seat == None && welcome && !stopping then Some(Seat(true, false, true)) else seat
    case Open(d) => if d == c && seat.Some? && seat.value.listed then Some(seat.value.(isOpen := true)) else seat
    case Receive(d, _) => if d == c && full then Ended(seat) else seat
    case Close(d) => if d == c then Ended(seat) else seat
    case Gone(d) => if d == c && seat.Some? then Some(Seat(false, seat.value.isOpen, Ended(seat).value.alive)) else seat
    case Stop => if stopping then seat else Ended(seat)
    case _ => seat
  }

  ghost function Attendance(x: Setup, events: seq<Event>, c: nat): Option<Seat>
    requires Proper(x)
    decreases |events|
  {
    if events == [] then None
    else
      var before, e := events[..|events| - 1], events[|events| - 1];
      NextSeat(Attendance(x, before, c), e, c, Run(x, before).accepting, Full(Run(x, before), c), Stop in before)
  }

  ghost function SeatOf(s: Server, c: nat): Option<Seat> {
    if c in s.conns then Some(Seat(s.conns[c].listed, s.conns[c].isOpen, s.conns[c].alive)) else None
  }

  // ------------------------------------------------------------------------- one event

  lemma SeatsSame(s: Server, t: Server, c: nat)
    requires t.conns == s.conns
    ensures SeatOf(t, c) == SeatOf(s, c)
  {
  }

  lemma SeatsWith(s: Server, t: Server, d: nat, k: Conn, c: nat)
    requires t.conns == s.conns[d := k]
    ensures SeatOf(t, c) == if c == d then Some(Seat(k.listed, k.isOpen, k.alive)) else SeatOf(s, c)
  {
  }

  lemma CloseSeats(s: Server, d: nat, c: nat)
    requires Reserved(s)
    ensures SeatOf(CloseConn(s, d), c) == if d == c then Ended(SeatOf(s, c)) else SeatOf(s, c)
    ensures Reserved(CloseConn(s, d)) && CloseConn(s, d).stopping == s.stopping
  {
    hide CleanUp;
    hide Reserved;
    if d in s.conns && s.conns[d].listed && s.conns[d].alive {
      CleanUpIs(s, d);
      CleanUpReserved(s, d);
      SeatsWith(s, CleanUp(s, d), d, s.conns[d].(alive := false), c);
    }
  }

  lemma {:induction false} CloseAllSeats(s: Server, conns: seq<nat>, c: nat)
    requires Reserved(s)
    ensures SeatOf(CloseAll(s, conns), c) == if c in conns then Ended(SeatOf(s, c)) else SeatOf(s, c)
    ensures CloseAll(s, conns).stopping == s.stopping
    decreases |conns|
  {
    hide CloseConn;
    hide Reserved;
    hide SeatOf;
    if conns != [] {
      CloseSeats(s, conns[0], c);
      CloseAllSeats(CloseConn(s, conns[0]), conns[1..], c);
    }
  }

  lemma StopSeats(s: Server, c: nat)
    requires Reserved(s) && !s.stopping
    ensures Q.Valid(s.queue)
    ensures SeatOf(Step(s, Stop), c) == Ended(SeatOf(s, c)) && Step(s, Stop).stopping
  {
    hide CloseAll;
    hide SortedNats;
    hide Reserved;
    hide Q.Valid;
    StopIs(s);
    var a := Stopping(s);
    CloseAllSeats(a, SortedNats(Listed(a)), c);
    hide Step;
    assert c in SortedNats(Listed(a)) <==> c in s.conns && s.conns[c].listed;
  }

  lemma GoneSeats(s: Server, d: nat, c: nat)
    requires Reserved(s)
    ensures SeatOf(Finish(s, d), c) == NextSeat(SeatOf(s, c), Gone(d), c, false, false, false)
    ensures Finish(s, d).stopping == s.stopping
  {
    hide CleanUp;
    hide Reserved;
    if d in s.conns && s.conns[d].listed {
      CleanUpIs(s, d);
      SeatsWith(s, Finish(s, d), d, s.conns[d].(listed := false, alive := false), c);
    }
  }

  lemma ArriveSeats(s: Server, d: nat, m: Msg, c: nat)
    requires InPlace(s) && Reserved(s)
    ensures SeatOf(Arrive(s, d, m), c) == if d == c && Full(s, c) then Ended(SeatOf(s, c)) else SeatOf(s, c)
    ensures Arrive(s, d, m).stopping == s.stopping
  {
    hide CloseConn;
    hide QueuedFor;
    hide InPlace;
    hide Reserved;
    hide Ordered;
    if d in s.conns && s.conns[d].listed && s.conns[d].alive {
      assert s.conns[d].count == |s.conns[d].deferred| + |QueuedFor(s.jobs, d)| by {
        InPlaceOrdered(s, d);
        OrderedCount(s, d);
      }
      CloseSeats(s, d, c);
      var k := s.conns[d];
      if k.count < BACKLOG && |s.jobs| < s.capacity {
        SeatsWith(s, Arrive(s, d, m), d, k.(count := k.count + 1, arrived := k.arrived + [m]), c);
      }
    }
  }

  lemma OrderedCount(s: Server, c: nat)
    requires Ordered(s, c)
    ensures s.conns[c].count == |s.conns[c].deferred| + |QueuedFor(s.jobs, c)|
  {
  }

  lemma InsideSeats(s: Server, t: Server, c: nat)
    requires Inside(s, t)
    ensures SeatOf(t, c) == SeatOf(s, c) && t.stopping == s.stopping
  {
  }

  lemma WorkSeats(s: Server, now: nat, c: nat)
    requires Reserved(s)
    ensures Q.Valid(s.queue) && SeatOf(Step(s, Work(now)), c) == SeatOf(s, c) && Step(s, Work(now)).stopping == s.stopping
  {
    hide Reserved;
    hide Q.Valid;
    hide RunJob;
    hide Inside;
    hide SeatOf;
    ReservedValid(s);
    if s.jobs != [] && Knows(s, s.jobs[0]) {
      var a := s.(jobs := s.jobs[1..]);
      JobInside(a, s.jobs[0], now);
      SeatsSame(s, a, c);
      InsideSeats(a, RunJob(a, s.jobs[0], now), c);
    }
  }

  lemma NamedSeats(s: Server, e: Event, c: nat)
    requires Q.Valid(s.queue) && (e.AcceptDone? || e.Open?)
    ensures SeatOf(Step(s, e), c) == NextSeat(SeatOf(s, c), e, c, s.accepting, Full(s, c), s.stopping)
    ensures Step(s, e).stopping == s.stopping
  {
    hide Q.Valid;
    hide Full;
  }

  lemma QuietSeats(s: Server, e: Event, c: nat)
    requires Reserved(s)
    requires !e.Work? && !e.Stop? && !e.Receive? && !e.Close? && !e.Gone?
    ensures Q.Valid(s.queue)
    ensures SeatOf(Step(s, e), c) == NextSeat(SeatOf(s, c), e, c, s.accepting, Full(s, c), s.stopping)
    ensures Step(s, e).stopping == s.stopping
  {
    hide Reserved;
    hide Q.Valid;
    hide Full;
    hide Ended;
    hide CloseConn;
    hide CloseAll;
    hide Finish;
    hide Arrive;
    hide RunJob;
    hide SortedNats;
    hide SeatOf;
    ReservedValid(s);
    var t := Step(s, e);
    if e.AcceptDone? || e.Open? {
      NamedSeats(s, e, c);
    } else {
      assert t.conns == s.conns;
      SeatsSame(s, t, c);
    }
  }

  lemma StepSeats(s: Server, e: Event, c: nat)
    requires InPlace(s) && Reserved(s)
    ensures Q.Valid(s.queue)
    ensures SeatOf(Step(s, e), c) == NextSeat(SeatOf(s, c), e, c, s.accepting, Full(s, c), s.stopping)
    ensures Step(s, e).stopping <==> s.stopping || e.Stop?
  {
    hide CloseConn;
    hide Finish;
    hide Arrive;
    hide Accepted;
    hide AcceptNext;
    hide Submit;
    hide MustSubmit;
    hide InPlace;
    hide Reserved;
    hide Q.Valid;
    hide Full;
    hide SeatOf;
    hide RunJob;
    hide CloseAll;
    hide SortedNats;
    ReservedValid(s);
    match e {
      case Work(now) => WorkSeats(s, now, c);
      case Stop =>
        if !s.stopping {
          StopSeats(s, c);
        }
      case Receive(d, m) => ArriveSeats(s, d, m, c);
      case Close(d) => CloseSeats(s, d, c);
      case Gone(d) => GoneSeats(s, d, c);
      case _ => QuietSeats(s, e, c);
    }
  }

  // ------------------------------------------------------------------------- whole runs

  /** Over every run: who is there, has opened and lives is what the events say, and
      the server is stopping once it was told to. */
  lemma {:induction false} RunAttends(x: Setup, events: seq<Event>, c: nat)
    requires Proper(x)
    ensures SeatOf(Run(x, events), c) == Attendance(x, events, c)
    ensures Run(x, events).stopping <==> Stop in events
    decreases |events|
  {
    hide InPlace;
    hide Reserved;
    hide Q.Valid;
    hide SeatOf;
    hide NextSeat;
    hide Full;
    hide Step;
    if events == [] {
      assert SeatOf(Run(x, events), c) == None by {
        NoSeats(x, c);
      }
    } else {
      var before, e := events[..|events| - 1], events[|events| - 1];
      RunAttends(x, before, c);
      RunInPlace(x, before);
      StepSeats(Run(x, before), e, c);
      assert events == before + [e];
    }
  }

  lemma NoSeats(x: Setup, c: nat)
    requires Proper(x)
    ensures SeatOf(Run(x, []), c) == None
  {
  }
}
