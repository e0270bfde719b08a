/** The durable side of remote-control sessions: `remote_control_sessions` and
    `session_recovery`, with the trigger that follows a deleted session. */
module SessionTables {
  import opened RoomsSpec

  /** A transmission (room) and a guest: the primary key of both tables. */
  type Pair = (string, string)

  datatype SavedTicket = SavedTicket(host: string, token: nat)

  datatype Tables = Tables(ledger: map<Pair, string>, saved: map<Pair, SavedTicket>)

  ghost function StartSession(t: Tables, room: string, host: string, guest: string): (Tables, bool) {
    if room == "" || host == "" || guest == "" || host == guest then (t, false)
    else (t.(ledger := if (room, guest) in t.ledger then t.ledger else t.ledger[(room, guest) := host]), true)
  }

  /** Deleting session rows also deletes their saved tickets. */
  ghost function Erase(t: Tables, gone: set<Pair>): Tables {
    Tables(t.ledger - gone, t.saved - gone)
  }

  ghost function EndSession(t: Tables, room: string, guest: string): (Tables, bool) {
    if room == "" || guest == "" then (t, false)
    else (if (room, guest) in t.ledger then Erase(t, {(room, guest)}) else t, true)
  }

  /** The rows of a room; a row without a guest cannot be ended. */
  ghost function RowsOf(t: Tables, room: string): set<Pair> {
    set p | p in t.ledger && p.0 == room && p.1 != ""
  }

  ghost function EndRoom(t: Tables, room: string): (Tables, bool) {
    if room == "" then (t, false) else (Erase(t, RowsOf(t, room)), (room, "") !in t.ledger)
  }

  lemma EraseTwice(t: Tables, a: set<Pair>, b: set<Pair>)
    ensures Erase(Erase(t, a), b) == Erase(t, a + b)
  {
    assert t.ledger - a - b == t.ledger - (a + b);
    assert t.saved - a - b == t.saved - (a + b);
  }

  lemma EraseIn(t: Tables, gone: set<Pair>, p: Pair)
    ensures p in Erase(t, gone).ledger <==> p in t.ledger && p !in gone
  {
  }

  /** What the session callback does with one notification, and with several. */
  ghost function Record(t: Tables, n: Note): Tables {
    if n.started then StartSession(t, n.room, n.host, n.guest).0 else EndSession(t, n.room, n.guest).0
  }

  ghost function Deliver(t: Tables, notes: seq<Note>): Tables
    decreases |notes|
  {
    if notes == [] then t else Deliver(Record(t, notes[0]), notes[1..])
  }

  lemma {:induction false} DeliverAppend(t: Tables, a: seq<Note>, b: seq<Note>)
    ensures Deliver(t, a + b) == Deliver(Deliver(t, a), b)
    decreases |a|
  {
    if a == [] {
      assert a + b == b;
    } else {
      assert (a + b)[1..] == a[1..] + b;
      DeliverAppend(Record(t, a[0]), a[1..], b);
    }
  }

  class SessionStore {
    var ledger: map<Pair, string>
    var saved: map<Pair, SavedTicket>

    ghost function State(): Tables
      reads this
    {
      Tables(ledger, saved)
    }

    constructor (tables: Tables)
      ensures State() == tables
    {
      ledger := tables.ledger;
      saved := tables.saved;
    }

    method StartRemoteControlSession(room: string, host: string, guest: string) returns (ok: bool)
      modifies this
      ensures (State(), ok) == StartSession(old(State()), room, host, guest)
    {
      if room == "" || host == "" || guest == "" || host == guest {
        return false;
      }
      if (room, guest) !in ledger {
        ledger := ledger[(room, guest) := host];
      }
      ok := true;
    }

    method EndRemoteControlSession(room: string, guest: string) returns (ok: bool)
      modifies this
      ensures (State(), ok) == EndSession(old(State()), room, guest)
    {
      if room == "" || guest == "" {
        return false;
      }
      if (room, guest) in ledger {
        ledger := ledger - {(room, guest)};
        saved := saved - {(room, guest)};  // by trigger
      }
      ok := true;
    }

    /** Ends the sessions selected at the start, one by one. */
    method EndRemoteControlTransmission(room: string) returns (ok: bool)
      modifies this
      ensures (State(), ok) == EndRoom(old(State()), room)
    {
      if room == "" {
        return false;
      }
      var sessions := set p | p in ledger && p.0 == room;
      ok := true;
      ghost var before := State();
      ghost var ended: set<Pair> := {};
      assert Erase(before, {}) == before;
      while sessions != {}
        invariant forall p :: p in sessions ==> p in before.ledger && p.0 == room && p !in ended
        invariant State() == Erase(before, ended)
        invariant forall p :: p in RowsOf(before, room) <==> p in ended || (p in sessions && p.1 != "")
        invariant ok == ((room, "") !in before.ledger || (room, "") in sessions)
        decreases |sessions|
      {
        var p :| p in sessions;
        EraseTwice(before, ended, {p});
        EraseIn(before, ended, p);
        hide Erase;
        var one := EndRemoteControlSession(p.0, p.1);
        ok := one && ok;
        sessions := sessions - {p};
        ended := if one then ended + {p} else ended;
      }
      assert ended == RowsOf(before, room);
    }

    /** Writes the ticket of an existing or new join. */
    method Save(key: Pair, ticket: SavedTicket)
      modifies this`saved
      ensures saved == old(saved)[key := ticket]
    {
      saved := saved[key := ticket];
    }

    method Forget(key: Pair)
      modifies this`saved
      ensures saved == old(saved) - {key}
    {
      saved := saved - {key};
    }

    /** The session callback: delivers one notification. */
    method Note(n: Note)
      modifies this
      ensures State() == Record(old(State()), n)
    {
      if n.started {
        var _ := StartRemoteControlSession(n.room, n.host, n.guest);
      } else {
        var _ := EndRemoteControlSession(n.room, n.guest);
      }
    }
  }
}
