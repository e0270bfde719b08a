/** `CleanupExpiredDevices`: identities that have been offline for the retention
    period go in batches, each base identity together with its `C-` clone. */
module Retention {
  import opened Ordering
  import opened RoomsSpec

  datatype Presence = Presence(online: bool, updated: nat)

  /** Presence rows, device rows with their retention start, associations of a
      user with a device, days on which a device was active, and the normalized
      ids that sessions refer to. */
  datatype Tables = Tables(
    presence: map<string, Presence>,
    devices: map<string, nat>,
    associations: map<(string, string), nat>,
    activity: set<(string, nat)>,
    sessions: set<string>)

  function Base(id: string): string {
    if Alias(id) then id[2..] else id
  }

  function Both(id: string): set<string> {
    {id, "C-" + id}
  }

  // ---------------------------------------------------------------- selection

  /** When a row expired: old offline presence, or an old device without any. */
  predicate OldRow(t: Tables, cutoff: int, id: string) {
    || (id in t.presence && !t.presence[id].online && t.presence[id].updated < cutoff)
    || (id in t.devices && id !in t.presence && t.devices[id] < cutoff)
  }

  function ExpiredAt(t: Tables, id: string): nat
    requires id in t.presence || id in t.devices
  {
    if id in t.presence then t.presence[id].updated else t.devices[id]
  }

  predicate Live(t: Tables, cutoff: int, id: string) {
    id in t.presence && (t.presence[id].online || t.presence[id].updated >= cutoff)
  }

  /** A live presence, a recent device without presence, or a session protects. */
  predicate Protected(t: Tables, cutoff: int, e: string) {
    || (exists id :: id in Both(e) && Live(t, cutoff, id))
    || (exists id :: id in Both(e) && id in t.devices && id !in t.presence && t.devices[id] >= cutoff)
    || e in t.sessions
  }

  function Rows(t: Tables): set<string> {
    t.presence.Keys + t.devices.Keys
  }

  function OldRowsOf(t: Tables, cutoff: int, e: string): set<string> {
    set id | id in Rows(t) && Base(id) == e && OldRow(t, cutoff, id)
  }

  function Candidates(t: Tables, cutoff: int): set<string> {
    set id | id in Rows(t) && OldRow(t, cutoff, id) && !Protected(t, cutoff, Base(id)) :: Base(id)
  }

  /** `MIN(expired_at)` of an identity's rows. */
  function Age(t: Tables, cutoff: int, e: string): nat {
    var ages := set id | id in OldRowsOf(t, cutoff, e) :: ExpiredAt(t, id);
    if ages == {} then 0 else LeastNat(ages)
  }

  /** Of the given identities, the one that expired first; ties by id. */
  function Oldest(t: Tables, cutoff: int, among: set<string>): string
    requires among != {}
  {
    var ages := set e | e in among :: Age(t, cutoff, e);
    var e :| e in among;
    assert Age(t, cutoff, e) in ages;
    var tied := set x | x in among && Age(t, cutoff, x) == LeastNat(ages);
    assert tied != {} by {
      var x :| x in among && Age(t, cutoff, x) == LeastNat(ages);
      assert x in tied;
    }
    Least(tied)
  }

  /** At most `n` of the given identities, the oldest first. */
  function Selected(t: Tables, cutoff: int, among: set<string>, n: nat): seq<string>
    decreases n
  {
    if n == 0 || among == {} then []
    else
      var e := Oldest(t, cutoff, among);
      [e] + Selected(t, cutoff, among - {e}, n - 1)
  }

  // ----------------------------------------------------------------- deletion

  predicate Touches(p: (string, string), e: string) {
    p.0 in Both(e) || p.1 in Both(e)
  }

  /** Removes an identity, its clone, their associations and, unless the identity
      is temporary, their activity. */
  function Drop(t: Tables, e: string): Tables {
    t.(associations := map p | p in t.associations && !Touches(p, e) :: t.associations[p],
       presence := t.presence - Both(e),
       devices := t.devices - Both(e),
       activity := set a | a in t.activity && (Temporary(e) || a.0 !in Both(e)))
  }

  function DropAll(t: Tables, ids: seq<string>): Tables
    decreases |ids|
  {
    if ids == [] then t else DropAll(Drop(t, ids[0]), ids[1..])
  }

  /** An old association whose owner is not live and in no session. */
  predicate Orphan(t: Tables, cutoff: int, p: (string, string)) {
    && p in t.associations && t.associations[p] < cutoff
    && !(exists id :: id in Both(Base(p.0)) && Live(t, cutoff, id))
    && Base(p.0) !in t.sessions
  }

  function Orphans(t: Tables, cutoff: int): set<(string, string)> {
    set p | p in t.associations && Orphan(t, cutoff, p)
  }

  /** The given associations that are oldest. */
  function TiedOldest(t: Tables, among: set<(string, string)>): (r: set<(string, string)>)
    requires among != {} && among <= t.associations.Keys
    ensures r != {} && r <= among
  {
    var times := set p | p in among :: t.associations[p];
    var p0 :| p0 in among;
    assert t.associations[p0] in times;
    var tied := set p | p in among && t.associations[p] == LeastNat(times);
    assert tied != {} by {
      var p :| p in among && t.associations[p] == LeastNat(times);
      assert p in tied;
    }
    tied
  }

  /** The oldest association; ties, which the query leaves open, in key order. */
  function OldestPair(t: Tables, among: set<(string, string)>): (p: (string, string))
    requires among != {} && among <= t.associations.Keys
    ensures p in among
  {
    var tied := TiedOldest(t, among);
    var p0 :| p0 in tied;
    SortedPairsHas(tied, p0);
    SortedPairsHas(tied, SortedPairs(tied)[0]);
    SortedPairs(tied)[0]
  }

  function OldestPairs(t: Tables, among: set<(string, string)>, n: nat): set<(string, string)>
    requires among <= t.associations.Keys
    decreases n
  {
    if n == 0 || among == {} then {}
    else
      var p := OldestPair(t, among);
      {p} + OldestPairs(t, among - {p}, n - 1)
  }

  /** One call of the cleanup; the flag says that another call may find more. */
  function Batch(t: Tables, cutoff: int, n: nat): (Tables, bool) {
    var ids := Selected(t, cutoff, Candidates(t, cutoff), n);
    var a := DropAll(t, ids);
    var gone := OldestPairs(a, Orphans(a, cutoff), n);
    (a.(associations := a.associations - gone), |ids| == n || |gone| == n)
  }

  // ------------------------------------------------------------ the reference

  ghost function Gone(ids: set<string>): set<string> {
    set e, id | e in ids && id in Both(e) :: id
  }

  ghost predicate TouchesAny(p: (string, string), ids: set<string>) {
    exists e :: e in ids && Touches(p, e)
  }

  ghost function Permanent(ids: set<string>): set<string> {
    set e | e in ids && !Temporary(e)
  }

  /** The tables without a whole set of identities. */
  ghost function Removed(t: Tables, ids: set<string>): Tables {
    t.(presence := t.presence - Gone(ids),
       devices := t.devices - Gone(ids),
       associations := map p | p in t.associations && !TouchesAny(p, ids) :: t.associations[p],
       activity := set a | a in t.activity && a.0 !in Gone(Permanent(ids)))
  }

  ghost function Swept(t: Tables, cutoff: int): Tables {
    t.(associations := t.associations - Orphans(t, cutoff))
  }

  /** What one unbounded batch leaves: no candidate and no orphan. */
  ghost function Whole(t: Tables, cutoff: int): Tables {
    Swept(Removed(t, Candidates(t, cutoff)), cutoff)
  }

  // ------------------------------------------------------- one batch, any size

  lemma {:induction false} SelectedFacts(t: Tables, cutoff: int, among: set<string>, n: nat)
    ensures var r := Selected(t, cutoff, among, n);
            && (forall e :: e in r ==> e in among)
            && (forall i, j :: 0 <= i < j < |r| ==> r[i] != r[j])
            && |r| == if n <= |among| then n else |among|
    decreases n
  {
    hide Oldest;
    if n > 0 && among != {} {
      var e := Oldest(t, cutoff, among);
      OldestIn(t, cutoff, among);
      SelectedFacts(t, cutoff, among - {e}, n - 1);
      var rest := Selected(t, cutoff, among - {e}, n - 1);
      assert e !in rest;
    }
  }

  ghost predicate Precedes(t: Tables, cutoff: int, x: string, y: string) {
    Age(t, cutoff, x) < Age(t, cutoff, y) || (Age(t, cutoff, x) == Age(t, cutoff, y) && Less(x, y))
  }

  lemma OldestIn(t: Tables, cutoff: int, among: set<string>)
    requires among != {}
    ensures Oldest(t, cutoff, among) in among
    ensures forall y :: y in among && y != Oldest(t, cutoff, among) ==> Precedes(t, cutoff, Oldest(t, cutoff, among), y)
  {
    hide Age;
    hide Less;
    var ages := set e | e in among :: Age(t, cutoff, e);
    var x := Oldest(t, cutoff, among);
    assert x in among && Age(t, cutoff, x) == LeastNat(ages);
    forall y | y in among && y != x
      ensures Precedes(t, cutoff, x, y)
    {
      assert Age(t, cutoff, y) in ages;
    }
  }

  /** The batch takes the identities that expired first. */
  lemma {:induction false} SelectedOldestFirst(t: Tables, cutoff: int, among: set<string>, n: nat, x: string, y: string)
    requires x in Selected(t, cutoff, among, n) && y in among && y !in Selected(t, cutoff, among, n)
    ensures Precedes(t, cutoff, x, y)
    decreases n
  {
    hide Precedes;
    var e := Oldest(t, cutoff, among);
    OldestIn(t, cutoff, among);
    hide Oldest;
    if x != e {
      SelectedOldestFirst(t, cutoff, among - {e}, n - 1, x, y);
    }
  }

  lemma {:induction false} OldestPairsFacts(t: Tables, among: set<(string, string)>, n: nat)
    requires among <= t.associations.Keys
    ensures var r := OldestPairs(t, among, n);
            r <= among && |r| == if n <= |among| then n else |among|
    decreases n
  {
    hide OldestPair;
    if n > 0 && among != {} {
      var p := OldestPair(t, among);
      OldestPairsFacts(t, among - {p}, n - 1);
      assert p !in OldestPairs(t, among - {p}, n - 1);
    }
  }

  lemma OrphansIn(t: Tables, cutoff: int)
    ensures Orphans(t, cutoff) <= t.associations.Keys
  {
  }

  // --------------------------------------------------------------- the method

  datatype Result = Refused | Done(ids: seq<string>, devices: nat, credentials: nat, associations: nat, more: bool)

  class RetentionStore {
    var presence: map<string, Presence>
    var devices: map<string, nat>
    var associations: map<(string, string), nat>
    var activity: set<(string, nat)>
    var sessions: set<string>

    ghost function State(): Tables
      reads this
    {
      Tables(presence, devices, associations, activity, sessions)
    }

    constructor (t: Tables)
      ensures State() == t
    {
      presence, devices, associations, activity, sessions := t.presence, t.devices, t.associations, t.activity, t.sessions;
    }

    /** The transaction as a whole; a policy out of range is refused. */
    method CleanupExpiredDevices(now: int, days: int, batch: nat) returns (r: Result)
      modifies this`presence, this`devices, this`associations, this`activity
      ensures days < 1 || days > 3650 || batch < 1 || batch > 1000 ==> r == Refused && State() == old(State())
      ensures 1 <= days <= 3650 && 1 <= batch <= 1000 ==>
                var cutoff := now - days * 86400;
                && r.Done? && State() == Batch(old(State()), cutoff, batch).0
                && r.more == Batch(old(State()), cutoff, batch).1
                && r.ids == Selected(old(State()), cutoff, Candidates(old(State()), cutoff), batch)
                && r.devices == |old(presence)| - |presence|
                && r.credentials == |old(devices)| - |devices|
                && r.associations == |old(associations)| - |associations|
    {
      hide Selected;
      hide Candidates;
      hide OldestPairs;
      hide Orphans;
      hide DropAll;
      if days < 1 || days > 3650 || batch < 1 || batch > 1000 {
        return Refused;
      }
      var cutoff := now - days * 86400;
      var t := Tables(presence, devices, associations, activity, sessions);
      var ids := Selected(t, cutoff, Candidates(t, cutoff), batch);
      var rows, credentials, removed := RemoveAll(ids);
      var a := Tables(presence, devices, associations, activity, sessions);
      OrphansIn(a, cutoff);
      var gone := OldestPairs(a, Orphans(a, cutoff), batch);
      OldestPairsFacts(a, Orphans(a, cutoff), batch);
      Counted(associations, gone);
      associations := associations - gone;
      r := Done(ids, rows, credentials, removed + |gone|, |ids| == batch || |gone| == batch);
    }

    method RemoveAll(ids: seq<string>) returns (rows: nat, credentials: nat, removed: nat)
      modifies this`presence, this`devices, this`associations, this`activity
      ensures State() == DropAll(old(State()), ids)
      ensures rows == |old(presence)| - |presence| && credentials == |old(devices)| - |devices|
      ensures removed == |old(associations)| - |associations|
    {
      hide Drop;
      rows, credentials, removed := 0, 0, 0;
      var i := 0;
      while i < |ids|
        invariant i <= |ids|
        invariant DropAll(State(), ids[i..]) == DropAll(old(State()), ids)
        invariant rows == |old(presence)| - |presence| && credentials == |old(devices)| - |devices|
        invariant removed == |old(associations)| - |associations|
      {
        assert ids[i..][0] == ids[i] && ids[i..][1..] == ids[i + 1..];
        var p, d, a := RemoveIdentity(ids[i]);
        rows, credentials, removed := rows + p, credentials + d, removed + a;
        i := i + 1;
      }
    }

    method DeleteAssociations(id: string) returns (n: nat)
      modifies this`associations
      ensures associations == old(associations) - (set p | p in old(associations) && Touches(p, id))
      ensures n == |old(associations)| - |associations|
    {
      hide Touches;
      var touched := set p | p in associations && Touches(p, id);
      n := |touched|;
      Counted(associations, touched);
      associations := associations - touched;
    }

    method DeletePresence(id: string) returns (n: nat)
      modifies this`presence
      ensures presence == old(presence) - Both(id) && n == |old(presence)| - |presence|
    {
      hide Both;
      n := |presence.Keys * Both(id)|;
      Counted(presence, Both(id));
      presence := presence - Both(id);
    }

    method DeleteCredentials(id: string) returns (n: nat)
      modifies this`devices
      ensures devices == old(devices) - Both(id) && n == |old(devices)| - |devices|
    {
      hide Both;
      n := |devices.Keys * Both(id)|;
      Counted(devices, Both(id));
      devices := devices - Both(id);
    }

    /** The activity of a temporary identity stays. */
    method DeleteActivity(id: string)
      modifies this`activity
      ensures activity == if Temporary(id) then old(activity) else set a | a in old(activity) && a.0 !in Both(id)
    {
      hide Both;
      hide Temporary;
      if !Temporary(id) {
        activity := set a | a in activity && a.0 !in Both(id);
      }
    }

    /** Deletes one identity and its clone, table by table, counting the rows. */
    method RemoveIdentity(id: string) returns (rows: nat, credentials: nat, removed: nat)
      modifies this`presence, this`devices, this`associations, this`activity
      ensures State() == Drop(old(State()), id)
      ensures rows == |old(presence)| - |presence| && credentials == |old(devices)| - |devices|
      ensures removed == |old(associations)| - |associations|
    {
      hide Drop;
      hide Both;
      hide Touches;
      ghost var d := Drop(State(), id);
      DropTables(State(), id);
      removed := DeleteAssociations(id);
      assert associations == d.associations;
      rows := DeletePresence(id);
      credentials := DeleteCredentials(id);
      DeleteActivity(id);
    }

    static lemma DropTables(t: Tables, e: string)
      ensures Drop(t, e) ==
              t.(associations := t.associations - (set p | p in t.associations && Touches(p, e)),
                 presence := t.presence - Both(e),
                 devices := t.devices - Both(e),
                 activity := if Temporary(e) then t.activity else set a | a in t.activity && a.0 !in Both(e))
    {
      hide Both;
      hide Touches;
      hide Temporary;
      assert Drop(t, e).associations == t.associations - (set p | p in t.associations && Touches(p, e));
      assert Temporary(e) ==> Drop(t, e).activity == t.activity;
    }

    static lemma Counted<K, V>(m: map<K, V>, keys: set<K>)
      ensures |m - keys| == |m| - |m.Keys * keys|
      ensures keys <= m.Keys ==> |m.Keys * keys| == |keys|
    {
      assert (m - keys).Keys == m.Keys - keys;
      assert m.Keys == (m.Keys - keys) + m.Keys * keys;
      assert keys <= m.Keys ==> m.Keys * keys == keys;
    }
  }
}
