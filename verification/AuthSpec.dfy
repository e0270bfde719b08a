/** One dimension of `DeviceAuthLimiter`: failure buckets by key, and the
    checks in flight that hold a reservation in them.

    `failed` and `stale` are history: the failures recorded in the current
    record of a key, and the checks whose bucket was cleared after they began. */
module AuthSpec {

  const WINDOW: nat := 900
  const INITIAL_BACKOFF: nat := 60
  const MAX_BACKOFF: nat := 14400
  const BACKOFF_RECOVERY: nat := 1800
  const MAX_ENTRIES: nat := 16384

  datatype Policy = Fixed | Exponential

  datatype Operation = Unspecified | DeviceLogin | RemoteConnection | MemberQuery | DeviceKeyBinding

  datatype Failures = Failures(
    count: nat,
    pending: nat,
    expires: nat,
    blockedUntil: nat,
    backoff: nat,
    generation: nat,
    operations: set<Operation>)

  /** A reservation: the key, the bucket's generation and the time it was taken. */
  datatype Hold = Hold(key: string, generation: nat, since: nat)

  datatype Dim = Dim(
    limit: nat,
    policy: Policy,
    table: map<string, Failures>,
    holds: map<nat, Hold>,
    failed: map<string, seq<nat>>,
    stale: set<nat>)

  // ------------------------------------------------------------ one bucket

  function Remaining(deadline: nat, now: nat): nat {
    if deadline > now then deadline - now else 0
  }

  function NewBucket(now: nat): Failures {
    Failures(0, 0, now + WINDOW, 0, 0, 0, {})
  }

  function ResetExpired(f: Failures, now: nat): Failures {
    if f.expires > now then f
    else f.(count := 0, expires := now + WINDOW, blockedUntil := 0, backoff := 0, operations := {})
  }

  function Flag(op: Operation): set<Operation> {
    if op == Unspecified then {} else {op}
  }

  function Record(f: Failures, limit: nat, now: nat, op: Operation, policy: Policy): Failures {
    var g := f.(operations := f.operations + Flag(op), count := if f.count < limit then f.count + 1 else f.count);
    if g.count < limit then g
    else
      var wait := if policy == Fixed then WINDOW
                  else if f.backoff == 0 then INITIAL_BACKOFF
                  else if f.backoff * 2 < MAX_BACKOFF then f.backoff * 2 else MAX_BACKOFF;
      g.(backoff := wait, blockedUntil := now + wait,
         expires := now + wait + if policy == Exponential then BACKOFF_RECOVERY else 0)
  }

  function Available(f: Failures, limit: nat): nat {
    if f.count < limit then limit - f.count else 1
  }

  // --------------------------------------------------------- one dimension

  function FailedAt(failed: map<string, seq<nat>>, key: string): seq<nat> {
    if key in failed then failed[key] else []
  }

  /** `ResetExpired` on the bucket of `key`, when there is one. */
  ghost function Touch(d: Dim, key: string, now: nat): Dim {
    if key !in d.table then d
    else d.(table := d.table[key := ResetExpired(d.table[key], now)],
            failed := if d.table[key].expires > now then d.failed else d.failed - {key})
  }

  predicate Prunable(f: Failures, now: nat) {
    f.expires <= now && f.pending == 0
  }

  ghost function Prune(d: Dim, now: nat): Dim {
    var gone := set k | k in d.table && Prunable(d.table[k], now);
    d.(table := d.table - gone, failed := d.failed - gone)
  }

  /** Seconds a new check of `key` must wait; 0 when it may reserve. */
  function Delay(table: map<string, Failures>, limit: nat, key: string, now: nat): nat {
    if key !in table then 0
    else if Remaining(table[key].blockedUntil, now) > 0 then Remaining(table[key].blockedUntil, now)
    else if table[key].pending >= Available(table[key], limit) then 1 else 0
  }

  predicate Full(table: map<string, Failures>, key: string) {
    key !in table && |table| >= MAX_ENTRIES
  }

  ghost function Reserve(d: Dim, id: nat, key: string, now: nat): Dim {
    var f := if key in d.table then d.table[key] else NewBucket(now);
    d.(table := d.table[key := f.(pending := f.pending + 1)],
       holds := d.holds[id := Hold(key, f.generation, now)])
  }

  /** The bucket of check `id` as `Finish` leaves it, before it may be erased. */
  ghost function Settled(d: Dim, id: nat, ok: bool, now: nat, op: Operation): Dim
    requires id in d.holds && d.holds[id].key in d.table && d.table[d.holds[id].key].pending > 0
  {
    var h := d.holds[id];
    var f := d.table[h.key];
    var reset := ResetExpired(f.(pending := f.pending - 1), now);
    var kept := if f.expires > now then FailedAt(d.failed, h.key) else [];
    var counts := !ok && f.generation == h.generation;
    d.(table := d.table[h.key := if counts then Record(reset, d.limit, now, op, d.policy) else reset],
       failed := d.failed[h.key := if counts then kept + [now] else kept],
       holds := d.holds - {id}, stale := d.stale - {id})
  }

  ghost function Erased(d: Dim, key: string): Dim {
    if key in d.table && d.table[key].count == 0 && d.table[key].pending == 0 then
      d.(table := d.table - {key}, failed := d.failed - {key})
    else d
  }

  ghost function Release(d: Dim, id: nat, ok: bool, now: nat, op: Operation): Dim
    requires id in d.holds && d.holds[id].key in d.table && d.table[d.holds[id].key].pending > 0
  {
    Erased(Settled(d, id, ok, now, op), d.holds[id].key)
  }

  function ClearedBucket(f: Failures, now: nat): Failures {
    ResetExpired(f.(generation := f.generation + 1, expires := now), now)
  }

  /** An administrator clears the buckets `keys`: idle ones vanish, the others
      start a new generation and keep their reservations. */
  ghost function Clear(d: Dim, keys: set<string>, now: nat): Dim {
    var idle := set k | k in d.table && k in keys && d.table[k].pending == 0;
    d.(table := map k | k in d.table && k !in idle ::
                  if k in keys then ClearedBucket(d.table[k], now) else d.table[k],
       failed := d.failed - keys,
       stale := d.stale + set id | id in d.holds && d.holds[id].key in keys)
  }

  // ------------------------------------------------------------- invariant

  /** The backoff after the k-th failure beyond the limit: 60, 120, ... 14400. */
  ghost function Step(k: nat): nat {
    if k == 0 then INITIAL_BACKOFF
    else if Step(k - 1) * 2 < MAX_BACKOFF then Step(k - 1) * 2 else MAX_BACKOFF
  }

  /** What concerns one key: its bucket, failures, reservations, stale checks. */
  datatype View = View(f: Failures, failed: seq<nat>, held: map<nat, Hold>, stale: set<nat>)

  ghost function ViewOf(d: Dim, key: string): View
    requires key in d.table
  {
    View(d.table[key], FailedAt(d.failed, key),
         map id | id in d.holds && d.holds[id].key == key :: d.holds[id],
         set id | id in d.stale && id in d.holds && d.holds[id].key == key)
  }

  /** Consecutive failures beyond the limit are apart by the growing backoff. */
  ghost predicate Spaced(failed: seq<nat>, limit: nat) {
    forall i :: 0 < limit <= i < |failed| ==> failed[i] >= failed[i - 1] + Step(i - limit)
  }

  /** A bucket at its limit, and nothing in flight that began before the lock ends. */
  ghost predicate Locked(limit: nat, policy: Policy, v: View) {
    var n := |v.failed|;
    && limit <= n && 0 < n
    && (policy == Fixed ==> n == limit && v.f.backoff == WINDOW && v.f.expires == v.f.blockedUntil)
    && (policy == Exponential ==> v.f.backoff == Step(n - limit) && v.f.expires == v.f.blockedUntil + BACKOFF_RECOVERY)
    && v.f.blockedUntil == v.failed[n - 1] + v.f.backoff
    && Spaced(v.failed, limit)
    && (forall id :: id in v.held ==> v.held[id].since >= v.f.blockedUntil)
  }

  ghost predicate Reserved(limit: nat, v: View, now: nat) {
    && v.f.pending == |v.held|
    && v.f.pending <= Available(v.f, limit)
    && (forall id :: id in v.held ==>
          && v.held[id].since <= now
          && v.held[id].generation <= v.f.generation
          && (id in v.stale <==> v.held[id].generation < v.f.generation))
  }

  ghost predicate Bucket(limit: nat, policy: Policy, v: View, now: nat) {
    && 0 < limit
    && Reserved(limit, v, now)
    && v.f.count <= limit
    && v.f.blockedUntil <= v.f.expires
    && (v.f.count < limit ==> |v.failed| == v.f.count && v.f.blockedUntil == 0 && v.f.backoff == 0)
    && (v.f.count == limit ==> Locked(limit, policy, v))
    && (v.failed != [] ==> v.failed[|v.failed| - 1] <= now)
  }

  ghost predicate BucketAt(d: Dim, key: string, now: nat) {
    key in d.table ==> Bucket(d.limit, d.policy, ViewOf(d, key), now)
  }

  /** Histories and reservations speak of existing buckets only. */
  ghost predicate Closed(d: Dim) {
    && 0 < d.limit
    && |d.table| <= MAX_ENTRIES
    && (forall key :: key in d.failed ==> key in d.table)
    && (forall id :: id in d.holds ==> d.holds[id].key in d.table)
    && (forall id :: id in d.stale ==> id in d.holds)
  }

  /** Reservations match the checks in flight, and locked buckets climb the ladder. */
  ghost predicate Valid(d: Dim, now: nat) {
    Closed(d) && forall key :: BucketAt(d, key, now)
  }

  // --------------------------------------------------- one bucket, stepwise

  lemma BucketLater(limit: nat, policy: Policy, v: View, now: nat, later: nat)
    requires Bucket(limit, policy, v, now) && now <= later
    ensures Bucket(limit, policy, v, later)
  {
  }

  lemma BucketTouched(limit: nat, policy: Policy, v: View, now: nat)
    requires Bucket(limit, policy, v, now)
    ensures Bucket(limit, policy, v.(f := ResetExpired(v.f, now), failed := if v.f.expires > now then v.failed else []), now)
  {
  }

  lemma BucketReserved(limit: nat, policy: Policy, v: View, id: nat, key: string, now: nat)
    requires Bucket(limit, policy, v, now) && id !in v.held && id !in v.stale
    requires v.f.blockedUntil <= now && v.f.pending < Available(v.f, limit)
    ensures Bucket(limit, policy, v.(f := v.f.(pending := v.f.pending + 1),
                                     held := v.held[id := Hold(key, v.f.generation, now)]), now)
  {
    hide Spaced;
    var held := v.held[id := Hold(key, v.f.generation, now)];
    assert held.Keys == v.held.Keys + {id};
    assert |held| == |held.Keys| == |v.held.Keys| + 1;
    assert forall i :: i in v.held ==> held[i] == v.held[i];
  }

  lemma BucketCleared(limit: nat, policy: Policy, v: View, now: nat)
    requires Bucket(limit, policy, v, now)
    ensures Bucket(limit, policy, v.(f := ClearedBucket(v.f, now), failed := [], stale := v.held.Keys), now)
  {
  }

  /** A finished check gives its reservation back. */
  lemma BucketReturned(limit: nat, policy: Policy, v: View, id: nat, now: nat)
    requires Bucket(limit, policy, v, now) && id in v.held
    ensures v.f.pending > 0
    ensures var r := v.(f := v.f.(pending := v.f.pending - 1), held := v.held - {id}, stale := v.stale - {id});
            && Bucket(limit, policy, r, now)
            && r.f.pending < Available(r.f, limit)
            && (r.f.count == limit ==> r.held == map[] && now >= r.f.blockedUntil)
  {
    var left := v.held - {id};
    assert v.held.Keys == left.Keys + {id};
    assert |v.held| == |left| + 1;
  }

  lemma SpacedGrows(failed: seq<nat>, limit: nat, now: nat)
    requires Spaced(failed, limit) && 0 < limit
    requires limit <= |failed| ==> now >= failed[|failed| - 1] + Step(|failed| - limit)
    ensures Spaced(failed + [now], limit)
  {
  }

  lemma NoneHeld(v: View)
    requires v.f.pending == |v.held| == 0
    ensures v.held == map[]
  {
    assert v.held.Keys == {};
  }

  /** Nothing is in flight at the instant a record locks. */
  lemma BucketLocks(limit: nat, policy: Policy, v: View, now: nat, op: Operation)
    requires Bucket(limit, policy, v, now) && v.f.count + 1 == limit
    requires v.f.pending < Available(v.f, limit)
    ensures var r := v.(f := Record(v.f, limit, now, op, policy), failed := v.failed + [now]);
            Bucket(limit, policy, r, now) && r.held == map[] && r.f.count == limit
  {
    NoneHeld(v);
    SpacedGrows(v.failed, limit, now);
    hide Spaced;
  }

  /** A failure after the cooldown climbs one rung of the ladder. */
  lemma BucketClimbs(limit: nat, policy: Policy, v: View, now: nat, op: Operation)
    requires Bucket(limit, policy, v, now) && v.f.count == limit && v.f.expires > now
    requires v.held == map[] && now >= v.f.blockedUntil
    ensures var r := v.(f := Record(v.f, limit, now, op, policy), failed := v.failed + [now]);
            Bucket(limit, policy, r, now)
  {
    assert policy == Exponential;
    hide Spaced;
    hide Step;
    var k := |v.failed| - limit;
    StepPositive(k);
    StepNext(k);
    SpacedGrows(v.failed, limit, now);
    var r := Record(v.f, limit, now, op, policy);
    assert r.backoff == Step(k + 1) && r.count == limit;
  }

  lemma StepNext(k: nat)
    ensures Step(k + 1) == if Step(k) * 2 < MAX_BACKOFF then Step(k) * 2 else MAX_BACKOFF
  {
  }

  lemma BucketRecorded(limit: nat, policy: Policy, v: View, now: nat, op: Operation)
    requires Bucket(limit, policy, v, now) && v.f.expires > now
    requires v.f.pending < Available(v.f, limit)
    requires v.f.count == limit ==> now >= v.f.blockedUntil && v.held == map[]
    ensures var r := v.(f := Record(v.f, limit, now, op, policy), failed := v.failed + [now]);
            && Bucket(limit, policy, r, now)
            && (r.f.count == limit ==> r.held == map[])
  {
    if v.f.count == limit {
      BucketClimbs(limit, policy, v, now, op);
    } else if v.f.count + 1 == limit {
      BucketLocks(limit, policy, v, now, op);
    }
  }

  lemma {:induction false} StepPositive(k: nat)
    ensures INITIAL_BACKOFF <= Step(k) <= MAX_BACKOFF
  {
    if k > 0 {
      StepPositive(k - 1);
    }
  }
}
