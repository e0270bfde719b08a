/** Whole runs of `DeviceAuthLimiter`: both dimensions of every interleaving of
    checks, clears and prunings keep the bucket invariant. */
module AuthRuns {
  import opened AuthSpec

  // ------------------------------------------------------ one whole dimension

  lemma SubsetSize<T>(a: set<T>, b: set<T>)
    requires a <= b
    ensures |a| <= |b|
  {
    assert b == a + (b - a);
  }

  /** The bucket of `key` and its reservations are the same in both. */
  ghost predicate SameFor(d: Dim, r: Dim, key: string) {
    && key in d.table && key in r.table && r.table[key] == d.table[key]
    && FailedAt(r.failed, key) == FailedAt(d.failed, key)
    && (forall id :: (id in r.holds && r.holds[id].key == key) <==> (id in d.holds && d.holds[id].key == key))
    && (forall id :: id in d.holds && d.holds[id].key == key ==> r.holds[id] == d.holds[id] && (id in r.stale <==> id in d.stale))
  }

  lemma SameBucket(d: Dim, r: Dim, key: string, now: nat)
    requires BucketAt(d, key, now) && r.limit == d.limit && r.policy == d.policy
    requires key in r.table ==> SameFor(d, r, key)
    ensures BucketAt(r, key, now)
  {
    hide Bucket;
    if key in r.table {
      assert ViewOf(r, key).held == ViewOf(d, key).held;
      assert ViewOf(r, key).stale == ViewOf(d, key).stale;
    }
  }

  lemma AllBuckets(d: Dim, now: nat, key: string)
    requires Valid(d, now)
    ensures BucketAt(d, key, now)
  {
  }

  lemma ValidLater(d: Dim, now: nat, later: nat)
    requires Valid(d, now) && now <= later
    ensures Valid(d, later)
  {
    hide Bucket;
    forall key
      ensures BucketAt(d, key, later)
    {
      AllBuckets(d, now, key);
      if key in d.table {
        BucketLater(d.limit, d.policy, ViewOf(d, key), now, later);
      }
    }
  }

  lemma TouchValid(d: Dim, key: string, now: nat)
    requires Valid(d, now)
    ensures Valid(Touch(d, key, now), now)
    ensures key in Touch(d, key, now).table ==> Touch(d, key, now).table[key].expires > now
    ensures Touch(d, key, now).holds == d.holds
  {
    hide Bucket;
    hide BucketAt;
    var r := Touch(d, key, now);
    if key in d.table {
      assert r.table.Keys == d.table.Keys;
      assert |r.table| == |r.table.Keys|;
      TouchBucket(d, key, now);
      forall k
        ensures BucketAt(r, k, now)
      {
        if k != key {
          AllBuckets(d, now, k);
          SameBucket(d, r, k, now);
        }
      }
    }
  }

  lemma TouchBucket(d: Dim, key: string, now: nat)
    requires Valid(d, now) && key in d.table
    ensures BucketAt(Touch(d, key, now), key, now)
  {
    AllBuckets(d, now, key);
    hide Bucket;
    var r := Touch(d, key, now);
    BucketTouched(d.limit, d.policy, ViewOf(d, key), now);
    assert ViewOf(r, key).held == ViewOf(d, key).held;
  }

  lemma HeldPending(d: Dim, id: nat, now: nat)
    requires Valid(d, now) && id in d.holds
    ensures d.holds[id].key in d.table && d.table[d.holds[id].key].pending > 0
    ensures id in ViewOf(d, d.holds[id].key).held
  {
    hide Bucket;
    var key := d.holds[id].key;
    AllBuckets(d, now, key);
    BucketReturned(d.limit, d.policy, ViewOf(d, key), id, now);
  }

  ghost function Without(d: Dim, gone: set<string>): Dim {
    d.(table := d.table - gone, failed := d.failed - gone)
  }

  lemma ValidClosed(d: Dim, now: nat)
    requires Valid(d, now)
    ensures Closed(d)
  {
    hide BucketAt;
  }

  lemma RemoveClosed(d: Dim, gone: set<string>, now: nat)
    requires Valid(d, now)
    requires forall k :: k in gone && k in d.table ==> d.table[k].pending == 0
    ensures Closed(Without(d, gone))
  {
    hide BucketAt;
    var r := Without(d, gone);
    ValidClosed(d, now);
    SubsetSize(r.table.Keys, d.table.Keys);
    assert |r.table| <= |d.table|;
    forall id | id in r.holds
      ensures r.holds[id].key in r.table
    {
      HeldPending(d, id, now);
      hide Valid;
      hide Closed;
    }
    hide Valid;
  }

  /** Buckets without reservations may go. */
  lemma RemoveValid(d: Dim, gone: set<string>, now: nat)
    requires Valid(d, now)
    requires forall k :: k in gone && k in d.table ==> d.table[k].pending == 0
    ensures Valid(Without(d, gone), now)
  {
    RemoveClosed(d, gone, now);
    hide BucketAt;
    hide Closed;
    forall k
      ensures BucketAt(Without(d, gone), k, now)
    {
      AllBuckets(d, now, k);
      SameBucket(d, Without(d, gone), k, now);
    }
  }

  lemma PruneValid(d: Dim, now: nat)
    requires Valid(d, now)
    ensures Valid(Prune(d, now), now)
  {
    hide Valid;
    RemoveValid(d, (set k | k in d.table && Prunable(d.table[k], now)), now);
  }

  lemma EraseValid(d: Dim, key: string, now: nat)
    requires Valid(d, now)
    ensures Valid(Erased(d, key), now)
  {
    hide Valid;
    if key in d.table && d.table[key].count == 0 && d.table[key].pending == 0 {
      RemoveValid(d, {key}, now);
    }
  }

  /** The view in which a new check reserves. */
  ghost function Before(d: Dim, key: string, now: nat): View {
    if key in d.table then ViewOf(d, key) else View(NewBucket(now), [], map[], {})
  }

  lemma BeforeBucket(d: Dim, key: string, now: nat)
    requires Valid(d, now) && Delay(d.table, d.limit, key, now) == 0
    ensures var v := Before(d, key, now);
            && Bucket(d.limit, d.policy, v, now)
            && v.f.blockedUntil <= now && v.f.pending < Available(v.f, d.limit)
  {
    AllBuckets(d, now, key);
    hide Spaced;
  }

  lemma ReserveView(d: Dim, id: nat, key: string, now: nat)
    requires Closed(d) && id !in d.holds
    ensures var v := Before(d, key, now);
            ViewOf(Reserve(d, id, key, now), key)
            == v.(f := v.f.(pending := v.f.pending + 1), held := v.held[id := Hold(key, v.f.generation, now)])
  {
    var r := Reserve(d, id, key, now);
    var v := Before(d, key, now);
    var w := v.(f := v.f.(pending := v.f.pending + 1), held := v.held[id := Hold(key, v.f.generation, now)]);
    assert ViewOf(r, key).held == w.held;
    assert ViewOf(r, key).stale == w.stale;
    assert ViewOf(r, key).failed == w.failed;
  }

  lemma ReserveBucket(d: Dim, id: nat, key: string, now: nat)
    requires Valid(d, now) && id !in d.holds
    requires Delay(d.table, d.limit, key, now) == 0
    ensures BucketAt(Reserve(d, id, key, now), key, now)
  {
    hide Bucket;
    hide Delay;
    BeforeBucket(d, key, now);
    ReserveView(d, id, key, now);
    BucketReserved(d.limit, d.policy, Before(d, key, now), id, key, now);
  }

  lemma ReserveClosed(d: Dim, id: nat, key: string, now: nat)
    requires Closed(d) && !Full(d.table, key)
    ensures Closed(Reserve(d, id, key, now))
  {
    var r := Reserve(d, id, key, now);
    assert r.table.Keys == d.table.Keys + {key};
    assert |r.table| == |r.table.Keys| && |d.table| == |d.table.Keys|;
  }

  lemma ReserveSame(d: Dim, id: nat, key: string, now: nat, k: string)
    requires id !in d.holds && k != key
    ensures var r := Reserve(d, id, key, now);
            (k in r.table ==> SameFor(d, r, k)) && r.limit == d.limit && r.policy == d.policy
  {
  }

  lemma ReserveValid(d: Dim, id: nat, key: string, now: nat)
    requires Valid(d, now) && id !in d.holds
    requires Delay(d.table, d.limit, key, now) == 0 && !Full(d.table, key)
    ensures Valid(Reserve(d, id, key, now), now)
  {
    ReserveClosed(d, id, key, now);
    ReserveBucket(d, id, key, now);
    hide BucketAt;
    hide Closed;
    hide Delay;
    var r := Reserve(d, id, key, now);
    forall k
      ensures BucketAt(r, k, now)
    {
      if k != key {
        AllBuckets(d, now, k);
        ReserveSame(d, id, key, now, k);
        hide Reserve;
        SameBucket(d, r, k, now);
      }
    }
    hide SameFor;
    hide Full;
  }

  /** The view of a bucket whose check `id` gives its reservation back. */
  ghost function Returned(v: View, id: nat, now: nat): View
    requires v.f.pending > 0
  {
    View(ResetExpired(v.f.(pending := v.f.pending - 1), now), if v.f.expires > now then v.failed else [],
         v.held - {id}, v.stale - {id})
  }

  lemma ReturnedBucket(limit: nat, policy: Policy, v: View, id: nat, now: nat)
    requires Bucket(limit, policy, v, now) && id in v.held
    ensures v.f.pending > 0
    ensures var r := Returned(v, id, now);
            && Bucket(limit, policy, r, now) && r.f.expires > now
            && r.f.pending < Available(r.f, limit)
            && (r.f.count == limit ==> r.held == map[] && now >= r.f.blockedUntil)
  {
    BucketReturned(limit, policy, v, id, now);
    var b := v.(f := v.f.(pending := v.f.pending - 1), held := v.held - {id}, stale := v.stale - {id});
    BucketTouched(limit, policy, b, now);
    hide Locked;
  }

  /** The bucket a finishing check leaves behind. */
  lemma SettledView(d: Dim, id: nat, ok: bool, now: nat, op: Operation)
    requires Valid(d, now) && id in d.holds
    ensures d.holds[id].key in d.table && d.table[d.holds[id].key].pending > 0
    ensures BucketAt(Settled(d, id, ok, now, op), d.holds[id].key, now)
  {
    hide Bucket;
    hide Record;
    hide ResetExpired;
    HeldPending(d, id, now);
    var key := d.holds[id].key;
    var s := Settled(d, id, ok, now, op);
    AllBuckets(d, now, key);
    var v := ViewOf(d, key);
    ReturnedBucket(d.limit, d.policy, v, id, now);
    var r := Returned(v, id, now);
    assert ViewOf(s, key).held == r.held;
    assert ViewOf(s, key).stale == r.stale;
    if !ok && v.f.generation == d.holds[id].generation {
      BucketRecorded(d.limit, d.policy, r, now, op);
    }
  }

  lemma SettledValid(d: Dim, id: nat, ok: bool, now: nat, op: Operation)
    requires Valid(d, now) && id in d.holds
    ensures d.holds[id].key in d.table && d.table[d.holds[id].key].pending > 0
    ensures Valid(Settled(d, id, ok, now, op), now)
  {
    hide Bucket;
    hide BucketAt;
    hide Record;
    SettledView(d, id, ok, now, op);
    var key := d.holds[id].key;
    var s := Settled(d, id, ok, now, op);
    assert s.table.Keys == d.table.Keys;
    assert |s.table| == |s.table.Keys| && |d.table| == |d.table.Keys|;
    forall k
      ensures BucketAt(s, k, now)
    {
      if k != key {
        AllBuckets(d, now, k);
        SameBucket(d, s, k, now);
      }
    }
  }

  lemma ReleaseValid(d: Dim, id: nat, ok: bool, now: nat, op: Operation)
    requires Valid(d, now) && id in d.holds
    ensures d.holds[id].key in d.table && d.table[d.holds[id].key].pending > 0
    ensures Valid(Release(d, id, ok, now, op), now)
  {
    hide Valid;
    SettledValid(d, id, ok, now, op);
    EraseValid(Settled(d, id, ok, now, op), d.holds[id].key, now);
  }

  lemma ClearBucket(d: Dim, keys: set<string>, now: nat, key: string)
    requires Valid(d, now) && key in keys
    ensures BucketAt(Clear(d, keys, now), key, now)
  {
    hide Bucket;
    var r := Clear(d, keys, now);
    if key in r.table {
      AllBuckets(d, now, key);
      var v := ViewOf(d, key);
      BucketCleared(d.limit, d.policy, v, now);
      assert ViewOf(r, key).held == v.held;
      assert ViewOf(r, key).stale == v.held.Keys;
      assert ViewOf(r, key).failed == [];
    }
  }

  lemma ClearClosed(d: Dim, keys: set<string>, now: nat)
    requires Valid(d, now)
    ensures Closed(Clear(d, keys, now))
  {
    hide BucketAt;
    var r := Clear(d, keys, now);
    ValidClosed(d, now);
    SubsetSize(r.table.Keys, d.table.Keys);
    assert |r.table| <= |d.table|;
    forall id | id in r.holds
      ensures r.holds[id].key in r.table
    {
      HeldPending(d, id, now);
      hide Valid;
      hide Closed;
    }
    hide Valid;
    assert forall id :: id in r.stale ==> id in r.holds;
  }

  lemma ClearSame(d: Dim, keys: set<string>, now: nat, k: string)
    requires k !in keys
    ensures var r := Clear(d, keys, now);
            (k in r.table ==> SameFor(d, r, k)) && r.limit == d.limit && r.policy == d.policy
  {
  }

  lemma ClearValid(d: Dim, keys: set<string>, now: nat)
    requires Valid(d, now)
    ensures Valid(Clear(d, keys, now), now)
  {
    ClearClosed(d, keys, now);
    hide BucketAt;
    hide Closed;
    var r := Clear(d, keys, now);
    forall k
      ensures BucketAt(r, k, now)
    {
      if k in keys {
        ClearBucket(d, keys, now, k);
      } else {
        AllBuckets(d, now, k);
        ClearSame(d, keys, now, k);
        hide Clear;
        SameBucket(d, r, k, now);
      }
    }
    hide SameFor;
  }

  // ------------------------------------------------------------ the limiter

  datatype Limiter = Limiter(sources: Dim, targets: Dim, nextCleanup: nat)

  function Key(source: string): string {
    if source == "" then "unknown" else source
  }

  function Max(a: nat, b: nat): nat {
    if a < b then b else a
  }

  ghost function Swept(l: Limiter, now: nat): Limiter {
    if now < l.nextCleanup then l
    else Limiter(Prune(l.sources, now), Prune(l.targets, now), now + 60)
  }

  ghost function Touched(l: Limiter, source: string, target: string, now: nat): Limiter {
    l.(sources := Touch(l.sources, Key(source), now), targets := Touch(l.targets, target, now))
  }

  ghost function Wait(l: Limiter, source: string, target: string, now: nat): nat {
    Max(Delay(l.sources.table, l.sources.limit, Key(source), now), Delay(l.targets.table, l.targets.limit, target, now))
  }

  /** The first half of `Verify`: seconds to wait, or 0 with both budgets reserved. */
  ghost function Begin(l: Limiter, id: nat, source: string, target: string, now: nat): (Limiter, nat) {
    var t := Touched(Swept(l, now), source, target, now);
    var wait := Wait(t, source, target, now);
    if wait > 0 then (t, wait)
    else if Full(t.sources.table, Key(source)) || Full(t.targets.table, target) then (t, WINDOW)
    else (t.(sources := Reserve(t.sources, id, Key(source), now), targets := Reserve(t.targets, id, target, now)), 0)
  }

  ghost predicate Good(l: Limiter, now: nat) {
    && Valid(l.sources, now) && Valid(l.targets, now)
    && l.sources.holds.Keys == l.targets.holds.Keys
  }

  /** The second half of `Verify`: both reservations are settled. */
  ghost function Finish(l: Limiter, id: nat, ok: bool, now: nat, op: Operation): Limiter
    requires Good(l, now) && id in l.sources.holds
  {
    HeldPending(l.sources, id, now);
    HeldPending(l.targets, id, now);
    l.(sources := Release(l.sources, id, ok, now, op), targets := Release(l.targets, id, ok, now, op))
  }

  function Cooldown(sources: map<string, Failures>, targets: map<string, Failures>, source: string, target: string, now: nat): nat {
    Max(if Key(source) in sources then Remaining(sources[Key(source)].blockedUntil, now) else 0,
        if target in targets then Remaining(targets[target].blockedUntil, now) else 0)
  }

  datatype Event =
    | Started(id: nat, source: string, target: string)
    | Finished(id: nat, ok: bool, op: Operation)
    | Cleared(sources: set<string>, targets: set<string>)

  datatype Timed = Timed(event: Event, at: nat)

  ghost predicate InOrder(events: seq<Timed>) {
    forall i, j :: 0 <= i < j < |events| ==> events[i].at <= events[j].at
  }

  function EndOf(events: seq<Timed>): nat {
    if events == [] then 0 else events[|events| - 1].at
  }

  /** `id` names the waiting thread: it starts no second check, and only a
      check in flight finishes. */
  ghost function Next(l: Limiter, e: Timed): Limiter
    requires Good(l, e.at)
  {
    match e.event
    case Started(id, source, target) => if id in l.sources.holds then l else Begin(l, id, source, target, e.at).0
    case Finished(id, ok, op) => if id in l.sources.holds then Finish(l, id, ok, e.at, op) else l
    case Cleared(s, t) => l.(sources := Clear(l.sources, s, e.at), targets := Clear(l.targets, t, e.at))
  }

  lemma SweptGood(l: Limiter, now: nat)
    requires Good(l, now)
    ensures Good(Swept(l, now), now)
  {
    hide Valid;
    if now >= l.nextCleanup {
      PruneValid(l.sources, now);
      PruneValid(l.targets, now);
    }
  }

  lemma BeginGood(l: Limiter, id: nat, source: string, target: string, now: nat)
    requires Good(l, now) && id !in l.sources.holds
    ensures Good(Begin(l, id, source, target, now).0, now)
  {
    hide Valid;
    SweptGood(l, now);
    var s := Swept(l, now);
    TouchValid(s.sources, Key(source), now);
    TouchValid(s.targets, target, now);
    var t := Touched(s, source, target, now);
    if Begin(l, id, source, target, now).1 == 0 {
      ReserveValid(t.sources, id, Key(source), now);
      ReserveValid(t.targets, id, target, now);
    }
  }

  lemma NextGood(l: Limiter, e: Timed)
    requires Good(l, e.at)
    ensures Good(Next(l, e), e.at)
  {
    hide Valid;
    match e.event {
      case Started(id, source, target) =>
        if id !in l.sources.holds {
          BeginGood(l, id, source, target, e.at);
        }
      case Finished(id, ok, op) =>
        if id in l.sources.holds {
          ReleaseValid(l.sources, id, ok, e.at, op);
          ReleaseValid(l.targets, id, ok, e.at, op);
        }
      case Cleared(s, t) =>
        ClearValid(l.sources, s, e.at);
        ClearValid(l.targets, t, e.at);
    }
  }

  datatype Config = Config(sourceLimit: nat, targetLimit: nat, policy: Policy)

  ghost predicate Positive(c: Config) {
    0 < c.sourceLimit && 0 < c.targetLimit
  }

  ghost function Fresh(limit: nat, policy: Policy): Dim {
    Dim(limit, policy, map[], map[], map[], {})
  }

  ghost function Run(c: Config, events: seq<Timed>): (l: Limiter)
    requires Positive(c) && InOrder(events)
    ensures Good(l, EndOf(events))
  {
    if events == [] then Limiter(Fresh(c.sourceLimit, c.policy), Fresh(c.targetLimit, c.policy), 0)
    else
      var before := events[..|events| - 1];
      var e := events[|events| - 1];
      var l := Run(c, before);
      GoodLater(l, EndOf(before), e.at);
      NextGood(l, e);
      Next(l, e)
  }

  // ------------------------------------------------------------ main results

  /** Both dimensions of a run: the limit and policy never change. */
  lemma {:induction false} RunConfig(c: Config, events: seq<Timed>)
    requires Positive(c) && InOrder(events)
    ensures var l := Run(c, events);
            && l.sources.limit == c.sourceLimit && l.targets.limit == c.targetLimit
            && l.sources.policy == l.targets.policy == c.policy
  {
    hide Valid;
    hide Swept;
    hide Reserve;
    hide Release;
    hide Touch;
    hide Clear;
    hide Wait;
    if events != [] {
      RunConfig(c, events[..|events| - 1]);
      GoodLater(Run(c, events[..|events| - 1]), EndOf(events[..|events| - 1]), events[|events| - 1].at);
      NextConfig(Run(c, events[..|events| - 1]), events[|events| - 1]);
    }
  }

  ghost predicate SameConfig(l: Limiter, r: Limiter) {
    && r.sources.limit == l.sources.limit && r.sources.policy == l.sources.policy
    && r.targets.limit == l.targets.limit && r.targets.policy == l.targets.policy
  }

  lemma GoodLater(l: Limiter, now: nat, later: nat)
    requires Good(l, now) && now <= later
    ensures Good(l, later)
  {
    ValidLater(l.sources, now, later);
    ValidLater(l.targets, now, later);
  }

  lemma BeginConfig(l: Limiter, id: nat, source: string, target: string, now: nat)
    ensures SameConfig(l, Begin(l, id, source, target, now).0)
  {
    hide Wait;
    var s := Swept(l, now);
    assert SameConfig(l, s);
    hide Swept;
    assert SameConfig(s, Touched(s, source, target, now));
    hide Touched;
  }

  lemma NextConfig(l: Limiter, e: Timed)
    requires Good(l, e.at)
    ensures SameConfig(l, Next(l, e))
  {
    hide Valid;
    hide Begin;
    match e.event {
      case Started(id, source, target) => BeginConfig(l, id, source, target, e.at);
      case Finished(id, ok, op) =>
      case Cleared(s, t) =>
    }
  }

  /** Time from the failure that locks a record to the k-th one after it. */
  ghost function Ladder(k: nat): nat {
    if k == 0 then 0 else Ladder(k - 1) + Step(k - 1)
  }

  ghost function Power2(k: nat): nat {
    if k == 0 then 1 else 2 * Power2(k - 1)
  }

  /** The rungs are 60 seconds doubled k times, capped at four hours. */
  lemma {:induction false} StepDoubles(k: nat)
    ensures Step(k) == if 60 * Power2(k) < 14400 then 60 * Power2(k) else 14400
  {
    if k > 0 {
      StepDoubles(k - 1);
    }
  }

  lemma {:induction false} LadderClimbed(failed: seq<nat>, limit: nat, k: nat)
    requires Spaced(failed, limit) && 0 < limit && limit - 1 + k < |failed|
    ensures failed[limit - 1 + k] >= failed[limit - 1] + Ladder(k)
  {
    if k > 0 {
      LadderClimbed(failed, limit, k - 1);
      assert failed[limit + (k - 1)] >= failed[limit + (k - 1) - 1] + Step(k - 1);
    }
  }

  ghost function DimOf(l: Limiter, source: bool): Dim {
    if source then l.sources else l.targets
  }

  /** However checks run in parallel, the k-th failure after the one that locked
      a record comes at least the sum of the first k rungs later. */
  lemma RunLadder(c: Config, events: seq<Timed>, source: bool, key: string, k: nat)
    requires Positive(c) && InOrder(events)
    requires var d := DimOf(Run(c, events), source);
             key in d.table && d.limit - 1 + k < |FailedAt(d.failed, key)|
    ensures var d := DimOf(Run(c, events), source);
            FailedAt(d.failed, key)[d.limit - 1 + k] >= FailedAt(d.failed, key)[d.limit - 1] + Ladder(k)
  {
    hide Run;
    hide Valid;
    var d := DimOf(Run(c, events), source);
    ValidLadder(d, EndOf(events), key, k);
  }

  lemma ValidLadder(d: Dim, now: nat, key: string, k: nat)
    requires Valid(d, now) && key in d.table && d.limit - 1 + k < |FailedAt(d.failed, key)|
    ensures 0 < d.limit
    ensures FailedAt(d.failed, key)[d.limit - 1 + k] >= FailedAt(d.failed, key)[d.limit - 1] + Ladder(k)
  {
    AllBuckets(d, now, key);
    LadderClimbed(FailedAt(d.failed, key), d.limit, k);
  }

  /** Reservations over every run: each bucket's `pending` counts the checks in
      flight for its key, which therefore find their bucket when they finish. */
  lemma RunReservations(c: Config, events: seq<Timed>, source: bool)
    requires Positive(c) && InOrder(events)
    ensures var d := DimOf(Run(c, events), source);
            && |d.table| <= 16384
            && (forall id :: id in d.holds ==> d.holds[id].key in d.table)
            && (forall key :: key in d.table ==>
                  var f := d.table[key];
                  && f.pending == |set id | id in d.holds && d.holds[id].key == key|
                  && f.count <= d.limit
                  && (f.count < d.limit ==> f.pending <= d.limit - f.count)
                  && (f.count == d.limit ==> f.pending <= 1))
  {
    ValidReservations(DimOf(Run(c, events), source), EndOf(events));
  }

  lemma ValidReservations(d: Dim, now: nat)
    requires Valid(d, now)
    ensures forall key :: key in d.table ==>
              var f := d.table[key];
              && f.pending == |set id | id in d.holds && d.holds[id].key == key|
              && f.count <= d.limit && f.pending <= Available(f, d.limit)
  {
    forall key | key in d.table
      ensures var f := d.table[key];
              && f.pending == |set id | id in d.holds && d.holds[id].key == key|
              && f.count <= d.limit && f.pending <= Available(f, d.limit)
    {
      AllBuckets(d, now, key);
      var v := ViewOf(d, key);
      assert v.held.Keys == set id | id in d.holds && d.holds[id].key == key;
      assert |v.held| == |v.held.Keys|;
    }
  }

  /** A locked record is probed by at most one check at a time, never before its
      cooldown ends, and nothing that began before is still in flight. */
  lemma RunLocked(c: Config, events: seq<Timed>, source: bool, key: string)
    requires Positive(c) && InOrder(events)
    requires var d := DimOf(Run(c, events), source);
             key in d.table && d.table[key].count == d.limit
    ensures var d := DimOf(Run(c, events), source);
            forall id :: id in d.holds && d.holds[id].key == key ==> d.table[key].blockedUntil <= d.holds[id].since
  {
    var d := DimOf(Run(c, events), source);
    AllBuckets(d, EndOf(events), key);
    assert forall id :: id in d.holds && d.holds[id].key == key ==> id in ViewOf(d, key).held;
  }

  /** A failure is recorded exactly when no clear came after its check began. */
  lemma FailureCounts(d: Dim, id: nat, now: nat, op: Operation)
    requires Valid(d, now) && id in d.holds
    ensures d.holds[id].key in d.table && d.table[d.holds[id].key].pending > 0
    ensures var key := d.holds[id].key;
            var kept := if d.table[key].expires > now then FailedAt(d.failed, key) else [];
            && FailedAt(Release(d, id, false, now, op).failed, key) == kept + (if id in d.stale then [] else [now])
            && FailedAt(Release(d, id, true, now, op).failed, key) == kept
  {
    HeldPending(d, id, now);
    var key := d.holds[id].key;
    var v := ViewOf(d, key);
    AllBuckets(d, now, key);
    assert id in v.held && (id in v.stale <==> v.held[id].generation < v.f.generation);
    assert id in d.stale <==> d.table[key].generation != d.holds[id].generation;
    SettledView(d, id, false, now, op);
    SettledView(d, id, true, now, op);
    hide Locked;
    hide Reserved;
    ErasedFailed(d, id, false, now, op);
    ErasedFailed(d, id, true, now, op);
  }

  lemma ErasedFailed(d: Dim, id: nat, ok: bool, now: nat, op: Operation)
    requires id in d.holds && d.holds[id].key in d.table && d.table[d.holds[id].key].pending > 0 && 0 < d.limit
    requires BucketAt(Settled(d, id, ok, now, op), d.holds[id].key, now)
    ensures FailedAt(Release(d, id, ok, now, op).failed, d.holds[id].key)
            == FailedAt(Settled(d, id, ok, now, op).failed, d.holds[id].key)
  {
    hide Locked;
    hide Reserved;
  }

  /** The stale checks are those in flight when their bucket was cleared. */
  lemma ClearMarks(d: Dim, keys: set<string>, now: nat, id: nat)
    requires Valid(d, now) && id in d.holds
    ensures var r := Clear(d, keys, now);
            && id in r.holds
            && (id in r.stale <==> id in d.stale || d.holds[id].key in keys)
            && (d.holds[id].key in keys ==>
                  && d.holds[id].key in r.table
                  && r.table[d.holds[id].key].count == 0
                  && r.table[d.holds[id].key].pending == d.table[d.holds[id].key].pending)
  {
    HeldPending(d, id, now);
  }

  /** `CooldownRemaining` foretells `Verify`: while it is positive the next check
      is refused, for exactly that long. */
  lemma CooldownForetells(l: Limiter, id: nat, source: string, target: string, now: nat)
    requires Good(l, now)
    requires Cooldown(l.sources.table, l.targets.table, source, target, now) > 0
    ensures Begin(l, id, source, target, now).1 == Cooldown(l.sources.table, l.targets.table, source, target, now)
  {
    var s := Swept(l, now);
    BlockedStays(l.sources, Key(source), now);
    BlockedStays(l.targets, target, now);
  }

  lemma BlockedStays(d: Dim, key: string, now: nat)
    requires Valid(d, now)
    ensures var blocked := if key in d.table then Remaining(d.table[key].blockedUntil, now) else 0;
            && (blocked > 0 ==> Delay(Touch(d, key, now).table, d.limit, key, now) == blocked
                                && Delay(Touch(Prune(d, now), key, now).table, d.limit, key, now) == blocked)
            && (blocked == 0 ==> Delay(Touch(d, key, now).table, d.limit, key, now) <= 1
                                 && Delay(Touch(Prune(d, now), key, now).table, d.limit, key, now) <= 1)
  {
    hide Locked;
    hide Reserved;
    AllBuckets(d, now, key);
  }
}
