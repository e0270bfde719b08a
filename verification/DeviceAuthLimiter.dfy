/** `DeviceAuthLimiter`: the loops over its bucket tables and the two locked
    halves of `Verify`, proved to compute the functions of `AuthRuns`. */
module DeviceAuthLimiting {
  import opened AuthSpec
  import R = AuthRuns

  /** One table of failure buckets. */
  class Buckets {
    const limit: nat
    const policy: Policy
    var table: map<string, Failures>
    ghost var holds: map<nat, Hold>
    ghost var failed: map<string, seq<nat>>
    ghost var stale: set<nat>

    ghost function State(): Dim
      reads this
    {
      Dim(limit, policy, table, holds, failed, stale)
    }

    constructor (limit: nat, policy: Policy)
      ensures State() == R.Fresh(limit, policy)
    {
      this.limit, this.policy := limit, policy;
      table := map[];
      holds := map[];
      failed := map[];
      stale := {};
    }

    method PruneExpired(now: nat)
      modifies this
      ensures State() == Prune(old(State()), now)
    {
      ghost var was := table;
      var todo := table.Keys;
      while todo != {}
        invariant todo <= table.Keys <= was.Keys
        invariant forall k :: k in table ==> table[k] == was[k]
        invariant forall k :: k in was && k !in todo ==> (k in table <==> !Prunable(was[k], now))
        invariant State() == old(State()).(table := table)
        decreases todo
      {
        var k :| k in todo;
        if table[k].expires <= now && table[k].pending == 0 {
          table := table - {k};
        }
        todo := todo - {k};
      }
      ghost var gone := set k | k in was && Prunable(was[k], now);
      assert table == was - gone;
      failed := failed - gone;
    }

    /** Resets the key's record if it has expired; seconds a new check must wait. */
    method Retry(key: string, now: nat) returns (wait: nat)
      modifies this
      ensures State() == Touch(old(State()), key, now)
      ensures wait == Delay(table, limit, key, now)
    {
      if key !in table {
        return 0;
      }
      if table[key].expires <= now {
        failed := failed - {key};
      }
      table := table[key := ResetExpired(table[key], now)];
      var delay := Remaining(table[key].blockedUntil, now);
      if delay > 0 {
        return delay;
      }
      wait := if table[key].pending >= Available(table[key], limit) then 1 else 0;
    }

    method Take(ghost id: nat, key: string, now: nat) returns (generation: nat)
      modifies this
      ensures State() == Reserve(old(State()), id, key, now)
      ensures id in holds && generation == holds[id].generation && holds[id].key == key
    {
      if key !in table {
        table := table[key := NewBucket(now)];
      }
      generation := table[key].generation;
      table := table[key := table[key].(pending := table[key].pending + 1)];
      holds := holds[id := Hold(key, generation, now)];
    }

    method Settle(ghost id: nat, key: string, generation: nat, ok: bool, now: nat, op: Operation)
      requires id in holds && holds[id].key == key && holds[id].generation == generation
      requires key in table && table[key].pending > 0
      modifies this
      ensures State() == Release(old(State()), id, ok, now, op)
    {
      ghost var d := State();
      ghost var s := Settled(d, id, ok, now, op);
      var bucket := table[key];
      bucket := bucket.(pending := bucket.pending - 1);
      bucket := ResetExpired(bucket, now);
      if !ok && bucket.generation == generation {
        bucket := Record(bucket, limit, now, op, policy);
      }
      table := table[key := bucket];
      failed, holds, stale := s.failed, s.holds, s.stale;
      assert State() == s;
      if bucket.count == 0 && bucket.pending == 0 {
        table := table - {key};
        failed := failed - {key};
      }
    }

    method ClearAll(keys: set<string>, now: nat)
      modifies this
      ensures State() == Clear(old(State()), keys, now)
    {
      ghost var d := State();
      var todo := table.Keys;
      while todo != {}
        invariant todo <= table.Keys <= d.table.Keys
        invariant State() == d.(table := table)
        invariant forall k :: k in todo ==> table[k] == d.table[k]
        invariant forall k :: k in d.table && k !in todo ==>
          (k in table <==> !(k in keys && d.table[k].pending == 0))
        invariant forall k :: k in table && k !in todo ==>
          table[k] == if k in keys then ClearedBucket(d.table[k], now) else d.table[k]
        decreases todo
      {
        var k :| k in todo;
        if k in keys {
          if table[k].pending == 0 {
            table := table - {k};
          } else {
            var bucket := table[k];
            bucket := bucket.(generation := bucket.generation + 1, expires := now);
            table := table[k := ResetExpired(bucket, now)];
          }
        }
        todo := todo - {k};
      }
      assert table == Clear(d, keys, now).table;
      failed, stale := Clear(d, keys, now).failed, Clear(d, keys, now).stale;
    }
  }

  /** What `Verify` keeps on its stack while the lock is released. */
  datatype Check = Check(sourceKey: string, target: string, sourceGeneration: nat, targetGeneration: nat)

  datatype Begun = Refused(retryAfter: nat) | Reserved(check: Check)

  class DeviceAuthLimiter {
    const sources: Buckets
    const targets: Buckets
    var nextCleanup: nat

    ghost function State(): R.Limiter
      reads this, sources, targets
    {
      R.Limiter(sources.State(), targets.State(), nextCleanup)
    }

    /** The check's stack frame agrees with its two reservations. */
    ghost predicate InFlight(id: nat, c: Check)
      reads sources, targets
    {
      && id in sources.holds && id in targets.holds
      && sources.holds[id].key == c.sourceKey && sources.holds[id].generation == c.sourceGeneration
      && targets.holds[id].key == c.target && targets.holds[id].generation == c.targetGeneration
    }

    constructor (sourceLimit: nat, targetLimit: nat, policy: Policy)
      requires 0 < sourceLimit && 0 < targetLimit
      ensures sources != targets && fresh(sources) && fresh(targets)
      ensures State() == R.Run(R.Config(sourceLimit, targetLimit, policy), [])
    {
      sources := new Buckets(sourceLimit, policy);
      targets := new Buckets(targetLimit, policy);
      nextCleanup := 0;
    }

    /** `Verify` up to the password computation. */
    method Begin(ghost id: nat, source: string, target: string, now: nat) returns (r: Begun)
      requires sources != targets && R.Good(State(), now) && id !in sources.holds
      modifies this, sources, targets
      ensures State() == R.Begin(old(State()), id, source, target, now).0
      ensures r.Refused? <==> R.Begin(old(State()), id, source, target, now).1 > 0
      ensures r.Refused? ==> r.retryAfter == R.Begin(old(State()), id, source, target, now).1
      ensures r.Reserved? ==> InFlight(id, r.check)
      ensures R.Good(State(), now)
    {
      hide Valid;
      R.BeginGood(State(), id, source, target, now);
      if now >= nextCleanup {
        sources.PruneExpired(now);
        targets.PruneExpired(now);
        nextCleanup := now + 60;
      }
      var key := R.Key(source);
      var sourceWait := sources.Retry(key, now);
      var targetWait := targets.Retry(target, now);
      var wait := R.Max(sourceWait, targetWait);
      if wait > 0 {
        return Refused(wait);
      }
      if Full(sources.table, key) || Full(targets.table, target) {
        return Refused(WINDOW);
      }
      var sourceGeneration := sources.Take(id, key, now);
      var targetGeneration := targets.Take(id, target, now);
      r := Reserved(Check(key, target, sourceGeneration, targetGeneration));
    }

    /** `Verify` from the end of the password computation. */
    method Finish(ghost id: nat, c: Check, ok: bool, now: nat, op: Operation)
      requires sources != targets && R.Good(State(), now) && InFlight(id, c)
      modifies sources, targets
      ensures State() == R.Finish(old(State()), id, ok, now, op)
      ensures R.Good(State(), now)
    {
      hide Valid;
      R.HeldPending(sources.State(), id, now);
      R.HeldPending(targets.State(), id, now);
      R.NextGood(State(), R.Timed(R.Finished(id, ok, op), now));
      sources.Settle(id, c.sourceKey, c.sourceGeneration, ok, now, op);
      targets.Settle(id, c.target, c.targetGeneration, ok, now, op);
    }

    method ClearMatching(sourceKeys: set<string>, targetKeys: set<string>, now: nat)
      requires sources != targets && R.Good(State(), now)
      modifies sources, targets
      ensures State() == R.Next(old(State()), R.Timed(R.Cleared(sourceKeys, targetKeys), now))
      ensures R.Good(State(), now)
    {
      R.NextGood(State(), R.Timed(R.Cleared(sourceKeys, targetKeys), now));
      hide Valid;
      sources.ClearAll(sourceKeys, now);
      targets.ClearAll(targetKeys, now);
    }

    method CooldownRemaining(source: string, target: string, now: nat) returns (seconds: nat)
      ensures seconds == R.Cooldown(sources.table, targets.table, source, target, now)
    {
      var key := R.Key(source);
      var first := if key in sources.table then Remaining(sources.table[key].blockedUntil, now) else 0;
      var second := if target in targets.table then Remaining(targets.table[target].blockedUntil, now) else 0;
      seconds := R.Max(first, second);
    }
  }
}
