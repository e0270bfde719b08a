/** What the server relies on: which requests the queue holds, by connection. */
module QueueIds {
  import opened Ordering
  import opened WorkLimiting
  import opened QueueSpec
  import opened QueueHistory

  lemma EnqueueIds(q: Queue, job: Job)
    ensures var r := Enqueue(q, job);
            && r.0.running == q.running
            && r.0.ids == (if r.1 then q.ids + {job.id} else q.ids)
            && (r.1 ==> job.id !in q.ids)
  {
  }

  lemma {:induction false} CancelIds(q: Queue, keys: seq<string>, id: nat)
    requires forall k :: k in keys ==> k in q.sources && q.sources[k].outstanding > 0
    ensures var r := CancelIn(q, keys, id);
            r.running == q.running && q.ids - {id} <= r.ids <= q.ids
  {
    if keys != [] {
      var i := Find(q.sources[keys[0]].waiting, id);
      if i == |q.sources[keys[0]].waiting| {
        CancelIds(q, keys[1..], id);
      }
    }
  }

  lemma CompleteIds(q: Queue, worker: nat)
    requires Valid(q) && worker < |q.running| && q.running[worker].Busy?
    ensures var r := Complete(q, worker);
            r.1 && r.0.running == q.running[worker := Idle] && r.0.ids == q.ids - {q.running[worker].job.id}
  {
    FreeValid(q, worker);
  }

  /** The job of `id` waits and may stay: it is alive and in time. */
  ghost predicate Stays(q: Queue, id: nat, now: nat, alive: set<nat>) {
    exists key, i: nat :: WaitsAt(q, key, i, id) && Keep(q.sources[key].waiting[i], now, alive)
  }

  /** A request just accepted is there to stay. */
  lemma EnqueueStays(q: Queue, job: Job, now: nat, alive: set<nat>)
    requires Enqueue(q, job).1 && Keep(job, now, alive)
    ensures Stays(Enqueue(q, job).0, job.id, now, alive)
  {
    var r := Enqueue(q, job).0;
    var key := SourceKey(job.source);
    var last := |r.sources[key].waiting| - 1;
    assert WaitsAt(r, key, last, job.id);
  }

  /** Requests that are alive and no longer held have expired. */
  ghost predicate Missed(q: Queue, r: Queue, alive: set<nat>) {
    && r.ids <= q.ids && r.running == q.running && |q.fates| <= |r.fates|
    && (forall id :: id in q.ids && id !in r.ids && id in alive ==> exists job: Job :: job in ExpiredSince(r.fates, |q.fates|) && job.id == id)
  }

  lemma ExpiredSplit(fates: seq<Fate>, mid: nat, from: nat)
    requires from <= mid <= |fates|
    ensures ExpiredSince(fates, from) == ExpiredSince(fates[..mid], from) + ExpiredSince(fates, mid)
    decreases |fates|
  {
    if mid == |fates| {
      assert fates[..mid] == fates;
    } else {
      var init := fates[..|fates| - 1];
      ExpiredSplit(init, mid, from);
      assert init[..mid] == fates[..mid];
    }
  }

  ghost predicate Distinct(jobs: seq<Job>) {
    forall i, j :: 0 <= i < j < |jobs| ==> jobs[i].id != jobs[j].id
  }

  /** From `q` to `r` by dropping waiting jobs that may not stay. */
  ghost predicate Pruning(q: Queue, r: Queue, now: nat, alive: set<nat>) {
    && Missed(q, r, alive)
    && q.fates <= r.fates
    && (forall job :: job in ExpiredSince(r.fates, |q.fates|) ==> job.id in alive && job.id in q.ids && job.id !in r.ids)
    && Distinct(ExpiredSince(r.fates, |q.fates|))
    && (forall id :: Stays(q, id, now, alive) ==> Stays(r, id, now, alive))
  }

  lemma DistinctJoin(a: seq<Job>, b: seq<Job>)
    requires Distinct(a) && Distinct(b) && forall x, y :: x in a && y in b ==> x.id != y.id
    ensures Distinct(a + b)
  {
  }

  lemma PruningSelf(q: Queue, now: nat, alive: set<nat>)
    ensures Pruning(q, q, now, alive)
  {
    assert ExpiredSince(q.fates, |q.fates|) == [];
  }

  lemma PruningChain(q: Queue, r: Queue, s: Queue, now: nat, alive: set<nat>)
    requires Pruning(q, r, now, alive) && Pruning(r, s, now, alive)
    ensures Pruning(q, s, now, alive)
  {
    ExpiredSplit(s.fates, |r.fates|, |q.fates|);
    assert s.fates[..|r.fates|] == r.fates;
    hide ExpiredSince;
    hide Stays;
    var early, late := ExpiredSince(r.fates, |q.fates|), ExpiredSince(s.fates, |r.fates|);
    DistinctJoin(early, late);
    forall id | id in q.ids && id !in s.ids && id in alive
      ensures exists job: Job :: job in early + late && job.id == id
    {
      if id in r.ids {
        var job: Job :| job in late && job.id == id;
        assert job in early + late;
      } else {
        var job: Job :| job in early && job.id == id;
        assert job in early + late;
      }
    }
  }

  lemma DropPruning(q: Queue, key: string, i: nat, now: nat, alive: set<nat>)
    requires Valid(q) && i < |Waiting(q.sources, key)| && q.sources[key].outstanding > 0
    requires !Keep(q.sources[key].waiting[i], now, alive)
    ensures Pruning(q, Drop(q, key, i, q.sources[key].waiting[i].id in alive), now, alive)
  {
    var job := q.sources[key].waiting[i];
    var expire := job.id in alive;
    var r := Drop(q, key, i, expire);
    assert r.fates[..|q.fates|] == q.fates;
    assert ExpiredSince(q.fates, |q.fates|) == [];
    assert ExpiredSince(r.fates, |q.fates|) == if expire then [job] else [];
    assert WaitsAt(q, key, i, job.id);
    assert IsWaiting(q, job.id) && job.id in q.ids;
    assert Held(q, key);
    DropPositions(q, key, i, expire);
    forall id | Stays(q, id, now, alive)
      ensures Stays(r, id, now, alive)
    {
      var k, j: nat :| WaitsAt(q, k, j, id) && Keep(q.sources[k].waiting[j], now, alive);
      assert !(k == key && j == i);
      DropKeepsJob(q, key, i, expire, k, j);
    }
    if expire {
      assert job in ExpiredSince(r.fates, |q.fates|);
    }
  }

  /** A job other than the dropped one keeps its content. */
  lemma DropKeepsJob(q: Queue, key: string, i: nat, expire: bool, k: string, j: nat)
    requires i < |Waiting(q.sources, key)| && Held(q, key)
    requires k in q.sources && j < |q.sources[k].waiting| && !(k == key && j == i)
    ensures var r := Drop(q, key, i, expire);
            var at := if k == key && i < j then j - 1 else j;
            k in r.sources && at < |r.sources[k].waiting| && r.sources[k].waiting[at] == q.sources[k].waiting[j]
  {
    LoadPositive(q.running, key);
  }

  lemma {:induction false} PruneSourcePruning(q: Queue, key: string, i: nat, now: nat, alive: set<nat>)
    requires Valid(q) && i <= |Waiting(q.sources, key)|
    ensures Pruning(q, PruneSource(q, key, i, now, alive), now, alive)
    decreases |Waiting(q.sources, key)| - i
  {
    hide Pruning;
    hide Drop;
    PruningSelf(q, now, alive);
    if i < |Waiting(q.sources, key)| {
      var job := q.sources[key].waiting[i];
      if Keep(job, now, alive) {
        hide Valid;
        PruneSourcePruning(q, key, i + 1, now, alive);
      } else {
        assert Held(q, key);
        DropValid(q, key, i, job.id in alive);
        DropPruning(q, key, i, now, alive);
        var r := Drop(q, key, i, job.id in alive);
        DropShrinks(q, key, i, job.id in alive);
        hide Valid;
        PruneSourcePruning(r, key, i, now, alive);
        PruningChain(q, r, PruneSource(r, key, i, now, alive), now, alive);
      }
    }
  }

  lemma DropShrinks(q: Queue, key: string, i: nat, expire: bool)
    requires i < |Waiting(q.sources, key)| && Held(q, key)
    ensures |Waiting(Drop(q, key, i, expire).sources, key)| == |Waiting(q.sources, key)| - 1
  {
    LoadPositive(q.running, key);
  }

  lemma {:induction false} PruneKeysPruning(q: Queue, keys: seq<string>, now: nat, alive: set<nat>)
    requires Valid(q)
    ensures Pruning(q, PruneKeys(q, keys, now, alive), now, alive)
    decreases |keys|
  {
    hide Pruning;
    hide Valid;
    hide PruneSource;
    PruningSelf(q, now, alive);
    if keys != [] {
      var r := PruneSource(q, keys[0], 0, now, alive);
      PruneSourcePruning(q, keys[0], 0, now, alive);
      PruneKeysPruning(r, keys[1..], now, alive);
      PruningChain(q, r, PruneKeys(r, keys[1..], now, alive), now, alive);
    }
  }

  /** Pruning removes only requests that may not stay; those still alive are
      among the expired ones, whose callbacks run next. */
  lemma PruneIds(q: Queue, now: nat, alive: set<nat>)
    requires Valid(q)
    ensures Pruning(q, Prune(q, now, alive), now, alive)
  {
    hide Pruning;
    hide Valid;
    PruneKeysPruning(q, SortedKeys(q.sources.Keys), now, alive);
  }

  lemma {:induction false} ScanIds(q: Queue, l: Limits, worker: nat, round: seq<string>, now: nat)
    requires worker < |q.running| && q.running[worker].Idle?
    requires forall k :: k in round ==> k in q.sources
    ensures var r := Scan(q, l, worker, round, now).queue;
            && r.ids == q.ids && |r.running| == |q.running|
            && (forall w :: 0 <= w < |q.running| && w != worker ==> r.running[w] == q.running[w])
    decreases |round|
  {
    hide Ask;
    if round != [] {
      var key := round[0];
      if !Ready(q.sources[key], now) {
        ScanIds(q, l, worker, round[1..], now);
      } else {
        var (l', delay) := Ask(l, q.sources[key].waiting[0].source, now);
        if delay > 0 {
          ScanIds(Refuse(q, key, now + delay), l', worker, round[1..], now);
        }
      }
    }
  }

  /** Scheduling starts requests on idle workers and forgets none. */
  lemma {:induction false} ScheduleIds(q: Queue, l: Limits, worker: nat, now: nat)
    requires worker <= |q.running|
    ensures var r := Schedule(q, l, worker, now).0;
            && r.ids == q.ids && |r.running| == |q.running|
            && (forall w :: 0 <= w < |q.running| && q.running[w].Busy? ==> r.running[w] == q.running[w])
    decreases |q.running| - worker
  {
    hide Scan;
    hide RoundFrom;
    if worker < |q.running| {
      if q.running[worker].Busy? {
        ScheduleIds(q, l, worker + 1, now);
      } else {
        var s := Decide(q, l, worker, now);
        RoundKnown(q);
        var round := RoundFrom(SortedKeys(q.sources.Keys), q.lastSource);
        ScanIds(q, l, worker, round, now);
        ScanShape(q, l, worker, round, now);
        ScheduleIds(s.queue, s.limits, worker + 1, now);
      }
    }
  }

  lemma RoundKnown(q: Queue)
    ensures forall k :: k in RoundFrom(SortedKeys(q.sources.Keys), q.lastSource) ==> k in q.sources
  {
    hide UpperBound;
  }

  // ------------------------------------------------------------- counting what waits

  ghost function RunIds(running: seq<Slot>): set<nat> {
    set w | 0 <= w < |running| && running[w].Busy? :: running[w].job.id
  }

  lemma {:induction false} RunIdsCount(running: seq<Slot>)
    requires forall w, v :: 0 <= w < v < |running| && running[w].Busy? && running[v].Busy? ==> running[w].job.id != running[v].job.id
    ensures |RunIds(running)| == Active(running)
  {
    if running == [] {
      assert RunIds(running) == {};
    } else {
      var first, rest := running[0], running[1..];
      RunIdsCount(rest);
      assert forall w :: 0 <= w < |rest| ==> rest[w] == running[w + 1];
      if first.Busy? {
        assert first.job.id !in RunIds(rest);
        assert RunIds(running) == RunIds(rest) + {first.job.id};
      } else {
        assert RunIds(running) == RunIds(rest);
      }
    }
  }

  ghost function WaitIds(q: Queue): set<nat> {
    set id | id in q.ids && IsWaiting(q, id)
  }

  /** The ids that no worker runs are exactly those waiting. */
  lemma WaitingCounts(q: Queue)
    requires Valid(q)
    ensures |WaitIds(q)| == |q.ids| - Active(q.running)
  {
    forall w, v | 0 <= w < v < |q.running| && q.running[w].Busy? && q.running[v].Busy?
      ensures q.running[w].job.id != q.running[v].job.id
    {
      assert RunsAt(q, w, q.running[w].job.id) && RunsAt(q, v, q.running[v].job.id);
    }
    RunIdsCount(q.running);
    forall id
      ensures id in RunIds(q.running) <==> IsRunning(q, id)
    {
      if id in RunIds(q.running) {
        var w :| 0 <= w < |q.running| && q.running[w].Busy? && q.running[w].job.id == id;
        assert RunsAt(q, w, id);
      }
      if IsRunning(q, id) {
        var w: nat :| RunsAt(q, w, id);
      }
    }
    assert q.ids == WaitIds(q) + RunIds(q.running) && WaitIds(q) !! RunIds(q.running) by {
      hide RunIds;
      hide IsWaiting;
      hide IsRunning;
      hide Held;
    }
  }

  // ------------------------------------------------------------- what callers get

  /** A request is accepted exactly when fewer requests than the capacity wait or
      run, none of them has its id, and fewer than its source's share are of its
      source; each refusal raises its own counter, and an accepted request waits
      last in its source. */
  lemma EnqueueIff(q: Queue, job: Job)
    requires Valid(q)
    ensures var (r, ok) := Enqueue(q, job);
            var source := SourceKey(job.source);
            var held := |WaitIds(q)| + Active(q.running);
            var share := |Waiting(q.sources, source)| + Load(q.running, source);
            var known := IsWaiting(q, job.id) || IsRunning(q, job.id);
            && (ok <==> held < q.capacity && !known && share < q.sourceCapacity)
            && r.stats.full == q.stats.full + (if held >= q.capacity then 1 else 0)
            && r.stats.sourceFull == q.stats.sourceFull
                                     + (if held < q.capacity && !known && share >= q.sourceCapacity then 1 else 0)
            && (!ok ==> r == q.(stats := r.stats))
            && (forall k :: Waiting(r.sources, k)
                            == Waiting(q.sources, k) + if ok && k == source then [job.(source := source)] else [])
  {
    WaitingCounts(q);
    ValidHeld(q, SourceKey(job.source));
    if SourceKey(job.source) !in q.sources {
      NoLoad(q, SourceKey(job.source));
    }
    IdKnown(q, job.id);
    hide WaitIds;
    hide Load;
    hide Active;
    hide Valid;
    hide Partition;
    hide IsWaiting;
    hide IsRunning;
    assert forall w: seq<Job> :: w + [] == w;
  }

  lemma IdKnown(q: Queue, id: nat)
    requires Valid(q)
    ensures id in q.ids <==> IsWaiting(q, id) || IsRunning(q, id)
  {
    hide Held;
    hide IsWaiting;
    hide IsRunning;
  }

  function Sans(jobs: seq<Job>, id: nat): seq<Job> {
    if jobs == [] then [] else (if jobs[0].id == id then [] else [jobs[0]]) + Sans(jobs[1..], id)
  }

  lemma {:induction false} SansNone(jobs: seq<Job>, id: nat)
    requires forall j :: 0 <= j < |jobs| ==> jobs[j].id != id
    ensures Sans(jobs, id) == jobs
  {
    if jobs != [] {
      SansNone(jobs[1..], id);
    }
  }

  lemma {:induction false} SansOne(jobs: seq<Job>, i: nat, id: nat)
    requires i < |jobs| && forall j :: 0 <= j < |jobs| ==> (jobs[j].id == id <==> j == i)
    ensures Sans(jobs, id) == jobs[..i] + jobs[i + 1..]
  {
    if i == 0 {
      SansNone(jobs[1..], id);
    } else {
      SansOne(jobs[1..], i - 1, id);
      assert jobs[..i] == [jobs[0]] + jobs[1..][..i - 1];
      assert jobs[1..][i..] == jobs[i + 1..];
    }
  }

  lemma {:induction false} CancelFinds(q: Queue, keys: seq<string>, id: nat)
    requires forall k :: k in keys ==> k in q.sources && q.sources[k].outstanding > 0
    ensures var r := CancelIn(q, keys, id);
            || (exists key, i: nat :: key in keys && WaitsAt(q, key, i, id) && q.sources[key].outstanding > 0 && r == Drop(q, key, i, false))
            || (r == q && forall key, i: nat :: key in keys ==> !WaitsAt(q, key, i, id))
  {
    hide Drop;
    if keys != [] {
      var i := Find(q.sources[keys[0]].waiting, id);
      if i < |q.sources[keys[0]].waiting| {
        assert keys[0] in keys && WaitsAt(q, keys[0], i, id);
      } else {
        CancelFinds(q, keys[1..], id);
        assert forall key :: key in keys <==> key == keys[0] || key in keys[1..];
      }
    }
  }

  /** From `q` to `r` the waiting request of `id` is canceled, and nothing else. */
  ghost predicate Canceling(q: Queue, r: Queue, id: nat) {
    && r.ids == q.ids - {id} && r.running == q.running && r.stats == q.stats.(canceled := q.stats.canceled + 1)
    && (forall k :: Waiting(r.sources, k) == Sans(Waiting(q.sources, k), id))
    && (exists job: Job :: job.id == id && r.fates == q.fates + [Canceled(job)])
  }

  lemma DropCancels(q: Queue, key: string, i: nat, id: nat)
    requires Valid(q) && WaitsAt(q, key, i, id) && q.sources[key].outstanding > 0
    ensures Canceling(q, Drop(q, key, i, false), id)
  {
    ValidHeld(q, key);
    LoadPositive(q.running, key);
    var r := Drop(q, key, i, false);
    var job := q.sources[key].waiting[i];
    assert job.id == id && r.fates == q.fates + [Canceled(job)];
    forall k
      ensures Waiting(r.sources, k) == Sans(Waiting(q.sources, k), id)
    {
      var w := Waiting(q.sources, k);
      forall j: nat | j < |w|
        ensures w[j].id == id <==> k == key && j == i
      {
        assert WaitsAt(q, k, j, w[j].id);
      }
      if k == key {
        SansOne(w, i, id);
      } else {
        SansNone(w, id);
      }
    }
  }

  /** Canceling takes exactly the waiting request of that id, if there is one; a
      running one is left alone. */
  lemma CancelExactly(q: Queue, id: nat)
    requires Valid(q)
    ensures if IsWaiting(q, id) then Canceling(q, Cancel(q, id), id) else Cancel(q, id) == q
  {
    ValidOutstanding(q);
    var keys := SortedKeys(q.sources.Keys);
    CancelFinds(q, keys, id);
    hide SortedKeys;
    hide CancelIn;
    if IsWaiting(q, id) {
      var key, i: nat :| WaitsAt(q, key, i, id);
      assert key in keys;
      hide Valid;
      var k, j: nat :| k in keys && WaitsAt(q, k, j, id) && q.sources[k].outstanding > 0 && CancelIn(q, keys, id) == Drop(q, k, j, false);
      DropCancels(q, k, j, id);
      hide Drop;
    } else {
      assert forall key, i: nat :: !WaitsAt(q, key, i, id);
    }
    hide Canceling;
  }
}
