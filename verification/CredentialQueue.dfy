/** `CredentialQueue` itself: the loops over the ordered source table, each
    proved to compute the corresponding function of `QueueSpec`. */
module CredentialQueues {
  import opened Ordering
  import opened WorkLimiting
  import S = QueueSpec
  import H = QueueHistory
  import I = QueueIds

  class CredentialQueue {
    const capacity: nat
    const sourceCapacity: nat
    var sources: map<string, S.Source>
    var ids: set<nat>
    var running: seq<S.Slot>
    var lastSource: string
    var stats: S.Stats
    var pumping: bool
    ghost var fates: seq<S.Fate>
    ghost var decisions: seq<S.Decision>

    ghost function State(): S.Queue
      reads this
    {
      S.Queue(capacity, sourceCapacity, sources, ids, running, lastSource, stats, fates, decisions)
    }

    ghost predicate Valid()
      reads this
    {
      S.Valid(State())
    }

    constructor (workers: nat, capacity: nat, sourceCapacity: nat)
      requires 0 < workers && 0 < capacity && 0 < sourceCapacity
      ensures State() == S.NewQueue(workers, capacity, sourceCapacity) && !pumping
      ensures Valid()
    {
      this.capacity := capacity;
      this.sourceCapacity := sourceCapacity;
      sources := map[];
      ids := {};
      running := seq(workers, _ => S.Idle);
      lastSource := "";
      stats := S.NO_STATS;
      pumping := false;
      fates := [];
      decisions := [];
      new;
      H.NewQueueSane(workers, capacity, sourceCapacity, 1);
    }

    method Enqueue(asked: S.Job) returns (accepted: bool)
      requires Valid()
      modifies this
      ensures (State(), accepted) == S.Enqueue(old(State()), asked)
      ensures Valid() && pumping == old(pumping)
    {
      S.EnqueueValid(State(), asked);
      hide S.Valid;
      if |ids| >= capacity {
        stats := stats.(full := stats.full + 1);
        return false;
      }
      if asked.id in ids {
        return false;
      }
      var job := asked.(source := SourceKey(asked.source));
      if job.source in sources && sources[job.source].outstanding >= sourceCapacity {
        stats := stats.(sourceFull := stats.sourceFull + 1);
        return false;
      }
      Append(job);
      accepted := true;
    }

    method Append(job: S.Job)
      modifies this
      ensures State() == S.Accept(old(State()), job)
      ensures pumping == old(pumping)
    {
      ids := ids + {job.id};
      if job.source !in sources {
        sources := sources[job.source := S.Source([], 0, 0)];
      }
      var source := sources[job.source];
      sources := sources[job.source := source.(waiting := source.waiting + [job], outstanding := source.outstanding + 1)];
      stats := stats.(accepted := stats.accepted + 1);
      fates := fates + [S.Accepted(job)];
    }

    /** Position of the first waiting job with this id. */
    static method IndexOf(waiting: seq<S.Job>, id: nat) returns (i: nat)
      ensures i == S.Find(waiting, id)
    {
      i := 0;
      while i < |waiting| && waiting[i].id != id
        invariant i <= |waiting|
        invariant S.Find(waiting, id) == i + S.Find(waiting[i..], id)
      {
        i := i + 1;
      }
    }

    method Cancel(id: nat)
      requires Valid()
      modifies this
      ensures State() == S.Cancel(old(State()), id)
      ensures Valid() && pumping == old(pumping)
    {
      hide S.Valid;
      hide S.Drop;
      hide SortedKeys;
      H.ValidOutstanding(State());
      var keys := SortedKeys(sources.Keys);
      S.CancelValid(State(), keys, id);
      ghost var q := State();
      var k := 0;
      while k < |keys|
        invariant k <= |keys| && State() == q && pumping == old(pumping)
        invariant S.CancelIn(q, keys[k..], id) == S.CancelIn(q, keys, id)
      {
        assert keys[k..][0] == keys[k] && keys[k..][1..] == keys[k + 1..];
        var key := keys[k];
        var i := IndexOf(sources[key].waiting, id);
        if i < |sources[key].waiting| {
          assert Tidy(q, key) == q;
          DropTidy(q, key, i, false);
          var _ := Take(key, i, false);
          if sources[key].outstanding == 0 {
            sources := sources - {key};
          }
          return;
        }
        k := k + 1;
      }
    }

    /** A second completion of a worker is a logic error and changes nothing. */
    method Complete(worker: nat) returns (ok: bool)
      requires Valid()
      modifies this
      ensures (State(), ok) == S.Complete(old(State()), worker)
      ensures Valid() && pumping == old(pumping)
    {
      if worker >= |running| || running[worker].Idle? {
        return false;
      }
      S.FreeValid(State(), worker);
      hide S.Valid;
      hide S.Held;
      var job := running[worker].job;
      ids := ids - {job.id};
      var source := sources[job.source];
      source := source.(outstanding := source.outstanding - 1);
      sources := if source.outstanding == 0 then sources - {job.source} else sources[job.source := source];
      running := running[worker := S.Idle];
      stats := stats.(completed := stats.completed + 1);
      ok := true;
    }

    /** The queue with an emptied source removed. */
    static ghost function Tidy(q: S.Queue, key: string): S.Queue {
      if key in q.sources && q.sources[key].outstanding == 0 then q.(sources := q.sources - {key}) else q
    }

    /** Takes waiting job `i` of `key` out; the source itself may stay empty. */
    method Take(key: string, i: nat, late: bool) returns (job: S.Job)
      requires key in sources && i < |sources[key].waiting| && sources[key].outstanding > 0
      requires sources[key].outstanding == 1 ==> |sources[key].waiting| == 1
      modifies this
      ensures job == old(sources)[key].waiting[i]
      ensures key in sources && sources[key].waiting == old(sources)[key].waiting[..i] + old(sources)[key].waiting[i + 1..]
      ensures sources[key].outstanding == 0 ==> sources[key].waiting == []
      ensures Tidy(State(), key) == S.Drop(old(State()), key, i, late)
      ensures fates == old(fates) + [if late then S.Expired(job) else S.Canceled(job)]
      ensures pumping == old(pumping)
    {
      var source := sources[key];
      job := source.waiting[i];
      if late {
        stats := stats.(expired := stats.expired + 1);
        fates := fates + [S.Expired(job)];
      } else {
        stats := stats.(canceled := stats.canceled + 1);
        fates := fates + [S.Canceled(job)];
      }
      ids := ids - {job.id};
      sources := sources[key := source.(waiting := source.waiting[..i] + source.waiting[i + 1..],
                                        outstanding := source.outstanding - 1)];
      assert sources - {key} == old(sources) - {key};
    }

    static lemma ExpiredOne(fates: seq<S.Fate>, mark: nat, f: S.Fate)
      requires mark <= |fates|
      ensures H.ExpiredSince(fates + [f], mark) == H.ExpiredSince(fates, mark) + if f.Expired? then [f.job] else []
    {
      assert (fates + [f])[..|fates|] == fates;
    }

    method PruneJobs(key: string, now: nat, alive: set<nat>, before: seq<S.Job>, ghost mark: nat)
      returns (expired: seq<S.Job>)
      requires Valid() && key in sources
      requires mark <= |fates| && before == H.ExpiredSince(fates, mark)
      modifies this
      ensures State() == S.PruneSource(old(State()), key, 0, now, alive)
      ensures Valid() && pumping == old(pumping)
      ensures mark <= |fates| && expired == H.ExpiredSince(fates, mark)
    {
      hide S.Valid;
      hide S.Drop;
      hide H.ExpiredSince;
      expired := before;
      var i := 0;
      assert Tidy(State(), key) == State() by {
        H.ValidOutstanding(State());
      }
      while i < |sources[key].waiting|
        invariant key in sources && i <= |sources[key].waiting|
        invariant sources[key].outstanding == 0 ==> sources[key].waiting == []
        invariant S.Valid(Tidy(State(), key))
        invariant S.PruneSource(Tidy(State(), key), key, i, now, alive) == S.PruneSource(old(State()), key, 0, now, alive)
        invariant pumping == old(pumping)
        invariant mark <= |fates| && expired == H.ExpiredSince(fates, mark)
        decreases |sources[key].waiting| - i
      {
        var job := sources[key].waiting[i];
        DropTidy(State(), key, i, job.id in alive);
        if job.id in alive && now < job.deadline {
          i := i + 1;
        } else {
          ExpiredOne(fates, mark, if job.id in alive then S.Expired(job) else S.Canceled(job));
          job := Take(key, i, job.id in alive);
          if job.id in alive {
            expired := expired + [job];
          }
        }
      }
      if sources[key].outstanding == 0 {
        sources := sources - {key};
      }
    }

    static lemma DropTidy(q: S.Queue, key: string, i: nat, expire: bool)
      requires S.Valid(Tidy(q, key)) && key in q.sources && i < |q.sources[key].waiting|
      requires q.sources[key].outstanding == 0 ==> q.sources[key].waiting == []
      ensures Tidy(q, key) == q && S.Held(q, key) && q.sources[key].outstanding > 0
      ensures S.Valid(S.Drop(q, key, i, expire))
      ensures q.sources[key].outstanding == 1 ==> |q.sources[key].waiting| == 1
    {
      assert S.Held(q, key);
      S.DropValid(q, key, i, expire);
    }

    /** Removes dead and late jobs everywhere; returns the late ones in order. */
    method Prune(now: nat, alive: set<nat>) returns (expired: seq<S.Job>)
      requires Valid()
      modifies this
      ensures State() == S.Prune(old(State()), now, alive)
      ensures Valid() && pumping == old(pumping)
      ensures |old(fates)| <= |fates| && expired == H.ExpiredSince(fates, |old(fates)|)
    {
      hide S.Valid;
      hide S.PruneSource;
      hide SortedKeys;
      hide Less;
      var keys := SortedKeys(sources.Keys);
      KeysDistinct(sources.Keys);
      expired := [];
      var k := 0;
      assert keys[k..] == keys;
      while k < |keys|
        invariant k <= |keys| && S.Valid(State()) && pumping == old(pumping)
        invariant forall j :: k <= j < |keys| ==> keys[j] in sources
        invariant S.PruneKeys(State(), keys[k..], now, alive) == S.Prune(old(State()), now, alive)
        invariant |old(fates)| <= |fates| && expired == H.ExpiredSince(fates, |old(fates)|)
      {
        assert keys[k..][0] == keys[k] && keys[k..][1..] == keys[k + 1..];
        expired := PruneJobs(keys[k], now, alive, expired, |old(fates)|);
        k := k + 1;
      }
      assert keys[k..] == [];
    }

    static lemma KeysDistinct(keys: set<string>)
      ensures forall i, j :: 0 <= i < j < |SortedKeys(keys)| ==> SortedKeys(keys)[i] != SortedKeys(keys)[j]
    {
      var r := SortedKeys(keys);
      forall i, j | 0 <= i < j < |r|
        ensures r[i] != r[j]
      {
        LessAsymmetric(r[i], r[j]);
      }
    }

    /** Asks for one source's next job; false when it has none, waits, or is refused. */
    method Offer(worker: nat, key: string, now: nat, limiter: CredentialWorkLimiter, ghost rest: seq<string>)
      returns (served: bool)
      requires worker < |running| && key in sources && forall k :: k in rest ==> k in sources
      modifies this, limiter
      ensures pumping == old(pumping) && decisions == old(decisions)
      ensures |running| == |old(running)| && sources.Keys == old(sources).Keys
      ensures S.Scan(old(State()), old(limiter.State()), worker, [key] + rest, now)
              == if served then S.Scanned(State(), limiter.State(), Some(key))
                 else S.Scan(State(), limiter.State(), worker, rest, now)
    {
      hide Ask;
      assert ([key] + rest)[1..] == rest;
      var source := sources[key];
      if source.waiting == [] || now < source.notBefore {
        return false;
      }
      var job := source.waiting[0];
      var delay := limiter.Admit(job.source, now);
      if delay > 0 {
        sources := sources[key := source.(notBefore := now + delay)];
        stats := stats.(sourceWaits := stats.sourceWaits + 1);
        return false;
      }
      sources := sources[key := source.(waiting := source.waiting[1..])];
      lastSource := key;
      running := running[worker := S.Busy(job)];
      stats := stats.(started := stats.started + 1);
      fates := fates + [S.Started(job, worker, now)];
      served := true;
    }

    /** Position of the first key after the source served last. */
    method Turn(keys: seq<string>) returns (at: nat)
      ensures at == S.UpperBound(keys, lastSource)
    {
      at := 0;
      while at < |keys| && !Less(lastSource, keys[at])
        invariant at <= |keys|
        invariant S.UpperBound(keys, lastSource) == at + S.UpperBound(keys[at..], lastSource)
      {
        at := at + 1;
      }
    }

    static lemma RoundTurns(keys: seq<string>, last: string, attempt: nat, at: nat)
      requires forall i, j :: 0 <= i < j < |keys| ==> Less(keys[i], keys[j])
      requires attempt < |keys| && at < |keys|
      requires var p := S.UpperBound(keys, last);
               at == if p + attempt < |keys| then p + attempt else p + attempt - |keys|
      ensures var round := S.RoundFrom(keys, last);
              |round| == |keys| && round[attempt..] == [keys[at]] + round[attempt + 1..]
    {
      hide Less;
      hide S.UpperBound;
    }

    /** One turn of the round for one idle worker. */
    method Round(worker: nat, keys: seq<string>, now: nat, limiter: CredentialWorkLimiter)
      returns (ghost pick: Option<string>)
      requires worker < |running| && forall k :: k in keys ==> k in sources
      requires forall i, j :: 0 <= i < j < |keys| ==> Less(keys[i], keys[j])
      modifies this, limiter
      ensures S.Scan(old(State()), old(limiter.State()), worker, S.RoundFrom(keys, old(lastSource)), now)
              == S.Scanned(State(), limiter.State(), pick)
      ensures pumping == old(pumping) && decisions == old(decisions)
    {
      hide Ask;
      hide S.Scan;
      hide S.UpperBound;
      hide S.RoundFrom;
      hide Less;
      H.RoundKeys(keys, lastSource);
      ghost var last := lastSource;
      ghost var round := S.RoundFrom(keys, lastSource);
      ghost var scanned := S.Scan(State(), limiter.State(), worker, round, now);
      var at := Turn(keys);
      ghost var p := at;
      var attempt := 0;
      while attempt < |keys|
        invariant attempt <= |keys| && pumping == old(pumping) && decisions == old(decisions)
        invariant at == if attempt <= |keys| - p then p + attempt else p + attempt - |keys|
        invariant sources.Keys == old(sources).Keys && |running| == |old(running)|
        invariant S.Scan(State(), limiter.State(), worker, round[attempt..], now) == scanned
      {
        if at == |keys| {
          at := 0;
        }
        RoundTurns(keys, last, attempt, at);
        var served := Offer(worker, keys[at], now, limiter, round[attempt + 1..]);
        if served {
          pick := Some(keys[at]);
          return;
        }
        at := at + 1;
        attempt := attempt + 1;
      }
      assert round[attempt..] == [];
      ScanNone(State(), limiter.State(), worker, now);
      pick := None;
    }

    /** Offers one idle worker to the sources in turn, from the one after the
        source served last. */
    method Serve(worker: nat, now: nat, limiter: CredentialWorkLimiter)
      requires Valid() && worker < |running| && running[worker].Idle?
      modifies this, limiter
      ensures var d := S.Decide(old(State()), old(limiter.State()), worker, now);
              State() == d.queue && limiter.State() == d.limits
      ensures Valid() && pumping == old(pumping)
    {
      hide S.Valid;
      hide S.Scan;
      hide S.RoundFrom;
      hide SortedKeys;
      S.DecideValid(State(), limiter.State(), worker, now);
      ghost var d := S.Decide(State(), limiter.State(), worker, now);
      var keys := SortedKeys(sources.Keys);
      ghost var pick := Round(worker, keys, now, limiter);
      decisions := d.queue.decisions;
    }

    static lemma ScanNone(q: S.Queue, l: Limits, worker: nat, now: nat)
      requires worker < |q.running|
      ensures S.Scan(q, l, worker, [], now) == S.Scanned(q, l, None)
    {
    }

    /** Gives work to every idle worker it can. */
    method Schedule(now: nat, limiter: CredentialWorkLimiter)
      requires Valid()
      modifies this, limiter
      ensures (State(), limiter.State()) == S.Schedule(old(State()), old(limiter.State()), 0, now)
      ensures Valid() && pumping == old(pumping)
    {
      hide S.Valid;
      hide S.Decide;
      var worker := 0;
      ghost var q0, l0 := State(), limiter.State();
      while worker < |running|
        invariant worker <= |running| == |q0.running| && S.Valid(State()) && pumping == old(pumping)
        invariant S.Schedule(State(), limiter.State(), worker, now) == S.Schedule(q0, l0, 0, now)
      {
        if running[worker].Idle? {
          S.DecideValid(State(), limiter.State(), worker, now);
          Serve(worker, now, limiter);
        }
        worker := worker + 1;
      }
    }

    /** Prune, let the expiry callbacks enqueue what they ask for, schedule. A
        call from inside a callback returns at once. */
    method Pump(now: nat, alive: set<nat>, asks: map<nat, seq<S.Job>>, limiter: CredentialWorkLimiter)
      requires Valid()
      modifies this, limiter
      ensures Valid() && pumping == old(pumping)
      ensures (State(), limiter.State())
              == if pumping then (old(State()), old(limiter.State()))
                 else H.Pump(old(State()), old(limiter.State()), now, alive, asks)
    {
      hide S.Valid;
      hide S.Schedule;
      hide S.Prune;
      if pumping {
        return;
      }
      pumping := true;
      var expired := Prune(now, alive);
      RunCallbacks(expired, asks);
      Schedule(now, limiter);
      pumping := false;
    }

    method RunCallbacks(expired: seq<S.Job>, asks: map<nat, seq<S.Job>>)
      requires Valid()
      modifies this
      ensures Valid() && pumping == old(pumping)
      ensures State() == H.EnqueueAll(old(State()), H.Callbacks(expired, asks))
    {
      hide S.Valid;
      hide S.Enqueue;
      var k := 0;
      while k < |expired|
        invariant k <= |expired| && S.Valid(State()) && pumping == old(pumping)
        invariant H.EnqueueAll(State(), H.Callbacks(expired[k..], asks)) == H.EnqueueAll(old(State()), H.Callbacks(expired, asks))
      {
        assert expired[k..][0] == expired[k] && expired[k..][1..] == expired[k + 1..];
        ghost var later := H.Callbacks(expired[k + 1..], asks);
        if expired[k].id in asks {
          Callback(asks[expired[k].id], later);
        } else {
          assert [] + later == later;
        }
        k := k + 1;
      }
    }

    method Callback(jobs: seq<S.Job>, ghost later: seq<S.Job>)
      requires Valid()
      modifies this
      ensures Valid() && pumping == old(pumping)
      ensures State() == H.EnqueueAll(old(State()), jobs)
      ensures H.EnqueueAll(State(), later) == H.EnqueueAll(old(State()), jobs + later)
    {
      hide S.Valid;
      hide S.Enqueue;
      var i := 0;
      while i < |jobs|
        invariant i <= |jobs| && S.Valid(State()) && pumping == old(pumping)
        invariant H.EnqueueAll(State(), jobs[i..]) == H.EnqueueAll(old(State()), jobs)
        invariant H.EnqueueAll(State(), jobs[i..] + later) == H.EnqueueAll(old(State()), jobs + later)
      {
        assert (jobs[i..] + later)[1..] == jobs[i + 1..] + later;
        var _ := Enqueue(jobs[i]);
        i := i + 1;
      }
      assert jobs[i..] + later == later;
    }

    /** What waits, counted as the ids that no worker runs. */
    method Waiting() returns (n: nat)
      requires Valid()
      ensures n == |I.WaitIds(State())|
    {
      hide S.Valid;
      I.WaitingCounts(State());
      var active := Active();
      n := |ids| - active;
    }

    method Active() returns (n: nat)
      ensures n == S.Active(running)
    {
      n := 0;
      var w := |running|;
      while w > 0
        invariant 0 <= w <= |running| && n == S.Active(running[w..])
      {
        w := w - 1;
        assert running[w..][1..] == running[w + 1..];
        if running[w].Busy? {
          n := n + 1;
        }
      }
    }
  }
}
