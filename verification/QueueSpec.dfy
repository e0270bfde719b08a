/** The scheduler state of `CredentialQueue` and its operations as functions.

    The `fates` and `decisions` fields are history: they record what happened
    to each job and what each scheduling decision chose, and no operation
    reads them. */
module QueueSpec {
  import opened Ordering
  import opened WorkLimiting

  /** `id` names the connection; the callbacks of the source's jobs are the
      limiter call for `source`, the worker start and the expiry reply. */
  datatype Job = Job(id: nat, source: string, deadline: nat)

  datatype Source = Source(waiting: seq<Job>, outstanding: nat, notBefore: nat)

  datatype Slot = Idle | Busy(job: Job)

  datatype Stats = Stats(accepted: nat, started: nat, completed: nat, canceled: nat,
                         full: nat, sourceFull: nat, expired: nat, sourceWaits: nat)

  datatype Fate =
    | Accepted(job: Job)
    | Started(job: Job, worker: nat, at: nat)
    | Expired(job: Job)
    | Canceled(job: Job)

  /** One scheduling decision: `open` are the sources it could have served. */
  datatype Decision = Decision(last: string, open: set<string>, pick: Option<string>)

  datatype Queue = Queue(
    capacity: nat,
    sourceCapacity: nat,
    sources: map<string, Source>,
    ids: set<nat>,
    running: seq<Slot>,
    lastSource: string,
    stats: Stats,
    fates: seq<Fate>,
    decisions: seq<Decision>)

  const NO_STATS := Stats(0, 0, 0, 0, 0, 0, 0, 0)

  ghost function NewQueue(workers: nat, capacity: nat, sourceCapacity: nat): Queue {
    Queue(capacity, sourceCapacity, map[], {}, seq(workers, _ => Idle), "", NO_STATS, [], [])
  }

  function Waiting(sources: map<string, Source>, key: string): seq<Job> {
    if key in sources then sources[key].waiting else []
  }

  function Put(sources: map<string, Source>, key: string, s: Source): map<string, Source> {
    if s.outstanding == 0 then sources - {key} else sources[key := s]
  }

  // ------------------------------------------------------ elementary changes

  ghost function Accept(q: Queue, job: Job): Queue {
    var s := if job.source in q.sources then q.sources[job.source] else Source([], 0, 0);
    q.(sources := q.sources[job.source := s.(waiting := s.waiting + [job],
                                               outstanding := s.outstanding + 1)],
       ids := q.ids + {job.id},
       stats := q.stats.(accepted := q.stats.accepted + 1),
       fates := q.fates + [Accepted(job)])
  }

  /** Waiting job `i` of `key` leaves the queue unserved. */
  ghost function Drop(q: Queue, key: string, i: nat, expire: bool): Queue
    requires i < |Waiting(q.sources, key)| && q.sources[key].outstanding > 0
  {
    var s := q.sources[key];
    var job := s.waiting[i];
    q.(sources := Put(q.sources, key, s.(waiting := s.waiting[..i] + s.waiting[i + 1..],
                                         outstanding := s.outstanding - 1)),
       ids := q.ids - {job.id},
       stats := if expire then q.stats.(expired := q.stats.expired + 1)
                else q.stats.(canceled := q.stats.canceled + 1),
       fates := q.fates + [if expire then Expired(job) else Canceled(job)])
  }

  ghost function Free(q: Queue, worker: nat): Queue
    requires worker < |q.running| && q.running[worker].Busy?
    requires q.running[worker].job.source in q.sources
    requires q.sources[q.running[worker].job.source].outstanding > 0
  {
    var job := q.running[worker].job;
    var s := q.sources[job.source];
    q.(sources := Put(q.sources, job.source, s.(outstanding := s.outstanding - 1)),
       ids := q.ids - {job.id},
       running := q.running[worker := Idle],
       stats := q.stats.(completed := q.stats.completed + 1))
  }

  ghost function Refuse(q: Queue, key: string, until: nat): Queue
    requires key in q.sources
  {
    q.(sources := q.sources[key := q.sources[key].(notBefore := until)],
       stats := q.stats.(sourceWaits := q.stats.sourceWaits + 1))
  }

  ghost function Start(q: Queue, worker: nat, key: string, now: nat): Queue
    requires worker < |q.running| && |Waiting(q.sources, key)| > 0
  {
    var s := q.sources[key];
    var job := s.waiting[0];
    q.(sources := q.sources[key := s.(waiting := s.waiting[1..])],
       running := q.running[worker := Busy(job)],
       lastSource := key,
       stats := q.stats.(started := q.stats.started + 1),
       fates := q.fates + [Started(job, worker, now)])
  }

  // ------------------------------------------------------------- operations

  ghost function Enqueue(q: Queue, asked: Job): (Queue, bool) {
    var job := asked.(source := SourceKey(asked.source));
    if |q.ids| >= q.capacity then
      (q.(stats := q.stats.(full := q.stats.full + 1)), false)
    else if job.id in q.ids then (q, false)
    else if job.source in q.sources && q.sources[job.source].outstanding >= q.sourceCapacity then
      (q.(stats := q.stats.(sourceFull := q.stats.sourceFull + 1)), false)
    else (Accept(q, job), true)
  }

  /** Position of the first waiting job with this id, or the length. */
  ghost function Find(waiting: seq<Job>, id: nat): (i: nat)
    ensures i <= |waiting|
    ensures i < |waiting| ==> waiting[i].id == id
    ensures forall j :: 0 <= j < i ==> waiting[j].id != id
  {
    if waiting == [] || waiting[0].id == id then 0 else 1 + Find(waiting[1..], id)
  }

  ghost function CancelIn(q: Queue, keys: seq<string>, id: nat): Queue
    requires forall k :: k in keys ==> k in q.sources && q.sources[k].outstanding > 0
  {
    if keys == [] then q
    else
      var i := Find(q.sources[keys[0]].waiting, id);
      if i < |q.sources[keys[0]].waiting| then Drop(q, keys[0], i, false)
      else CancelIn(q, keys[1..], id)
  }

  ghost function Cancel(q: Queue, id: nat): Queue
    requires Valid(q)
  {
    CancelIn(q, SortedKeys(q.sources.Keys), id)
  }

  /** Completing an idle or unknown worker is a logic error and changes nothing. */
  ghost function Complete(q: Queue, worker: nat): (Queue, bool)
    requires Valid(q)
  {
    if worker < |q.running| && q.running[worker].Busy? then
      assert Held(q, q.running[worker].job.source);
      (Free(q, worker), true)
    else (q, false)
  }

  predicate Keep(job: Job, now: nat, alive: set<nat>) {
    job.id in alive && now < job.deadline
  }

  /** Removes the jobs of one source, from position `i` on, that are dead or late. */
  ghost function PruneSource(q: Queue, key: string, i: nat, now: nat, alive: set<nat>): Queue
    requires i <= |Waiting(q.sources, key)|
    requires Valid(q)
    ensures Valid(PruneSource(q, key, i, now, alive))
    ensures PruneSource(q, key, i, now, alive).sources.Keys <= q.sources.Keys
    ensures PruneSource(q, key, i, now, alive).sources.Keys >= q.sources.Keys - {key}
    decreases |Waiting(q.sources, key)| - i
  {
    if i == |Waiting(q.sources, key)| then q
    else
      var job := q.sources[key].waiting[i];
      if Keep(job, now, alive) then PruneSource(q, key, i + 1, now, alive)
      else
        assert Held(q, key);
        DropValid(q, key, i, job.id in alive);
        PruneSource(Drop(q, key, i, job.id in alive), key, i, now, alive)
  }

  ghost function PruneKeys(q: Queue, keys: seq<string>, now: nat, alive: set<nat>): (r: Queue)
    requires Valid(q)
    ensures Valid(r)
    decreases |keys|
  {
    if keys == [] then q else PruneKeys(PruneSource(q, keys[0], 0, now, alive), keys[1..], now, alive)
  }

  ghost function Prune(q: Queue, now: nat, alive: set<nat>): (r: Queue)
    requires Valid(q)
    ensures Valid(r)
  {
    PruneKeys(q, SortedKeys(q.sources.Keys), now, alive)
  }

  /** Keys after `last` in key order, then the others: one turn of the round. */
  function RoundFrom(keys: seq<string>, last: string): (r: seq<string>)
    requires forall i, j :: 0 <= i < j < |keys| ==> Less(keys[i], keys[j])
  {
    var p := UpperBound(keys, last);
    keys[p..] + keys[..p]
  }

  /** Index of the first key greater than `last`, or the length. */
  function UpperBound(keys: seq<string>, last: string): (p: nat)
    ensures p <= |keys|
    ensures p < |keys| ==> Less(last, keys[p])
    ensures forall j :: 0 <= j < p ==> !Less(last, keys[j])
  {
    if keys == [] || Less(last, keys[0]) then 0 else 1 + UpperBound(keys[1..], last)
  }

  predicate Ready(s: Source, now: nat) {
    s.waiting != [] && s.notBefore <= now
  }

  ghost function ReadySet(q: Queue, now: nat): set<string> {
    set k | k in q.sources && Ready(q.sources[k], now)
  }

  /** Result of trying the sources of one round for one idle worker. */
  datatype Scanned = Scanned(queue: Queue, limits: Limits, pick: Option<string>)

  ghost function Scan(q: Queue, l: Limits, worker: nat, round: seq<string>, now: nat): (r: Scanned)
    requires worker < |q.running|
    requires forall k :: k in round ==> k in q.sources
    decreases |round|
  {
    if round == [] then Scanned(q, l, None)
    else
      var key := round[0];
      if !Ready(q.sources[key], now) then Scan(q, l, worker, round[1..], now)
      else
        var (l', delay) := Ask(l, q.sources[key].waiting[0].source, now);
        if delay > 0 then Scan(Refuse(q, key, now + delay), l', worker, round[1..], now)
        else Scanned(Start(q, worker, key, now), l', Some(key))
  }

  /** The decision recorded for a scan: sources that were ready and not refused. */
  ghost function Decide(q: Queue, l: Limits, worker: nat, now: nat): (r: Scanned)
    requires worker < |q.running|
  {
    var round := RoundFrom(SortedKeys(q.sources.Keys), q.lastSource);
    var s := Scan(q, l, worker, round, now);
    var open := set k | k in ReadySet(q, now) && (s.pick == Some(k) || k in ReadySet(s.queue, now));
    s.(queue := s.queue.(decisions := q.decisions + [Decision(q.lastSource, open, s.pick)]))
  }

  ghost function Schedule(q: Queue, l: Limits, worker: nat, now: nat): (r: (Queue, Limits))
    requires worker <= |q.running|
    decreases |q.running| - worker
  {
    if worker == |q.running| then (q, l)
    else if q.running[worker].Busy? then Schedule(q, l, worker + 1, now)
    else
      var s := Decide(q, l, worker, now);
      ScanShape(q, l, worker, RoundFrom(SortedKeys(q.sources.Keys), q.lastSource), now);
      Schedule(s.queue, s.limits, worker + 1, now)
  }

  lemma {:induction false} ScanShape(q: Queue, l: Limits, worker: nat, round: seq<string>, now: nat)
    requires worker < |q.running|
    requires forall k :: k in round ==> k in q.sources
    ensures var s := Scan(q, l, worker, round, now);
            && |s.queue.running| == |q.running|
            && s.queue.sources.Keys == q.sources.Keys
            && (s.pick.Some? ==> s.pick.value in round)
    decreases |round|
  {
    if round != [] {
      var key := round[0];
      if !Ready(q.sources[key], now) {
        ScanShape(q, l, worker, round[1..], now);
      } else {
        var (l', delay) := Ask(l, q.sources[key].waiting[0].source, now);
        if delay > 0 {
          ScanShape(Refuse(q, key, now + delay), l', worker, round[1..], now);
        }
      }
    }
  }

  // --------------------------------------------------------- representation

  ghost predicate WaitsAt(q: Queue, key: string, i: nat, id: nat) {
    key in q.sources && i < |q.sources[key].waiting| && q.sources[key].waiting[i].id == id
  }

  ghost predicate RunsAt(q: Queue, worker: nat, id: nat) {
    worker < |q.running| && q.running[worker].Busy? && q.running[worker].job.id == id
  }

  /** How many workers run a job of `key`. */
  ghost function Load(running: seq<Slot>, key: string): nat {
    if running == [] then 0
    else Load(running[1..], key) + if running[0].Busy? && running[0].job.source == key then 1 else 0
  }

  function Active(running: seq<Slot>): nat {
    if running == [] then 0 else Active(running[1..]) + if running[0].Busy? then 1 else 0
  }

  ghost predicate Held(q: Queue, key: string) {
    key in q.sources ==>
      var s := q.sources[key];
      && key != ""
      && s.outstanding == |s.waiting| + Load(q.running, key)
      && 0 < s.outstanding <= q.sourceCapacity
      && (forall i :: 0 <= i < |s.waiting| ==> s.waiting[i].source == key)
  }

  ghost predicate IsWaiting(q: Queue, id: nat) {
    exists key, i: nat :: WaitsAt(q, key, i, id)
  }

  ghost predicate IsRunning(q: Queue, id: nat) {
    exists w: nat :: RunsAt(q, w, id)
  }

  /** `ids` is the disjoint union of the waiting and the running ids. */
  ghost predicate Partition(q: Queue) {
    && (forall id :: id in q.ids <==> IsWaiting(q, id) || IsRunning(q, id))
    && (forall id :: !(IsWaiting(q, id) && IsRunning(q, id)))
    && (forall k, i: nat, k', i': nat, id :: WaitsAt(q, k, i, id) && WaitsAt(q, k', i', id) ==> k == k' && i == i')
    && (forall w: nat, w': nat, id :: RunsAt(q, w, id) && RunsAt(q, w', id) ==> w == w')
  }

  ghost predicate Conserved(q: Queue) {
    && q.stats.started == q.stats.completed + Active(q.running)
    && q.stats.accepted == |q.ids| + q.stats.completed + q.stats.expired + q.stats.canceled
  }

  /** The representation invariant of the queue. */
  ghost predicate Valid(q: Queue) {
    && 0 < q.capacity && 0 < q.sourceCapacity && 0 < |q.running|
    && |q.ids| <= q.capacity
    && (forall key :: key in q.sources ==> Held(q, key))
    && (forall w :: 0 <= w < |q.running| && q.running[w].Busy? ==> q.running[w].job.source in q.sources)
    && Partition(q)
    && Conserved(q)
  }

  /** Where the waiting jobs of the queue stand after one of them is dropped. */
  lemma DropPositions(q: Queue, key: string, i: nat, expire: bool)
    requires i < |Waiting(q.sources, key)| && Held(q, key)
    ensures var r := Drop(q, key, i, expire);
            && (forall k, j: nat, x :: WaitsAt(r, k, j, x) ==>
                    (k != key || j < i ==> WaitsAt(q, k, j, x)) && (k == key && i <= j ==> WaitsAt(q, k, j + 1, x)))
            && (forall k, j: nat, x :: WaitsAt(q, k, j, x) ==>
                    (k != key || j < i ==> WaitsAt(r, k, j, x)) && (k == key && i < j ==> WaitsAt(r, k, j - 1, x)))
  {
    var r := Drop(q, key, i, expire);
    LoadPositive(q.running, key);
    var w := q.sources[key].waiting;
    if key in r.sources {
      assert r.sources[key].waiting == w[..i] + w[i + 1..];
    } else {
      assert |w| == 1;
    }
  }

  lemma DropHeld(q: Queue, key: string, i: nat, expire: bool)
    requires Valid(q) && i < |Waiting(q.sources, key)| && q.sources[key].outstanding > 0
    ensures var r := Drop(q, key, i, expire);
            && (forall k :: k in r.sources ==> Held(r, k))
            && (forall w :: 0 <= w < |r.running| && r.running[w].Busy? ==> r.running[w].job.source in r.sources)
  {
    var r := Drop(q, key, i, expire);
    assert Held(q, key);
    LoadPositive(q.running, key);
    forall k | k in r.sources
      ensures Held(r, k)
    {
      assert Held(q, k);
    }
  }

  lemma DropPartition(q: Queue, key: string, i: nat, expire: bool)
    requires Partition(q) && Held(q, key) && i < |Waiting(q.sources, key)|
    ensures Partition(Drop(q, key, i, expire))
  {
    var r := Drop(q, key, i, expire);
    var id := q.sources[key].waiting[i].id;
    assert WaitsAt(q, key, i, id);
    DropPositions(q, key, i, expire);
    assert forall w: nat, x :: RunsAt(r, w, x) <==> RunsAt(q, w, x);
    forall x
      ensures IsRunning(r, x) <==> IsRunning(q, x)
      ensures IsWaiting(r, x) <==> x != id && IsWaiting(q, x)
    {
      if IsWaiting(r, x) {
        var k, j: nat :| WaitsAt(r, k, j, x);
        assert WaitsAt(q, k, if k == key && i <= j then j + 1 else j, x);
      }
      if IsWaiting(q, x) && x != id {
        var k, j: nat :| WaitsAt(q, k, j, x);
        assert WaitsAt(r, k, if k == key && i < j then j - 1 else j, x);
      }
    }
    forall k, j: nat, k', j': nat, x | WaitsAt(r, k, j, x) && WaitsAt(r, k', j', x)
      ensures k == k' && j == j'
    {
      assert WaitsAt(q, k, if k == key && i <= j then j + 1 else j, x);
      assert WaitsAt(q, k', if k' == key && i <= j' then j' + 1 else j', x);
    }
    assert IsWaiting(q, id);
  }

  lemma DropValid(q: Queue, key: string, i: nat, expire: bool)
    requires Valid(q) && i < |Waiting(q.sources, key)| && q.sources[key].outstanding > 0
    ensures Valid(Drop(q, key, i, expire))
  {
    assert Held(q, key);
    assert WaitsAt(q, key, i, q.sources[key].waiting[i].id);
    DropHeld(q, key, i, expire);
    DropPartition(q, key, i, expire);
  }

  lemma AcceptPartition(q: Queue, job: Job)
    requires Partition(q) && job.id !in q.ids
    ensures Partition(Accept(q, job))
  {
    var r := Accept(q, job);
    var key := job.source;
    var last := |r.sources[key].waiting| - 1;
    assert WaitsAt(r, key, last, job.id);
    forall k, j: nat, x
      ensures WaitsAt(r, k, j, x) <==> WaitsAt(q, k, j, x) || (k == key && j == last && x == job.id)
    {
    }
    assert forall w: nat, x :: RunsAt(r, w, x) <==> RunsAt(q, w, x);
    assert !IsWaiting(q, job.id) && !IsRunning(q, job.id);
    forall x
      ensures IsWaiting(r, x) <==> IsWaiting(q, x) || x == job.id
      ensures IsRunning(r, x) <==> IsRunning(q, x)
    {
    }
    forall k, i: nat, k', i': nat, x | WaitsAt(r, k, i, x) && WaitsAt(r, k', i', x)
      ensures k == k' && i == i'
    {
    }
  }

  lemma AcceptHeld(q: Queue, job: Job, k: string)
    requires Held(q, k) && job.source != "" && 0 < q.sourceCapacity
    requires job.source in q.sources ==> q.sources[job.source].outstanding < q.sourceCapacity
    requires job.source !in q.sources ==> Load(q.running, job.source) == 0
    ensures Held(Accept(q, job), k)
  {
    hide Load;
  }

  lemma ValidHeld(q: Queue, key: string)
    requires Valid(q)
    ensures Held(q, key)
  {
  }

  lemma NoLoad(q: Queue, key: string)
    requires Valid(q) && key !in q.sources
    ensures Load(q.running, key) == 0
  {
    LoadPositive(q.running, key);
    hide Load;
    hide Held;
    hide Partition;
  }

  lemma AcceptValid(q: Queue, job: Job)
    requires Valid(q) && |q.ids| < q.capacity && job.id !in q.ids && job.source != ""
    requires job.source in q.sources ==> q.sources[job.source].outstanding < q.sourceCapacity
    ensures Valid(Accept(q, job))
  {
    hide Load;
    hide Partition;
    hide Active;
    hide Held;
    var r := Accept(q, job);
    AcceptPartition(q, job);
    if job.source !in q.sources {
      NoLoad(q, job.source);
    }
    forall k | k in r.sources
      ensures Held(r, k)
    {
      ValidHeld(q, k);
      AcceptHeld(q, job, k);
    }
  }

  lemma FreePartition(q: Queue, worker: nat)
    requires Partition(q) && worker < |q.running| && q.running[worker].Busy?
    requires Held(q, q.running[worker].job.source) && q.running[worker].job.source in q.sources
    requires q.sources[q.running[worker].job.source].outstanding > 0
    ensures Partition(Free(q, worker)) && q.running[worker].job.id in q.ids
  {
    var job := q.running[worker].job;
    var r := Free(q, worker);
    assert RunsAt(q, worker, job.id);
    assert forall k, j: nat, x :: WaitsAt(r, k, j, x) ==> WaitsAt(q, k, j, x);
    forall k, j: nat, x | WaitsAt(q, k, j, x)
      ensures WaitsAt(r, k, j, x)
    {
      assert k == job.source ==> q.sources[k].outstanding >= 2 by {
        LoadPositive(q.running, job.source);
      }
    }
    assert forall w: nat, x :: RunsAt(r, w, x) <==> RunsAt(q, w, x) && w != worker;
    forall x
      ensures IsWaiting(r, x) <==> IsWaiting(q, x)
      ensures IsRunning(r, x) <==> IsRunning(q, x) && x != job.id
    {
      if IsRunning(q, x) && x != job.id {
        var w: nat :| RunsAt(q, w, x);
        assert RunsAt(r, w, x);
      }
    }
    assert IsRunning(q, job.id);
  }

  lemma FreeValid(q: Queue, worker: nat)
    requires Valid(q) && worker < |q.running| && q.running[worker].Busy?
    ensures Held(q, q.running[worker].job.source)
    ensures Valid(Free(q, worker))
  {
    var job := q.running[worker].job;
    assert Held(q, job.source);
    var r := Free(q, worker);
    FreePartition(q, worker);
    hide Partition;
    ActiveUpdate(q.running, worker, Idle);
    forall k
      ensures Load(r.running, k) == Load(q.running, k) - if k == job.source then 1 else 0
    {
      LoadUpdate(q.running, worker, Idle, k);
    }
    forall k | k in r.sources
      ensures Held(r, k)
    {
      assert Held(q, k);
    }
    forall w | 0 <= w < |r.running| && r.running[w].Busy?
      ensures r.running[w].job.source in r.sources
    {
      LoadPositive(r.running, job.source);
    }
    hide Active;
    hide Load;
    hide Held;
  }

  lemma RefuseValid(q: Queue, key: string, until: nat)
    requires Valid(q) && key in q.sources
    ensures Valid(Refuse(q, key, until))
  {
    var r := Refuse(q, key, until);
    forall k | k in r.sources
      ensures Held(r, k)
    {
      assert Held(q, k);
    }
    assert forall k, j: nat, x :: WaitsAt(r, k, j, x) <==> WaitsAt(q, k, j, x);
    assert forall w: nat, x :: RunsAt(r, w, x) <==> RunsAt(q, w, x);
    assert forall x :: IsWaiting(r, x) <==> IsWaiting(q, x);
    assert forall x :: IsRunning(r, x) <==> IsRunning(q, x);
    assert Partition(r);
  }

  lemma StartPartition(q: Queue, worker: nat, key: string, now: nat)
    requires Partition(q) && worker < |q.running| && q.running[worker].Idle?
    requires |Waiting(q.sources, key)| > 0
    ensures Partition(Start(q, worker, key, now))
    ensures q.sources[key].waiting[0].id in q.ids
  {
    var r := Start(q, worker, key, now);
    var job := q.sources[key].waiting[0];
    assert WaitsAt(q, key, 0, job.id);
    forall k, j: nat, x
      ensures WaitsAt(r, k, j, x) <==> WaitsAt(q, k, if k == key then j + 1 else j, x)
    {
    }
    assert forall w: nat, x :: RunsAt(r, w, x) <==> if w == worker then x == job.id else RunsAt(q, w, x);
    forall x
      ensures IsWaiting(r, x) <==> IsWaiting(q, x) && x != job.id
    {
      if IsWaiting(q, x) && x != job.id {
        var k, j: nat :| WaitsAt(q, k, j, x);
        assert WaitsAt(r, k, if k == key then j - 1 else j, x);
      }
      if IsWaiting(r, x) {
        var k, j: nat :| WaitsAt(r, k, j, x);
        assert WaitsAt(q, k, if k == key then j + 1 else j, x);
      }
    }
    forall x
      ensures IsRunning(r, x) <==> IsRunning(q, x) || x == job.id
    {
      assert RunsAt(r, worker, job.id);
      if IsRunning(q, x) {
        var w: nat :| RunsAt(q, w, x);
        assert RunsAt(r, w, x);
      }
    }
    assert IsWaiting(q, job.id);
    forall k, i: nat, k', i': nat, x | WaitsAt(r, k, i, x) && WaitsAt(r, k', i', x)
      ensures k == k' && i == i'
    {
      assert WaitsAt(q, k, if k == key then i + 1 else i, x);
      assert WaitsAt(q, k', if k' == key then i' + 1 else i', x);
    }
  }

  lemma StartHeld(q: Queue, worker: nat, key: string, now: nat, k: string)
    requires Held(q, k) && worker < |q.running| && q.running[worker].Idle?
    requires |Waiting(q.sources, key)| > 0
    requires q.sources[key].waiting[0].source == key
    ensures Held(Start(q, worker, key, now), k)
  {
    LoadUpdate(q.running, worker, Busy(q.sources[key].waiting[0]), k);
    hide Load;
  }

  lemma StartValid(q: Queue, worker: nat, key: string, now: nat)
    requires Valid(q) && worker < |q.running| && q.running[worker].Idle?
    requires |Waiting(q.sources, key)| > 0
    ensures Valid(Start(q, worker, key, now))
  {
    var r := Start(q, worker, key, now);
    assert Held(q, key);
    StartPartition(q, worker, key, now);
    hide Partition;
    ActiveUpdate(q.running, worker, Busy(q.sources[key].waiting[0]));
    hide Active;
    forall k | k in r.sources
      ensures Held(r, k)
    {
      assert Held(q, k);
      StartHeld(q, worker, key, now, k);
    }
    hide Held;
  }

  lemma EnqueueValid(q: Queue, job: Job)
    requires Valid(q)
    ensures Valid(Enqueue(q, job).0)
  {
    var j := job.(source := SourceKey(job.source));
    if Enqueue(q, job).1 {
      AcceptValid(q, j);
    } else {
      StatsValid(q, Enqueue(q, job).0);
    }
  }

  /** Counting a rejection touches nothing the representation depends on. */
  lemma StatsValid(q: Queue, r: Queue)
    requires Valid(q)
    requires r == q.(stats := r.stats, decisions := r.decisions)
    requires Conserved(r)
    ensures Valid(r)
  {
    forall k | k in r.sources
      ensures Held(r, k)
    {
      assert Held(q, k);
    }
    assert forall k, j: nat, x :: WaitsAt(r, k, j, x) <==> WaitsAt(q, k, j, x);
    assert forall w: nat, x :: RunsAt(r, w, x) <==> RunsAt(q, w, x);
    assert forall x :: IsWaiting(r, x) <==> IsWaiting(q, x);
    assert forall x :: IsRunning(r, x) <==> IsRunning(q, x);
    assert Partition(r);
  }

  lemma {:induction false} CancelValid(q: Queue, keys: seq<string>, id: nat)
    requires Valid(q)
    requires forall k :: k in keys ==> k in q.sources && q.sources[k].outstanding > 0
    ensures Valid(CancelIn(q, keys, id))
  {
    if keys != [] {
      var i := Find(q.sources[keys[0]].waiting, id);
      if i < |q.sources[keys[0]].waiting| {
        DropValid(q, keys[0], i, false);
      } else {
        CancelValid(q, keys[1..], id);
      }
    }
  }

  lemma {:induction false} ScanValid(q: Queue, l: Limits, worker: nat, round: seq<string>, now: nat)
    requires Valid(q) && worker < |q.running| && q.running[worker].Idle?
    requires forall k :: k in round ==> k in q.sources
    ensures Valid(Scan(q, l, worker, round, now).queue)
    decreases |round|
  {
    hide Valid;
    hide Ask;
    if round != [] {
      var key := round[0];
      if !Ready(q.sources[key], now) {
        ScanValid(q, l, worker, round[1..], now);
      } else {
        var (l', delay) := Ask(l, q.sources[key].waiting[0].source, now);
        if delay > 0 {
          RefuseValid(q, key, now + delay);
          ScanValid(Refuse(q, key, now + delay), l', worker, round[1..], now);
        } else {
          StartValid(q, worker, key, now);
        }
      }
    }
  }

  lemma DecideValid(q: Queue, l: Limits, worker: nat, now: nat)
    requires Valid(q) && worker < |q.running| && q.running[worker].Idle?
    ensures Valid(Decide(q, l, worker, now).queue)
    ensures |Decide(q, l, worker, now).queue.running| == |q.running|
  {
    var round := RoundFrom(SortedKeys(q.sources.Keys), q.lastSource);
    ScanValid(q, l, worker, round, now);
    ScanShape(q, l, worker, round, now);
    StatsValid(Scan(q, l, worker, round, now).queue, Decide(q, l, worker, now).queue);
  }

  lemma {:induction false} ScheduleValid(q: Queue, l: Limits, worker: nat, now: nat)
    requires Valid(q) && worker <= |q.running|
    ensures Valid(Schedule(q, l, worker, now).0)
    decreases |q.running| - worker
  {
    if worker < |q.running| {
      if q.running[worker].Busy? {
        ScheduleValid(q, l, worker + 1, now);
      } else {
        var s := Decide(q, l, worker, now);
        DecideValid(q, l, worker, now);
        ScheduleValid(s.queue, s.limits, worker + 1, now);
      }
    }
  }

  lemma {:induction false} LoadUpdate(running: seq<Slot>, w: nat, slot: Slot, key: string)
    requires w < |running|
    ensures Load(running[w := slot], key) == Load(running, key)
            + (if slot.Busy? && slot.job.source == key then 1 else 0)
            - (if running[w].Busy? && running[w].job.source == key then 1 else 0)
  {
    if w > 0 {
      assert running[w := slot][1..] == running[1..][w - 1 := slot];
      LoadUpdate(running[1..], w - 1, slot, key);
    } else {
      assert running[w := slot][1..] == running[1..];
    }
  }

  lemma {:induction false} ActiveUpdate(running: seq<Slot>, w: nat, slot: Slot)
    requires w < |running|
    ensures Active(running[w := slot]) == Active(running)
            + (if slot.Busy? then 1 else 0) - (if running[w].Busy? then 1 else 0)
  {
    if w > 0 {
      assert running[w := slot][1..] == running[1..][w - 1 := slot];
      ActiveUpdate(running[1..], w - 1, slot);
    } else {
      assert running[w := slot][1..] == running[1..];
    }
  }

  lemma {:induction false} LoadPositive(running: seq<Slot>, key: string)
    ensures Load(running, key) == 0 <==> forall w :: 0 <= w < |running| && running[w].Busy? ==> running[w].job.source != key
  {
    if running != [] {
      LoadPositive(running[1..], key);
    }
  }
}
