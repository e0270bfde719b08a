/** What holds of a `CredentialQueue` over whole runs: the fate of every job,
    the order of starts, fairness between sources, and the pace of one source. */
module QueueHistory {
  import opened Ordering
  import opened Sequences
  import opened WorkLimiting
  import opened QueueSpec

  // ------------------------------------------------------- jobs of a source

  datatype Kind = WasAccepted | WasStarted | WasExpired | WasCanceled

  function KindOf(f: Fate): Kind {
    match f
    case Accepted(_) => WasAccepted
    case Started(_, _, _) => WasStarted
    case Expired(_) => WasExpired
    case Canceled(_) => WasCanceled
  }

  ghost function Jobs(fates: seq<Fate>, kind: Kind, source: string): seq<Job> {
    if fates == [] then []
    else
      var f := fates[|fates| - 1];
      Jobs(fates[..|fates| - 1], kind, source)
      + if KindOf(f) == kind && f.job.source == source then [f.job] else []
  }

  lemma JobsSnoc(fates: seq<Fate>, f: Fate, kind: Kind, source: string)
    ensures Jobs(fates + [f], kind, source)
            == Jobs(fates, kind, source) + if KindOf(f) == kind && f.job.source == source then [f.job] else []
  {
    assert (fates + [f])[..|fates|] == fates;
  }

  /** The jobs of one source: still waiting, and by the fate they met. */
  datatype Ledger = Ledger(waiting: seq<Job>, accepted: seq<Job>, started: seq<Job>, expired: seq<Job>, canceled: seq<Job>)

  ghost function LedgerOf(q: Queue, source: string): Ledger {
    Ledger(Waiting(q.sources, source), Jobs(q.fates, WasAccepted, source), Jobs(q.fates, WasStarted, source),
           Jobs(q.fates, WasExpired, source), Jobs(q.fates, WasCanceled, source))
  }

  ghost predicate Balanced(b: Ledger) {
    && multiset(b.accepted) == multiset(b.waiting) + multiset(b.started) + multiset(b.expired) + multiset(b.canceled)
    && Subsequence(b.started + b.waiting, b.accepted)
  }

  /** Every accepted job of the source is waiting or has met exactly one fate,
      and its jobs start in the order in which they were accepted. */
  ghost predicate Fated(q: Queue, source: string) {
    Balanced(LedgerOf(q, source))
  }

  lemma BalancedAccept(b: Ledger, job: Job)
    requires Balanced(b)
    ensures Balanced(b.(waiting := b.waiting + [job], accepted := b.accepted + [job]))
  {
    SubsequenceGrow(b.started + b.waiting, b.accepted, job);
    assert b.started + (b.waiting + [job]) == (b.started + b.waiting) + [job];
  }

  lemma BalancedDrop(b: Ledger, i: nat)
    requires Balanced(b) && i < |b.waiting|
    ensures Balanced(b.(waiting := b.waiting[..i] + b.waiting[i + 1..], expired := b.expired + [b.waiting[i]]))
    ensures Balanced(b.(waiting := b.waiting[..i] + b.waiting[i + 1..], canceled := b.canceled + [b.waiting[i]]))
  {
    var rest := b.waiting[..i] + b.waiting[i + 1..];
    assert b.waiting == b.waiting[..i] + [b.waiting[i]] + b.waiting[i + 1..];
    assert multiset(b.waiting) == multiset(rest) + multiset{b.waiting[i]};
    var all := b.started + b.waiting;
    var at := |b.started| + i;
    SubsequenceDrop(all, b.accepted, at);
    assert all[..at] + all[at + 1..] == b.started + rest;
  }

  lemma BalancedStart(b: Ledger)
    requires Balanced(b) && b.waiting != []
    ensures Balanced(b.(waiting := b.waiting[1..], started := b.started + [b.waiting[0]]))
  {
    assert b.waiting == [b.waiting[0]] + b.waiting[1..];
    assert (b.started + [b.waiting[0]]) + b.waiting[1..] == b.started + b.waiting;
  }

  lemma LedgerSnoc(q: Queue, r: Queue, f: Fate, source: string)
    requires r.fates == q.fates + [f]
    ensures var b := LedgerOf(q, source);
            var c := b.(waiting := Waiting(r.sources, source));
            LedgerOf(r, source) ==
            if f.job.source != source then c
            else match f
                 case Accepted(job) => c.(accepted := b.accepted + [job])
                 case Started(job, _, _) => c.(started := b.started + [job])
                 case Expired(job) => c.(expired := b.expired + [job])
                 case Canceled(job) => c.(canceled := b.canceled + [job])
  {
    JobsSnoc(q.fates, f, WasAccepted, source);
    JobsSnoc(q.fates, f, WasStarted, source);
    JobsSnoc(q.fates, f, WasExpired, source);
    JobsSnoc(q.fates, f, WasCanceled, source);
  }

  lemma FatedAccept(q: Queue, job: Job, source: string)
    requires Fated(q, source)
    ensures Fated(Accept(q, job), source)
  {
    LedgerSnoc(q, Accept(q, job), Accepted(job), source);
    BalancedAccept(LedgerOf(q, source), job);
  }

  lemma FatedDrop(q: Queue, key: string, i: nat, expire: bool, source: string)
    requires Fated(q, source) && i < |Waiting(q.sources, key)| && Held(q, key)
    ensures Fated(Drop(q, key, i, expire), source)
  {
    hide Balanced;
    var r := Drop(q, key, i, expire);
    LedgerSnoc(q, r, r.fates[|q.fates|], source);
    if key == source {
      LoadPositive(q.running, key);
      BalancedDrop(LedgerOf(q, source), i);
      var w := q.sources[key].waiting;
      assert Waiting(r.sources, source) == w[..i] + w[i + 1..];
    }
  }

  lemma FatedStart(q: Queue, worker: nat, key: string, now: nat, source: string)
    requires Fated(q, source) && worker < |q.running| && |Waiting(q.sources, key)| > 0 && Held(q, key)
    ensures Fated(Start(q, worker, key, now), source)
  {
    hide Balanced;
    LedgerSnoc(q, Start(q, worker, key, now), Started(q.sources[key].waiting[0], worker, now), source);
    if key == source {
      BalancedStart(LedgerOf(q, source));
    }
  }

  lemma FatedSame(q: Queue, r: Queue, source: string)
    requires Fated(q, source) && r.fates == q.fates
    requires Waiting(r.sources, source) == Waiting(q.sources, source)
    ensures Fated(r, source)
  {
  }

  // ---------------------------------------------------------------- fairness

  /** `z` comes after `last` and before `y` on the circle of source keys. */
  predicate Between(last: string, z: string, y: string) {
    if Less(last, y) then Less(last, z) && Less(z, y) else Less(last, z) || Less(z, y)
  }

  /** The decision took the first open source after the previous one. */
  ghost predicate Sound(d: Decision) {
    && (d.pick == None ==> d.open == {})
    && (d.pick.Some? ==> d.pick.value in d.open && forall z :: z in d.open ==> !Between(d.last, z, d.pick.value))
  }

  function Next(d: Decision): string {
    if d.pick.Some? then d.pick.value else d.last
  }

  ghost predicate Chained(ds: seq<Decision>, last: string) {
    && (forall i :: 0 <= i < |ds| ==> Sound(ds[i]))
    && (forall i :: 0 <= i < |ds| - 1 ==> ds[i + 1].last == Next(ds[i]))
    && (ds != [] ==> last == Next(ds[|ds| - 1]))
  }

  lemma RoundOrder(keys: seq<string>, last: string, i: nat, j: nat)
    requires forall i, j :: 0 <= i < j < |keys| ==> Less(keys[i], keys[j])
    requires i < j < |RoundFrom(keys, last)|
    ensures !Between(last, RoundFrom(keys, last)[j], RoundFrom(keys, last)[i])
  {
    var p := UpperBound(keys, last);
    var r := RoundFrom(keys, last);
    UpperBoundSplits(keys, last);
    if r[i] != r[j] {
      if Less(r[i], r[j]) {
        LessAsymmetric(r[i], r[j]);
      }
    } else {
      LessIrreflexive(r[i]);
    }
  }

  lemma UpperBoundSplits(keys: seq<string>, last: string)
    requires forall i, j :: 0 <= i < j < |keys| ==> Less(keys[i], keys[j])
    ensures var p := UpperBound(keys, last);
            forall j :: p <= j < |keys| ==> Less(last, keys[j])
  {
    var p := UpperBound(keys, last);
    forall j | p < j < |keys|
      ensures Less(last, keys[j])
    {
      LessTransitive(last, keys[p], keys[j]);
    }
  }

  /** Passing over `x` means moving towards it. */
  lemma PassTowards(last: string, y: string, x: string)
    requires y != x && !Between(last, x, y)
    ensures Between(last, y, x)
  {
    LessTotal(last, y);
    LessTotal(last, x);
    LessTotal(x, y);
    LessIrreflexive(last);
    if Less(y, x) && Less(x, last) {
      LessTransitive(y, x, last);
    }
    if Less(last, y) && Less(y, x) {
      LessTransitive(last, y, x);
    }
  }

  lemma BetweenTransitive(a: string, b: string, c: string, x: string)
    requires Between(a, b, x) && Between(b, c, x)
    ensures Between(a, c, x)
  {
    if Less(a, b) && Less(b, c) {
      LessTransitive(a, b, c);
    }
    if Less(a, b) && Less(b, x) {
      LessTransitive(a, b, x);
    }
    LessTotal(a, x);
    LessTotal(b, x);
    if Less(b, x) && Less(x, a) {
      LessTransitive(b, x, a);
    }
    if Less(b, c) && Less(c, x) {
      LessTransitive(b, c, x);
    }
    LessTotal(a, c);
    LessTotal(c, x);
    if Less(c, a) && Less(a, b) {
      LessTransitive(c, a, b);
    }
    if Less(x, a) && Less(a, b) {
      LessTransitive(x, a, b);
    }
    if Less(x, a) && Less(a, c) {
      LessTransitive(x, a, c);
    }
    if Less(a, x) && Less(x, c) {
      LessTransitive(a, x, c);
    }
    LessIrreflexive(x);
  }

  lemma BetweenDistinct(a: string, b: string, x: string)
    requires Between(a, b, x)
    ensures a != b
  {
    LessIrreflexive(a);
    if a == b && Less(a, x) {
      LessAsymmetric(a, x);
    }
  }

  /** While `x` is open at every decision of a stretch and is not served before
      its last one, no source is served twice within the stretch. */
  lemma Fairness(ds: seq<Decision>, last: string, i: nat, j: nat, x: string)
    requires Chained(ds, last) && i <= j < |ds|
    requires forall k :: i <= k <= j ==> x in ds[k].open
    requires forall k :: i <= k < j ==> ds[k].pick != Some(x)
    ensures forall k :: i <= k <= j ==> ds[k].pick.Some?
    ensures forall a, b :: i <= a < b <= j ==> ds[a].pick != ds[b].pick
  {
    forall a, b | i <= a < b <= j
      ensures ds[a].pick != ds[b].pick
    {
      assert Sound(ds[a]) && Sound(ds[b]);
      if ds[b].pick != Some(x) {
        MarchesTowards(ds, last, a, b, x);
        BetweenDistinct(ds[a].pick.value, ds[b].pick.value, x);
      }
    }
    forall k | i <= k <= j
      ensures ds[k].pick.Some?
    {
      assert Sound(ds[k]);
    }
  }

  lemma {:induction false} MarchesTowards(ds: seq<Decision>, last: string, a: nat, b: nat, x: string)
    requires Chained(ds, last) && a < b < |ds|
    requires forall k :: a <= k <= b ==> x in ds[k].open && ds[k].pick != Some(x)
    ensures ds[a].pick.Some? && ds[b].pick.Some? && Between(ds[a].pick.value, ds[b].pick.value, x)
    decreases b - a
  {
    assert Sound(ds[a]) && Sound(ds[b]) && Sound(ds[b - 1]);
    assert ds[b - 1 + 1].last == Next(ds[b - 1]);
    PassTowards(ds[b].last, ds[b].pick.value, x);
    if a < b - 1 {
      MarchesTowards(ds, last, a, b - 1, x);
      BetweenTransitive(ds[a].pick.value, ds[b - 1].pick.value, ds[b].pick.value, x);
    }
  }

  // ------------------------------------------------------------ start times

  ghost function StartTimes(fates: seq<Fate>, source: string): seq<nat> {
    if fates == [] then []
    else
      var f := fates[|fates| - 1];
      StartTimes(fates[..|fates| - 1], source)
      + if f.Started? && f.job.source == source then [f.at] else []
  }

  lemma StartTimesSnoc(fates: seq<Fate>, f: Fate, source: string)
    ensures StartTimes(fates + [f], source)
            == StartTimes(fates, source) + if f.Started? && f.job.source == source then [f.at] else []
  {
    assert (fates + [f])[..|fates|] == fates;
  }

  /** The limiter handed out exactly one token for each start of the source. */
  ghost predicate Metered(fates: seq<Fate>, l: Limits, source: string, now: nat) {
    exists p :: Paced(l, source, p, now) && p.at == StartTimes(fates, source)
  }

  // -------------------------------------------------------------- pruning

  function KeptJobs(jobs: seq<Job>, now: nat, alive: set<nat>): seq<Job> {
    if jobs == [] then []
    else (if Keep(jobs[0], now, alive) then [jobs[0]] else []) + KeptJobs(jobs[1..], now, alive)
  }

  /** What pruning leaves alone. */
  ghost predicate PruneFrame(q: Queue, r: Queue, source: string) {
    && r == q.(sources := r.sources, ids := r.ids, stats := r.stats, fates := r.fates)
    && StartTimes(r.fates, source) == StartTimes(q.fates, source)
    && (forall k :: k in r.sources ==> k in q.sources && r.sources[k].notBefore == q.sources[k].notBefore)
  }

  lemma DropEffect(q: Queue, key: string, i: nat, expire: bool, source: string)
    requires Valid(q) && i < |Waiting(q.sources, key)| && Fated(q, source)
    ensures Held(q, key)
    ensures var r := Drop(q, key, i, expire);
            var w := Waiting(q.sources, key);
            && Valid(r) && Fated(r, source)
            && PruneFrame(q, r, source)
            && Waiting(r.sources, key) == w[..i] + w[i + 1..]
            && (forall k :: k != key ==> Waiting(r.sources, k) == Waiting(q.sources, k))
  {
    hide Fated;
    assert Held(q, key);
    var r := Drop(q, key, i, expire);
    DropValid(q, key, i, expire);
    FatedDrop(q, key, i, expire, source);
    StartTimesSnoc(q.fates, r.fates[|q.fates|], source);
    LoadPositive(q.running, key);
  }

  /** What pruning makes of the waiting jobs from position `i` on, one at a time. */
  ghost function KeepFrom(w: seq<Job>, i: nat, now: nat, alive: set<nat>): seq<Job>
    requires i <= |w|
    decreases |w| - i
  {
    if i == |w| then w
    else if Keep(w[i], now, alive) then KeepFrom(w, i + 1, now, alive)
    else KeepFrom(w[..i] + w[i + 1..], i, now, alive)
  }

  lemma {:induction false} KeepFromFilters(w: seq<Job>, i: nat, now: nat, alive: set<nat>)
    requires i <= |w|
    ensures KeepFrom(w, i, now, alive) == w[..i] + KeptJobs(w[i..], now, alive)
    decreases |w| - i
  {
    if i < |w| {
      assert w[i..] == [w[i]] + w[i + 1..];
      if Keep(w[i], now, alive) {
        KeepFromFilters(w, i + 1, now, alive);
        assert w[..i + 1] == w[..i] + [w[i]];
      } else {
        var rest := w[..i] + w[i + 1..];
        KeepFromFilters(rest, i, now, alive);
        assert rest[..i] == w[..i] && rest[i..] == w[i + 1..];
      }
    }
  }

  lemma {:induction false} PruneSourceEffect(q: Queue, key: string, i: nat, now: nat, alive: set<nat>, source: string)
    requires Valid(q) && i <= |Waiting(q.sources, key)| && Fated(q, source)
    ensures var r := PruneSource(q, key, i, now, alive);
            && Fated(r, source)
            && PruneFrame(q, r, source)
            && Waiting(r.sources, key) == KeepFrom(Waiting(q.sources, key), i, now, alive)
            && (forall k :: k != key ==> Waiting(r.sources, k) == Waiting(q.sources, k))
    decreases |Waiting(q.sources, key)| - i
  {
    hide Fated;
    hide Valid;
    hide Drop;
    var w := Waiting(q.sources, key);
    if i < |w| {
      var job := w[i];
      if Keep(job, now, alive) {
        PruneSourceEffect(q, key, i + 1, now, alive, source);
      } else {
        DropEffect(q, key, i, job.id in alive, source);
        PruneSourceEffect(Drop(q, key, i, job.id in alive), key, i, now, alive, source);
      }
    }
  }

  /** Pruning keeps, in order, the jobs that are alive and in time; every other
      waiting job has expired or been canceled. */
  lemma {:induction false} PruneKeysEffect(q: Queue, keys: seq<string>, now: nat, alive: set<nat>, source: string)
    requires Valid(q) && Fated(q, source)
    requires forall i, j :: 0 <= i < j < |keys| ==> keys[i] != keys[j]
    ensures var r := PruneKeys(q, keys, now, alive);
            && Fated(r, source)
            && PruneFrame(q, r, source)
            && (forall k :: Waiting(r.sources, k)
                            == if k in keys then KeptJobs(Waiting(q.sources, k), now, alive) else Waiting(q.sources, k))
    decreases |keys|
  {
    hide Fated;
    hide Valid;
    if keys != [] {
      PruneSourceEffect(q, keys[0], 0, now, alive, source);
      KeepFromFilters(Waiting(q.sources, keys[0]), 0, now, alive);
      PruneKeysEffect(PruneSource(q, keys[0], 0, now, alive), keys[1..], now, alive, source);
      assert forall k :: k in keys <==> k == keys[0] || k in keys[1..];
    }
  }

  lemma PruneEffect(q: Queue, now: nat, alive: set<nat>, source: string)
    requires Valid(q) && Fated(q, source)
    ensures var r := Prune(q, now, alive);
            && Fated(r, source)
            && PruneFrame(q, r, source)
            && (forall k :: Waiting(r.sources, k) == KeptJobs(Waiting(q.sources, k), now, alive))
  {
    hide Fated;
    var keys := SortedKeys(q.sources.Keys);
    forall i, j | 0 <= i < j < |keys|
      ensures keys[i] != keys[j]
    {
      LessAsymmetric(keys[i], keys[j]);
    }
    PruneKeysEffect(q, keys, now, alive, source);
  }

  // ------------------------------------------------------------- scheduling

  lemma {:induction false} ScanFated(q: Queue, l: Limits, worker: nat, round: seq<string>, now: nat, source: string)
    requires worker < |q.running| && q.running[worker].Idle?
    requires forall k :: k in round ==> k in q.sources
    requires Valid(q) && Fated(q, source)
    ensures Fated(Scan(q, l, worker, round, now).queue, source)
    decreases |round|
  {
    hide Ask;
    hide Valid;
    hide Fated;
    hide Held;
    if round != [] {
      var key := round[0];
      if !Ready(q.sources[key], now) {
        ScanFated(q, l, worker, round[1..], now, source);
      } else {
        var (l', delay) := Ask(l, q.sources[key].waiting[0].source, now);
        if delay > 0 {
          RefuseValid(q, key, now + delay);
          FatedSame(q, Refuse(q, key, now + delay), source);
          ScanFated(Refuse(q, key, now + delay), l', worker, round[1..], now, source);
        } else {
          ValidHeld(q, key);
          FatedStart(q, worker, key, now, source);
        }
      }
    }
  }

  /** `y` is the first source of the round left ready by the scan from `q` to `r`. */
  ghost predicate PickedAt(q: Queue, r: Queue, round: seq<string>, p: nat, y: string, now: nat)
    requires forall k :: k in round ==> k in q.sources && k in r.sources
  {
    && p < |round| && round[p] == y
    && Ready(q.sources[round[p]], now)
    && forall j :: 0 <= j < p ==> !Ready(r.sources[round[j]], now)
  }

  ghost predicate Chosen(q: Queue, s: Scanned, round: seq<string>, now: nat) {
    && s.queue.sources.Keys == q.sources.Keys
    && (forall k :: k in round ==> k in q.sources)
    && s.queue.decisions == q.decisions
    && (forall k :: k in q.sources && k !in round ==> s.queue.sources[k] == q.sources[k])
    && (s.pick == None ==>
          && s.queue.lastSource == q.lastSource && s.queue.running == q.running
          && forall k :: k in round ==> !Ready(s.queue.sources[k], now))
    && (s.pick.Some? ==>
          && s.queue.lastSource == s.pick.value
          && (exists p: nat :: PickedAt(q, s.queue, round, p, s.pick.value, now)))
  }

  lemma ChosenLater(q: Queue, f: Queue, s: Scanned, round: seq<string>, now: nat)
    requires round != [] && Chosen(f, s, round[1..], now)
    requires round[0] in q.sources && round[0] !in round[1..]
    requires f == q.(sources := f.sources, stats := f.stats) && f.sources.Keys == q.sources.Keys
    requires !Ready(f.sources[round[0]], now)
    requires forall k :: k in q.sources && k != round[0] ==> f.sources[k] == q.sources[k]
    ensures Chosen(q, s, round, now)
  {
    assert forall k :: k in round ==> k == round[0] || k in round[1..];
    if s.pick.Some? {
      var p: nat :| PickedAt(f, s.queue, round[1..], p, s.pick.value, now);
      assert PickedAt(q, s.queue, round, p + 1, s.pick.value, now);
    }
  }

  /** The scan serves the first source of the round that is ready and not
      refused; those before it are not ready afterwards. */
  lemma {:induction false} ScanChoice(q: Queue, l: Limits, worker: nat, round: seq<string>, now: nat)
    requires worker < |q.running|
    requires forall k :: k in round ==> k in q.sources
    requires forall i, j :: 0 <= i < j < |round| ==> round[i] != round[j]
    ensures Chosen(q, Scan(q, l, worker, round, now), round, now)
    decreases |round|
  {
    hide Ask;
    hide Chosen;
    if round == [] {
      assert Chosen(q, Scan(q, l, worker, round, now), round, now) by {
        ChosenNone(q, l, now);
      }
    } else {
      var key := round[0];
      var rest := round[1..];
      var s := Scan(q, l, worker, round, now);
      if !Ready(q.sources[key], now) {
        ScanChoice(q, l, worker, rest, now);
        ChosenLater(q, q, s, round, now);
      } else {
        var (l', delay) := Ask(l, q.sources[key].waiting[0].source, now);
        if delay > 0 {
          ScanChoice(Refuse(q, key, now + delay), l', worker, rest, now);
          ChosenLater(q, Refuse(q, key, now + delay), s, round, now);
        } else {
          ChosenFirst(q, s, worker, round, now);
        }
      }
    }
  }

  lemma ChosenNone(q: Queue, l: Limits, now: nat)
    ensures Chosen(q, Scanned(q, l, None), [], now)
  {
  }

  lemma ChosenFirst(q: Queue, s: Scanned, worker: nat, round: seq<string>, now: nat)
    requires worker < |q.running| && round != [] && round[0] in q.sources && Ready(q.sources[round[0]], now)
    requires forall k :: k in round ==> k in q.sources
    requires s.pick == Some(round[0]) && s.queue == Start(q, worker, round[0], now)
    ensures Chosen(q, s, round, now)
  {
    assert PickedAt(q, s.queue, round, 0, round[0], now);
  }

  lemma RoundKeys(keys: seq<string>, last: string)
    requires forall i, j :: 0 <= i < j < |keys| ==> Less(keys[i], keys[j])
    ensures var r := RoundFrom(keys, last);
            && |r| == |keys| && (forall k :: k in r <==> k in keys)
            && (forall i, j :: 0 <= i < j < |r| ==> r[i] != r[j])
  {
    hide Less;
    hide UpperBound;
    var p := UpperBound(keys, last);
    var r := RoundFrom(keys, last);
    assert keys == keys[..p] + keys[p..];
    forall i, j | 0 <= i < j < |r|
      ensures r[i] != r[j]
    {
      var a := if i < |keys| - p then i + p else i - (|keys| - p);
      var b := if j < |keys| - p then j + p else j - (|keys| - p);
      assert r[i] == keys[a] && r[j] == keys[b] && a != b;
      if a < b {
        LessAsymmetric(keys[a], keys[b]);
      } else {
        LessAsymmetric(keys[b], keys[a]);
      }
    }
  }

  ghost function OpenAt(q: Queue, s: Scanned, now: nat): set<string> {
    set k | k in ReadySet(q, now) && (s.pick == Some(k) || k in ReadySet(s.queue, now))
  }

  lemma OpenReady(q: Queue, s: Scanned, round: seq<string>, now: nat, z: string)
    requires Chosen(q, s, round, now) && z in OpenAt(q, s, now) && forall k :: k in q.sources ==> k in round
    ensures z in round && s.pick.Some? && (s.pick == Some(z) || Ready(s.queue.sources[z], now))
  {
  }

  lemma PickedOpen(q: Queue, s: Scanned, round: seq<string>, p: nat, now: nat)
    requires Chosen(q, s, round, now) && s.pick.Some? && PickedAt(q, s.queue, round, p, s.pick.value, now)
    ensures s.pick.value in OpenAt(q, s, now)
  {
  }

  lemma DecisionSound(q: Queue, s: Scanned, now: nat)
    requires Chosen(q, s, RoundFrom(SortedKeys(q.sources.Keys), q.lastSource), now)
    ensures Sound(Decision(q.lastSource, OpenAt(q, s, now), s.pick))
  {
    hide Between;
    hide RoundFrom;
    hide SortedKeys;
    hide Ready;
    var keys := SortedKeys(q.sources.Keys);
    var round := RoundFrom(keys, q.lastSource);
    RoundKeys(keys, q.lastSource);
    var d := Decision(q.lastSource, OpenAt(q, s, now), s.pick);
    if s.pick.Some? {
      var p: nat :| PickedAt(q, s.queue, round, p, s.pick.value, now);
      PickedOpen(q, s, round, p, now);
      forall z | z in d.open
        ensures !Between(d.last, z, d.pick.value)
      {
        OpenReady(q, s, round, now, z);
        hide OpenAt;
        hide Chosen;
        var j :| 0 <= j < |round| && round[j] == z;
        if j == p {
          NotBetweenSelf(d.last, z);
        } else {
          RoundOrder(keys, q.lastSource, p, j);
        }
      }
    } else {
      forall z
        ensures z !in d.open
      {
        if z in d.open {
          OpenReady(q, s, round, now, z);
        }
      }
    }
    hide OpenAt;
    hide Chosen;
  }

  lemma ChainedMore(ds: seq<Decision>, d: Decision)
    requires Chained(ds, d.last) && Sound(d)
    ensures Chained(ds + [d], Next(d))
  {
    hide Sound;
  }

  lemma ChosenLast(q: Queue, s: Scanned, round: seq<string>, now: nat)
    requires Chosen(q, s, round, now)
    ensures s.queue.lastSource == if s.pick.Some? then s.pick.value else q.lastSource
  {
    hide Ready;
  }

  lemma DecideIs(q: Queue, l: Limits, worker: nat, now: nat)
    requires worker < |q.running|
    ensures var round := RoundFrom(SortedKeys(q.sources.Keys), q.lastSource);
            && (forall k :: k in round ==> k in q.sources)
            && var s := Scan(q, l, worker, round, now);
               var r := Decide(q, l, worker, now).queue;
               && r.lastSource == s.queue.lastSource
               && r.decisions == q.decisions + [Decision(q.lastSource, OpenAt(q, s, now), s.pick)]
  {
    hide Scan;
    hide ReadySet;
    RoundKeys(SortedKeys(q.sources.Keys), q.lastSource);
    hide RoundFrom;
    hide SortedKeys;
  }

  lemma DecideChained(q: Queue, l: Limits, worker: nat, now: nat)
    requires worker < |q.running| && Chained(q.decisions, q.lastSource)
    ensures var r := Decide(q, l, worker, now).queue;
            Chained(r.decisions, r.lastSource)
  {
    hide Scan;
    hide RoundFrom;
    hide SortedKeys;
    hide Sound;
    hide OpenAt;
    hide Chosen;
    hide Chained;
    var keys := SortedKeys(q.sources.Keys);
    var round := RoundFrom(keys, q.lastSource);
    RoundKeys(keys, q.lastSource);
    ScanChoice(q, l, worker, round, now);
    var s := Scan(q, l, worker, round, now);
    DecisionSound(q, s, now);
    ChosenLast(q, s, round, now);
    DecideIs(q, l, worker, now);
    hide Decide;
    ChainedMore(q.decisions, Decision(q.lastSource, OpenAt(q, s, now), s.pick));
  }

  lemma NotBetweenSelf(last: string, y: string)
    ensures !Between(last, y, y)
  {
    LessIrreflexive(y);
  }

  lemma {:induction false} ScanMetered(q: Queue, l: Limits, worker: nat, round: seq<string>, now: nat, source: string)
    requires worker < |q.running| && q.running[worker].Idle? && Valid(q)
    requires forall k :: k in round ==> k in q.sources
    requires Metered(q.fates, l, source, now)
    ensures var s := Scan(q, l, worker, round, now);
            Metered(s.queue.fates, s.limits, source, now)
    decreases |round|
  {
    hide Valid;
    hide Ask;
    hide Paced;
    if round != [] {
      var key := round[0];
      if !Ready(q.sources[key], now) {
        ScanMetered(q, l, worker, round[1..], now, source);
      } else {
        ValidHeld(q, key);
        var job := q.sources[key].waiting[0];
        var (l', delay) := Ask(l, job.source, now);
        var p :| Paced(l, source, p, now) && p.at == StartTimes(q.fates, source);
        AskPaced(l, job.source, source, p, now);
        if delay > 0 {
          RefuseValid(q, key, now + delay);
          ScanMetered(Refuse(q, key, now + delay), l', worker, round[1..], now, source);
        } else {
          StartTimesSnoc(q.fates, Started(job, worker, now), source);
        }
      }
    }
  }

  lemma AskPaced(l: Limits, asked: string, source: string, p: Pace, now: nat)
    requires Paced(l, source, p, now) && asked != ""
    ensures var (l', delay) := Ask(l, asked, now);
            exists p' :: Paced(l', source, p', now) && p'.at == p.at + if delay == 0 && asked == source then [now] else []
  {
    hide Paced;
    hide Ask;
    var (l', delay) := Ask(l, asked, now);
    if asked != source {
      PacedOther(l, asked, source, p, now);
      assert p.at == p.at + [];
    } else if delay > 0 {
      PacedRefused(l, asked, p, now);
      assert p.at == p.at + [];
    } else {
      PacedTook(l, asked, p, now);
      assert Took(p, l', source, now).at == p.at + [now];
    }
  }

  /** A worker left idle means that no source is ready. */
  ghost predicate Exhausted(q: Queue, below: nat, now: nat) {
    (exists w :: 0 <= w < below && w < |q.running| && q.running[w].Idle?) ==> ReadySet(q, now) == {}
  }

  lemma {:induction false} ScanRunning(q: Queue, l: Limits, worker: nat, round: seq<string>, now: nat)
    requires worker < |q.running|
    requires forall k :: k in round ==> k in q.sources
    ensures var s := Scan(q, l, worker, round, now);
            && (s.pick == None ==> s.queue.running == q.running)
            && (s.pick.Some? ==> exists job :: s.queue.running == q.running[worker := Busy(job)])
    decreases |round|
  {
    hide Ask;
    if round != [] {
      var key := round[0];
      if !Ready(q.sources[key], now) {
        ScanRunning(q, l, worker, round[1..], now);
      } else {
        var (l', delay) := Ask(l, q.sources[key].waiting[0].source, now);
        if delay > 0 {
          ScanRunning(Refuse(q, key, now + delay), l', worker, round[1..], now);
        }
      }
    }
  }

  lemma DecideExhausts(q: Queue, l: Limits, worker: nat, now: nat)
    requires worker < |q.running| && q.running[worker].Idle? && Exhausted(q, worker, now)
    ensures Exhausted(Decide(q, l, worker, now).queue, worker + 1, now)
  {
    hide Scan;
    hide SortedKeys;
    hide RoundFrom;
    var keys := SortedKeys(q.sources.Keys);
    var round := RoundFrom(keys, q.lastSource);
    RoundKeys(keys, q.lastSource);
    ScanChoice(q, l, worker, round, now);
    ScanRunning(q, l, worker, round, now);
    var s := Scan(q, l, worker, round, now);
    if s.pick.Some? {
      assert s.pick.value in ReadySet(q, now);
    } else {
      assert ReadySet(s.queue, now) == {};
    }
  }

  // ------------------------------------------------------------------- runs

  /** Everything a run keeps of the queue itself. */
  ghost predicate Sane(q: Queue) {
    && Valid(q)
    && (forall source :: Fated(q, source))
    && Chained(q.decisions, q.lastSource)
  }

  /** Jobs the callbacks of the expired requests enqueue, in turn. */
  ghost function EnqueueAll(q: Queue, jobs: seq<Job>): Queue
    decreases |jobs|
  {
    if jobs == [] then q else EnqueueAll(Enqueue(q, jobs[0]).0, jobs[1..])
  }

  ghost function Callbacks(expired: seq<Job>, asks: map<nat, seq<Job>>): seq<Job> {
    if expired == [] then []
    else (if expired[0].id in asks then asks[expired[0].id] else []) + Callbacks(expired[1..], asks)
  }

  /** Jobs that expired since the log had length `from`. */
  ghost function ExpiredSince(fates: seq<Fate>, from: nat): seq<Job> {
    if |fates| <= from then []
    else
      var f := fates[|fates| - 1];
      ExpiredSince(fates[..|fates| - 1], from) + if f.Expired? then [f.job] else []
  }

  /** `Pump`: prune, run the expiry callbacks, then give work to idle workers.
      `asks` says what the callback of each connection enqueues. */
  ghost function Pump(q: Queue, l: Limits, now: nat, alive: set<nat>, asks: map<nat, seq<Job>>): (Queue, Limits)
    requires Valid(q)
  {
    var pruned := Prune(q, now, alive);
    var q' := EnqueueAll(pruned, Callbacks(ExpiredSince(pruned.fates, |q.fates|), asks));
    Schedule(q', l, 0, now)
  }

  datatype Event =
    | Submit(job: Job)
    | Abandon(id: nat)
    | Finish(worker: nat)
    | Turn(alive: set<nat>, asks: map<nat, seq<Job>>)

  /** An event and the instant at which it happens. */
  datatype Timed = Timed(event: Event, at: nat)

  ghost predicate InOrder(events: seq<Timed>) {
    forall i, j :: 0 <= i < j < |events| ==> events[i].at <= events[j].at
  }

  function EndOf(events: seq<Timed>): nat {
    if events == [] then 0 else events[|events| - 1].at
  }

  ghost function Step(q: Queue, l: Limits, e: Timed): (Queue, Limits)
    requires Valid(q)
  {
    match e.event
    case Submit(job) => (Enqueue(q, job).0, l)
    case Abandon(id) => (Cancel(q, id), l)
    case Finish(worker) => (Complete(q, worker).0, l)
    case Turn(alive, asks) => Pump(q, l, e.at, alive, asks)
  }

  lemma {:induction false} EnqueueAllKeeps(q: Queue, jobs: seq<Job>, l: Limits, now: nat)
    requires Sane(q) && forall s :: Metered(q.fates, l, s, now)
    ensures Sane(EnqueueAll(q, jobs)) && forall s :: Metered(EnqueueAll(q, jobs).fates, l, s, now)
    decreases |jobs|
  {
    hide Sane;
    hide Metered;
    if jobs != [] {
      EnqueueKeeps(q, jobs[0], l, now);
      EnqueueAllKeeps(Enqueue(q, jobs[0]).0, jobs[1..], l, now);
    }
  }

  lemma EnqueueKeeps(q: Queue, asked: Job, l: Limits, now: nat)
    requires Sane(q) && forall s :: Metered(q.fates, l, s, now)
    ensures var r := Enqueue(q, asked).0;
            Sane(r) && forall s :: Metered(r.fates, l, s, now)
  {
    hide Valid;
    hide Fated;
    hide Chained;
    hide Metered;
    var r := Enqueue(q, asked).0;
    EnqueueValid(q, asked);
    var job := asked.(source := SourceKey(asked.source));
    forall s
      ensures Fated(r, s) && Metered(r.fates, l, s, now)
    {
      if r.fates != q.fates {
        FatedAccept(q, job, s);
        StartTimesSnoc(q.fates, Accepted(job), s);
        MeteredSame(q.fates, r.fates, l, s, now);
      } else {
        FatedSame(q, r, s);
      }
    }
  }

  lemma MeteredSame(fates: seq<Fate>, fates': seq<Fate>, l: Limits, source: string, now: nat)
    requires Metered(fates, l, source, now) && StartTimes(fates', source) == StartTimes(fates, source)
    ensures Metered(fates', l, source, now)
  {
    hide Paced;
  }

  lemma {:induction false} ScheduleKeeps(q: Queue, l: Limits, worker: nat, now: nat)
    requires worker <= |q.running| && Sane(q) && forall s :: Metered(q.fates, l, s, now)
    requires Exhausted(q, worker, now)
    ensures var (r, l') := Schedule(q, l, worker, now);
            && Sane(r) && |r.running| == |q.running| && Exhausted(r, |r.running|, now)
            && forall s :: Metered(r.fates, l', s, now)
    decreases |q.running| - worker
  {
    hide Sane;
    hide Metered;
    hide ReadySet;
    hide Decide;
    if worker < |q.running| {
      assert Valid(q) by {
        SaneValid(q);
      }
      if q.running[worker].Busy? {
        ScheduleKeeps(q, l, worker + 1, now);
      } else {
        var s := Decide(q, l, worker, now);
        DecideKeeps(q, l, worker, now);
        DecideExhausts(q, l, worker, now);
        ScheduleKeeps(s.queue, s.limits, worker + 1, now);
      }
    }
  }

  lemma SaneValid(q: Queue)
    requires Sane(q)
    ensures Valid(q)
  {
  }

  lemma DecideKeeps(q: Queue, l: Limits, worker: nat, now: nat)
    requires worker < |q.running| && q.running[worker].Idle?
    requires Sane(q) && forall s :: Metered(q.fates, l, s, now)
    ensures var d := Decide(q, l, worker, now);
            && Sane(d.queue) && |d.queue.running| == |q.running|
            && forall s :: Metered(d.queue.fates, d.limits, s, now)
  {
    hide Valid;
    hide Fated;
    hide Chained;
    hide Metered;
    hide Scan;
    var keys := SortedKeys(q.sources.Keys);
    var round := RoundFrom(keys, q.lastSource);
    RoundKeys(keys, q.lastSource);
    var scanned := Scan(q, l, worker, round, now);
    var d := Decide(q, l, worker, now);
    DecideValid(q, l, worker, now);
    DecideChained(q, l, worker, now);
    forall s
      ensures Fated(d.queue, s) && Metered(d.queue.fates, d.limits, s, now)
    {
      ScanFated(q, l, worker, round, now, s);
      FatedSame(scanned.queue, d.queue, s);
      ScanMetered(q, l, worker, round, now, s);
    }
  }

  lemma CancelKeeps(q: Queue, keys: seq<string>, id: nat, source: string)
    requires Valid(q) && Fated(q, source)
    requires forall k :: k in keys ==> k in q.sources && q.sources[k].outstanding > 0
    ensures var r := CancelIn(q, keys, id);
            && Valid(r) && Fated(r, source)
            && r.decisions == q.decisions && r.lastSource == q.lastSource
            && StartTimes(r.fates, source) == StartTimes(q.fates, source)
    decreases |keys|
  {
    hide Fated;
    hide Valid;
    hide Drop;
    if keys != [] {
      var i := Find(q.sources[keys[0]].waiting, id);
      if i < |q.sources[keys[0]].waiting| {
        DropEffect(q, keys[0], i, false, source);
      } else {
        CancelKeeps(q, keys[1..], id, source);
      }
    }
  }

  lemma CompleteKeeps(q: Queue, worker: nat, source: string)
    requires Valid(q) && Fated(q, source)
    ensures var r := Complete(q, worker).0;
            && Valid(r) && Fated(r, source)
            && r.decisions == q.decisions && r.lastSource == q.lastSource && r.fates == q.fates
  {
    hide Fated;
    if Complete(q, worker).1 {
      var job := q.running[worker].job;
      FreeValid(q, worker);
      LoadPositive(q.running, job.source);
      FatedSame(q, Free(q, worker), source);
    }
  }

  lemma PruneKeeps(q: Queue, l: Limits, now: nat, alive: set<nat>)
    requires Sane(q) && forall s :: Metered(q.fates, l, s, now)
    ensures Sane(Prune(q, now, alive)) && forall s :: Metered(Prune(q, now, alive).fates, l, s, now)
  {
    hide Valid;
    hide Fated;
    hide Chained;
    hide Metered;
    hide Prune;
    SaneValid(q);
    var r := Prune(q, now, alive);
    forall s
      ensures Fated(r, s) && Metered(r.fates, l, s, now) && r.decisions == q.decisions && r.lastSource == q.lastSource
    {
      PruneEffect(q, now, alive, s);
      MeteredSame(q.fates, r.fates, l, s, now);
    }
    assert PruneFrame(q, r, "") by {
      PruneEffect(q, now, alive, "");
    }
  }

  /** `Pump` never leaves a worker idle while a source has work it may start. */
  lemma PumpWorks(q: Queue, l: Limits, now: nat, alive: set<nat>, asks: map<nat, seq<Job>>)
    requires Sane(q) && forall s :: Metered(q.fates, l, s, now)
    ensures var (r, l') := Pump(q, l, now, alive, asks);
            && Sane(r)
            && (forall s :: Metered(r.fates, l', s, now))
            && ((exists w :: 0 <= w < |r.running| && r.running[w].Idle?) ==>
                  forall s :: s in r.sources ==> r.sources[s].waiting == [] || now < r.sources[s].notBefore)
  {
    hide Sane;
    hide Metered;
    hide Prune;
    hide Schedule;
    hide EnqueueAll;
    SaneValid(q);
    var pruned := Prune(q, now, alive);
    PruneKeeps(q, l, now, alive);
    var jobs := Callbacks(ExpiredSince(pruned.fates, |q.fates|), asks);
    EnqueueAllKeeps(pruned, jobs, l, now);
    var q' := EnqueueAll(pruned, jobs);
    ScheduleKeeps(q', l, 0, now);
    var (r, l') := Schedule(q', l, 0, now);
    if exists w :: 0 <= w < |r.running| && r.running[w].Idle? {
      forall s | s in r.sources
        ensures r.sources[s].waiting == [] || now < r.sources[s].notBefore
      {
        assert s !in ReadySet(r, now);
      }
    }
  }

  lemma AbandonKeeps(q: Queue, l: Limits, id: nat, now: nat)
    requires Sane(q) && forall s :: Metered(q.fates, l, s, now)
    ensures Sane(Cancel(q, id)) && forall s :: Metered(Cancel(q, id).fates, l, s, now)
  {
    hide Valid;
    hide Fated;
    hide Chained;
    hide Metered;
    hide CancelIn;
    hide SortedKeys;
    var r := Cancel(q, id);
    ValidOutstanding(q);
    forall s
      ensures Valid(r) && Fated(r, s) && Metered(r.fates, l, s, now)
      ensures r.decisions == q.decisions && r.lastSource == q.lastSource
    {
      CancelKeeps(q, SortedKeys(q.sources.Keys), id, s);
      MeteredSame(q.fates, r.fates, l, s, now);
    }
    assert Metered(r.fates, l, "", now);
  }

  lemma FinishKeeps(q: Queue, l: Limits, worker: nat, now: nat)
    requires Sane(q) && forall s :: Metered(q.fates, l, s, now)
    ensures Sane(Complete(q, worker).0) && forall s :: Metered(Complete(q, worker).0.fates, l, s, now)
  {
    hide Valid;
    hide Fated;
    hide Chained;
    hide Metered;
    hide Complete;
    var r := Complete(q, worker).0;
    forall s
      ensures Valid(r) && Fated(r, s)
      ensures r.decisions == q.decisions && r.lastSource == q.lastSource && r.fates == q.fates
    {
      CompleteKeeps(q, worker, s);
    }
    assert Fated(r, "");
  }

  lemma StepKeeps(q: Queue, l: Limits, e: Timed)
    requires Sane(q) && forall s :: Metered(q.fates, l, s, e.at)
    ensures var (r, l') := Step(q, l, e);
            Sane(r) && forall s :: Metered(r.fates, l', s, e.at)
  {
    hide Sane;
    hide Metered;
    hide Pump;
    hide Cancel;
    hide Complete;
    hide Enqueue;
    SaneValid(q);
    match e.event {
      case Submit(job) => EnqueueKeeps(q, job, l, e.at);
      case Abandon(id) => AbandonKeeps(q, l, id, e.at);
      case Finish(worker) => FinishKeeps(q, l, worker, e.at);
      case Turn(alive, asks) => PumpWorks(q, l, e.at, alive, asks);
    }
  }

  lemma ValidOutstanding(q: Queue)
    requires Valid(q)
    ensures forall k :: k in q.sources ==> q.sources[k].outstanding > 0
  {
    forall k | k in q.sources
      ensures q.sources[k].outstanding > 0
    {
      assert Held(q, k);
    }
  }

  lemma NewQueueSane(workers: nat, capacity: nat, sourceCapacity: nat, limit: nat)
    requires 0 < workers && 0 < capacity && 0 < sourceCapacity && 0 < limit
    ensures Sane(NewQueue(workers, capacity, sourceCapacity))
    ensures forall s :: Metered([], Limits(limit, map[], 0), s, 0)
  {
    var q := NewQueue(workers, capacity, sourceCapacity);
    NoneActive(q.running);
    assert Valid(q) by {
      assert forall id :: !IsWaiting(q, id) && !IsRunning(q, id);
    }
    forall source
      ensures Fated(q, source)
    {
      var b := LedgerOf(q, source);
      assert Embeds(b.started + b.waiting, b.accepted, []);
    }
    forall s
      ensures Metered([], Limits(limit, map[], 0), s, 0)
    {
      assert Paced(Limits(limit, map[], 0), s, Pace([], []), 0);
    }
  }

  lemma {:induction false} NoneActive(running: seq<Slot>)
    requires forall w :: 0 <= w < |running| ==> running[w].Idle?
    ensures Active(running) == 0
  {
    if running != [] {
      NoneActive(running[1..]);
    }
  }

  /** The queue and its limiter after the events, from an empty start. */
  datatype Start0 = Start0(workers: nat, capacity: nat, sourceCapacity: nat, limit: nat)

  ghost predicate Positive(c: Start0) {
    0 < c.workers && 0 < c.capacity && 0 < c.sourceCapacity && 0 < c.limit
  }

  ghost function Run(c: Start0, events: seq<Timed>): (r: (Queue, Limits))
    requires Positive(c) && InOrder(events)
    ensures Sane(r.0)
    ensures forall s :: Metered(r.0.fates, r.1, s, EndOf(events))
  {
    if events == [] then
      NewQueueSane(c.workers, c.capacity, c.sourceCapacity, c.limit);
      (NewQueue(c.workers, c.capacity, c.sourceCapacity), Limits(c.limit, map[], 0))
    else
      var before := events[..|events| - 1];
      var e := events[|events| - 1];
      var (q, l) := Run(c, before);
      var now := EndOf(before);
      MeteredLater(q.fates, l, now, e.at);
      StepKeeps(q, l, e);
      SaneValid(q);
      Step(q, l, e)
  }

  lemma MeteredLater(fates: seq<Fate>, l: Limits, now: nat, later: nat)
    requires now <= later && forall s :: Metered(fates, l, s, now)
    ensures forall s :: Metered(fates, l, s, later)
  {
    hide Paced;
    forall s
      ensures Metered(fates, l, s, later)
    {
      assert Metered(fates, l, s, now);
      var p :| Paced(l, s, p, now) && p.at == StartTimes(fates, s);
      PacedLater(l, s, p, now, later);
    }
  }

  // ---------------------------------------------------------- main results

  /** Conservation over every run: `ids` is what waits plus what runs, both
      capacities hold, and every accepted job is accounted for once. */
  lemma RunConserves(c: Start0, events: seq<Timed>, source: string)
    requires Positive(c) && InOrder(events)
    ensures var q := Run(c, events).0;
            && Partition(q) && |q.ids| <= q.capacity
            && q.stats.accepted == (|q.ids| - Active(q.running)) + q.stats.started + q.stats.expired + q.stats.canceled
            && q.stats.started == q.stats.completed + Active(q.running)
            && (source in q.sources ==>
                  && q.sources[source].outstanding == |q.sources[source].waiting| + Load(q.running, source)
                  && 0 < q.sources[source].outstanding <= q.sourceCapacity)
            && multiset(Jobs(q.fates, WasAccepted, source))
               == multiset(Waiting(q.sources, source)) + multiset(Jobs(q.fates, WasStarted, source))
                  + multiset(Jobs(q.fates, WasExpired, source)) + multiset(Jobs(q.fates, WasCanceled, source))
  {
    var q := Run(c, events).0;
    assert Fated(q, source);
    assert Held(q, source);
  }

  /** Jobs of one source start in the order in which they were accepted. */
  lemma RunStartsInOrder(c: Start0, events: seq<Timed>, source: string)
    requires Positive(c) && InOrder(events)
    ensures var q := Run(c, events).0;
            Subsequence(Jobs(q.fates, WasStarted, source) + Waiting(q.sources, source), Jobs(q.fates, WasAccepted, source))
  {
    assert Fated(Run(c, events).0, source);
  }

  /** Round-robin fairness over every run, as sources appear and vanish. */
  lemma RunFair(c: Start0, events: seq<Timed>, i: nat, j: nat, x: string)
    requires Positive(c) && InOrder(events)
    requires i <= j < |Run(c, events).0.decisions|
    requires forall k :: i <= k <= j ==> x in Run(c, events).0.decisions[k].open
    requires forall k :: i <= k < j ==> Run(c, events).0.decisions[k].pick != Some(x)
    ensures var ds := Run(c, events).0.decisions;
            forall a, b :: i <= a < b <= j ==> ds[a].pick.Some? && ds[b].pick.Some? && ds[a].pick != ds[b].pick
  {
    var q := Run(c, events).0;
    Fairness(q.decisions, q.lastSource, i, j, x);
  }

  /** No minute of any run starts more than twice the limit of jobs of a source. */
  lemma RunPaced(c: Start0, events: seq<Timed>, source: string, from: nat)
    requires Positive(c) && InOrder(events)
    ensures InMinute(StartTimes(Run(c, events).0.fates, source), from) <= 2 * c.limit
  {
    var (q, l) := Run(c, events);
    var now := EndOf(events);
    assert Metered(q.fates, l, source, now);
    var p :| Paced(l, source, p, now) && p.at == StartTimes(q.fates, source);
    MinuteBound(l, source, p, now, from);
    RunLimit(c, events);
  }

  lemma {:induction false} RunLimit(c: Start0, events: seq<Timed>)
    requires Positive(c) && InOrder(events)
    ensures Run(c, events).1.limit == c.limit
  {
    hide Valid;
    hide Sane;
    hide Metered;
    hide Prune;
    hide EnqueueAll;
    hide Schedule;
    hide Cancel;
    hide Enqueue;
    hide Complete;
    if events != [] {
      RunLimit(c, events[..|events| - 1]);
      var (q, l) := Run(c, events[..|events| - 1]);
      var e := events[|events| - 1];
      match e.event {
        case Submit(_) =>
        case Abandon(_) =>
        case Finish(_) =>
        case Turn(alive, asks) =>
          SaneValid(q);
          var pruned := Prune(q, e.at, alive);
          ScheduleLimit(EnqueueAll(pruned, Callbacks(ExpiredSince(pruned.fates, |q.fates|), asks)), l, 0, e.at);
      }
    }
  }

  lemma {:induction false} ScheduleLimit(q: Queue, l: Limits, worker: nat, now: nat)
    requires worker <= |q.running|
    ensures Schedule(q, l, worker, now).1.limit == l.limit
    decreases |q.running| - worker
  {
    if worker < |q.running| {
      if q.running[worker].Busy? {
        ScheduleLimit(q, l, worker + 1, now);
      } else {
        var round := RoundFrom(SortedKeys(q.sources.Keys), q.lastSource);
        ScanShape(q, l, worker, round, now);
        ScanLimit(q, l, worker, round, now);
        var s := Decide(q, l, worker, now);
        ScheduleLimit(s.queue, s.limits, worker + 1, now);
      }
    }
  }

  lemma {:induction false} ScanLimit(q: Queue, l: Limits, worker: nat, round: seq<string>, now: nat)
    requires worker < |q.running|
    requires forall k :: k in round ==> k in q.sources
    ensures Scan(q, l, worker, round, now).limits.limit == l.limit
    decreases |round|
  {
    if round != [] {
      var key := round[0];
      if !Ready(q.sources[key], now) {
        ScanLimit(q, l, worker, round[1..], now);
      } else {
        var (l', delay) := Ask(l, q.sources[key].waiting[0].source, now);
        if delay > 0 {
          ScanLimit(Refuse(q, key, now + delay), l', worker, round[1..], now);
        }
      }
    }
  }
}
