/** The failure budget of `DeviceAuthLimiter` over whole runs: which failures of
    a key count together, told from the failures alone, and that too many in a
    quarter of an hour shut the key out. */
module AuthBudget {
  import opened AuthSpec
  import opened AuthRuns

  // ------------------------------------------------------- failures and windows

  /** The failures of a key since it was last cleared, in order. */
  ghost function Lost(c: Config, events: seq<Timed>, source: bool, key: string): seq<nat>
    requires Positive(c) && InOrder(events)
  {
    if events == [] then []
    else
      var before, e := events[..|events| - 1], events[|events| - 1];
      LostAfter(DimOf(Run(c, before), source), Lost(c, before, source, key), e, source, key)
  }

  /** A check fails, and its key was not cleared since it began. */
  ghost predicate Fails(d: Dim, e: Timed, key: string) {
    e.event.Finished? && !e.event.ok && e.event.id in d.holds && d.holds[e.event.id].key == key && e.event.id !in d.stale
  }

  ghost function LostAfter(d: Dim, at: seq<nat>, e: Timed, source: bool, key: string): seq<nat> {
    if Fails(d, e, key) then at + [e.at]
    else if e.event.Cleared? && key in (if source then e.event.sources else e.event.targets) then []
    else at
  }

  /** Among the failures up to `i`, how many share the window of the last. */
  ghost function Rank(start: seq<nat>, i: nat): nat
    requires i < |start|
  {
    if i > 0 && start[i - 1] == start[i] then Rank(start, i - 1) + 1 else 1
  }

  /** The cooldown after the k-th failure beyond the limit. */
  ghost function Pause(policy: Policy, k: nat): nat {
    if policy == Fixed then 900 else Step(k)
  }

  /** How long the failures are remembered after a cooldown. */
  ghost function Memory(policy: Policy): nat {
    if policy == Fixed then 0 else 1800
  }

  /** The window of failure `i` is over at `w`: 900 seconds after it began or, if
      it reached the limit, when its cooldown is over and forgotten. */
  ghost predicate Over(limit: nat, policy: Policy, at: seq<nat>, start: seq<nat>, i: nat, w: nat)
    requires i < |at| == |start|
  {
    && start[i] + 900 <= w
    && (Rank(start, i) >= limit ==> at[i] + Pause(policy, Rank(start, i) - limit) + Memory(policy) <= w)
  }

  /** Windows do not overlap, and hold their failures up to the limit. */
  ghost predicate Spread(limit: nat, policy: Policy, at: seq<nat>, start: seq<nat>) {
    && |at| == |start|
    && (forall i, j :: 0 <= i < j < |at| ==> at[i] <= at[j])
    && (forall i :: 0 <= i < |at| ==> start[i] <= at[i])
    && (forall i :: 0 <= i < |at| && Rank(start, i) <= limit ==> at[i] < start[i] + 900)
    && (forall i, j :: 0 <= i < j < |at| ==> start[i] == start[j] || Over(limit, policy, at, start, i, start[j]))
  }

  lemma {:induction false} RankSnoc(start: seq<nat>, w: nat, i: nat)
    requires i < |start|
    ensures Rank(start + [w], i) == Rank(start, i)
  {
    if i > 0 && start[i - 1] == start[i] {
      RankSnoc(start, w, i - 1);
    }
  }

  /** The window of failure `i` is the stretch of `Rank` failures up to it. */
  lemma {:induction false} RankStretch(start: seq<nat>, i: nat)
    requires i < |start|
    ensures Rank(start, i) <= i + 1
    ensures forall j :: i - Rank(start, i) < j <= i ==> start[j] == start[i]
    ensures Rank(start, i) <= i ==> start[i - Rank(start, i)] != start[i]
  {
    if i > 0 && start[i - 1] == start[i] {
      RankStretch(start, i - 1);
    }
  }

  lemma {:induction false} RankAtLeast(start: seq<nat>, a: nat, i: nat)
    requires a <= i < |start| && forall j :: a <= j <= i ==> start[j] == start[i]
    ensures Rank(start, i) >= i - a + 1
  {
    if a < i {
      RankAtLeast(start, a, i - 1);
    }
  }

  lemma OverAfter(limit: nat, policy: Policy, at: seq<nat>, start: seq<nat>, i: nat, w: nat)
    requires i < |at| == |start| && Over(limit, policy, at, start, i, w)
    ensures start[i] + 900 <= w
  {
  }

  /** A window is not over at one of its failures, nor, once it has reached the
      limit, soon after. */
  lemma NotOver(limit: nat, policy: Policy, at: seq<nat>, start: seq<nat>, i: nat, w: nat)
    requires Spread(limit, policy, at, start) && i < |at|
    requires w <= at[i] || (Rank(start, i) >= limit && w < at[i] + 900)
    ensures !Over(limit, policy, at, start, i, w)
  {
    PauseLong(policy, if Rank(start, i) >= limit then Rank(start, i) - limit else 0);
    hide Step;
  }

  lemma OneWindow(limit: nat, policy: Policy, at: seq<nat>, start: seq<nat>, a: nat, b: nat)
    requires Spread(limit, policy, at, start) && a <= b < |at| && start[b] <= at[a]
    ensures Rank(start, b) >= b - a + 1
  {
    hide Over;
    hide Rank;
    forall i | a <= i <= b
      ensures start[i] == start[b]
    {
      NotOver(limit, policy, at, start, i, start[b]);
    }
    hide Spread;
    RankAtLeast(start, a, b);
  }

  lemma Preceding(limit: nat, policy: Policy, at: seq<nat>, start: seq<nat>, i: nat, j: nat)
    requires Spread(limit, policy, at, start) && i < j < |at| && start[i] != start[j]
    ensures Over(limit, policy, at, start, i, start[j]) && start[i] + 900 <= start[j] <= at[j]
  {
    OverAfter(limit, policy, at, start, i, start[j]);
    hide Over;
  }

  lemma InSequence(limit: nat, policy: Policy, at: seq<nat>, start: seq<nat>, i: nat, j: nat)
    requires Spread(limit, policy, at, start) && i <= j < |at|
    ensures at[i] <= at[j]
  {
    hide Over;
    hide Rank;
  }

  /** Among 2 * limit - 1 failures within 900 seconds one reaches the limit of its
      window, and the last one is in that window. */
  lemma ManyReachLimit(limit: nat, policy: Policy, at: seq<nat>, start: seq<nat>)
    requires 0 < limit && |at| == |start| && Spread(limit, policy, at, start) && 2 * limit - 1 <= |at|
    requires at[|at| - 1] < at[|at| - (2 * limit - 1)] + 900
    ensures Rank(start, |at| - 1) >= limit
  {
    hide Over;
    hide Rank;
    hide Spread;
    var n, a := |at|, |at| - (2 * limit - 1);
    var r := Rank(start, n - 1);
    RankStretch(start, n - 1);
    if r < limit {
      var b := n - r - 1;
      Preceding(limit, policy, at, start, b, n - 1);
      InSequence(limit, policy, at, start, a, b);
      OneWindow(limit, policy, at, start, a, b);
      NotOver(limit, policy, at, start, b, start[n - 1]);
    }
  }

  lemma PauseLong(policy: Policy, k: nat)
    ensures 900 <= Pause(policy, k) + Memory(policy) && 60 <= Pause(policy, k)
  {
    StepPositive(k);
  }

  // ------------------------------------------------------------------ one bucket

  /** The failures before position `p` are over when the window `w` begins, and
      those from `p` on are in it. */
  ghost predicate Split(limit: nat, policy: Policy, at: seq<nat>, start: seq<nat>, p: nat, w: nat) {
    && p <= |at| == |start|
    && (forall i :: 0 <= i < p ==> Over(limit, policy, at, start, i, w))
    && (forall i :: p <= i < |at| ==> start[i] == w)
  }

  /** What a bucket says of the failures of its key: `v.failed` are those in its
      window, which began 900 seconds before it expires until it is locked. */
  ghost predicate Tally(limit: nat, policy: Policy, v: View, at: seq<nat>, start: seq<nat>, now: nat) {
    var m := |v.failed|;
    && m <= |at| && v.failed == at[|at| - m..]
    && Spread(limit, policy, at, start) && (at != [] ==> at[|at| - 1] <= now)
    && (v.f.count < limit ==> 900 <= v.f.expires <= now + 900 && Split(limit, policy, at, start, |at| - m, v.f.expires - 900))
    && (v.f.count == limit ==> limit <= m && 0 < m && Split(limit, policy, at, start, |at| - m, start[|at| - m]))
  }

  /** Without a bucket all failures are over. */
  ghost predicate AllOver(limit: nat, policy: Policy, at: seq<nat>, start: seq<nat>, now: nat) {
    && Spread(limit, policy, at, start) && (at != [] ==> at[|at| - 1] <= now)
    && forall i :: 0 <= i < |at| ==> Over(limit, policy, at, start, i, now)
  }

  /** The ranks within the bucket's window. */
  lemma TallyRanks(limit: nat, policy: Policy, v: View, at: seq<nat>, start: seq<nat>, now: nat, i: nat)
    requires Tally(limit, policy, v, at, start, now) && v.f.count <= limit && |at| - |v.failed| <= i < |at|
    ensures Rank(start, i) == i - (|at| - |v.failed|) + 1
  {
    var p := |at| - |v.failed|;
    RankStretch(start, i);
    RankAtLeast(start, p, i);
    if p > 0 {
      assert Over(limit, policy, at, start, p - 1, start[p]);
    }
  }

  lemma UnlockedOver(limit: nat, policy: Policy, v: View, at: seq<nat>, start: seq<nat>, now: nat, i: nat)
    requires Tally(limit, policy, v, at, start, now) && v.f.count < limit && |v.failed| == v.f.count && v.f.expires <= now
    requires |at| - |v.failed| <= i < |at| && Rank(start, i) == i - (|at| - |v.failed|) + 1
    ensures Over(limit, policy, at, start, i, now)
  {
  }

  /** When a bucket has expired, all its failures are over. */
  lemma ExpiredOver(limit: nat, policy: Policy, v: View, at: seq<nat>, start: seq<nat>, now: nat)
    requires Bucket(limit, policy, v, now) && Tally(limit, policy, v, at, start, now) && v.f.expires <= now
    ensures AllOver(limit, policy, at, start, now)
  {
    hide Reserved;
    hide Spaced;
    hide Over;
    hide Rank;
    var n, p := |at|, |at| - |v.failed|;
    forall i | 0 <= i < n
      ensures Over(limit, policy, at, start, i, now)
    {
      if i < p {
        var w := if v.f.count < limit then v.f.expires - 900 else start[p];
        assert Over(limit, policy, at, start, i, w);
        assert v.f.count == limit ==> w <= at[p] <= now;
        OverLater(limit, policy, at, start, i, w, now);
      } else {
        TallyRanks(limit, policy, v, at, start, now, i);
        if v.f.count == limit {
          LockedOver(limit, policy, v, at, start, now, i);
        } else {
          UnlockedOver(limit, policy, v, at, start, now, i);
        }
      }
    }
  }

  lemma LockedEnds(limit: nat, policy: Policy, v: View, now: nat)
    requires Bucket(limit, policy, v, now) && v.f.count == limit
    ensures 0 < limit <= |v.failed|
    ensures v.f.blockedUntil == v.failed[|v.failed| - 1] + Pause(policy, |v.failed| - limit)
    ensures v.f.expires == v.f.blockedUntil + Memory(policy)
  {
    hide Reserved;
    hide Spaced;
    hide Step;
  }

  lemma BegunBefore(limit: nat, policy: Policy, at: seq<nat>, start: seq<nat>, i: nat)
    requires Spread(limit, policy, at, start) && i < |at|
    ensures start[i] <= at[i]
  {
    hide Over;
    hide Rank;
  }

  lemma LockedOver(limit: nat, policy: Policy, v: View, at: seq<nat>, start: seq<nat>, now: nat, i: nat)
    requires Bucket(limit, policy, v, now) && Tally(limit, policy, v, at, start, now) && v.f.count == limit && v.f.expires <= now
    requires |at| - |v.failed| <= i < |at| && Rank(start, i) == i - (|at| - |v.failed|) + 1
    ensures Over(limit, policy, at, start, i, now)
  {
    hide Bucket;
    hide Step;
    hide Rank;
    hide Split;
    hide Spread;
    SpreadSizes(limit, policy, at, start);
    var n, m, r := |at|, |v.failed|, Rank(start, i);
    LockedEnds(limit, policy, v, now);
    PauseLong(policy, m - limit);
    assert v.failed[m - 1] == at[n - 1];
    InSequence(limit, policy, at, start, i, n - 1);
    BegunBefore(limit, policy, at, start, i);
    if r >= limit {
      StepGrows(r - limit, m - limit);
    }
  }

  lemma {:induction false} StepGrows(a: nat, b: nat)
    requires a <= b
    ensures Step(a) <= Step(b)
  {
    if a < b {
      StepGrows(a, b - 1);
      StepPositive(b - 1);
    }
  }

  lemma FreshTally(limit: nat, policy: Policy, v: View, at: seq<nat>, start: seq<nat>, now: nat)
    requires 0 < limit && AllOver(limit, policy, at, start, now)
    requires |at| == |start| && v.f.count == 0 && v.f.expires == now + 900 && v.failed == []
    ensures Tally(limit, policy, v, at, start, now)
  {
    var w := v.f.expires - 900;
    assert w == now && at[|at|..] == [];
    hide Over;
    hide Spread;
  }

  lemma ResetTally(limit: nat, policy: Policy, v: View, at: seq<nat>, start: seq<nat>, now: nat)
    requires Bucket(limit, policy, v, now) && Tally(limit, policy, v, at, start, now)
    ensures Tally(limit, policy, v.(f := ResetExpired(v.f, now), failed := if v.f.expires > now then v.failed else []), at, start, now)
  {
    if v.f.expires <= now {
      ExpiredOver(limit, policy, v, at, start, now);
      FreshTally(limit, policy, v.(f := ResetExpired(v.f, now), failed := []), at, start, now);
    }
    hide Bucket;
    hide Split;
    hide Spread;
  }

  /** A bucket with neither failures nor reservations may be erased. */
  lemma EmptyOver(limit: nat, policy: Policy, v: View, at: seq<nat>, start: seq<nat>, now: nat)
    requires Tally(limit, policy, v, at, start, now) && v.f.count == 0 && v.failed == [] && 0 < limit
    ensures AllOver(limit, policy, at, start, now)
  {
    hide Over;
    assert Spread(limit, policy, at, start);
    hide Spread;
    forall i | 0 <= i < |at|
      ensures Over(limit, policy, at, start, i, now)
    {
      assert Over(limit, policy, at, start, i, v.f.expires - 900);
      OverLater(limit, policy, at, start, i, v.f.expires - 900, now);
    }
  }

  lemma OverLater(limit: nat, policy: Policy, at: seq<nat>, start: seq<nat>, i: nat, w: nat, now: nat)
    requires i < |at| == |start| && Over(limit, policy, at, start, i, w) && w <= now
    ensures Over(limit, policy, at, start, i, now)
  {
  }

  lemma OverSnoc(limit: nat, policy: Policy, at: seq<nat>, start: seq<nat>, i: nat, w: nat, now: nat, x: nat)
    requires i < |at| == |start| && Over(limit, policy, at, start, i, x)
    ensures Over(limit, policy, at + [now], start + [w], i, x)
  {
    RankSnoc(start, w, i);
  }

  lemma SplitSnoc(limit: nat, policy: Policy, at: seq<nat>, start: seq<nat>, p: nat, w: nat, now: nat)
    requires Split(limit, policy, at, start, p, w)
    ensures Split(limit, policy, at + [now], start + [w], p, w)
  {
    forall i | 0 <= i < p
      ensures Over(limit, policy, at + [now], start + [w], i, w)
    {
      assert Over(limit, policy, at, start, i, w);
      OverSnoc(limit, policy, at, start, i, w, now, w);
    }
    hide Over;
  }

  lemma SpreadSnoc(limit: nat, policy: Policy, at: seq<nat>, start: seq<nat>, p: nat, w: nat, now: nat)
    requires 0 < limit && Spread(limit, policy, at, start) && Split(limit, policy, at, start, p, w)
    requires (at != [] ==> at[|at| - 1] <= now) && w <= now
    requires |at| - p < limit ==> now < w + 900
    ensures Spread(limit, policy, at + [now], start + [w])
  {
    hide Over;
    hide Rank;
    var n := |at|;
    var at', start' := at + [now], start + [w];
    SplitSnoc(limit, policy, at, start, p, w, now);
    forall i, j | 0 <= i < j <= n
      ensures start'[i] == start'[j] || Over(limit, policy, at', start', i, start'[j])
    {
      if j < n && start[i] != start[j] {
        assert Over(limit, policy, at, start, i, start[j]);
        OverSnoc(limit, policy, at, start, i, w, now, start[j]);
      }
    }
    forall i | 0 <= i <= n && Rank(start', i) <= limit
      ensures at'[i] < start'[i] + 900
    {
      if i < n {
        RankSnoc(start, w, i);
      } else {
        RankAtLeast(start', p, n);
      }
    }
    hide Split;
  }

  lemma RecordIs(limit: nat, policy: Policy, v: View, now: nat, op: Operation)
    requires Bucket(limit, policy, v, now)
    ensures var f := Record(v.f, limit, now, op, policy);
            && f.count <= limit && v.f.count <= limit && 0 < limit
            && (f.count < limit ==> v.f.count < limit && f.expires == v.f.expires)
            && (f.count == limit ==> limit <= |v.failed| + 1)
            && (v.f.count < limit ==> |v.failed| == v.f.count) && (v.f.count == limit ==> limit <= |v.failed|)
  {
    hide Reserved;
    hide Spaced;
  }

  lemma RecordTally(limit: nat, policy: Policy, v: View, at: seq<nat>, start: seq<nat>, now: nat, op: Operation)
    requires Bucket(limit, policy, v, now) && Tally(limit, policy, v, at, start, now) && v.f.expires > now
    requires v.f.count == limit ==> policy == Exponential
    ensures exists more :: Tally(limit, policy, v.(f := Record(v.f, limit, now, op, policy), failed := v.failed + [now]), at + [now], more, now)
  {
    hide Bucket;
    hide Spread;
    hide Split;
    hide Record;
    var p := |at| - |v.failed|;
    var f := Record(v.f, limit, now, op, policy);
    assert (at + [now])[p..] == at[p..] + [now];
    SpreadSizes(limit, policy, at, start);
    RecordIs(limit, policy, v, now, op);
    WindowBegan(limit, policy, v, at, start, now);
    var w := if v.f.count < limit then v.f.expires - 900 else start[p];
    assert Split(limit, policy, at, start, p, w);
    SpreadSnoc(limit, policy, at, start, p, w, now);
    SplitSnoc(limit, policy, at, start, p, w, now);
    SplitAt(limit, policy, at + [now], start + [w], p, w);
    assert Tally(limit, policy, v.(f := f, failed := v.failed + [now]), at + [now], start + [w], now);
  }

  lemma SplitAt(limit: nat, policy: Policy, at: seq<nat>, start: seq<nat>, p: nat, w: nat)
    requires Split(limit, policy, at, start, p, w)
    ensures |at| == |start| && (p < |at| ==> start[p] == w)
  {
  }

  lemma WindowBegan(limit: nat, policy: Policy, v: View, at: seq<nat>, start: seq<nat>, now: nat)
    requires Tally(limit, policy, v, at, start, now) && v.f.count <= limit && 0 < limit
    ensures v.f.count < limit ==> v.f.expires - 900 <= now
    ensures v.f.count == limit ==> start[|at| - |v.failed|] <= now
  {
  }

  // --------------------------------------------------------------- one dimension

  ghost predicate Budget(d: Dim, key: string, at: seq<nat>, start: seq<nat>, now: nat) {
    if key in d.table then Tally(d.limit, d.policy, ViewOf(d, key), at, start, now)
    else AllOver(d.limit, d.policy, at, start, now)
  }

  /** The table agrees with the failures of the key. */
  ghost predicate Budgeted(d: Dim, key: string, at: seq<nat>, now: nat) {
    exists start :: Budget(d, key, at, start, now)
  }

  /** Only the count, the expiry and the failures of a bucket matter. */
  lemma TallySame(limit: nat, policy: Policy, v: View, u: View, at: seq<nat>, start: seq<nat>, now: nat)
    requires Tally(limit, policy, v, at, start, now)
    requires u.f.count == v.f.count && u.f.expires == v.f.expires && u.failed == v.failed
    ensures Tally(limit, policy, u, at, start, now)
  {
    hide Split;
    hide Spread;
  }

  lemma BudgetSame(d: Dim, r: Dim, key: string, at: seq<nat>, start: seq<nat>, now: nat)
    requires Budget(d, key, at, start, now) && r.limit == d.limit && r.policy == d.policy
    requires key in r.table <==> key in d.table
    requires key in d.table ==> r.table[key].count == d.table[key].count && r.table[key].expires == d.table[key].expires
    requires FailedAt(r.failed, key) == FailedAt(d.failed, key)
    ensures Budget(r, key, at, start, now)
  {
    if key in d.table {
      TallySame(d.limit, d.policy, ViewOf(d, key), ViewOf(r, key), at, start, now);
    }
    hide Tally;
    hide AllOver;
  }

  lemma BudgetLater(d: Dim, key: string, at: seq<nat>, start: seq<nat>, now: nat, later: nat)
    requires Budget(d, key, at, start, now) && now <= later
    ensures Budget(d, key, at, start, later)
  {
    hide Spread;
    hide Split;
    hide Over;
    if key !in d.table {
      assert |at| == |start| by {
        SpreadSizes(d.limit, d.policy, at, start);
      }
      forall i | 0 <= i < |at|
        ensures Over(d.limit, d.policy, at, start, i, later)
      {
        assert Over(d.limit, d.policy, at, start, i, now);
        OverLater(d.limit, d.policy, at, start, i, now, later);
      }
    }
  }

  lemma SpreadSizes(limit: nat, policy: Policy, at: seq<nat>, start: seq<nat>)
    requires Spread(limit, policy, at, start)
    ensures |at| == |start|
  {
    hide Over;
  }

  lemma TouchBudget(d: Dim, touched: string, key: string, at: seq<nat>, start: seq<nat>, now: nat)
    requires Valid(d, now) && Budget(d, key, at, start, now)
    ensures Budget(Touch(d, touched, now), key, at, start, now)
  {
    AllBuckets(d, now, key);
    hide Valid;
    hide Bucket;
    hide Tally;
    hide AllOver;
    var r := Touch(d, touched, now);
    if touched == key && key in d.table {
      var v := ViewOf(d, key);
      ResetTally(d.limit, d.policy, v, at, start, now);
      TallySame(d.limit, d.policy, v.(f := ResetExpired(v.f, now), failed := if v.f.expires > now then v.failed else []),
                ViewOf(r, key), at, start, now);
    } else {
      BudgetSame(d, r, key, at, start, now);
    }
  }

  lemma GoneBudget(d: Dim, gone: set<string>, key: string, at: seq<nat>, start: seq<nat>, now: nat)
    requires Budget(d, key, at, start, now)
    requires key in gone && key in d.table ==> AllOver(d.limit, d.policy, at, start, now)
    ensures Budget(Without(d, gone), key, at, start, now)
  {
    hide Tally;
    hide AllOver;
    if key !in gone {
      BudgetSame(d, Without(d, gone), key, at, start, now);
    }
  }

  lemma PruneBudget(d: Dim, key: string, at: seq<nat>, start: seq<nat>, now: nat)
    requires Valid(d, now) && Budget(d, key, at, start, now)
    ensures Budget(Prune(d, now), key, at, start, now)
  {
    AllBuckets(d, now, key);
    hide Valid;
    var gone := set k | k in d.table && Prunable(d.table[k], now);
    if key in d.table && key in gone {
      ExpiredOver(d.limit, d.policy, ViewOf(d, key), at, start, now);
    }
    hide Bucket;
    hide Tally;
    hide AllOver;
    GoneBudget(d, gone, key, at, start, now);
  }

  lemma ReserveBudget(d: Dim, id: nat, reserved: string, key: string, at: seq<nat>, start: seq<nat>, now: nat)
    requires Valid(d, now) && Budget(d, key, at, start, now)
    ensures Budget(Reserve(d, id, reserved, now), key, at, start, now)
  {
    var r := Reserve(d, id, reserved, now);
    ValidClosed(d, now);
    assert 0 < d.limit && FailedAt(d.failed, key) == if key in d.table then FailedAt(d.failed, key) else [] by {
      hide Valid;
    }
    hide Valid;
    hide Closed;
    if key == reserved && key !in d.table {
      hide Over;
      SpreadSizes(d.limit, d.policy, at, start);
      FreshTally(d.limit, d.policy, ViewOf(r, key), at, start, now);
    } else {
      BudgetSame(d, r, key, at, start, now);
    }
    hide Tally;
    hide AllOver;
  }

  lemma EraseBudget(d: Dim, erased: string, key: string, at: seq<nat>, start: seq<nat>, now: nat)
    requires Valid(d, now) && Budget(d, key, at, start, now)
    ensures Budget(Erased(d, erased), key, at, start, now)
  {
    AllBuckets(d, now, key);
    hide Valid;
    if key in d.table && d.table[key].count == 0 {
      assert 0 < d.limit && FailedAt(d.failed, key) == [];
      EmptyOver(d.limit, d.policy, ViewOf(d, key), at, start, now);
    }
    hide Bucket;
    hide Tally;
    hide AllOver;
    if erased in d.table && d.table[erased].count == 0 && d.table[erased].pending == 0 {
      GoneBudget(d, {erased}, key, at, start, now);
    }
  }

  /** The check `id` gives its reservation back, and its failure counts when no
      clear came after its beginning. */
  lemma SettleBudget(d: Dim, id: nat, ok: bool, now: nat, op: Operation, key: string, at: seq<nat>, start: seq<nat>)
    requires Valid(d, now) && id in d.holds && Budget(d, key, at, start, now)
    ensures d.holds[id].key in d.table && d.table[d.holds[id].key].pending > 0
    ensures Budgeted(Settled(d, id, ok, now, op), key,
                     if !ok && d.holds[id].key == key && id !in d.stale then at + [now] else at, now)
  {
    HeldPending(d, id, now);
    AllBuckets(d, now, key);
    hide Valid;
    var s := Settled(d, id, ok, now, op);
    if d.holds[id].key == key {
      SettleOwn(d, id, ok, now, op, at, start);
    } else {
      hide Tally;
      hide AllOver;
      BudgetSame(d, s, key, at, start, now);
      hide Budget;
      assert Budget(s, key, at, start, now);
    }
    hide Settled;
    hide Bucket;
    hide Budgeted;
  }

  lemma SettleOwn(d: Dim, id: nat, ok: bool, now: nat, op: Operation, at: seq<nat>, start: seq<nat>)
    requires id in d.holds && d.holds[id].key in d.table && d.table[d.holds[id].key].pending > 0
    requires BucketAt(d, d.holds[id].key, now) && Budget(d, d.holds[id].key, at, start, now)
    ensures Budgeted(Settled(d, id, ok, now, op), d.holds[id].key, if !ok && id !in d.stale then at + [now] else at, now)
  {
    var key := d.holds[id].key;
    var v, s := ViewOf(d, key), Settled(d, id, ok, now, op);
    assert id in v.held && v.held[id] == d.holds[id];
    HoldCurrent(d.limit, d.policy, v, id, now);
    assert id in v.stale <==> id in d.stale;
    ReturnedBucket(d.limit, d.policy, v, id, now);
    var r := Returned(v, id, now);
    var u := v.(f := ResetExpired(v.f, now), failed := if v.f.expires > now then v.failed else []);
    ResetTally(d.limit, d.policy, v, at, start, now);
    TallySame(d.limit, d.policy, u, r, at, start, now);
    ProbedExponential(d.limit, d.policy, r, now);
    hide Tally;
    hide Bucket;
    if !ok && id !in d.stale {
      RecordTally(d.limit, d.policy, r, at, start, now, op);
      var w := r.(f := Record(r.f, d.limit, now, op, d.policy), failed := r.failed + [now]);
      hide Record;
      var more :| Tally(d.limit, d.policy, w, at + [now], more, now);
      TallySame(d.limit, d.policy, w, ViewOf(s, key), at + [now], more, now);
      assert Budget(s, key, at + [now], more, now);
    } else {
      hide Record;
      TallySame(d.limit, d.policy, r, ViewOf(s, key), at, start, now);
      assert Budget(s, key, at, start, now);
    }
  }

  lemma HoldCurrent(limit: nat, policy: Policy, v: View, id: nat, now: nat)
    requires Bucket(limit, policy, v, now) && id in v.held
    ensures v.held[id].generation == v.f.generation <==> id !in v.stale
  {
    hide Locked;
  }

  /** A bucket that is locked and not forgotten after its cooldown. */
  lemma ProbedExponential(limit: nat, policy: Policy, v: View, now: nat)
    requires Bucket(limit, policy, v, now) && v.f.expires > now
    requires v.f.count == limit ==> now >= v.f.blockedUntil
    ensures v.f.count == limit ==> policy == Exponential
  {
    hide Reserved;
    hide Spaced;
    hide Step;
  }

  lemma ReleaseBudget(d: Dim, id: nat, ok: bool, now: nat, op: Operation, key: string, at: seq<nat>, start: seq<nat>)
    requires Valid(d, now) && id in d.holds && Budget(d, key, at, start, now)
    ensures d.holds[id].key in d.table && d.table[d.holds[id].key].pending > 0
    ensures Budgeted(Release(d, id, ok, now, op), key,
                     if !ok && d.holds[id].key == key && id !in d.stale then at + [now] else at, now)
  {
    SettleBudget(d, id, ok, now, op, key, at, start);
    SettledValid(d, id, ok, now, op);
    hide Valid;
    hide Budget;
    var more := if !ok && d.holds[id].key == key && id !in d.stale then at + [now] else at;
    var s := Settled(d, id, ok, now, op);
    hide Settled;
    var begun :| Budget(s, key, more, begun, now);
    EraseBudget(s, d.holds[id].key, key, more, begun, now);
    hide Erased;
    assert Budget(Release(d, id, ok, now, op), key, more, begun, now);
  }

  lemma ClearBudget(d: Dim, keys: set<string>, key: string, at: seq<nat>, start: seq<nat>, now: nat)
    requires Valid(d, now) && Budget(d, key, at, start, now)
    ensures Budgeted(Clear(d, keys, now), key, if key in keys then [] else at, now)
  {
    ValidClosed(d, now);
    hide Valid;
    var r := Clear(d, keys, now);
    if key in keys {
      assert Budget(r, key, [], [], now) by {
        hide Over;
      }
    } else {
      BudgetSame(d, r, key, at, start, now);
    }
    hide Clear;
    hide Budget;
  }

  // ------------------------------------------------------------------- whole runs

  lemma BeginBudget(l: Limiter, id: nat, who: string, whom: string, now: nat, source: bool, key: string, at: seq<nat>, start: seq<nat>)
    requires Good(l, now) && id !in l.sources.holds && Budget(DimOf(l, source), key, at, start, now)
    ensures Budget(DimOf(Begin(l, id, who, whom, now).0, source), key, at, start, now)
  {
    hide Valid;
    hide Budget;
    var own := if source then Key(who) else whom;
    var d := DimOf(l, source);
    SweptGood(l, now);
    PruneBudget(d, key, at, start, now);
    var s := DimOf(Swept(l, now), source);
    TouchBudget(s, own, key, at, start, now);
    TouchValid(s, own, now);
    var t := Touch(s, own, now);
    ReserveBudget(t, id, own, key, at, start, now);
    hide Wait;
    hide Touch;
    hide Prune;
    hide Reserve;
    hide Full;
  }

  lemma NextBudget(l: Limiter, e: Timed, source: bool, key: string, at: seq<nat>)
    requires Good(l, e.at) && Budgeted(DimOf(l, source), key, at, e.at)
    ensures Budgeted(DimOf(Next(l, e), source), key, LostAfter(DimOf(l, source), at, e, source, key), e.at)
  {
    hide Valid;
    hide Budget;
    var d := DimOf(l, source);
    var start :| Budget(d, key, at, start, e.at);
    match e.event {
      case Started(id, who, whom) =>
        if id !in l.sources.holds {
          BeginBudget(l, id, who, whom, e.at, source, key, at, start);
        }
        hide Begin;
      case Finished(id, ok, op) =>
        if id in l.sources.holds {
          ReleaseBudget(d, id, ok, e.at, op, key, at, start);
        }
        hide Release;
      case Cleared(s, t) =>
        ClearBudget(d, if source then s else t, key, at, start, e.at);
        hide Clear;
    }
  }

  lemma {:induction false} RunBudgeted(c: Config, events: seq<Timed>, source: bool, key: string)
    requires Positive(c) && InOrder(events)
    ensures Budgeted(DimOf(Run(c, events), source), key, Lost(c, events, source, key), EndOf(events))
  {
    hide Good;
    hide Next;
    hide Budget;
    hide LostAfter;
    if events == [] {
      FreshBudget(c, source, key);
    } else {
      var before, e := events[..|events| - 1], events[|events| - 1];
      var l, at := Run(c, before), Lost(c, before, source, key);
      RunBudgeted(c, before, source, key);
      var d := DimOf(l, source);
      var start :| Budget(d, key, at, start, EndOf(before));
      BudgetLater(d, key, at, start, EndOf(before), e.at);
      GoodLater(l, EndOf(before), e.at);
      NextBudget(l, e, source, key, at);
    }
  }

  lemma FreshBudget(c: Config, source: bool, key: string)
    ensures Budget(DimOf(Limiter(Fresh(c.sourceLimit, c.policy), Fresh(c.targetLimit, c.policy), 0), source), key, [], [], 0)
  {
    hide Over;
  }

  function LimitOf(c: Config, source: bool): nat {
    if source then c.sourceLimit else c.targetLimit
  }

  /** A check of the key that begins before `until` is refused at least until then. */
  ghost predicate Shut(l: Limiter, source: bool, key: string, from: nat, until: nat) {
    forall id, who, whom, now :: from <= now < until && key == (if source then Key(who) else whom) ==>
      until - now <= Begin(l, id, who, whom, now).1
  }

  ghost predicate Blocked(d: Dim, key: string, until: nat) {
    key in d.table && d.table[key].blockedUntil == until
  }

  lemma OverPause(limit: nat, policy: Policy, at: seq<nat>, start: seq<nat>, i: nat, w: nat)
    requires i < |at| == |start| && Over(limit, policy, at, start, i, w) && Rank(start, i) >= limit
    ensures at[i] + Pause(policy, Rank(start, i) - limit) <= w
  {
    hide Pause;
  }

  lemma ReachedLocked(limit: nat, policy: Policy, v: View, at: seq<nat>, start: seq<nat>, now: nat)
    requires Bucket(limit, policy, v, now) && Tally(limit, policy, v, at, start, now)
    requires |at| == |start| && at != [] && Rank(start, |at| - 1) >= limit
    requires now < at[|at| - 1] + Pause(policy, Rank(start, |at| - 1) - limit)
    ensures v.f.blockedUntil == at[|at| - 1] + Pause(policy, Rank(start, |at| - 1) - limit)
  {
    hide Spread;
    hide Rank;
    hide Over;
    hide Pause;
    hide Bucket;
    var n, w := |at|, v.f.expires - 900;
    UnlockedAhead(limit, policy, v, now);
    if v.failed == [] {
      assert v.f.count < limit;
      assert Over(limit, policy, at, start, n - 1, w);
      OverPause(limit, policy, at, start, n - 1, w);
    } else {
      TallyRanks(limit, policy, v, at, start, now, n - 1);
      LockedEnds(limit, policy, v, now);
      assert v.failed[|v.failed| - 1] == at[n - 1];
    }
  }

  lemma ReachedBlocks(d: Dim, key: string, at: seq<nat>, start: seq<nat>, now: nat)
    requires Valid(d, now) && Budget(d, key, at, start, now)
    requires |at| == |start| && at != [] && Rank(start, |at| - 1) >= d.limit
    requires now < at[|at| - 1] + Pause(d.policy, Rank(start, |at| - 1) - d.limit)
    ensures Blocked(d, key, at[|at| - 1] + Pause(d.policy, Rank(start, |at| - 1) - d.limit))
  {
    hide Over;
    hide Spread;
    hide Bucket;
    hide Tally;
    hide Rank;
    hide Pause;
    AllBuckets(d, now, key);
    hide Valid;
    if key in d.table {
      ReachedLocked(d.limit, d.policy, ViewOf(d, key), at, start, now);
    } else {
      assert Over(d.limit, d.policy, at, start, |at| - 1, now);
      OverPause(d.limit, d.policy, at, start, |at| - 1, now);
    }
  }

  lemma UnlockedAhead(limit: nat, policy: Policy, v: View, now: nat)
    requires Bucket(limit, policy, v, now)
    ensures v.f.count <= limit && 0 < limit
    ensures v.f.count < limit ==> |v.failed| < limit
    ensures v.f.count == limit ==> |v.failed| >= limit
  {
    hide Reserved;
    hide Spaced;
    hide Step;
  }

  lemma BlockedShuts(l: Limiter, source: bool, key: string, from: nat, until: nat)
    requires Good(l, from) && Blocked(DimOf(l, source), key, until)
    ensures Shut(l, source, key, from, until)
  {
    hide Valid;
    forall id, who, whom, now | from <= now < until && key == (if source then Key(who) else whom)
      ensures until - now <= Begin(l, id, who, whom, now).1
    {
      GoodLater(l, from, now);
      hide Good;
      BlockedWaits(l, id, who, whom, now, source, key, until);
      hide Begin;
    }
    hide Begin;
  }

  lemma BlockedWaits(l: Limiter, id: nat, who: string, whom: string, now: nat, source: bool, key: string, until: nat)
    requires Good(l, now) && Blocked(DimOf(l, source), key, until) && now < until
    requires key == if source then Key(who) else whom
    ensures until - now <= Begin(l, id, who, whom, now).1
  {
    BlockedStays(DimOf(l, source), key, now);
    hide Valid;
    hide Touch;
    hide Prune;
    hide Delay;
  }

  lemma LimiterShutsOut(l: Limiter, source: bool, key: string, at: seq<nat>, now: nat)
    requires Good(l, now) && Budgeted(DimOf(l, source), key, at, now) && 0 < DimOf(l, source).limit
    requires var limit := DimOf(l, source).limit;
             2 * limit - 1 <= |at| && at[|at| - 1] < at[|at| - (2 * limit - 1)] + 900
    ensures var d := DimOf(l, source);
            exists k: nat :: d.limit + k <= |at| && Shut(l, source, key, now, at[|at| - 1] + Pause(d.policy, k))
  {
    var d := DimOf(l, source);
    hide Budget;
    hide Pause;
    hide Shut;
    hide Rank;
    hide Valid;
    hide Spread;
    var start :| Budget(d, key, at, start, now);
    BudgetSpread(d, key, at, start, now);
    ManyReachLimit(d.limit, d.policy, at, start);
    RankStretch(start, |at| - 1);
    var k := Rank(start, |at| - 1) - d.limit;
    var until := at[|at| - 1] + Pause(d.policy, k);
    if now < until {
      ReachedBlocks(d, key, at, start, now);
      hide Blocked;
      BlockedShuts(l, source, key, now, until);
    } else {
      AlreadyOpen(l, source, key, now, until);
    }
    assert d.limit + k <= |at| && Shut(l, source, key, now, until);
  }

  /** Over every run: when the last 2 * limit - 1 failures of a key that were not
      cleared came within 900 seconds, the key is shut out: for 900 seconds after
      the last of them or, with exponential backoff, for the rung reached. */
  lemma RunShutsOut(c: Config, events: seq<Timed>, source: bool, key: string)
    requires Positive(c) && InOrder(events)
    requires var at, limit := Lost(c, events, source, key), LimitOf(c, source);
             2 * limit - 1 <= |at| && at[|at| - 1] < at[|at| - (2 * limit - 1)] + 900
    ensures var at, limit := Lost(c, events, source, key), LimitOf(c, source);
            exists k: nat :: limit + k <= |at| && Shut(Run(c, events), source, key, EndOf(events), at[|at| - 1] + Pause(c.policy, k))
  {
    hide Run;
    hide Lost;
    hide Valid;
    hide Budgeted;
    hide Pause;
    hide Shut;
    RunConfig(c, events);
    RunBudgeted(c, events, source, key);
    LimiterShutsOut(Run(c, events), source, key, Lost(c, events, source, key), EndOf(events));
  }

  lemma AlreadyOpen(l: Limiter, source: bool, key: string, from: nat, until: nat)
    requires until <= from
    ensures Shut(l, source, key, from, until)
  {
    hide Begin;
  }

  lemma BudgetSpread(d: Dim, key: string, at: seq<nat>, start: seq<nat>, now: nat)
    requires Budget(d, key, at, start, now)
    ensures Spread(d.limit, d.policy, at, start) && |at| == |start|
  {
    hide Over;
    hide Rank;
  }

  lemma TallyBlocks(limit: nat, policy: Policy, v: View, at: seq<nat>, start: seq<nat>, now: nat) returns (i: nat)
    requires Bucket(limit, policy, v, now) && Tally(limit, policy, v, at, start, now) && v.f.blockedUntil > now
    ensures 0 < limit && i + limit <= |at| && at[i + limit - 1] < at[i] + 900
    ensures v.f.blockedUntil == at[|at| - 1] + Pause(policy, |at| - i - limit)
  {
    UnlockedUnblocked(limit, policy, v, now);
    LockedEnds(limit, policy, v, now);
    hide Bucket;
    i := |at| - |v.failed|;
    TallyRanks(limit, policy, v, at, start, now, i + limit - 1);
    hide Rank;
    hide Over;
    hide Pause;
    assert v.failed[|v.failed| - 1] == at[|at| - 1];
  }

  lemma UnlockedUnblocked(limit: nat, policy: Policy, v: View, now: nat)
    requires Bucket(limit, policy, v, now) && v.f.blockedUntil > now
    ensures v.f.count == limit && 0 < limit
  {
    hide Reserved;
    hide Locked;
  }

  /** Over every run a key is blocked only because of failures: its limit of them
      within 900 seconds, from position `i` on, and the last one less than a
      cooldown ago. */
  lemma RunBlocksOnly(c: Config, events: seq<Timed>, source: bool, key: string)
    requires Positive(c) && InOrder(events)
    requires var d := DimOf(Run(c, events), source);
             key in d.table && d.table[key].blockedUntil > EndOf(events)
    ensures var at, limit := Lost(c, events, source, key), LimitOf(c, source);
            exists i: nat :: i + limit <= |at| && at[i + limit - 1] < at[i] + 900
              && Blocked(DimOf(Run(c, events), source), key, at[|at| - 1] + Pause(c.policy, |at| - i - limit))
  {
    hide Run;
    hide Lost;
    hide Pause;
    hide Bucket;
    hide Tally;
    hide AllOver;
    var d, at, now := DimOf(Run(c, events), source), Lost(c, events, source, key), EndOf(events);
    RunConfig(c, events);
    RunBudgeted(c, events, source, key);
    AllBuckets(d, now, key);
    hide Valid;
    var start :| Budget(d, key, at, start, now);
    var v := ViewOf(d, key);
    var i := TallyBlocks(d.limit, d.policy, v, at, start, now);
    assert i + d.limit <= |at| && at[i + d.limit - 1] < at[i] + 900;
    assert Blocked(d, key, at[|at| - 1] + Pause(c.policy, |at| - i - d.limit));
  }

  // -------------------------------------------------------------------- admission

  /** The failures of the key that are remembered at `now`. */
  ghost function Remembered(d: Dim, key: string, now: nat): seq<nat> {
    if key in d.table && now < d.table[key].expires then FailedAt(d.failed, key) else []
  }

  ghost function InFlight(d: Dim, key: string): set<nat> {
    set id | id in d.holds && d.holds[id].key == key
  }

  /** Below the limit, failures and checks in flight fit together; at the limit,
      nothing is in flight and the cooldown is over. */
  ghost predicate Room(limit: nat, policy: Policy, failed: seq<nat>, busy: nat, now: nat) {
    if |failed| < limit then |failed| + busy < limit
    else busy == 0 && (failed == [] || failed[|failed| - 1] + Pause(policy, |failed| - limit) <= now)
  }

  ghost predicate Welcome(d: Dim, key: string, now: nat) {
    Room(d.limit, d.policy, Remembered(d, key, now), |InFlight(d, key)|, now)
  }

  lemma FlightsPending(d: Dim, key: string, now: nat)
    requires Valid(d, now)
    ensures |InFlight(d, key)| == if key in d.table then d.table[key].pending else 0
  {
    if key in d.table {
      AllBuckets(d, now, key);
      assert ViewOf(d, key).held.Keys == InFlight(d, key);
      assert |ViewOf(d, key).held| == |InFlight(d, key)|;
    } else {
      assert InFlight(d, key) == {};
    }
    hide Locked;
  }

  function DelayOf(f: Failures, limit: nat, now: nat): nat {
    if Remaining(f.blockedUntil, now) > 0 then Remaining(f.blockedUntil, now)
    else if f.pending >= Available(f, limit) then 1 else 0
  }

  lemma DelayIs(d: Dim, key: string, now: nat)
    ensures Delay(Touch(d, key, now).table, d.limit, key, now)
            == if key in d.table then DelayOf(ResetExpired(d.table[key], now), d.limit, now) else 0
    ensures Delay(Touch(Prune(d, now), key, now).table, d.limit, key, now)
            == if key in d.table && !Prunable(d.table[key], now) then DelayOf(ResetExpired(d.table[key], now), d.limit, now) else 0
  {
    hide Available;
    hide ResetExpired;
    hide Prunable;
  }

  lemma DelayRoom(limit: nat, policy: Policy, v: View, now: nat)
    requires Bucket(limit, policy, v, now)
    ensures DelayOf(ResetExpired(v.f, now), limit, now) == 0
            <==> Room(limit, policy, if v.f.expires > now then v.failed else [], v.f.pending, now)
    ensures Prunable(v.f, now) ==> DelayOf(ResetExpired(v.f, now), limit, now) == 0
  {
    UnlockedAhead(limit, policy, v, now);
    if v.f.count == limit {
      LockedEnds(limit, policy, v, now);
    } else {
      UnlockedFree(limit, policy, v, now);
    }
    hide Bucket;
    hide Pause;
  }

  lemma DelayWelcome(d: Dim, key: string, now: nat)
    requires Valid(d, now)
    ensures Delay(Touch(d, key, now).table, d.limit, key, now) == 0 <==> Welcome(d, key, now)
    ensures Delay(Touch(Prune(d, now), key, now).table, d.limit, key, now) == 0 <==> Welcome(d, key, now)
  {
    FlightsPending(d, key, now);
    DelayIs(d, key, now);
    ValidClosed(d, now);
    AllBuckets(d, now, key);
    hide Valid;
    hide Bucket;
    hide InFlight;
    hide DelayOf;
    hide ResetExpired;
    hide Prunable;
    hide Touch;
    hide Prune;
    hide Delay;
    if key in d.table {
      DelayRoom(d.limit, d.policy, ViewOf(d, key), now);
    }
  }

  lemma UnlockedFree(limit: nat, policy: Policy, v: View, now: nat)
    requires Bucket(limit, policy, v, now) && v.f.count < limit
    ensures v.f.blockedUntil == 0 && |v.failed| == v.f.count
  {
    hide Reserved;
    hide Locked;
  }

  ghost predicate Fits(d: Dim, key: string) {
    key in d.table || |d.table| < 16384
  }

  /** A check is admitted exactly when both its keys are welcome, and neither is
      one too many for its table. */
  lemma AdmitsIff(l: Limiter, id: nat, who: string, whom: string, now: nat)
    requires Good(l, now) && id !in l.sources.holds
    ensures Begin(l, id, who, whom, now).1 == 0 <==>
              && Welcome(l.sources, Key(who), now) && Welcome(l.targets, whom, now)
              && Fits(Swept(l, now).sources, Key(who)) && Fits(Swept(l, now).targets, whom)
  {
    DelayWelcome(l.sources, Key(who), now);
    DelayWelcome(l.targets, whom, now);
    TouchFull(Swept(l, now).sources, Key(who), now);
    TouchFull(Swept(l, now).targets, whom, now);
    hide Valid;
    hide Touch;
    hide Prune;
    hide Delay;
    hide Welcome;
    hide Full;
    hide Fits;
  }

  lemma TouchFull(d: Dim, key: string, now: nat)
    ensures Full(Touch(d, key, now).table, key) <==> !Fits(d, key)
  {
  }

  // -------------------------------------------------------------- what is remembered

  /** The bucket of check `id` after it finished, unless it is empty. */
  ghost function LeftBy(d: Dim, id: nat, ok: bool, now: nat, op: Operation): Failures
    requires id in d.holds && d.holds[id].key in d.table && d.table[d.holds[id].key].pending > 0
  {
    var f := d.table[d.holds[id].key];
    var reset := ResetExpired(f.(pending := f.pending - 1), now);
    if !ok && f.generation == d.holds[id].generation then Record(reset, d.limit, now, op, d.policy) else reset
  }

  lemma ReleaseIs(d: Dim, id: nat, ok: bool, now: nat, op: Operation)
    requires id in d.holds && d.holds[id].key in d.table && d.table[d.holds[id].key].pending > 0
    ensures var left, key := LeftBy(d, id, ok, now, op), d.holds[id].key;
            Release(d, id, ok, now, op).table == if left.count == 0 && left.pending == 0 then d.table - {key} else d.table[key := left]
  {
    hide ResetExpired;
    hide Record;
    var key, s := d.holds[id].key, Settled(d, id, ok, now, op);
    assert s.table == d.table[key := LeftBy(d, id, ok, now, op)];
    hide Settled;
    assert s.table - {key} == d.table - {key};
  }

  lemma LeftByIs(limit: nat, policy: Policy, v: View, now: nat, op: Operation)
    requires Bucket(limit, policy, v, now) && v.f.pending > 0
    ensures var reset := ResetExpired(v.f.(pending := v.f.pending - 1), now);
            && reset.pending == v.f.pending - 1
            && (reset.count == 0 <==> v.f.expires <= now || v.failed == [])
            && Record(reset, limit, now, op, policy).count > 0
            && Record(reset, limit, now, op, policy).pending == v.f.pending - 1
  {
    UnlockedAhead(limit, policy, v, now);
    if v.f.count < limit {
      UnlockedFree(limit, policy, v, now);
    }
    hide Bucket;
  }

  lemma LeftByCases(d: Dim, id: nat, ok: bool, now: nat, op: Operation)
    requires id in d.holds && d.holds[id].key in d.table && d.table[d.holds[id].key].pending > 0
    ensures var f := d.table[d.holds[id].key];
            var reset := ResetExpired(f.(pending := f.pending - 1), now);
            LeftBy(d, id, ok, now, op) == if !ok && f.generation == d.holds[id].generation then Record(reset, d.limit, now, op, d.policy) else reset
  {
    hide Record;
    hide ResetExpired;
  }

  lemma InFlightHas(d: Dim, id: nat)
    requires id in d.holds
    ensures id in InFlight(d, d.holds[id].key)
  {
  }

  /** A bucket outlives a finished check exactly when another check of its key is
      in flight or failures are remembered. */
  lemma FinishLeaves(d: Dim, id: nat, ok: bool, now: nat, op: Operation)
    requires Valid(d, now) && id in d.holds
    ensures d.holds[id].key in d.table && d.table[d.holds[id].key].pending > 0
    ensures var key := d.holds[id].key;
            key in Release(d, id, ok, now, op).table <==>
              InFlight(d, key) != {id} || Remembered(d, key, now) != [] || (!ok && id !in d.stale)
  {
    hide Bucket;
    hide Release;
    hide LeftBy;
    hide InFlight;
    var key := d.holds[id].key;
    HeldPending(d, id, now);
    AllBuckets(d, now, key);
    FlightsPending(d, key, now);
    hide Valid;
    var v := ViewOf(d, key);
    HoldCurrent(d.limit, d.policy, v, id, now);
    assert id in v.stale <==> id in d.stale;
    ReleaseIs(d, id, ok, now, op);
    LeftByIs(d.limit, d.policy, v, now, op);
    LeftByCases(d, id, ok, now, op);
    InFlightHas(d, id);
    if |InFlight(d, key)| == 1 {
      OnlyOne(InFlight(d, key), id);
    }
    hide Record;
    hide ResetExpired;
  }

  lemma OnlyOne(s: set<nat>, x: nat)
    requires x in s && |s| == 1
    ensures s == {x}
  {
    assert |s - {x}| == 0;
  }

  /** Idle buckets are swept at most a minute after they expire. */
  ghost predicate Brief(d: Dim, nextCleanup: nat) {
    forall key :: key in d.table && d.table[key].pending == 0 ==> nextCleanup < d.table[key].expires + 60
  }

  ghost predicate Tidy(l: Limiter, now: nat) {
    l.nextCleanup <= now + 60 && Brief(l.sources, l.nextCleanup) && Brief(l.targets, l.nextCleanup)
  }

  lemma PruneBrief(d: Dim, now: nat)
    ensures Brief(Prune(d, now), now + 60)
  {
  }

  lemma TouchBrief(d: Dim, key: string, now: nat, nextCleanup: nat)
    requires Brief(d, nextCleanup) && nextCleanup <= now + 60
    ensures Brief(Touch(d, key, now), nextCleanup)
  {
  }

  lemma ReserveBrief(d: Dim, id: nat, key: string, now: nat, nextCleanup: nat)
    requires Brief(d, nextCleanup)
    ensures Brief(Reserve(d, id, key, now), nextCleanup)
  {
  }

  lemma ReleaseBrief(d: Dim, id: nat, ok: bool, now: nat, op: Operation, nextCleanup: nat)
    requires Valid(d, now) && id in d.holds && Brief(d, nextCleanup) && nextCleanup <= now + 60
    ensures d.holds[id].key in d.table && d.table[d.holds[id].key].pending > 0
    ensures Brief(Release(d, id, ok, now, op), nextCleanup)
  {
    HeldPending(d, id, now);
    hide Valid;
    var key := d.holds[id].key;
    var reset := ResetExpired(d.table[key].(pending := d.table[key].pending - 1), now);
    assert reset.expires > now && Record(reset, d.limit, now, op, d.policy).expires > now;
    hide Record;
    hide ResetExpired;
  }

  lemma ClearBrief(d: Dim, keys: set<string>, now: nat, nextCleanup: nat)
    requires Brief(d, nextCleanup)
    ensures Brief(Clear(d, keys, now), nextCleanup)
  {
  }

  lemma BeginTidy(l: Limiter, id: nat, who: string, whom: string, now: nat)
    requires Tidy(l, now)
    ensures Tidy(Begin(l, id, who, whom, now).0, now) && now < Begin(l, id, who, whom, now).0.nextCleanup
  {
    hide Brief;
    PruneBrief(l.sources, now);
    PruneBrief(l.targets, now);
    var s := Swept(l, now);
    TouchBrief(s.sources, Key(who), now, s.nextCleanup);
    TouchBrief(s.targets, whom, now, s.nextCleanup);
    var t := Touched(s, who, whom, now);
    ReserveBrief(t.sources, id, Key(who), now, s.nextCleanup);
    ReserveBrief(t.targets, id, whom, now, s.nextCleanup);
    hide Prune;
    hide Touch;
    hide Reserve;
    hide Wait;
    hide Full;
  }

  lemma NextTidy(l: Limiter, e: Timed)
    requires Good(l, e.at) && Tidy(l, e.at)
    ensures Tidy(Next(l, e), e.at)
  {
    hide Valid;
    hide Brief;
    match e.event {
      case Started(id, who, whom) =>
        BeginTidy(l, id, who, whom, e.at);
        hide Begin;
      case Finished(id, ok, op) =>
        if id in l.sources.holds {
          ReleaseBrief(l.sources, id, ok, e.at, op, l.nextCleanup);
          ReleaseBrief(l.targets, id, ok, e.at, op, l.nextCleanup);
        }
        hide Release;
      case Cleared(s, t) =>
        ClearBrief(l.sources, s, e.at, l.nextCleanup);
        ClearBrief(l.targets, t, e.at, l.nextCleanup);
        hide Clear;
    }
  }

  lemma {:induction false} RunTidy(c: Config, events: seq<Timed>)
    requires Positive(c) && InOrder(events)
    ensures Tidy(Run(c, events), EndOf(events))
  {
    hide Good;
    hide Next;
    hide Brief;
    if events == [] {
      FreshBrief(c.sourceLimit, c.policy);
      FreshBrief(c.targetLimit, c.policy);
    } else {
      var before, e := events[..|events| - 1], events[|events| - 1];
      RunTidy(c, before);
      GoodLater(Run(c, before), EndOf(before), e.at);
      NextTidy(Run(c, before), e);
    }
  }

  lemma FreshBrief(limit: nat, policy: Policy)
    ensures Brief(Fresh(limit, policy), 0)
  {
  }

  /** Over every run, when a new check begins, whether it is admitted or not, only
      buckets with checks in flight and those that have not been expired for a
      minute are left in the tables. */
  lemma RunSwept(c: Config, events: seq<Timed>, id: nat, who: string, whom: string, now: nat, source: bool, key: string)
    requires Positive(c) && InOrder(events) && EndOf(events) <= now && id !in Run(c, events).sources.holds
    ensures var d := DimOf(Begin(Run(c, events), id, who, whom, now).0, source);
            key in d.table ==> InFlight(d, key) != {} || now < d.table[key].expires + 60
  {
    var l := Run(c, events);
    RunTidy(c, events);
    GoodLater(l, EndOf(events), now);
    hide Run;
    hide Valid;
    hide Brief;
    BeginTidy(l, id, who, whom, now);
    BeginGood(l, id, who, whom, now);
    var r := Begin(l, id, who, whom, now).0;
    hide Begin;
    var d := DimOf(r, source);
    FlightsPending(d, key, now);
    hide InFlight;
    if key in d.table && d.table[key].pending == 0 {
      BriefAt(d, key, r.nextCleanup);
    }
  }

  lemma BriefAt(d: Dim, key: string, nextCleanup: nat)
    requires Brief(d, nextCleanup) && key in d.table && d.table[key].pending == 0
    ensures nextCleanup < d.table[key].expires + 60
  {
  }

  // ------------------------------------------------------------- kinds of operation

  ghost function KindsOf(ops: seq<Operation>): set<Operation> {
    set op | op in ops && op != Unspecified
  }

  /** The kinds of operation among the last `m`, but for the unspecified one. */
  ghost function Kinds(ops: seq<Operation>, m: nat): set<Operation>
    requires m <= |ops|
  {
    KindsOf(ops[|ops| - m..])
  }

  /** The operations whose failures `Lost` lists. */
  ghost function LostTo(c: Config, events: seq<Timed>, source: bool, key: string): seq<Operation>
    requires Positive(c) && InOrder(events)
  {
    if events == [] then []
    else
      var before, e := events[..|events| - 1], events[|events| - 1];
      var d, ops := DimOf(Run(c, before), source), LostTo(c, before, source, key);
      if Fails(d, e, key) then ops + [e.event.op]
      else if e.event.Cleared? && key in (if source then e.event.sources else e.event.targets) then []
      else ops
  }

  /** A bucket names the kinds of operation of the failures it remembers. */
  ghost predicate Named(d: Dim, key: string, ops: seq<Operation>) {
    && |FailedAt(d.failed, key)| <= |ops|
    && (key in d.table ==> d.table[key].operations == Kinds(ops, |FailedAt(d.failed, key)|))
  }

  lemma KindsSnoc(ops: seq<Operation>, m: nat, op: Operation)
    requires m <= |ops|
    ensures Kinds(ops + [op], m + 1) == Kinds(ops, m) + Flag(op)
    ensures Kinds(ops, 0) == {}
  {
    assert (ops + [op])[|ops| + 1 - (m + 1)..] == ops[|ops| - m..] + [op];
  }

  lemma ReleaseElsewhere(d: Dim, id: nat, ok: bool, now: nat, op: Operation, key: string)
    requires id in d.holds && d.holds[id].key in d.table && d.table[d.holds[id].key].pending > 0 && key != d.holds[id].key
    ensures FailedAt(Release(d, id, ok, now, op).failed, key) == FailedAt(d.failed, key)
  {
    hide Record;
    hide ResetExpired;
  }

  lemma SettleNamedOwn(d: Dim, id: nat, ok: bool, now: nat, op: Operation, ops: seq<Operation>)
    requires Valid(d, now) && id in d.holds && Named(d, d.holds[id].key, ops)
    requires d.holds[id].key in d.table && d.table[d.holds[id].key].pending > 0
    ensures Named(Release(d, id, ok, now, op), d.holds[id].key, if !ok && id !in d.stale then ops + [op] else ops)
  {
    hide Bucket;
    hide Release;
    hide KindsOf;
    var key := d.holds[id].key;
    FailureCounts(d, id, now, op);
    AllBuckets(d, now, key);
    hide Valid;
    var v := ViewOf(d, key);
    HoldCurrent(d.limit, d.policy, v, id, now);
    assert id in v.held && (id in v.stale <==> id in d.stale);
    ReleaseIs(d, id, ok, now, op);
    LeftByCases(d, id, ok, now, op);
    hide LeftBy;
    var kept := if d.table[key].expires > now then FailedAt(d.failed, key) else [];
    var reset := ResetExpired(d.table[key].(pending := d.table[key].pending - 1), now);
    KindsSnoc(ops, |kept|, op);
    assert reset.operations == Kinds(ops, |kept|);
    hide ResetExpired;
    RecordNames(reset, d.limit, now, op, d.policy);
    hide Record;
  }

  lemma SettleNamed(d: Dim, id: nat, ok: bool, now: nat, op: Operation, key: string, ops: seq<Operation>)
    requires Valid(d, now) && id in d.holds && Named(d, key, ops)
    ensures d.holds[id].key in d.table && d.table[d.holds[id].key].pending > 0
    ensures Named(Release(d, id, ok, now, op), key, if !ok && d.holds[id].key == key && id !in d.stale then ops + [op] else ops)
  {
    hide Bucket;
    hide Release;
    hide Record;
    hide ResetExpired;
    hide KindsOf;
    HeldPending(d, id, now);
    FailureCounts(d, id, now, op);
    AllBuckets(d, now, key);
    ReleaseIs(d, id, ok, now, op);
    if d.holds[id].key == key {
      SettleNamedOwn(d, id, ok, now, op, ops);
    } else {
      ReleaseElsewhere(d, id, ok, now, op, key);
    }
    hide LeftBy;
    hide Valid;
  }

  lemma RecordNames(f: Failures, limit: nat, now: nat, op: Operation, policy: Policy)
    ensures Record(f, limit, now, op, policy).operations == f.operations + Flag(op)
  {
  }

  lemma NextNamed(l: Limiter, e: Timed, source: bool, key: string, ops: seq<Operation>)
    requires Good(l, e.at) && Named(DimOf(l, source), key, ops)
    ensures var d := DimOf(l, source);
            Named(DimOf(Next(l, e), source), key,
                  if Fails(d, e, key) then ops + [e.event.op]
                  else if e.event.Cleared? && key in (if source then e.event.sources else e.event.targets) then []
                  else ops)
  {
    hide Valid;
    var d := DimOf(l, source);
    match e.event {
      case Started(id, who, whom) =>
        if id !in l.sources.holds {
          BeginNamed(l, id, who, whom, e.at, source, key, ops);
        }
        hide Begin;
        hide Named;
      case Finished(id, ok, op) =>
        if id in l.sources.holds {
          SettleNamed(d, id, ok, e.at, op, key, ops);
        }
        hide Release;
        hide Named;
      case Cleared(s, t) =>
        ClearNamed(d, if source then s else t, e.at, key, ops);
        hide Clear;
        hide Named;
    }
  }

  lemma ClearNamed(d: Dim, keys: set<string>, now: nat, key: string, ops: seq<Operation>)
    requires Named(d, key, ops)
    ensures Named(Clear(d, keys, now), key, if key in keys then [] else ops)
  {
  }

  lemma TouchNamed(d: Dim, touched: string, now: nat, key: string, ops: seq<Operation>)
    requires Named(d, key, ops)
    ensures Named(Touch(d, touched, now), key, ops)
  {
    KindsSnoc(ops, 0, Unspecified);
    hide Kinds;
  }

  lemma PruneNamed(d: Dim, now: nat, key: string, ops: seq<Operation>)
    requires Named(d, key, ops)
    ensures Named(Prune(d, now), key, ops)
  {
    hide Kinds;
  }

  lemma ReserveNamed(d: Dim, id: nat, reserved: string, now: nat, key: string, ops: seq<Operation>)
    requires Named(d, key, ops) && Closed(d)
    ensures Named(Reserve(d, id, reserved, now), key, ops)
  {
    KindsSnoc(ops, 0, Unspecified);
    hide Kinds;
  }

  lemma BeginNamed(l: Limiter, id: nat, who: string, whom: string, now: nat, source: bool, key: string, ops: seq<Operation>)
    requires Good(l, now) && id !in l.sources.holds && Named(DimOf(l, source), key, ops)
    ensures Named(DimOf(Begin(l, id, who, whom, now).0, source), key, ops)
  {
    hide Valid;
    hide Named;
    var own, d := if source then Key(who) else whom, DimOf(l, source);
    SweptGood(l, now);
    PruneNamed(d, now, key, ops);
    var s := DimOf(Swept(l, now), source);
    TouchNamed(s, own, now, key, ops);
    TouchValid(s, own, now);
    var t := Touch(s, own, now);
    ValidClosed(t, now);
    ReserveNamed(t, id, own, now, key, ops);
    hide Closed;
    hide Wait;
    hide Touch;
    hide Prune;
    hide Reserve;
    hide Full;
  }

  /** Over every run a bucket names exactly the kinds of operation whose failures
      it remembers: the last ones of its key. */
  lemma {:induction false} RunNames(c: Config, events: seq<Timed>, source: bool, key: string)
    requires Positive(c) && InOrder(events)
    ensures Named(DimOf(Run(c, events), source), key, LostTo(c, events, source, key))
  {
    hide Good;
    hide Next;
    if events != [] {
      hide Named;
      hide Fails;
      var before, e := events[..|events| - 1], events[|events| - 1];
      RunNames(c, before, source, key);
      GoodLater(Run(c, before), EndOf(before), e.at);
      NextNamed(Run(c, before), e, source, key, LostTo(c, before, source, key));
    }
  }
}
