/** `CredentialWorkLimiter`: how many expensive credential jobs one source may
    start per minute, and the bound this puts on any minute of the clock. */
module WorkLimiting {

  const WINDOW: nat := 60
  const MAX_ENTRIES: nat := 16384

  datatype Window = Window(count: nat, expires: nat)

  datatype Limits = Limits(limit: nat, windows: map<string, Window>, nextCleanup: nat)

  function SourceKey(source: string): string {
    if source == "" then "unknown" else source
  }

  ghost function Cleaned(l: Limits, now: nat): Limits {
    if now < l.nextCleanup then l
    else l.(windows := map k | k in l.windows && now < l.windows[k].expires :: l.windows[k],
            nextCleanup := now + WINDOW)
  }

  /** The table with a live window for `key`. */
  ghost function Opened(l: Limits, key: string, now: nat): Limits {
    if key in l.windows && now < l.windows[key].expires then l
    else l.(windows := l.windows[key := Window(0, now + WINDOW)])
  }

  ghost predicate Full(l: Limits, key: string) {
    key !in l.windows && |l.windows| >= MAX_ENTRIES
  }

  ghost function Spent(l: Limits, key: string): Limits
    requires key in l.windows
  {
    l.(windows := l.windows[key := l.windows[key].(count := l.windows[key].count + 1)])
  }

  /** One call of `Admit`: the new table and the delay, 0 when a token was taken. */
  ghost function Ask(l: Limits, source: string, now: nat): (Limits, nat) {
    var c := Cleaned(l, now);
    var key := SourceKey(source);
    if Full(c, key) then (c, WINDOW)
    else
      var o := Opened(c, key, now);
      if o.windows[key].count < o.limit then (Spent(o, key), 0)
      else (o, o.windows[key].expires - now)
  }

  // ---------------------------------------------------------------- pacing

  /** The tokens one source took: when (`at`) and in which window (`start`). */
  datatype Pace = Pace(at: seq<nat>, start: seq<nat>)

  ghost predicate Windowed(p: Pace, limit: nat) {
    && |p.at| == |p.start|
    && (forall i :: 0 <= i < |p.at| ==> p.start[i] <= p.at[i] < p.start[i] + WINDOW)
    && (forall i, j :: 0 <= i < j < |p.at| ==> p.start[i] == p.start[j] || p.start[i] + WINDOW <= p.start[j])
    && (forall i, j :: 0 <= i && i + limit <= j < |p.at| ==> p.start[i] + WINDOW <= p.start[j])
  }

  ghost predicate Ascending(s: seq<nat>) {
    forall i, j :: 0 <= i < j < |s| ==> s[i] <= s[j]
  }

  /** What relates the table entry of `key` to the tokens it has handed out. */
  ghost predicate Paced(l: Limits, key: string, p: Pace, now: nat) {
    var n := |p.start|;
    && 0 < l.limit
    && Windowed(p, l.limit)
    && Ascending(p.at)
    && (n > 0 ==> p.at[n - 1] <= now)
    && (key !in l.windows ==> n > 0 ==> p.start[n - 1] + WINDOW <= now)
    && (key in l.windows ==>
          var w := l.windows[key];
          && w.count <= l.limit && w.count <= n
          && WINDOW <= w.expires <= now + WINDOW
          && (forall i :: n - w.count <= i < n ==> p.start[i] == w.expires - WINDOW)
          && (forall i :: 0 <= i < n - w.count ==> p.start[i] + WINDOW <= w.expires - WINDOW))
  }

  ghost function Took(p: Pace, l': Limits, key: string, now: nat): Pace
    requires key in l'.windows && WINDOW <= l'.windows[key].expires
  {
    Pace(p.at + [now], p.start + [l'.windows[key].expires - WINDOW])
  }

  lemma PacedLater(l: Limits, key: string, p: Pace, now: nat, later: nat)
    requires Paced(l, key, p, now) && now <= later
    ensures Paced(l, key, p, later)
  {
  }

  lemma PacedCleaned(l: Limits, key: string, p: Pace, now: nat)
    requires Paced(l, key, p, now)
    ensures Paced(Cleaned(l, now), key, p, now)
  {
  }

  lemma PacedOpened(l: Limits, key: string, p: Pace, now: nat)
    requires Paced(l, key, p, now)
    ensures Paced(Opened(l, key, now), key, p, now)
  {
  }

  /** `q` is `p` and one more token. */
  ghost predicate Extends(p: Pace, q: Pace, now: nat, start: nat) {
    var n := |p.at|;
    && |p.start| == n && |q.at| == n + 1 && |q.start| == n + 1 && q.at[n] == now && q.start[n] == start
    && (forall i :: 0 <= i < n ==> q.at[i] == p.at[i] && q.start[i] == p.start[i])
  }

  lemma WindowedTook(p: Pace, q: Pace, limit: nat, now: nat, start: nat)
    requires Windowed(p, limit) && Extends(p, q, now, start) && 0 < limit
    requires start <= now < start + WINDOW
    requires forall i :: 0 <= i < |p.at| ==> p.start[i] == start || p.start[i] + WINDOW <= start
    requires forall i :: 0 <= i <= |p.at| - limit ==> p.start[i] + WINDOW <= start
    ensures Windowed(q, limit)
  {
    forall i, j | 0 <= i && i + limit <= j < |q.at|
      ensures q.start[i] + WINDOW <= q.start[j]
    {
      assert q.start[i] == p.start[i];
    }
    forall i, j | 0 <= i < j < |q.at|
      ensures q.start[i] == q.start[j] || q.start[i] + WINDOW <= q.start[j]
    {
      assert q.start[i] == p.start[i];
    }
  }

  lemma AscendingTook(s: seq<nat>, now: nat)
    requires Ascending(s) && (|s| > 0 ==> s[|s| - 1] <= now)
    ensures Ascending(s + [now])
  {
    forall i, j | 0 <= i < j <= |s|
      ensures (s + [now])[i] <= (s + [now])[j]
    {
      assert (s + [now])[i] == s[i] <= s[|s| - 1];
    }
  }

  lemma PacedSpent(l: Limits, key: string, p: Pace, now: nat)
    requires Paced(l, key, p, now) && key in l.windows
    requires now < l.windows[key].expires && l.windows[key].count < l.limit
    ensures Paced(Spent(l, key), key, Took(p, Spent(l, key), key, now), now)
  {
    var w := l.windows[key];
    var q := Took(p, Spent(l, key), key, now);
    assert Extends(p, q, now, w.expires - WINDOW);
    assert Windowed(q, l.limit) by {
      WindowedTook(p, q, l.limit, now, w.expires - WINDOW);
    }
    AscendingTook(p.at, now);
    hide Windowed;
    hide Ascending;
  }

  /** A call for another source leaves the pace of `key` alone. */
  lemma PacedOther(l: Limits, source: string, key: string, p: Pace, now: nat)
    requires Paced(l, key, p, now) && SourceKey(source) != key
    ensures Paced(Ask(l, source, now).0, key, p, now)
  {
    PacedCleaned(l, key, p, now);
    hide Cleaned;
    var c := Cleaned(l, now);
    assert Ask(l, source, now).0.limit == c.limit;
    assert key in Ask(l, source, now).0.windows <==> key in c.windows;
    assert key in c.windows ==> Ask(l, source, now).0.windows[key] == c.windows[key];
    hide Ask;
    hide Windowed;
    hide Ascending;
  }

  lemma PacedRefused(l: Limits, source: string, p: Pace, now: nat)
    requires Paced(l, SourceKey(source), p, now) && Ask(l, source, now).1 > 0
    ensures Paced(Ask(l, source, now).0, SourceKey(source), p, now)
  {
    PacedCleaned(l, SourceKey(source), p, now);
    PacedOpened(Cleaned(l, now), SourceKey(source), p, now);
  }

  lemma PacedTook(l: Limits, source: string, p: Pace, now: nat)
    requires Paced(l, SourceKey(source), p, now) && Ask(l, source, now).1 == 0
    ensures var l' := Ask(l, source, now).0;
            && SourceKey(source) in l'.windows && WINDOW <= l'.windows[SourceKey(source)].expires
            && Paced(l', SourceKey(source), Took(p, l', SourceKey(source), now), now)
  {
    var key := SourceKey(source);
    PacedCleaned(l, key, p, now);
    PacedOpened(Cleaned(l, now), key, p, now);
    hide Cleaned;
    hide Windowed;
    hide Ascending;
    PacedSpent(Opened(Cleaned(l, now), key, now), key, p, now);
  }

  /** How many of the instants `at` fall into the half-open minute from `from`. */
  ghost function InMinute(at: seq<nat>, from: nat): nat {
    if at == [] then 0
    else InMinute(at[..|at| - 1], from) + if from <= at[|at| - 1] < from + WINDOW then 1 else 0
  }

  lemma {:induction false} InMinuteAfter(at: seq<nat>, from: nat, k: nat)
    requires k <= |at| && forall i :: 0 <= i < k ==> at[i] < from
    ensures InMinute(at, from) <= |at| - k
  {
    if |at| > k {
      InMinuteAfter(at[..|at| - 1], from, k);
    } else if at != [] {
      InMinuteAfter(at[..|at| - 1], from, k - 1);
    }
  }

  lemma {:induction false} InMinuteSpread(at: seq<nat>, from: nat, bound: nat)
    requires Ascending(at)
    requires forall i, j :: 0 <= i && i + bound <= j < |at| ==> at[i] + WINDOW <= at[j]
    ensures InMinute(at, from) <= bound
  {
    if at != [] {
      var n := |at| - 1;
      if from <= at[n] < from + WINDOW {
        var k := if bound <= n then n - bound + 1 else 0;
        if bound <= n {
          assert at[n - bound] + WINDOW <= at[n];
        }
        InMinuteAfter(at, from, k);
      } else {
        InMinuteSpread(at[..n], from, bound);
      }
    }
  }

  /** No minute of the clock, wherever it begins, contains more than twice the
      limit of tokens of one source. */
  lemma MinuteBound(l: Limits, key: string, p: Pace, now: nat, from: nat)
    requires Paced(l, key, p, now)
    ensures InMinute(p.at, from) <= 2 * l.limit
  {
    forall i, j | 0 <= i && i + 2 * l.limit <= j < |p.at|
      ensures p.at[i] + WINDOW <= p.at[j]
    {
      var m := i + l.limit;
      assert p.start[i] + WINDOW <= p.start[m];
      assert p.start[m] + WINDOW <= p.start[j];
    }
    InMinuteSpread(p.at, from, 2 * l.limit);
  }

  /** The bound is reached: with one token a minute, a token at the end of one
      window and one at the start of the next fall into the same minute. */
  lemma MinuteBoundReached(l0: Limits)
    requires l0 == Limits(1, map["a" := Window(1, 60)], 60)
    ensures Paced(l0, "a", Pace([59], [0]), 59)
    ensures Ask(l0, "a", 60).1 == 0
    ensures InMinute([59, 60], 59) == 2 * l0.limit
  {
    assert [59, 60][..1] == [59];
    assert InMinute([59], 59) == 1;
    assert Cleaned(l0, 60).windows == map[];
  }

  // ----------------------------------------------------------------- class

  class CredentialWorkLimiter {
    const limit: nat
    var windows: map<string, Window>
    var nextCleanup: nat

    ghost function State(): Limits
      reads this
    {
      Limits(limit, windows, nextCleanup)
    }

    constructor (limit: nat)
      requires limit > 0
      ensures State() == Limits(limit, map[], 0)
    {
      this.limit := limit;
      windows := map[];
      nextCleanup := 0;
    }

    method Cleanup(now: nat)
      modifies this
      ensures State() == Cleaned(old(State()), now)
    {
      if now < nextCleanup {
        return;
      }
      ghost var was := windows;
      var todo := windows.Keys;
      while todo != {}
        invariant todo <= windows.Keys <= was.Keys && nextCleanup == old(nextCleanup)
        invariant forall k :: k in windows ==> windows[k] == was[k]
        invariant forall k :: k in was && k !in todo ==> (k in windows <==> now < was[k].expires)
        decreases todo
      {
        var k :| k in todo;
        if windows[k].expires <= now {
          windows := windows - {k};
        }
        todo := todo - {k};
      }
      nextCleanup := now + WINDOW;
      assert windows == map k | k in was && now < was[k].expires :: was[k];
    }

    method Admit(source: string, now: nat) returns (delay: nat)
      modifies this
      ensures (State(), delay) == Ask(old(State()), source, now)
    {
      Cleanup(now);
      var key := SourceKey(source);
      if key !in windows && |windows| >= MAX_ENTRIES {
        return WINDOW;
      }
      if key !in windows {
        windows := windows[key := Window(0, now + WINDOW)];
      }
      if windows[key].expires <= now {
        windows := windows[key := Window(0, now + WINDOW)];
      }
      assert State() == Opened(Cleaned(old(State()), now), key, now);
      if windows[key].count >= limit {
        return windows[key].expires - now;
      }
      windows := windows[key := windows[key].(count := windows[key].count + 1)];
      delay := 0;
    }
  }
}
