/** Device cleanup in batches against unbounded cleanup, for any tables and any
    batch size, and what it keeps together. */
module RetentionRuns {
  import opened Ordering
  import opened RoomsSpec
  import opened Retention
  import opened RetentionFacts

  function Chosen(t: Tables, cutoff: int, n: nat): set<string> {
    set e | e in Selected(t, cutoff, Candidates(t, cutoff), n)
  }

  // ------------------------------------------------------------------ one batch

  lemma {:induction false} Distinct(ids: seq<string>)
    requires forall i, j :: 0 <= i < j < |ids| ==> ids[i] != ids[j]
    ensures |(set e | e in ids)| == |ids|
  {
    if ids == [] {
      assert (set e | e in ids) == {};
    } else {
      Distinct(ids[1..]);
      assert (set e | e in ids) == {ids[0]} + (set e | e in ids[1..]);
    }
  }

  lemma {:induction false} Cover<T>(a: set<T>, b: set<T>)
    requires a <= b && |a| == |b|
    ensures a == b
  {
    if a != {} {
      var x :| x in a;
      Cover(a - {x}, b - {x});
    }
  }

  lemma ChosenFacts(t: Tables, cutoff: int, n: nat)
    ensures Chosen(t, cutoff, n) <= Candidates(t, cutoff)
    ensures |Selected(t, cutoff, Candidates(t, cutoff), n)| < n ==> Chosen(t, cutoff, n) == Candidates(t, cutoff)
    ensures Loose(t, cutoff, Candidates(t, cutoff)) && Loose(t, cutoff, Chosen(t, cutoff, n))
  {
    hide Protected;
    var all := Candidates(t, cutoff);
    CandidatesLoose(t, cutoff);
    hide Candidates;
    SelectedFacts(t, cutoff, all, n);
    var ids := Selected(t, cutoff, all, n);
    hide Selected;
    Distinct(ids);
    if |ids| < n {
      Cover((set e | e in ids), all);
    }
  }

  /** A batch drops the identities it chose and some orphans. */
  lemma BatchIs(t: Tables, cutoff: int, n: nat)
    ensures var a := Removed(t, Chosen(t, cutoff, n));
            var gone := OldestPairs(a, Orphans(a, cutoff), n);
            && gone <= Orphans(a, cutoff)
            && |gone| <= n && (|gone| < n ==> gone == Orphans(a, cutoff))
            && Batch(t, cutoff, n) == (a.(associations := a.associations - gone), |Selected(t, cutoff, Candidates(t, cutoff), n)| == n || |gone| == n)
  {
    hide Candidates;
    hide Selected;
    hide Removed;
    hide OldestPairs;
    hide Orphans;
    DropAllIs(t, Selected(t, cutoff, Candidates(t, cutoff), n));
    hide DropAll;
    var a := Removed(t, Chosen(t, cutoff, n));
    OrphansIn(a, cutoff);
    OldestPairsFacts(a, Orphans(a, cutoff), n);
    var gone := OldestPairs(a, Orphans(a, cutoff), n);
    if |gone| < n {
      Cover(gone, Orphans(a, cutoff));
    }
  }

  /** After a batch: who is still a candidate, and what unbounded cleanup would
      then leave. */
  lemma BatchLeaves(t: Tables, cutoff: int, n: nat)
    ensures var b := Batch(t, cutoff, n).0;
            var spared := Spared(t, cutoff, Chosen(t, cutoff, n));
            && Candidates(b, cutoff) == Candidates(t, cutoff) - Chosen(t, cutoff, n) - spared
            && Whole(b, cutoff) == Cleaned(t, cutoff, Candidates(t, cutoff) - spared)
  {
    hide Orphans;
    hide OldestPairs;
    hide Chosen;
    hide Removed;
    hide Swept;
    hide Loose;
    var ids := Chosen(t, cutoff, n);
    var all := Candidates(t, cutoff);
    var spared := Spared(t, cutoff, ids);
    ChosenFacts(t, cutoff, n);
    BatchIs(t, cutoff, n);
    hide Batch;
    hide Candidates;
    CandidatesLeft(t, cutoff, ids);
    var a, b := Removed(t, ids), Batch(t, cutoff, n).0;
    AssociationsAside(a, b, cutoff);
    OrphansIn(a, cutoff);
    var rest := all - ids - spared;
    assert ids !! spared && ids + rest == all - spared;
    LooseSome(t, cutoff, all, all - spared);
    hide Spared;
    CleanedTwice(t, b, cutoff, ids, rest, OldestPairs(a, Orphans(a, cutoff), n));
    hide Protected;
    hide Orphan;
  }

  lemma LooseSome(t: Tables, cutoff: int, a: set<string>, b: set<string>)
    requires Loose(t, cutoff, a) && b <= a
    ensures Loose(t, cutoff, b)
  {
    hide Protected;
  }

  /** Whatever an identity in `spared` would take with it, one of the others takes. */
  ghost predicate Covered(t: Tables, cutoff: int, spared: set<string>, others: set<string>) {
    && (forall id :: id in Rows(t) && id in Gone(spared) ==> id in Gone(others))
    && (forall p :: p in t.associations && TouchesAny(p, spared) && !Orphan(t, cutoff, p) ==> TouchesAny(p, others))
    && (forall a :: a in t.activity && a.0 in Gone(Permanent(spared)) ==> a.0 in Gone(Permanent(others)))
  }

  lemma CleanedLess(t: Tables, cutoff: int, all: set<string>, spared: set<string>)
    requires Loose(t, cutoff, all) && spared <= all
    ensures Cleaned(t, cutoff, all - spared) == Cleaned(t, cutoff, all) <==> Covered(t, cutoff, spared, all - spared)
  {
    var others := all - spared;
    assert all == others + spared;
    LooseSome(t, cutoff, all, others);
    CleanedIs(t, cutoff, all);
    CleanedIs(t, cutoff, others);
    hide Loose;
    hide Cleaned;
    hide Gone;
    hide Permanent;
    hide Orphan;
    hide TouchesAny;
    if Covered(t, cutoff, spared, others) {
      CoveredThen(t, cutoff, spared, others, all);
    }
    hide Covered;
    if Cleaned(t, cutoff, others) == Cleaned(t, cutoff, all) {
      CoveredBack(t, cutoff, spared, others, all, Cleaned(t, cutoff, others));
    }
  }

  lemma CoveredThen(t: Tables, cutoff: int, spared: set<string>, others: set<string>, all: set<string>)
    requires all == others + spared && Covered(t, cutoff, spared, others)
    ensures t.presence - Gone(others) == t.presence - Gone(all) && t.devices - Gone(others) == t.devices - Gone(all)
    ensures (map p | p in t.associations && !TouchesAny(p, others) && !Orphan(t, cutoff, p) :: t.associations[p])
         == (map p | p in t.associations && !TouchesAny(p, all) && !Orphan(t, cutoff, p) :: t.associations[p])
    ensures (set a | a in t.activity && a.0 !in Gone(Permanent(others))) == (set a | a in t.activity && a.0 !in Gone(Permanent(all)))
  {
    GoneMore(others, spared);
    GoneMore(Permanent(others), Permanent(spared));
    hide Gone;
    hide Permanent;
    hide Orphan;
    forall p
      ensures TouchesAny(p, all) <==> TouchesAny(p, others) || TouchesAny(p, spared)
    {
      TouchesMore(p, others, spared);
    }
    hide TouchesAny;
  }

  lemma CoveredBack(t: Tables, cutoff: int, spared: set<string>, others: set<string>, all: set<string>, x: Tables)
    requires all == others + spared
    requires x.presence == t.presence - Gone(others) == t.presence - Gone(all)
    requires x.devices == t.devices - Gone(others) == t.devices - Gone(all)
    requires forall p :: p in x.associations <==> p in t.associations && !TouchesAny(p, others) && !Orphan(t, cutoff, p)
    requires forall p :: p in x.associations <==> p in t.associations && !TouchesAny(p, all) && !Orphan(t, cutoff, p)
    requires forall a :: a in x.activity <==> a in t.activity && a.0 !in Gone(Permanent(others))
    requires forall a :: a in x.activity <==> a in t.activity && a.0 !in Gone(Permanent(all))
    ensures Covered(t, cutoff, spared, others)
  {
    GoneMore(others, spared);
    GoneMore(Permanent(others), Permanent(spared));
    hide Gone;
    hide Permanent;
    hide Orphan;
    forall id | id in Rows(t) && id in Gone(spared)
      ensures id in Gone(others)
    {
      assert id in Gone(all);
      if id in t.presence {
        assert id !in x.presence;
      } else {
        assert id !in x.devices;
      }
    }
    forall p | p in t.associations && TouchesAny(p, spared) && !Orphan(t, cutoff, p)
      ensures TouchesAny(p, others)
    {
      TouchesMore(p, others, spared);
    }
    hide TouchesAny;
    forall a | a in t.activity && a.0 in Gone(Permanent(spared))
      ensures a.0 in Gone(Permanent(others))
    {
      assert a !in x.activity;
    }
  }

  /** The batch spares nothing that unbounded cleanup takes. */
  ghost predicate Lossless(t: Tables, cutoff: int, n: nat) {
    var spared := Spared(t, cutoff, Chosen(t, cutoff, n));
    Covered(t, cutoff, spared, Candidates(t, cutoff) - spared)
  }

  /** Unbounded cleanup leaves the same before and after a batch exactly when
      everything that the identities spared by this batch would take is taken by
      another candidate. */
  lemma BatchWhole(t: Tables, cutoff: int, n: nat)
    ensures Whole(Batch(t, cutoff, n).0, cutoff) == Whole(t, cutoff) <==> Lossless(t, cutoff, n)
  {
    BatchLeaves(t, cutoff, n);
    ChosenFacts(t, cutoff, n);
    var all := Candidates(t, cutoff);
    var spared := Spared(t, cutoff, Chosen(t, cutoff, n));
    CleanedLess(t, cutoff, all, spared);
    hide Candidates;
    hide Covered;
    hide Loose;
    hide Batch;
    hide Chosen;
  }

  /** A batch that reports no more is an unbounded one, whatever the tables. */
  lemma BatchDone(t: Tables, cutoff: int, n: nat)
    requires !Batch(t, cutoff, n).1
    ensures Batch(t, cutoff, n).0 == Whole(t, cutoff)
    ensures Lossless(t, cutoff, n)
  {
    BatchIs(t, cutoff, n);
    ChosenFacts(t, cutoff, n);
    SelectedFacts(t, cutoff, Candidates(t, cutoff), n);
    hide Candidates;
    hide Selected;
    hide OldestPairs;
    hide Orphans;
    hide Removed;
    hide Loose;
    hide Batch;
    assert Spared(t, cutoff, Chosen(t, cutoff, n)) == {};
    NoneSpared(t, cutoff, Candidates(t, cutoff));
    assert Candidates(t, cutoff) - {} == Candidates(t, cutoff);
    hide Covered;
  }

  lemma NoneSpared(t: Tables, cutoff: int, others: set<string>)
    ensures Covered(t, cutoff, {}, others)
  {
    hide Orphan;
  }

  // ----------------------------------------------------------------- all batches

  ghost function Size(t: Tables): nat {
    |t.presence| + |t.devices| + |t.associations|
  }

  lemma Fewer<K, V>(m: map<K, V>, keys: set<K>)
    ensures |m - keys| <= |m|
    ensures (exists k :: k in keys && k in m) ==> |m - keys| < |m|
  {
    RetentionStore.Counted(m, keys);
    if k :| k in keys && k in m {
      assert k in m.Keys * keys;
    }
  }

  lemma RemovedShrinks(t: Tables, ids: set<string>)
    ensures Size(Removed(t, ids)) <= Size(t)
    ensures (exists id :: id in Gone(ids) && id in Rows(t)) ==> Size(Removed(t, ids)) < Size(t)
  {
    Fewer(t.presence, Gone(ids));
    Fewer(t.devices, Gone(ids));
    var touched := set p | p in t.associations && TouchesAny(p, ids);
    Fewer(t.associations, touched);
    assert Removed(t, ids).associations == t.associations - touched;
    hide Gone;
    hide TouchesAny;
  }

  /** A batch that reports more has removed something. */
  lemma BatchShrinks(t: Tables, cutoff: int, n: nat)
    requires 0 < n && Batch(t, cutoff, n).1
    ensures Size(Batch(t, cutoff, n).0) < Size(t)
  {
    var ids := Selected(t, cutoff, Candidates(t, cutoff), n);
    BatchIs(t, cutoff, n);
    ChosenFacts(t, cutoff, n);
    var a := Removed(t, Chosen(t, cutoff, n));
    RemovedShrinks(t, Chosen(t, cutoff, n));
    OrphansIn(a, cutoff);
    var gone := OldestPairs(a, Orphans(a, cutoff), n);
    Fewer(a.associations, gone);
    hide Batch;
    hide Removed;
    hide OldestPairs;
    hide Orphans;
    hide Candidates;
    hide Selected;
    if |ids| == n {
      CandidatesAre(t, cutoff, ids[0]);
      OwnsGone(t, Chosen(t, cutoff, n), ids[0]);
    } else {
      var p :| p in gone;
      assert p in a.associations;
    }
    hide Gone;
  }

  lemma OwnsGone(t: Tables, ids: set<string>, e: string)
    requires Owns(t, e) && e in ids
    ensures exists id :: id in Gone(ids) && id in Rows(t)
  {
    var id := if e in Rows(t) then e else "C-" + e;
    assert id in Both(e);
    hide Both;
    assert id in Gone(ids);
  }

  /** Cleanup called again, at the same cutoff, until it reports no more. */
  ghost function Repeat(t: Tables, cutoff: int, n: nat): Tables
    requires 0 < n
    decreases Size(t)
  {
    var (b, more) := Batch(t, cutoff, n);
    if more then
      BatchShrinks(t, cutoff, n);
      Repeat(b, cutoff, n)
    else b
  }

  /** Every batch of the repetition is lossless. */
  ghost predicate AllLossless(t: Tables, cutoff: int, n: nat)
    requires 0 < n
    decreases Size(t)
  {
    var (b, more) := Batch(t, cutoff, n);
    if !more then Lossless(t, cutoff, n)
    else
      BatchShrinks(t, cutoff, n);
      Lossless(t, cutoff, n) && AllLossless(b, cutoff, n)
  }

  ghost predicate Within(a: Tables, b: Tables) {
    && (forall id :: id in a.presence ==> id in b.presence && a.presence[id] == b.presence[id])
    && (forall id :: id in a.devices ==> id in b.devices && a.devices[id] == b.devices[id])
    && (forall p :: p in a.associations ==> p in b.associations && a.associations[p] == b.associations[p])
    && a.activity <= b.activity && a.sessions == b.sessions
  }

  lemma WithinBoth(a: Tables, b: Tables)
    requires Within(a, b) && Within(b, a)
    ensures a == b
  {
    assert a.presence == b.presence;
    assert a.devices == b.devices;
    assert a.associations == b.associations;
  }

  lemma WithinChain(a: Tables, b: Tables, c: Tables)
    requires Within(a, b) && Within(b, c)
    ensures Within(a, c)
  {
  }

  /** A batch keeps whatever unbounded cleanup keeps. */
  lemma BatchKeeps(t: Tables, cutoff: int, n: nat)
    ensures Within(Whole(t, cutoff), Whole(Batch(t, cutoff, n).0, cutoff))
  {
    var all, spared := Candidates(t, cutoff), Spared(t, cutoff, Chosen(t, cutoff, n));
    BatchLeaves(t, cutoff, n);
    ChosenFacts(t, cutoff, n);
    hide Candidates;
    hide Spared;
    hide Chosen;
    LooseSome(t, cutoff, all, all - spared);
    CleanedIs(t, cutoff, all);
    CleanedIs(t, cutoff, all - spared);
    assert Whole(t, cutoff) == Cleaned(t, cutoff, all);
    hide Cleaned;
    hide Whole;
    hide Batch;
    hide Loose;
    CleanedWithin(t, cutoff, all, all - spared);
    hide Orphan;
    hide Gone;
    hide TouchesAny;
    hide Permanent;
  }

  lemma CleanedWithin(t: Tables, cutoff: int, all: set<string>, some: set<string>)
    requires some <= all
    ensures Gone(some) <= Gone(all) && Gone(Permanent(some)) <= Gone(Permanent(all))
    ensures forall p :: TouchesAny(p, some) ==> TouchesAny(p, all)
  {
    hide Both;
    hide Touches;
    hide Temporary;
  }

  lemma {:induction false} RepeatKeeps(t: Tables, cutoff: int, n: nat)
    requires 0 < n
    ensures Within(Whole(t, cutoff), Repeat(t, cutoff, n))
    decreases Size(t)
  {
    hide Whole;
    hide Within;
    var b := Batch(t, cutoff, n).0;
    if Batch(t, cutoff, n).1 {
      BatchShrinks(t, cutoff, n);
      BatchKeeps(t, cutoff, n);
      hide Batch;
      hide Size;
      RepeatKeeps(b, cutoff, n);
      WithinChain(Whole(t, cutoff), Whole(b, cutoff), Repeat(b, cutoff, n));
    } else {
      BatchDone(t, cutoff, n);
      WithinSelf(b);
      hide Batch;
    }
  }

  lemma WithinSelf(a: Tables)
    ensures Within(a, a)
  {
  }

  /** Batches of any size end, whatever the tables; they leave exactly what one
      unbounded cleanup does if and only if every one of them is lossless. */
  lemma {:induction false} BatchesEqualWhole(t: Tables, cutoff: int, n: nat)
    requires 0 < n
    ensures Repeat(t, cutoff, n) == Whole(t, cutoff) <==> AllLossless(t, cutoff, n)
    decreases Size(t)
  {
    hide Whole;
    hide Lossless;
    hide Within;
    var b := Batch(t, cutoff, n).0;
    if Batch(t, cutoff, n).1 {
      BatchShrinks(t, cutoff, n);
      BatchWhole(t, cutoff, n);
      BatchKeeps(t, cutoff, n);
      hide Batch;
      hide Size;
      BatchesEqualWhole(b, cutoff, n);
      RepeatKeeps(b, cutoff, n);
      if Repeat(b, cutoff, n) == Whole(t, cutoff) {
        WithinBoth(Whole(b, cutoff), Whole(t, cutoff));
      }
    } else {
      BatchDone(t, cutoff, n);
      hide Batch;
    }
  }

  /** No candidate's clone is a candidate of its own. */
  ghost predicate Unchained(t: Tables, cutoff: int) {
    forall e :: e in Candidates(t, cutoff) ==> "C-" + e !in Candidates(t, cutoff)
  }

  /** Without stored ids that start with `C-C-` that is so. */
  lemma PlainUnchained(t: Tables, cutoff: int)
    requires forall id :: id in Rows(t) ==> !Alias(Base(id))
    ensures Unchained(t, cutoff)
  {
    forall e | e in Candidates(t, cutoff)
      ensures "C-" + e !in Candidates(t, cutoff)
    {
      CandidatesAre(t, cutoff, "C-" + e);
      assert Alias("C-" + e) && ("C-" + ("C-" + e))[2..] == "C-" + e;
      hide Candidates;
      hide Protected;
    }
  }

  /** Then batches of every size leave what one unbounded cleanup does. */
  lemma {:induction false} UnchainedEqual(t: Tables, cutoff: int, n: nat)
    requires 0 < n && Unchained(t, cutoff)
    ensures AllLossless(t, cutoff, n) && Repeat(t, cutoff, n) == Whole(t, cutoff)
    decreases Size(t)
  {
    var b := Batch(t, cutoff, n).0;
    ChosenFacts(t, cutoff, n);
    BatchLeaves(t, cutoff, n);
    hide Candidates;
    hide Chosen;
    assert Spared(t, cutoff, Chosen(t, cutoff, n)) == {};
    NoneSpared(t, cutoff, Candidates(t, cutoff));
    assert Candidates(t, cutoff) - {} == Candidates(t, cutoff);
    assert Lossless(t, cutoff, n);
    hide Lossless;
    hide Covered;
    if Batch(t, cutoff, n).1 {
      BatchShrinks(t, cutoff, n);
      hide Batch;
      hide Size;
      UnchainedEqual(b, cutoff, n);
    }
    BatchesEqualWhole(t, cutoff, n);
    hide Batch;
    hide Whole;
    hide Loose;
  }
}
