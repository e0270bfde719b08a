/** What device cleanup keeps together, and for which tables batches of every
    size remove the same device and presence rows. */
module RetentionPairs {
  import opened Ordering
  import opened RoomsSpec
  import opened Retention
  import opened RetentionFacts
  import opened RetentionRuns

  // ------------------------------------------------------------------ identities

  lemma Clone(e: string)
    ensures Alias("C-" + e) && ("C-" + e)[2..] == e && Base("C-" + e) == e
  {
  }

  lemma WholeRows(t: Tables, cutoff: int, id: string)
    requires id in Rows(t)
    ensures id !in Rows(Whole(t, cutoff)) <==> id in Candidates(t, cutoff) || (Alias(id) && id[2..] in Candidates(t, cutoff))
  {
    GoneIs(Candidates(t, cutoff), id);
    RemovedRows(t, Candidates(t, cutoff), id);
    hide Candidates;
    hide Gone;
    hide Removed;
  }

  /** The rows of the identity of `id` go together, all of them are old, and no
      session refers to it. */
  ghost predicate Together(t: Tables, cutoff: int, id: string) {
    && (forall x :: x in Both(Base(id)) ==> x !in Rows(Whole(t, cutoff)))
    && (forall x :: x in Both(Base(id)) && x in Rows(t) ==> OldRow(t, cutoff, x))
    && Base(id) !in t.sessions
  }

  /** Every row removed is removed with its identity. */
  ghost predicate Paired(t: Tables, cutoff: int) {
    forall id :: id in Rows(t) && id !in Rows(Whole(t, cutoff)) ==> Together(t, cutoff, id)
  }

  /** The clone of a protected identity is unprotected itself and has a clone. */
  predicate Stray(t: Tables, cutoff: int, f: string) {
    && "C-" + f in Rows(t) && "C-" + ("C-" + f) in Rows(t)
    && Protected(t, cutoff, f) && !Protected(t, cutoff, "C-" + f)
  }

  lemma ExpiredTogether(t: Tables, cutoff: int, id: string)
    requires Base(id) in Candidates(t, cutoff)
    ensures Together(t, cutoff, id)
  {
    var e := Base(id);
    CandidatesAre(t, cutoff, e);
    forall x | x in Both(e)
      ensures x !in Rows(Whole(t, cutoff))
      ensures x in Rows(t) ==> OldRow(t, cutoff, x)
    {
      Clone(e);
      if x in Rows(t) {
        WholeRows(t, cutoff, x);
        UnprotectedOld(t, cutoff, e, x);
      } else {
        RemovedRows(t, Candidates(t, cutoff), x);
      }
      hide Whole;
      hide Candidates;
      hide Protected;
    }
    hide Candidates;
    hide Whole;
    hide Base;
    hide OldRow;
  }

  /** A protected identity is never taken as a whole. */
  lemma ProtectedApart(t: Tables, cutoff: int, f: string)
    requires Protected(t, cutoff, f) && !Protected(t, cutoff, "C-" + f)
    ensures f in t.sessions || (f in Rows(t) && !OldRow(t, cutoff, f))
  {
    assert "C-" + f in Both("C-" + f);
    assert !Live(t, cutoff, "C-" + f);
    if f !in t.sessions {
      var id :| id in Both(f) && (Live(t, cutoff, id) || (id in t.devices && id !in t.presence && t.devices[id] >= cutoff));
      assert id == f;
    }
  }

  lemma StrayUnpairs(t: Tables, cutoff: int, f: string)
    requires Stray(t, cutoff, f)
    ensures "C-" + f in Rows(t) && "C-" + f !in Rows(Whole(t, cutoff)) && !Together(t, cutoff, "C-" + f)
  {
    var e := "C-" + f;
    Clone(f);
    CandidatesAre(t, cutoff, e);
    WholeRows(t, cutoff, e);
    ProtectedApart(t, cutoff, f);
    hide Candidates;
    hide Protected;
    hide Whole;
    hide OldRow;
    assert f in Both(f);
  }

  /** Cleanup takes a row only together with the rest of its identity, and only
      when all of that is old and in no session, if and only if no identity is
      stray. */
  lemma PairedIff(t: Tables, cutoff: int)
    ensures Paired(t, cutoff) <==> forall f :: !Stray(t, cutoff, f)
  {
    hide Together;
    hide Stray;
    hide Whole;
    if f :| Stray(t, cutoff, f) {
      StrayUnpairs(t, cutoff, f);
    } else {
      forall id | id in Rows(t) && id !in Rows(Whole(t, cutoff))
        ensures Together(t, cutoff, id)
      {
        RemovedTogether(t, cutoff, id);
      }
    }
  }

  lemma RemovedTogether(t: Tables, cutoff: int, id: string)
    requires id in Rows(t) && id !in Rows(Whole(t, cutoff)) && !Stray(t, cutoff, Base(id))
    ensures Together(t, cutoff, id)
  {
    hide Whole;
    hide Together;
    WholeRows(t, cutoff, id);
    if Base(id) !in Candidates(t, cutoff) {
      assert Alias(id) && id == "C-" + Base(id);
      CandidatesAre(t, cutoff, id);
      CandidatesAre(t, cutoff, Base(id));
    }
    hide Candidates;
    ExpiredTogether(t, cutoff, id);
  }

  /** An identity's rows go together, and only when every one of them is old and
      no session refers to it. */
  lemma WholeRemovesOnlyExpired(t: Tables, cutoff: int, id: string)
    requires forall f :: !Stray(t, cutoff, f)
    requires id in Rows(t) && id !in Rows(Whole(t, cutoff))
    ensures forall x :: x in Both(Base(id)) ==> x !in Rows(Whole(t, cutoff))
    ensures forall x :: x in Both(Base(id)) && x in Rows(t) ==> OldRow(t, cutoff, x)
    ensures Base(id) !in t.sessions
  {
    PairedIff(t, cutoff);
    assert Together(t, cutoff, id);
    hide Whole;
    hide OldRow;
    hide Stray;
  }

  /** An identity with an old row that nothing protects does go. */
  lemma WholeRemovesExpired(t: Tables, cutoff: int, id: string)
    requires id in Rows(t) && OldRow(t, cutoff, id) && !Protected(t, cutoff, Base(id))
    ensures id !in Rows(Whole(t, cutoff))
  {
    assert Base(id) in Candidates(t, cutoff);
    ExpiredTogether(t, cutoff, id);
    BaseIs(id, Base(id));
    assert id in Both(Base(id));
    hide Candidates;
    hide Whole;
    hide OldRow;
    hide Protected;
  }

  /** A stray identity: an old `C-C-x` takes the row of `C-x` with it although
      `x`, whose clone `C-x` is, is online. */
  lemma CloneOfCloneUnpairs()
    ensures var t := Tables(map["C-C-x" := Presence(false, 0), "C-x" := Presence(false, 0), "x" := Presence(true, 5)], map[], map[], {}, {});
            && Stray(t, 10, "x") && !Paired(t, 10)
            && "C-x" !in Rows(Whole(t, 10)) && "x" in Rows(Whole(t, 10))
  {
    var t := Tables(map["C-C-x" := Presence(false, 0), "C-x" := Presence(false, 0), "x" := Presence(true, 5)], map[], map[], {}, {});
    assert "C-" + "C-x" == "C-C-x" && "C-" + "x" == "C-x";
    assert "x" in Both("x") && Live(t, 10, "x");
    assert Stray(t, 10, "x");
    StrayUnpairs(t, 10, "x");
    PairedIff(t, 10);
    CandidatesAre(t, 10, "x");
    WholeRows(t, 10, "x");
    hide Whole;
    hide Candidates;
  }

  // ---------------------------------------------------------- batches of any size

  ghost predicate SameRows(a: Tables, b: Tables) {
    a.presence == b.presence && a.devices == b.devices
  }

  /** The row of the clone of `f` is left behind by some batches: `f` is no
      candidate, while the clone and, selected before it, the clone's clone are. */
  ghost predicate Stranded(t: Tables, cutoff: int, f: string) {
    var e, c := "C-" + f, "C-" + ("C-" + f);
    && e in Rows(t) && e in Candidates(t, cutoff) && c in Candidates(t, cutoff) && f !in Candidates(t, cutoff)
    && Precedes(t, cutoff, c, e)
  }

  lemma WholeSameRows(t: Tables, cutoff: int, spared: set<string>)
    requires forall id :: id in Rows(t) && id in Gone(spared) ==> id in Gone(Candidates(t, cutoff) - spared)
    requires spared <= Candidates(t, cutoff)
    ensures SameRows(Cleaned(t, cutoff, Candidates(t, cutoff) - spared), Whole(t, cutoff))
  {
    var all := Candidates(t, cutoff);
    var others := all - spared;
    assert all == others + spared;
    hide Candidates;
    GoneMore(others, spared);
    hide Gone;
    hide Orphans;
    assert t.presence - Gone(others) == t.presence - Gone(all);
    assert t.devices - Gone(others) == t.devices - Gone(all);
  }

  lemma BatchSameRows(t: Tables, cutoff: int, n: nat)
    requires forall f :: !Stranded(t, cutoff, f)
    ensures SameRows(Whole(Batch(t, cutoff, n).0, cutoff), Whole(t, cutoff))
  {
    var all, ids := Candidates(t, cutoff), Chosen(t, cutoff, n);
    var spared := Spared(t, cutoff, ids);
    BatchLeaves(t, cutoff, n);
    ChosenFacts(t, cutoff, n);
    forall id | id in Rows(t) && id in Gone(spared)
      ensures id in Gone(all - spared)
    {
      SparedRow(t, cutoff, n, id);
    }
    WholeSameRows(t, cutoff, spared);
    hide Candidates;
    hide Chosen;
    hide Whole;
    hide Cleaned;
    hide Batch;
  }

  lemma SparedRow(t: Tables, cutoff: int, n: nat, id: string)
    requires id in Rows(t) && (forall f :: !Stranded(t, cutoff, f))
    requires id in Gone(Spared(t, cutoff, Chosen(t, cutoff, n)))
    ensures id in Gone(Candidates(t, cutoff) - Spared(t, cutoff, Chosen(t, cutoff, n)))
  {
    var all, ids := Candidates(t, cutoff), Chosen(t, cutoff, n);
    var spared := Spared(t, cutoff, ids);
    ChosenFacts(t, cutoff, n);
    GoneIs(spared, id);
    GoneIs(all - spared, id);
    hide Gone;
    hide Loose;
    hide Protected;
    if id in spared {
      var f := id[2..];
      assert id == "C-" + f;
      SelectedOldestFirst(t, cutoff, all, n, "C-" + id, id);
      assert !Stranded(t, cutoff, f);
      hide Candidates;
      hide Selected;
    } else {
      assert id == "C-" + id[2..];
      hide Candidates;
      hide Selected;
    }
  }

  // A stranded row was stranded before, so no batch strands another.

  lemma AgeLasts(t: Tables, u: Tables, cutoff: int, e: string)
    requires Alias(e) && "C-" + e in Rows(u) && "C-" + e in Rows(t)
    requires ("C-" + e in t.presence <==> "C-" + e in u.presence) && ("C-" + e in t.devices <==> "C-" + e in u.devices)
    requires "C-" + e in t.presence ==> u.presence["C-" + e] == t.presence["C-" + e]
    requires "C-" + e in t.devices ==> u.devices["C-" + e] == t.devices["C-" + e]
    ensures Age(u, cutoff, e) == Age(t, cutoff, e)
  {
    forall id
      ensures Base(id) == e <==> id == "C-" + e
    {
      BaseIs(id, e);
    }
    hide Base;
    var c := "C-" + e;
    assert OldRow(u, cutoff, c) <==> OldRow(t, cutoff, c);
    assert OldRowsOf(u, cutoff, e) == OldRowsOf(t, cutoff, e);
    assert ExpiredAt(u, c) == ExpiredAt(t, c);
    assert (set id | id in OldRowsOf(u, cutoff, e) :: ExpiredAt(u, id)) == (set id | id in OldRowsOf(t, cutoff, e) :: ExpiredAt(t, id));
    hide OldRow;
  }

  lemma StrandedBefore(t: Tables, cutoff: int, n: nat, f: string)
    requires Stranded(Batch(t, cutoff, n).0, cutoff, f)
    ensures Stranded(t, cutoff, f)
  {
    var b, ids := Batch(t, cutoff, n).0, Chosen(t, cutoff, n);
    var e, c := "C-" + f, "C-" + ("C-" + f);
    BatchLeaves(t, cutoff, n);
    BatchIs(t, cutoff, n);
    Clone(f);
    Clone(e);
    RemovedRows(t, ids, e);
    GoneIs(ids, e);
    CandidatesAre(b, cutoff, e);
    CandidatesAre(b, cutoff, c);
    hide Batch;
    hide Candidates;
    hide Protected;
    hide Age;
    hide Chosen;
    hide Base;
    assert b.presence == t.presence - Gone(ids) && b.devices == t.devices - Gone(ids);
    hide Gone;
    hide Removed;
    AgeLasts(t, b, cutoff, e);
    AgeLasts(t, b, cutoff, c);
    hide Less;
    hide Alias;
  }

  lemma {:induction false} EnoughRows(t: Tables, cutoff: int, n: nat)
    requires 0 < n && forall f :: !Stranded(t, cutoff, f)
    ensures SameRows(Repeat(t, cutoff, n), Whole(t, cutoff))
    decreases Size(t)
  {
    hide Whole;
    hide Stranded;
    var b := Batch(t, cutoff, n).0;
    if Batch(t, cutoff, n).1 {
      BatchShrinks(t, cutoff, n);
      BatchSameRows(t, cutoff, n);
      forall f
        ensures !Stranded(b, cutoff, f)
      {
        if Stranded(b, cutoff, f) {
          StrandedBefore(t, cutoff, n, f);
        }
      }
      hide Batch;
      hide Size;
      EnoughRows(b, cutoff, n);
    } else {
      BatchDone(t, cutoff, n);
      hide Batch;
    }
  }

  // Conversely, some size strands what can be stranded.

  lemma {:induction false} SplitBetween(t: Tables, cutoff: int, among: set<string>, x: string, y: string) returns (n: nat)
    requires x in among && y in among && Precedes(t, cutoff, x, y)
    ensures 0 < n && x in Selected(t, cutoff, among, n) && y !in Selected(t, cutoff, among, n)
    decreases |among|
  {
    var e := Oldest(t, cutoff, among);
    OldestIn(t, cutoff, among);
    PrecedesApart(t, cutoff, x, y);
    hide Oldest;
    hide Precedes;
    if e == x {
      n := 1;
      assert Selected(t, cutoff, among, 1) == [e] + Selected(t, cutoff, among - {e}, 0);
      assert Selected(t, cutoff, among - {e}, 0) == [];
    } else {
      assert e != y;
      var m := SplitBetween(t, cutoff, among - {e}, x, y);
      n := m + 1;
      assert Selected(t, cutoff, among, n) == [e] + Selected(t, cutoff, among - {e}, m);
    }
  }

  lemma PrecedesApart(t: Tables, cutoff: int, x: string, y: string)
    requires Precedes(t, cutoff, x, y)
    ensures x != y && !Precedes(t, cutoff, y, x)
  {
    LessIrreflexive(x);
    if Less(x, y) {
      LessAsymmetric(x, y);
    }
  }

  lemma StrandsSome(t: Tables, cutoff: int, f: string) returns (n: nat)
    requires Stranded(t, cutoff, f)
    ensures 0 < n && !SameRows(Repeat(t, cutoff, n), Whole(t, cutoff))
  {
    var e, c := "C-" + f, "C-" + ("C-" + f);
    Clone(f);
    n := SplitBetween(t, cutoff, Candidates(t, cutoff), c, e);
    SelectedFacts(t, cutoff, Candidates(t, cutoff), n);
    var b := Batch(t, cutoff, n).0;
    var spared := Spared(t, cutoff, Chosen(t, cutoff, n));
    assert e in spared;
    BatchLeaves(t, cutoff, n);
    GoneIs(Candidates(t, cutoff) - spared, e);
    GoneIs(spared, e);
    RemovedRows(t, Candidates(t, cutoff) - spared, e);
    WholeRows(t, cutoff, e);
    hide Candidates;
    hide Selected;
    hide Precedes;
    hide Spared;
    hide Gone;
    hide Removed;
    assert e in Rows(Whole(b, cutoff)) && e !in Rows(Whole(t, cutoff));
    if Batch(t, cutoff, n).1 {
      BatchShrinks(t, cutoff, n);
      RepeatKeeps(b, cutoff, n);
    } else {
      BatchDone(t, cutoff, n);
    }
    hide Batch;
    hide Chosen;
    hide Whole;
    hide Orphan;
  }

  /** Batches of every size remove exactly the device and presence rows that one
      unbounded cleanup does if and only if no row can be stranded. */
  lemma EverySizeSameRows(t: Tables, cutoff: int)
    ensures (forall n: nat :: 0 < n ==> SameRows(Repeat(t, cutoff, n), Whole(t, cutoff))) <==> forall f :: !Stranded(t, cutoff, f)
  {
    hide Whole;
    hide SameRows;
    hide Stranded;
    hide Repeat;
    if f :| Stranded(t, cutoff, f) {
      var n := StrandsSome(t, cutoff, f);
    } else {
      forall n: nat | 0 < n
        ensures SameRows(Repeat(t, cutoff, n), Whole(t, cutoff))
      {
        EnoughRows(t, cutoff, n);
      }
    }
  }

  // -------------------------------------------------------------------- witnesses

  lemma AgeOfOne(t: Tables, cutoff: int, e: string, id: string)
    requires id in Rows(t) && OldRowsOf(t, cutoff, e) == {id}
    ensures Age(t, cutoff, e) == ExpiredAt(t, id)
  {
    assert (set x | x in OldRowsOf(t, cutoff, e) :: ExpiredAt(t, x)) == {ExpiredAt(t, id)};
  }

  /** Such tables exist: with a clone's clone that has a clone itself, some batch
      size leaves the row of `C-x` that unbounded cleanup removes. */
  lemma RowStays()
    ensures var t := Tables(map["C-C-C-x" := Presence(false, 0), "C-C-x" := Presence(false, 1), "C-x" := Presence(false, 1),
                                "x" := Presence(true, 5)], map[], map[], {}, {});
            Stranded(t, 10, "x") && exists n: nat :: 0 < n && !SameRows(Repeat(t, 10, n), Whole(t, 10))
  {
    var t := Tables(map["C-C-C-x" := Presence(false, 0), "C-C-x" := Presence(false, 1), "C-x" := Presence(false, 1),
                        "x" := Presence(true, 5)], map[], map[], {}, {});
    assert "C-" + "C-C-x" == "C-C-C-x" && "C-" + "C-x" == "C-C-x" && "C-" + "x" == "C-x";
    CandidatesAre(t, 10, "C-x");
    CandidatesAre(t, 10, "C-C-x");
    CandidatesAre(t, 10, "x");
    assert "x" in Both("x") && Live(t, 10, "x");
    hide Candidates;
    forall id
      ensures Base(id) == "C-x" <==> id == "C-C-x"
      ensures Base(id) == "C-C-x" <==> id == "C-C-C-x"
    {
      BaseIs(id, "C-x");
      BaseIs(id, "C-C-x");
    }
    assert OldRowsOf(t, 10, "C-x") == {"C-C-x"} && OldRowsOf(t, 10, "C-C-x") == {"C-C-C-x"};
    AgeOfOne(t, 10, "C-x", "C-C-x");
    AgeOfOne(t, 10, "C-C-x", "C-C-C-x");
    hide Age;
    assert Stranded(t, 10, "x");
    EverySizeSameRows(t, 10);
    hide Stranded;
    hide Repeat;
    hide Whole;
  }

  lemma TwoCandidates(t: Tables)
    requires t == Tables(map["C-C-x" := Presence(false, 0), "C-x" := Presence(false, 1)], map[], map[("x", "y") := 20], {}, {})
    ensures Candidates(t, 10) == {"x", "C-x"}
  {
    assert "C-" + "C-x" == "C-C-x" && "C-" + "x" == "C-x";
    forall e
      ensures e in Candidates(t, 10) <==> e == "x" || e == "C-x"
    {
      CandidatesAre(t, 10, e);
      hide Candidates;
      Clone(e);
      assert "C-" + e == "C-x" ==> e == "x";
      assert "C-" + e == "C-C-x" ==> e == "C-x";
    }
    hide Candidates;
  }

  lemma CloneFirst(t: Tables)
    requires t == Tables(map["C-C-x" := Presence(false, 0), "C-x" := Presence(false, 1)], map[], map[("x", "y") := 20], {}, {})
    ensures Precedes(t, 10, "C-x", "x")
  {
    assert "C-" + "C-x" == "C-C-x" && "C-" + "x" == "C-x";
    forall id
      ensures Base(id) == "x" <==> id == "C-x" || id == "x"
      ensures Base(id) == "C-x" <==> id == "C-C-x"
    {
      BaseIs(id, "x");
      BaseIs(id, "C-x");
    }
    assert OldRowsOf(t, 10, "x") == {"C-x"} && OldRowsOf(t, 10, "C-x") == {"C-C-x"};
    AgeOfOne(t, 10, "x", "C-x");
    AgeOfOne(t, 10, "C-x", "C-C-x");
    hide Age;
  }

  /** An association can stay behind without any stranded row: its owner has no
      row left when the clone's own batch is over. */
  lemma AssociationStays()
    ensures var t := Tables(map["C-C-x" := Presence(false, 0), "C-x" := Presence(false, 1)], map[], map[("x", "y") := 20], {}, {});
            exists n: nat :: 0 < n && !Lossless(t, 10, n) && Whole(Batch(t, 10, n).0, 10) != Whole(t, 10)
  {
    var t := Tables(map["C-C-x" := Presence(false, 0), "C-x" := Presence(false, 1)], map[], map[("x", "y") := 20], {}, {});
    TwoCandidates(t);
    CloneFirst(t);
    hide Candidates;
    hide Precedes;
    var n := SplitBetween(t, 10, Candidates(t, 10), "C-x", "x");
    SelectedFacts(t, 10, Candidates(t, 10), n);
    hide Selected;
    SparesX(t, 10, n);
    BatchWhole(t, 10, n);
    hide Lossless;
    hide Whole;
    hide Batch;
  }

  lemma SparesX(t: Tables, cutoff: int, n: nat)
    requires t.associations == map[("x", "y") := 20] && cutoff <= 20 && "x" !in Rows(t)
    requires Candidates(t, cutoff) == {"x", "C-x"} && Chosen(t, cutoff, n) == {"C-x"}
    ensures !Lossless(t, cutoff, n)
  {
    var p := ("x", "y");
    assert "C-" + "x" == "C-x";
    assert Spared(t, cutoff, Chosen(t, cutoff, n)) == {"x"};
    assert Candidates(t, cutoff) - {"x"} == {"C-x"};
    hide Candidates;
    hide Chosen;
    assert Touches(p, "x") by {
      assert "x" in Both("x");
    }
    assert TouchesAny(p, {"x"});
    assert !Touches(p, "C-x");
    assert p in t.associations && !Orphan(t, cutoff, p);
  }

  // ------------------------------------------------------- what is kept, spelled out

  /** Seen since the cutoff: a presence that is online or was updated since, or a
      device without presence that the retention period began for since. */
  ghost predicate SeenSince(t: Tables, cutoff: int, id: string) {
    if id in t.presence then t.presence[id].online || t.presence[id].updated >= cutoff
    else id in t.devices && t.devices[id] >= cutoff
  }

  /** `e` has rows, under its own name or its clone's, none of them seen since the
      cutoff, and no session. */
  ghost predicate OutOfDate(t: Tables, cutoff: int, e: string) {
    && !SeenSince(t, cutoff, e) && !SeenSince(t, cutoff, ['C', '-'] + e) && e !in t.sessions
    && (['C', '-'] + e in Rows(t) || (e in Rows(t) && !(|e| >= 2 && e[0] == 'C' && e[1] == '-')))
  }

  ghost function Plain(id: string): string {
    if |id| >= 2 && id[0] == 'C' && id[1] == '-' then id[2..] else id
  }

  /** The id is that of an identity out of date, or of its clone. */
  ghost predicate Falls(t: Tables, cutoff: int, id: string) {
    OutOfDate(t, cutoff, id) || (id != Plain(id) && OutOfDate(t, cutoff, Plain(id)))
  }

  /** So is its record of activity, except a temporary controller's. */
  ghost predicate Forgotten(t: Tables, cutoff: int, id: string) {
    || (OutOfDate(t, cutoff, id) && !Temporary(id))
    || (id != Plain(id) && OutOfDate(t, cutoff, Plain(id)) && !Temporary(Plain(id)))
  }

  ghost predicate OwnerSeen(t: Tables, cutoff: int, id: string) {
    id in t.presence && (t.presence[id].online || t.presence[id].updated >= cutoff)
  }

  lemma OutOfDateIs(t: Tables, cutoff: int, e: string)
    ensures OutOfDate(t, cutoff, e) <==> e in Candidates(t, cutoff)
  {
    CandidatesAre(t, cutoff, e);
    assert Both(e) == {e, ['C', '-'] + e};
    AliasIs(e);
    hide Candidates;
    hide Both;
    hide Alias;
    hide Rows;
  }

  lemma AliasIs(id: string)
    ensures Alias(id) <==> |id| >= 2 && id[0] == 'C' && id[1] == '-'
    ensures Plain(id) == Base(id)
  {
    assert |id| >= 2 ==> id[..2] == [id[0], id[1]];
  }

  lemma GoneWhen(ids: set<string>, id: string)
    ensures id in Gone(ids) <==> id in ids || (id != Plain(id) && Plain(id) in ids)
  {
    if id in Gone(ids) {
      var e :| e in ids && id in Both(e);
      assert id != e ==> id[2..] == e;
    }
    if id in ids {
      assert id in Both(id);
    }
    if id != Plain(id) {
      assert "C-" + Plain(id) == id;
      assert id in Both(Plain(id));
    }
  }

  lemma FallsIs(t: Tables, cutoff: int, id: string)
    ensures Falls(t, cutoff, id) <==> id in Gone(Candidates(t, cutoff))
    ensures Forgotten(t, cutoff, id) <==> id in Gone(Permanent(Candidates(t, cutoff)))
  {
    var ids := Candidates(t, cutoff);
    OutOfDateIs(t, cutoff, id);
    OutOfDateIs(t, cutoff, Plain(id));
    hide Candidates;
    hide OutOfDate;
    hide Temporary;
    GoneWhen(ids, id);
    GoneWhen(Permanent(ids), id);
    hide Gone;
    hide Plain;
  }

  lemma TouchesFalls(t: Tables, cutoff: int, p: (string, string))
    ensures TouchesAny(p, Candidates(t, cutoff)) <==> Falls(t, cutoff, p.0) || Falls(t, cutoff, p.1)
  {
    FallsIs(t, cutoff, p.0);
    FallsIs(t, cutoff, p.1);
    hide Candidates;
    hide Falls;
    hide Both;
  }

  lemma OwnersSeen(t: Tables, cutoff: int, e: string)
    ensures (exists id :: id in Both(e) && Live(t, cutoff, id)) <==> OwnerSeen(t, cutoff, e) || OwnerSeen(t, cutoff, ['C', '-'] + e)
  {
    assert Both(e) == {e, ['C', '-'] + e};
  }

  /** What an unbounded cleanup keeps, row by row: presences and devices but of
      identities out of date and their clones, activity likewise but for temporary
      controllers; associations but theirs, and those not updated since the cutoff
      whose owner was not seen since and has no session. */
  lemma WholeKeepsIff(t: Tables, cutoff: int, id: string, p: (string, string))
    ensures var u := Whole(t, cutoff);
            && (id in u.presence <==> id in t.presence && !Falls(t, cutoff, id))
            && (forall a :: a in u.activity && a.0 == id <==> a in t.activity && a.0 == id && !Forgotten(t, cutoff, id))
            && (id in u.devices <==> id in t.devices && !Falls(t, cutoff, id))
            && (p in u.associations <==>
                  && p in t.associations && !Falls(t, cutoff, p.0) && !Falls(t, cutoff, p.1)
                  && (|| t.associations[p] >= cutoff || Plain(p.0) in t.sessions
                      || OwnerSeen(t, cutoff, Plain(p.0)) || OwnerSeen(t, cutoff, ['C', '-'] + Plain(p.0))))
  {
    hide Candidates;
    hide Falls;
    hide Forgotten;
    hide Gone;
    hide Permanent;
    hide TouchesAny;
    hide Both;
    var ids := Candidates(t, cutoff);
    CandidatesLoose(t, cutoff);
    CleanedIs(t, cutoff, ids);
    FallsIs(t, cutoff, id);
    TouchesFalls(t, cutoff, p);
    AliasIs(p.0);
    hide Plain;
    hide Base;
    OwnersSeen(t, cutoff, Plain(p.0));
  }
}
