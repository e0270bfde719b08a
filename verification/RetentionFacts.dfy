/** What one batch of device cleanup does, compared with an unbounded one, for
    any tables. */
module RetentionFacts {
  import opened Ordering
  import opened RoomsSpec
  import opened Retention

  // -------------------------------------------------- who is a candidate, exactly

  lemma BaseIs(id: string, e: string)
    ensures Base(id) == e <==> id == "C-" + e || (id == e && !Alias(e))
  {
    if Alias(id) {
      assert id == "C-" + id[2..];
    }
    assert Alias("C-" + e) && ("C-" + e)[2..] == e;
  }

  /** The identity has a row that counts for it: its own, unless it is spelled as
      a clone, or its clone's. */
  predicate Owns(t: Tables, e: string) {
    (!Alias(e) && e in Rows(t)) || "C-" + e in Rows(t)
  }

  /** Every row of an unprotected identity is old. */
  lemma UnprotectedOld(t: Tables, cutoff: int, e: string, id: string)
    requires !Protected(t, cutoff, e) && id in Both(e) && id in Rows(t)
    ensures OldRow(t, cutoff, id) && !Live(t, cutoff, id)
  {
    hide Both;
  }

  lemma CandidatesAre(t: Tables, cutoff: int, e: string)
    ensures e in Candidates(t, cutoff) <==> !Protected(t, cutoff, e) && Owns(t, e)
  {
    hide Protected;
    hide OldRow;
    hide Live;
    hide Alias;
    hide Base;
    if e in Candidates(t, cutoff) {
      var id :| id in Rows(t) && OldRow(t, cutoff, id) && !Protected(t, cutoff, Base(id)) && Base(id) == e;
      BaseIs(id, e);
    }
    if !Protected(t, cutoff, e) && Owns(t, e) {
      var id := if !Alias(e) && e in Rows(t) then e else "C-" + e;
      BaseIs(id, e);
      UnprotectedOld(t, cutoff, e, id);
    }
  }

  /** No identity of the set is protected. */
  ghost predicate Loose(t: Tables, cutoff: int, ids: set<string>) {
    forall e :: e in ids ==> !Protected(t, cutoff, e)
  }

  lemma CandidatesLoose(t: Tables, cutoff: int)
    ensures Loose(t, cutoff, Candidates(t, cutoff))
  {
    hide Protected;
    hide OldRow;
  }

  /** Dropping unprotected identities changes nobody's protection. */
  lemma RemovedProtected(t: Tables, cutoff: int, ids: set<string>, e: string)
    requires Loose(t, cutoff, ids)
    ensures Protected(Removed(t, ids), cutoff, e) <==> Protected(t, cutoff, e)
  {
    forall id
      ensures Live(Removed(t, ids), cutoff, id) <==> Live(t, cutoff, id)
    {
      RemovedLive(t, cutoff, ids, id);
    }
    forall id
      ensures id in Removed(t, ids).devices && id !in Removed(t, ids).presence && t.devices[id] >= cutoff
              <==> id in t.devices && id !in t.presence && t.devices[id] >= cutoff
    {
      RemovedRecent(t, cutoff, ids, id);
    }
    hide Both;
    hide Live;
    hide Gone;
  }

  lemma RemovedLive(t: Tables, cutoff: int, ids: set<string>, id: string)
    requires Loose(t, cutoff, ids)
    ensures Live(Removed(t, ids), cutoff, id) <==> Live(t, cutoff, id)
  {
    hide Protected;
    hide Both;
    if id in Gone(ids) && id in Rows(t) {
      var e :| e in ids && id in Both(e);
      UnprotectedOld(t, cutoff, e, id);
    }
    hide Gone;
  }

  lemma RemovedRecent(t: Tables, cutoff: int, ids: set<string>, id: string)
    requires Loose(t, cutoff, ids)
    ensures id in Removed(t, ids).devices && id !in Removed(t, ids).presence && t.devices[id] >= cutoff
            <==> id in t.devices && id !in t.presence && t.devices[id] >= cutoff
  {
    hide Protected;
    hide Both;
    if id in Gone(ids) && id in Rows(t) {
      var e :| e in ids && id in Both(e);
      UnprotectedOld(t, cutoff, e, id);
    }
    hide Gone;
  }

  lemma RemovedRows(t: Tables, ids: set<string>, id: string)
    ensures id in Rows(Removed(t, ids)) <==> id in Rows(t) && id !in Gone(ids)
  {
    hide Gone;
  }

  lemma GoneIs(ids: set<string>, id: string)
    ensures id in Gone(ids) <==> id in ids || (Alias(id) && id[2..] in ids)
  {
    if id in Gone(ids) {
      var e :| e in ids && id in Both(e);
      assert id == e || (id == "C-" + e && id[2..] == e && Alias(id));
    }
    if id in ids {
      assert id in Both(id);
    }
    if Alias(id) && id[2..] in ids {
      assert id == "C-" + id[2..];
      assert id in Both(id[2..]);
    }
  }

  /** The candidates a batch spares: not dropped themselves, but their only row
      goes with their clone, which is dropped as an identity of its own. */
  function Spared(t: Tables, cutoff: int, ids: set<string>): set<string> {
    set e | e in Candidates(t, cutoff) && e !in ids && "C-" + e in ids && (Alias(e) || e !in Rows(t))
  }

  /** Who is a candidate after some candidates were dropped. */
  lemma CandidatesLeft(t: Tables, cutoff: int, ids: set<string>)
    requires ids <= Candidates(t, cutoff)
    ensures Candidates(Removed(t, ids), cutoff) == Candidates(t, cutoff) - ids - Spared(t, cutoff, ids)
  {
    CandidatesLoose(t, cutoff);
    forall e
      ensures e in Candidates(Removed(t, ids), cutoff) <==> e in Candidates(t, cutoff) - ids - Spared(t, cutoff, ids)
    {
      CandidatesAre(t, cutoff, e);
      CandidatesAre(Removed(t, ids), cutoff, e);
      hide Candidates;
      RemovedProtected(t, cutoff, ids, e);
      hide Protected;
      OwnsLeft(t, ids, e);
      hide Owns;
      hide Removed;
      assert e in Spared(t, cutoff, ids) <==> e in Candidates(t, cutoff) && e !in ids && "C-" + e in ids && (Alias(e) || e !in Rows(t));
      OwnsSpared(t, e);
    }
    hide Candidates;
    hide Spared;
  }

  lemma OwnsSpared(t: Tables, e: string)
    ensures Owns(t, e) <==> (!Alias(e) && e in Rows(t)) || "C-" + e in Rows(t)
  {
  }

  lemma OwnsLeft(t: Tables, ids: set<string>, e: string)
    ensures Owns(Removed(t, ids), e) <==>
            e !in ids && ((!Alias(e) && e in Rows(t)) || ("C-" + e in Rows(t) && "C-" + e !in ids))
  {
    RemovedRows(t, ids, e);
    RemovedRows(t, ids, "C-" + e);
    GoneIs(ids, e);
    GoneIs(ids, "C-" + e);
    assert ("C-" + e)[2..] == e && Alias("C-" + e);
    hide Removed;
    hide Gone;
    hide Rows;
  }

  // ------------------------------------------------------------ sets of identities

  lemma RemovedNone(t: Tables)
    ensures Removed(t, {}) == t
  {
    assert Gone({}) == {} && Permanent({}) == {};
    assert t.presence - {} == t.presence && t.devices - {} == t.devices;
    assert Removed(t, {}).activity == t.activity;
  }

  lemma GoneMore(a: set<string>, b: set<string>)
    ensures Gone(a + b) == Gone(a) + Gone(b)
    ensures Permanent(a + b) == Permanent(a) + Permanent(b)
  {
    hide Both;
    hide Temporary;
  }

  lemma TouchesMore(p: (string, string), a: set<string>, b: set<string>)
    ensures TouchesAny(p, a + b) <==> TouchesAny(p, a) || TouchesAny(p, b)
  {
    hide Touches;
  }

  lemma RemovedTwice(t: Tables, a: set<string>, b: set<string>)
    ensures Removed(Removed(t, a), b) == Removed(t, a + b)
  {
    GoneMore(a, b);
    GoneMore(Permanent(a), Permanent(b));
    hide Gone;
    hide Permanent;
    assert t.presence - Gone(a) - Gone(b) == t.presence - (Gone(a) + Gone(b));
    assert t.devices - Gone(a) - Gone(b) == t.devices - (Gone(a) + Gone(b));
    forall p
      ensures TouchesAny(p, a + b) <==> TouchesAny(p, a) || TouchesAny(p, b)
    {
      TouchesMore(p, a, b);
    }
    hide TouchesAny;
    assert Removed(Removed(t, a), b).associations == Removed(t, a + b).associations;
    assert Removed(Removed(t, a), b).activity == Removed(t, a + b).activity;
  }

  lemma DropIs(t: Tables, e: string)
    ensures Drop(t, e) == Removed(t, {e})
  {
    assert Gone({e}) == Both(e);
    assert Permanent({e}) == if Temporary(e) then {} else {e};
    assert Gone({}) == {};
    assert forall p :: TouchesAny(p, {e}) <==> Touches(p, e);
    hide Both;
    hide Touches;
    hide TouchesAny;
    hide Gone;
    hide Permanent;
    hide Temporary;
    assert Drop(t, e).associations == Removed(t, {e}).associations;
    assert Drop(t, e).activity == Removed(t, {e}).activity;
  }

  /** Dropping identities one after the other drops them as a set. */
  lemma {:induction false} DropAllIs(t: Tables, ids: seq<string>)
    ensures DropAll(t, ids) == Removed(t, set e | e in ids)
    decreases |ids|
  {
    hide Removed;
    hide Drop;
    if ids == [] {
      assert (set e | e in ids) == {};
      RemovedNone(t);
    } else {
      DropIs(t, ids[0]);
      DropAllIs(Drop(t, ids[0]), ids[1..]);
      RemovedTwice(t, {ids[0]}, set e | e in ids[1..]);
      assert ids == [ids[0]] + ids[1..];
      assert {ids[0]} + (set e | e in ids[1..]) == set e | e in ids;
    }
  }

  // -------------------------------------------------------- what a cleanup leaves

  ghost function Cleaned(t: Tables, cutoff: int, ids: set<string>): Tables {
    Swept(Removed(t, ids), cutoff)
  }

  lemma OrphanLeft(t: Tables, cutoff: int, ids: set<string>, p: (string, string))
    requires Loose(t, cutoff, ids)
    ensures Orphan(Removed(t, ids), cutoff, p) <==> Orphan(t, cutoff, p) && !TouchesAny(p, ids)
  {
    forall id
      ensures Live(Removed(t, ids), cutoff, id) <==> Live(t, cutoff, id)
    {
      RemovedLive(t, cutoff, ids, id);
    }
    hide Live;
    hide Gone;
    hide Permanent;
    hide TouchesAny;
  }

  /** Cleanup of unprotected identities, table by table. */
  lemma CleanedIs(t: Tables, cutoff: int, ids: set<string>)
    requires Loose(t, cutoff, ids)
    ensures Cleaned(t, cutoff, ids) ==
            t.(presence := t.presence - Gone(ids),
               devices := t.devices - Gone(ids),
               associations := map p | p in t.associations && !TouchesAny(p, ids) && !Orphan(t, cutoff, p) :: t.associations[p],
               activity := set a | a in t.activity && a.0 !in Gone(Permanent(ids)))
  {
    var u := Removed(t, ids);
    forall p
      ensures p in Orphans(u, cutoff) <==> Orphan(t, cutoff, p) && !TouchesAny(p, ids)
    {
      OrphanLeft(t, cutoff, ids, p);
    }
    hide Orphans;
    hide Orphan;
    hide TouchesAny;
    hide Gone;
    hide Permanent;
    assert Cleaned(t, cutoff, ids).associations
           == map p | p in t.associations && !TouchesAny(p, ids) && !Orphan(t, cutoff, p) :: t.associations[p];
  }

  /** Associations do not decide who is a candidate. */
  lemma AssociationsAside(t: Tables, u: Tables, cutoff: int)
    requires u == t.(associations := u.associations)
    ensures Candidates(u, cutoff) == Candidates(t, cutoff)
    ensures forall e :: Protected(u, cutoff, e) <==> Protected(t, cutoff, e)
    ensures forall p :: p in u.associations && p in t.associations && u.associations[p] == t.associations[p] ==>
              (Orphan(u, cutoff, p) <==> Orphan(t, cutoff, p))
  {
    assert forall id :: (OldRow(u, cutoff, id) <==> OldRow(t, cutoff, id)) && (Live(u, cutoff, id) <==> Live(t, cutoff, id));
    assert forall e :: Protected(u, cutoff, e) <==> Protected(t, cutoff, e);
    hide Protected;
    hide OldRow;
    hide Live;
  }

  lemma LooseLeft(t: Tables, u: Tables, cutoff: int, a: set<string>, b: set<string>)
    requires Loose(t, cutoff, a + b) && u == Removed(t, a).(associations := u.associations)
    ensures Loose(t, cutoff, a) && Loose(u, cutoff, b)
  {
    hide Protected;
    assert Loose(t, cutoff, a) by {
      assert forall e :: e in a ==> e in a + b;
    }
    AssociationsAside(Removed(t, a), u, cutoff);
    forall e | e in b
      ensures !Protected(u, cutoff, e)
    {
      assert e in a + b;
      RemovedProtected(t, cutoff, a, e);
    }
    hide Removed;
    hide Candidates;
  }

  lemma OrphanTwice(t: Tables, u: Tables, cutoff: int, a: set<string>, p: (string, string))
    requires Loose(t, cutoff, a) && u == Removed(t, a).(associations := u.associations)
    requires p in u.associations ==> p in Removed(t, a).associations && u.associations[p] == Removed(t, a).associations[p]
    ensures p in u.associations ==> (Orphan(u, cutoff, p) <==> Orphan(t, cutoff, p)) && p in t.associations && !TouchesAny(p, a)
                                    && u.associations[p] == t.associations[p]
  {
    AssociationsAside(Removed(t, a), u, cutoff);
    OrphanLeft(t, cutoff, a, p);
    hide Orphan;
    hide Candidates;
    hide Protected;
    hide TouchesAny;
    hide Gone;
    hide Permanent;
  }

  /** Cleaning in two steps, with some orphans removed in between, is cleaning in one. */
  lemma CleanedTwice(t: Tables, u: Tables, cutoff: int, a: set<string>, b: set<string>, gone: set<(string, string)>)
    requires Loose(t, cutoff, a + b) && gone <= Orphans(Removed(t, a), cutoff)
    requires u == Removed(t, a).(associations := Removed(t, a).associations - gone)
    ensures Cleaned(u, cutoff, b) == Cleaned(t, cutoff, a + b)
  {
    hide Cleaned;
    hide TouchesAny;
    hide Loose;
    hide Gone;
    hide Permanent;
    LooseLeft(t, u, cutoff, a, b);
    CleanedIs(u, cutoff, b);
    CleanedIs(t, cutoff, a + b);
    CleanedTwiceRest(t, u, cutoff, a, b);
    var x, y := Cleaned(u, cutoff, b).associations, Cleaned(t, cutoff, a + b).associations;
    forall p
      ensures p in x <==> p in y
      ensures p in x ==> x[p] == y[p]
    {
      TouchesMore(p, a, b);
      OrphanTwice(t, u, cutoff, a, p);
      OrphanLeft(t, cutoff, a, p);
      assert p in gone ==> Orphan(t, cutoff, p);
      hide Orphan;
    }
    hide Orphan;
    hide Orphans;
    assert x == y;
  }

  lemma CleanedTwiceRest(t: Tables, u: Tables, cutoff: int, a: set<string>, b: set<string>)
    requires u == Removed(t, a).(associations := u.associations)
    ensures u.presence - Gone(b) == t.presence - Gone(a + b) && u.devices - Gone(b) == t.devices - Gone(a + b)
    ensures (set x | x in u.activity && x.0 !in Gone(Permanent(b))) == (set x | x in t.activity && x.0 !in Gone(Permanent(a + b)))
  {
    RemovedTwice(t, a, b);
    GoneMore(a, b);
    GoneMore(Permanent(a), Permanent(b));
    hide Gone;
    hide Permanent;
    hide TouchesAny;
  }
}
