/** The iteration order of the server's ordered containers.

    `std::map` visits its keys in increasing order. String keys compare
    lexicographically; connection handles compare by owner, which the model
    numbers, so they compare as numbers. */
module Ordering {

  datatype Option<+T> = None | Some(value: T)

  predicate Less(a: string, b: string) {
    b != [] && (a == [] || a[0] < b[0] || (a[0] == b[0] && Less(a[1..], b[1..])))
  }

  lemma {:induction false} LessIrreflexive(a: string)
    ensures !Less(a, a)
  {
    if a != [] {
      LessIrreflexive(a[1..]);
    }
  }

  lemma {:induction false} LessTransitive(a: string, b: string, c: string)
    requires Less(a, b) && Less(b, c)
    ensures Less(a, c)
  {
    if a != [] && a[0] == b[0] && b[0] == c[0] {
      LessTransitive(a[1..], b[1..], c[1..]);
    }
  }

  lemma {:induction false} LessTotal(a: string, b: string)
    ensures a == b || Less(a, b) || Less(b, a)
  {
    if a != [] && b != [] && a[0] == b[0] {
      LessTotal(a[1..], b[1..]);
      if a[1..] == b[1..] {
        assert a == [a[0]] + a[1..] == b;
      }
    }
  }

  lemma LessAsymmetric(a: string, b: string)
    requires Less(a, b)
    ensures !Less(b, a) && a != b
  {
    LessIrreflexive(a);
    if Less(b, a) {
      LessTransitive(a, b, a);
    }
  }

  predicate IsLeast(s: set<string>, m: string) {
    m in s && forall x :: x in s && x != m ==> Less(m, x)
  }

  lemma LeastExists(s: set<string>)
    requires s != {}
    ensures exists m :: IsLeast(s, m)
  {
    var x :| x in s;
    if s == {x} {
      assert IsLeast(s, x);
    } else {
      var rest := s - {x};
      LeastExists(rest);
      var m :| IsLeast(rest, m);
      LessTotal(x, m);
      if Less(x, m) {
        forall y | y in s && y != x
          ensures Less(x, y)
        {
          if y != m {
            LessTransitive(x, m, y);
          }
        }
        assert IsLeast(s, x);
      } else {
        assert IsLeast(s, m);
      }
    }
  }

  lemma LeastUnique(s: set<string>, a: string, b: string)
    requires IsLeast(s, a) && IsLeast(s, b)
    ensures a == b
  {
    if a != b {
      LessAsymmetric(a, b);
    }
  }

  function Least(s: set<string>): (m: string)
    requires s != {}
    ensures IsLeast(s, m)
  {
    LeastExists(s);
    assert forall a, b :: IsLeast(s, a) && IsLeast(s, b) ==> a == b by {
      forall a, b | IsLeast(s, a) && IsLeast(s, b)
        ensures a == b
      {
        LeastUnique(s, a, b);
      }
    }
    var m :| m in s && IsLeast(s, m);
    m
  }

  /** Keys in the order in which `std::map` visits them. */
  function SortedKeys(s: set<string>): (r: seq<string>)
    ensures forall k :: k in r <==> k in s
    ensures forall i, j :: 0 <= i < j < |r| ==> Less(r[i], r[j])
    ensures |r| == |s|
  {
    if s == {} then [] else var m := Least(s); [m] + SortedKeys(s - {m})
  }

  predicate IsLeastNat(s: set<nat>, m: nat) {
    m in s && forall x :: x in s ==> m <= x
  }

  lemma LeastNatExists(s: set<nat>)
    requires s != {}
    ensures exists m :: IsLeastNat(s, m)
  {
    var x :| x in s;
    var rest := s - {x};
    if rest == {} {
      assert s == {x};
      assert IsLeastNat(s, x);
    } else {
      LeastNatExists(rest);
      var m :| IsLeastNat(rest, m);
      assert s == rest + {x};
      assert IsLeastNat(s, if m < x then m else x);
    }
  }

  function LeastNat(s: set<nat>): (m: nat)
    requires s != {}
    ensures IsLeastNat(s, m)
  {
    LeastNatExists(s);
    var m :| m in s && IsLeastNat(s, m);
    m
  }

  lemma LeastFirst(s: set<nat>, m: nat, rest: seq<nat>)
    requires IsLeastNat(s, m) && |rest| + 1 == |s|
    requires forall k :: k in rest <==> k in s && k != m
    requires forall i, j :: 0 <= i < j < |rest| ==> rest[i] < rest[j]
    ensures var r := [m] + rest;
            && (forall k :: k in r <==> k in s) && (forall i, j :: 0 <= i < j < |r| ==> r[i] < r[j])
  {
    forall j | 0 <= j < |rest|
      ensures m < rest[j]
    {
      assert rest[j] in rest;
    }
    hide IsLeastNat;
  }

  /** Handles in the order in which an owner-ordered map visits them. */
  function SortedNats(s: set<nat>): (r: seq<nat>)
    ensures forall k :: k in r <==> k in s
    ensures forall i, j :: 0 <= i < j < |r| ==> r[i] < r[j]
    ensures |r| == |s|
  {
    if s == {} then []
    else
      var m := LeastNat(s);
      LeastFirst(s, m, SortedNats(s - {m}));
      [m] + SortedNats(s - {m})
  }

  // ------------------------------------------------------------------- pairs

  function PairsWith(a: string, bs: seq<string>): (r: seq<(string, string)>)
    ensures forall p :: p in r <==> p.0 == a && p.1 in bs
  {
    if bs == [] then [] else [(a, bs[0])] + PairsWith(a, bs[1..])
  }

  function PairsFrom(s: set<(string, string)>, firsts: seq<string>): seq<(string, string)> {
    if firsts == [] then []
    else PairsWith(firsts[0], SortedKeys(set p | p in s && p.0 == firsts[0] :: p.1)) + PairsFrom(s, firsts[1..])
  }

  /** Pairs of strings in lexicographic order, first components first. */
  function SortedPairs(s: set<(string, string)>): seq<(string, string)> {
    PairsFrom(s, SortedKeys(set p | p in s :: p.0))
  }

  lemma {:induction false} PairsFromHas(s: set<(string, string)>, firsts: seq<string>, p: (string, string))
    ensures p in PairsFrom(s, firsts) <==> p in s && p.0 in firsts
  {
    if firsts != [] {
      var seconds := set q | q in s && q.0 == firsts[0] :: q.1;
      assert p.0 == firsts[0] ==> (p.1 in seconds <==> p in s);
      PairsFromHas(s, firsts[1..], p);
      assert firsts == [firsts[0]] + firsts[1..];
    }
  }

  lemma SortedPairsHas(s: set<(string, string)>, p: (string, string))
    ensures p in SortedPairs(s) <==> p in s
  {
    var firsts := set q | q in s :: q.0;
    assert p in s ==> p.0 in firsts;
    PairsFromHas(s, SortedKeys(firsts), p);
  }
}
