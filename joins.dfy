/** The equi-join the engine's SQL queries perform between the request's point set and a
    table, and the model filter they all apply. The database returns such rows in an order
    of its own; the model produces them grouped by point, in point order, and by table order
    within a point; the lemmas below characterise the rows independently of that order. */
module Joins {
  import opened Common

  /** The join rows of one left element with every right element it matches, in order. */
  function Partners<P, F>(p: P, fs: seq<F>, matches: (P, F) -> bool): seq<(P, F)> {
    if fs == [] then []
    else (if matches(p, fs[0]) then [(p, fs[0])] else []) + Partners(p, fs[1..], matches)
  }

  /** The join rows of ps with fs, grouped by ps. */
  function Pairs<P, F>(ps: seq<P>, fs: seq<F>, matches: (P, F) -> bool): seq<(P, F)> {
    if ps == [] then [] else Partners(ps[0], fs, matches) + Pairs(ps[1..], fs, matches)
  }

  /** The rows of a table that a WHERE clause keeps, in table order. */
  function Select<F>(fs: seq<F>, keep: F -> bool): seq<F> {
    if fs == [] then [] else (if keep(fs[0]) then [fs[0]] else []) + Select(fs[1..], keep)
  }

  function Map<X, Y>(xs: seq<X>, f: X -> Y): (ys: seq<Y>)
    ensures |ys| == |xs| && forall k :: 0 <= k < |xs| ==> ys[k] == f(xs[k])
  {
    seq(|xs|, k requires 0 <= k < |xs| => f(xs[k]))
  }

  /** The output records of a join: one record per join row. */
  function Join<P, F, R>(ps: seq<P>, fs: seq<F>, matches: (P, F) -> bool, row: (P, F) -> R): (r: seq<R>)
    ensures |r| == |Pairs(ps, fs, matches)|
    ensures forall k :: 0 <= k < |r| ==> r[k] == row(Pairs(ps, fs, matches)[k].0, Pairs(ps, fs, matches)[k].1)
  {
    Map(Pairs(ps, fs, matches), (pr: (P, F)) => row(pr.0, pr.1))
  }

  /** The records one left element contributes. */
  function JoinOne<P, F, R>(p: P, fs: seq<F>, matches: (P, F) -> bool, row: (P, F) -> R): seq<R> {
    Map(Partners(p, fs, matches), (pr: (P, F)) => row(pr.0, pr.1))
  }

  /** A join is the records of the first left element followed by those of the rest. */
  lemma JoinCons<P, F, R>(ps: seq<P>, fs: seq<F>, matches: (P, F) -> bool, row: (P, F) -> R)
    requires ps != []
    ensures Join(ps, fs, matches, row) == JoinOne(ps[0], fs, matches, row) + Join(ps[1..], fs, matches, row)
  {
    MapConcat(Partners(ps[0], fs, matches), Pairs(ps[1..], fs, matches), (pr: (P, F)) => row(pr.0, pr.1));
  }

  lemma JoinOneCons<P, F, R>(p: P, fs: seq<F>, matches: (P, F) -> bool, row: (P, F) -> R)
    requires fs != []
    ensures JoinOne(p, fs, matches, row) ==
      (if matches(p, fs[0]) then [row(p, fs[0])] else []) + JoinOne(p, fs[1..], matches, row)
  {
    var head := if matches(p, fs[0]) then [(p, fs[0])] else [];
    MapConcat(head, Partners(p, fs[1..], matches), (pr: (P, F)) => row(pr.0, pr.1));
  }

  lemma {:induction false} PartnersMember<P, F>(p: P, fs: seq<F>, matches: (P, F) -> bool, pr: (P, F))
    ensures pr in Partners(p, fs, matches) <==> pr.0 == p && pr.1 in fs && matches(p, pr.1)
  {
    if fs != [] {
      PartnersMember(p, fs[1..], matches, pr);
      assert fs == [fs[0]] + fs[1..];
    }
  }

  /** A join row is exactly a matching pair of a left and a right element. */
  lemma {:induction false} PairsMember<P, F>(ps: seq<P>, fs: seq<F>, matches: (P, F) -> bool, pr: (P, F))
    ensures pr in Pairs(ps, fs, matches) <==> pr.0 in ps && pr.1 in fs && matches(pr.0, pr.1)
  {
    if ps != [] {
      PartnersMember(ps[0], fs, matches, pr);
      PairsMember(ps[1..], fs, matches, pr);
      assert ps == [ps[0]] + ps[1..];
    }
  }

  lemma {:induction false} PartnersNoDup<P, F>(p: P, fs: seq<F>, matches: (P, F) -> bool)
    requires NoDup(fs)
    ensures NoDup(Partners(p, fs, matches))
  {
    if fs != [] {
      assert NoDup(fs[1..]) by {
        forall i, j | 0 <= i < |fs[1..]| && 0 <= j < |fs[1..]| && i != j
          ensures fs[1..][i] != fs[1..][j]
        {
          assert fs[1..][i] == fs[i + 1] && fs[1..][j] == fs[j + 1];
        }
      }
      PartnersNoDup(p, fs[1..], matches);
      var head := if matches(p, fs[0]) then [(p, fs[0])] else [];
      forall x | x in head ensures x !in Partners(p, fs[1..], matches) {
        PartnersMember(p, fs[1..], matches, x);
        forall k | 0 <= k < |fs[1..]| ensures fs[1..][k] != fs[0] {
          assert fs[1..][k] == fs[k + 1];
        }
      }
      NoDupConcat(head, Partners(p, fs[1..], matches));
    }
  }

  lemma {:induction false} PairsNoDup<P, F>(ps: seq<P>, fs: seq<F>, matches: (P, F) -> bool)
    requires NoDup(ps) && NoDup(fs)
    ensures NoDup(Pairs(ps, fs, matches))
  {
    if ps != [] {
      assert NoDup(ps[1..]) by {
        forall i, j | 0 <= i < |ps[1..]| && 0 <= j < |ps[1..]| && i != j
          ensures ps[1..][i] != ps[1..][j]
        {
          assert ps[1..][i] == ps[i + 1] && ps[1..][j] == ps[j + 1];
        }
      }
      PartnersNoDup(ps[0], fs, matches);
      PairsNoDup(ps[1..], fs, matches);
      forall x | x in Partners(ps[0], fs, matches) ensures x !in Pairs(ps[1..], fs, matches) {
        PartnersMember(ps[0], fs, matches, x);
        PairsMember(ps[1..], fs, matches, x);
        forall k | 0 <= k < |ps[1..]| ensures ps[1..][k] != ps[0] {
          assert ps[1..][k] == ps[k + 1];
        }
      }
      NoDupConcat(Partners(ps[0], fs, matches), Pairs(ps[1..], fs, matches));
    }
  }

  /** When distinct matching pairs give distinct records, the join yields every record of
      the set of matching pairs exactly once, whatever the order of its rows. */
  lemma JoinExact<P, F, R>(ps: seq<P>, fs: seq<F>, matches: (P, F) -> bool, row: (P, F) -> R)
    requires NoDup(ps) && NoDup(fs)
    requires forall p1, f1, p2, f2 ::
      (p1 in ps && f1 in fs && matches(p1, f1) && p2 in ps && f2 in fs && matches(p2, f2) &&
       row(p1, f1) == row(p2, f2)) ==> p1 == p2 && f1 == f2
    ensures NoDup(Join(ps, fs, matches, row))
    ensures multiset(Join(ps, fs, matches, row))
         == multiset(set p, f | p in ps && f in fs && matches(p, f) :: row(p, f))
  {
    var pairs := Pairs(ps, fs, matches);
    var r := Join(ps, fs, matches, row);
    PairsNoDup(ps, fs, matches);
    forall i, j | 0 <= i < |r| && 0 <= j < |r| && i != j ensures r[i] != r[j] {
      PairsMember(ps, fs, matches, pairs[i]);
      PairsMember(ps, fs, matches, pairs[j]);
    }
    var s := set p, f | p in ps && f in fs && matches(p, f) :: row(p, f);
    forall x ensures x in r <==> x in s {
      if x in r {
        var k :| 0 <= k < |r| && r[k] == x;
        PairsMember(ps, fs, matches, pairs[k]);
      }
      if x in s {
        var p, f :| p in ps && f in fs && matches(p, f) && x == row(p, f);
        PairsMember(ps, fs, matches, (p, f));
        var k :| 0 <= k < |pairs| && pairs[k] == (p, f);
        assert r[k] == x;
      }
    }
    NoDupMultiset(r, s);
  }

  /** Join rows come grouped by the left element: when the left elements carry strictly
      increasing keys, the rows' keys never decrease. */
  lemma {:induction false} PairsGrouped<P, F>(ps: seq<P>, fs: seq<F>, matches: (P, F) -> bool, key: P -> int)
    requires forall i, j :: 0 <= i < j < |ps| ==> key(ps[i]) < key(ps[j])
    ensures forall i, j :: 0 <= i < j < |Pairs(ps, fs, matches)| ==>
              key(Pairs(ps, fs, matches)[i].0) <= key(Pairs(ps, fs, matches)[j].0)
  {
    if ps != [] {
      var head, tail := Partners(ps[0], fs, matches), Pairs(ps[1..], fs, matches);
      PairsGrouped(ps[1..], fs, matches, key);
      var pairs := head + tail;
      forall i, j | 0 <= i < j < |pairs| ensures key(pairs[i].0) <= key(pairs[j].0) {
        if i < |head| {
          assert pairs[i] in head;
          PartnersMember(ps[0], fs, matches, pairs[i]);
          if j < |head| {
            assert pairs[j] in head;
            PartnersMember(ps[0], fs, matches, pairs[j]);
          } else {
            assert pairs[j] == tail[j - |head|];
            PairsMember(ps[1..], fs, matches, pairs[j]);
            var k :| 0 <= k < |ps[1..]| && ps[1..][k] == pairs[j].0;
            assert ps[1..][k] == ps[k + 1];
            assert key(ps[0]) < key(ps[k + 1]);
          }
        } else {
          var i', j' := i - |head|, j - |head|;
          assert pairs[i] == tail[i'] && pairs[j] == tail[j'];
          assert 0 <= i' < j' < |tail|;
          assert key(tail[i'].0) <= key(tail[j'].0);
        }
      }
    }
  }

  /** A WHERE clause keeps each row of its table once for every time the row occurs and
      satisfies the clause: the mapped result holds record x exactly as many times as the
      table has rows that are kept and map to x (the rows satisfying hit). */
  lemma {:induction false} SelectExact<F, R>(fs: seq<F>, keep: F -> bool, row: F -> R, x: R, hit: F -> bool)
    requires forall f :: hit(f) == (keep(f) && row(f) == x)
    ensures multiset(Map(Select(fs, keep), row))[x] == Count(fs, hit)
  {
    if fs != [] {
      SelectExact(fs[1..], keep, row, x, hit);
      var head := if keep(fs[0]) then [fs[0]] else [];
      assert Select(fs, keep) == head + Select(fs[1..], keep);
      assert Map(Select(fs, keep), row) == Map(head, row) + Map(Select(fs[1..], keep), row);
    }
  }

  /** A record of a join is the record of some matching pair, and every matching pair's
      record is in the join. */
  lemma JoinMember<P, F, R>(ps: seq<P>, fs: seq<F>, matches: (P, F) -> bool, row: (P, F) -> R, x: R)
    ensures x in Join(ps, fs, matches, row) <==>
            exists p, f :: p in ps && f in fs && matches(p, f) && x == row(p, f)
  {
    var pairs := Pairs(ps, fs, matches);
    var r := Join(ps, fs, matches, row);
    if x in r {
      var k :| 0 <= k < |r| && r[k] == x;
      PairsMember(ps, fs, matches, pairs[k]);
    }
    if exists p, f :: p in ps && f in fs && matches(p, f) && x == row(p, f) {
      var p, f :| p in ps && f in fs && matches(p, f) && x == row(p, f);
      PairsMember(ps, fs, matches, (p, f));
      var k :| 0 <= k < |pairs| && pairs[k] == (p, f);
      assert r[k] == x;
    }
  }

  /** When distinct matching pairs give distinct records, no record of the join repeats. */
  lemma JoinNoDup<P, F, R>(ps: seq<P>, fs: seq<F>, matches: (P, F) -> bool, row: (P, F) -> R)
    requires NoDup(ps) && NoDup(fs)
    requires forall p1, f1, p2, f2 ::
      (p1 in ps && f1 in fs && matches(p1, f1) && p2 in ps && f2 in fs && matches(p2, f2) &&
       row(p1, f1) == row(p2, f2)) ==> p1 == p2 && f1 == f2
    ensures NoDup(Join(ps, fs, matches, row))
  {
    var pairs := Pairs(ps, fs, matches);
    var r := Join(ps, fs, matches, row);
    PairsNoDup(ps, fs, matches);
    forall i, j | 0 <= i < |r| && 0 <= j < |r| && i != j ensures r[i] != r[j] {
      PairsMember(ps, fs, matches, pairs[i]);
      PairsMember(ps, fs, matches, pairs[j]);
    }
  }

  lemma {:induction false} MapConcat<X, Y>(a: seq<X>, b: seq<X>, f: X -> Y)
    ensures Map(a + b, f) == Map(a, f) + Map(b, f)
  {
  }

  /** A join depends on its left elements only through what the match and the record see:
      two point lists that agree on both give the same records. */
  lemma {:induction false} JoinCongruent<P, F, R>(
    ps: seq<P>, qs: seq<P>, fs: seq<F>, matches: (P, F) -> bool, row: (P, F) -> R)
    requires |ps| == |qs|
    requires forall k, f :: 0 <= k < |ps| && f in fs ==>
               matches(ps[k], f) == matches(qs[k], f) && row(ps[k], f) == row(qs[k], f)
    ensures Join(ps, fs, matches, row) == Join(qs, fs, matches, row)
  {
    if ps != [] {
      JoinCongruent(ps[1..], qs[1..], fs, matches, row);
      PartnersCongruent(ps[0], qs[0], fs, matches, row);
      MapConcat(Partners(ps[0], fs, matches), Pairs(ps[1..], fs, matches), (pr: (P, F)) => row(pr.0, pr.1));
      MapConcat(Partners(qs[0], fs, matches), Pairs(qs[1..], fs, matches), (pr: (P, F)) => row(pr.0, pr.1));
    }
  }

  lemma {:induction false} PartnersCongruent<P, F, R>(p: P, q: P, fs: seq<F>, matches: (P, F) -> bool, row: (P, F) -> R)
    requires forall f :: f in fs ==> matches(p, f) == matches(q, f) && row(p, f) == row(q, f)
    ensures Map(Partners(p, fs, matches), (pr: (P, F)) => row(pr.0, pr.1))
         == Map(Partners(q, fs, matches), (pr: (P, F)) => row(pr.0, pr.1))
  {
    if fs != [] {
      PartnersCongruent(p, q, fs[1..], matches, row);
      var hp := if matches(p, fs[0]) then [(p, fs[0])] else [];
      var hq := if matches(q, fs[0]) then [(q, fs[0])] else [];
      MapConcat(hp, Partners(p, fs[1..], matches), (pr: (P, F)) => row(pr.0, pr.1));
      MapConcat(hq, Partners(q, fs[1..], matches), (pr: (P, F)) => row(pr.0, pr.1));
    }
  }

  /** A WHERE clause keeps exactly the rows that satisfy it. */
  lemma {:induction false} SelectMember<F>(fs: seq<F>, keep: F -> bool, f: F)
    ensures f in Select(fs, keep) <==> f in fs && keep(f)
  {
    if fs != [] {
      SelectMember(fs[1..], keep, f);
      assert fs == [fs[0]] + fs[1..];
    }
  }
}
