// `SELECT ... WHERE ... ORDER BY key LIMIT n FOR UPDATE SKIP LOCKED`: the ordered, limited choice of
// candidate rows that every scheduler pass starts from.
module Selection {
  import opened Domain

  /** Ascending order with nulls first. */
  predicate NoLater(a: Option<Time>, b: Option<Time>) { a.None? || (b.Some? && a.value <= b.value) }

  predicate Distinct(ids: seq<JobId>) { forall i, j :: 0 <= i < j < |ids| ==> ids[i] != ids[j] }

  /** `ids` is one answer to the query: a sorted run of minimal candidates, as long as the limit allows. */
  ghost predicate Selected(ids: seq<JobId>, candidates: set<JobId>, key: map<JobId, Option<Time>>, limit: nat)
    requires candidates <= key.Keys
  {
    && Distinct(ids)
    && (forall id :: id in ids ==> id in candidates)
    && |ids| == (if limit < |candidates| then limit else |candidates|)
    && (forall i, j :: 0 <= i < j < |ids| ==> NoLater(key[ids[i]], key[ids[j]]))
    && (forall id, other :: id in ids && other in candidates && other !in ids ==> NoLater(key[id], key[other]))
  }

  lemma {:induction false} Minimal(candidates: set<JobId>, key: map<JobId, Option<Time>>) returns (m: JobId)
    requires candidates != {} && candidates <= key.Keys
    ensures m in candidates && forall other :: other in candidates ==> NoLater(key[m], key[other])
    decreases |candidates|
  {
    var x :| x in candidates;
    m := x;
    if candidates - {x} != {} {
      var y := Minimal(candidates - {x}, key);
      m := if NoLater(key[x], key[y]) then x else y;
    }
    forall other | other in candidates ensures NoLater(key[m], key[other]) {
      assert other == x || other in candidates - {x};
    }
  }

  method Select(candidates: set<JobId>, key: map<JobId, Option<Time>>, limit: nat) returns (ids: seq<JobId>)
    requires candidates <= key.Keys
    ensures Selected(ids, candidates, key, limit)
  {
    ids := [];
    var rest := candidates;
    while |ids| < limit && rest != {}
      invariant rest <= candidates && |ids| + |rest| == |candidates| && |ids| <= limit
      invariant Distinct(ids)
      invariant forall id :: id in candidates <==> id in ids || id in rest
      invariant forall id :: id in ids ==> id !in rest
      invariant forall i, j :: 0 <= i < j < |ids| ==> NoLater(key[ids[i]], key[ids[j]])
      invariant forall id, other :: id in ids && other in rest ==> NoLater(key[id], key[other])
      decreases rest
    {
      ghost var m := Minimal(rest, key);
      var x :| x in rest && forall other :: other in rest ==> NoLater(key[x], key[other]);
      ids := ids + [x];
      rest := rest - {x};
    }
  }

  /** The set of a sequence without repetition is as large as the sequence is long. */
  lemma {:induction false} DistinctSize(ids: seq<JobId>, elements: set<JobId>)
    requires Distinct(ids) && forall id :: id in elements <==> id in ids
    ensures |elements| == |ids|
  {
    if ids == [] {
      assert elements == {};
    } else {
      var n := |ids| - 1;
      var rest := elements - {ids[n]};
      assert ids == ids[..n] + [ids[n]];
      assert ids[n] !in ids[..n];
      DistinctSize(ids[..n], rest);
      assert elements == rest + {ids[n]};
    }
  }

  lemma SubsetOfSameSize(a: set<JobId>, b: set<JobId>)
    requires a <= b && |a| == |b|
    ensures a == b
  {
    assert b == a + (b - a);
  }

  lemma SubsetSize(a: set<JobId>, b: set<JobId>)
    requires a <= b
    ensures |a| <= |b|
  {
    assert b == a + (b - a);
  }

  /** A query whose limit reaches the number of candidates returns every one of them. */
  lemma SelectsAll(ids: seq<JobId>, candidates: set<JobId>, key: map<JobId, Option<Time>>, limit: nat)
    requires candidates <= key.Keys && Selected(ids, candidates, key, limit) && |candidates| <= limit
    ensures forall id :: id in candidates <==> id in ids
  {
    var chosen := set id | id in ids;
    DistinctSize(ids, chosen);
    SubsetOfSameSize(chosen, candidates);
  }

  // ---------- repeated selections

  function Less(q: nat, batch: nat): nat { if batch <= q then q - batch else 0 }

  /** The waiting jobs that a pass over `ids` leaves waiting. */
  function Unserved(waiting: set<JobId>, ids: seq<JobId>): set<JobId> { set id | id in waiting && id !in ids }

  /** A limited selection serves a set that lies ahead of all other candidates before any of them. */
  lemma OldestFirst(ids: seq<JobId>, candidates: set<JobId>, key: map<JobId, Option<Time>>, batch: nat,
                    waiting: set<JobId>)
    requires candidates <= key.Keys && Selected(ids, candidates, key, batch) && waiting <= candidates
    requires forall id, x :: id in candidates && x in waiting && NoLater(key[id], key[x]) ==> id in waiting
    ensures |Unserved(waiting, ids)| <= Less(|waiting|, batch)
  {
    var chosen := set id | id in ids;
    DistinctSize(ids, chosen);
    if x :| x in waiting && x !in chosen {
      if |candidates| <= batch {
        SelectsAll(ids, candidates, key, batch);
      }
      forall id | id in chosen ensures id in waiting {
        assert NoLater(key[id], key[x]);
      }
      assert waiting == Unserved(waiting, ids) + chosen;
    } else {
      assert Unserved(waiting, ids) == {};
    }
  }

  function Remaining(q: nat, batch: nat, passes: nat): nat {
    if passes == 0 then q else Less(Remaining(q, batch, passes - 1), batch)
  }

  lemma {:induction false} RemainingIs(q: nat, batch: nat, passes: nat)
    ensures Remaining(q, batch, passes) == if passes * batch <= q then q - passes * batch else 0
  {
    if passes > 0 {
      RemainingIs(q, batch, passes - 1);
      assert passes * batch == (passes - 1) * batch + batch;
    }
  }

  lemma {:induction false} Shrinks(before: seq<nat>, after: seq<nat>, batch: nat, n: nat)
    requires n < |before| == |after|
    requires forall i :: 0 <= i < |before| ==> after[i] <= Less(before[i], batch)
    requires forall i :: 0 < i < |before| ==> before[i] <= after[i - 1]
    ensures after[n] <= Remaining(before[0], batch, n + 1)
  {
    if n > 0 {
      Shrinks(before, after, batch, n - 1);
    } else {
      assert Remaining(before[0], batch, 0) == before[0];
    }
  }
}
