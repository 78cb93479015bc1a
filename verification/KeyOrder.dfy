/** Ordered claims on several keys at once, in shared or exclusive mode.

    The request scheduler and the per-path mutation tickets keep the same
    structure: one FIFO queue per key, ids handed out by one counter, and the
    question whether everything queued ahead of an id on each of its keys is
    compatible with it. This module defines that question twice, once over the
    queues (`Ready`, what the program asks) and once over the live claims alone
    (`Unblocked`), and proves that the two agree on every state the queues can
    be in. */
module KeyOrder {

  datatype Mode = Shared | Exclusive

  datatype Claim<K> = Claim(key: K, mode: Mode)

  datatype Slot = Slot(id: nat, mode: Mode)

  /** Live ids and what each of them claims. */
  type Table<K> = map<nat, seq<Claim<K>>>

  type Queues<K> = map<K, seq<Slot>>

  predicate Compatible(a: Mode, b: Mode) {
    a.Shared? && b.Shared?
  }

  ghost predicate Conflict<K(!new)>(a: seq<Claim<K>>, b: seq<Claim<K>>) {
    exists c, d :: c in a && d in b && c.key == d.key && !Compatible(c.mode, d.mode)
  }

  /** Two requests conflict exactly when they share a key that one of them takes exclusively. */
  lemma ConflictMeans<K(!new)>(a: seq<Claim<K>>, b: seq<Claim<K>>)
    ensures Conflict(a, b) <==>
              exists c, d :: c in a && d in b && c.key == d.key && (c.mode == Exclusive || d.mode == Exclusive)
  {
  }

  ghost predicate Distinct<K>(keys: seq<Claim<K>>) {
    forall i, j :: 0 <= i < j < |keys| ==> keys[i].key != keys[j].key
  }

  /** No earlier live claimant conflicts with `id`: the queue-free meaning of "may run". */
  ghost predicate Unblocked<K(!new)>(table: Table<K>, id: nat)
    requires id in table
  {
    forall j {:trigger Conflict(table[j], table[id])} :: j in table && j < id ==> !Conflict(table[j], table[id])
  }

  // ── merging a request's keys ─────────────────────────────────────────────

  /** `merged` lists every key of `keys` once, in its strongest mode. */
  ghost predicate IsMerge<K(!new)>(keys: seq<Claim<K>>, merged: seq<Claim<K>>) {
    && Distinct(merged)
    && (forall c :: c in merged <==> c in keys && (c.mode.Shared? ==> Claim(c.key, Exclusive) !in keys))
  }

  function Find<K(==)>(merged: seq<Claim<K>>, k: K): (i: nat)
    ensures i <= |merged|
    ensures i < |merged| ==> merged[i].key == k
    ensures forall j :: 0 <= j < i ==> merged[j].key != k
  {
    if merged == [] then 0
    else if merged[0].key == k then 0
    else
      var r := Find(merged[1..], k);
      assert forall j :: 1 <= j < r + 1 ==> merged[j] == merged[1..][j - 1];
      r + 1
  }

  method Merge<K(==, !new)>(keys: seq<Claim<K>>) returns (merged: seq<Claim<K>>)
    ensures IsMerge(keys, merged)
  {
    merged := [];
    for n := 0 to |keys|
      invariant IsMerge(keys[..n], merged)
    {
      var c := keys[n];
      assert keys[..n + 1] == keys[..n] + [c];
      var i := Find(merged, c.key);
      ghost var before := merged;
      if i < |merged| {
        if c.mode == Exclusive {
          merged := merged[i := Claim(c.key, Exclusive)];
        }
        MergeRepeated(keys[..n], before, c, i, merged);
      } else {
        merged := merged + [c];
        MergeNew(keys[..n], before, c);
      }
    }
    assert keys[..|keys|] == keys;
  }

  lemma MergeRepeated<K(!new)>(keys: seq<Claim<K>>, merged: seq<Claim<K>>, c: Claim<K>, i: nat, after: seq<Claim<K>>)
    requires IsMerge(keys, merged)
    requires i < |merged| && merged[i].key == c.key
    requires after == if c.mode == Exclusive then merged[i := Claim(c.key, Exclusive)] else merged
    ensures IsMerge(keys + [c], after)
  {
    assert merged[i] in merged;
    assert merged[i] == Claim(c.key, Shared) || merged[i] == Claim(c.key, Exclusive);
    assert after[i].key == c.key;
    forall d: Claim<K> | d.key != c.key ensures d in after <==> d in merged {
      if d in merged {
        var j :| 0 <= j < |merged| && merged[j] == d;
        assert after[j] == d;
      }
    }
    forall d: Claim<K> | d.key == c.key ensures d in after <==> d == after[i] {
      if d in after {
        var j :| 0 <= j < |after| && after[j] == d;
        assert j == i;
      }
    }
  }

  lemma MergeNew<K(!new)>(keys: seq<Claim<K>>, merged: seq<Claim<K>>, c: Claim<K>)
    requires IsMerge(keys, merged)
    requires forall j :: 0 <= j < |merged| ==> merged[j].key != c.key
    ensures IsMerge(keys + [c], merged + [c])
  {
    assert Claim(c.key, Exclusive) !in merged && Claim(c.key, Shared) !in merged;
  }

  /** Merging loses no conflict and adds none. */
  lemma MergeKeepsConflicts<K(!new)>(a: seq<Claim<K>>, ma: seq<Claim<K>>, b: seq<Claim<K>>, mb: seq<Claim<K>>)
    requires IsMerge(a, ma) && IsMerge(b, mb)
    ensures Conflict(ma, mb) <==> Conflict(a, b)
  {
    if Conflict(a, b) {
      var c, d :| c in a && d in b && c.key == d.key && !Compatible(c.mode, d.mode);
      var x := Claim(c.key, Exclusive);
      var c' := if x in a then x else c;
      var d' := if x in b then x else d;
      assert c' in ma && d' in mb;
    }
    if Conflict(ma, mb) {
      var c, d :| c in ma && d in mb && c.key == d.key && !Compatible(c.mode, d.mode);
      assert c in a && d in b;
    }
  }

  // ── queues ───────────────────────────────────────────────────────────────

  ghost predicate Sorted(q: seq<Slot>) {
    forall i, j :: 0 <= i < j < |q| ==> q[i].id < q[j].id
  }

  ghost predicate SlotsKnown<K>(k: K, q: seq<Slot>, table: Table<K>) {
    forall s :: s in q ==> s.id in table && Claim(k, s.mode) in table[s.id]
  }

  ghost predicate ClaimsQueued<K(!new)>(queues: Queues<K>, id: nat, keys: seq<Claim<K>>) {
    forall c :: c in keys ==> c.key in queues && Slot(id, c.mode) in queues[c.key]
  }

  /** The queues hold exactly the claims of `table`, each queue in id order and none empty. */
  ghost predicate Indexed<K(!new)>(queues: Queues<K>, table: Table<K>) {
    && (forall k :: k in queues ==> queues[k] != [] && Sorted(queues[k]) && SlotsKnown(k, queues[k], table))
    && (forall id :: id in table ==> Distinct(table[id]) && ClaimsQueued(queues, id, table[id]))
  }

  /** Whether every slot ahead of `id` in `q` is compatible with `mine`. */
  predicate AheadCompatible(q: seq<Slot>, id: nat, mine: Mode) {
    q != [] && q[0].id != id ==> Compatible(mine, q[0].mode) && AheadCompatible(q[1..], id, mine)
  }

  /** The readiness test as the program runs it, over the queues. */
  predicate Ready<K(==)>(queues: Queues<K>, id: nat, keys: seq<Claim<K>>) {
    forall c :: c in keys ==> c.key in queues ==> AheadCompatible(queues[c.key], id, c.mode)
  }

  lemma {:induction false} AheadMeansEarlier(q: seq<Slot>, id: nat, mine: Mode)
    requires Sorted(q)
    requires exists s :: s in q && s.id == id
    ensures AheadCompatible(q, id, mine) <==> forall s :: s in q && s.id < id ==> Compatible(mine, s.mode)
  {
    var s :| s in q && s.id == id;
    if q[0].id == id {
      assert forall t :: t in q ==> q[0].id <= t.id;
    } else {
      assert q == [q[0]] + q[1..];
      assert s in q[1..];
      assert forall i :: 0 <= i < |q| - 1 ==> q[1..][i] == q[i + 1];
      AheadMeansEarlier(q[1..], id, mine);
      assert q[0].id < id;
    }
  }

  /** The test over the queues answers the question about the live claims. */
  lemma ReadyIffUnblocked<K(!new)>(queues: Queues<K>, table: Table<K>, id: nat)
    requires Indexed(queues, table) && id in table
    ensures Ready(queues, id, table[id]) <==> Unblocked(table, id)
  {
    var keys := table[id];
    forall c | c in keys
      ensures c.key in queues
      ensures AheadCompatible(queues[c.key], id, c.mode)
              <==> forall s :: s in queues[c.key] && s.id < id ==> Compatible(c.mode, s.mode)
    {
      assert ClaimsQueued(queues, id, keys);
      AheadMeansEarlier(queues[c.key], id, c.mode);
    }
    if Ready(queues, id, keys) {
      forall j, d, c | j in table && j < id && d in table[j] && c in keys && d.key == c.key
        ensures Compatible(d.mode, c.mode)
      {
        assert ClaimsQueued(queues, j, table[j]);
        assert Slot(j, d.mode) in queues[c.key];
      }
    }
    if Unblocked(table, id) {
      forall c | c in keys ensures AheadCompatible(queues[c.key], id, c.mode) {
        forall s | s in queues[c.key] && s.id < id ensures Compatible(c.mode, s.mode) {
          assert SlotsKnown(c.key, queues[c.key], table);
          assert !Conflict(table[s.id], table[id]);
          assert Claim(c.key, s.mode) in table[s.id];
        }
      }
    }
  }

  // ── joining the queues ───────────────────────────────────────────────────

  function Enqueued<K(==)>(queues: Queues<K>, id: nat, c: Claim<K>): Queues<K> {
    queues[c.key := (if c.key in queues then queues[c.key] else []) + [Slot(id, c.mode)]]
  }

  /** An id that claims nothing is on no queue. */
  lemma JoinNothing<K(!new)>(queues: Queues<K>, table: Table<K>, id: nat)
    requires Indexed(queues, table) && id !in table
    ensures Indexed(queues, table[id := []])
  {
    forall k | k in queues ensures SlotsKnown(k, queues[k], table[id := []]) {
      assert SlotsKnown(k, queues[k], table);
    }
    forall j | j in table ensures ClaimsQueued(queues, j, table[j]) && Distinct(table[j]) {
    }
  }

  /** Appending one more claim of the newest id keeps the queues exact. */
  lemma EnqueueIndexes<K(!new)>(queues: Queues<K>, table: Table<K>, id: nat, keys: seq<Claim<K>>, c: Claim<K>)
    requires id !in table && forall j :: j in table ==> j < id
    requires Indexed(queues, table[id := keys])
    requires Distinct(keys + [c])
    ensures Indexed(Enqueued(queues, id, c), table[id := keys + [c]])
  {
    var after := Enqueued(queues, id, c);
    var old' := table[id := keys];
    var table' := table[id := keys + [c]];
    assert forall i :: 0 <= i < |keys| ==> (keys + [c])[i] == keys[i];
    forall k | k in after ensures after[k] != [] && Sorted(after[k]) && SlotsKnown(k, after[k], table') {
      if k in queues {
        assert SlotsKnown(k, queues[k], old');
        if k == c.key {
          forall d | d in keys ensures d.key != k {
            var i :| 0 <= i < |keys| && keys[i] == d;
            assert (keys + [c])[i].key != (keys + [c])[|keys|].key;
          }
          assert forall s :: s in queues[k] ==> s.id < id;
        }
      }
    }
    forall j | j in table' ensures Distinct(table'[j]) && ClaimsQueued(after, j, table'[j]) {
      assert j != id ==> ClaimsQueued(queues, j, old'[j]);
      assert ClaimsQueued(queues, id, old'[id]);
    }
  }

  // ── leaving a queue ──────────────────────────────────────────────────────

  function Without(q: seq<Slot>, id: nat): seq<Slot> {
    if q == [] then []
    else if q[0].id == id then q[1..]
    else [q[0]] + Without(q[1..], id)
  }

  lemma {:induction false} WithoutRemoves(q: seq<Slot>, id: nat)
    requires Sorted(q)
    ensures Sorted(Without(q, id))
    ensures forall s :: s in Without(q, id) <==> s in q && s.id != id
  {
    if q != [] {
      SortedTail(q);
      if q[0].id != id {
        WithoutRemoves(q[1..], id);
        SortedCons(q[0], Without(q[1..], id));
      }
    }
  }

  lemma SortedTail(q: seq<Slot>)
    requires Sorted(q) && q != []
    ensures Sorted(q[1..])
    ensures forall s :: s in q <==> s == q[0] || s in q[1..]
    ensures forall s :: s in q[1..] ==> q[0].id < s.id
  {
    assert q == [q[0]] + q[1..];
    forall s | s in q[1..] ensures q[0].id < s.id {
      var i :| 0 <= i < |q[1..]| && q[1..][i] == s;
      assert q[i + 1] == s;
    }
  }

  lemma SortedCons(s: Slot, q: seq<Slot>)
    requires Sorted(q) && forall r :: r in q ==> s.id < r.id
    ensures Sorted([s] + q)
    ensures forall r :: r in [s] + q <==> r == s || r in q
  {
    forall i, j | 0 <= i < j < |[s] + q| ensures ([s] + q)[i].id < ([s] + q)[j].id {
      assert q[j - 1] in q;
    }
  }

  function Dequeued<K(==)>(queues: Queues<K>, id: nat, k: K): Queues<K> {
    if k !in queues then queues
    else
      var q := Without(queues[k], id);
      if q == [] then queues - {k} else queues[k := q]
  }

  /** Leaving one key's queue gives the queues of the remaining claims. */
  lemma DequeueIndexes<K(!new)>(queues: Queues<K>, table: Table<K>, id: nat, c: Claim<K>, rest: seq<Claim<K>>)
    requires Indexed(queues, table[id := [c] + rest])
    ensures Indexed(Dequeued(queues, id, c.key), table[id := rest])
  {
    var before := table[id := [c] + rest];
    var table': Table<K> := table[id := rest];
    var after: Queues<K> := Dequeued(queues, id, c.key);
    assert before[id][0] == c && forall i :: 0 <= i < |rest| ==> before[id][i + 1] == rest[i];
    assert ClaimsQueued(queues, id, before[id]);
    assert c in before[id];
    WithoutRemoves(queues[c.key], id);
    forall k | k in after ensures after[k] != [] && Sorted(after[k]) && SlotsKnown(k, after[k], table') {
      assert SlotsKnown(k, queues[k], before);
      forall s: Slot | s in after[k] ensures Claim(k, s.mode) in table'[s.id] {
        if s.id == id {
          assert k != c.key;
          assert Claim(k, s.mode) in [c] + rest;
        }
      }
    }
    forall j | j in table' ensures Distinct(table'[j]) && ClaimsQueued(after, j, table'[j]) {
      assert ClaimsQueued(queues, j, before[j]);
      forall d: Claim<K> | d in table'[j] ensures d.key in after && Slot(j, d.mode) in after[d.key] {
        assert d in before[j];
        if j == id {
          var i :| 0 <= i < |rest| && rest[i] == d;
          assert before[id][0].key != before[id][i + 1].key;
        } else if d.key == c.key {
          assert Slot(j, d.mode) in Without(queues[c.key], id);
        }
      }
    }
  }

  /** Dropping an id that claims nothing any more changes no queue. */
  lemma DropIndexes<K(!new)>(queues: Queues<K>, table: Table<K>, id: nat)
    requires id !in table
    requires Indexed(queues, table[id := []])
    ensures Indexed(queues, table)
  {
    forall k | k in queues ensures SlotsKnown(k, queues[k], table) {
      assert SlotsKnown(k, queues[k], table[id := []]);
    }
    forall j | j in table ensures ClaimsQueued(queues, j, table[j]) {
      assert ClaimsQueued(queues, j, table[id := []][j]);
    }
  }

  // ── the oldest id ────────────────────────────────────────────────────────

  lemma {:induction false} Least(ids: set<nat>) returns (id: nat)
    requires ids != {}
    ensures id in ids && forall i :: i in ids ==> id <= i
    decreases |ids|
  {
    id :| id in ids;
    if ids != {id} {
      var first := id;
      var other := Least(ids - {first});
      id := if other < first then other else first;
      assert forall i :: i in ids ==> i in ids - {first} || i == first;
    }
  }
}
