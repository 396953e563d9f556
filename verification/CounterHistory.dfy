/**
 What every sequence of Redis commands keeps true of the counters, however the commands of different gateways
 interleave: incarnations are well formed, hand out distinct values, and (for window counters) start at least
 ten seconds apart.
 */
module CounterHistory {
  import opened Wrappers
  import opened RedisStore

  // Incarnation `inc` of key `k` was created by the INCR at position `inc`, which handed out 1.
  ghost predicate Creator(st: Store, inc: nat, k: string) {
    inc < |st.hits| && st.hits[inc].key == k && st.hits[inc].inc == inc && st.hits[inc].n == 1
  }

  // Incarnations come one after the other, ten seconds or more apart.
  ghost predicate Spaced(st: Store, inc: nat, inc': nat)
    requires inc < |st.hits| && inc' < |st.hits|
  {
    inc == inc' || (inc < inc' && st.hits[inc].time + TEN_SECONDS <= st.hits[inc'].time)
  }

  // One INCR against its incarnation and against what its key holds now.
  ghost predicate HitOk(st: Store, i: nat)
    requires i < |st.hits|
  {
    var h := st.hits[i];
    && IsCounterKey(h.key) && h.n >= 1 && h.time <= st.now && h.inc <= i && Creator(st, h.inc, h.key)
    && (h.key in st.db && st.db[h.key].inc == h.inc ==> st.db[h.key].value.Num? && h.n <= st.db[h.key].value.n)
    && (IsCountKey(h.key) ==>
          && h.key in st.db && st.db[h.key].inc < |st.hits| && Spaced(st, h.inc, st.db[h.key].inc))
  }

  // Two INCRs, the earlier first: values within an incarnation increase, window incarnations are spaced.
  ghost predicate PairOk(st: Store, i: nat, j: nat)
    requires i < j < |st.hits|
  {
    var g, h := st.hits[i], st.hits[j];
    && g.time <= h.time
    && (g.key == h.key && g.inc == h.inc ==> g.n < h.n)
    && (g.key == h.key && IsCountKey(g.key) ==> g.inc < |st.hits| && h.inc < |st.hits| && Spaced(st, g.inc, h.inc))
  }

  // A counter key holds a number; the deadline of a window counter is ten seconds or more from its creation.
  ghost predicate EntryOk(st: Store, k: string)
    requires k in st.db
  {
    var e := st.db[k];
    && e.value.Num? && e.value.n >= 1 && Creator(st, e.inc, k)
    && (IsCountKey(k) && e.deadline.Some? ==> st.hits[e.inc].time + TEN_SECONDS <= e.deadline.value)
  }

  ghost predicate StoreInv(st: Store) {
    && (forall i :: 0 <= i < |st.hits| ==> HitOk(st, i))
    && (forall i, j :: 0 <= i < j < |st.hits| ==> PairOk(st, i, j))
    && (forall k :: k in st.db && IsCounterKey(k) ==> EntryOk(st, k))
  }

  // INCR never meets a key that holds text.
  lemma CountersCountable(st: Store, k: string)
    requires StoreInv(st) && IsCounterKey(k)
    ensures Countable(st, k)
  {
    if k in st.db {
      assert EntryOk(st, k);
    }
  }

  lemma IncrKeepsInv(st: Store, k: string, rid: nat, call: Call)
    requires StoreInv(st) && IsCounterKey(k) && Countable(st, k)
    ensures StoreInv(Incr(st, k, rid, call))
  {
    var t := Incr(st, k, rid, call);
    var last := |st.hits|;
    if k in st.db {
      assert EntryOk(st, k);
      assert HitOk(st, st.db[k].inc);
    }
    forall i | 0 <= i < |t.hits|
      ensures HitOk(t, i)
    {
      if i < last {
        assert HitOk(st, i);
      }
    }
    forall i, j | 0 <= i < j < |t.hits|
      ensures PairOk(t, i, j)
    {
      assert HitOk(st, i);
      if j < last {
        assert PairOk(st, i, j);
      }
    }
    forall j | j in t.db && IsCounterKey(j)
      ensures EntryOk(t, j)
    {
      if j != k {
        assert EntryOk(st, j);
      }
    }
  }

  // Commands that leave the history alone keep everything, as long as a window deadline set now is ten seconds
  // or more away and window counters are not deleted.
  ghost predicate Quiet(st: Store, t: Store) {
    && t.hits == st.hits && st.now <= t.now
    && (forall k :: k in t.db && IsCounterKey(k) ==> QuietKey(st, t, k))
    && (forall k :: k in st.db && IsCountKey(k) ==> k in t.db)
  }

  ghost predicate QuietKey(st: Store, t: Store, k: string)
    requires k in t.db
  {
    && k in st.db && t.db[k].value == st.db[k].value && t.db[k].inc == st.db[k].inc
    && (IsCountKey(k) ==>
          || t.db[k].deadline == st.db[k].deadline
          || (t.db[k].deadline.Some? && st.now + TEN_SECONDS <= t.db[k].deadline.value))
  }

  lemma QuietKeepsInv(st: Store, t: Store)
    requires StoreInv(st) && Quiet(st, t)
    ensures StoreInv(t)
  {
    forall i | 0 <= i < |t.hits|
      ensures HitOk(t, i)
    {
      assert HitOk(st, i);
      assert t.hits[i].key in t.db ==> QuietKey(st, t, t.hits[i].key);
    }
    forall i, j | 0 <= i < j < |t.hits|
      ensures PairOk(t, i, j)
    {
      assert PairOk(st, i, j);
    }
    forall k | k in t.db && IsCounterKey(k)
      ensures EntryOk(t, k)
    {
      assert QuietKey(st, t, k) && EntryOk(st, k) && HitOk(st, st.db[k].inc);
    }
  }

  // All INCRs of an incarnation come before the next incarnation starts, and that is ten seconds or more
  // after the incarnation itself started.
  lemma IncarnationsInOrder(st: Store, x: nat, y: nat)
    requires StoreInv(st) && x < |st.hits| && y < |st.hits|
    requires st.hits[x].key == st.hits[y].key && IsCountKey(st.hits[x].key)
    ensures st.hits[x].inc < |st.hits| && st.hits[y].inc < |st.hits|
    ensures st.hits[x].inc < st.hits[y].inc ==>
              && st.hits[x].time <= st.hits[st.hits[y].inc].time <= st.hits[y].time
              && st.hits[st.hits[x].inc].time + TEN_SECONDS <= st.hits[st.hits[y].inc].time
  {
    assert HitOk(st, x) && HitOk(st, y);
    var next := st.hits[y].inc;
    if st.hits[x].inc < next {
      assert next < y ==> PairOk(st, next, y);
      assert next < x ==> PairOk(st, next, x);
      assert x < next ==> PairOk(st, x, next);
    }
  }

  // The values one incarnation hands out are distinct.
  lemma DistinctValues(st: Store, x: nat, y: nat)
    requires StoreInv(st) && x < |st.hits| && y < |st.hits| && x != y
    requires st.hits[x].key == st.hits[y].key && st.hits[x].inc == st.hits[y].inc
    ensures st.hits[x].n != st.hits[y].n
  {
    assert if x < y then PairOk(st, x, y) else PairOk(st, y, x);
  }

  // Any ten-second interval meets at most two incarnations of a window counter.
  lemma TwoIncarnationsPerInterval(st: Store, a: int, x: nat, y: nat, z: nat)
    requires StoreInv(st) && x < |st.hits| && y < |st.hits| && z < |st.hits|
    requires st.hits[x].key == st.hits[y].key == st.hits[z].key && IsCountKey(st.hits[x].key)
    requires forall i :: i in {x, y, z} ==> a <= st.hits[i].time < a + TEN_SECONDS
    ensures st.hits[x].inc == st.hits[y].inc || st.hits[y].inc == st.hits[z].inc || st.hits[x].inc == st.hits[z].inc
  {
    IncarnationsInOrder(st, x, y);
    IncarnationsInOrder(st, y, x);
    IncarnationsInOrder(st, y, z);
    IncarnationsInOrder(st, z, y);
    IncarnationsInOrder(st, x, z);
    IncarnationsInOrder(st, z, x);
  }

  // ---------- How many calls got a small count in a ten-second interval ----------

  // A ten-second call on `k` inside [a, a + 10s) that was handed at most `limit`.
  predicate Low(h: Hit, k: string, a: int, limit: int) {
    h.key == k && h.call == Ten && a <= h.time < a + TEN_SECONDS && h.n <= limit
  }

  function LowCallers(hits: seq<Hit>, k: string, a: int, limit: int): set<nat> {
    if hits == [] then {}
    else
      var rest := LowCallers(hits[..|hits| - 1], k, a, limit);
      var h := hits[|hits| - 1];
      if Low(h, k, a, limit) then rest + {h.rid} else rest
  }

  lemma {:induction false} LowCallersContains(hits: seq<Hit>, k: string, a: int, limit: int, i: nat)
    requires i < |hits| && Low(hits[i], k, a, limit)
    ensures hits[i].rid in LowCallers(hits, k, a, limit)
  {
    if i < |hits| - 1 {
      LowCallersContains(hits[..|hits| - 1], k, a, limit, i);
    }
  }

  // The most small counts an interval can hold: those of one incarnation and, but for the 1 that created it, of the one
  // before.
  function MostLow(limit: nat): int {
    Max(2 * limit - 1, 0)
  }

  // The bound, by where the key's current incarnation started relative to the interval. An incarnation that started
  // before the interval handed out its 1 before it.
  ghost predicate LowBound(st: Store, k: string, a: int, limit: nat) {
    var low := |LowCallers(st.hits, k, a, limit)|;
    && (st.now < a ==> low == 0)
    && (k !in st.db ==> low == 0)
    && (k in st.db && st.db[k].value.Num? && st.db[k].inc < |st.hits| ==>
          var born, used := st.hits[st.db[k].inc].time, Min(st.db[k].value.n, limit);
          low <= if born < a then Max(used - 1, 0)
                 else if born < a + TEN_SECONDS then Max(limit - 1, 0) + used
                 else MostLow(limit))
  }

  lemma IncrKeepsLowBound(st: Store, j: string, rid: nat, call: Call, k: string, a: int, limit: nat)
    requires StoreInv(st) && IsCounterKey(j) && Countable(st, j)
    requires IsCountKey(k) && LowBound(st, k, a, limit)
    ensures LowBound(Incr(st, j, rid, call), k, a, limit)
  {
    var t := Incr(st, j, rid, call);
    assert t.hits[..|t.hits| - 1] == st.hits;
    if k in st.db {
      assert EntryOk(st, k);
      assert HitOk(st, st.db[k].inc);
    }
  }

  lemma QuietKeepsLowBound(st: Store, t: Store, k: string, a: int, limit: nat)
    requires StoreInv(st) && Quiet(st, t) && IsCountKey(k) && LowBound(st, k, a, limit)
    ensures LowBound(t, k, a, limit)
  {
    if k in t.db {
      assert QuietKey(st, t, k);
    }
  }

  lemma LowBoundAtMost(st: Store, k: string, a: int, limit: nat)
    requires StoreInv(st) && IsCountKey(k) && LowBound(st, k, a, limit)
    ensures |LowCallers(st.hits, k, a, limit)| <= MostLow(limit)
  {
    if k in st.db {
      assert EntryOk(st, k);
    }
  }
}
