/**
 The counters over whole runs: how many requests escape scoring in ten seconds, and who owes which EXPIRE.
 INCR and EXPIRE are separate actions here, any number of requests interleave, and any may be abandoned.
 */
module CounterTheorems {
  import opened Wrappers
  import opened RedisStore
  import opened CounterHistory
  import opened GatewaySignal
  import opened Enforcement
  import opened GateSafety

  // ---------- The history along a run ----------

  // Every action is one counter INCR or leaves the history alone.
  lemma StepOnStore(cfg: Config, s: State, a: Action)
    requires Enabled(cfg, s, a)
    ensures var t := Step(cfg, s, a);
            if a.Increment?
            then t.store == Incr(s.store, CounterKey(cfg, s.flights[a.rid].req, a.call), a.rid, a.call)
            else Quiet(s.store, t.store)
  {
  }

  lemma StepKeepsStore(cfg: Config, s: State, a: Action)
    requires StoreInv(s.store) && Enabled(cfg, s, a)
    ensures StoreInv(Step(cfg, s, a).store)
  {
    StepOnStore(cfg, s, a);
    if a.Increment? {
      IncrKeepsInv(s.store, CounterKey(cfg, s.flights[a.rid].req, a.call), a.rid, a.call);
    } else {
      QuietKeepsInv(s.store, Step(cfg, s, a).store);
    }
  }

  lemma {:induction false} RunKeepsStore(cfg: Config, states: seq<State>, acts: seq<Action>, i: nat)
    requires IsRun(cfg, states, acts) && i < |states|
    ensures StoreInv(states[i].store)
  {
    if i > 0 {
      RunKeepsStore(cfg, states, acts, i - 1);
      assert IsStep(cfg, states[i - 1], acts[i - 1], states[i]);
      StepKeepsStore(cfg, states[i - 1], acts[i - 1]);
    }
  }

  lemma {:induction false} RunKeepsLowBound(cfg: Config, states: seq<State>, acts: seq<Action>, i: nat,
                                            k: string, a: int, limit: nat)
    requires IsRun(cfg, states, acts) && i < |states| && IsCountKey(k)
    ensures LowBound(states[i].store, k, a, limit)
  {
    if i > 0 {
      RunKeepsStore(cfg, states, acts, i - 1);
      RunKeepsLowBound(cfg, states, acts, i - 1, k, a, limit);
      var s, act := states[i - 1], acts[i - 1];
      assert IsStep(cfg, s, act, states[i]);
      StepOnStore(cfg, s, act);
      if act.Increment? {
        IncrKeepsLowBound(s.store, CounterKey(cfg, s.flights[act.rid].req, act.call), act.rid, act.call, k, a, limit);
      } else {
        QuietKeepsLowBound(s.store, states[i].store, k, a, limit);
      }
    }
  }

  // The counts handed out within one incarnation are distinct.
  lemma CountsDistinct(cfg: Config, states: seq<State>, acts: seq<Action>, i: nat, x: nat, y: nat)
    requires IsRun(cfg, states, acts) && i < |states| && x < y < |states[i].store.hits|
    requires states[i].store.hits[x].key == states[i].store.hits[y].key
    ensures states[i].store.hits[x].inc == states[i].store.hits[y].inc ==>
              states[i].store.hits[x].n != states[i].store.hits[y].n
  {
    RunKeepsStore(cfg, states, acts, i);
    if states[i].store.hits[x].inc == states[i].store.hits[y].inc {
      DistinctValues(states[i].store, x, y);
    }
  }

  // The incarnations of a window counter follow each other: a later one starts after every INCR of the earlier, and
  // ten seconds or more after its start.
  lemma IncarnationsSpaced(cfg: Config, states: seq<State>, acts: seq<Action>, i: nat, x: nat, y: nat)
    requires IsRun(cfg, states, acts) && i < |states|
    requires x < |states[i].store.hits| && y < |states[i].store.hits|
    requires states[i].store.hits[x].key == states[i].store.hits[y].key && IsCountKey(states[i].store.hits[x].key)
    ensures var h := states[i].store.hits;
            && h[x].inc < |h| && h[y].inc < |h|
            && (h[x].inc < h[y].inc ==>
                  h[x].time <= h[h[y].inc].time && h[h[x].inc].time + TEN_SECONDS <= h[h[y].inc].time)
  {
    RunKeepsStore(cfg, states, acts, i);
    IncarnationsInOrder(states[i].store, x, y);
  }

  // Any ten-second interval meets at most two incarnations of a window counter.
  lemma TwoIncarnations(cfg: Config, states: seq<State>, acts: seq<Action>, i: nat, k: string, a: int)
    requires IsRun(cfg, states, acts) && i < |states| && IsCountKey(k)
    ensures |IncarnationsIn(states[i].store.hits, k, a)| <= 2
  {
    RunKeepsStore(cfg, states, acts, i);
    var h := states[i].store.hits;
    var s := IncarnationsIn(h, k, a);
    if |s| > 2 {
      var p :| p in s;
      AtLeast(s, {p});
      var q :| q in s - {p};
      AtLeast(s, {p, q});
      var r :| r in s - {p, q};
      var x :| 0 <= x < |h| && InInterval(h[x], k, a) && h[x].inc == p;
      var y :| 0 <= y < |h| && InInterval(h[y], k, a) && h[y].inc == q;
      var z :| 0 <= z < |h| && InInterval(h[z], k, a) && h[z].inc == r;
      TwoIncarnationsPerInterval(states[i].store, a, x, y, z);
    }
  }

  predicate InInterval(h: Hit, k: string, a: int) {
    h.key == k && a <= h.time < a + TEN_SECONDS
  }

  // The incarnations of `k` that an INCR inside [a, a + 10s) met.
  function IncarnationsIn(hits: seq<Hit>, k: string, a: int): set<nat> {
    set i | 0 <= i < |hits| && InInterval(hits[i], k, a) :: hits[i].inc
  }

  lemma AtLeast(s: set<nat>, t: set<nat>)
    requires |s| > |t|
    ensures s - t != {}
  {
    if s <= t {
      SubsetSize(s, t);
    } else {
      var x :| x in s && x !in t;
      assert x in s - t;
    }
  }

  // ---------- Calls and the history ----------

  // A call that has sent its INCR points at it.
  ghost predicate CallOk(cfg: Config, s: State, r: nat, c: Call)
    requires r < |s.flights|
  {
    var call := CallOf(s.flights[r], c);
    call.Idle? ||
    (call.at < |s.store.hits|
     && var h := s.store.hits[call.at];
        h.rid == r && h.call == c && h.n == call.n && h.key == CounterKey(cfg, s.flights[r].req, c))
  }

  // Every INCR in the history belongs to the call that points at it, so no call has two.
  ghost predicate HitOwned(s: State, i: nat)
    requires i < |s.store.hits|
  {
    var h := s.store.hits[i];
    h.rid < |s.flights| && !CallOf(s.flights[h.rid], h.call).Idle? && CallOf(s.flights[h.rid], h.call).at == i
  }

  ghost predicate CallsOk(cfg: Config, s: State) {
    && (forall r, c :: 0 <= r < |s.flights| ==> CallOk(cfg, s, r, c))
    && (forall i :: 0 <= i < |s.store.hits| ==> HitOwned(s, i))
  }

  ghost predicate Owes(s: State, r: nat, c: Call) {
    r < |s.flights| && CallOf(s.flights[r], c).Owing?
  }

  // A counter key without a deadline is owed one by the call that created its incarnation.
  ghost predicate CreatorOwes(s: State, k: string)
    requires k in s.store.db
  {
    s.store.db[k].deadline.None? ==>
      && s.store.db[k].inc < |s.store.hits|
      && var h := s.store.hits[s.store.db[k].inc]; h.key == k && Owes(s, h.rid, h.call)
  }

  // A window call that owes its EXPIRE finds the incarnation it created, still without a deadline.
  ghost predicate DebtOk(cfg: Config, s: State, r: nat, c: Call)
    requires r < |s.flights|
  {
    Owes(s, r, c) && c != Streak ==>
      var k := CounterKey(cfg, s.flights[r].req, c);
      k in s.store.db && s.store.db[k].inc == CallOf(s.flights[r], c).at && s.store.db[k].deadline.None?
  }

  ghost predicate DebtsOk(cfg: Config, s: State) {
    && CallsOk(cfg, s)
    && (forall k :: k in s.store.db && IsCounterKey(k) ==> CreatorOwes(s, k))
    && (forall r, c :: 0 <= r < |s.flights| ==> DebtOk(cfg, s, r, c))
  }

  // Actions other than INCR and EXPIRE leave the history and every call alone.
  ghost predicate SameCalls(s: State, t: State) {
    && t.store.hits == s.store.hits && |s.flights| <= |t.flights|
    && (forall r, c :: 0 <= r < |t.flights| ==> SameCall(s, t, r, c))
  }

  ghost predicate SameCall(s: State, t: State, r: nat, c: Call)
    requires r < |t.flights|
  {
    if r < |s.flights| then
      CallOf(t.flights[r], c) == CallOf(s.flights[r], c) && t.flights[r].req == s.flights[r].req
    else CallOf(t.flights[r], c).Idle?
  }

  lemma OtherActionsKeepCalls(cfg: Config, s: State, a: Action)
    requires Enabled(cfg, s, a) && !a.Increment? && !a.SetExpiry?
    ensures SameCalls(s, Step(cfg, s, a))
  {
    FlightFrame(cfg, s, a);
  }

  lemma SameCallsKeepCalls(cfg: Config, s: State, t: State)
    requires CallsOk(cfg, s) && SameCalls(s, t)
    ensures CallsOk(cfg, t)
  {
    forall r, c | 0 <= r < |t.flights|
      ensures CallOk(cfg, t, r, c)
    {
      assert SameCall(s, t, r, c);
      assert r < |s.flights| ==> CallOk(cfg, s, r, c);
    }
    forall i | 0 <= i < |t.store.hits|
      ensures HitOwned(t, i)
    {
      assert HitOwned(s, i);
      assert SameCall(s, t, s.store.hits[i].rid, s.store.hits[i].call);
    }
  }

  // A call is left alone, or it is the one the action advances.
  lemma CallStep(cfg: Config, s: State, a: Action, r: nat, c: Call)
    requires Enabled(cfg, s, a) && (a.Increment? || a.SetExpiry?) && r < |s.flights|
    ensures var t := Step(cfg, s, a);
            && r < |t.flights| && t.flights[r].req == s.flights[r].req && s.store.hits <= t.store.hits
            && (r != a.rid || c != a.call ==> CallOf(t.flights[r], c) == CallOf(s.flights[r], c))
  {
  }

  lemma CallStepKeepsCall(cfg: Config, s: State, a: Action, r: nat, c: Call)
    requires CallsOk(cfg, s) && Enabled(cfg, s, a) && (a.Increment? || a.SetExpiry?) && r < |s.flights|
    ensures CallOk(cfg, Step(cfg, s, a), r, c)
  {
    assert CallOk(cfg, s, r, c);
    CallStep(cfg, s, a, r, c);
  }

  lemma CallStepKeepsCalls(cfg: Config, s: State, a: Action)
    requires CallsOk(cfg, s) && Enabled(cfg, s, a) && (a.Increment? || a.SetExpiry?)
    ensures CallsOk(cfg, Step(cfg, s, a))
  {
    var t := Step(cfg, s, a);
    FlightFrame(cfg, s, a);
    assert CallOk(cfg, s, a.rid, a.call);
    forall r, c | 0 <= r < |t.flights|
      ensures CallOk(cfg, t, r, c)
    {
      CallStepKeepsCall(cfg, s, a, r, c);
    }
    forall i | 0 <= i < |t.store.hits|
      ensures HitOwned(t, i)
    {
      assert i < |s.store.hits| ==> HitOwned(s, i);
    }
  }

  lemma StepKeepsCalls(cfg: Config, s: State, a: Action)
    requires CallsOk(cfg, s) && Enabled(cfg, s, a)
    ensures CallsOk(cfg, Step(cfg, s, a))
  {
    if a.Increment? || a.SetExpiry? {
      CallStepKeepsCalls(cfg, s, a);
    } else {
      OtherActionsKeepCalls(cfg, s, a);
      SameCallsKeepCalls(cfg, s, Step(cfg, s, a));
    }
  }

  // Other actions add no counter key and change none.
  lemma CounterFrame(cfg: Config, s: State, a: Action, k: string)
    requires Enabled(cfg, s, a) && IsCounterKey(k) && !a.Increment? && !a.SetExpiry?
    ensures var t := Step(cfg, s, a);
            && (k in t.store.db ==> k in s.store.db && t.store.db[k] == s.store.db[k])
            && (IsCountKey(k) && k in s.store.db ==> k in t.store.db)
  {
  }

  lemma StepKeepsCreator(cfg: Config, s: State, a: Action, k: string)
    requires DebtsOk(cfg, s) && StoreInv(s.store) && Enabled(cfg, s, a)
    requires IsCounterKey(k) && k in Step(cfg, s, a).store.db
    ensures CreatorOwes(Step(cfg, s, a), k)
  {
    if a.Increment? || a.SetExpiry? {
      CallStepKeepsCreator(cfg, s, a, k);
    } else {
      CounterFrame(cfg, s, a, k);
      OtherActionsKeepCalls(cfg, s, a);
      SameCallsKeepCreator(s, Step(cfg, s, a), k);
    }
  }

  lemma SameCallsKeepCreator(s: State, t: State, k: string)
    requires SameCalls(s, t) && k in s.store.db && k in t.store.db && t.store.db[k] == s.store.db[k]
    requires CreatorOwes(s, k)
    ensures CreatorOwes(t, k)
  {
    if s.store.db[k].deadline.None? {
      var h := s.store.hits[s.store.db[k].inc];
      assert SameCall(s, t, h.rid, h.call);
    }
  }

  lemma CallStepKeepsCreator(cfg: Config, s: State, a: Action, k: string)
    requires DebtsOk(cfg, s) && StoreInv(s.store) && Enabled(cfg, s, a) && (a.Increment? || a.SetExpiry?)
    requires IsCounterKey(k) && k in Step(cfg, s, a).store.db
    ensures CreatorOwes(Step(cfg, s, a), k)
  {
    assert CallOk(cfg, s, a.rid, a.call);
    if k in s.store.db {
      assert CreatorOwes(s, k) && EntryOk(s.store, k);
      assert HitOwned(s, s.store.db[k].inc);
    }
  }

  lemma IncrKeepsDebt(cfg: Config, s: State, a: Action, r: nat, c: Call)
    requires DebtsOk(cfg, s) && StoreInv(s.store) && Enabled(cfg, s, a)
    requires a.Increment? && r < |s.flights| && c != Streak
    ensures DebtOk(cfg, Step(cfg, s, a), r, c)
  {
    var k, j := CounterKey(cfg, s.flights[r].req, c), CounterKey(cfg, s.flights[a.rid].req, a.call);
    assert DebtOk(cfg, s, r, c);
    assert j in s.store.db ==> EntryOk(s.store, j);
    var t := Step(cfg, s, a);
    if r == a.rid && c == a.call {
      assert t.store.db[k].inc == CallOf(t.flights[r], c).at || !Owes(t, r, c);
    } else {
      assert CallOf(t.flights[r], c) == CallOf(s.flights[r], c);
    }
  }

  lemma ExpiryKeepsDebt(cfg: Config, s: State, a: Action, r: nat, c: Call)
    requires DebtsOk(cfg, s) && StoreInv(s.store) && Enabled(cfg, s, a)
    requires a.SetExpiry? && r < |s.flights| && c != Streak
    ensures DebtOk(cfg, Step(cfg, s, a), r, c)
  {
    var k, j := CounterKey(cfg, s.flights[r].req, c), CounterKey(cfg, s.flights[a.rid].req, a.call);
    assert DebtOk(cfg, s, r, c) && CallOk(cfg, s, r, c);
    assert DebtOk(cfg, s, a.rid, a.call) && CallOk(cfg, s, a.rid, a.call);
    var t := Step(cfg, s, a);
    if r != a.rid || c != a.call {
      assert CallOf(t.flights[r], c) == CallOf(s.flights[r], c);
      assert Owes(s, r, c) ==> k != j;
    }
  }

  lemma StepKeepsDebt(cfg: Config, s: State, a: Action, r: nat, c: Call)
    requires DebtsOk(cfg, s) && StoreInv(s.store) && Enabled(cfg, s, a)
    requires r < |Step(cfg, s, a).flights|
    ensures DebtOk(cfg, Step(cfg, s, a), r, c)
  {
    if a.SetExpiry? || a.Increment? {
      if c != Streak && a.SetExpiry? {
        ExpiryKeepsDebt(cfg, s, a, r, c);
      } else if c != Streak {
        IncrKeepsDebt(cfg, s, a, r, c);
      }
    } else {
      OtherActionsKeepCalls(cfg, s, a);
      assert SameCall(s, Step(cfg, s, a), r, c);
      if r < |s.flights| {
        assert DebtOk(cfg, s, r, c);
        CounterFrame(cfg, s, a, CounterKey(cfg, s.flights[r].req, c));
      }
    }
  }

  lemma {:induction false} RunKeepsDebts(cfg: Config, states: seq<State>, acts: seq<Action>, i: nat)
    requires IsRun(cfg, states, acts) && i < |states|
    ensures DebtsOk(cfg, states[i])
  {
    if i > 0 {
      RunKeepsDebts(cfg, states, acts, i - 1);
      RunKeepsStore(cfg, states, acts, i - 1);
      var s, a := states[i - 1], acts[i - 1];
      assert IsStep(cfg, s, a, states[i]);
      StepKeepsCalls(cfg, s, a);
      forall k | k in states[i].store.db && IsCounterKey(k)
        ensures CreatorOwes(states[i], k)
      {
        StepKeepsCreator(cfg, s, a, k);
      }
      forall r, c | 0 <= r < |states[i].flights|
        ensures DebtOk(cfg, states[i], r, c)
      {
        StepKeepsDebt(cfg, s, a, r, c);
      }
    }
  }

  // ---------- Bounded escape ----------

  // Forwarded without the engine being asked, with the INCR that the threshold looks at inside [a, a + 10s).
  predicate EscapedIn(cfg: Config, s: State, r: nat, k: string, a: int) {
    && r < |s.flights|
    && var f := s.flights[r];
       && f.forwards > 0 && f.answer.None? && CounterKey(cfg, f.req, Ten) == k
       && f.ten.Returned? && f.ten.at < |s.store.hits| && a <= s.store.hits[f.ten.at].time < a + 10_000
  }

  // In every interleaving, at most 2·T - 1 requests on one window counter escape scoring in any ten seconds, and none
  // when T is not positive.
  lemma BoundedEscape(cfg: Config, states: seq<State>, acts: seq<Action>, i: nat, k: string, a: int)
    requires IsRun(cfg, states, acts) && i < |states| && IsCountKey(k)
    ensures var escaped := set r | 0 <= r < |states[i].flights| && EscapedIn(cfg, states[i], r, k, a);
            |escaped| <= Max(2 * cfg.rateEscalationThreshold - 1, 0)
  {
    var s, limit := states[i], Max(cfg.rateEscalationThreshold, 0);
    RunKeepsStore(cfg, states, acts, i);
    RunKeepsDebts(cfg, states, acts, i);
    RunKeepsFlights(cfg, states, acts, i);
    RunKeepsLowBound(cfg, states, acts, i, k, a, limit);
    LowBoundAtMost(s.store, k, a, limit);
    var escaped := set r | 0 <= r < |s.flights| && EscapedIn(cfg, s, r, k, a);
    var low := LowCallers(s.store.hits, k, a, limit);
    forall r | r in escaped
      ensures r in low
    {
      assert FlightOk(cfg, s.flights[r]) && CallOk(cfg, s, r, Ten);
      LowCallersContains(s.store.hits, k, a, limit, s.flights[r].ten.at);
    }
    SubsetSize(escaped, low);
  }

  lemma {:induction false} SubsetSize(a: set<nat>, b: set<nat>)
    requires a <= b
    ensures |a| <= |b|
  {
    if a != {} {
      var x :| x in a;
      SubsetSize(a - {x}, b - {x});
    }
  }

  // ---------- Ownership of EXPIRE ----------

  // A window counter has no deadline exactly while one call owes it an EXPIRE, and never two do.
  lemma OneOwner(cfg: Config, states: seq<State>, acts: seq<Action>, i: nat, k: string)
    requires IsRun(cfg, states, acts) && i < |states| && IsCountKey(k)
    ensures var s := states[i];
            && (k in s.store.db && s.store.db[k].deadline.None? <==> exists r, c :: OwesOn(cfg, s, r, c, k))
            && (forall r, c, r', c' :: OwesOn(cfg, s, r, c, k) && OwesOn(cfg, s, r', c', k) ==> r == r' && c == c')
  {
    var s := states[i];
    RunKeepsDebts(cfg, states, acts, i);
    if k in s.store.db && s.store.db[k].deadline.None? {
      assert CreatorOwes(s, k);
      var h := s.store.hits[s.store.db[k].inc];
      assert HitOwned(s, s.store.db[k].inc) && CallOk(cfg, s, h.rid, h.call);
      assert OwesOn(cfg, s, h.rid, h.call, k);
    }
    forall r, c, r', c' | OwesOn(cfg, s, r, c, k) && OwesOn(cfg, s, r', c', k)
      ensures r == r' && c == c'
      ensures k in s.store.db && s.store.db[k].deadline.None?
    {
      assert DebtOk(cfg, s, r, c) && DebtOk(cfg, s, r', c') && CallOk(cfg, s, r, c) && CallOk(cfg, s, r', c');
    }
    forall r, c | OwesOn(cfg, s, r, c, k)
      ensures k in s.store.db && s.store.db[k].deadline.None?
    {
      assert DebtOk(cfg, s, r, c);
    }
  }

  ghost predicate OwesOn(cfg: Config, s: State, r: nat, c: Call, k: string) {
    Owes(s, r, c) && CounterKey(cfg, s.flights[r].req, c) == k
  }

  // The owner's EXPIRE lands on the incarnation its INCR created: live, without a deadline until now.
  lemma ExpireLandsOnItsOwn(cfg: Config, states: seq<State>, acts: seq<Action>, i: nat)
    requires IsRun(cfg, states, acts) && i < |acts| && acts[i].SetExpiry? && acts[i].call != Streak
    ensures var s, t, a := states[i], states[i + 1], acts[i];
            && a.rid < |s.flights|
            && var k := CounterKey(cfg, s.flights[a.rid].req, a.call);
               && Live(s.store, k) && s.store.db[k].deadline.None?
               && CallOf(s.flights[a.rid], a.call).Owing?
               && s.store.db[k].inc == CallOf(s.flights[a.rid], a.call).at
               && t.store.db == s.store.db[k := s.store.db[k].(deadline :=
                                    Some(s.store.now + if a.call == Ten then 10_000 else 60_000))]
  {
    RunKeepsDebts(cfg, states, acts, i);
    assert IsStep(cfg, states[i], acts[i], states[i + 1]);
    assert DebtOk(cfg, states[i], acts[i].rid, acts[i].call);
  }

  ghost predicate NoAbandons(acts: seq<Action>) {
    forall i :: 0 <= i < |acts| ==> !acts[i].Abandon?
  }

  // A debt is held by a request that is still counting, whose EXPIRE can run next, or by an abandoned one; without
  // abandoned requests it is always the former.
  lemma DebtorCanPayOrIsAbandoned(cfg: Config, states: seq<State>, acts: seq<Action>, i: nat, r: nat, c: Call)
    requires IsRun(cfg, states, acts) && i < |states| && Owes(states[i], r, c)
    ensures Enabled(cfg, states[i], SetExpiry(r, c)) || states[i].flights[r].phase == Aborted
    ensures NoAbandons(acts) ==> Enabled(cfg, states[i], SetExpiry(r, c))
  {
    RunKeepsFlights(cfg, states, acts, i);
    assert FlightOk(cfg, states[i].flights[r]);
    if NoAbandons(acts) {
      NobodyAbandoned(cfg, states, acts, i, r);
    }
  }

  lemma {:induction false} NobodyAbandoned(cfg: Config, states: seq<State>, acts: seq<Action>, i: nat, r: nat)
    requires IsRun(cfg, states, acts) && i < |states| && NoAbandons(acts)
    ensures !InPhase(states[i], r, Aborted)
  {
    if i > 0 {
      NobodyAbandoned(cfg, states, acts, i - 1, r);
      assert IsStep(cfg, states[i - 1], acts[i - 1], states[i]);
      assert !acts[i - 1].Abandon?;
    }
  }

  // A streak key without a deadline has a call that owes it one, even with deletes interleaved.
  lemma StreakHasADebtor(cfg: Config, states: seq<State>, acts: seq<Action>, i: nat, k: string)
    requires IsRun(cfg, states, acts) && i < |states| && IsStreakKey(k)
    requires k in states[i].store.db && states[i].store.db[k].deadline.None?
    ensures exists r :: OwesOn(cfg, states[i], r, Streak, k)
  {
    var s := states[i];
    RunKeepsDebts(cfg, states, acts, i);
    RunKeepsStore(cfg, states, acts, i);
    assert CreatorOwes(s, k);
    var h := s.store.hits[s.store.db[k].inc];
    assert HitOwned(s, s.store.db[k].inc) && CallOk(cfg, s, h.rid, h.call);
    assert OwesOn(cfg, s, h.rid, Streak, k);
  }

  lemma {:induction false} AbandonedStays(cfg: Config, states: seq<State>, acts: seq<Action>, i: nat, j: nat, r: nat)
    requires IsRun(cfg, states, acts) && i <= j < |states| && InPhase(states[i], r, Aborted)
    ensures r < |states[j].flights| && states[j].flights[r] == states[i].flights[r]
    decreases j
  {
    if i < j {
      AbandonedStays(cfg, states, acts, i, j - 1, r);
      assert IsStep(cfg, states[j - 1], acts[j - 1], states[j]);
    }
  }

  // A window counter whose owner was abandoned never gets a deadline again: it is the same incarnation in every
  // later state. With OneOwner, that is the only way a window counter becomes immortal.
  lemma OrphanIsImmortal(cfg: Config, states: seq<State>, acts: seq<Action>, i: nat, j: nat, r: nat, c: Call, k: string)
    requires IsRun(cfg, states, acts) && i <= j < |states| && c != Streak
    requires OwesOn(cfg, states[i], r, c, k) && states[i].flights[r].phase == Aborted
    ensures k in states[i].store.db && Live(states[j].store, k) && states[j].store.db[k].deadline.None?
    ensures states[j].store.db[k].inc == states[i].store.db[k].inc
  {
    AbandonedStays(cfg, states, acts, i, j, r);
    RunKeepsDebts(cfg, states, acts, i);
    RunKeepsDebts(cfg, states, acts, j);
    assert DebtOk(cfg, states[i], r, c) && DebtOk(cfg, states[j], r, c);
  }

  // ---------- No request is ever stuck ----------

  // A request in flight always has an action it can take next.
  lemma NeverStuck(cfg: Config, states: seq<State>, acts: seq<Action>, i: nat, r: nat)
    requires IsRun(cfg, states, acts) && i < |states| && r < |states[i].flights|
    requires states[i].flights[r].phase != Done && states[i].flights[r].phase != Aborted
    ensures exists a :: ActsOn(a, r) && !a.Abandon? && Enabled(cfg, states[i], a)
  {
    var s := states[i];
    var f := s.flights[r];
    RunKeepsStore(cfg, states, acts, i);
    RunKeepsFlights(cfg, states, acts, i);
    assert FlightOk(cfg, f);
    var a := match f.phase
      case Arrived => Authenticate(r)
      case Checking => Check(r)
      case Counting =>
        if f.ten.Idle? then Increment(r, Ten) else if f.ten.Owing? then SetExpiry(r, Ten)
        else if f.sixty.Idle? then Increment(r, Sixty) else if f.sixty.Owing? then SetExpiry(r, Sixty)
        else if f.streak.Idle? then Increment(r, Streak) else if f.streak.Owing? then SetExpiry(r, Streak)
        else Publish(r, false)
      case Routing => Route(r)
      case Scoring => AskEngine(r, true)
      case Blocking => WriteBlock(r)
      case _ => Reject(r);
    if a.Increment? {
      CountersCountable(s.store, CounterKey(cfg, f.req, a.call));
    }
    assert ActsOn(a, r) && !a.Abandon? && Enabled(cfg, s, a);
  }
}
