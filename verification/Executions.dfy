/** Sequences of actions from a given state, and their place in runs. */
module Executions {
  import opened Wrappers
  import opened RedisStore
  import opened CounterHistory
  import opened GatewaySignal
  import opened RedisStateService
  import opened Enforcement
  import opened CounterTheorems

  // The state after these actions, if each is enabled in its turn.
  function Exec(cfg: Config, s: State, acts: seq<Action>): Option<State> {
    if acts == [] then Some(s)
    else
      match Exec(cfg, s, acts[..|acts| - 1])
      case Some(m) =>
        var a := acts[|acts| - 1];
        if Enabled(cfg, m, a) then Some(Step(cfg, m, a)) else None
      case None => None
  }

  lemma ExecOneMore(cfg: Config, s: State, acts: seq<Action>, m: State, a: Action)
    requires Exec(cfg, s, acts) == Some(m) && Enabled(cfg, m, a)
    ensures Exec(cfg, s, acts + [a]) == Some(Step(cfg, m, a))
  {
    assert (acts + [a])[..|acts|] == acts;
  }

  // What executes from the end of a run continues the run, so everything proved of runs holds of it.
  lemma {:induction false} ExecExtendsRun(cfg: Config, states: seq<State>, acts: seq<Action>,
                                          more: seq<Action>, t: State) returns (longer: seq<State>)
    requires IsRun(cfg, states, acts) && Exec(cfg, states[|acts|], more) == Some(t)
    ensures IsRun(cfg, longer, acts + more) && longer[|acts + more|] == t && states <= longer
  {
    if more == [] {
      longer := states;
      assert acts + more == acts;
    } else {
      var init, a := more[..|more| - 1], more[|more| - 1];
      var m := Exec(cfg, states[|acts|], init).value;
      var before := ExecExtendsRun(cfg, states, acts, init, m);
      longer := before + [t];
      assert acts + more == acts + init + [a];
      forall i | 0 <= i < |acts + more|
        ensures IsStep(cfg, longer[i], (acts + more)[i], longer[i + 1])
      {
        if i < |acts + init| {
          assert IsStep(cfg, before[i], (acts + init)[i], before[i + 1]);
        }
      }
    }
  }

  // One counter call with nothing in between: INCR, then EXPIRE if one is owed.
  lemma CallAlone(cfg: Config, s: State, acts: seq<Action>, m: State, r: nat, c: Call)
    returns (acts': seq<Action>, t: State)
    requires Exec(cfg, s, acts) == Some(m) && StoreInv(m.store)
    requires InPhase(m, r, Counting) && CallOf(m.flights[r], c).Idle?
    ensures Countable(m.store, CounterKey(cfg, m.flights[r].req, c))
    ensures Exec(cfg, s, acts') == Some(t) && StoreInv(t.store)
    ensures acts' == acts + [Increment(r, c)] || acts' == acts + [Increment(r, c)] + [SetExpiry(r, c)]
    ensures var k, f := CounterKey(cfg, m.flights[r].req, c), m.flights[r];
            && t.store == (if c == Streak then StreakCall(m.store, k, r)
                           else WindowCall(m.store, k, CounterTtl(c), r, c))
            && t == m.(store := t.store,
                       flights := m.flights[r := WithCall(f, c, Returned(|m.store.hits|, NextCount(m.store, k)))])
  {
    var k, f := CounterKey(cfg, m.flights[r].req, c), m.flights[r];
    CountersCountable(m.store, k);
    var a := Increment(r, c);
    ExecOneMore(cfg, s, acts, m, a);
    StepKeepsStore(cfg, m, a);
    acts', t := acts + [a], Step(cfg, m, a);
    if CallOf(t.flights[r], c).Owing? {
      var b := SetExpiry(r, c);
      ExecOneMore(cfg, s, acts', t, b);
      StepKeepsStore(cfg, t, b);
      acts', t := acts' + [b], Step(cfg, t, b);
      assert t.flights == m.flights[r := WithCall(f, c, Returned(|m.store.hits|, NextCount(m.store, k)))];
    }
  }
}
