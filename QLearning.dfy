// The tabular Q-learning agent of flappybird.py: the value table with its
// default-0 lookups, get_max_reward, determine_action and the three table
// updates the main loop performs (periodic, on death, record bonus).

module QLearning {
  import opened Encoder
  import opened Streams

  /** A table key: a quantised state and an action (true = flap). */
  type Key = (State, bool)
  /** The value table; absent keys read as 0. */
  type Table = map<Key, real>

  /** Learning rate of both temporal-difference updates. */
  const ALPHA: real := 0.7
  /** Discount of the update made once per decision interval. */
  const GAMMA_INTERVAL: real := 0.9
  /** Discount of the update made when the per-frame check finds a death. */
  const GAMMA_DEATH: real := 0.75
  const REWARD_ALIVE: real := 1.0
  const REWARD_DEATH: real := -1000.0
  /** Added to the "early" pair when a record-breaking pipe is passed. */
  const BONUS: real := 100.0

  /** The value of key k in the table, or 0 when the table has no entry for k. */
  function Get(q: Table, k: Key): real
  {
    if k in q then q[k] else 0.0
  }

  function Max(x: real, y: real): real
  {
    if x >= y then x else y
  }

  /** get_max_reward: the larger of the values of (s, a) and (s, not a). */
  function GetMaxReward(s: State, q: Table, a: bool): (r: real)
    ensures r >= Get(q, (s, a)) && r >= Get(q, (s, !a))
    ensures r == Get(q, (s, a)) || r == Get(q, (s, !a))
  {
    if Get(q, (s, a)) > Get(q, (s, !a)) then Get(q, (s, a)) else Get(q, (s, !a))
  }

  /** Which action is passed in does not matter: both give the best value
      of the state. */
  lemma MaxRewardIsBestOfState(s: State, q: Table, a: bool)
    ensures GetMaxReward(s, q, a) == GetMaxReward(s, q, !a)
    ensures GetMaxReward(s, q, a) == Max(Get(q, (s, true)), Get(q, (s, false)))
  {
  }

  /** One temporal-difference step at key k:
      Q[k] := Q[k] + ALPHA * (reward + gamma * maxReward - Q[k]).
      The new value is the ALPHA-weighted mix of the old value and the
      target, the key is added if it was absent, and no other key changes. */
  function TdUpdate(q: Table, k: Key, reward: real, gamma: real, maxReward: real): (r: Table)
    ensures r.Keys == q.Keys + {k}
    ensures forall k' | k' != k :: Get(r, k') == Get(q, k')
    ensures Get(r, k) == (1.0 - ALPHA) * Get(q, k) + ALPHA * (reward + gamma * maxReward)
  {
    var was := Get(q, k);
    q[k := was + ALPHA * (reward + gamma * maxReward - was)]
  }

  /** The update moves the value toward its target, never past it, and
      removes 70% of the distance. */
  lemma TdUpdateMovesTowardTarget(q: Table, k: Key, reward: real, gamma: real, maxReward: real)
    ensures var target := reward + gamma * maxReward;
            var v := Get(TdUpdate(q, k, reward, gamma, maxReward), k);
            && v - target == (1.0 - ALPHA) * (Get(q, k) - target)
            && (Get(q, k) <= target ==> Get(q, k) <= v <= target)
            && (target <= Get(q, k) ==> target <= v <= Get(q, k))
  {
  }

  /** d scaled by 1 - ALPHA = 0.3, n times over. */
  function Shrink(d: real, n: nat): real
  {
    if n == 0 then d else (1.0 - ALPHA) * Shrink(d, n - 1)
  }

  /** n temporal-difference steps at the same key toward the same target. */
  function RepeatUpdate(q: Table, k: Key, reward: real, gamma: real, maxReward: real, n: nat): Table
  {
    if n == 0 then q
    else TdUpdate(RepeatUpdate(q, k, reward, gamma, maxReward, n - 1), k, reward, gamma, maxReward)
  }

  /** Scaling by 0.3 any number of times keeps the sign and never grows
      the magnitude. */
  lemma {:induction false} ShrinkKeepsSignAndShrinks(d: real, n: nat)
    ensures 0.0 <= d ==> 0.0 <= Shrink(d, n) <= d
    ensures d <= 0.0 ==> d <= Shrink(d, n) <= 0.0
  {
    if n > 0 {
      ShrinkKeepsSignAndShrinks(d, n - 1);
    }
  }

  /** After n repeated updates the distance to the target is the first
      distance scaled by 0.3, n times over. */
  lemma {:induction false} DistanceShrinks(q: Table, k: Key, reward: real, gamma: real, maxReward: real, n: nat)
    ensures Get(RepeatUpdate(q, k, reward, gamma, maxReward, n), k) - (reward + gamma * maxReward)
            == Shrink(Get(q, k) - (reward + gamma * maxReward), n)
  {
    if n > 0 {
      var prev := RepeatUpdate(q, k, reward, gamma, maxReward, n - 1);
      DistanceShrinks(q, k, reward, gamma, maxReward, n - 1);
      TdUpdateMovesTowardTarget(prev, k, reward, gamma, maxReward);
    }
  }

  /** Repeated updates toward a fixed target converge geometrically: after n
      of them the distance to the target is 0.3^n times the first one, so it
      keeps its sign and never grows. */
  lemma {:induction false} RepeatedUpdatesConverge(q: Table, k: Key, reward: real, gamma: real, maxReward: real, n: nat)
    ensures var target := reward + gamma * maxReward;
            var d := Get(RepeatUpdate(q, k, reward, gamma, maxReward, n), k) - target;
            && d == Shrink(Get(q, k) - target, n)
            && (Get(q, k) >= target ==> 0.0 <= d <= Get(q, k) - target)
            && (Get(q, k) <= target ==> Get(q, k) - target <= d <= 0.0)
  {
    var target := reward + gamma * maxReward;
    DistanceShrinks(q, k, reward, gamma, maxReward, n);
    ShrinkKeepsSignAndShrinks(Get(q, k) - target, n);
  }

  /** 1 for surviving a decision interval, -1000 for dying in it. */
  function Reward(dead: bool): real
  {
    if dead then REWARD_DEATH else REWARD_ALIVE
  }

  /** The update made every decision interval: the previous pair (ps, pa)
      moves toward Reward(dead) + 0.9 * the best value of the current state
      s; no other key changes. */
  function IntervalUpdate(q: Table, s: State, a: bool, ps: State, pa: bool, dead: bool): (r: Table)
    ensures r.Keys == q.Keys + {(ps, pa)}
    ensures forall k | k != (ps, pa) :: Get(r, k) == Get(q, k)
    ensures Get(r, (ps, pa)) == 0.3 * Get(q, (ps, pa))
              + 0.7 * (Reward(dead) + 0.9 * Max(Get(q, (s, true)), Get(q, (s, false))))
  {
    MaxRewardIsBestOfState(s, q, a);
    TdUpdate(q, (ps, pa), Reward(dead), GAMMA_INTERVAL, GetMaxReward(s, q, a))
  }

  /** From an empty table, surviving an interval stores exactly 0.7. */
  lemma IntervalUpdateFromEmpty(s: State, a: bool, ps: State, pa: bool)
    ensures IntervalUpdate(map[], s, a, ps, pa, false) == map[(ps, pa) := 0.7]
  {
    var r := IntervalUpdate(map[], s, a, ps, pa, false);
    assert r.Keys == {(ps, pa)};
    assert r[(ps, pa)] == Get(r, (ps, pa)) == 0.7;
  }

  /** The update made when the per-frame check finds a death: the terminal
      pair (s, a) is set to -1000, then the previous pair (ps, pa) moves
      toward -1000 + 0.75 * the best value of s, read after that write.
      When the two pairs coincide the second write wins, so the terminal
      value need not be -1000: it is -1000 + 0.525 * Max(-1000, Q[s, not a]). */
  function DeathUpdate(q: Table, s: State, a: bool, ps: State, pa: bool): (r: Table)
    ensures r.Keys == q.Keys + {(s, a), (ps, pa)}
    ensures forall k | k != (s, a) && k != (ps, pa) :: Get(r, k) == Get(q, k)
    ensures (ps, pa) != (s, a) ==> Get(r, (s, a)) == REWARD_DEATH
    ensures (ps, pa) != (s, a) ==>
      Get(r, (ps, pa)) == 0.3 * Get(q, (ps, pa))
                          + 0.7 * (REWARD_DEATH + 0.75 * Max(REWARD_DEATH, Get(q, (s, !a))))
    ensures (ps, pa) == (s, a) ==>
      Get(r, (s, a)) == REWARD_DEATH + 0.525 * Max(REWARD_DEATH, Get(q, (s, !a)))
  {
    var q1 := q[(s, a) := REWARD_DEATH];
    assert Get(q1, (s, !a)) == Get(q, (s, !a));
    TdUpdate(q1, (ps, pa), REWARD_DEATH, GAMMA_DEATH, GetMaxReward(s, q1, a))
  }

  /** The record bonus: the value of k (0 when absent) grows by 100 and no
      other key changes. */
  function WithBonus(q: Table, k: Key): (r: Table)
    ensures r.Keys == q.Keys + {k}
    ensures Get(r, k) == Get(q, k) + BONUS
    ensures forall k' | k' != k :: Get(r, k') == Get(q, k')
  {
    q[k := Get(q, k) + BONUS]
  }

  /** The agent's rolling memory of the game loop: the current state with
      the action last chosen, the pair of the interval before (the previous
      pair) and the pair before that (the early pair). */
  datatype History = History(state: State, action: bool, previous: Key, early: Key)

  /** The history every life starts from: all three states are the hand
      written initial state and no action is a flap. */
  function InitialHistory(s: State): (h: History)
    ensures h.state == s && !h.action
    ensures h.previous == (s, false) && h.early == (s, false)
  {
    History(s, false, (s, false), (s, false))
  }

  /** The shift at the end of an interval: early <- previous <- current <-
      next. The action stays until the next interval chooses one. */
  function Shift(h: History, next: State): (r: History)
    ensures r.early == h.previous && r.previous == (h.state, h.action)
    ensures r.state == next && r.action == h.action
  {
    History(next, h.action, (h.state, h.action), h.previous)
  }

  /** Two shifts on, the pair that was current has become the early pair,
      the one the record bonus rewards. */
  lemma EarlyIsTwoIntervalsBack(h: History, s1: State, a1: bool, s2: State)
    ensures Shift(Shift(h, s1).(action := a1), s2).early == (h.state, h.action)
    ensures Shift(Shift(h, s1).(action := a1), s2).previous == (s1, a1)
  {
  }

  /** determine_action explores when the first roll of randint(1, 10) is
      below 3 and the current life has at least matched the best score. */
  predicate Explores(roll: int, score: int, maxScore: int)
  {
    roll < 3 && score >= maxScore
  }

  /** The choice determine_action makes from the two draws of the
      exploration stream (`coin` is only consulted when exploring). */
  function ChooseAction(q: Table, s: State, roll: int, coin: int, score: int, maxScore: int): (a: bool)
    ensures Explores(roll, score, maxScore) ==> (a <==> coin == 1)
    ensures !Explores(roll, score, maxScore) ==> (a <==> Get(q, (s, true)) > Get(q, (s, false)))
  {
    if Explores(roll, score, maxScore) then coin == 1
    else Get(q, (s, true)) > Get(q, (s, false))
  }

  /** Without exploration the choice is an argmax of the state's values... */
  lemma GreedyChoiceIsBest(q: Table, s: State, roll: int, coin: int, score: int, maxScore: int)
    requires !Explores(roll, score, maxScore)
    ensures Get(q, (s, ChooseAction(q, s, roll, coin, score, maxScore))) == GetMaxReward(s, q, true)
  {
  }

  /** ...that breaks exact ties, an empty table included, toward not
      flapping. */
  lemma GreedyTieMeansNoFlap(q: Table, s: State, roll: int, coin: int, score: int, maxScore: int)
    requires !Explores(roll, score, maxScore)
    requires Get(q, (s, true)) == Get(q, (s, false))
    ensures !ChooseAction(q, s, roll, coin, score, maxScore)
    ensures !ChooseAction(map[], s, roll, coin, score, maxScore)
  {
  }

  /** Below the record score the draws are irrelevant: the choice depends
      on the table alone. */
  lemma NoExplorationBelowRecord(q: Table, s: State, roll1: int, coin1: int, roll2: int, coin2: int, score: int, maxScore: int)
    requires score < maxScore
    ensures ChooseAction(q, s, roll1, coin1, score, maxScore)
            == ChooseAction(q, s, roll2, coin2, score, maxScore)
  {
  }

  /** determine_action: draw the roll from the exploration stream and, when
      exploring, the coin too; otherwise flap only on a strictly larger
      flap value. */
  method DetermineAction(s: State, q: Table, rng: Stream, score: int, maxScore: int) returns (a: bool)
    requires rng.Valid()
    modifies rng
    ensures var roll := FromUniform(rng.values(old(rng.pos)), 1, 10);
            && a == ChooseAction(q, s, roll, FromUniform(rng.values(old(rng.pos) + 1), 0, 1), score, maxScore)
            && rng.pos == old(rng.pos) + (if Explores(roll, score, maxScore) then 2 else 1)
  {
    var stateClick := Get(q, (s, true));
    var stateNothing := Get(q, (s, false));
    var value := rng.RandInt(1, 10);
    if value < 3 && score >= maxScore {
      value := rng.RandInt(0, 1);
      if value == 1 {
        return true;
      } else {
        return false;
      }
    } else if stateClick > stateNothing {
      return true;
    }
    return false;
  }
}
