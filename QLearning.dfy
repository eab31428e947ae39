/**
 * The tabular Q-learner (Q_Learner/QLearner.py). A `QLearner` owns the Q
 * table, a map from state-action pairs to scores, and remembers the state
 * and action of its previous move. Each move first makes sure the current
 * state's pairs are in the table, then (after the first move) updates the
 * previous pair's score, and picks the next action epsilon-greedily.
 *
 * The functions of this module state what the table and the policy are;
 * the methods of the class are the Python methods of `QLearner.py`, which
 * update the table in place, proved against those functions.
 */
module QLearning {
  import opened Wrappers
  import opened PacmanState
  import opened StateActions

  type QTable = map<StateActionPair, real>

  /** The starting best score of `argmax`: a finite sentinel, not minus infinity. */
  const Sentinel: real := -10000000000.0

  /** The errors Python raises when the list of legal actions is empty. */
  datatype PyError =
    | IndexError  // `random.choice` of an empty list
    | ValueError  // `max` of an empty list

  /**
   * The values Python's `random` module would produce for one move:
   * `uniform` is the exploration draw `random.uniform(0, 1)`, `choice` the
   * index behind the exploring (or first-move) `random.choice(legal)`, and
   * `fallbackChoice` the index behind the `random.choice(legal)` of `argmax`.
   */
  datatype Draws = Draws(uniform: real, choice: nat, fallbackChoice: nat)

  /** `random.choice(legal)` with the index supplied by the caller. */
  function Choice(legal: seq<Action>, i: nat): (a: Action)
    requires |legal| > 0
    ensures a in legal
  {
    legal[i % |legal|]
  }

  /** Every pair of `s` with a legal action is a key of the table. */
  ghost predicate Populated(q: QTable, s: State, legal: seq<Action>)
  {
    forall a :: a in legal ==> Key(s, a) in q
  }

  // ---------------------------------------------------------------------
  // initialise_space

  /** The table after `initialise_space(s, legal)`: each missing pair, in the order of `legal`, gets 0. */
  function InitSpace(q: QTable, s: State, legal: seq<Action>): (r: QTable)
    ensures q.Keys <= r.Keys
    decreases |legal|
  {
    if legal == [] then q
    else
      var q' := InitSpace(q, s, legal[..|legal| - 1]);
      var sa := Key(s, legal[|legal| - 1]);
      if sa in q' then q' else q'[sa := 0.0]
  }

  /**
   * After `initialise_space` every legal pair of `s` is a key, old keys keep
   * their values, and each new key is a legal pair of `s` with score 0.
   */
  lemma {:induction false} InitSpaceContents(q: QTable, s: State, legal: seq<Action>)
    ensures Populated(InitSpace(q, s, legal), s, legal)
    ensures q.Keys <= InitSpace(q, s, legal).Keys
    ensures forall sa :: sa in q ==> InitSpace(q, s, legal)[sa] == q[sa]
    ensures forall sa :: sa in InitSpace(q, s, legal) && sa !in q ==>
      InitSpace(q, s, legal)[sa] == 0.0 && sa.state == Some(s) && sa.action.Some? && sa.action.value in legal
    decreases |legal|
  {
    if legal != [] {
      var init := legal[..|legal| - 1];
      InitSpaceContents(q, s, init);
      forall a | a in legal ensures Key(s, a) in InitSpace(q, s, legal) {
        if a != legal[|legal| - 1] {
          assert a in init;
        }
      }
    }
  }

  /** Initialising a table that already holds every legal pair changes nothing. */
  lemma {:induction false} InitSpaceOfPopulated(q: QTable, s: State, legal: seq<Action>)
    requires Populated(q, s, legal)
    ensures InitSpace(q, s, legal) == q
    decreases |legal|
  {
    if legal != [] {
      var init := legal[..|legal| - 1];
      assert Populated(q, s, init);
      InitSpaceOfPopulated(q, s, init);
    }
  }

  /** `initialise_space` is idempotent. */
  lemma InitSpaceIdempotent(q: QTable, s: State, legal: seq<Action>)
    ensures InitSpace(InitSpace(q, s, legal), s, legal) == InitSpace(q, s, legal)
  {
    InitSpaceContents(q, s, legal);
    InitSpaceOfPopulated(InitSpace(q, s, legal), s, legal);
  }

  // ---------------------------------------------------------------------
  // update_q_score

  /** Python's `max` of a non-empty list. */
  function Max(xs: seq<real>): (m: real)
    requires |xs| > 0
    ensures m in xs
    ensures forall x :: x in xs ==> x <= m
  {
    if |xs| == 1 then xs[0]
    else
      var rest := Max(xs[1..]);
      assert forall x :: x in xs ==> x == xs[0] || x in xs[1..];
      if xs[0] >= rest then xs[0] else rest
  }

  /** The list `new_sas`: for each legal action, its next-state score minus the previous pair's score. */
  function Deltas(q: QTable, sa: StateActionPair, legal: seq<Action>, next: State): (r: seq<real>)
    requires sa in q && Populated(q, next, legal)
    ensures |r| == |legal|
    decreases |legal|
  {
    if legal == [] then []
    else Deltas(q, sa, legal[..|legal| - 1], next) + [q[Key(next, legal[|legal| - 1])] - q[sa]]
  }

  /** The scores of the next state's legal pairs, in the order of `legal`. */
  function NextScores(q: QTable, next: State, legal: seq<Action>): (r: seq<real>)
    requires Populated(q, next, legal)
    ensures |r| == |legal|
    ensures forall i :: 0 <= i < |legal| ==> r[i] == q[Key(next, legal[i])]
  {
    seq(|legal|, i requires 0 <= i < |legal| => q[Key(next, legal[i])])
  }

  /** `new_sas` is the list of next-state scores, each less the previous pair's score. */
  lemma {:induction false} DeltasAreShiftedScores(q: QTable, sa: StateActionPair, legal: seq<Action>, next: State)
    requires sa in q && Populated(q, next, legal)
    ensures |Deltas(q, sa, legal, next)| == |legal|
    ensures forall i :: 0 <= i < |legal| ==> Deltas(q, sa, legal, next)[i] == q[Key(next, legal[i])] - q[sa]
    decreases |legal|
  {
    if legal != [] {
      var init := legal[..|legal| - 1];
      assert Populated(q, next, init);
      DeltasAreShiftedScores(q, sa, init, next);
    }
  }

  /** The maximum of a list with a constant subtracted from every element is the maximum less that constant. */
  lemma MaxOfShifted(xs: seq<real>, ys: seq<real>, c: real)
    requires |xs| == |ys| > 0
    requires forall i :: 0 <= i < |xs| ==> ys[i] == xs[i] - c
    ensures Max(ys) == Max(xs) - c
  {
  }

  /** The formula of `update_q_score`: `previous + alpha * (score + gamma * best)`, `best` being the largest delta. */
  function Blend(previous: real, alpha: real, score: real, gamma: real, best: real): real
  {
    previous + alpha * (score + gamma * best)
  }

  /** The new score `update_q_score` writes, computed as `QLearner.py` computes it. */
  function UpdatedScore(q: QTable, sa: StateActionPair, legal: seq<Action>, next: State,
                        score: real, alpha: real, gamma: real): real
    requires |legal| > 0 && sa in q && Populated(q, next, legal)
  {
    Blend(q[sa], alpha, score, gamma, Max(Deltas(q, sa, legal, next)))
  }

  /** The largest delta is the best next-state score less the previous pair's score. */
  lemma MaxDelta(q: QTable, sa: StateActionPair, legal: seq<Action>, next: State)
    requires |legal| > 0 && sa in q && Populated(q, next, legal)
    ensures Max(Deltas(q, sa, legal, next)) == Max(NextScores(q, next, legal)) - q[sa]
  {
    DeltasAreShiftedScores(q, sa, legal, next);
    MaxOfShifted(NextScores(q, next, legal), Deltas(q, sa, legal, next), q[sa]);
  }

  /**
   * The update rule, against the best next-state score `M`:
   * `Q' = Q + alpha * (score + gamma * (M - Q))`, where `Q` is the previous
   * pair's score.
   */
  lemma UpdateRule(q: QTable, sa: StateActionPair, legal: seq<Action>, next: State,
                   score: real, alpha: real, gamma: real)
    requires |legal| > 0 && sa in q && Populated(q, next, legal)
    ensures UpdatedScore(q, sa, legal, next, score, alpha, gamma)
      == Blend(q[sa], alpha, score, gamma, Max(NextScores(q, next, legal)) - q[sa])
  {
    MaxDelta(q, sa, legal, next);
  }

  /**
   * The rule written out: `(1 - alpha * gamma) * Q + alpha * (score + gamma * M)`.
   * The canonical rule `Q + alpha * (score + gamma * M - Q)` gives the same
   * score exactly when `alpha * Q * (1 - gamma) == 0`.
   */
  lemma UpdateRuleVersusCanonical(q: QTable, sa: StateActionPair, legal: seq<Action>, next: State,
                                  score: real, alpha: real, gamma: real)
    requires |legal| > 0 && sa in q && Populated(q, next, legal)
    ensures var m := Max(NextScores(q, next, legal));
      UpdatedScore(q, sa, legal, next, score, alpha, gamma) == (1.0 - alpha * gamma) * q[sa] + alpha * (score + gamma * m)
    ensures var m := Max(NextScores(q, next, legal));
      UpdatedScore(q, sa, legal, next, score, alpha, gamma) == q[sa] + alpha * (score + gamma * m - q[sa])
      <==> alpha * q[sa] * (1.0 - gamma) == 0.0
  {
    UpdateRule(q, sa, legal, next, score, alpha, gamma);
  }

  // ---------------------------------------------------------------------
  // argmax and epsilon_policy

  /**
   * The loop of `argmax` over `legal`: the best score so far, starting at
   * the sentinel, and the action that reached it (None while no score has
   * beaten the sentinel). Only a strictly greater score replaces the best,
   * so the best score bounds every legal score, and an action is found
   * only when its score beats the sentinel.
   */
  function Scan(q: QTable, s: State, legal: seq<Action>): (r: (real, Option<Action>))
    requires Populated(q, s, legal)
    ensures r.1.None? ==> r.0 == Sentinel
    ensures r.1.Some? ==> r.1.value in legal && r.0 == q[Key(s, r.1.value)] && r.0 > Sentinel
    ensures forall a :: a in legal ==> q[Key(s, a)] <= r.0
    decreases |legal|
  {
    if legal == [] then (Sentinel, None)
    else
      var init := legal[..|legal| - 1];
      assert forall a :: a in legal ==> a in init || a == legal[|legal| - 1];
      var (best, bestAction) := Scan(q, s, init);
      var sa := Key(s, legal[|legal| - 1]);
      if q[sa] > best then (q[sa], GetAction(sa)) else (best, bestAction)
  }

  /** The action `argmax` returns: the scan's action, or the fallback choice when there is none. */
  function Greedy(q: QTable, s: State, legal: seq<Action>, fallbackChoice: nat): (a: Action)
    requires |legal| > 0 && Populated(q, s, legal)
    ensures a in legal
  {
    match Scan(q, s, legal).1
    case Some(a) => a
    case None => Choice(legal, fallbackChoice)
  }

  /** The action the scan finds is the first legal action whose score is the best. */
  lemma {:induction false} ScanFindsFirstMaximum(q: QTable, s: State, legal: seq<Action>)
    requires Populated(q, s, legal)
    ensures Scan(q, s, legal).1.Some? ==>
      exists k :: 0 <= k < |legal| && legal[k] == Scan(q, s, legal).1.value &&
        forall j :: 0 <= j < k ==> q[Key(s, legal[j])] < Scan(q, s, legal).0
    decreases |legal|
  {
    if legal != [] {
      var init := legal[..|legal| - 1];
      var last := legal[|legal| - 1];
      assert Populated(q, s, init);
      ScanFindsFirstMaximum(q, s, init);
      var prev := Scan(q, s, init);
      if q[Key(s, last)] > prev.0 {
        assert Scan(q, s, legal) == (q[Key(s, last)], Some(last));
        forall j | 0 <= j < |legal| - 1 ensures q[Key(s, legal[j])] < q[Key(s, last)] {
          assert legal[j] in init;
        }
        assert legal[|legal| - 1] == last;
      } else {
        assert Scan(q, s, legal) == prev;
        if prev.1.Some? {
          var k :| 0 <= k < |init| && init[k] == prev.1.value &&
            forall j :: 0 <= j < k ==> q[Key(s, init[j])] < prev.0;
          assert legal[k] == prev.1.value;
          assert forall j :: 0 <= j < k ==> legal[j] == init[j];
        }
      }
    }
  }

  /**
   * When some legal score beats the sentinel, `argmax` returns the first
   * legal action of maximal score, whatever the fallback choice.
   */
  lemma GreedyIsFirstMaximal(q: QTable, s: State, legal: seq<Action>, fallbackChoice: nat)
    requires |legal| > 0 && Populated(q, s, legal)
    requires exists a :: a in legal && q[Key(s, a)] > Sentinel
    ensures var g := Greedy(q, s, legal, fallbackChoice);
      && q[Key(s, g)] > Sentinel
      && (forall a :: a in legal ==> q[Key(s, a)] <= q[Key(s, g)])
      && exists k :: 0 <= k < |legal| && legal[k] == g && forall j :: 0 <= j < k ==> q[Key(s, legal[j])] < q[Key(s, g)]
  {
    ScanFindsFirstMaximum(q, s, legal);
  }

  /** Ties go to the first: the first legal position of maximal score above the sentinel is the answer. */
  lemma GreedyTieBreak(q: QTable, s: State, legal: seq<Action>, fallbackChoice: nat, i: nat)
    requires |legal| > 0 && Populated(q, s, legal)
    requires i < |legal| && q[Key(s, legal[i])] > Sentinel
    requires forall a :: a in legal ==> q[Key(s, a)] <= q[Key(s, legal[i])]
    requires forall j :: 0 <= j < i ==> q[Key(s, legal[j])] < q[Key(s, legal[i])]
    ensures Greedy(q, s, legal, fallbackChoice) == legal[i]
  {
    assert legal[i] in legal;
    GreedyIsFirstMaximal(q, s, legal, fallbackChoice);
    var g := Greedy(q, s, legal, fallbackChoice);
    var k :| 0 <= k < |legal| && legal[k] == g && forall j :: 0 <= j < k ==> q[Key(s, legal[j])] < q[Key(s, g)];
  }

  /** When no legal score beats the sentinel, `argmax` falls back to the random choice. */
  lemma GreedyFallback(q: QTable, s: State, legal: seq<Action>, fallbackChoice: nat)
    requires |legal| > 0 && Populated(q, s, legal)
    requires forall a :: a in legal ==> q[Key(s, a)] <= Sentinel
    ensures Greedy(q, s, legal, fallbackChoice) == Choice(legal, fallbackChoice)
  {
  }

  /** The action `epsilon_policy` returns for the given draws. */
  function EpsilonGreedy(q: QTable, epsilon: real, s: State, legal: seq<Action>, d: Draws): (a: Action)
    requires |legal| > 0 && Populated(q, s, legal)
    ensures a in legal
  {
    if d.uniform < epsilon && epsilon > 0.0 then Choice(legal, d.choice)
    else Greedy(q, s, legal, d.fallbackChoice)
  }

  /**
   * With `epsilon <= 0` the policy never explores: it returns what `argmax`
   * returns, and once some legal score beats the sentinel it is the same
   * action whatever the random draws.
   */
  lemma EpsilonGreedyWithoutExploration(q: QTable, epsilon: real, s: State, legal: seq<Action>, d: Draws, d': Draws)
    requires |legal| > 0 && Populated(q, s, legal)
    requires epsilon <= 0.0
    ensures EpsilonGreedy(q, epsilon, s, legal, d) == Greedy(q, s, legal, d.fallbackChoice)
    ensures (exists a :: a in legal && q[Key(s, a)] > Sentinel) ==>
      EpsilonGreedy(q, epsilon, s, legal, d) == EpsilonGreedy(q, epsilon, s, legal, d')
  {
  }

  // ---------------------------------------------------------------------
  // One move of pick_action

  /** The pair a move updates: none on the first move, else the previous state and action. */
  function PreviousPair(previousState: Option<State>, previousAction: Option<Action>): Option<StateActionPair>
  {
    if previousState.None? then None else Some(StateActionPair(previousState, previousAction))
  }

  /**
   * The table after a move on state `s` with a non-empty `legal`: the legal
   * pairs of `s` are initialised, and after the first move the previous
   * pair gets its updated score. Every other entry keeps its value.
   */
  function MoveTable(q: QTable, prev: Option<StateActionPair>, s: State, legal: seq<Action>,
                     score: real, alpha: real, gamma: real): (r: QTable)
    requires |legal| > 0 && (prev.Some? ==> prev.value in q)
    ensures Populated(r, s, legal) && q.Keys <= r.Keys
    ensures forall sa :: sa in q && prev != Some(sa) ==> r[sa] == q[sa]
    ensures forall sa :: sa in r && sa !in q ==>
      r[sa] == 0.0 && sa.state == Some(s) && sa.action.Some? && sa.action.value in legal
    ensures prev.None? ==> r == InitSpace(q, s, legal)
    ensures Populated(InitSpace(q, s, legal), s, legal) && q.Keys <= InitSpace(q, s, legal).Keys
    ensures prev.Some? ==> r[prev.value] == UpdatedScore(InitSpace(q, s, legal), prev.value, legal, s, score, alpha, gamma)
  {
    var q1 := InitSpace(q, s, legal);
    InitSpaceContents(q, s, legal);
    match prev
    case None => q1
    case Some(sa) => q1[sa := UpdatedScore(q1, sa, legal, s, score, alpha, gamma)]
  }

  /** The action a move returns: a random legal action on the first move, else the epsilon-greedy one. */
  function MoveAction(q: QTable, firstMove: bool, epsilon: real, s: State, legal: seq<Action>, d: Draws): (a: Action)
    requires |legal| > 0 && Populated(q, s, legal)
    ensures a in legal
  {
    if firstMove then Choice(legal, d.choice) else EpsilonGreedy(q, epsilon, s, legal, d)
  }

  // ---------------------------------------------------------------------
  // The learner

  class QLearner {
    var alpha: real
    var epsilon: real
    var gamma: real
    var previousState: Option<State>
    var previousAction: Option<Action>
    /** Written on the first move only; the later moves write `previousScore` instead. Neither is read. */
    var previousReward: Option<real>
    var previousScore: Option<real>
    var qTable: QTable

    /**
     * The previous state and action are set together, and once set their
     * pair is in the table (the move that set them initialised it).
     */
    ghost predicate Valid()
      reads this
    {
      && (previousState.None? <==> previousAction.None?)
      && (previousState.Some? ==> StateActionPair(previousState, previousAction) in qTable)
    }

    constructor (alpha: real, epsilon: real, gamma: real)
      ensures Valid()
      ensures this.alpha == alpha && this.epsilon == epsilon && this.gamma == gamma
      ensures previousState == None && previousAction == None
      ensures previousReward == None && previousScore == None
      ensures qTable == map[]
    {
      this.alpha := alpha;
      this.epsilon := epsilon;
      this.gamma := gamma;
      previousState := None;
      previousAction := None;
      previousReward := None;
      previousScore := None;
      qTable := map[];
    }

    /**
     * `pick_action`: one move. The first move (no previous state) picks a
     * random legal action and updates nothing; a later move updates the
     * previous pair's score with the current game score and picks
     * epsilon-greedily over the updated table. An empty `legal` raises, and
     * then nothing has changed.
     */
    method PickAction(obs: Observation, legal: seq<Action>, d: Draws) returns (r: Result<Action, PyError>)
      requires Valid()
      modifies this`qTable, this`previousState, this`previousAction, this`previousReward, this`previousScore
      ensures Valid()
      ensures legal == [] ==>
        && r == Failure(if old(previousState).None? then IndexError else ValueError)
        && qTable == old(qTable) && previousState == old(previousState) && previousAction == old(previousAction)
        && previousReward == old(previousReward) && previousScore == old(previousScore)
      ensures legal != [] ==>
        var prev := PreviousPair(old(previousState), old(previousAction));
        && (prev.Some? ==> prev.value in old(qTable))
        && qTable == MoveTable(old(qTable), prev, FromObservation(obs), legal, obs.score, alpha, gamma)
        && r == Success(MoveAction(qTable, prev.None?, epsilon, FromObservation(obs), legal, d))
        && previousState == Some(FromObservation(obs)) && previousAction == Some(r.value)
        && (if prev.None? then previousReward == Some(obs.score) && previousScore == old(previousScore)
            else previousScore == Some(obs.score) && previousReward == old(previousReward))
    {
      var currState := FromObservation(obs);
      InitialiseSpace(currState, legal);
      if previousState == None {
        if legal == [] {
          return Failure(IndexError);
        }
        var action := Choice(legal, d.choice);
        var reward := obs.score;
        previousState := Some(currState);
        previousAction := Some(action);
        previousReward := Some(reward);
        return Success(action);
      } else {
        var sa := StateActionPair(previousState, previousAction);
        var score := obs.score;
        if legal == [] {
          return Failure(ValueError);
        }
        UpdateQScore(sa, legal, currState, score);
        assert Populated(qTable, currState, legal);
        var action := EpsilonPolicy(currState, legal, d);
        previousState := Some(currState);
        previousAction := Some(action);
        previousScore := Some(score);
        return Success(action);
      }
    }

    /** `initialise_space`: every legal pair of `state` that is not yet a key gets score 0. */
    method InitialiseSpace(state: State, legal: seq<Action>)
      modifies this`qTable
      ensures qTable == InitSpace(old(qTable), state, legal)
      ensures Populated(qTable, state, legal) && old(qTable).Keys <= qTable.Keys
    {
      for i := 0 to |legal|
        invariant qTable == InitSpace(old(qTable), state, legal[..i])
      {
        assert legal[..i + 1][..i] == legal[..i];
        var sa := Key(state, legal[i]);
        if sa !in qTable {
          qTable := qTable[sa := 0.0];
        }
      }
      assert legal[..|legal|] == legal;
      InitSpaceContents(old(qTable), state, legal);
    }

    /**
     * `update_q_score`: only the entry of `sa` changes. `max` of an empty
     * list raises and a missing key raises, so the caller supplies a
     * non-empty `legal` and a populated table.
     */
    method UpdateQScore(sa: StateActionPair, legal: seq<Action>, currState: State, score: real)
      requires |legal| > 0 && sa in qTable && Populated(qTable, currState, legal)
      modifies this`qTable
      ensures qTable == old(qTable)[sa := UpdatedScore(old(qTable), sa, legal, currState, score, alpha, gamma)]
    {
      var newSas: seq<real> := [];
      for i := 0 to |legal|
        invariant newSas == Deltas(qTable, sa, legal[..i], currState)
      {
        assert legal[..i + 1][..i] == legal[..i];
        var newSa := Key(currState, legal[i]);
        newSas := newSas + [qTable[newSa] - qTable[sa]];
      }
      assert legal[..|legal|] == legal;
      var best := Max(newSas);
      var qScore := Blend(qTable[sa], alpha, score, gamma, best);
      qTable := qTable[sa := qScore];
      UpdateRule(old(qTable), sa, legal, currState, score, alpha, gamma);
    }

    /** `epsilon_policy`: explore with a random legal action, or exploit with `argmax`. */
    method EpsilonPolicy(state: State, legal: seq<Action>, d: Draws) returns (action: Action)
      requires |legal| > 0 && Populated(qTable, state, legal)
      ensures action == EpsilonGreedy(qTable, epsilon, state, legal, d)
      ensures action in legal
    {
      if d.uniform < epsilon && epsilon > 0.0 {
        action := Choice(legal, d.choice);
      } else {
        action := Argmax(state, legal, d.fallbackChoice);
      }
    }

    /**
     * `argmax`: the first legal action of maximal score, provided it beats
     * the sentinel; otherwise a random legal action.
     */
    method Argmax(state: State, legal: seq<Action>, fallbackChoice: nat) returns (bestAction: Action)
      requires |legal| > 0 && Populated(qTable, state, legal)
      ensures bestAction == Greedy(qTable, state, legal, fallbackChoice)
      ensures bestAction in legal
    {
      var bestQScore := Sentinel;
      var best: Option<Action> := None;
      for i := 0 to |legal|
        invariant (bestQScore, best) == Scan(qTable, state, legal[..i])
      {
        assert legal[..i + 1][..i] == legal[..i];
        var sa := Key(state, legal[i]);
        var qScore := qTable[sa];
        if qScore > bestQScore {
          bestQScore := qScore;
          best := GetAction(sa);
        }
      }
      assert legal[..|legal|] == legal;
      if best == None {
        bestAction := Choice(legal, fallbackChoice);
      } else {
        bestAction := best.value;
      }
    }

    /**
     * `end_game`: the pair of the previous state and action gets the final
     * score outright, whatever it held before. Before any move that pair is
     * `(None, None)`, and it is written all the same.
     */
    method EndGame(obs: Observation)
      requires Valid()
      modifies this`qTable
      ensures Valid()
      ensures qTable == old(qTable)[StateActionPair(previousState, previousAction) := obs.score]
    {
      var sa := StateActionPair(previousState, previousAction);
      qTable := qTable[sa := obs.score];
    }

    /** `update_parameters`: new learning and exploration rates; the discount factor and the table stay. */
    method UpdateParameters(alpha: real, epsilon: real)
      modifies this`alpha, this`epsilon
      ensures this.alpha == alpha && this.epsilon == epsilon
      ensures gamma == old(gamma) && qTable == old(qTable)
    {
      this.alpha := alpha;
      this.epsilon := epsilon;
    }
  }

  /**
   * From a table whose previous pair and next-state pairs all score 0, the
   * update gives the previous pair `alpha * score`.
   */
  lemma UpdateFromZero(q: QTable, sa: StateActionPair, legal: seq<Action>, next: State,
                       score: real, alpha: real, gamma: real)
    requires |legal| > 0 && sa in q && Populated(q, next, legal)
    requires q[sa] == 0.0 && forall a :: a in legal ==> q[Key(next, a)] == 0.0
    ensures UpdatedScore(q, sa, legal, next, score, alpha, gamma) == alpha * score
  {
    DeltasAreShiftedScores(q, sa, legal, next);
    var deltas := Deltas(q, sa, legal, next);
    assert forall i :: 0 <= i < |deltas| ==> deltas[i] == 0.0 by {
      forall i | 0 <= i < |deltas| ensures deltas[i] == 0.0 {
        assert legal[i] in legal;
      }
    }
    assert Max(deltas) == 0.0;
  }

  /**
   * One short episode with `alpha = 0.5` and `gamma = 0.9`: the first move
   * leaves every score 0, the second (at game score 10) gives the first
   * move's pair 0.5 * 10 = 5, and the end of the game (score -50) writes
   * -50 on the second move's pair, whatever it held.
   */
  method Episode(o1: Observation, o2: Observation, o3: Observation, d1: Draws, d2: Draws)
    returns (afterUpdate: real, afterEnd: real)
    requires o2.score == 10.0 && o3.score == -50.0
    ensures afterUpdate == 5.0 && afterEnd == -50.0
  {
    var learner := new QLearner(0.5, 0.1, 0.9);
    var legal := [North, South];
    var r1 := learner.PickAction(o1, legal, d1);
    var s1, s2 := FromObservation(o1), FromObservation(o2);
    var sa1 := Key(s1, r1.value);
    var q1 := learner.qTable;
    assert forall sa :: sa in q1 ==> q1[sa] == 0.0;
    var r2 := learner.PickAction(o2, legal, d2);
    var q2 := InitSpace(q1, s2, legal);
    InitSpaceContents(q1, s2, legal);
    assert forall sa :: sa in q2 ==> q2[sa] == 0.0;
    UpdateFromZero(q2, sa1, legal, s2, 10.0, 0.5, 0.9);
    afterUpdate := learner.qTable[sa1];
    learner.EndGame(o3);
    afterEnd := learner.qTable[Key(s2, r2.value)];
  }
}
