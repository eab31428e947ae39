# Tabular Q-learner for Pacman, modelled in Dafny

This project models the Q-learning engine of the Pacman agent in `Q_Learner/`:

- `State`: an immutable snapshot of the game. It holds Pacman's position, the ghost positions in the order the game reports them, and the food grid. Module `PacmanState`, file `PacmanState.dfy`.
- `StateActionPair`: the key of the Q table, a state together with an action. Module `StateActions`, file `StateActions.dfy`.
- `QLearner`: owns the Q table and the previous state, action and reward. Module `QLearning`, file `QLearning.dfy`. Its methods:
  - `pick_action` makes one move.
  - `initialise_space` gives unseen pairs the score 0.
  - `update_q_score` applies the update rule.
  - `epsilon_policy` and `argmax` choose the action.
  - `end_game` writes the terminal score.
  - `update_parameters` changes the learning and exploration rates.

`State` and `StateActionPair` are values, so they are datatypes. Their Python `__eq__` is proved to be Dafny's structural equality, which is why they can key a Dafny `map`. `QLearner` changes its fields in place, so it is a class. Its `q_table` is a `map<StateActionPair, real>` field that the methods reassign. Each method is proved against a function on the table:

- `InitSpace` for `initialise_space`.
- `UpdatedScore` for `update_q_score`.
- `Scan` and `Greedy` for `argmax`.
- `EpsilonGreedy` for `epsilon_policy`.
- `MoveTable` and `MoveAction` for `pick_action`.

Lemmas state what those functions mean. `Wrappers.dfy` holds `Option`, which stands for Python's `None`, and `Result`, which stands for an error raised instead of a value.

Randomness is supplied by the caller as a `Draws` value:

- `uniform` is the draw of `random.uniform(0, 1)`.
- `choice` and `fallbackChoice` are indices. `random.choice(legal)` becomes `legal[i % |legal|]`.

The game engine's observation is the datatype `Observation`. It carries the answers of `getPacmanPosition`, `getGhostPositions`, `getFood` and `getScore`. Scores and parameters are `real`.

The model follows the code where a reader might expect something else:

- The update rule is reproduced as written: `Q + alpha * (score + gamma * max_a (Q(s', a) - Q))`. It uses the cumulative game score. `UpdateRuleVersusCanonical` proves when it agrees with the canonical rule: only when `alpha * Q * (1 - gamma) == 0`.
- `argmax` starts from the finite sentinel `-10000000000`, not minus infinity. When no legal score beats it, `argmax` returns a random legal action.
- `end_game` does not check for a previous move. Before any move it writes the key `(None, None)`, which is why the pair's fields are `Option`s.
- An empty `legal` makes `pick_action` raise. On the first move `random.choice` raises `IndexError`; on later moves `max` raises `ValueError`. The table and fields are unchanged in both cases, and `PickAction` returns `Failure(IndexError)` or `Failure(ValueError)`.
- Table reads in the source are dictionary indexing and raise `KeyError` for a missing pair. They never default to 0. `pick_action` always initialises the pairs it reads first, and `QLearner.Valid()` keeps the previous pair in the table.
- `end_game` does not reset the previous state or action. A learner reused for another game therefore takes the update branch on that game's first `pick_action`, and the terminal score written by `end_game` is blended by that update. The model does the same: after `EndGame`, `previousState` is unchanged.
- The first move stores the score in `previous_reward`, but later moves store it in `previous_score`. The model keeps both as fields. Neither is read.

## Model

| member | source | states |
|---|---|---|
| `PacmanState.FromObservation` | Q_Learner/State.py:5-18 | the state copies the observation's position, ghost sequence and food grid exactly |
| `PacmanState.FromObservationEqual` | Q_Learner/State.py:16-18 | two observations give equal states iff they agree on position, ghost sequence and food; the score plays no part |
| `PacmanState.Eq` | Q_Learner/State.py:29-40 | comparing with None is false; otherwise equal iff position, ghost tuple and food tuple-of-tuples are all equal, which is structural equality |
| `PacmanState.Hash` | Q_Learner/State.py:20-27 | the hash of the (position, ghosts, food) triple under a given tuple hash; its meaning is stated by `EqualStatesHashEqual` |
| `PacmanState.EqualStatesHashEqual` | Q_Learner/State.py:20-27 | equal states hash equal, because the hash is taken over the same triple that equality compares |
| `PacmanState.GhostOrderMatters` | Q_Learner/State.py:40 | exchanging two different ghosts keeps the multiset of ghost positions but gives an unequal state |
| `StateActions.GetAction` | Q_Learner/StateActionPair.py:19-27 | `get_action`, the stored action; its meaning is stated by `PairRoundTrip` |
| `StateActions.PairRoundTrip` | Q_Learner/StateActionPair.py:7-27 | `get_action` returns the constructor's action, the state is stored unchanged, and a pair is equal to another exactly when their states and actions agree |
| `StateActions.Eq` | Q_Learner/StateActionPair.py:38-48 | pairs are equal iff states and actions are equal; the state comparison treats None as Python does |
| `StateActions.Hash` | Q_Learner/StateActionPair.py:29-36 | the hash of the (state, action) tuple under a given tuple hash; its meaning is stated by `EqualPairsHashEqual` |
| `StateActions.EqualPairsHashEqual` | Q_Learner/StateActionPair.py:29-36 | equal pairs hash equal, because the hash is taken over the same (state, action) tuple |
| `QLearning.Choice` | Q_Learner/QLearner.py:57 | the injected `random.choice(legal)` returns a member of `legal` |
| `QLearning.InitSpace` | Q_Learner/QLearner.py:90-105 | the table after `initialise_space`: no key is lost; what it holds is stated by `InitSpaceContents`, `InitSpaceOfPopulated` and `InitSpaceIdempotent` |
| `QLearning.InitSpaceContents` | Q_Learner/QLearner.py:90-105 | after initialisation every legal pair of the state is a key; old keys keep their values; every new key is a legal pair of the state and scores 0 |
| `QLearning.InitSpaceOfPopulated` | Q_Learner/QLearner.py:104-105 | initialising a table that already holds every legal pair leaves it unchanged |
| `QLearning.InitSpaceIdempotent` | Q_Learner/QLearner.py:100-105 | initialising twice with the same arguments gives the same table as initialising once |
| `QLearning.Max` | Q_Learner/QLearner.py:128 | `max` of a non-empty list is an element of the list and no element exceeds it |
| `QLearning.Deltas` | Q_Learner/QLearner.py:117-125 | the list `new_sas`, one entry per legal action; its entries are stated by `DeltasAreShiftedScores` |
| `QLearning.DeltasAreShiftedScores` | Q_Learner/QLearner.py:117-125 | `new_sas` has one entry per legal action: that action's next-state score less the previous pair's score |
| `QLearning.MaxDelta` | Q_Learner/QLearner.py:117-128 | the largest entry of `new_sas` is the best next-state score less the previous pair's score |
| `QLearning.Blend` | Q_Learner/QLearner.py:128 | the arithmetic of the update, `previous + alpha * (score + gamma * best)`; used by `UpdatedScore` and `UpdateRule` |
| `QLearning.UpdatedScore` | Q_Learner/QLearner.py:127-128 | the new score of `update_q_score`, from the largest entry of `new_sas`; what it equals is stated by `UpdateRule`, `UpdateRuleVersusCanonical` and `UpdateFromZero` |
| `QLearning.UpdateRule` | Q_Learner/QLearner.py:127-131 | the new score is `Q + alpha * (score + gamma * (M - Q))`, with M the best next-state score and Q the previous pair's score |
| `QLearning.UpdateRuleVersusCanonical` | Q_Learner/QLearner.py:127-128 | the new score is `(1 - alpha*gamma)*Q + alpha*(score + gamma*M)`, and equals the canonical `Q + alpha*(score + gamma*M - Q)` iff `alpha*Q*(1 - gamma) == 0` |
| `QLearning.UpdateFromZero` | Q_Learner/QLearner.py:118-131 | when the previous pair and all next-state pairs score 0, the update gives `alpha * score` |
| `QLearning.Scan` | Q_Learner/QLearner.py:164-176 | the scan's best score bounds every legal score; it finds an action only when that action is legal and its score beats the sentinel, and otherwise the best stays the sentinel |
| `QLearning.ScanFindsFirstMaximum` | Q_Learner/QLearner.py:164-176 | the action the scan finds is the first legal action whose score is the best, because only a strictly greater score replaces it |
| `QLearning.Greedy` | Q_Learner/QLearner.py:153-182 | the action `argmax` returns is always a member of `legal`; which one is stated by `GreedyIsFirstMaximal`, `GreedyTieBreak` and `GreedyFallback` |
| `QLearning.GreedyIsFirstMaximal` | Q_Learner/QLearner.py:164-176 | when some legal score beats the sentinel, `argmax` returns an action above the sentinel whose score is at least every legal score and that no earlier legal action matches |
| `QLearning.GreedyTieBreak` | Q_Learner/QLearner.py:173-176 | the first legal position of maximal score above the sentinel is exactly what `argmax` returns: ties go to the first |
| `QLearning.GreedyFallback` | Q_Learner/QLearner.py:178-182 | when no legal score beats the sentinel, `argmax` returns the random fallback choice |
| `QLearning.EpsilonGreedy` | Q_Learner/QLearner.py:144-151 | the action `epsilon_policy` returns is always a member of `legal`; without exploration it is `argmax`'s, as `EpsilonGreedyWithoutExploration` states |
| `QLearning.EpsilonGreedyWithoutExploration` | Q_Learner/QLearner.py:144-151 | with `epsilon <= 0` the policy returns `argmax`'s action; once some legal score beats the sentinel, that action is the same whatever the random draws |
| `QLearning.MoveTable` | Q_Learner/QLearner.py:48-87 | a move populates the current state's legal pairs; on the first move the table is exactly `InitSpace` of the old one; every other existing entry keeps its value, except the previous pair on a later move, which gets the updated score; each new entry is a legal pair of the current state scoring 0 |
| `QLearning.MoveAction` | Q_Learner/QLearner.py:54-80 | the action of a move (random on the first move, epsilon-greedy later) is a member of `legal` |
| `QLearning.QLearner.constructor` | Q_Learner/QLearner.py:10-32 | the parameters are stored, there is no previous state, action or reward, and the table is empty |
| `QLearning.QLearner.PickAction` | Q_Learner/QLearner.py:34-87 | an empty `legal` raises `IndexError` on the first move or `ValueError` on later moves and changes nothing. Otherwise the table becomes `MoveTable` of the old one, the result is a legal action, the previous state and action become the current ones, and the first or the later score field is set |
| `QLearning.QLearner.InitialiseSpace` | Q_Learner/QLearner.py:90-105 | the table becomes `InitSpace` of the old one: all legal pairs are present and no key is lost |
| `QLearning.QLearner.UpdateQScore` | Q_Learner/QLearner.py:107-131 | only the entry of `sa` changes, and it becomes the updated score (see `UpdateRule`) |
| `QLearning.QLearner.EpsilonPolicy` | Q_Learner/QLearner.py:133-151 | returns a random legal action when `uniform < epsilon` and `epsilon > 0`, otherwise `argmax`'s action; always legal |
| `QLearning.QLearner.Argmax` | Q_Learner/QLearner.py:153-182 | returns the first maximal legal action above the sentinel, or the fallback choice when there is none; always legal |
| `QLearning.QLearner.EndGame` | Q_Learner/QLearner.py:184-194 | the entry of (previous state, previous action) becomes exactly the final score, whatever it held; no other entry changes |
| `QLearning.QLearner.UpdateParameters` | Q_Learner/QLearner.py:196-206 | alpha and epsilon take the new values; gamma and the table are unchanged |
| `QLearning.Episode` | Q_Learner/QLearner.py:34-194 | with alpha 0.5 and gamma 0.9, a second move at score 10 gives the first move's pair 5, and ending the game at -50 gives the last pair exactly -50 |

## Left out

- `QLearning.QLearner.UpdateQScore`: requires a non-empty `legal` and a table that holds `sa` and every legal pair of the current state. Called directly, the source would raise `ValueError` or `KeyError` instead. Only `PickAction`, which always meets these conditions or raises first, models the raised errors.
- `QLearning.QLearner.Argmax`: requires a non-empty `legal` and a populated table. On an empty `legal` the source raises `IndexError` from `random.choice`; a missing pair raises `KeyError`.
- `QLearning.QLearner.EpsilonPolicy`: the same conditions as `Argmax`, for the same reasons.
- `QLearning.QLearner.PickAction`: requires `Valid()`, the invariant that every method keeps: the previous state and action are set together, and their pair is in the table.
- `QLearning.QLearner.EndGame`: requires `Valid()` for the same reason.
- Randomness: the distributions of `random.choice` and `random.uniform` are not modelled. The caller supplies the draws, and the model proves membership in `legal`, not uniformity.
- Floating point: scores and parameters are exact reals. `float(alpha)` on a value that is not a number raises in Python; that case is not modelled.
- Python's hash values: `Hash` takes the tuple hash as a parameter. Only "equal keys hash equal" is stated.
- The game engine: its accessors are fields of the `Observation` datatype.
- Dynamic typing: actions are a closed enumeration, and comparing a `StateActionPair` with an object that is not a pair (which raises `AttributeError` in Python) is not modelled.
- `naive_bayes/NaiveBayes.py` is not part of this model. It is a separate batch classifier built on floating-point library calls.
