/**
 * State-action pairs (Q_Learner/StateActionPair.py), the keys of the Q
 * table. Python lets either field be `None`; the learner builds the pair
 * `(None, None)` when a game ends before any move, so both fields are optional.
 */
module StateActions {
  import opened Wrappers
  import PacmanState

  /** The moves the game engine offers. */
  datatype Action = North | South | East | West | Stop

  /** The constructor `StateActionPair(state, action)` stores both fields as given. */
  datatype StateActionPair = StateActionPair(state: Option<PacmanState.State>, action: Option<Action>)

  /** The tuple that both equality and hashing are taken over. */
  type Fields = (Option<PacmanState.State>, Option<Action>)

  /** `get_action`. */
  function GetAction(sa: StateActionPair): Option<Action>
  {
    sa.action
  }

  /** The pair the learner builds for an observed state and a legal action. */
  function Key(s: PacmanState.State, a: Action): StateActionPair
  {
    StateActionPair(Some(s), Some(a))
  }

  /** A pair gives back exactly the state and the action it was made from, and nothing else identifies it. */
  lemma PairRoundTrip(state: Option<PacmanState.State>, action: Option<Action>, sa: StateActionPair)
    ensures GetAction(StateActionPair(state, action)) == action && StateActionPair(state, action).state == state
    ensures StateActionPair(state, action) == sa <==> sa.state == state && GetAction(sa) == action
  {
  }

  /**
   * Python's `==` on one component of the tuple `(state, action)`: `None` is
   * equal to `None`, and a state compared with `None` (in either order) goes
   * to `State.__eq__`, which answers false.
   */
  function StateComponentEq(x: Option<PacmanState.State>, y: Option<PacmanState.State>): bool
  {
    match x
    case Some(s) => PacmanState.Eq(s, y)
    case None => (match y
      case None => true
      case Some(t) => PacmanState.Eq(t, None))
  }

  /**
   * `__eq__`: the tuples `(state, action)` are compared. It holds exactly
   * when the states are equal and the actions are equal, which is Dafny's
   * structural equality of pairs.
   */
  function Eq(p: StateActionPair, q: StateActionPair): (b: bool)
    ensures b <==> p == q
    ensures b <==> p.state == q.state && p.action == q.action
  {
    StateComponentEq(p.state, q.state) && p.action == q.action
  }

  /** `__hash__`: the hash of the tuple `(state, action)`; Python's tuple hash is the parameter. */
  function Hash(sa: StateActionPair, tupleHash: Fields -> int): int
  {
    tupleHash((sa.state, sa.action))
  }

  /** Equal pairs hash equal. */
  lemma EqualPairsHashEqual(p: StateActionPair, q: StateActionPair,
                            tupleHash: Fields -> int)
    requires Eq(p, q)
    ensures Hash(p, tupleHash) == Hash(q, tupleHash)
  {
  }
}
