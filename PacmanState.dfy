/**
 * The learner's view of one game observation (Q_Learner/State.py): the
 * position of Pacman, the positions of the ghosts in the order the game
 * reports them, and the food grid, all frozen into immutable values.
 */
module PacmanState {
  import opened Wrappers

  /** A board coordinate. Ghosts can stand between cells, so coordinates are reals. */
  datatype Coord = Coord(x: real, y: real)

  /**
   * What the game engine offers the learner: the answers of
   * `getPacmanPosition`, `getGhostPositions`, `getFood` (one column of
   * booleans per x coordinate) and `getScore`.
   */
  datatype Observation = Observation(
    pacmanPosition: Coord,
    ghostPositions: seq<Coord>,
    food: seq<seq<bool>>,
    score: real)

  /** An immutable snapshot; the ghost positions form an ordered sequence, not a set. */
  datatype State = State(
    position: Coord,
    ghostPositions: seq<Coord>,
    foodPositions: seq<seq<bool>>)

  /** The triple that both equality and hashing are taken over. */
  type Fields = (Coord, seq<Coord>, seq<seq<bool>>)

  function AsFields(s: State): Fields
  {
    (s.position, s.ghostPositions, s.foodPositions)
  }

  /** The constructor: copies the observation's position, ghosts and food; the score is not part of a state. */
  function FromObservation(obs: Observation): (s: State)
    ensures s.position == obs.pacmanPosition
    ensures s.ghostPositions == obs.ghostPositions
    ensures s.foodPositions == obs.food
  {
    State(obs.pacmanPosition, obs.ghostPositions, obs.food)
  }

  /** Two observations give equal states exactly when they agree on everything but the score. */
  lemma FromObservationEqual(o1: Observation, o2: Observation)
    ensures FromObservation(o1) == FromObservation(o2) <==>
      o1.pacmanPosition == o2.pacmanPosition && o1.ghostPositions == o2.ghostPositions && o1.food == o2.food
  {
  }

  /**
   * `__eq__`: comparing with `None` gives false, otherwise the two field
   * triples are compared. It coincides with Dafny's structural equality,
   * which is what lets states (and pairs holding them) key a Dafny map.
   */
  function Eq(s: State, other: Option<State>): (b: bool)
    ensures b <==> other == Some(s)
    ensures other.Some? ==> (b <==>
      s.position == other.value.position &&
      s.ghostPositions == other.value.ghostPositions &&
      s.foodPositions == other.value.foodPositions)
  {
    if other.None? then false else AsFields(s) == AsFields(other.value)
  }

  /**
   * `__hash__`: the hash of the field triple. The hash Python computes for a
   * tuple is not modelled; it is the parameter `tupleHash`.
   */
  function Hash(s: State, tupleHash: Fields -> int): int
  {
    tupleHash(AsFields(s))
  }

  /** Equal states hash equal, whatever the tuple hash is. */
  lemma EqualStatesHashEqual(s: State, t: State, tupleHash: Fields -> int)
    requires Eq(s, Some(t))
    ensures Hash(s, tupleHash) == Hash(t, tupleHash)
  {
  }

  /** The ghost sequence with the ghosts at `i` and `j` exchanged. */
  function SwapGhosts(s: State, i: nat, j: nat): (t: State)
    requires i < |s.ghostPositions| && j < |s.ghostPositions|
    ensures |t.ghostPositions| == |s.ghostPositions|
    ensures t.ghostPositions[i] == s.ghostPositions[j] && t.ghostPositions[j] == s.ghostPositions[i]
    ensures forall k :: 0 <= k < |s.ghostPositions| && k != i && k != j ==>
      t.ghostPositions[k] == s.ghostPositions[k]
  {
    s.(ghostPositions := s.ghostPositions[i := s.ghostPositions[j]][j := s.ghostPositions[i]])
  }

  /**
   * Ghost order matters: exchanging two ghosts at different places keeps the
   * same multiset of ghost positions but gives an unequal state.
   */
  lemma GhostOrderMatters(s: State, i: nat, j: nat)
    requires i < |s.ghostPositions| && j < |s.ghostPositions|
    requires s.ghostPositions[i] != s.ghostPositions[j]
    ensures multiset(SwapGhosts(s, i, j).ghostPositions) == multiset(s.ghostPositions)
    ensures !Eq(s, Some(SwapGhosts(s, i, j)))
  {
  }
}
