/**
  The replay page (src/components/Simulation.js): a cursor
  (turn, movement) over a recorded episode fetched from `/simulate`, the
  board decoded at the cursor, and the name of the player whose movement is
  shown. Every navigation step saturates at the ends of the episode and of
  the turn.
*/
module Simulation {
  import opened Wrappers
  import opened Observation

  /** One turn record; `observation[0][m]` is the vector after movement m. */
  datatype Turn = Turn(tEnv: int, actions: seq<int>, observation: seq<seq<seq<int>>>)

  type Episode = seq<Turn>

  /** Reply of `/simulate`; `episodeRecords` is `None` when the field is missing. */
  datatype SimulateResponse = SimulateResponse(episodeRecords: Option<Episode>)

  /** `(currentTurnIndex, currentMovementIndex)`. */
  datatype Cursor = Cursor(turn: nat, movement: nat)

  datatype Navigation = NextTurn | PreviousTurn | NextMovement | PreviousMovement

  /** The movement snapshots of a turn: `observation[0]`, or none when `observation` is empty. */
  function Movements(t: Turn): seq<seq<int>>
  {
    if |t.observation| > 0 then t.observation[0] else []
  }

  /** The observation vector at a cursor, when the episode has one there. */
  function Snapshot(episode: Episode, c: Cursor): Option<seq<int>>
  {
    if c.turn < |episode| && c.movement < |Movements(episode[c.turn])|
    then Some(Movements(episode[c.turn])[c.movement])
    else None
  }

  /** Where one navigation step moves the cursor. */
  function Step(episode: Option<Episode>, c: Cursor, op: Navigation): (r: Cursor)
    ensures episode.None? ==> r == c
    ensures op.NextMovement? || op.PreviousMovement? ==> r.turn == c.turn
    ensures (op.NextTurn? || op.PreviousTurn?) && r != c ==> r.movement == 0
  {
    match episode
    case None => c
    case Some(e) =>
      match op
      case NextTurn => if c.turn < |e| - 1 then Cursor(c.turn + 1, 0) else c
      case PreviousTurn => if c.turn > 0 then Cursor(c.turn - 1, 0) else c
      case NextMovement =>
        // `simulationEpisode[currentTurnIndex].observation` throws past the end: nothing changes
        if c.turn < |e| && c.movement < |Movements(e[c.turn])| - 1 then Cursor(c.turn, c.movement + 1) else c
      case PreviousMovement => if c.movement > 0 then Cursor(c.turn, c.movement - 1) else c
  }

  /** A sequence of navigation steps. */
  function Run(episode: Option<Episode>, c: Cursor, ops: seq<Navigation>): Cursor
    decreases |ops|
  {
    if ops == [] then c else Run(episode, Step(episode, c, ops[0]), ops[1..])
  }

  /**
    The board after a step from `from` to `to`: unchanged when the cursor did
    not move, re-decoded at the new position otherwise (unless the episode has
    no vector there, where reading it throws and the board stays).
  */
  function Redraw(board: Board, episode: Option<Episode>, from: Cursor, to: Cursor): Board
  {
    if from == to || episode.None? then board
    else
      match Snapshot(episode.value, to)
      case Some(v) => DecodeBoard(v)
      case None => board
  }

  /** The cursor positions reachable from a load. */
  predicate InBounds(episode: Option<Episode>, c: Cursor)
  {
    match episode
    case None => c == Cursor(0, 0)
    case Some(e) =>
      if |e| == 0 then c == Cursor(0, 0)
      else c.turn < |e| && (c.movement == 0 || c.movement < |Movements(e[c.turn])|)
  }

  /** A non-empty episode whose every turn has at least one movement. */
  predicate WellFormed(e: Episode)
  {
    |e| > 0 && forall k :: 0 <= k < |e| ==> |Movements(e[k])| > 0
  }

  // ---------------------------------------------------------------------
  // Properties of the cursor
  // ---------------------------------------------------------------------

  /** Each step keeps the cursor where a load can bring it. */
  lemma StepKeepsInBounds(episode: Option<Episode>, c: Cursor, op: Navigation)
    requires InBounds(episode, c)
    ensures InBounds(episode, Step(episode, c, op))
  {
  }

  lemma {:induction false} RunKeepsInBounds(episode: Option<Episode>, c: Cursor, ops: seq<Navigation>)
    requires InBounds(episode, c)
    ensures InBounds(episode, Run(episode, c, ops))
    decreases |ops|
  {
    if ops != [] {
      StepKeepsInBounds(episode, c, ops[0]);
      RunKeepsInBounds(episode, Step(episode, c, ops[0]), ops[1..]);
    }
  }

  /**
    After loading a well-formed episode, any sequence of navigation steps
    leaves the turn inside the episode and the movement inside that turn,
    so the cursor always names an observation vector.
  */
  lemma CursorStaysInside(e: Episode, ops: seq<Navigation>)
    requires WellFormed(e)
    ensures var c := Run(Some(e), Cursor(0, 0), ops);
      && c.turn < |e| && c.movement < |Movements(e[c.turn])|
      && Snapshot(e, c).Some?
  {
    RunKeepsInBounds(Some(e), Cursor(0, 0), ops);
  }

  /** With no episode loaded, any sequence of navigation steps changes nothing. */
  lemma {:induction false} NoEpisodeRunIsIdentity(c: Cursor, ops: seq<Navigation>)
    ensures Run(None, c, ops) == c
    decreases |ops|
  {
    if ops != [] {
      NoEpisodeRunIsIdentity(Step(None, c, ops[0]), ops[1..]);
    }
  }

  /** The steps change the cursor only strictly inside the bounds; at a bound they do nothing. */
  lemma StepSaturates(e: Episode, c: Cursor)
    ensures c.turn >= |e| - 1 ==> Step(Some(e), c, NextTurn) == c
    ensures c.turn == 0 ==> Step(Some(e), c, PreviousTurn) == c
    ensures c.turn < |e| && c.movement >= |Movements(e[c.turn])| - 1 ==> Step(Some(e), c, NextMovement) == c
    ensures c.movement == 0 ==> Step(Some(e), c, PreviousMovement) == c
    ensures c.turn < |e| - 1 ==> Step(Some(e), c, NextTurn) == Cursor(c.turn + 1, 0)
    ensures c.turn > 0 ==> Step(Some(e), c, PreviousTurn) == Cursor(c.turn - 1, 0)
    ensures c.turn < |e| && c.movement < |Movements(e[c.turn])| - 1 ==>
      Step(Some(e), c, NextMovement) == Cursor(c.turn, c.movement + 1)
    ensures c.movement > 0 ==> Step(Some(e), c, PreviousMovement) == Cursor(c.turn, c.movement - 1)
  {
  }

  /** Going forward a turn and back lands on the first movement of the turn started from. */
  lemma TurnRoundTrip(e: Episode, c: Cursor)
    requires c.turn < |e| - 1
    ensures Step(Some(e), Step(Some(e), c, NextTurn), PreviousTurn) == Cursor(c.turn, 0)
  {
  }

  /** Going forward a movement and back returns to the same cursor. */
  lemma MovementRoundTrip(e: Episode, c: Cursor)
    requires c.turn < |e| && c.movement < |Movements(e[c.turn])| - 1
    ensures Step(Some(e), Step(Some(e), c, NextMovement), PreviousMovement) == c
  {
  }

  /** In an episode where every turn has a single movement, NextMovement never moves. */
  lemma SingleMovementEpisode(e: Episode, ops: seq<Navigation>)
    requires forall k :: 0 <= k < |e| ==> |Movements(e[k])| == 1
    ensures Run(Some(e), Cursor(0, 0), ops).movement == 0
  {
    SingleMovementKeepsFirst(e, Cursor(0, 0), ops);
  }

  lemma {:induction false} SingleMovementKeepsFirst(e: Episode, c: Cursor, ops: seq<Navigation>)
    requires forall k :: 0 <= k < |e| ==> |Movements(e[k])| == 1
    requires c.movement == 0
    ensures Run(Some(e), c, ops).movement == 0
    decreases |ops|
  {
    if ops != [] {
      SingleMovementKeepsFirst(e, Step(Some(e), c, ops[0]), ops[1..]);
    }
  }

  // ---------------------------------------------------------------------
  // The component
  // ---------------------------------------------------------------------

  class SimulationComponent {
    var simulationEpisode: Option<Episode>
    var currentTurnIndex: nat
    var currentMovementIndex: nat
    var boardState: Board
    /** Kept equal to `P${currentMovementIndex + 1}` by the page's effect. */
    var currentPlayer: string

    function Position(): Cursor
      reads this
    {
      Cursor(currentTurnIndex, currentMovementIndex)
    }

    /**
      The cursor is reachable from a load, the player name follows the
      movement, the board is 4x4, and for a well-formed episode the board is
      the decoding of the vector at the cursor.
    */
    ghost predicate Valid()
      reads this
    {
      && InBounds(simulationEpisode, Position())
      && currentPlayer == PlayerName(currentMovementIndex)
      && IsGrid(boardState)
      && (simulationEpisode.Some? && WellFormed(simulationEpisode.value) ==>
            Snapshot(simulationEpisode.value, Position()).Some?
            && boardState == DecodeBoard(Snapshot(simulationEpisode.value, Position()).value))
    }

    constructor ()
      ensures Valid()
      ensures simulationEpisode == None && Position() == Cursor(0, 0)
      ensures boardState == INITIAL_DUMMY_BOARD && currentPlayer == "P1"
    {
      simulationEpisode := None;
      currentTurnIndex := 0;
      currentMovementIndex := 0;
      boardState := INITIAL_DUMMY_BOARD;
      currentPlayer := PlayerName(0);
    }

    /**
      `fetchSimulationEpisode`, given the reply (`None` when the request or
      its parsing threw: nothing changes). The episode is replaced, the cursor
      goes to (0, 0), and the board is decoded from the first vector of the
      first turn when there is one.
    */
    method FetchSimulationEpisode(reply: Option<SimulateResponse>)
      requires Valid()
      modifies this
      ensures Valid()
      ensures reply.None? ==>
        && simulationEpisode == old(simulationEpisode) && Position() == old(Position())
        && boardState == old(boardState) && currentPlayer == old(currentPlayer)
      ensures reply.Some? ==>
        && simulationEpisode == reply.value.episodeRecords
        && Position() == Cursor(0, 0) && currentPlayer == "P1"
        && boardState == (
             match simulationEpisode
             case Some(e) =>
               (match Snapshot(e, Cursor(0, 0)) case Some(v) => DecodeBoard(v) case None => old(boardState))
             case None => old(boardState))
    {
      if reply.Some? {
        var records := reply.value.episodeRecords;
        simulationEpisode := records;
        currentTurnIndex := 0;
        currentMovementIndex := 0;
        currentPlayer := PlayerName(currentMovementIndex);
        if records.Some? && |records.value| > 0 {
          var observation := records.value[0].observation;
          // a missing `observation[0][0]` throws here, after the cursor was reset
          if |observation| > 0 && |observation[0]| > 0 {
            boardState := ParseObservationForBoard(observation[0][0]);
          }
        }
      }
    }

    /** `nextTurn`: to the first movement of the next turn, unless at the last turn. */
    method NextTurn()
      requires Valid()
      modifies this
      ensures Valid()
      ensures simulationEpisode == old(simulationEpisode)
      ensures Position() == Step(simulationEpisode, old(Position()), Navigation.NextTurn)
      ensures boardState == Redraw(old(boardState), simulationEpisode, old(Position()), Position())
    {
      if simulationEpisode.Some? && currentTurnIndex < |simulationEpisode.value| - 1 {
        var newTurnIndex := currentTurnIndex + 1;
        currentTurnIndex := newTurnIndex;
        currentMovementIndex := 0;
        currentPlayer := PlayerName(currentMovementIndex);
        var observation := simulationEpisode.value[newTurnIndex].observation;
        if |observation| > 0 && |observation[0]| > 0 {
          boardState := ParseObservationForBoard(observation[0][0]);
        }
      }
    }

    /** `previousTurn`: to the first movement of the previous turn, unless at the first turn. */
    method PreviousTurn()
      requires Valid()
      modifies this
      ensures Valid()
      ensures simulationEpisode == old(simulationEpisode)
      ensures Position() == Step(simulationEpisode, old(Position()), Navigation.PreviousTurn)
      ensures boardState == Redraw(old(boardState), simulationEpisode, old(Position()), Position())
    {
      if simulationEpisode.Some? && currentTurnIndex > 0 {
        var newTurnIndex := currentTurnIndex - 1;
        currentTurnIndex := newTurnIndex;
        currentMovementIndex := 0;
        currentPlayer := PlayerName(currentMovementIndex);
        var observation := simulationEpisode.value[newTurnIndex].observation;
        if |observation| > 0 && |observation[0]| > 0 {
          boardState := ParseObservationForBoard(observation[0][0]);
        }
      }
    }

    /** `nextMovement`: to the next movement of the current turn, unless at its last one. */
    method NextMovement()
      requires Valid()
      modifies this
      ensures Valid()
      ensures simulationEpisode == old(simulationEpisode)
      ensures Position() == Step(simulationEpisode, old(Position()), Navigation.NextMovement)
      ensures boardState == Redraw(old(boardState), simulationEpisode, old(Position()), Position())
    {
      if simulationEpisode.Some? && currentTurnIndex < |simulationEpisode.value| {
        var currentTurn := simulationEpisode.value[currentTurnIndex];
        var movements := Movements(currentTurn);
        if currentMovementIndex < |movements| - 1 {
          var newMovementIndex := currentMovementIndex + 1;
          currentMovementIndex := newMovementIndex;
          currentPlayer := PlayerName(currentMovementIndex);
          boardState := ParseObservationForBoard(movements[newMovementIndex]);
        }
      }
    }

    /** `previousMovement`: to the previous movement of the current turn, unless at its first one. */
    method PreviousMovement()
      requires Valid()
      modifies this
      ensures Valid()
      ensures simulationEpisode == old(simulationEpisode)
      ensures Position() == Step(simulationEpisode, old(Position()), Navigation.PreviousMovement)
      ensures boardState == Redraw(old(boardState), simulationEpisode, old(Position()), Position())
    {
      if simulationEpisode.Some? && currentMovementIndex > 0 {
        var newMovementIndex := currentMovementIndex - 1;
        currentMovementIndex := newMovementIndex;
        currentPlayer := PlayerName(currentMovementIndex);
        if currentTurnIndex < |simulationEpisode.value| {
          var movements := Movements(simulationEpisode.value[currentTurnIndex]);
          if newMovementIndex < |movements| {
            boardState := ParseObservationForBoard(movements[newMovementIndex]);
          }
        }
      }
    }
  }
}
