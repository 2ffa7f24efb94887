/**
  The state of the play page (src/components/Play.js): the board shown, the
  parcel the human selected, the chosen action, the error banner and the
  last reply of the server. The `/reset` and `/step` round trips are
  parameters of the handlers: `None` stands for a request or a JSON parse
  that threw, `Some(r)` for the parsed reply.
*/
module Play {
  import opened Wrappers
  import opened Observation
  import opened ActionEncoder

  /** The seat the human plays, the key of `user_actions` in a step request. */
  const HUMAN_AGENT_KEY: string := "2"

  const ERROR_OCCUPIED: string := "Only empty parcels can be selected."
  const ERROR_NO_SELECTION: string := "Please select an empty cell first."
  const ERROR_RESET: string := "Error resetting game. Please try again."
  const ERROR_SUBMIT: string := "Error submitting action. Please try again."

  /** Reply of `/reset`: `observation[agent][movement]` is an observation vector. */
  datatype ResetResponse = ResetResponse(observation: seq<seq<seq<int>>>)

  /** Reply of `/step`, kept as `lastStepInfo`. */
  datatype StepResponse = StepResponse(nextObservation: seq<seq<seq<int>>>, tEnv: int, actionsTaken: seq<int>)

  /** Body of a `/step` request. */
  datatype StepRequest = StepRequest(userActions: map<string, int>)

  /** `observation[0][0]` when both levels are non-empty. */
  function FirstObservation(observation: seq<seq<seq<int>>>): Option<seq<int>>
  {
    if |observation| > 0 && |observation[0]| > 0 then Some(observation[0][0]) else None
  }

  /** The board after a reply: re-decoded from its first observation when there is one. */
  function BoardAfterReply(board: Board, observation: seq<seq<seq<int>>>): Board
  {
    match FirstObservation(observation)
    case Some(v) => DecodeBoard(v)
    case None => board
  }

  class PlayComponent {
    var boardState: Board
    var selectedParcel: Option<Parcel>
    var actionType: ActionType
    var error: string
    var lastStepInfo: Option<StepResponse>

    /**
      The board is always 4x4, the chosen action is one the page offers, and
      a selected parcel lies on the board and is empty on the board shown.
    */
    ghost predicate Valid()
      reads this
    {
      && IsGrid(boardState)
      && OfferedChoice(actionType)
      && (selectedParcel.Some? ==>
            OnGrid(selectedParcel.value)
            && boardState[selectedParcel.value.x][selectedParcel.value.y].building == -1)
    }

    /** The component's initial state, before the mount-time reset. */
    constructor ()
      ensures Valid()
      ensures boardState == INITIAL_DUMMY_BOARD && selectedParcel == None && actionType == Unset
      ensures error == "" && lastStepInfo == None
    {
      boardState := INITIAL_DUMMY_BOARD;
      selectedParcel := None;
      actionType := Unset;
      error := "";
      lastStepInfo := None;
    }

    /** `handleParcelClick`: only an empty cell can be selected; clicking a built one shows an error. */
    method HandleParcelClick(x: int, y: int, cell: Cell)
      requires Valid()
      requires 0 <= x < GRID_X && 0 <= y < GRID_Y && cell == boardState[x][y]
      modifies this
      ensures Valid()
      ensures cell.building == -1 ==> selectedParcel == Some(Parcel(x, y)) && error == old(error)
      ensures cell.building != -1 ==> selectedParcel == old(selectedParcel) && error == ERROR_OCCUPIED
      ensures boardState == old(boardState) && actionType == old(actionType)
      ensures lastStepInfo == old(lastStepInfo)
    {
      if cell.building == -1 {
        selectedParcel := Some(Parcel(x, y));
      } else {
        error := ERROR_OCCUPIED;
      }
    }

    /** The Skip / Build Park / Build House / Build Shop buttons (`setActionType`). */
    method ChooseAction(choice: ActionType)
      requires Valid() && OfferedChoice(choice) && !choice.Unset?
      modifies this
      ensures Valid()
      ensures actionType == choice
      ensures boardState == old(boardState) && selectedParcel == old(selectedParcel)
      ensures error == old(error) && lastStepInfo == old(lastStepInfo)
    {
      actionType := choice;
    }

    /**
      `handleSubmitAction`. Without a selection it only shows an error and
      sends nothing. Otherwise it sends the action code under the human's
      key; on a reply it keeps the reply, re-decodes the board when the reply
      carries an observation, and clears the selection and the action; on a
      failure it only shows an error.
    */
    method HandleSubmitAction(reply: Option<StepResponse>) returns (request: Option<StepRequest>)
      requires Valid()
      modifies this
      ensures Valid()
      ensures old(selectedParcel).None? ==>
        && request == None
        && error == ERROR_NO_SELECTION
        && boardState == old(boardState) && selectedParcel == old(selectedParcel)
        && actionType == old(actionType) && lastStepInfo == old(lastStepInfo)
      ensures old(selectedParcel).Some? ==>
        request == Some(StepRequest(map[HUMAN_AGENT_KEY := ComputeActionNumber(old(actionType), old(selectedParcel))]))
      ensures old(selectedParcel).Some? && reply.None? ==>
        && error == ERROR_SUBMIT
        && boardState == old(boardState) && selectedParcel == old(selectedParcel)
        && actionType == old(actionType) && lastStepInfo == old(lastStepInfo)
      ensures old(selectedParcel).Some? && reply.Some? ==>
        && lastStepInfo == reply
        && boardState == BoardAfterReply(old(boardState), reply.value.nextObservation)
        && selectedParcel == None && actionType == Unset && error == old(error)
      /* what the server is asked to do: a build of the chosen type on the selected, empty cell, or nothing */
      ensures request.Some? ==>
        DecodeActionNumber(request.value.userActions[HUMAN_AGENT_KEY]) ==
          if old(actionType).Building?
          then Build(old(actionType).index, CellId(old(selectedParcel).value))
          else Noop
      ensures request.Some? ==>
        old(boardState)[old(selectedParcel).value.x][old(selectedParcel).value.y].building == -1
    {
      if selectedParcel.None? {
        error := ERROR_NO_SELECTION;
        return None;
      }
      var actionNumber := ComputeActionNumber(actionType, selectedParcel);
      ActionNumberMeaning(actionType, selectedParcel);
      request := Some(StepRequest(map[HUMAN_AGENT_KEY := actionNumber]));
      match reply {
        case None =>
          error := ERROR_SUBMIT;
        case Some(data) =>
          lastStepInfo := Some(data);
          var observation := data.nextObservation;
          if |observation| > 0 && |observation[0]| > 0 {
            boardState := ParseObservationForBoard(observation[0][0]);
          }
          selectedParcel := None;
          actionType := Unset;
      }
    }

    /**
      `handleResetGame`. On a reply it re-decodes the board when the reply
      carries an observation, and clears the last step info, the selection
      and the action; on a failure it only shows an error.
    */
    method HandleResetGame(reply: Option<ResetResponse>)
      requires Valid()
      modifies this
      ensures Valid()
      ensures reply.None? ==>
        && error == ERROR_RESET
        && boardState == old(boardState) && selectedParcel == old(selectedParcel)
        && actionType == old(actionType) && lastStepInfo == old(lastStepInfo)
      ensures reply.Some? ==>
        && boardState == BoardAfterReply(old(boardState), reply.value.observation)
        && lastStepInfo == None && selectedParcel == None && actionType == Unset
        && error == old(error)
    {
      match reply {
        case None =>
          error := ERROR_RESET;
        case Some(data) =>
          var observation := data.observation;
          if |observation| > 0 && |observation[0]| > 0 {
            boardState := ParseObservationForBoard(observation[0][0]);
          }
          lastStepInfo := None;
          selectedParcel := None;
          actionType := Unset;
      }
    }
  }
}
