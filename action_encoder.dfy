/**
  The action encoder of the play page (src/components/Play.js).

  A human move is one integer: 0 means "skip", and building type b on the
  cell in row x, column y is 1 + b * 16 + (x * 4 + y). The server reads the
  code back by dividing (code - 1) by the number of cells.
*/
module ActionEncoder {
  import opened Wrappers

  const GRID_X: int := 4
  const GRID_Y: int := 4
  const NUM_CELLS: int := GRID_X * GRID_Y
  /** Park, House and Shop: the building buttons the page offers. */
  const NUM_BUILDING_TYPES: int := 3
  /** The code of the skip / no-op action. */
  const SKIP_ACTION: int := 0

  /** A selected board position, `{ x, y }` = (row, column). */
  datatype Parcel = Parcel(x: int, y: int)

  /**
    The chosen action, `actionType`: "" (nothing chosen yet), "skip", or
    the decimal index of a building type, here already parsed.
  */
  datatype ActionType = Unset | Skip | Building(index: int)

  predicate OnGrid(p: Parcel)
  {
    0 <= p.x < GRID_X && 0 <= p.y < GRID_Y
  }

  /** The choices the page's buttons can make. */
  predicate OfferedChoice(a: ActionType)
  {
    a.Building? ==> 0 <= a.index < NUM_BUILDING_TYPES
  }

  /** The row-major cell number of a parcel. */
  function CellId(p: Parcel): int
  {
    p.x * GRID_Y + p.y
  }

  /** `computeActionNumber`: the integer code sent to the server. */
  function ComputeActionNumber(actionType: ActionType, selectedParcel: Option<Parcel>): (code: int)
    ensures actionType.Unset? || actionType.Skip? ==> code == SKIP_ACTION
    ensures selectedParcel.None? ==> code == SKIP_ACTION
    ensures OfferedChoice(actionType) && selectedParcel.Some? && OnGrid(selectedParcel.value)
      ==> 0 <= code <= NUM_BUILDING_TYPES * NUM_CELLS
  {
    if actionType.Unset? || actionType.Skip? then SKIP_ACTION
    else if selectedParcel.None? then SKIP_ACTION
    else
      1 + actionType.index * NUM_CELLS + CellId(selectedParcel.value)
  }

  /** The server's reading of an action code. */
  datatype ServerAction = Noop | Build(building: int, cellId: int)

  /** How the server's action space interprets a code: 0 is a no-op, then building-major, cell-minor. */
  function DecodeActionNumber(code: int): ServerAction
  {
    if code == SKIP_ACTION then Noop else Build((code - 1) / NUM_CELLS, (code - 1) % NUM_CELLS)
  }

  /** Cell numbers cover 0..15 and give back the row and column. */
  lemma CellIdRoundTrip(p: Parcel)
    requires OnGrid(p)
    ensures 0 <= CellId(p) < NUM_CELLS
    ensures CellId(p) / GRID_Y == p.x && CellId(p) % GRID_Y == p.y
  {
  }

  /**
    A building move on an on-grid parcel gets a code in 1..48 that the
    server reads back as exactly that building on exactly that cell.
  */
  lemma ActionRoundTrip(b: int, p: Parcel)
    requires 0 <= b < NUM_BUILDING_TYPES && OnGrid(p)
    ensures 1 <= ComputeActionNumber(Building(b), Some(p)) <= NUM_BUILDING_TYPES * NUM_CELLS
    ensures DecodeActionNumber(ComputeActionNumber(Building(b), Some(p))) == Build(b, CellId(p))
  {
  }

  /** Every code the page can send is either the skip code or names a build on the selected cell. */
  lemma ActionNumberMeaning(actionType: ActionType, selectedParcel: Option<Parcel>)
    requires OfferedChoice(actionType)
    requires selectedParcel.Some? ==> OnGrid(selectedParcel.value)
    ensures DecodeActionNumber(ComputeActionNumber(actionType, selectedParcel)) ==
      if actionType.Building? && selectedParcel.Some?
      then Build(actionType.index, CellId(selectedParcel.value))
      else Noop
  {
    if actionType.Building? && selectedParcel.Some? {
      ActionRoundTrip(actionType.index, selectedParcel.value);
    }
  }

  /** Distinct (building, parcel) choices get distinct codes, none of them the skip code. */
  lemma ActionNumberInjective(b1: int, p1: Parcel, b2: int, p2: Parcel)
    requires 0 <= b1 < NUM_BUILDING_TYPES && OnGrid(p1)
    requires 0 <= b2 < NUM_BUILDING_TYPES && OnGrid(p2)
    ensures ComputeActionNumber(Building(b1), Some(p1)) != SKIP_ACTION
    ensures ComputeActionNumber(Building(b1), Some(p1)) == ComputeActionNumber(Building(b2), Some(p2))
      <==> b1 == b2 && p1 == p2
  {
    ActionRoundTrip(b1, p1);
    ActionRoundTrip(b2, p2);
    CellIdRoundTrip(p1);
    CellIdRoundTrip(p2);
  }

  /**
    Every code in 1..48 is the code of exactly one offered choice: a
    building type in 0..2 on the cell whose row and column are the cell
    number's quotient and remainder by 4.
  */
  lemma ActionOnto(code: int)
    requires 1 <= code <= NUM_BUILDING_TYPES * NUM_CELLS
    ensures DecodeActionNumber(code).Build?
    ensures 0 <= DecodeActionNumber(code).building < NUM_BUILDING_TYPES
    ensures 0 <= DecodeActionNumber(code).cellId < NUM_CELLS
    ensures var a := DecodeActionNumber(code);
      ComputeActionNumber(Building(a.building), Some(Parcel(a.cellId / GRID_Y, a.cellId % GRID_Y))) == code
  {
  }

  /** Building a House (type 1) on row 2, column 3 is action 28. */
  lemma ActionExample()
    ensures ComputeActionNumber(Building(1), Some(Parcel(2, 3))) == 28
  {
  }
}
