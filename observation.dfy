/**
  The observation decoder of the client (src/components/Utils.js).

  The server sends a flat vector of numbers; positions 50..65 hold, per cell
  in row-major order, the index of the player who built there (-1 = nobody),
  and positions 66..81 hold the building type of that cell (-1 = empty).
  The decoder turns the vector into a 4x4 board of cells, or into the
  all-empty fallback board when the vector is too short.
*/
module Observation {
  import opened Wrappers

  /** Side length of the square board. */
  const GRID: nat := 4
  /** First position of the builder indices in an observation vector. */
  const BUILDER_OFFSET: nat := 50
  /** First position of the building types in an observation vector. */
  const TYPE_OFFSET: nat := 66
  /** Shortest observation vector the decoder accepts. */
  const OBSERVATION_LENGTH: nat := 82

  /** One board position: who built there (None for `null`) and the building type. */
  datatype Cell = Cell(owner: Option<string>, building: int)

  type Board = seq<seq<Cell>>

  const EMPTY_CELL: Cell := Cell(None, -1)

  /** The fallback board `initialDummyBoard`: every cell unowned and empty. */
  const INITIAL_DUMMY_BOARD: Board := seq(GRID, _ => seq(GRID, _ => EMPTY_CELL))

  /** A board with exactly GRID rows of exactly GRID cells. */
  predicate IsGrid(board: Board)
  {
    |board| == GRID && forall i :: 0 <= i < |board| ==> |board[i]| == GRID
  }

  // ---------------------------------------------------------------------
  // Player names: the template literal `P${index + 1}`
  // ---------------------------------------------------------------------

  function DigitChar(d: nat): char
    requires d < 10
  {
    ('0' as int + d) as char
  }

  predicate IsDigits(s: string)
  {
    forall k :: 0 <= k < |s| ==> '0' <= s[k] <= '9'
  }

  /** The decimal rendering of a natural number, most significant digit first. */
  function NatToDecimal(n: nat): (s: string)
    ensures |s| >= 1 && IsDigits(s)
    decreases n
  {
    if n < 10 then [DigitChar(n)] else NatToDecimal(n / 10) + [DigitChar(n % 10)]
  }

  /** The number a string of decimal digits denotes. */
  function DecimalValue(s: string): int
    requires IsDigits(s)
  {
    if s == [] then 0 else DecimalValue(s[..|s| - 1]) * 10 + (s[|s| - 1] as int - '0' as int)
  }

  /** The decimal rendering of an integer, with a leading '-' when it is negative. */
  function IntToDecimal(n: int): string
  {
    if n < 0 then "-" + NatToDecimal(-n) else NatToDecimal(n)
  }

  /** The name of the player with zero-based index `index`: "P1" for 0, "P2" for 1, ... */
  function PlayerName(index: int): string
  {
    "P" + IntToDecimal(index + 1)
  }

  lemma {:induction false} DecimalRoundTrip(n: nat)
    ensures DecimalValue(NatToDecimal(n)) == n
    decreases n
  {
    var s := NatToDecimal(n);
    if n >= 10 {
      DecimalRoundTrip(n / 10);
      assert s[..|s| - 1] == NatToDecimal(n / 10);
      assert s[|s| - 1] == DigitChar(n % 10);
    }
  }

  /** Only the rendering of a negative number starts with '-'. */
  lemma SignOfDecimal(n: int)
    ensures |IntToDecimal(n)| >= 1
    ensures IntToDecimal(n)[0] == '-' <==> n < 0
  {
    if n >= 0 {
      assert IntToDecimal(n)[0] == NatToDecimal(n)[0];
    }
  }

  lemma NatToDecimalInjective(m: nat, n: nat)
    requires NatToDecimal(m) == NatToDecimal(n)
    ensures m == n
  {
    DecimalRoundTrip(m);
    DecimalRoundTrip(n);
  }

  lemma IntToDecimalInjective(a: int, b: int)
    requires IntToDecimal(a) == IntToDecimal(b)
    ensures a == b
  {
    SignOfDecimal(a);
    SignOfDecimal(b);
    if a < 0 {
      var s := IntToDecimal(a);
      assert s == "-" + NatToDecimal(-a) == "-" + NatToDecimal(-b);
      assert NatToDecimal(-a) == s[1..] == NatToDecimal(-b);
      NatToDecimalInjective(-a, -b);
    } else {
      NatToDecimalInjective(a, b);
    }
  }

  /** Distinct player indices render as distinct player names. */
  lemma PlayerNameInjective(a: int, b: int)
    ensures PlayerName(a) == PlayerName(b) <==> a == b
  {
    if PlayerName(a) == PlayerName(b) {
      assert IntToDecimal(a + 1) == PlayerName(a)[1..];
      assert IntToDecimal(b + 1) == PlayerName(b)[1..];
      IntToDecimalInjective(a + 1, b + 1);
    }
  }

  lemma PlayerNameExamples()
    ensures PlayerName(0) == "P1" && PlayerName(1) == "P2" && PlayerName(2) == "P3"
  {
  }

  // ---------------------------------------------------------------------
  // Decoding
  // ---------------------------------------------------------------------

  /** The cell for one builder value and one building type. */
  function DecodeCell(builderVal: int, bType: int): Cell
  {
    Cell(if builderVal == -1 then None else Some(PlayerName(builderVal)), bType)
  }

  /** Row `i` of the decoded board: cells i*4 .. i*4+3 of both windows. */
  function DecodeRow(observation: seq<int>, i: int): seq<Cell>
    requires |observation| >= OBSERVATION_LENGTH && 0 <= i < GRID
  {
    seq(GRID, j requires 0 <= j < GRID =>
      DecodeCell(observation[BUILDER_OFFSET + i * 4 + j], observation[TYPE_OFFSET + i * 4 + j]))
  }

  /** What `parseObservationForBoard` returns for `observation`. */
  function DecodeBoard(observation: seq<int>): (board: Board)
    ensures IsGrid(board)
  {
    if |observation| < OBSERVATION_LENGTH then INITIAL_DUMMY_BOARD
    else seq(GRID, i requires 0 <= i < GRID => DecodeRow(observation, i))
  }

  /**
    The loop of `parseObservationForBoard`: slice out the builder and type
    windows, then push GRID rows of GRID cells.
  */
  method ParseObservationForBoard(observation: seq<int>) returns (board: Board)
    ensures board == DecodeBoard(observation)
  {
    if |observation| < OBSERVATION_LENGTH {
      return INITIAL_DUMMY_BOARD;
    }
    var buildersFlat := observation[BUILDER_OFFSET..TYPE_OFFSET];
    var buildingTypesFlat := observation[TYPE_OFFSET..OBSERVATION_LENGTH];
    board := [];
    var i := 0;
    while i < GRID
      invariant 0 <= i <= GRID
      invariant board == DecodeBoard(observation)[..i]
    {
      var row := [];
      var j := 0;
      while j < GRID
        invariant 0 <= j <= GRID
        invariant row == DecodeRow(observation, i)[..j]
      {
        var builderVal := buildersFlat[i * 4 + j];
        var bType := buildingTypesFlat[i * 4 + j];
        assert DecodeRow(observation, i)[j] == DecodeCell(builderVal, bType);
        row := row + [Cell(if builderVal == -1 then None else Some(PlayerName(builderVal)), bType)];
        j := j + 1;
      }
      assert row == DecodeRow(observation, i);
      board := board + [row];
      i := i + 1;
    }
  }

  // ---------------------------------------------------------------------
  // Properties of the decoder
  // ---------------------------------------------------------------------

  /** A vector shorter than 82 is rejected as a whole: every cell is unowned and empty. */
  lemma ShortObservationFallsBack(observation: seq<int>)
    requires |observation| < OBSERVATION_LENGTH
    ensures DecodeBoard(observation) == INITIAL_DUMMY_BOARD
    ensures forall i, j :: 0 <= i < GRID && 0 <= j < GRID ==>
      DecodeBoard(observation)[i][j] == Cell(None, -1)
  {
  }

  /**
    For a vector of full length, the cell at row i, column j has the type
    stored at 66 + 4i + j, and its owner is absent exactly when position
    50 + 4i + j holds -1, and otherwise is the player with that index.
  */
  lemma DecodedCell(observation: seq<int>, i: int, j: int)
    requires |observation| >= OBSERVATION_LENGTH
    requires 0 <= i < GRID && 0 <= j < GRID
    ensures DecodeBoard(observation)[i][j].building == observation[66 + 4 * i + j]
    ensures DecodeBoard(observation)[i][j].owner.None? <==> observation[50 + 4 * i + j] == -1
    ensures observation[50 + 4 * i + j] != -1 ==>
      DecodeBoard(observation)[i][j].owner == Some(PlayerName(observation[50 + 4 * i + j]))
  {
    assert DecodeBoard(observation)[i] == DecodeRow(observation, i);
    assert DecodeRow(observation, i)[j] == DecodeCell(observation[50 + 4 * i + j], observation[66 + 4 * i + j]);
  }

  /** Builder value 2 at position 55 (row 1, column 1) shows as owner "P3". */
  lemma OwnerExample(observation: seq<int>)
    requires |observation| >= OBSERVATION_LENGTH && observation[55] == 2
    ensures DecodeBoard(observation)[1][1].owner == Some("P3")
  {
    DecodedCell(observation, 1, 1);
    assert PlayerName(2) == "P3";
  }

  /** Only positions 50..81 matter: vectors that agree there decode to the same board. */
  lemma DecodeReadsOnlyWindow(a: seq<int>, b: seq<int>)
    requires |a| >= OBSERVATION_LENGTH && |b| >= OBSERVATION_LENGTH
    requires a[BUILDER_OFFSET..OBSERVATION_LENGTH] == b[BUILDER_OFFSET..OBSERVATION_LENGTH]
    ensures DecodeBoard(a) == DecodeBoard(b)
  {
    forall i | 0 <= i < GRID
      ensures DecodeBoard(a)[i] == DecodeBoard(b)[i]
    {
      forall j | 0 <= j < GRID
        ensures DecodeBoard(a)[i][j] == DecodeBoard(b)[i][j]
      {
        var w := a[BUILDER_OFFSET..OBSERVATION_LENGTH];
        assert a[50 + 4 * i + j] == w[4 * i + j] == b[50 + 4 * i + j];
        assert a[66 + 4 * i + j] == w[16 + 4 * i + j] == b[66 + 4 * i + j];
        DecodedCell(a, i, j);
        DecodedCell(b, i, j);
      }
    }
  }

  /** A full-length vector with -1 in every builder and type position decodes to the fallback board. */
  lemma UnclaimedEmptyIsFallback(observation: seq<int>)
    requires |observation| >= OBSERVATION_LENGTH
    requires forall k :: BUILDER_OFFSET <= k < OBSERVATION_LENGTH ==> observation[k] == -1
    ensures DecodeBoard(observation) == INITIAL_DUMMY_BOARD
  {
    forall i | 0 <= i < GRID
      ensures DecodeBoard(observation)[i] == INITIAL_DUMMY_BOARD[i]
    {
      forall j | 0 <= j < GRID
        ensures DecodeBoard(observation)[i][j] == EMPTY_CELL
      {
        DecodedCell(observation, i, j);
      }
    }
  }
}
