/** The signal matrix analyser: a 4 x 5 grid of cells whose energy falls off
    with the distance from the pointer, boosted by the cursor speed and
    widened by the ripple strength. */
module SignalMatrix {
  import opened Numeric
  import opened Host
  import opened Text
  import opened CursorContext

  const Rows: nat := 4
  const Cols: nat := 5

  datatype Cell = Cell(id: string, row: nat, col: nat)

  /** `cell-${row}-${col}`: the prefix `cell-` followed by the two
      coordinates in decimal, separated by a dash. */
  function CellId(row: nat, col: nat): (r: string)
    ensures |r| >= 8 && r[..5] == "cell-"
    ensures forall i :: 5 <= i < |r| ==> IsDigit(r[i]) || r[i] == '-'
  {
    CellIdShape(NatToString(row), NatToString(col));
    "cell-" + NatToString(row) + "-" + NatToString(col)
  }

  /** Two non-empty digit strings joined by a dash after `cell-`. */
  lemma CellIdShape(rowDigits: string, colDigits: string)
    requires |rowDigits| >= 1 && |colDigits| >= 1
    requires forall c :: c in rowDigits ==> IsDigit(c)
    requires forall c :: c in colDigits ==> IsDigit(c)
    ensures var r := "cell-" + rowDigits + "-" + colDigits;
            |r| >= 8 && r[..5] == "cell-" && forall i :: 5 <= i < |r| ==> IsDigit(r[i]) || r[i] == '-'
  {
    var r := "cell-" + rowDigits + "-" + colDigits;
    forall i | 5 <= i < |r| ensures IsDigit(r[i]) || r[i] == '-' {
      if i < 5 + |rowDigits| {
        assert r[i] == rowDigits[i - 5];
        assert rowDigits[i - 5] in rowDigits;
      } else if i > 5 + |rowDigits| {
        assert r[i] == colDigits[i - 6 - |rowDigits|];
        assert colDigits[i - 6 - |rowDigits|] in colDigits;
      }
    }
  }

  /** Single-digit coordinates are recovered from the id. */
  lemma CellIdInjective(r1: nat, c1: nat, r2: nat, c2: nat)
    requires r1 < 10 && c1 < 10 && r2 < 10 && c2 < 10
    requires CellId(r1, c1) == CellId(r2, c2)
    ensures r1 == r2 && c1 == c2
  {
    SingleDigit(r1, r2);
    SingleDigit(c1, c2);
    SingleDigit(r2, r1);
    SingleDigit(c2, c1);
    var id := CellId(r1, c1);
    assert id == "cell-" + [DigitChar(r1)] + "-" + [DigitChar(c1)];
    assert id == "cell-" + [DigitChar(r2)] + "-" + [DigitChar(c2)];
    assert id[5] == DigitChar(r1) && id[5] == DigitChar(r2);
    assert id[7] == DigitChar(c1) && id[7] == DigitChar(c2);
  }

  /** The cells in row-major order: cell `k` sits in row `k / Cols`, column
      `k % Cols`, every grid position appears exactly once, and the ids are
      pairwise distinct. */
  method BuildCells() returns (cells: seq<Cell>)
    ensures |cells| == Rows * Cols
    ensures forall k :: 0 <= k < |cells| ==>
              cells[k].row == k / Cols && cells[k].col == k % Cols && cells[k].id == CellId(k / Cols, k % Cols)
    ensures forall row, col :: 0 <= row < Rows && 0 <= col < Cols ==>
              cells[row * Cols + col] == Cell(CellId(row, col), row, col)
    ensures forall i, j :: 0 <= i < j < |cells| ==> cells[i].id != cells[j].id
  {
    cells := [];
    var row := 0;
    while row < Rows
      invariant 0 <= row <= Rows
      invariant |cells| == row * Cols
      invariant forall k :: 0 <= k < |cells| ==> cells[k] == Cell(CellId(k / Cols, k % Cols), k / Cols, k % Cols)
    {
      var col := 0;
      while col < Cols
        invariant 0 <= col <= Cols
        invariant |cells| == row * Cols + col
        invariant forall k :: 0 <= k < |cells| ==> cells[k] == Cell(CellId(k / Cols, k % Cols), k / Cols, k % Cols)
      {
        assert (row * Cols + col) / Cols == row && (row * Cols + col) % Cols == col;
        cells := cells + [Cell(CellId(row, col), row, col)];
        col := col + 1;
      }
      row := row + 1;
    }
    forall row, col | 0 <= row < Rows && 0 <= col < Cols
      ensures cells[row * Cols + col] == Cell(CellId(row, col), row, col)
    {
      assert (row * Cols + col) / Cols == row && (row * Cols + col) % Cols == col;
    }
    forall i, j | 0 <= i < j < |cells| ensures cells[i].id != cells[j].id {
      if cells[i].id == cells[j].id {
        CellIdInjective(i / Cols, i % Cols, j / Cols, j % Cols);
      }
    }
  }

  // ---------------------------------------------------------------------
  // Pointer state

  datatype Matrix = Matrix(x: real, y: real, isActive: bool)

  const InitialMatrix: Matrix := Matrix(0.5, 0.5, false)

  /** The pointer position as a fraction of the grid's box, clamped to the
      unit square: a pointer left of (above) the box reads 0, right of
      (below) it reads 1. Moving also lights the grid. */
  function MatrixMove(m: Matrix, clientX: real, clientY: real, bounds: Rect): (r: Matrix)
    requires bounds.width > 0.0 && bounds.height > 0.0
    ensures r.isActive
    ensures 0.0 <= r.x <= 1.0 && 0.0 <= r.y <= 1.0
    ensures clientX <= bounds.left ==> r.x == 0.0
    ensures clientX >= bounds.left + bounds.width ==> r.x == 1.0
    ensures bounds.left <= clientX <= bounds.left + bounds.width ==> r.x == (clientX - bounds.left) / bounds.width
    ensures clientY <= bounds.top ==> r.y == 0.0
    ensures clientY >= bounds.top + bounds.height ==> r.y == 1.0
    ensures bounds.top <= clientY <= bounds.top + bounds.height ==> r.y == (clientY - bounds.top) / bounds.height
  {
    var ratioX := (clientX - bounds.left) / bounds.width;
    var ratioY := (clientY - bounds.top) / bounds.height;
    RatioBounds(clientX - bounds.left, bounds.width);
    RatioBounds(clientY - bounds.top, bounds.height);
    Matrix(Clamp(ratioX, 0.0, 1.0), Clamp(ratioY, 0.0, 1.0), true)
  }

  /** `offset / extent` lies in [0, 1] exactly when the offset lies in
      [0, extent]. */
  lemma RatioBounds(offset: real, extent: real)
    requires extent > 0.0
    ensures offset <= 0.0 <==> offset / extent <= 0.0
    ensures offset >= extent <==> offset / extent >= 1.0
  {
    assert offset / extent * extent == offset;
    if offset / extent > 0.0 {
      MulNonNegative(offset / extent, extent);
    }
    if offset / extent < 1.0 {
      MulNonNegative(1.0 - offset / extent, extent);
    }
  }

  /** Entering the grid claims the cursor in control mode; the grid itself
      lights only once the pointer moves. */
  function MatrixEnter(m: Matrix, cursor: State): (r: (Matrix, State))
    ensures r.0 == m
    ensures r.1.activeTarget == Some("signal-matrix") && r.1.variant == Control
    ensures r.1.(activeTarget := cursor.activeTarget, variant := cursor.variant) == cursor
  {
    (m, ActivateTarget(cursor, "signal-matrix", Some(Control)))
  }

  /** Leaving darkens the grid, keeps the last pointer position, and releases
      the cursor only if the matrix still owns it. */
  function MatrixLeave(m: Matrix, cursor: State): (r: (Matrix, State))
    ensures !r.0.isActive && r.0.x == m.x && r.0.y == m.y
    ensures cursor.activeTarget == Some("signal-matrix") ==> r.1.activeTarget == None && r.1.variant == Default
    ensures cursor.activeTarget != Some("signal-matrix") ==> r.1 == cursor
    ensures r.1.(activeTarget := cursor.activeTarget, variant := cursor.variant) == cursor
  {
    (m.(isActive := false), DeactivateTarget(cursor, "signal-matrix"))
  }

  /** Entering and then leaving, with nothing in between, hands the cursor back
      with no active target and in the default mode. */
  lemma EnterThenLeave(m: Matrix, cursor: State)
    ensures MatrixLeave(MatrixEnter(m, cursor).0, MatrixEnter(m, cursor).1).1.activeTarget == None
    ensures MatrixLeave(MatrixEnter(m, cursor).0, MatrixEnter(m, cursor).1).1.variant == Default
    ensures MatrixLeave(MatrixEnter(m, cursor).0, MatrixEnter(m, cursor).1).0 == m.(isActive := false)
  {
  }

  // ---------------------------------------------------------------------
  // Readouts and cell energy

  /** The velocity factor: the cursor speed scaled by 420, within [0, 1.3]. */
  function Speed(s: State, math: MathLib): (r: real)
    requires math.Valid()
    ensures 0.0 <= r <= 1.3
    ensures math.hypot(s.vx, s.vy) * 420.0 <= 1.3 ==> r == math.hypot(s.vx, s.vy) * 420.0
    ensures math.hypot(s.vx, s.vy) * 420.0 >= 1.3 ==> r == 1.3
  {
    Clamp(math.hypot(s.vx, s.vy) * 420.0, 0.0, 1.3)
  }

  /** The flow gain: the ripple strength setting, within [0, 1]. */
  function Flow(settings: Settings): (r: real)
    ensures 0.0 <= r <= 1.0
    ensures 0.0 <= settings.rippleStrength <= 1.0 ==> r == settings.rippleStrength
    ensures settings.rippleStrength <= 0.0 ==> r == 0.0
    ensures settings.rippleStrength >= 1.0 ==> r == 1.0
  {
    Clamp(settings.rippleStrength, 0.0, 1.0)
  }

  /** The heading readout in whole degrees: the direction's fraction of a
      full turn from -pi, times 360, rounded to the nearest degree; a
      direction in [-pi, pi] maps to [0, 360]. */
  function Heading(s: State, math: MathLib): (r: int)
    requires math.pi > 0.0
    ensures var direction := math.atan2(s.vy, s.vx);
            r as real - 0.5 <= ((direction + math.pi) / (2.0 * math.pi)) * 360.0 < r as real + 0.5
    ensures var direction := math.atan2(s.vy, s.vx);
            -math.pi <= direction <= math.pi ==> 0 <= r <= 360
  {
    var direction := math.atan2(s.vy, s.vx);
    HalfTurnFraction(direction, math.pi);
    Round(((direction + math.pi) / (2.0 * math.pi)) * 360.0)
  }

  lemma HalfTurnFraction(direction: real, pi: real)
    requires pi > 0.0
    ensures -pi <= direction <= pi ==> 0.0 <= (direction + pi) / (2.0 * pi) <= 1.0
  {
    RatioBounds(direction + pi, 2.0 * pi);
  }

  /** The centre of a grid cell, as a fraction of the grid's box. */
  function CellCentre(cell: Cell): (r: (real, real))
    ensures cell.col < Cols && cell.row < Rows ==> 0.0 < r.0 < 1.0 && 0.0 < r.1 < 1.0
  {
    ((cell.col as real + 0.5) / Cols as real, (cell.row as real + 0.5) / Rows as real)
  }

  /** The exponent of the distance falloff: never positive, and steeper for a
      lower flow gain. */
  function FalloffExponent(distance: real, flow: real): (r: real)
    ensures distance >= 0.0 && flow <= 1.0 ==> r <= -1.9 * distance
  {
    -distance * (3.1 - flow * 1.2)
  }

  /** `exp(-distance * (3.1 - flow * 1.2))` for the distance from the cell
      centre to the pointer: within [0, 1] for a flow gain of at most 1. */
  function Falloff(cell: Cell, m: Matrix, flow: real, math: MathLib): (r: real)
    ensures math.Valid() && math.ExpDecays() && flow <= 1.0 ==> 0.0 <= r <= 1.0
  {
    var centre := CellCentre(cell);
    var distance := math.hypot(centre.0 - m.x, centre.1 - m.y);
    var exponent := FalloffExponent(distance, flow);
    assert math.Valid() && flow <= 1.0 ==> exponent <= 0.0;
    math.exp(exponent)
  }

  /** The energy of one cell: the falloff times the speed boost, within
      [0, 1.35]. */
  function CellEnergy(cell: Cell, m: Matrix, speed: real, flow: real, math: MathLib): (r: real)
    requires math.Valid()
    ensures 0.0 <= r <= 1.35
    ensures var raw := Falloff(cell, m, flow, math) * (0.4 + speed * 0.6);
            0.0 <= raw <= 1.35 ==> r == raw
    ensures math.ExpDecays() && flow <= 1.0 && 0.0 <= speed <= 1.3 ==>
              r == Falloff(cell, m, flow, math) * (0.4 + speed * 0.6)
  {
    var raw := Falloff(cell, m, flow, math) * (0.4 + speed * 0.6);
    EnergyInRange(Falloff(cell, m, flow, math), speed, math.Valid() && math.ExpDecays() && flow <= 1.0);
    Clamp(raw, 0.0, 1.35)
  }

  /** A falloff in [0, 1] times the boost of a speed in [0, 1.3] stays within
      [0, 1.18], so the energy clamp never cuts it. */
  lemma EnergyInRange(falloff: real, speed: real, falloffInUnit: bool)
    requires falloffInUnit ==> 0.0 <= falloff <= 1.0
    ensures falloffInUnit && 0.0 <= speed <= 1.3 ==> 0.0 <= falloff * (0.4 + speed * 0.6) <= 1.18
  {
    if falloffInUnit && 0.0 <= speed <= 1.3 {
      var boost := 0.4 + speed * 0.6;
      assert falloff * boost <= boost by {
        assert (1.0 - falloff) * boost >= 0.0;
      }
      assert falloff * boost >= 0.0;
    }
  }

  /** The speed boost lies in [0.4, 1.18] for a speed in [0, 1.3]. */
  lemma VelocityBoostRange(speed: real)
    requires 0.0 <= speed <= 1.3
    ensures 0.4 <= 0.4 + speed * 0.6 <= 1.18
  {
  }
}
