/** The row selection of `draw_log_panel`: which log lines are drawn on the
    side panel of every recorded frame, and at which height. */
module Panel {
  import opened EventLog

  /** The panel shows at most this many of the newest lines. */
  const PANEL_LINES: nat := 18
  /** Baseline of the first row, and the distance between rows. */
  const FIRST_ROW_Y: int := 28
  const ROW_HEIGHT: int := 26
  /** Drawing stops once the next baseline is this close to the bottom. */
  const BOTTOM_MARGIN: int := 10
  /** Height of the panel in the recorded frame (`LOG_H`). */
  const LOG_H: int := 540

  /** One drawn line: its baseline and its text. */
  datatype PanelRow = PanelRow(y: int, text: string)

  function RowY(i: nat): int {
    FIRST_ROW_Y + ROW_HEIGHT * i
  }

  /** The number of rows drawn before the loop breaks, given enough lines. */
  function RowLimit(height: int): (k: nat)
    ensures k >= 1
  {
    if height < 64 then 1 else (height - 38) / 26 + 1
  }

  /** Row `i` after the first fits exactly when its baseline is not below the margin. */
  lemma RowLimitSpec(height: int, i: nat)
    requires i >= 1
    ensures i < RowLimit(height) <==> RowY(i) <= height - BOTTOM_MARGIN
  {
    if height >= 64 {
      var q := (height - 38) / 26;
      assert 26 * q <= height - 38 < 26 * q + 26;
      if i <= q {
        assert 26 * i <= 26 * q;
      } else {
        assert 26 * i >= 26 * (q + 1);
      }
    }
  }

  /** Reference definition: the newest 18 lines, oldest first, at baselines
      28, 54, 80, ..., for as many as fit. */
  function PanelRows(messages: seq<string>, height: int): seq<PanelRow> {
    var tail := KeepLast(messages, PANEL_LINES);
    var n := if |tail| <= RowLimit(height) then |tail| else RowLimit(height);
    seq(n, i requires 0 <= i < n => PanelRow(RowY(i), tail[i]))
  }

  /** Which rows are drawn: line `i` of the newest 18 is drawn exactly when it
      is the first, or its baseline is at most `height - 10`; it is drawn at
      `28 + 26 * i` with its own text. */
  lemma PanelRowsSpec(messages: seq<string>, height: int, i: nat)
    requires i < |KeepLast(messages, PANEL_LINES)|
    ensures var rows := PanelRows(messages, height);
      (i < |rows| <==> i == 0 || RowY(i) <= height - BOTTOM_MARGIN) &&
      (i < |rows| ==> rows[i] == PanelRow(FIRST_ROW_Y + ROW_HEIGHT * i, messages[|messages| - |KeepLast(messages, PANEL_LINES)| + i]))
  {
    if i >= 1 {
      RowLimitSpec(height, i);
    }
  }

  /** On the recorded panel (540 high) all of the newest 18 lines are drawn. */
  lemma FullPanelShowsAll(messages: seq<string>)
    ensures |PanelRows(messages, LOG_H)| == if |messages| <= PANEL_LINES then |messages| else PANEL_LINES
  {
    assert RowLimit(LOG_H) == 20;
  }

  /** `draw_log_panel` as written: walk the newest 18 lines, advance the
      baseline after each, and stop once it passes the bottom margin. */
  method DrawLogPanel(messages: seq<string>, height: int) returns (rows: seq<PanelRow>)
    ensures rows == PanelRows(messages, height)
  {
    var tail := KeepLast(messages, PANEL_LINES);
    rows := [];
    var y := FIRST_ROW_Y;
    var i := 0;
    while i < |tail|
      invariant 0 <= i <= |tail|
      invariant i < RowLimit(height)
      invariant y == RowY(i)
      invariant rows == seq(i, j requires 0 <= j < i => PanelRow(RowY(j), tail[j]))
    {
      rows := rows + [PanelRow(y, tail[i])];
      y := y + ROW_HEIGHT;
      i := i + 1;
      RowLimitSpec(height, i);
      if y > height - BOTTOM_MARGIN {
        break;
      }
    }
  }
}
