/**
 * `create_match_image` of Gunner_Bot.py: the larger-font variant of the
 * infographic, with four fixed statistic rows, possession drawn as read,
 * and the left-hand values right-aligned against their bar.
 */
module GunnerLayout {
  import opened Wrappers
  import opened Strings
  import opened Espn
  import opened Canvas
  import opened GunnerStats

  const ScoreSize: int := 180
  const HeaderSize: int := 50
  const BodySize: int := 38
  const SmallSize: int := 36
  const NumberSize: int := 55
  const BarWidth: real := 300.0
  const BarHeight: real := 20.0
  /** `y_stat` starts at 760 and advances 120 per row. */
  const FirstRowY: real := 760.0
  const RowStep: real := 120.0
  /** Scorer lines start 120 below the score line, 45 apart. */
  const ScorerOffset: real := 120.0
  const ScorerStep: real := 45.0
  /** The gap between a bar and its value, and between the two bars and the centre line. */
  const Gap: real := 20.0

  const PossessionLabel: string := "POSSESSION"
  const ShotsLabel: string := "SHOTS"
  const OnTargetLabel: string := "ON TARGET"
  const CornersLabel: string := "CORNERS"

  /** One tuple `(label, v_a, v_o, is_pct)` of `stats_data`. */
  datatype StatRow = StatRow(heading: string, left: int, right: int, isPct: bool)

  function ScoreText(d: MatchData): string {
    d.teamScore + " - " + d.oppScore
  }

  function Labels(rows: seq<StatRow>): seq<string> {
    seq(|rows|, k requires 0 <= k < |rows| => rows[k].heading)
  }

  /**
   * `stats_data`: possession (as read, with no rebalancing), shots, shots on
   * target and corners, each pairing Arsenal's value with the opponent's;
   * only possession is a percentage row.
   */
  function Rows(d: MatchData): (rows: seq<StatRow>)
    ensures Labels(rows) == [PossessionLabel, ShotsLabel, OnTargetLabel, CornersLabel]
    ensures forall k :: 0 <= k < |rows| ==> (rows[k].isPct <==> k == 0)
    ensures rows[0].left == d.team.possession && rows[0].right == d.opp.possession
    ensures forall k :: 0 <= k < |rows| ==>
      Slot(d.team, ["possessionPct", "totalShots", "shotsOnTarget", "wonCorners"][k]) == Some(rows[k].left)
      && Slot(d.opp, ["possessionPct", "totalShots", "shotsOnTarget", "wonCorners"][k]) == Some(rows[k].right)
  {
    [StatRow(PossessionLabel, d.team.possession, d.opp.possession, true),
     StatRow(ShotsLabel, d.team.shots, d.opp.shots, false),
     StatRow(OnTargetLabel, d.team.onTarget, d.opp.onTarget, false),
     StatRow(CornersLabel, d.team.corners, d.opp.corners, false)]
  }

  /** `max_val = 100 if is_pct else max(v_a + v_o, 15)` */
  function Scale(row: StatRow): (den: real)
    ensures row.isPct ==> den == 100.0
    ensures !row.isPct ==> den == MaxR((row.left + row.right) as real, 15.0)
    ensures !row.isPct ==> den >= 15.0 && den >= (row.left + row.right) as real
    ensures !row.isPct && row.left + row.right < 15 ==> den == 15.0
    ensures !row.isPct && row.left + row.right >= 15 ==> den == (row.left + row.right) as real
  {
    if row.isPct then 100.0 else MaxR((row.left + row.right) as real, 15.0)
  }

  /** Two non-negative counts share the track in proportion, and fill it once their sum reaches 15. */
  lemma CountBarsShareTrack(row: StatRow)
    requires !row.isPct && row.left >= 0 && row.right >= 0
    ensures var den := Scale(row);
      var la, lo := BarLength(row.left as real, den), BarLength(row.right as real, den);
      la == (row.left as real / den) * 100.0 && lo == (row.right as real / den) * 100.0
      && la + lo <= 100.0
      && (row.left + row.right >= 15 ==> la + lo == 100.0)
  {
    BarsShareTrack(row.left as real, row.right as real, 15.0);
  }

  /** `len_a = min((v_a / max_val) * 100, 100)` */
  function LeftLength(row: StatRow): real {
    BarLength(row.left as real, Scale(row))
  }

  /** `len_o = min((v_o / max_val) * 100, 100)` */
  function RightLength(row: StatRow): real {
    BarLength(row.right as real, Scale(row))
  }

  /** One pass of the row loop at height `y`. */
  function RowOps(row: StatRow, y: real, m: Metrics): seq<DrawOp> {
    RowDrawing(row, LeftLength(row), RightLength(row), y, m)
  }

  /** The draw calls of one row once `len_a` and `len_o` are known. */
  function RowDrawing(row: StatRow, lenA: real, lenO: real, y: real, m: Metrics): seq<DrawOp> {
    RowHead(row, y, m)
    + PillBar(Cx - Gap - BarWidth, y, BarWidth, BarHeight, 100.0, Track, Track)
    + [RedBar(lenA, y)]
    + PillBar(Cx + Gap, y, BarWidth, BarHeight, lenO, Muted, Track)
    + RowTail(row, y)
  }

  /** The heading and the left value, whose measured width ends it 20 before the track. */
  function RowHead(row: StatRow, y: real, m: Metrics): (ops: seq<DrawOp>)
    ensures |ops| == 2
  {
    var valA := IntToString(row.left);
    [Centred(row.heading, y - 45.0, SmallSize, Dim, m),
     Text(Cx - Gap - BarWidth - Gap - m.width(NumberSize, valA), y - 15.0, NumberSize, Chars(valA), Red)]
  }

  /** `act_w = (len_a / 100) * bar_w`, growing leftwards from `cx - 20`. */
  function RedBar(lenA: real, y: real): DrawOp {
    RoundRect(Cx - Gap - (lenA / 100.0) * BarWidth, y, Cx - Gap, y + BarHeight, 10.0, Red)
  }

  /** The right value. */
  function RowTail(row: StatRow, y: real): (ops: seq<DrawOp>)
    ensures |ops| == 1
  {
    [Text(Cx + Gap + BarWidth + Gap, y - 15.0, NumberSize, Chars(IntToString(row.right)), Ink)]
  }

  /**
   * The texts of a row at height `y`: the heading centred 45 above, the left
   * value in red, 15 above, right-aligned to end 20 before the left track
   * whatever its width, and the right value 20 after the right track at
   * the same height; seven draw calls, eight when the opponent's bar has a
   * positive length.
   */
  lemma RowTexts(row: StatRow, lenA: real, lenO: real, y: real, m: Metrics)
    ensures var ops := RowDrawing(row, lenA, lenO, y, m);
      |ops| == (if lenO > 0.0 then 8 else 7)
      && ops[0].Text? && ops[0].content == Chars(row.heading) && ops[0].y == y - 45.0
      && ops[0].size == SmallSize && ops[0].x + m.width(SmallSize, row.heading) / 2.0 == Cx
    ensures var ops := RowDrawing(row, lenA, lenO, y, m);
      ops[1].Text? && ops[1].content == Chars(IntToString(row.left)) && ops[1].paint == Red
      && ops[1].y == y - 15.0 && ops[1].size == NumberSize
      && ops[1].x + m.width(NumberSize, IntToString(row.left)) == Cx - Gap - BarWidth - Gap
    ensures var ops := RowDrawing(row, lenA, lenO, y, m);
      ops[|ops| - 1] == Text(Cx + Gap + BarWidth + Gap, y - 15.0, NumberSize, Chars(IntToString(row.right)), Ink)
  {
  }

  /**
   * The bars of a row at height `y`: the full-length left pill bar, the red
   * bar `len_a / 100 * bar_w` wide that grows leftwards from `cx - 20` and
   * stays inside the left track for a length in [0, 100], and the right
   * pill bar for `len_o` from `cx + 20`.
   */
  lemma RowBars(row: StatRow, lenA: real, lenO: real, y: real, m: Metrics)
    ensures var ops := RowDrawing(row, lenA, lenO, y, m);
      |ops| >= 7
      && ops[2] == RoundRect(Cx - Gap - BarWidth, y, Cx - Gap, y + BarHeight, BarHeight / 2.0, Track)
      && ops[2..4] == PillBar(Cx - Gap - BarWidth, y, BarWidth, BarHeight, 100.0, Track, Track)
    ensures var ops := RowDrawing(row, lenA, lenO, y, m);
      |ops| >= 7
      && ops[4] == RoundRect(Cx - Gap - (lenA / 100.0) * BarWidth, y, Cx - Gap, y + BarHeight, 10.0, Red)
      && (0.0 <= lenA <= 100.0 ==> ops[2].x0 <= ops[4].x0 <= ops[4].x1 == ops[2].x1)
    ensures var ops := RowDrawing(row, lenA, lenO, y, m);
      |ops| >= 7
      && ops[5] == RoundRect(Cx + Gap, y, Cx + Gap + BarWidth, y + BarHeight, BarHeight / 2.0, Track)
      && ops[5..|ops| - 1] == PillBar(Cx + Gap, y, BarWidth, BarHeight, lenO, Muted, Track)
  {
    var leftBar := PillBar(Cx - Gap - BarWidth, y, BarWidth, BarHeight, 100.0, Track, Track);
    var rightBar := PillBar(Cx + Gap, y, BarWidth, BarHeight, lenO, Muted, Track);
    var left := RowHead(row, y, m) + leftBar;
    assert |left| == 4 && left[2..4] == leftBar;
    var ops := left + [RedBar(lenA, y)] + rightBar + RowTail(row, y);
    assert ops == RowDrawing(row, lenA, lenO, y, m);
    assert ops[2..4] == left[2..4];
    assert ops[5..|ops| - 1] == rightBar;
    if 0.0 <= lenA <= 100.0 {
      assert 0.0 <= (lenA / 100.0) * BarWidth <= BarWidth;
    }
  }

  /** For non-negative values, `len_a` and `len_o` lie in [0, 100]. */
  lemma RowLengthsInRange(row: StatRow)
    requires row.left >= 0 && row.right >= 0
    ensures 0.0 <= LeftLength(row) <= 100.0 && 0.0 <= RightLength(row) <= 100.0
  {
  }

  /** The height `y_stat` of row `k`: 760 plus 120 per row before it. */
  function RowY(k: nat): real {
    FirstRowY + RowStep * (k as real)
  }

  /** The row loop: `y_stat` starts at 760 and advances 120 after each row. */
  method DrawRows(rows: seq<StatRow>, m: Metrics) returns (drawn: seq<seq<DrawOp>>)
    ensures |drawn| == |rows|
    ensures forall k :: 0 <= k < |rows| ==> drawn[k] == RowOps(rows[k], RowY(k), m)
  {
    drawn := [];
    var y := FirstRowY;
    var k := 0;
    while k < |rows|
      invariant 0 <= k <= |rows|
      invariant |drawn| == k
      invariant y == RowY(k)
      invariant forall j :: 0 <= j < k ==> drawn[j] == RowOps(rows[j], RowY(j), m)
    {
      ghost var prev := drawn;
      drawn := drawn + [RowOps(rows[k], y, m)];
      forall j | 0 <= j < k + 1
        ensures drawn[j] == RowOps(rows[j], RowY(j), m)
      {
        if j < k {
          assert drawn[j] == prev[j];
        }
      }
      y := y + RowStep;
      k := k + 1;
    }
  }

  /**
   * The vertical extent of the four rows, as the row loop draws them at
   * `RowY(k)`, against the stats card (`[40, 620, 1040, 1230]`): every
   * heading's anchor lies below the card's top edge and both tracks of
   * every row end at or above its bottom edge. The value texts are not
   * bounded here: their height depends on the font.
   */
  lemma RowsFitStatsCard(d: MatchData, k: nat, m: Metrics)
    requires k < |Rows(d)|
    ensures var row := Rows(d)[k];
      var ops := RowOps(row, RowY(k), m);
      |ops| >= 7 && ops[0].Text? && ops[2].RoundRect? && ops[5].RoundRect?
      && 620.0 < ops[0].y && ops[2].y1 <= 1230.0 && ops[5].y1 <= 1230.0
  {
    var row := Rows(d)[k];
    RowTexts(row, LeftLength(row), RightLength(row), RowY(k), m);
    RowBars(row, LeftLength(row), RightLength(row), RowY(k), m);
  }

  /**
   * `create_match_image`: the score card, badges flanking the measured
   * score, up to four scorers under each badge in the body font, the stats
   * card with its fixed four rows at `760 + 120 k`, and the footer.
   */
  method CreateMatchImage(d: MatchData, m: Metrics) returns (g: Graphic)
    ensures var score := ScoreText(d);
      |g.scoreCard| == 3 && g.scoreCard[2].Text? && g.scoreCard[2].content == Chars(score)
      && g.scoreCard[2].x + m.width(ScoreSize, score) / 2.0 == Cx
    ensures var score := ScoreText(d);
      g.scoreCard == [RoundRect(40.0, 40.0, 1040.0, 590.0, 40.0, Container),
                      Text(80.0, 80.0, SmallSize, Chars("FULL TIME"), Gold),
                      Text(Cx - m.width(ScoreSize, score) / 2.0, Cy - m.height(ScoreSize, score) / 1.5,
                           ScoreSize, Chars(score), Ink)]
    ensures var sw := m.width(ScoreSize, ScoreText(d));
      g.badges == Badge(d.teamLogo, Anchors(sw).0) + Badge(d.oppLogo, Anchors(sw).1)
      && ScorerColumn(g.teamScorers, d.teamGoals, Anchors(sw).0, Cy + ScorerOffset, ScorerStep, BodySize, m)
      && ScorerColumn(g.oppScorers, d.oppGoals, Anchors(sw).1, Cy + ScorerOffset, ScorerStep, BodySize, m)
    ensures g.statsCard == [RoundRect(40.0, 620.0, 1040.0, 1230.0, 40.0, Container),
                            Text(Cx - 140.0, 660.0, HeaderSize, Chars("MATCH STATS"), Ink)]
    ensures |g.rows| == |Rows(d)|
    ensures forall k :: 0 <= k < |g.rows| ==> g.rows[k] == RowOps(Rows(d)[k], RowY(k), m)
    ensures g.footer == [Centred("GUNNER BOT", (Height - 80) as real, SmallSize, Gold, m)]
  {
    var score := d.teamScore + " - " + d.oppScore;
    var sw := m.width(ScoreSize, score);
    var sh := m.height(ScoreSize, score);
    var card := [RoundRect(40.0, 40.0, 1040.0, 590.0, 40.0, Container),
                 Text(80.0, 80.0, SmallSize, Chars("FULL TIME"), Gold),
                 Text(Cx - sw / 2.0, Cy - sh / 1.5, ScoreSize, Chars(score), Ink)];

    var anchors := Anchors(sw);
    var badges := Badge(d.teamLogo, anchors.0) + Badge(d.oppLogo, anchors.1);

    var teamScorers := DrawGoalLines(d.teamGoals, anchors.0, Cy + ScorerOffset, ScorerStep, BodySize, m);
    var oppScorers := DrawGoalLines(d.oppGoals, anchors.1, Cy + ScorerOffset, ScorerStep, BodySize, m);

    var statsCard := [RoundRect(40.0, 620.0, 1040.0, 1230.0, 40.0, Container),
                      Text(Cx - 140.0, 660.0, HeaderSize, Chars("MATCH STATS"), Ink)];

    var rows := Rows(d);
    var drawn := DrawRows(rows, m);

    var footer := [Centred("GUNNER BOT", (Height - 80) as real, SmallSize, Gold, m)];
    g := Graphic(card, badges, teamScorers, oppScorers, statsCard, drawn, footer);
  }
}
