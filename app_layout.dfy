/**
 * `create_match_image` of app.py: the match record and the font metrics
 * turned into the draw calls of the 1080x1350 infographic.
 */
module AppLayout {
  import opened Wrappers
  import opened Strings
  import opened Espn
  import opened Canvas
  import opened AppStats

  const ScoreSize: int := 160
  const HeaderSize: int := 40
  const SmallSize: int := 28
  const NumberSize: int := 36
  const BarWidth: real := 320.0
  const BarHeight: real := 20.0
  /** `y_stat` starts at 770 and advances 110 per row. */
  const FirstRowY: real := 770.0
  const RowStep: real := 110.0
  /** Scorer lines start 110 below the score line, 35 apart. */
  const ScorerOffset: real := 110.0
  const ScorerStep: real := 35.0

  const PossessionLabel: string := "POSSESSION"
  const XgLabel: string := "EXPECTED GOALS (xG)"
  const ShotsLabel: string := "SHOTS"
  const OnTargetLabel: string := "ON TARGET"
  const CornersLabel: string := "CORNERS"

  /** A value of `stats_data`: the `f"{p}%"` possession text, or a number. */
  datatype Cell = Percent(p: int) | Amount(n: Number)

  /** One tuple `(label, v_a, v_o, is_pct)` of `stats_data`. */
  datatype StatRow = StatRow(heading: string, left: Cell, right: Cell, isPct: bool)

  /** `str(v)` */
  function Shown(c: Cell): Printable {
    match c
    case Percent(p) => Chars(IntToString(p) + "%")
    case Amount(Int(i)) => Chars(IntToString(i))
    case Amount(Float(r)) => FloatText(r)
  }

  /**
   * A percentage cell prints its integer's numeral followed by `%`, a count
   * its numeral, and a float xG value the float's own text.
   */
  lemma ShownText(c: Cell)
    ensures var t := Shown(c);
      (c.Percent? ==> t.Chars? && |t.s| >= 2 && t.s[|t.s| - 1] == '%' && t.s[..|t.s| - 1] == IntToString(c.p))
      && (c.Amount? && c.n.Int? ==> t.Chars? && t.s == IntToString(c.n.i))
      && (c.Amount? && c.n.Float? ==> t == FloatText(c.n.r))
  {
    if c.Percent? {
      var t := Shown(c).s;
      assert t == IntToString(c.p) + "%";
      assert t[..|t| - 1] == IntToString(c.p);
    }
  }

  /**
   * `float(str(v).replace('%','')) if v else 0`: the number the cell shows,
   * without its `%`; a falsy zero reads as 0 either way.
   */
  function Magnitude(c: Cell): (v: real)
    ensures c.Percent? ==> v == c.p as real
    ensures c.Amount? ==> v == c.n.Value()
    ensures c.Amount? && c.n.Int? ==> v == c.n.i as real
  {
    match c
    case Percent(p) => p as real
    case Amount(n) => n.Value()
  }

  /**
   * The bar value is the number printed beside the bar: for a percentage
   * cell the text before its `%`, for a count its whole text, read back as
   * an integer.
   */
  lemma MagnitudeReadsShown(c: Cell)
    requires c.Percent? || c.n.Int?
    ensures var t := Shown(c).s;
      Magnitude(c) == (if c.Percent? then IntValue(t[..|t| - 1]) else IntValue(t)) as real
  {
    ShownText(c);
    if c.Percent? {
      IntToStringRoundTrip(c.p);
    } else {
      IntToStringRoundTrip(c.n.i);
    }
  }

  function ScoreText(d: MatchData): string {
    d.teamScore + " - " + d.oppScore
  }

  /**
   * Possession rebalancing: when the two percentages have a positive sum
   * other than 100, the larger one (Arsenal's on a tie) absorbs the
   * difference so that the pair sums to 100; otherwise both are kept.
   */
  function Balance(pa: int, po: int): (r: (int, int))
    ensures pa + po > 0 && pa + po != 100 ==> r.0 + r.1 == 100
    ensures pa + po > 0 && pa + po != 100 && pa >= po ==> r.1 == po
    ensures pa + po > 0 && pa + po != 100 && pa < po ==> r.0 == pa
    ensures pa + po <= 0 || pa + po == 100 ==> r == (pa, po)
    ensures 0 <= pa <= 100 && 0 <= po <= 100 ==> 0 <= r.0 <= 100 && 0 <= r.1 <= 100
  {
    if pa + po != 100 && pa + po > 0 then
      var diff := 100 - (pa + po);
      if pa >= po then (pa + diff, po) else (pa, po + diff)
    else (pa, po)
  }

  predicate XgShown(d: MatchData) {
    d.team.xg.Some? && d.opp.xg.Some?
  }

  function Labels(rows: seq<StatRow>): seq<string> {
    seq(|rows|, k requires 0 <= k < |rows| => rows[k].heading)
  }

  /**
   * `stats_data` after the xG insert: possession (rebalanced, as text with
   * `%`), the xG row only when both sides report xG, then shots, shots on
   * target and corners; only possession is a percentage row.
   */
  function Rows(d: MatchData): (rows: seq<StatRow>)
    ensures Labels(rows) == if XgShown(d) then [PossessionLabel, XgLabel, ShotsLabel, OnTargetLabel, CornersLabel]
                            else [PossessionLabel, ShotsLabel, OnTargetLabel, CornersLabel]
    ensures forall k :: 0 <= k < |rows| ==> (rows[k].isPct <==> k == 0)
    ensures var b := Balance(d.team.possession, d.opp.possession);
      rows[0].left == Percent(b.0) && rows[0].right == Percent(b.1)
    ensures XgShown(d) ==> rows[1].left == Amount(d.team.xg.value) && rows[1].right == Amount(d.opp.xg.value)
    ensures var o := if XgShown(d) then 2 else 1;
      |rows| == o + 3
      && rows[o].left == Amount(Int(d.team.shots)) && rows[o].right == Amount(Int(d.opp.shots))
      && rows[o + 1].left == Amount(Int(d.team.onTarget)) && rows[o + 1].right == Amount(Int(d.opp.onTarget))
      && rows[o + 2].left == Amount(Int(d.team.corners)) && rows[o + 2].right == Amount(Int(d.opp.corners))
  {
    var b := Balance(d.team.possession, d.opp.possession);
    var base := [
      StatRow(PossessionLabel, Percent(b.0), Percent(b.1), true),
      StatRow(ShotsLabel, Amount(Int(d.team.shots)), Amount(Int(d.opp.shots)), false),
      StatRow(OnTargetLabel, Amount(Int(d.team.onTarget)), Amount(Int(d.opp.onTarget)), false),
      StatRow(CornersLabel, Amount(Int(d.team.corners)), Amount(Int(d.opp.corners)), false)];
    if XgShown(d) then
      base[..1] + [StatRow(XgLabel, Amount(d.team.xg.value), Amount(d.opp.xg.value), false)] + base[1..]
    else base
  }

  /** `max_val`: a floor of 3.0 for the xG row, 100 for percentages, a floor of 15 otherwise. */
  function Scale(heading: string, isPct: bool, a: real, b: real): (den: real)
    ensures den > 0.0
    ensures Contains(heading, "xG") ==> den == MaxR(a + b, 3.0) && den >= 3.0 && den >= a + b
    ensures !Contains(heading, "xG") && isPct ==> den == 100.0
    ensures !Contains(heading, "xG") && !isPct ==> den == MaxR(a + b, 15.0) && den >= 15.0 && den >= a + b
  {
    if Contains(heading, "xG") then MaxR(a + b, 3.0)
    else if isPct then 100.0
    else MaxR(a + b, 15.0)
  }

  lemma NoXgIn(heading: string)
    requires 'x' !in heading
    ensures !Contains(heading, "xG")
  {
    if Contains(heading, "xG") {
      ContainsFirstChar(heading, "xG");
    }
  }

  /** The scale each row of the graphic uses: 100 for possession, max(a+b, 3.0) for xG, max(a+b, 15) for counts. */
  lemma RowScales(d: MatchData, k: nat)
    requires k < |Rows(d)|
    ensures var row := Rows(d)[k];
      var a, b := Magnitude(row.left), Magnitude(row.right);
      Scale(row.heading, row.isPct, a, b) ==
        if k == 0 then 100.0
        else if row.heading == XgLabel then MaxR(a + b, 3.0)
        else MaxR(a + b, 15.0)
  {
    var rows := Rows(d);
    assert Labels(rows)[k] == rows[k].heading;
    if rows[k].heading == XgLabel {
      assert XgLabel[16..][..2] == "xG";
      assert StartsWith(XgLabel[16..], "xG");
    } else {
      NoXgIn(PossessionLabel);
      NoXgIn(ShotsLabel);
      NoXgIn(OnTargetLabel);
      NoXgIn(CornersLabel);
    }
  }

  function RowScale(row: StatRow): (den: real)
    ensures den > 0.0
  {
    Scale(row.heading, row.isPct, Magnitude(row.left), Magnitude(row.right))
  }

  function LeftLength(row: StatRow): real {
    BarLength(Magnitude(row.left), RowScale(row))
  }

  function RightLength(row: StatRow): real {
    BarLength(Magnitude(row.right), RowScale(row))
  }

  /**
   * One pass of the row loop at height `y`: the heading, the left value,
   * the left track, the red bar, the right pill bar and the right value,
   * drawn with the bar lengths `len_a` and `len_o` of the row.
   */
  function RowOps(row: StatRow, y: real, m: Metrics): seq<DrawOp> {
    RowDrawing(row, LeftLength(row), RightLength(row), y, m)
  }

  /** The draw calls of one row once `len_a` and `len_o` are known. */
  function RowDrawing(row: StatRow, lenA: real, lenO: real, y: real, m: Metrics): seq<DrawOp> {
    RowHead(row, y, m)
    + PillBar(Cx - 20.0 - BarWidth, y, BarWidth, BarHeight, 100.0, Track, Track)
    + [RedBar(lenA, y)]
    + PillBar(Cx + 20.0, y, BarWidth, BarHeight, lenO, Muted, Track)
    + RowTail(row, y)
  }

  /** The heading and the left value. */
  function RowHead(row: StatRow, y: real, m: Metrics): (ops: seq<DrawOp>)
    ensures |ops| == 2
  {
    [Centred(row.heading, y - 35.0, SmallSize, Dim, m),
     Text(Cx - 20.0 - BarWidth - 50.0, y - 8.0, NumberSize, Shown(row.left), Red)]
  }

  /** `act_w = (len_a / 100) * bar_w`, growing leftwards from `cx - 20`. */
  function RedBar(lenA: real, y: real): DrawOp {
    RoundRect(Cx - 20.0 - (lenA / 100.0) * BarWidth, y, Cx - 20.0, y + BarHeight, 10.0, Red)
  }

  /** The right value. */
  function RowTail(row: StatRow, y: real): (ops: seq<DrawOp>)
    ensures |ops| == 1
  {
    [Text(Cx + 20.0 + BarWidth + 20.0, y - 8.0, NumberSize, Shown(row.right), Ink)]
  }

  /**
   * The texts of a row: the heading centred 35 above, the left value at
   * `cx - 20 - bar_w - 50` in red, and the right value 20 after the right
   * track; seven draw calls, eight when the opponent's bar has a positive
   * length.
   */
  lemma RowTexts(row: StatRow, lenA: real, lenO: real, y: real, m: Metrics)
    ensures var ops := RowDrawing(row, lenA, lenO, y, m);
      |ops| == (if lenO > 0.0 then 8 else 7)
      && ops[0].Text? && ops[0].content == Chars(row.heading) && ops[0].y == y - 35.0
      && ops[0].x + m.width(SmallSize, row.heading) / 2.0 == Cx
      && ops[1] == Text(Cx - 20.0 - BarWidth - 50.0, y - 8.0, NumberSize, Shown(row.left), Red)
      && ops[|ops| - 1] == Text(Cx + 20.0 + BarWidth + 20.0, y - 8.0, NumberSize, Shown(row.right), Ink)
  {
  }

  /**
   * The left bars of a row: the left track, drawn twice by the full-length
   * pill bar, and the red bar `act_w = len_a / 100 * bar_w` wide that grows
   * leftwards from `cx - 20`.
   */
  lemma RowBars(row: StatRow, lenA: real, lenO: real, y: real, m: Metrics)
    ensures var ops := RowDrawing(row, lenA, lenO, y, m);
      |ops| >= 7
      && ops[2] == RoundRect(Cx - 20.0 - BarWidth, y, Cx - 20.0, y + BarHeight, BarHeight / 2.0, Track)
      && ops[3] == ops[2]
      && ops[4] == RoundRect(Cx - 20.0 - (lenA / 100.0) * BarWidth, y, Cx - 20.0, y + BarHeight, 10.0, Red)
  {
    var leftBar := PillBar(Cx - 20.0 - BarWidth, y, BarWidth, BarHeight, 100.0, Track, Track);
    var rightBar := PillBar(Cx + 20.0, y, BarWidth, BarHeight, lenO, Muted, Track);
    PillActiveWidth(Cx - 20.0 - BarWidth, y, BarWidth, BarHeight, 100.0, Track, Track);
    var left := RowHead(row, y, m) + leftBar;
    assert |left| == 4 && left[2] == leftBar[0] && left[3] == leftBar[1];
    var ops := left + [RedBar(lenA, y)] + rightBar + RowTail(row, y);
    assert ops == RowDrawing(row, lenA, lenO, y, m);
    assert ops[2] == left[2] && ops[3] == left[3];
  }

  /** The right track of a row, the full bar width from `cx + 20`. */
  lemma RightTrack(row: StatRow, lenA: real, lenO: real, y: real, m: Metrics)
    ensures var ops := RowDrawing(row, lenA, lenO, y, m);
      |ops| >= 7
      && ops[5] == RoundRect(Cx + 20.0, y, Cx + 20.0 + BarWidth, y + BarHeight, BarHeight / 2.0, Track)
  {
    var leftBar := PillBar(Cx - 20.0 - BarWidth, y, BarWidth, BarHeight, 100.0, Track, Track);
    var rightBar := PillBar(Cx + 20.0, y, BarWidth, BarHeight, lenO, Muted, Track);
    var ops := RowHead(row, y, m) + leftBar + [RedBar(lenA, y)] + rightBar + RowTail(row, y);
    assert ops == RowDrawing(row, lenA, lenO, y, m);
    assert ops[5] == rightBar[0];
  }

  /**
   * The opponent's bar: for a positive `len_o`, the segment drawn over the
   * right track is `max(20, bar_w * len_o / 100)` wide, from `cx + 20`.
   */
  lemma OpponentBar(row: StatRow, lenA: real, lenO: real, y: real, m: Metrics)
    requires lenO > 0.0
    ensures var ops := RowDrawing(row, lenA, lenO, y, m);
      |ops| == 8
      && ops[6] == RoundRect(Cx + 20.0, y, Cx + 20.0 + MaxR(BarHeight, BarWidth * (lenO / 100.0)),
                             y + BarHeight, BarHeight / 2.0, Muted)
  {
    var leftBar := PillBar(Cx - 20.0 - BarWidth, y, BarWidth, BarHeight, 100.0, Track, Track);
    var rightBar := PillBar(Cx + 20.0, y, BarWidth, BarHeight, lenO, Muted, Track);
    var ops := RowHead(row, y, m) + leftBar + [RedBar(lenA, y)] + rightBar + RowTail(row, y);
    assert ops == RowDrawing(row, lenA, lenO, y, m);
    PillActiveWidth(Cx + 20.0, y, BarWidth, BarHeight, lenO, Muted, Track);
    assert ops[6] == rightBar[1];
  }

  /**
   * A red bar of a length in [0, 100], as any non-negative value gets,
   * never leaves its track.
   */
  lemma RedBarWithinTrack(row: StatRow, lenA: real, lenO: real, y: real, m: Metrics)
    requires 0.0 <= lenA <= 100.0
    ensures var ops := RowDrawing(row, lenA, lenO, y, m);
      |ops| >= 7 && ops[4].RoundRect? && ops[2].RoundRect?
      && ops[2].x0 <= ops[4].x0 <= ops[4].x1 == ops[2].x1
  {
    var act := (lenA / 100.0) * BarWidth;
    assert 0.0 <= act <= BarWidth;
    RowBars(row, lenA, lenO, y, m);
  }

  /** The lengths the rows use lie in [0, 100] for non-negative values. */
  lemma RowLengthsInRange(row: StatRow)
    requires Magnitude(row.left) >= 0.0 && Magnitude(row.right) >= 0.0
    ensures 0.0 <= LeftLength(row) <= 100.0 && 0.0 <= RightLength(row) <= 100.0
  {
  }

  /**
   * Lines 137-159: the possession pair adjusted in place, `stats_data`
   * built, and the xG row inserted at index 1 when both sides have one.
   */
  method StatsData(d: MatchData) returns (rows: seq<StatRow>)
    ensures rows == Rows(d)
  {
    var pa, po := d.team.possession, d.opp.possession;
    if pa + po != 100 && pa + po > 0 {
      var diff := 100 - (pa + po);
      if pa >= po {
        pa := pa + diff;
      } else {
        po := po + diff;
      }
    }
    rows := [
      StatRow(PossessionLabel, Percent(pa), Percent(po), true),
      StatRow(ShotsLabel, Amount(Int(d.team.shots)), Amount(Int(d.opp.shots)), false),
      StatRow(OnTargetLabel, Amount(Int(d.team.onTarget)), Amount(Int(d.opp.onTarget)), false),
      StatRow(CornersLabel, Amount(Int(d.team.corners)), Amount(Int(d.opp.corners)), false)];
    if d.team.xg.Some? && d.opp.xg.Some? {
      rows := rows[..1] + [StatRow(XgLabel, Amount(d.team.xg.value), Amount(d.opp.xg.value), false)] + rows[1..];
    }
    assert (pa, po) == Balance(d.team.possession, d.opp.possession);

  }

  /** The height `y_stat` of row `k`: 770 plus 110 per row before it. */
  function RowY(k: nat): real {
    FirstRowY + RowStep * (k as real)
  }

  /** The row loop: `y_stat` starts at 770 and advances 110 after each row. */
  method DrawRows(rows: seq<StatRow>, m: Metrics) returns (drawn: seq<seq<DrawOp>>)
    ensures |drawn| == |rows|
    ensures forall k :: 0 <= k < |rows| ==> drawn[k] == RowOps(rows[k], RowY(k), m)
  {
    drawn := [];
    var y := FirstRowY;
    var k := 0;
    while k < |rows|
      invariant 0 <= k <= |rows|
      invariant |drawn| == k
      invariant y == RowY(k)
      invariant forall j :: 0 <= j < k ==> drawn[j] == RowOps(rows[j], RowY(j), m)
    {
      ghost var prev := drawn;
      drawn := drawn + [RowOps(rows[k], y, m)];
      forall j | 0 <= j < k + 1
        ensures drawn[j] == RowOps(rows[j], RowY(j), m)
      {
        if j < k {
          assert drawn[j] == prev[j];
        }
      }
      y := y + RowStep;
      k := k + 1;
    }
  }

  /**
   * The vertical extent of every row, as the row loop draws it at
   * `RowY(k)`, against the stats card (`[40, 620, 1040, 1230]`): the
   * heading's anchor lies below the card's top edge and both tracks end at
   * or above its bottom edge; the fifth row, present with xG, has its
   * tracks end exactly on that edge. The value texts are not bounded here:
   * their height depends on the font.
   */
  lemma RowsFitStatsCard(d: MatchData, k: nat, m: Metrics)
    requires k < |Rows(d)|
    ensures var row := Rows(d)[k];
      var ops := RowOps(row, RowY(k), m);
      |ops| >= 7 && ops[0].Text? && ops[2].RoundRect? && ops[5].RoundRect?
      && 620.0 < ops[0].y && ops[2].y1 <= 1230.0 && ops[5].y1 <= 1230.0
    ensures k == 4 ==> RowY(k) + BarHeight == 1230.0
  {
    var row := Rows(d)[k];
    assert |Rows(d)| == |Labels(Rows(d))|;
    RowTexts(row, LeftLength(row), RightLength(row), RowY(k), m);
    RowBars(row, LeftLength(row), RightLength(row), RowY(k), m);
    RightTrack(row, LeftLength(row), RightLength(row), RowY(k), m);
  }

  /**
   * `create_match_image`: the score card, badges flanking the measured
   * score, up to four scorers under each badge, the stats card with one row
   * per entry of `stats_data` at `770 + 110 k`, and the footer.
   */
  method CreateMatchImage(d: MatchData, m: Metrics) returns (g: Graphic)
    ensures var score := ScoreText(d);
      |g.scoreCard| == 3 && g.scoreCard[2].Text? && g.scoreCard[2].content == Chars(score)
      && g.scoreCard[2].x + m.width(ScoreSize, score) / 2.0 == Cx
    ensures var score := ScoreText(d);
      g.scoreCard == [RoundRect(40.0, 40.0, 1040.0, 590.0, 40.0, Container),
                      Text(80.0, 80.0, SmallSize, Chars("FULL TIME"), Gold),
                      Text(Cx - m.width(ScoreSize, score) / 2.0, Cy - m.height(ScoreSize, score) / 1.5,
                           ScoreSize, Chars(score), Ink)]
    ensures var sw := m.width(ScoreSize, ScoreText(d));
      g.badges == Badge(d.teamLogo, Anchors(sw).0) + Badge(d.oppLogo, Anchors(sw).1)
      && ScorerColumn(g.teamScorers, d.teamGoals, Anchors(sw).0, Cy + ScorerOffset, ScorerStep, SmallSize, m)
      && ScorerColumn(g.oppScorers, d.oppGoals, Anchors(sw).1, Cy + ScorerOffset, ScorerStep, SmallSize, m)
    ensures g.statsCard == [RoundRect(40.0, 620.0, 1040.0, 1230.0, 40.0, Container),
                            Centred("MATCH STATS", 660.0, HeaderSize, Ink, m)]
    ensures |g.rows| == |Rows(d)|
    ensures forall k :: 0 <= k < |g.rows| ==> g.rows[k] == RowOps(Rows(d)[k], RowY(k), m)
    ensures g.footer == [Centred("GUNNER BOT", (Height - 80) as real, SmallSize, Gold, m)]
  {
    var score := d.teamScore + " - " + d.oppScore;
    var sw := m.width(ScoreSize, score);
    var sh := m.height(ScoreSize, score);
    var card := [RoundRect(40.0, 40.0, 1040.0, 590.0, 40.0, Container),
                 Text(80.0, 80.0, SmallSize, Chars("FULL TIME"), Gold),
                 Text(Cx - sw / 2.0, Cy - sh / 1.5, ScoreSize, Chars(score), Ink)];
    assert card[2] == Text(Cx - m.width(ScoreSize, ScoreText(d)) / 2.0, Cy - m.height(ScoreSize, ScoreText(d)) / 1.5,
                           ScoreSize, Chars(ScoreText(d)), Ink);

    var anchors := Anchors(sw);
    var badges := Badge(d.teamLogo, anchors.0) + Badge(d.oppLogo, anchors.1);

    var teamScorers := DrawGoalLines(d.teamGoals, anchors.0, Cy + ScorerOffset, ScorerStep, SmallSize, m);
    var oppScorers := DrawGoalLines(d.oppGoals, anchors.1, Cy + ScorerOffset, ScorerStep, SmallSize, m);

    var statsCard := [RoundRect(40.0, 620.0, 1040.0, 1230.0, 40.0, Container),
                      Centred("MATCH STATS", 660.0, HeaderSize, Ink, m)];

    var rows := StatsData(d);
    var drawn := DrawRows(rows, m);

    var footer := [Centred("GUNNER BOT", (Height - 80) as real, SmallSize, Gold, m)];
    g := Graphic(card, badges, teamScorers, oppScorers, statsCard, drawn, footer);
  }
}
