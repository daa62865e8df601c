/**
 * `get_match_stats_espn` of app.py: the summary document turned into the
 * `data` record that the gate and the graphic read.
 */
module AppStats {
  import opened Wrappers
  import opened Strings
  import opened Espn

  /** One side's statistics in `data` (`ars_*` or `opp_*`); `xg` stays None until read. */
  datatype Side = Side(possession: int, shots: int, onTarget: int, corners: int, xg: Option<Number>)

  const Unset: Side := Side(0, 0, 0, 0, None)

  datatype Sides = Sides(us: Side, them: Side)

  /**
   * The `data` dict. `kickoff` is `match_date` as `main` parses it (None
   * when `fromisoformat` rejects it).
   */
  datatype MatchData = MatchData(
    opponent: string,
    teamScore: string,
    oppScore: string,
    teamLogo: Option<Logo>,
    oppLogo: Option<Logo>,
    teamGoals: seq<string>,
    oppGoals: seq<string>,
    team: Side,
    opp: Side,
    kickoff: Option<int>)

  /**
   * `float(v) if '.' in v else int(v)`, and 0 when that conversion raises:
   * an integer literal stays an `int`, a literal with a `.` becomes a float,
   * each with the literal's value.
   */
  function ReadValue(n: Numeral): (v: Number)
    ensures n.Integer? ==> v.Int? && v.Value() == n.i as real
    ensures n.Decimal? ==> v.Float? && v.Value() == n.r
    ensures n.NotNumeric? ==> v == Int(0)
  {
    match n
    case Integer(i) => Int(i)
    case Decimal(r) => Float(r)
    case NotNumeric => Int(0)
  }

  /** Python's `int(val)`: an `int` unchanged, a float truncated toward zero. */
  function AsInt(v: Number): (i: int)
    ensures v.Int? ==> i == v.i
    ensures v.Float? && v.r >= 0.0 ==> 0 <= i && i as real <= v.r < i as real + 1.0
    ensures v.Float? && v.r < 0.0 ==> i <= 0 && i as real - 1.0 < v.r <= i as real
  {
    match v
    case Int(i) => i
    case Float(r) => Trunc(r)
  }

  /** The field a statistic name feeds, read back as a number (None for any other name). */
  function Slot(s: Side, name: string): Option<Number> {
    if name == "possessionPct" then Some(Int(s.possession))
    else if name == "totalShots" then Some(Int(s.shots))
    else if name == "shotsOnTarget" then Some(Int(s.onTarget))
    else if name == "wonCorners" then Some(Int(s.corners))
    else if name == "expectedGoals" then s.xg
    else None
  }

  /** What storing the value `v` under `name` leaves in that field. */
  function Stored(name: string, v: Number): Option<Number> {
    if name in {"possessionPct", "totalShots", "shotsOnTarget", "wonCorners"} then Some(Int(AsInt(v)))
    else if name == "expectedGoals" then Some(v)
    else None
  }

  /**
   * The `if/elif` chain on `s['name']`: the four counted statistics are
   * stored truncated to `int`, `expectedGoals` as read, and every other
   * statistic is ignored; no other field changes.
   */
  function Record(s: Side, name: string, v: Number): (r: Side)
    ensures Slot(r, name) == Stored(name, v)
    ensures forall other :: other != name ==> Slot(r, other) == Slot(s, other)
  {
    if name == "possessionPct" then s.(possession := AsInt(v))
    else if name == "totalShots" then s.(shots := AsInt(v))
    else if name == "shotsOnTarget" then s.(onTarget := AsInt(v))
    else if name == "wonCorners" then s.(corners := AsInt(v))
    else if name == "expectedGoals" then s.(xg := Some(v))
    else s
  }

  function Pick(s: Sides, ours: bool): Side {
    if ours then s.us else s.them
  }

  /** One pass of the inner loop: the `prefix` chosen by the team id, then the chain. */
  function Step(s: Sides, r: Reading): Sides {
    var v := ReadValue(r.stat.display);
    if r.ours then s.(us := Record(s.us, r.stat.name, v))
    else s.(them := Record(s.them, r.stat.name, v))
  }

  /** The two sides after the readings, in order, starting from the zeroed record. */
  function Tally(rs: seq<Reading>): Sides {
    if rs == [] then Sides(Unset, Unset)
    else Step(Tally(rs[..|rs| - 1]), rs[|rs| - 1])
  }

  /** Later statistics overwrite earlier ones: each field holds the last matching reading, or its default. */
  lemma {:induction false} TallyKeepsLastReading(rs: seq<Reading>, ours: bool, name: string)
    ensures Slot(Pick(Tally(rs), ours), name) ==
      match LastReading(rs, ours, name)
      case None => Slot(Unset, name)
      case Some(n) => Stored(name, ReadValue(n))
  {
    if rs != [] {
      TallyKeepsLastReading(rs[..|rs| - 1], ours, name);
    }
  }

  lemma TallySnoc(rs: seq<Reading>, r: Reading)
    ensures Tally(rs + [r]) == Step(Tally(rs), r)
  {
    assert (rs + [r])[..|rs|] == rs;
  }

  /**
   * The inner loop `for s in team['statistics']`, continuing from the sides
   * the readings `before` produced.
   */
  method ReadTeam(start: Sides, ghost before: seq<Reading>, team: TeamBox) returns (sides: Sides)
    requires start == Tally(before)
    ensures sides == Tally(before + Tagged(team))
  {
    var ours := team.teamId == TeamId;
    sides := start;
    ghost var done := before;
    var j := 0;
    while j < |team.stats|
      invariant 0 <= j <= |team.stats|
      invariant done == before + Tagged(team)[..j]
      invariant sides == Tally(done)
    {
      var s := team.stats[j];
      var v := ReadValue(s.display);
      ghost var prior := sides;
      if ours {
        sides := sides.(us := Record(sides.us, s.name, v));
      } else {
        sides := sides.(them := Record(sides.them, s.name, v));
      }
      assert sides == Step(prior, Reading(ours, s));
      TallySnoc(done, Reading(ours, s));
      TaggedPrefix(team, j);
      done := done + [Reading(ours, s)];
      j := j + 1;
    }
    assert Tagged(team)[..j] == Tagged(team);
  }

  /** The boxscore loops: `for team in teams: for s in team['statistics']: ...`. */
  method ReadBoxscore(box: seq<TeamBox>) returns (sides: Sides)
    ensures sides == Tally(Readings(box))
  {
    sides := Sides(Unset, Unset);
    var i := 0;
    while i < |box|
      invariant 0 <= i <= |box|
      invariant sides == Tally(Readings(box[..i]))
    {
      sides := ReadTeam(sides, Readings(box[..i]), box[i]);
      assert box[..i + 1][..i] == box[..i];
      i := i + 1;
    }
    assert box[..i] == box;
  }

  /** `time_str.split(":")[0]` when the clock holds a `:`: the minute before it. */
  function MinuteText(clock: string): (t: string)
    ensures StartsWith(clock, t) && ':' !in t
    ensures |t| < |clock| ==> clock[|t|] == ':'
  {
    if ':' in clock then UpTo(clock, ':') else clock
  }

  /** `f"{scorer} {time_str}'"` with the source's defaults for missing fields. */
  function GoalLine(d: Detail): string {
    d.scorer.GetOr("Unknown") + " " + MinuteText(d.clock.GetOr("")) + "'"
  }

  /**
   * A goal line is the scorer (or "Unknown") and a space, then the minute,
   * a prefix of the clock without `:`, and a closing `'`.
   */
  lemma GoalLineShape(d: Detail)
    ensures var line, head := GoalLine(d), d.scorer.GetOr("Unknown") + " ";
      StartsWith(line, head) && |line| > |head| && line[|line| - 1] == '\''
      && var minute := line[|head|..|line| - 1];
         StartsWith(d.clock.GetOr(""), minute) && ':' !in minute
  {
    var head := d.scorer.GetOr("Unknown") + " ";
    var minute := MinuteText(d.clock.GetOr(""));
    assert GoalLine(d) == head + minute + "'";
    assert GoalLine(d)[..|head|] == head;
    assert GoalLine(d)[|head|..|GoalLine(d)| - 1] == minute;
  }

  predicate ForUs(d: Detail) {
    d.teamId == Some(TeamId)
  }

  /**
   * The intended split (the one Gunner_Bot.py performs): each goal, in
   * timeline order, goes to Arsenal's list iff its team id is Arsenal's.
   */
  function GoalTexts(details: seq<Detail>, ours: bool): seq<string> {
    if details == [] then []
    else
      var d := details[|details| - 1];
      GoalTexts(details[..|details| - 1], ours) + (if IsGoal(d) && ForUs(d) == ours then [GoalLine(d)] else [])
  }

  /** Every goal of the timeline is listed exactly once, on one side or the other. */
  lemma {:induction false} GoalsPartition(details: seq<Detail>)
    ensures |GoalTexts(details, true)| + |GoalTexts(details, false)| == GoalCount(details)
  {
    if details != [] {
      GoalsPartition(details[..|details| - 1]);
    }
  }

  /** The timeline loop with `team_id` read from the event, as intended. */
  method CollectGoals(details: seq<Detail>) returns (ours: seq<string>, theirs: seq<string>)
    ensures ours == GoalTexts(details, true) && theirs == GoalTexts(details, false)
  {
    ours, theirs := [], [];
    var i := 0;
    while i < |details|
      invariant 0 <= i <= |details|
      invariant ours == GoalTexts(details[..i], true) && theirs == GoalTexts(details[..i], false)
    {
      var d := details[i];
      if d.kind == Some("Goal") {
        var txt := GoalLine(d);
        if d.teamId == Some(TeamId) {
          ours := ours + [txt];
        } else {
          theirs := theirs + [txt];
        }
      }
      assert details[..i + 1][..i] == details[..i];
      i := i + 1;
    }
    assert details[..i] == details;
  }

  /**
   * The timeline loop as app.py writes it: line 259 reads `team_id`, a name
   * never bound in the function, so the first goal raises NameError.
   */
  method CollectGoalsAsWritten(details: seq<Detail>) returns (goals: Option<(seq<string>, seq<string>)>)
    ensures goals.None? <==> HasGoal(details)
    ensures goals.Some? ==> goals.value == ([], [])
  {
    var i := 0;
    while i < |details|
      invariant 0 <= i <= |details|
      invariant forall k :: 0 <= k < i ==> !IsGoal(details[k])
    {
      if details[i].kind == Some("Goal") {
        assert details[i] in details;
        return None;
      }
      i := i + 1;
    }
    goals := Some(([], []));
  }

  /**
   * The record `get_match_stats_espn` returns for a summary, with the goal
   * split intended: None when the summary is unavailable, the match is not
   * finished, or fewer than two competitors are listed.
   */
  function MatchStats(resp: SummaryResponse): (r: Option<MatchData>)
    ensures r.Some? <==> resp.Received? && resp.summary.state == Finished && |resp.summary.competitors| >= 2
    ensures r.Some? ==> r.value.kickoff == resp.summary.kickoff
    ensures r.Some? ==> |r.value.teamGoals| + |r.value.oppGoals| == GoalCount(resp.summary.details)
    ensures r.Some? ==> var cs := resp.summary.competitors;
      var (ars, opp) := if cs[0].id == TeamId then (cs[0], cs[1]) else (cs[1], cs[0]);
      r.value.opponent == opp.name && r.value.teamScore == ars.score && r.value.oppScore == opp.score
      && r.value.teamLogo == ars.logo && r.value.oppLogo == opp.logo
    ensures r.Some? ==> var sides := Tally(Readings(resp.summary.box));
      r.value.team == sides.us && r.value.opp == sides.them
    ensures r.Some? ==> r.value.teamGoals == GoalTexts(resp.summary.details, true)
                        && r.value.oppGoals == GoalTexts(resp.summary.details, false)
  {
    if resp.Unavailable? then None
    else
      var s := resp.summary;
      if s.state != Finished || |s.competitors| < 2 then None
      else
        var pair := OrderCompetitors(s.competitors);
        var sides := Tally(Readings(s.box));
        GoalsPartition(s.details);
        Some(MatchData(pair.1.name, pair.0.score, pair.1.score, pair.0.logo, pair.1.logo,
                       GoalTexts(s.details, true), GoalTexts(s.details, false),
                       sides.us, sides.them, s.kickoff))
  }

  /** `get_match_stats_espn` with the goal split corrected. */
  method GetMatchStats(resp: SummaryResponse) returns (data: Option<MatchData>)
    ensures data == MatchStats(resp)
  {
    if resp.Unavailable? {
      return None;
    }
    var s := resp.summary;
    if s.state != Finished || |s.competitors| < 2 {
      return None;
    }
    var pair := OrderCompetitors(s.competitors);
    var ars, opp := pair.0, pair.1;
    var sides := ReadBoxscore(s.box);
    var ours, theirs := CollectGoals(s.details);
    data := Some(MatchData(opp.name, ars.score, opp.score, ars.logo, opp.logo,
                           ours, theirs, sides.us, sides.them, s.kickoff));
  }

  /**
   * The record app.py as written returns: the NameError of line 259 is
   * caught by the function's own handler, so a summary whose timeline holds
   * a goal yields None; any other summary yields the intended record.
   */
  function MatchStatsAsWritten(resp: SummaryResponse): (r: Option<MatchData>)
    ensures resp.Received? && HasGoal(resp.summary.details) ==> r.None?
    ensures !(resp.Received? && HasGoal(resp.summary.details)) ==> r == MatchStats(resp)
  {
    if resp.Received? && HasGoal(resp.summary.details) then None else MatchStats(resp)
  }

  /** `get_match_stats_espn` as app.py writes it. */
  method GetMatchStatsAsWritten(resp: SummaryResponse) returns (data: Option<MatchData>)
    ensures data == MatchStatsAsWritten(resp)
    ensures resp.Received? && HasGoal(resp.summary.details) ==> data.None?
    ensures !(resp.Received? && HasGoal(resp.summary.details)) ==> data == MatchStats(resp)
  {
    if resp.Unavailable? {
      return None;
    }
    var s := resp.summary;
    if s.state != Finished || |s.competitors| < 2 {
      return None;
    }
    var pair := OrderCompetitors(s.competitors);
    var ars, opp := pair.0, pair.1;
    var sides := ReadBoxscore(s.box);
    var goals := CollectGoalsAsWritten(s.details);
    if goals.None? {
      return None;
    }
    NoGoalsNoLines(s.details);
    data := Some(MatchData(opp.name, ars.score, opp.score, ars.logo, opp.logo,
                           goals.value.0, goals.value.1, sides.us, sides.them, s.kickoff));
  }

  lemma {:induction false} NoGoalsNoLines(details: seq<Detail>)
    requires !HasGoal(details)
    ensures GoalTexts(details, true) == [] && GoalTexts(details, false) == []
  {
    if details != [] {
      assert details[|details| - 1] in details;
      assert forall d :: d in details[..|details| - 1] ==> d in details;
      NoGoalsNoLines(details[..|details| - 1]);
    }
  }

  /**
   * A finished match in which Arsenal scored once: the intended reading
   * lists the goal, while app.py as written returns no record at all.
   */
  lemma GoalMatchIsDropped()
    ensures var s := Summary(Finished, Some(0),
                             [Competitor(TeamId, "Arsenal", "1", None), Competitor("363", "Chelsea", "0", None)],
                             [], [Detail(Some("Goal"), Some("Saka"), Some("45:00"), Some(TeamId))]);
            HasGoal(s.details)
            && MatchStats(Received(s)).Some?
            && MatchStats(Received(s)).value.teamGoals == ["Saka 45'"]
  {
    var d := Detail(Some("Goal"), Some("Saka"), Some("45:00"), Some(TeamId));
    assert d in [d];
    assert "45:00"[1..] == "5:00" && "5:00"[1..] == ":00";
    assert UpTo(":00", ':') == [];
    assert UpTo("5:00", ':') == "5";
    assert UpTo("45:00", ':') == "45";
    assert MinuteText("45:00") == "45";
    assert GoalLine(d) == "Saka 45'";
    assert [d][..0] == [];
    assert GoalTexts([d], true) == GoalTexts([], true) + [GoalLine(d)];
  }
}
