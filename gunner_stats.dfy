/**
 * `get_match_stats_espn` of Gunner_Bot.py: the summary document turned into
 * the `data` record of four counted statistics per side and the two goal
 * lists. Unlike app.py it neither checks the match state nor reads xG, and
 * it reads every statistic through `int(float(...))`.
 */
module GunnerStats {
  import opened Wrappers
  import opened Strings
  import opened Espn

  /** One side's statistics in `data` (`ars_*` or `opp_*`). */
  datatype Side = Side(possession: int, shots: int, onTarget: int, corners: int)

  const Unset: Side := Side(0, 0, 0, 0)

  datatype Sides = Sides(us: Side, them: Side)

  /** The `data` dict `get_match_stats_espn` returns. */
  datatype MatchData = MatchData(
    opponent: string,
    teamScore: string,
    oppScore: string,
    teamLogo: Option<Logo>,
    oppLogo: Option<Logo>,
    teamGoals: seq<string>,
    oppGoals: seq<string>,
    team: Side,
    opp: Side)

  /** `int(float(s['displayValue']))`, and 0 when that raises: a decimal is truncated toward zero. */
  function ValueOf(n: Numeral): (v: int)
    ensures n.NotNumeric? ==> v == 0
    ensures n.Integer? ==> v == n.i
    ensures n.Decimal? && n.r >= 0.0 ==> 0 <= v && v as real <= n.r < v as real + 1.0
    ensures n.Decimal? && n.r < 0.0 ==> v <= 0 && v as real - 1.0 < n.r <= v as real
  {
    match n
    case Integer(i) => i
    case Decimal(r) => Trunc(r)
    case NotNumeric => 0
  }

  predicate Counted(name: string) {
    name in {"possessionPct", "totalShots", "shotsOnTarget", "wonCorners"}
  }

  /** The field a statistic name feeds (None for any other name). */
  function Slot(s: Side, name: string): Option<int> {
    if name == "possessionPct" then Some(s.possession)
    else if name == "totalShots" then Some(s.shots)
    else if name == "shotsOnTarget" then Some(s.onTarget)
    else if name == "wonCorners" then Some(s.corners)
    else None
  }

  /**
   * The `if/elif` chain on `s['name']`: one of the four names stores `v` in
   * its field, any other name changes nothing, and no other field changes.
   */
  function Record(s: Side, name: string, v: int): (r: Side)
    ensures Counted(name) ==> Slot(r, name) == Some(v)
    ensures !Counted(name) ==> r == s
    ensures forall other :: other != name ==> Slot(r, other) == Slot(s, other)
  {
    if name == "possessionPct" then s.(possession := v)
    else if name == "totalShots" then s.(shots := v)
    else if name == "shotsOnTarget" then s.(onTarget := v)
    else if name == "wonCorners" then s.(corners := v)
    else s
  }

  function Pick(s: Sides, ours: bool): Side {
    if ours then s.us else s.them
  }

  /** One pass of the inner loop: the `prefix` chosen by the team id, then the chain. */
  function Step(s: Sides, r: Reading): Sides {
    var v := ValueOf(r.stat.display);
    if r.ours then s.(us := Record(s.us, r.stat.name, v))
    else s.(them := Record(s.them, r.stat.name, v))
  }

  /** The two sides after the readings, in order, starting from the zeroed record. */
  function Tally(rs: seq<Reading>): Sides {
    if rs == [] then Sides(Unset, Unset)
    else Step(Tally(rs[..|rs| - 1]), rs[|rs| - 1])
  }

  /**
   * Later statistics overwrite earlier ones: each counted field holds the
   * value of the last reading of its name for its side, or 0 when there is
   * none.
   */
  lemma {:induction false} TallyKeepsLastReading(rs: seq<Reading>, ours: bool, name: string)
    requires Counted(name)
    ensures Slot(Pick(Tally(rs), ours), name) ==
      match LastReading(rs, ours, name)
      case None => Some(0)
      case Some(n) => Some(ValueOf(n))
  {
    if rs != [] {
      TallyKeepsLastReading(rs[..|rs| - 1], ours, name);
    }
  }

  lemma TallySnoc(rs: seq<Reading>, r: Reading)
    ensures Tally(rs + [r]) == Step(Tally(rs), r)
  {
    assert (rs + [r])[..|rs|] == rs;
  }

  /**
   * The inner loop `for s in team['statistics']`, continuing from the sides
   * the readings `before` produced.
   */
  method ReadTeam(start: Sides, ghost before: seq<Reading>, team: TeamBox) returns (sides: Sides)
    requires start == Tally(before)
    ensures sides == Tally(before + Tagged(team))
  {
    var ours := team.teamId == TeamId;
    sides := start;
    ghost var done := before;
    var j := 0;
    while j < |team.stats|
      invariant 0 <= j <= |team.stats|
      invariant done == before + Tagged(team)[..j]
      invariant sides == Tally(done)
    {
      var s := team.stats[j];
      var v := ValueOf(s.display);
      ghost var prior := sides;
      if ours {
        sides := sides.(us := Record(sides.us, s.name, v));
      } else {
        sides := sides.(them := Record(sides.them, s.name, v));
      }
      assert sides == Step(prior, Reading(ours, s));
      TallySnoc(done, Reading(ours, s));
      TaggedPrefix(team, j);
      done := done + [Reading(ours, s)];
      j := j + 1;
    }
    assert Tagged(team)[..j] == Tagged(team);
  }

  /** The boxscore loops: `for team in teams: for s in team['statistics']: ...`. */
  method ReadBoxscore(box: seq<TeamBox>) returns (sides: Sides)
    ensures sides == Tally(Readings(box))
  {
    sides := Sides(Unset, Unset);
    var i := 0;
    while i < |box|
      invariant 0 <= i <= |box|
      invariant sides == Tally(Readings(box[..i]))
    {
      sides := ReadTeam(sides, Readings(box[..i]), box[i]);
      assert box[..i + 1][..i] == box[..i];
      i := i + 1;
    }
    assert box[..i] == box;
  }

  /**
   * `f"{scorer} {time}"`: the scorer (or "Unknown"), a space, and the clock
   * text exactly as given (or nothing), with no minute mark.
   */
  function GoalLine(d: Detail): (line: string)
    ensures var head := d.scorer.GetOr("Unknown") + " ";
      StartsWith(line, head) && line[|head|..] == d.clock.GetOr("")
  {
    var head := d.scorer.GetOr("Unknown") + " ";
    var line := head + d.clock.GetOr("");
    assert line[..|head|] == head;
    line
  }

  /**
   * Each goal, in timeline order, goes to Arsenal's list iff its team id is
   * Arsenal's; a goal without a team id is the opponent's.
   */
  function GoalTexts(details: seq<Detail>, ours: bool): seq<string> {
    if details == [] then []
    else
      var d := details[|details| - 1];
      GoalTexts(details[..|details| - 1], ours)
        + (if IsGoal(d) && (d.teamId == Some(TeamId)) == ours then [GoalLine(d)] else [])
  }

  /** Every goal of the timeline is listed exactly once, on one side or the other. */
  lemma {:induction false} GoalsPartition(details: seq<Detail>)
    ensures |GoalTexts(details, true)| + |GoalTexts(details, false)| == GoalCount(details)
  {
    if details != [] {
      GoalsPartition(details[..|details| - 1]);
    }
  }

  /** The timeline loop. */
  method CollectGoals(details: seq<Detail>) returns (ours: seq<string>, theirs: seq<string>)
    ensures ours == GoalTexts(details, true) && theirs == GoalTexts(details, false)
  {
    ours, theirs := [], [];
    var i := 0;
    while i < |details|
      invariant 0 <= i <= |details|
      invariant ours == GoalTexts(details[..i], true) && theirs == GoalTexts(details[..i], false)
    {
      var d := details[i];
      if d.kind == Some("Goal") {
        var txt := GoalLine(d);
        if d.teamId == Some(TeamId) {
          ours := ours + [txt];
        } else {
          theirs := theirs + [txt];
        }
      }
      assert details[..i + 1][..i] == details[..i];
      i := i + 1;
    }
    assert details[..i] == details;
  }

  /**
   * The record for a summary: None only when the summary is unavailable or
   * lists fewer than two competitors; the state of the match is not read.
   */
  function MatchStats(resp: SummaryResponse): (r: Option<MatchData>)
    ensures r.Some? <==> resp.Received? && |resp.summary.competitors| >= 2
    ensures r.Some? ==> |r.value.teamGoals| + |r.value.oppGoals| == GoalCount(resp.summary.details)
    ensures r.Some? ==> var cs := resp.summary.competitors;
      var (ars, opp) := if cs[0].id == TeamId then (cs[0], cs[1]) else (cs[1], cs[0]);
      r.value.opponent == opp.name && r.value.teamScore == ars.score && r.value.oppScore == opp.score
      && r.value.teamLogo == ars.logo && r.value.oppLogo == opp.logo
    ensures r.Some? ==> var sides := Tally(Readings(resp.summary.box));
      r.value.team == sides.us && r.value.opp == sides.them
    ensures r.Some? ==> r.value.teamGoals == GoalTexts(resp.summary.details, true)
                        && r.value.oppGoals == GoalTexts(resp.summary.details, false)
  {
    if resp.Unavailable? || |resp.summary.competitors| < 2 then None
    else
      var s := resp.summary;
      var pair := OrderCompetitors(s.competitors);
      var sides := Tally(Readings(s.box));
      GoalsPartition(s.details);
      Some(MatchData(pair.1.name, pair.0.score, pair.1.score, pair.0.logo, pair.1.logo,
                     GoalTexts(s.details, true), GoalTexts(s.details, false),
                     sides.us, sides.them))
  }

  /** `get_match_stats_espn` */
  method GetMatchStats(resp: SummaryResponse) returns (data: Option<MatchData>)
    ensures data == MatchStats(resp)
  {
    if resp.Unavailable? {
      return None;
    }
    var s := resp.summary;
    if |s.competitors| < 2 {
      return None;
    }
    var ars, opp := s.competitors[0], s.competitors[1];
    if ars.id != TeamId {
      ars, opp := s.competitors[1], s.competitors[0];
    }
    var sides := ReadBoxscore(s.box);
    var ours, theirs := CollectGoals(s.details);
    data := Some(MatchData(opp.name, ars.score, opp.score, ars.logo, opp.logo,
                           ours, theirs, sides.us, sides.them));
  }
}
