/**
 * The decoded ESPN schedule and summary documents, reduced to the fields the
 * bot reads, and the selection logic both scripts share word for word.
 */
module Espn {
  import opened Wrappers

  /** `str(TEAM_ID_ESPN)`: Arsenal's competitor id. */
  const TeamId: string := "359"
  /** The `status.type.state` of a finished event. */
  const Finished: string := "post"

  /**
   * One schedule event. `date` is its kickoff in seconds (the ISO text, whose
   * lexicographic order the source sorts by, read as a time). `state` is
   * `competitions[0].status.type.state`, or None when that path is missing,
   * which raises in the source.
   */
  datatype Event = Event(id: string, date: int, state: Option<string>)

  type Pos = n: int | n > 0 witness 1

  /** A decoded logo image (`get_image_from_url`): only its size matters to the layout. */
  datatype Logo = Logo(width: Pos, height: Pos)

  /** A Python number as `json`/`float`/`int` produce it. */
  datatype Number = Int(i: int) | Float(r: real) {
    function Value(): real {
      match this
      case Int(i) => i as real
      case Float(r) => r
    }
  }

  /**
   * A statistic's `displayValue` as Python's numeric conversions see it:
   * an integer literal, a literal holding a `.`, or text neither accepts.
   */
  datatype Numeral = Integer(i: int) | Decimal(r: real) | NotNumeric

  datatype Stat = Stat(name: string, display: Numeral)
  datatype TeamBox = TeamBox(teamId: string, stats: seq<Stat>)

  /**
   * One timeline entry: `type.text`, the first participant's athlete
   * `displayName`, `clock.displayValue` and `team.id`, each None when absent.
   */
  datatype Detail = Detail(kind: Option<string>, scorer: Option<string>, clock: Option<string>, teamId: Option<string>)

  /** One competitor; `logo` is the image `get_image_from_url` produced, if any. */
  datatype Competitor = Competitor(id: string, name: string, score: string, logo: Option<Logo>)

  /**
   * The summary document: the header's state, kickoff (None when
   * `fromisoformat` rejects its text), competitors and timeline, and the
   * boxscore's teams.
   */
  datatype Summary = Summary(
    state: string,
    kickoff: Option<int>,
    competitors: seq<Competitor>,
    box: seq<TeamBox>,
    details: seq<Detail>)

  /** Unavailable stands for a failed request or a missing required key. */
  datatype SummaryResponse = Received(summary: Summary) | Unavailable

  /** Python's `int(x)` on a float: truncation toward zero. */
  function Trunc(r: real): (t: int)
    ensures r >= 0.0 ==> t as real <= r < t as real + 1.0
    ensures r < 0.0 ==> t as real - 1.0 < r <= t as real
  {
    if r >= 0.0 then r.Floor else -((-r).Floor)
  }

  /**
   * The index `completed.sort(key=date)` followed by `[-1]` picks: a latest
   * date, and the last of the events that share it (the sort is stable).
   */
  function LatestIndex(events: seq<Event>): (k: nat)
    requires |events| > 0
    ensures k < |events|
    ensures forall j :: 0 <= j < |events| ==> events[j].date <= events[k].date
    ensures forall j :: k < j < |events| ==> events[j].date < events[k].date
  {
    if |events| == 1 then 0
    else
      var k := LatestIndex(events[..|events| - 1]);
      if events[|events| - 1].date >= events[k].date then |events| - 1 else k
  }

  /**
   * `[e for e in events if state == 'post']`: the finished events, each as
   * often as it occurs, in schedule order.
   */
  function FinishedEvents(events: seq<Event>): (c: seq<Event>)
    ensures forall e :: e in c <==> e in events && e.state == Some(Finished)
    ensures forall e :: multiset(c)[e] == if e.state == Some(Finished) then multiset(events)[e] else 0
    ensures |events| == 1 ==> c == if events[0].state == Some(Finished) then events else []
  {
    if events == [] then []
    else
      var rest := FinishedEvents(events[1..]);
      assert events == [events[0]] + events[1..];
      if events[0].state == Some(Finished) then [events[0]] + rest else rest
  }

  /**
   * The filter distributes over concatenation, so it keeps the schedule's
   * order: the finished events of `a` all come before those of `b`.
   */
  lemma {:induction false} FinishedEventsSplit(a: seq<Event>, b: seq<Event>)
    ensures FinishedEvents(a + b) == FinishedEvents(a) + FinishedEvents(b)
  {
    if a == [] {
      assert a + b == b;
    } else {
      assert (a + b)[0] == a[0];
      assert (a + b)[1..] == a[1..] + b;
      FinishedEventsSplit(a[1..], b);
    }
  }

  /**
   * The last completed event of a schedule (None when the fetch failed, an
   * event lacks its state, or nothing is finished).
   */
  function LastFinished(schedule: Option<seq<Event>>): (r: Option<Event>)
    ensures r.Some? <==> schedule.Some?
                         && (forall e :: e in schedule.value ==> e.state.Some?)
                         && (exists e :: e in schedule.value && e.state == Some(Finished))
    ensures r.Some? ==> r.value in schedule.value && r.value.state == Some(Finished)
    ensures r.Some? ==> forall e :: e in schedule.value && e.state == Some(Finished) ==> e.date <= r.value.date
  {
    if schedule.None? then None
    else if exists e :: e in schedule.value && e.state.None? then None
    else
      var c := FinishedEvents(schedule.value);
      if c == [] then None
      else
        var k := LatestIndex(c);
        assert c[k] in c;
        assert forall e :: e in schedule.value && e.state == Some(Finished) ==> e.date <= c[k].date by {
          forall e | e in schedule.value && e.state == Some(Finished) ensures e.date <= c[k].date {
            assert e in c;
            var j :| 0 <= j < |c| && c[j] == e;
          }
        }
        Some(c[k])
  }

  /**
   * `competitors[0]` is "us" when its id is Arsenal's, otherwise
   * `competitors[1]` is; the other one is the opponent.
   */
  function OrderCompetitors(cs: seq<Competitor>): (r: (Competitor, Competitor))
    requires |cs| >= 2
    ensures multiset{r.0, r.1} == multiset{cs[0], cs[1]}
    ensures cs[0].id == TeamId || cs[1].id == TeamId ==> r.0.id == TeamId
    ensures cs[0].id == TeamId ==> r == (cs[0], cs[1])
    ensures cs[0].id != TeamId ==> r == (cs[1], cs[0])
  {
    if cs[0].id == TeamId then (cs[0], cs[1]) else (cs[1], cs[0])
  }

  /** One boxscore statistic tagged with whether it belongs to Arsenal's team entry. */
  datatype Reading = Reading(ours: bool, stat: Stat)

  function Tagged(t: TeamBox): (rs: seq<Reading>)
    ensures |rs| == |t.stats|
    ensures forall j :: 0 <= j < |rs| ==> rs[j] == Reading(t.teamId == TeamId, t.stats[j])
  {
    seq(|t.stats|, j requires 0 <= j < |t.stats| => Reading(t.teamId == TeamId, t.stats[j]))
  }

  lemma TaggedPrefix(t: TeamBox, j: nat)
    requires j < |t.stats|
    ensures Tagged(t)[..j + 1] == Tagged(t)[..j] + [Reading(t.teamId == TeamId, t.stats[j])]
  {
    assert Tagged(t)[j] == Reading(t.teamId == TeamId, t.stats[j]);
  }

  /** All statistics of the boxscore in the order the nested loops visit them. */
  function Readings(box: seq<TeamBox>): seq<Reading> {
    if box == [] then [] else Readings(box[..|box| - 1]) + Tagged(box[|box| - 1])
  }

  /** The display value of the last statistic called `name` on side `ours`, if any. */
  function LastReading(rs: seq<Reading>, ours: bool, name: string): Option<Numeral> {
    if rs == [] then None
    else
      var r := rs[|rs| - 1];
      if r.ours == ours && r.stat.name == name then Some(r.stat.display)
      else LastReading(rs[..|rs| - 1], ours, name)
  }

  predicate IsGoal(d: Detail) {
    d.kind == Some("Goal")
  }

  predicate HasGoal(details: seq<Detail>) {
    exists d :: d in details && IsGoal(d)
  }

  function GoalCount(details: seq<Detail>): nat {
    if details == [] then 0
    else GoalCount(details[..|details| - 1]) + (if IsGoal(details[|details| - 1]) then 1 else 0)
  }
}
