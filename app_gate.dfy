/**
 * The publication gate of app.py's `main`: from the schedule, the summary,
 * the login state, the account's feed and the clock to one outcome of the
 * run.
 */
module AppGate {
  import opened Wrappers
  import opened Strings
  import opened Espn
  import opened Publish
  import opened AppStats

  /** `getAuthorFeed` is asked for this many posts. */
  const HistoryLimit: nat := 10
  /** A match is assumed to end 115 minutes after kickoff. */
  const AssumedDurationSeconds: int := 115 * 60
  /** The result is news for 1440 minutes after that assumed end. */
  const WindowMinutes: real := 1440.0

  /** What `main` ends up doing. */
  datatype Outcome =
    | NoCompletedGame      // "No completed games found."
    | NoStats              // "Could not fetch match stats."
    | BadDate              // the match date does not parse
    | OutsideWindow        // "too old (> 24 hours) or in future"
    | AlreadyPosted        // "Already posted this result."
    | DryRun(caption: string)
    | Posted(caption: string)

  /** `item.get("post", {}).get("record", {}).get("text", "")` */
  function TextOf(p: Post): string {
    p.text.GetOr("")
  }

  /** The test of line 301: the opponent, ignoring case, and the marker, respecting it. */
  predicate IsDuplicate(text: string, opponent: string) {
    Contains(Lower(text), Lower(opponent)) && Contains(text, Marker)
  }

  /** What `check_if_already_posted` answers: only with a session, a readable feed, and a match among its newest posts. */
  predicate FeedShowsResult(loggedIn: bool, history: History, opponent: string) {
    loggedIn && history.Feed?
    && exists i :: 0 <= i < |Recent(history.posts, HistoryLimit)|
                   && IsDuplicate(TextOf(Recent(history.posts, HistoryLimit)[i]), opponent)
  }

  /** `check_if_already_posted`: the scan with early return; no session or a failed request answers False. */
  method CheckIfAlreadyPosted(loggedIn: bool, history: History, opponent: string) returns (found: bool)
    ensures found == FeedShowsResult(loggedIn, history, opponent)
  {
    if !loggedIn || history.Unreachable? {
      return false;
    }
    var feed := Recent(history.posts, HistoryLimit);
    var i := 0;
    while i < |feed|
      invariant 0 <= i <= |feed|
      invariant forall k :: 0 <= k < i ==> !IsDuplicate(TextOf(feed[k]), opponent)
    {
      var text := TextOf(feed[i]);
      if Contains(Lower(text), Lower(opponent)) && Contains(text, Marker) {
        return true;
      }
      i := i + 1;
    }
    return false;
  }

  /**
   * `0 <= time_since_end <= 1440`, the minutes since kickoff + 115 minutes:
   * in whole seconds, from 6900 to 93300 seconds after kickoff.
   */
  predicate InWindow(kickoff: int, now: int)
    ensures InWindow(kickoff, now) <==>
      kickoff + AssumedDurationSeconds <= now <= kickoff + AssumedDurationSeconds + 86400
  {
    var sinceEnd := (now - (kickoff + AssumedDurationSeconds)) as real / 60.0;
    0.0 <= sinceEnd <= WindowMinutes
  }

  /** `get_last_fixture_espn` found an event with a non-empty id. */
  predicate HasFixture(schedule: Option<seq<Event>>) {
    LastFinished(schedule).Some? && LastFinished(schedule).value.id != ""
  }

  /** The record holds a parsable kickoff whose assumed end lies within the window. */
  predicate Timely(stats: Option<MatchData>, now: int) {
    stats.Some? && stats.value.kickoff.Some? && InWindow(stats.value.kickoff.value, now)
  }

  /**
   * `main`, with the session, the schedule, the record `get_match_stats_espn`
   * returned for the chosen fixture, the feed and the clock given as values.
   * Each outcome holds exactly when the checks before it pass and its own
   * check fails, in the order the source makes them.
   */
  function Decide(loggedIn: bool, schedule: Option<seq<Event>>, stats: Option<MatchData>, history: History, now: int): (r: Outcome)
    ensures r == NoCompletedGame <==> !HasFixture(schedule)
    ensures r == NoStats <==> HasFixture(schedule) && stats.None?
    ensures r == BadDate <==> HasFixture(schedule) && stats.Some? && stats.value.kickoff.None?
    ensures r == OutsideWindow <==>
      HasFixture(schedule) && stats.Some? && stats.value.kickoff.Some? && !InWindow(stats.value.kickoff.value, now)
    ensures r == AlreadyPosted <==>
      HasFixture(schedule) && Timely(stats, now) && FeedShowsResult(loggedIn, history, stats.value.opponent)
    ensures r.Posted? <==>
      HasFixture(schedule) && Timely(stats, now) && loggedIn && !FeedShowsResult(loggedIn, history, stats.value.opponent)
    ensures r.DryRun? <==> HasFixture(schedule) && Timely(stats, now) && !loggedIn
    ensures (r.Posted? || r.DryRun?) ==>
      r.caption == Caption(stats.value.teamScore, stats.value.oppScore, stats.value.opponent)
  {
    if !HasFixture(schedule) then NoCompletedGame
    else if stats.None? then NoStats
    else if stats.value.kickoff.None? then BadDate
    else if !InWindow(stats.value.kickoff.value, now) then OutsideWindow
    else if loggedIn && FeedShowsResult(loggedIn, history, stats.value.opponent) then AlreadyPosted
    else
      var caption := Caption(stats.value.teamScore, stats.value.oppScore, stats.value.opponent);
      if loggedIn then Posted(caption) else DryRun(caption)
  }

  /**
   * The publish path: a finished fixture, a record whose kickoff is in the
   * window, a session, and no post among the ten newest naming the opponent
   * (in any case) lead to posting the result's caption.
   */
  lemma FreshResultIsPosted(schedule: Option<seq<Event>>, stats: Option<MatchData>, posts: seq<Post>, now: int)
    requires HasFixture(schedule) && Timely(stats, now)
    requires forall p :: p in Recent(posts, HistoryLimit) ==> !Contains(Lower(TextOf(p)), Lower(stats.value.opponent))
    ensures Decide(true, schedule, stats, Feed(posts), now)
            == Posted(Caption(stats.value.teamScore, stats.value.oppScore, stats.value.opponent))
  {
    var feed := Recent(posts, HistoryLimit);
    forall i | 0 <= i < |feed| ensures !IsDuplicate(TextOf(feed[i]), stats.value.opponent) {
      assert feed[i] in feed;
    }
  }

  /**
   * app.py as written: any goal in the timeline makes `get_match_stats_espn`
   * return None, so a match with a goal is never posted; the run stops with
   * "Could not fetch match stats." once a fixture is found.
   */
  lemma GoalMatchNeverPosted(loggedIn: bool, schedule: Option<seq<Event>>, summary: SummaryResponse, history: History, now: int)
    requires summary.Received? && HasGoal(summary.summary.details)
    ensures var r := Decide(loggedIn, schedule, MatchStatsAsWritten(summary), history, now);
      !r.Posted? && !r.DryRun? && (HasFixture(schedule) ==> r == NoStats)
  {
  }

  /**
   * The feed is the ledger: a caption for this opponent, whatever its score,
   * among the ten newest posts makes an in-window run skip.
   */
  lemma CaptionInFeedSkips(schedule: Option<seq<Event>>, stats: Option<MatchData>, posts: seq<Post>, now: int, i: nat, a: string, o: string)
    requires Decide(true, schedule, stats, Feed([]), now).Posted?
    requires i < HistoryLimit && i < |posts|
    requires posts[i].text == Some(Caption(a, o, stats.value.opponent))
    ensures Decide(true, schedule, stats, Feed(posts), now) == AlreadyPosted
  {
    var opponent := stats.value.opponent;
    CaptionNamesOpponentCaseless(a, o, opponent);
    assert Recent(posts, HistoryLimit)[i] == posts[i];
    assert IsDuplicate(TextOf(Recent(posts, HistoryLimit)[i]), opponent);
  }

  /**
   * Re-run safety: once a run has posted caption `c`, a later run that sees
   * `c` as the newest post never posts again, whatever the time.
   */
  lemma RerunAfterPostSkips(schedule: Option<seq<Event>>, stats: Option<MatchData>, posts: seq<Post>, now: int, later: int)
    requires Decide(true, schedule, stats, Feed(posts), now).Posted?
    ensures var c := Decide(true, schedule, stats, Feed(posts), now).caption;
      Decide(true, schedule, stats, Feed([Post(Some(c))] + posts), later) in {AlreadyPosted, OutsideWindow}
  {
    var c := Decide(true, schedule, stats, Feed(posts), now).caption;
    var data := stats.value;
    var feed := [Post(Some(c))] + posts;
    CaptionNamesOpponentCaseless(data.teamScore, data.oppScore, data.opponent);
    assert Recent(feed, HistoryLimit)[0] == Post(Some(c));
    assert IsDuplicate(TextOf(Recent(feed, HistoryLimit)[0]), data.opponent);
  }

  /**
   * When the feed cannot be read, the check answers False and the run
   * posts exactly as it would with an empty feed.
   */
  lemma UnreadableFeedStillPosts(schedule: Option<seq<Event>>, stats: Option<MatchData>, now: int)
    requires Decide(true, schedule, stats, Feed([]), now).Posted?
    ensures Decide(true, schedule, stats, Unreachable, now) == Decide(true, schedule, stats, Feed([]), now)
  {
  }
}
