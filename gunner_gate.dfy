/**
 * The one-shot run of Gunner_Bot.py's `main`: secrets, a match finished
 * within the last three hours, its stats, a login, the duplicate scan of the
 * five newest posts, and the post; each early stop ends with its exit code.
 */
module GunnerGate {
  import opened Wrappers
  import opened Strings
  import opened Espn
  import opened Publish
  import opened GunnerStats

  /** `getAuthorFeed` is asked for this many posts. */
  const HistoryLimit: nat := 5
  /** A finished match is news for three hours after its kickoff date. */
  const FreshSeconds: int := 10800

  /** How `main` ends. */
  datatype Exit =
    | MissingSecrets        // "Secrets missing.", exit 1
    | NoFreshMatch          // "No matches finished in the last 3 hours.", exit 0
    | NoStats               // `if not stats: return`
    | LoginFailed           // "Login Failed", exit 1
    | AlreadyPosted         // "Already posted results for ...", exit 0
    | Posted(caption: string)
  {
    /** The process exit status. */
    function Code(): int {
      if this == MissingSecrets || this == LoginFailed then 1 else 0
    }
  }

  /**
   * `get_todays_finished_match_espn`: the id of the last completed event,
   * unless more than three hours have passed since its date. A date after
   * `now` is not rejected.
   */
  function FreshMatch(schedule: Option<seq<Event>>, now: int): (id: Option<string>)
    ensures id.Some? <==> LastFinished(schedule).Some? && now - LastFinished(schedule).value.date <= FreshSeconds
    ensures id.Some? ==> id.value == LastFinished(schedule).value.id
  {
    match LastFinished(schedule)
    case None => None
    case Some(last) => if now - last.date > FreshSeconds then None else Some(last.id)
  }

  /** The test of line 239: the opponent and the marker, both case-sensitive. */
  predicate IsDuplicate(text: string, opponent: string) {
    Contains(text, opponent) && Contains(text, Marker)
  }

  /**
   * What `has_already_posted` answers: True iff the readable feed holds,
   * among its five newest posts, one whose text matches and before which
   * every post has a text (a post without one raises, and the handler
   * answers False).
   */
  predicate FeedShowsResult(history: History, opponent: string) {
    history.Feed?
    && var feed := Recent(history.posts, HistoryLimit);
       exists i :: 0 <= i < |feed| && feed[i].text.Some? && IsDuplicate(feed[i].text.value, opponent)
                   && forall j :: 0 <= j < i ==> feed[j].text.Some?
  }

  /** `has_already_posted`: the scan with early returns; a non-200 status or an exception answers False. */
  method HasAlreadyPosted(history: History, opponent: string) returns (found: bool)
    ensures found == FeedShowsResult(history, opponent)
  {
    if history.Unreachable? {
      return false;
    }
    var feed := Recent(history.posts, HistoryLimit);
    var i := 0;
    while i < |feed|
      invariant 0 <= i <= |feed|
      invariant forall k :: 0 <= k < i ==> feed[k].text.Some? && !IsDuplicate(feed[k].text.value, opponent)
    {
      if feed[i].text.None? {
        return false;
      }
      var text := feed[i].text.value;
      if Contains(text, opponent) && Contains(text, Marker) {
        return true;
      }
      i := i + 1;
    }
    return false;
  }

  /** Both secrets are set. */
  predicate HasSecrets(handle: string, password: string) {
    handle != "" && password != ""
  }

  /** `get_todays_finished_match_espn` returned a non-empty id. */
  predicate HasFreshMatch(schedule: Option<seq<Event>>, now: int) {
    FreshMatch(schedule, now).Some? && FreshMatch(schedule, now).value != ""
  }

  /**
   * `main`, with the two secrets (absent ones read as ""), the schedule, the
   * summary fetched for the chosen match, the login result, the feed and the
   * clock given as values. Each exit holds exactly when the checks before it
   * pass and its own check fails, in the order the source makes them.
   */
  function Run(handle: string, password: string, schedule: Option<seq<Event>>, summary: SummaryResponse,
               loginOk: bool, history: History, now: int): (r: Exit)
    ensures r == MissingSecrets <==> !HasSecrets(handle, password)
    ensures r == NoFreshMatch <==> HasSecrets(handle, password) && !HasFreshMatch(schedule, now)
    ensures r == NoStats <==> HasSecrets(handle, password) && HasFreshMatch(schedule, now) && MatchStats(summary).None?
    ensures r == LoginFailed <==>
      HasSecrets(handle, password) && HasFreshMatch(schedule, now) && MatchStats(summary).Some? && !loginOk
    ensures r == AlreadyPosted <==>
      HasSecrets(handle, password) && HasFreshMatch(schedule, now) && MatchStats(summary).Some? && loginOk
      && FeedShowsResult(history, MatchStats(summary).value.opponent)
    ensures r.Posted? <==>
      HasSecrets(handle, password) && HasFreshMatch(schedule, now) && MatchStats(summary).Some? && loginOk
      && !FeedShowsResult(history, MatchStats(summary).value.opponent)
    ensures r.Posted? ==> var stats := MatchStats(summary).value;
      r.caption == Caption(stats.teamScore, stats.oppScore, stats.opponent)
    ensures r.Code() == 1 <==> r == MissingSecrets || r == LoginFailed
  {
    if !HasSecrets(handle, password) then MissingSecrets
    else if !HasFreshMatch(schedule, now) then NoFreshMatch
    else
      var stats := MatchStats(summary);
      if stats.None? then NoStats
      else if !loginOk then LoginFailed
      else if FeedShowsResult(history, stats.value.opponent) then AlreadyPosted
      else Posted(Caption(stats.value.teamScore, stats.value.oppScore, stats.value.opponent))
  }

  /**
   * The publish path: secrets, a match finished within three hours whose
   * summary lists both competitors, a login, and no post among the five
   * newest naming the opponent lead to posting the result's caption.
   */
  lemma FreshResultIsPosted(handle: string, password: string, schedule: Option<seq<Event>>, summary: SummaryResponse,
                            posts: seq<Post>, now: int)
    requires HasSecrets(handle, password) && HasFreshMatch(schedule, now)
    requires summary.Received? && |summary.summary.competitors| >= 2
    requires forall p :: p in Recent(posts, HistoryLimit) && p.text.Some? ==>
      !Contains(p.text.value, MatchStats(summary).value.opponent)
    ensures var stats := MatchStats(summary).value;
      Run(handle, password, schedule, summary, true, Feed(posts), now)
        == Posted(Caption(stats.teamScore, stats.oppScore, stats.opponent))
  {
    var feed := Recent(posts, HistoryLimit);
    var opponent := MatchStats(summary).value.opponent;
    forall i | 0 <= i < |feed| && feed[i].text.Some? ensures !IsDuplicate(feed[i].text.value, opponent) {
      assert feed[i] in feed;
    }
  }

  /**
   * The feed is the ledger: a caption for this opponent, whatever its score,
   * among the five newest posts and behind posts that all have a text, makes
   * a run skip.
   */
  lemma CaptionInFeedSkips(handle: string, password: string, schedule: Option<seq<Event>>, summary: SummaryResponse,
                           posts: seq<Post>, now: int, i: nat, a: string, o: string)
    requires Run(handle, password, schedule, summary, true, Feed([]), now).Posted?
    requires i < HistoryLimit && i < |posts|
    requires forall j :: 0 <= j < i ==> posts[j].text.Some?
    requires posts[i].text == Some(Caption(a, o, MatchStats(summary).value.opponent))
    ensures Run(handle, password, schedule, summary, true, Feed(posts), now) == AlreadyPosted
  {
    var feed := Recent(posts, HistoryLimit);
    assert feed[i] == posts[i];
    assert forall j :: 0 <= j < i ==> feed[j].text.Some?;
  }

  /**
   * Re-run safety: once a run has posted caption `c`, a later run that sees
   * `c` as the newest post never posts again, whatever the time.
   */
  lemma RerunAfterPostSkips(handle: string, password: string, schedule: Option<seq<Event>>, summary: SummaryResponse,
                            posts: seq<Post>, now: int, later: int)
    requires Run(handle, password, schedule, summary, true, Feed(posts), now).Posted?
    ensures var c := Run(handle, password, schedule, summary, true, Feed(posts), now).caption;
      Run(handle, password, schedule, summary, true, Feed([Post(Some(c))] + posts), later) in {AlreadyPosted, NoFreshMatch}
  {
    var c := Run(handle, password, schedule, summary, true, Feed(posts), now).caption;
    var feed := Recent([Post(Some(c))] + posts, HistoryLimit);
    assert feed[0] == Post(Some(c));
    assert IsDuplicate(c, MatchStats(summary).value.opponent);
  }

  /**
   * A newest post without a text ends the scan with False, so the run goes
   * on to post even when the result is further down the feed.
   */
  lemma TextlessNewestPostHidesFeed(posts: seq<Post>, opponent: string)
    requires |posts| > 0 && posts[0].text.None?
    ensures !FeedShowsResult(Feed(posts), opponent)
  {
    var feed := Recent(posts, HistoryLimit);
    assert feed[0] == posts[0];
  }

  /** A name with a letter the text lacks is not in the text. */
  lemma {:induction false} MissingLetterNoMatch(text: string, name: string, k: nat)
    requires k < |name| && name[k] !in text
    ensures !Contains(text, name)
  {
  }

  /**
   * The duplicate test is case-sensitive: a caption naming the opponent in
   * capitals does not match the opponent's name.
   */
  lemma CaseMattersForDuplicates()
    ensures IsDuplicate(Caption("2", "1", "Chelsea"), "Chelsea")
    ensures !IsDuplicate(Caption("2", "1", "CHELSEA"), "Chelsea")
  {
    CapitalCaptionLacksLowerH();
    MissingLetterNoMatch(Caption("2", "1", "CHELSEA"), "Chelsea", 1);
  }

  lemma CapitalCaptionLacksLowerH()
    ensures 'h' !in Caption("2", "1", "CHELSEA")
  {
    var head, middle, tail := "Full Time: Arsenal ", "2 - 1 CHELSEA", ". #COYG #Arsenal";
    assert Caption("2", "1", "CHELSEA") == head + middle + tail;
    assert 'h' !in head && 'h' !in middle && 'h' !in tail;
  }
}
