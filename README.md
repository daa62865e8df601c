# Gunner Bot: a verified model of its decision and layout logic

Gunner Bot posts Arsenal's full-time results to Bluesky as a 1080x1350
infographic with a caption. The repository has two one-shot variants of the
bot, `app.py` and `Gunner_Bot.py`. Each one fetches the club's ESPN
schedule, picks the last completed match, reads that match's summary into a
flat record, and decides whether the result is fresh and not yet posted. If
so, it draws the infographic and publishes it. The account's own feed is the
only ledger: a recent post that carries the opponent's name and the
"Full Time" marker means the result is already out.

This project models three pieces of each variant, in Dafny:

- **The publication gate** (`main` and its helpers), as a pure decision over
  already-fetched values. The inputs are the schedule, the extracted record
  (app.py) or the summary it comes from (Gunner_Bot.py), the login state, the
  feed and the clock. Time is whole seconds.
- **Record extraction** (`get_match_stats_espn`), over datatypes standing in
  for the decoded JSON. It covers which competitor is Arsenal, the
  statistic-name chain, the goal split and the minute formatting. The
  boxscore and timeline loops are methods proved against the functions that
  specify them.
- **The layout arithmetic of `create_match_image`**, as the list of draw
  calls the function issues. Fonts enter only as an uninterpreted measuring
  function, `Metrics`, standing in for `textbbox`. Coordinates are reals.

Modules:

- `Wrappers`, `Strings`: an `Option` type and the Python string operations
  used: `in`, `lower()`, `str(int)` and `split(":")[0]`.
- `Espn`: the decoded documents, plus the selection logic both scripts share:
  - the last completed event;
  - competitor ordering;
  - the order in which statistics are read;
  - goal events.
- `Canvas`: draw operations and the helpers both scripts share:
  - `draw_pill_bar`;
  - the placement arithmetic of `paste_logo_centered`;
  - measure-then-centre text;
  - badge anchors;
  - the scorer-column loop;
  - bar lengths.
- `Publish`: the caption, its "Full Time" marker and the feed page.
- `AppStats`, `AppLayout`, `AppGate`: app.py.
- `GunnerStats`, `GunnerLayout`, `GunnerGate`: Gunner_Bot.py.

Behaviours of the code worth knowing:

- When the feed cannot be read, both variants answer "not posted" and go on
  to post, although skipping would be the safe choice
  (`AppGate.UnreadableFeedStillPosts`).
- Gunner_Bot.py accepts a match whose date lies in the future; it has no
  lower bound on age (`GunnerGate.FreshMatch`).
- Gunner_Bot.py compares the opponent's name case-sensitively
  (`GunnerGate.CaseMattersForDuplicates`).
- app.py cannot list any goal scorer at all (see Findings).

## Model

| member | source | states |
|---|---|---|
| Espn.Trunc | app.py:77 | `int()` of a float truncates toward zero: the result is within 1 of its argument, on the zero side |
| Espn.LatestIndex | app.py:205-206 | the index after a stable sort by date then `[-1]`: a maximal date, with every later event strictly earlier |
| Espn.FinishedEvents | app.py:203 | exactly the finished events are kept, each as often as the schedule lists it and no unfinished one; a one-event schedule is kept or emptied |
| Espn.FinishedEventsSplit | app.py:203 | the filter distributes over concatenation, so the finished events keep their schedule order |
| Espn.LastFinished | app.py:203-206 | a completed event is chosen iff the schedule was read, every event has a state and one is `post`; the chosen event is finished and no finished event is later |
| Espn.OrderCompetitors | app.py:219-222 | the same two competitors, in the listed order when the first id is Arsenal's and swapped otherwise, so Arsenal comes first whenever either is Arsenal (Gunner_Bot.py:189-190 is identical) |
| Strings.Lower | app.py:301 | `lower()` keeps the length |
| Strings.LowerKeepsContains | app.py:301 | a substring stays a substring once both strings are lower-cased |
| Strings.IntToString | app.py:147 | `str()` of an integer: a minus sign exactly for a negative number, then a decimal numeral without leading zeros whose value is the magnitude |
| Strings.IntToStringRoundTrip | app.py:147 | `int(str(i)) == i`: the printed text reads back as the same integer |
| Strings.UpTo | app.py:257 | `split(":")[0]`: a prefix without `:`, followed by `:` whenever it is shorter than the text |
| Publish.Caption | app.py:403 | the caption starts with the "Full Time" marker and contains the opponent's name (Gunner_Bot.py:295 is identical) |
| Publish.CaptionNamesOpponentCaseless | app.py:301 | a caption still contains its opponent after both are lower-cased, as the duplicate test compares them |
| Publish.Recent | app.py:287 | the feed page for `limit`: the newest `min(limit, n)` posts, in order |
| Canvas.Centred | app.py:193-194 | measure-then-place: the measured box of the text is centred on `cx` |
| Canvas.PillBar | app.py:67-71 | the full track `[x, x+width]` with radius `height/2` is always drawn; an active segment over the same rows, from the same left end, with the same radius, only for a positive percentage, at least as wide as the bar is high and as `width*pct/100` (Gunner_Bot.py:71-75 is identical) |
| Canvas.PillActiveWidth | app.py:70-71 | the active segment is exactly `max(height, width*pct/100)` wide |
| Canvas.PillActiveWithinTrack | app.py:67-71 | for `0 < pct <= 100` on a track at least as long as it is high, the active segment stays inside the track, and is exactly proportional once wider than the minimum |
| Canvas.BarLength | app.py:179-180 | `min((v/max_val)*100, 100)` is at most 100, and not negative for a non-negative value |
| Canvas.BarsShareTrack | app.py:177-180 | with `max(a+b, floor)` as denominator, both bars are exactly proportional, sum to at most 100, and to exactly 100 once `a+b` reaches the floor |
| Canvas.PasteCentred | app.py:75-81 | the badge is pasted at the target height, with the truncated top-left corner that centres it within one unit on its anchor |
| Canvas.PasteKeepsAspect | app.py:75-77 | the pasted width is the target height times the logo's aspect ratio, truncated |
| Canvas.Badge | app.py:106-109 | a badge is pasted exactly when its logo was fetched |
| Canvas.Anchors | app.py:107-109 | the badge anchors are `cx - sw/2 - 120` and `cx + sw/2 + 120`: mirror images about `cx`, `sw + 240` apart |
| Canvas.DrawGoalLines | app.py:113-128 | the goal loop with `if i > 3: break`: the first four lines at most, in order, line `i` centred on the anchor at `top + step*i` |
| AppStats.ReadValue | app.py:240-241 | `float(v) if "." in v else int(v)`: an integer literal stays an integer, a literal with a `.` becomes a float, each with its value; text neither accepts gives integer 0 |
| AppStats.AsInt | app.py:243-246 | `int(val)`: an integer is kept, a float truncated toward zero |
| AppStats.Record | app.py:243-247 | the `if/elif` chain stores a counted statistic truncated to `int` and `expectedGoals` as read, ignores other names, and leaves every other field unchanged |
| AppStats.TallyKeepsLastReading | app.py:237-247 | after the loops, each field holds the value of the last statistic of its name for its side, or its initial value |
| AppStats.ReadTeam | app.py:238-247 | the inner loop over one team's statistics continues the fold of the record chain from the sides produced so far |
| AppStats.ReadBoxscore | app.py:236-247 | the nested boxscore loops compute the fold of the record chain over the statistics in visiting order |
| AppStats.MinuteText | app.py:256-257 | the minute is a prefix of the clock with no `:`, and stops right at the first `:` |
| AppStats.GoalLineShape | app.py:252-258 | a goal line is the scorer (or "Unknown") and a space, then the minute, a prefix of the clock without `:`, and a closing `'` |
| AppStats.GoalsPartition | app.py:249-260 | every goal of the timeline is listed exactly once, for Arsenal or for the opponent |
| AppStats.CollectGoals | app.py:249-260 | the intended timeline loop lists the goals per side, in timeline order, as "{scorer} {minute}'" |
| AppStats.CollectGoalsAsWritten | app.py:249-264 | the loop as written fails at the first goal, and otherwise leaves both lists empty |
| AppStats.NoGoalsNoLines | app.py:249-260 | a timeline without goals lists no scorer on either side |
| AppStats.MatchStats | app.py:213-234 | a record exists iff the summary was read, the match is `post` and two competitors are listed; opponent name, both scores and both logos come from the competitor whose id is Arsenal's and the other one, in either listed order; the sides are the fold of the record chain over the boxscore; the goal lists are the intended per-side split; it keeps the kickoff |
| AppStats.GetMatchStats | app.py:209-261 | the extraction with the goal split corrected computes `MatchStats` |
| AppStats.MatchStatsAsWritten | app.py:249-264 | the NameError at the first goal is caught by the handler, so a read summary with a goal yields None and any other summary yields `MatchStats` |
| AppStats.GetMatchStatsAsWritten | app.py:209-264 | the extraction as written computes `MatchStatsAsWritten`: nothing for any summary with a goal, and `MatchStats` otherwise |
| AppStats.GoalMatchIsDropped | app.py:259 | a finished 1-0 match with a 45:00 Arsenal goal has the record `["Saka 45'"]` under the intended reading, and as written it has a goal, so it yields no record |
| AppLayout.ShownText | app.py:182-188 | `str(v)`: a possession cell prints its integer followed by `%`, a count prints its integer, an xG value its float text |
| AppLayout.Magnitude | app.py:168-169 | `float(str(v).replace("%", ""))`: a possession cell reads as its percentage, a count or xG value as its number |
| AppLayout.MagnitudeReadsShown | app.py:168-169 | the bar value is the integer printed beside the bar, without its `%` |
| AppLayout.Balance | app.py:138-144 | for a positive sum other than 100, the pair is brought to exactly 100 by changing only the larger value (Arsenal's on a tie); otherwise nothing changes; values in [0, 100] stay there |
| AppLayout.StatsData | app.py:137-159 | the in-place rebalancing and the `insert(1, ...)` produce `Rows` |
| AppLayout.Rows | app.py:150-159 | the rows are POSSESSION, EXPECTED GOALS only when both sides report xG, SHOTS, ON TARGET, CORNERS; only possession is a percentage row and it holds the rebalanced pair; the xG row holds both xG values; the three count rows hold both sides' shots, shots on target and corners |
| AppLayout.Scale | app.py:172-177 | `max_val` is exactly `max(a+b, 3.0)` when the label holds "xG", else exactly 100 for a percentage row, else exactly `max(a+b, 15)` |
| AppLayout.RowScales | app.py:172-177 | each row of the graphic gets 100 for possession, `max(a+b, 3.0)` for xG and `max(a+b, 15)` for counts |
| AppLayout.RowTexts | app.py:164-188 | a row is seven draw calls, eight when the opponent's length is positive: the heading centred 35 above, the left value in red at `cx - 20 - bar_w - 50`, 8 above, and the right value 20 after the right track |
| AppLayout.RowBars | app.py:183-185 | the left track drawn twice by the full-length pill bar, and the red bar `act_w = len_a/100*bar_w` wide ending at `cx - 20` with radius 10 |
| AppLayout.RightTrack | app.py:187 | the right track is the full bar width from `cx + 20` |
| AppLayout.OpponentBar | app.py:187 | for a positive `len_o`, the segment over the right track is `max(20, bar_w*len_o/100)` wide from `cx + 20` |
| AppLayout.RedBarWithinTrack | app.py:184-185 | a red bar of length in [0, 100] lies inside the left track and ends at its right edge |
| AppLayout.RowLengthsInRange | app.py:179-180 | for non-negative values both `len_a` and `len_o` lie in [0, 100] |
| AppLayout.DrawRows | app.py:161-189 | row `k` is the row drawing of `stats_data[k]` at `y = 770 + 110k` |
| AppLayout.RowsFitStatsCard | app.py:130-189 | for the row drawn at `RowY(k)` for entry `k` of `Rows`, the label's anchor lies below 620 and both tracks end at or above 1230; with xG, the fifth row's tracks end exactly on 1230 |
| AppLayout.CreateMatchImage | app.py:84-195 | the score card exactly: the container at `[40, 40, 1040, 590]`, "FULL TIME" at `(80, 80)` in gold, and the score centred on `(cx, cy)` (`cy - h/1.5`); the stats container at `[40, 620, 1040, 1230]`; badges and up to four scorers per side at the measured anchors (`cy + 110 + 35i`), the centred header, one row per entry of `Rows` at `770 + 110k`, and the centred footer |
| AppGate.CheckIfAlreadyPosted | app.py:281-307 | the scan answers True iff there is a session, the feed was read, and one of the ten newest texts contains the opponent ignoring case and "Full Time" respecting it |
| AppGate.InWindow | app.py:380-389 | `0 <= minutes since kickoff + 115 <= 1440` is exactly `kickoff + 6900 <= now <= kickoff + 93300` in seconds |
| AppGate.Decide | app.py:355-414 | each outcome holds exactly when the checks before it pass and its own fails, in source order: no fixture, no record, unparsable date, outside the window, already posted (only with a session), then posting with a session or a dry run without one, with the caption for the record |
| AppGate.FreshResultIsPosted | app.py:389-406 | a fixture, an in-window record, a session and no post among the ten newest naming the opponent in any case lead to posting the caption |
| AppGate.GoalMatchNeverPosted | app.py:369-372 | fed the record as app.py computes it, a match with a goal is never posted or dry-run, and stops at "Could not fetch match stats." once a fixture exists |
| AppGate.CaptionInFeedSkips | app.py:393-395 | a caption for this opponent, with any score, among the ten newest posts turns a post into a skip |
| AppGate.RerunAfterPostSkips | app.py:393-403 | after posting caption `c`, a re-run whose newest post is `c` skips as already posted or as outside the window, at any time |
| AppGate.UnreadableFeedStillPosts | app.py:305-307 | an unreadable feed decides exactly as an empty one, so the run posts |
| GunnerStats.ValueOf | Gunner_Bot.py:206-207 | `int(float(v))`: integers as read, decimals truncated toward zero, 0 for text that does not convert |
| GunnerStats.Record | Gunner_Bot.py:208-211 | one of the four names stores the value in its field; any other name changes nothing; no other field changes |
| GunnerStats.TallyKeepsLastReading | Gunner_Bot.py:203-211 | each counted field holds the value of the last statistic of its name for its side, or 0 |
| GunnerStats.ReadTeam | Gunner_Bot.py:204-211 | the inner loop over one team's statistics continues the fold of the record chain from the sides produced so far |
| GunnerStats.ReadBoxscore | Gunner_Bot.py:202-211 | the nested boxscore loops compute the fold of the record chain |
| GunnerStats.GoalLine | Gunner_Bot.py:216-219 | a goal line is the scorer (or "Unknown"), a space, and the clock text exactly as given, with no minute mark |
| GunnerStats.GoalsPartition | Gunner_Bot.py:212-221 | every goal is listed exactly once, for Arsenal or the opponent |
| GunnerStats.CollectGoals | Gunner_Bot.py:212-221 | goals in timeline order go to Arsenal's list iff their team id is Arsenal's, as "{scorer} {clock}" unmodified |
| GunnerStats.MatchStats | Gunner_Bot.py:186-222 | a record exists iff the summary was read and lists two competitors, with no check of the match state; opponent name, both scores and both logos come from the competitor whose id is Arsenal's and the other one, in either listed order; the sides are the fold of the record chain over the boxscore; the goal lists are the per-side split |
| GunnerStats.GetMatchStats | Gunner_Bot.py:182-223 | the extraction computes `MatchStats` |
| GunnerLayout.Rows | Gunner_Bot.py:125 | exactly four rows in fixed order; possession is kept as read; each row pairs the two sides' values of its statistic |
| GunnerLayout.Scale | Gunner_Bot.py:131 | `max_val` is exactly 100 for possession and exactly `max(a+b, 15)` otherwise: 15 below that sum, the sum from it on |
| GunnerLayout.CountBarsShareTrack | Gunner_Bot.py:131-133 | two non-negative counts share the track in proportion, and fill it once their sum reaches 15 |
| GunnerLayout.RowTexts | Gunner_Bot.py:129-141 | a row is seven draw calls, eight when the opponent's length is positive: the heading centred 45 above; the left value in red, 15 above, right-aligned to end 20 before its track whatever its width; the right value 20 after the right track at the same height |
| GunnerLayout.RowBars | Gunner_Bot.py:137-140 | the full-length left pill bar; the red bar `len_a/100*bar_w` wide ending at `cx - 20`, inside the left track for a length in [0, 100]; the right pill bar for `len_o` from `cx + 20` |
| GunnerLayout.RowLengthsInRange | Gunner_Bot.py:132-133 | for non-negative values both `len_a` and `len_o` lie in [0, 100] |
| GunnerLayout.DrawRows | Gunner_Bot.py:126-142 | row `k` is the row drawing of `stats_data[k]` at `y = 760 + 120k` |
| GunnerLayout.RowsFitStatsCard | Gunner_Bot.py:122-142 | for the row drawn at `RowY(k)` for each of the four entries, the label's anchor lies below 620 and both tracks end at or above 1230 |
| GunnerLayout.CreateMatchImage | Gunner_Bot.py:88-148 | the score card exactly: the container at `[40, 40, 1040, 590]`, "FULL TIME" at `(80, 80)` in gold, and the score centred on `(cx, cy)` (`cy - h/1.5`); badges and up to four scorers per side at the measured anchors (`cy + 120 + 45i`, body font), the header at `cx - 140`, the four rows at `760 + 120k`, and the centred footer |
| GunnerGate.FreshMatch | Gunner_Bot.py:159-179 | the last completed event's id is returned iff at most 10800 seconds have passed since its date; a future date passes |
| GunnerGate.HasAlreadyPosted | Gunner_Bot.py:231-242 | the scan answers True iff the feed was read and one of the five newest texts contains the opponent and "Full Time" (case-sensitive), with every newer post having a text |
| GunnerGate.Run | Gunner_Bot.py:262-296 | each exit holds exactly when the checks before it pass and its own fails, in source order: missing secrets, no fresh match, no record, login failure, already posted, then posting the caption for the record; exit code 1 exactly for missing secrets and login failure |
| GunnerGate.FreshResultIsPosted | Gunner_Bot.py:270-296 | secrets, a fresh match, a summary with two competitors, a login and no post among the five newest naming the opponent lead to posting the caption |
| GunnerGate.CaptionInFeedSkips | Gunner_Bot.py:286-288 | a caption for this opponent among the five newest posts, behind posts that all have text, makes the run skip |
| GunnerGate.RerunAfterPostSkips | Gunner_Bot.py:286-296 | after posting caption `c`, a re-run whose newest post is `c` skips as already posted or as having no fresh match |
| GunnerGate.TextlessNewestPostHidesFeed | Gunner_Bot.py:237-242 | a newest post without text ends the scan with False, whatever follows it |
| GunnerGate.CaseMattersForDuplicates | Gunner_Bot.py:239 | the caption for "Chelsea" matches "Chelsea", but one for "CHELSEA" does not |

## Left out

- HTTP is not modelled. This covers the ESPN schedule and summary fetches and Bluesky's `createSession`, `getAuthorFeed`, `uploadBlob` and `createRecord`. Their decoded results are inputs instead: `Option<seq<Event>>`, `SummaryResponse`, the login flag, `History`.
- Publishing is not modelled. A failed post is printed and swallowed in app.py, and crashes Gunner_Bot.py; `Posted` stands for the attempt.
- Font loading, `get_image_from_url`, `textbbox` and all PIL pixel work are not modelled. Pixel work means the outline dilation, the LANCZOS resize, `paste` and `save`. Fonts are an uninterpreted `Metrics` function. A logo is its size. The outline keeps the image size, so the placement does not change.
- Datetime parsing and `now()` are not modelled. Kickoff, event dates and the clock are integer seconds. A kickoff that `fromisoformat` rejects is `None`.
- Espn.LastFinished: orders events by their time rather than by their ISO date text. The two orders agree for ESPN's uniform format. Gunner_Bot.py's `strptime` failure, which makes the selection answer None, is not modelled.
- AppStats.ReadValue: `displayValue` is taken as already classified into an integer literal, a literal with a `.`, or text that does not convert. Python's full numeric syntax (`"1e3"`, `"nan"`, `"inf"`) is not modelled.
- GunnerStats.ValueOf: models `int(float(v))` (Gunner_Bot.py:206-207) over the same pre-classified `displayValue`. Python's `float` also accepts forms such as `"1e3"`, which gives 1000, so `int(float(v))` there yields 1000. The model does not parse the text: such a value must arrive already classified (as `Integer(1000)`), and `"nan"` or `"inf"`, on which `int` raises and the code stores 0, must arrive as `NotNumeric`.
- AppLayout.RowsFitStatsCard: bounds only the label's anchor and the two tracks of each row, not the value texts. The fifth row's values are drawn at y 1202 (app.py:181, app.py:188) in the 36-px number font, so with a typical ascent their glyphs probably extend a few pixels past the card's bottom edge at 1230. Font metrics are not modelled, so the model says nothing either way. The same holds for GunnerLayout.RowsFitStatsCard.
- AppStats.MatchStats: a competitor without a `logos` list raises in the source and drops the whole record; here a missing logo is simply `None`. The same holds for GunnerStats.MatchStats.
- AppStats.GoalLine: a goal event with an empty `participants` list raises `IndexError` and drops the record in both scripts. The model treats it as a missing scorer, "Unknown". The same holds for GunnerStats.GoalLine.
- AppLayout.Shown: `str()` of a float xG value is kept abstract as `FloatText`, not rendered to digits.
- Canvas.BarsShareTrack: Python floats are taken as exact reals, so the claims ignore rounding.
- AppGate.Decide: takes the record `get_match_stats_espn` returned as a parameter rather than fetching it. app.py's `main` passes the function as written, `AppStats.MatchStatsAsWritten`, under which every match with a goal stops at `NoStats` and is never posted (`AppGate.GoalMatchNeverPosted`). The intended behaviour is `Decide` applied to `AppStats.MatchStats`, as the finding below describes. Drawing and saving the image are not modelled as steps that can fail. In app.py they run at app.py:399-401, inside the `try` opened at app.py:375, whose handler at app.py:413-414 only reports the error. So when saving fails (for instance a `/` in the opponent's name, as in "Bodo/Glimt", makes `result_{opponent}.png` an invalid path), the run ends without posting, even in a dry run, whereas `Decide` answers `Posted` or `DryRun`. Gunner_Bot.py saves to the fixed name `result.png` and has no handler there: a failure while drawing or saving at Gunner_Bot.py:292-293 ends the script with an uncaught error, whereas `GunnerGate.Run` answers `Posted`.
- AppGate.Decide: the `print` calls and `sys.exit` are not modelled. The image file name is not modelled either. The same holds for GunnerGate.Run, whose exit status is given by `Exit.Code`.
- Strings.Lower: `lower()` is modelled for ASCII letters only.

## Findings

| source | as written | input that shows it | evidently intended | confidence | as-written member | corrected member |
|---|---|---|---|---|---|---|
| app.py:259 | the goal loop tests `team_id`, a name never bound in `get_match_stats_espn`; the resulting NameError is caught at app.py:262-264, so the function returns None | any finished match whose timeline holds a goal, e.g. a 1-0 with one "Goal" event by team 359 at "45:00" | read the event's team id (`e.get('team', {}).get('id')`, as Gunner_Bot.py:218 does) and split the goals by it | high (not executed) | AppStats.GetMatchStatsAsWritten | AppStats.GetMatchStats |
