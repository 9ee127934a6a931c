# Multi-agent chemistry tutor: a verified model of its decision core

This project models, in Dafny, the deterministic core of a Telegram chemistry
tutor for JEE Advanced organic chemistry. It has three parts.

**The multi-agent debate** (`multi_agent.py`). Four expert agents answer a
multiple-choice question about a problem image, each through a fallible
inference call. Round one works like this:

- Each agent rotates through its own API keys, retries with exponential
  backoff, and parses the reply text into an answer letter and a confidence.
- The orchestrator keeps the successful answers and tallies the votes.

It then decides one of three ways:

- **Unanimous**, when only one label was voted for.
- **Consensus**, when there is disagreement and the consensus agent (given a
  digest of the round) succeeds.
- **Majority vote**, when the consensus agent fails.

The result serialises to a dictionary.

**The gamification rules** (`analytics_engine.py`, `database.py`):

- points, level-up, streaks, per-topic counters with an adaptive difficulty, and
  achievements;
- the database URL rewrite, the daily streak update and the connect-retry loop.

**The tutoring rule engines:**

- the practice-problem prompt builder, parser and quiz assembly
  (`content_generator.py`);
- a static concept graph with prerequisite lookup, learning paths, bounded
  neighbourhoods and a mechanism decision tree (`knowledge_graph.py`);
- a concept dependency table with its own learning path, translation and
  bilingual lookups, offline-cache counts and greetings (`advanced_features.py`);
- Socratic questions, guided hints and cognitive-state suggestions
  (`cognitive_load.py`);
- explanation-effectiveness scoring and recommendations (`self_learning.py`);
- exam-countdown bands and the notification gate (`smart_automation.py`).

Modules follow the source files:

| Dafny module | Models |
|---|---|
| `Debate` | `multi_agent.py`'s orchestrator and `DebateResult` |
| `Agents` | `ChemistryAgent` and `ConsensusAgent` |
| `ResponseExtractor` | `_parse_response` |
| `Votes` | the vote dictionary |
| `KeyRotation` | the round-robin key index |
| `Personas` | the five agents' names and persona texts |
| `Analytics` | `analytics_engine.py` |
| `Database` | `database.py` |
| `ContentGen` | `content_generator.py` |
| `KnowledgeGraph` | `knowledge_graph.py` |
| `GraphSearch` | its breadth-first search |
| `LearningPath` | the depth-first path shared with `advanced_features.py` |
| `AdvancedFeatures` | `advanced_features.py` |
| `CognitiveLoad` | `cognitive_load.py` |
| `SelfLearning` | `self_learning.py` |
| `SmartAutomation` | `smart_automation.py` |

`Wrappers` (Option/Result) and `Text` (Python string helpers) are shared.

Where the source updates an object in place, the model is a class with
`modifies` clauses: an agent's key index, a user's record, a topic's statistics
row, the quiz generator's key index, and the table of generated problems. Where the source computes a value, the
model is a function with lemmas. Each method's result and new state are
proved equal to specification functions of its inputs and old state, in every
case, and the properties are proved about those functions.

The inference call, the image preparation, the cache's random draw, the database probe
and the clock are parameters:

- **The inference call** is a total function from a request (URL, prompt, image,
  key, attempt) to a reply or a failure.
- **Sleeps** are returned as the list of their durations.
- **Timestamps** are integer microseconds.
- **Floats** are exact reals where the source only compares them. Where every
  value taken is whole, they are integers.

Where the documentation and the code disagree, the model follows the code:

- The majority-vote tie-break is described as unspecified. The code's
  `max(votes.items(), key=…)` is deterministic: it picks the first label, in
  order of first appearance, among those with the top count. That is what
  `Debate.ConcludeByMajority` proves.
- `track_problem` stamps `last_problem_date` before `_update_streak` reads it,
  so the streak never advances. This is modelled both as written and corrected;
  see Findings.
- `track_problem` builds a new topic row with only `user_id` and `topic`, so
  its counters are `None` until the INSERT and the first `+= 1` raises. The
  handler returns -1 without checking achievements. This too is modelled as
  written and corrected; see Findings.

## Model

| member | source | states |
|---|---|---|
| Debate.ModeValue | multi_agent.py:50-55 | the value string of each debate mode; its round trip with `ModeFromValue` is stated by `ModeValueRoundTrip` |
| Debate.ModeFromValue | multi_agent.py:50-55 | a parsed mode value reads back as the same string |
| Debate.ModeValueRoundTrip | multi_agent.py:50-55 | every debate mode's value parses back to that mode |
| Debate.AgentRoundTrip | multi_agent.py:81-90 | an agent response's dictionary reads back as the same response |
| Debate.AgentsToJson | multi_agent.py:81-90 | one dictionary per agent response |
| Debate.AgentsRoundTrip | multi_agent.py:81-90 | the list of agent dictionaries reads back as the same responses |
| Debate.VotesKeys | multi_agent.py:107-127 | the votes dictionary lists the labels in table (first-seen) order |
| Debate.VotesRoundTrip | multi_agent.py:107-127 | the votes dictionary reads back as the same tally |
| Debate.VotesFromUnchanged | multi_agent.py:107-127 | adding an unrelated key does not change how the votes read back |
| Debate.ResultToJson | multi_agent.py:107-127 | `DebateResult.to_dict`; its entries are stated by `ResultEntries` and its read-back by `ResultRoundTrip` |
| Debate.ResultEntries | multi_agent.py:107-127 | `to_dict` holds the six base entries with their values; votes, agent breakdown, consensus analysis and error appear exactly when set and non-empty |
| Debate.ResultRoundTrip | multi_agent.py:107-127 | the result dictionary reads back as the result, up to empty votes and empty error text being dropped |
| Debate.ResultKeysWellFormed | multi_agent.py:107-127 | the dictionary's keys are distinct, the six base keys come first, and the keys match the entries |
| Debate.ResultKeysCoverEntries | multi_agent.py:107-127 | the keys listed are exactly the keys of the entry map |
| Debate.PutWellFormed | multi_agent.py:107-127 | setting a dictionary entry keeps keys distinct and in insertion order |
| Debate.AppendFreshKey | multi_agent.py:107-127 | inserting a new key keeps the key list distinct and keeps its prefix |
| Agents.ChemistryAgent.constructor | multi_agent.py:145-156 | the profile holds the name, persona, keys, and the config or its default; the key index starts at 0 |
| Agents.ChemistryAgent.GetNextKey | multi_agent.py:159-171 | an empty key list is an error and leaves the index unchanged; otherwise the current key is returned and the index advances modulo the key count |
| KeyRotation.Advance | multi_agent.py:159-171 | the advanced index stays below the key count |
| KeyRotation.AdvanceByIsModular | multi_agent.py:159-171 | k advances from i land at (i + k) mod n |
| KeyRotation.AdvanceByShift | multi_agent.py:159-171 | one advance followed by k more is k + 1 advances |
| KeyRotation.RoundRobinUsesEveryKey | multi_agent.py:159-171 | every key is reached within n calls, and n consecutive calls return n different keys |
| KeyRotation.RoundRobinReaches | multi_agent.py:159-171 | the key at index m is the one used after (m - i) mod n calls starting from index i |
| KeyRotation.RoundRobinDistinct | multi_agent.py:159-171 | the first n calls from any starting index use n different keys |
| Agents.BuildPrompt | multi_agent.py:321-333 | the prompt starts with the persona |
| Agents.BuildPromptRecoversContext | multi_agent.py:321-333 | an empty context returns the persona unchanged (and only then); otherwise the persona is followed by the context heading and the context |
| Agents.Pow2 | multi_agent.py:217-218 | the backoff factor 2^k is at least 1 |
| Agents.Pow2Monotone | multi_agent.py:217-218 | the backoff factor 2^k never decreases as k grows |
| Agents.BackoffNonDecreasing | multi_agent.py:217-218 | with a non-negative `retry_delay`, the sleep before a later retry is never shorter than before an earlier one |
| Agents.Run | multi_agent.py:188-238 | `_call_gemini_api` with its retries from a key index; see `RunFromAttempts`, `RunFromResponse` and `RunKeys` |
| Agents.Attempt | multi_agent.py:188-229 | one attempt keeps the key index within the key list |
| Agents.RunFrom | multi_agent.py:188-238 | the retry loop keeps the key index in range and makes one more attempt while retries remain |
| Agents.RunFromAttempts | multi_agent.py:188-238 | at most `max_retries` attempts; one sleep fewer than attempts, of `retry_delay*2^j` before retry j+1; a failed run used every attempt; `max_retries <= 0` gives "Max retries exceeded" with no attempt |
| Agents.RunFromResponse | multi_agent.py:188-238 | a success carries the parsed answer and confidence of its reasoning text; a failure is Unknown, confidence 0, empty reasoning and an error; the answer is one of A-D or Unknown and the confidence is in [0, 100] |
| Agents.RunFromKeys | multi_agent.py:188-238 | each attempt advances the agent's key index once |
| Agents.RunKeys | multi_agent.py:188-238 | after a run the key index is (start + attempts) mod key count |
| Agents.RunFromWithoutCall | multi_agent.py:199-229 | a failed image preparation or an empty key list fails without advancing the key index |
| Agents.UnreachableServiceFails | multi_agent.py:188-238 | if every call fails, the run fails |
| Agents.FirstReplyEndsRun | multi_agent.py:188-238 | a first reply settles the run in one attempt, with no sleep and one key advance |
| Agents.ChemistryAgent.Analyze | multi_agent.py:173-238 | `analyze` returns the response, the sleeps and the new key index of the modelled run |
| ResponseExtractor.SkipSeparators | multi_agent.py:349-360 | the `[\s:]*` run: only separators are skipped, and the next character is not one |
| ResponseExtractor.SkipSpaces | multi_agent.py:363-373 | the `\s*` run: only white space is skipped, and the next character is not white space |
| ResponseExtractor.SkipDigits | multi_agent.py:363-373 | the `\d+` run: only digits are taken, and the next character is not a digit |
| ResponseExtractor.LetterAt | multi_agent.py:349-360 | a letter match at a position is an option letter A-D in either case |
| ResponseExtractor.Leftmost | multi_agent.py:349-373 | `re.search` finds the leftmost match position and nothing earlier |
| ResponseExtractor.FirstLetter | multi_agent.py:349-360 | the answer patterns only yield option letters |
| ResponseExtractor.FirstMatchingRuleWins | multi_agent.py:349-360 | the first answer pattern in list order that matches decides the answer |
| ResponseExtractor.NoMatchGivesDefaults | multi_agent.py:348-375 | when no pattern matches, neither answer nor confidence is found |
| ResponseExtractor.AnswerText | multi_agent.py:349-360 | the answer is the upper-cased letter, and "Unknown" exactly when none matched |
| ResponseExtractor.ConfidenceValue | multi_agent.py:363-373 | the confidence is the matched number clamped to 100, or 80 when none matched |
| ResponseExtractor.Parse | multi_agent.py:335-375 | total: the answer is A-D or Unknown, the confidence in [0, 100] |
| ResponseExtractor.EmptyTextGivesDefaults | multi_agent.py:335-375 | an empty reply parses to Unknown with confidence 80 |
| ResponseExtractor.ParseResponse | multi_agent.py:335-375 | the pattern loops compute `Parse`, with its bounds |
| Agents.Digest | multi_agent.py:579-588 | the digest starts with its heading |
| Agents.Successes | multi_agent.py:720-736 | the filter keeps at most its input |
| Agents.SuccessesSnoc | multi_agent.py:720-736 | filtering one more response appends it exactly when it succeeded |
| Agents.SuccessesMembers | multi_agent.py:720-736 | the filtered list holds exactly the successful responses |
| Agents.DigestIgnoresFailures | multi_agent.py:579-588 | failed results contribute nothing to the digest |
| Agents.DigestEntryExcerpt | multi_agent.py:579-588 | each reasoning is cut to its first 500 characters, and shorter reasoning is kept whole |
| Agents.ConsensusPromptCarriesDigest | multi_agent.py:564-591 | the consensus prompt is the persona, the context heading and the digest |
| Agents.ChemistryAgent.BuildDigest | multi_agent.py:579-588 | the summary loop computes the digest |
| Agents.ChemistryAgent.Synthesize | multi_agent.py:564-591 | `synthesize` is `analyze` with the digest as context |
| Debate.MultiAgentDebateSystem.constructor | multi_agent.py:612-636 | four expert agents and the consensus agent, staffed with their personas, the keys and the config, each at key index 0 |
| Debate.MultiAgentDebateSystem.Create | multi_agent.py:612-621 | an empty key list is rejected with "At least one API key required"; otherwise a staffed system |
| Debate.RoundOne | multi_agent.py:720-736 | one response per agent |
| Debate.RoundOneKeys | multi_agent.py:720-736 | one new key index per agent |
| Debate.MultiAgentDebateSystem.AnalyzeExpert | multi_agent.py:720-736 | agent i answers as its own run and only its key index changes |
| Debate.MultiAgentDebateSystem.RunParallelAnalysis | multi_agent.py:720-736 | the gather is an in-order map over the agents; exactly the successful responses are kept, in agent order |
| Debate.MultiAgentDebateSystem.KeepSuccessful | multi_agent.py:729-736 | the kept responses are the successful ones, in order |
| Debate.Answers | multi_agent.py:738-747 | one answer per response, in order |
| Votes.Assign | multi_agent.py:738-747 | a dictionary assignment leaves a non-empty table |
| Votes.Labels | multi_agent.py:738-747 | the table's keys, in order |
| Votes.Tally | multi_agent.py:738-747 | a non-empty answer list gives a non-empty tally |
| Votes.LookupAssign | multi_agent.py:738-747 | an assignment changes only the assigned label's count |
| Votes.LabelsAssign | multi_agent.py:738-747 | a new label is appended last; an existing one keeps its place |
| Votes.TotalAssign | multi_agent.py:738-747 | the total changes by the difference of the assigned count |
| Votes.LookupAt | multi_agent.py:738-747 | each listed label's count is found |
| Votes.FirstSeenFacts | multi_agent.py:738-747 | first-seen order has no repeats and holds exactly the answers given |
| Votes.TallyFacts | multi_agent.py:738-747 | the keys are exactly the answers in first-seen order, each count is that answer's multiplicity, and the counts sum to the number of responses |
| Votes.TallyLabels | multi_agent.py:738-747 | the vote keys are the answers in first-seen order |
| Votes.TallyCounts | multi_agent.py:738-747 | each label's count is the number of responses giving that answer |
| Votes.TallyTotal | multi_agent.py:738-747 | the counts sum to the number of responses |
| Votes.UnanimityIsOneLabel | multi_agent.py:680-683 | the tally has one key exactly when there are answers and all of them are equal |
| Debate.MultiAgentDebateSystem.CountVotes | multi_agent.py:738-747 | the counting loop computes the tally |
| Votes.FirstMaxBy | multi_agent.py:806 | Python's `max` by key: a maximal element, with every earlier element strictly smaller |
| Votes.MajorityLabel | multi_agent.py:803-817 | the vote winner is an answer given, has the top count, and every label first seen before it has fewer votes |
| Debate.SumConfidenceBounds | multi_agent.py:807 | the confidence sum lies in [0, 100·n] |
| Debate.MeanBound | multi_agent.py:807 | the integer mean `sum // n` of in-range confidences is in [0, 100] |
| Debate.Conclude | multi_agent.py:638-704 | the decision of `analyze_problem` after round one; see `ConcludeNoSuccess`, `ConcludeUnanimous`, `ConcludeByConsensus`, `ConcludeByMajority` and `ConcludeInvariants` |
| Debate.ConcludeNoSuccess | multi_agent.py:664-673 | no successful agent gives a failed single-agent result with 0 agents used and "All agents failed" |
| Debate.SingleAgentResult | multi_agent.py:706-718 | `_single_agent_mode`'s result from the first agent's response; see `SingleAgentFastPath` |
| Debate.SingleAgentFastPath | multi_agent.py:706-718 | the fast path uses one agent, copies its success, has an answer among A-D and Unknown and a confidence in [0, 100], and is Unknown with confidence 0 on failure |
| Debate.HandleUnanimous | multi_agent.py:749-771 | `_handle_unanimous`; see `ConcludeUnanimous` |
| Debate.ConcludeUnanimous | multi_agent.py:680-771 | unanimous exactly when all successful agents agree; then that answer, every success counted, and the confidence and reasoning of the first most confident response |
| Debate.UnanimousTieExample | multi_agent.py:749-771 | two equally confident agreeing agents: the first one's reasoning wins |
| Debate.HandleDisagreement | multi_agent.py:773-817 | the result built by `_handle_disagreement`; see `ConcludeByConsensus` and `ConcludeByMajority` |
| Debate.ConcludeByConsensus | multi_agent.py:786-801 | disagreement with a successful consensus agent gives its answer, confidence and reasoning, with agents used n + 1 and the votes attached |
| Debate.ConcludeByMajority | multi_agent.py:803-817 | a failed consensus agent gives the majority vote: a top-count label first seen before any other top-count label, confidence `sum // n`, n agents used |
| Debate.MajorityExample | multi_agent.py:803-817 | votes A, A, B, A with confidences 90, 85, 70, 95 give A with confidence 85 and votes {A: 3, B: 1} |
| Debate.ConcludeInvariants | multi_agent.py:638-817 | every outcome has a confidence in [0, 100], succeeds exactly when some agent did, counts n agents plus one for consensus, and reports all successful responses |
| Debate.MultiAgentDebateSystem.AnalyzeProblem | multi_agent.py:638-704 | fast mode is the first agent's single-agent result, and only that agent's key index moves, to where its run leaves it; debate mode is the decision over round one's successes and the consensus run, every expert's key index ends where its round-one run leaves it, and the consensus agent's index moves, to where its run over the digest leaves it, exactly when it is consulted (successes that disagree) |
| Analytics.SpeedBonus | analytics_engine.py:193-197 | the speed bonus is within [0, 30] for non-negative time and 0 from 60 seconds on |
| Analytics.CalculatePoints | analytics_engine.py:173-203 | a wrong answer gets exactly 5 points, and every answer at least 5 |
| Analytics.RawPoints | analytics_engine.py:190-203 | the points before the floor of 5; see `CalculatePoints` and `PointsRules` |
| Analytics.PointsRules | analytics_engine.py:190-203 | a hint takes 10 off the pre-floor total; no speed bonus from 60 seconds; a slower answer never gets a larger speed bonus |
| Analytics.AfterSolve | analytics_engine.py:123-143 | the solved count goes up by 1, the correct count by 1 when correct, both dates are stamped, and the same points go to score and experience; nothing else changes |
| Analytics.User.UpdateUserStats | analytics_engine.py:123-143 | the user record becomes `AfterSolve` of the old one |
| Analytics.StreakAfter | analytics_engine.py:145-171 | the streak update for a gap in days; see `StreakRules` and `StreakBelowRecord` |
| Analytics.StreakRules | analytics_engine.py:145-171 | no date gives (1, 1); a gap of 0 changes nothing; a gap of 1 increments and keeps the record at least the streak; any other gap resets to 1 |
| Analytics.StreakBelowRecord | analytics_engine.py:145-171 | the streak never exceeds the record, and, for a user with a last problem date, the record never drops (a user without one gets (1, 1) whatever the record was) |
| Analytics.User.UpdateStreak | analytics_engine.py:145-171 | the user record becomes its streak update for the whole days elapsed since the last problem (`.days` of the difference) |
| Analytics.LevelUpAfter | analytics_engine.py:205-211 | `_check_level_up` on level and experience; see `LevelUpRules` |
| Analytics.LevelUpRules | analytics_engine.py:205-211 | the level rises by at most 1, exactly when experience reaches `level*100`; then that amount is taken off and experience stays non-negative; otherwise nothing changes |
| Analytics.User.CheckLevelUp | analytics_engine.py:205-211 | the user record becomes its level-up update |
| Analytics.TopicAfter | analytics_engine.py:238-256 | one attempt's update of a topic row; see `TopicRules` and `DifficultyFollowsAccuracy` |
| Analytics.TopicRules | analytics_engine.py:213-256 | attempts go up by 1, correct answers by 1 exactly when correct; the average is the floor of total time over attempts; correct ≤ attempted is kept; difficulty moves by at most 1 and not at all below 5 attempts |
| Analytics.DifficultyFollowsAccuracy | analytics_engine.py:253-256 | from 5 attempts on, accuracy above 85 raises the difficulty (capped at 10), below 50 lowers it (floored at 1), and otherwise keeps it |
| Analytics.TopicStatistics.constructor | analytics_engine.py:233-235 | `TopicStatistics(user_id=…, topic=…)`: a new row for the user and topic whose counters are unset until its INSERT writes the defaults (zero counters, difficulty 5) |
| Analytics.TopicStatistics.WithDefaults | database.py:316-326 | a new row with the column defaults set at once |
| Analytics.TopicStatistics.RecordAttempt | analytics_engine.py:238-256 | on a row with values the row becomes its updated record; on a row with unset counters the first `+= 1` fails and nothing changes |
| Analytics.UpdateTopicStatsAsWritten | analytics_engine.py:213-256 | an existing row is updated in place; a missing row is created with unset counters, the update fails, and the row stays at its defaults |
| Analytics.UpdateTopicStats | analytics_engine.py:213-256 | the corrected update: the user's row for the topic is updated in place, or created with its defaults and then updated |
| Analytics.AchievementCodes | analytics_engine.py:279-301 | the codes `_check_achievements` considers, in the source's order; see `AchievementSelection`, `MilestoneFacts`, `StreakFacts` and `MasteryFacts` |
| Analytics.AchievementSelection | analytics_engine.py:279-301 | milestone codes only at exactly 1, 100 and 500 problems; streak codes only at exactly 7, 30 and 100 days; NGP mastery only for the NGP topic |
| Analytics.MilestoneFacts | analytics_engine.py:279-301 | at most one milestone code, each chosen exactly at its problem count |
| Analytics.StreakFacts | analytics_engine.py:279-301 | at most one streak code, each chosen exactly at its streak length |
| Analytics.MasteryFacts | analytics_engine.py:279-301 | the NGP mastery code is chosen only for the NGP topic |
| Analytics.Awarded | analytics_engine.py:304-318 | after awarding, the held codes are the old ones followed by the new ones, and nothing else |
| Analytics.AwardedDistinct | analytics_engine.py:304-318 | a code is never added twice, and awarding the same codes again changes nothing |
| Analytics.AllHeldChangesNothing | analytics_engine.py:304-318 | codes the user already holds add nothing |
| Analytics.User.Award | analytics_engine.py:304-318 | only the achievements change, to `Awarded` |
| Analytics.AsWrittenStreakFrozen | analytics_engine.py:103-159 | as written, `track_problem` never changes the streak or the record |
| Analytics.AsWrittenMissesNextDay | analytics_engine.py:103-159 | as written, a problem solved the next day leaves a streak of 3 at 3 |
| Analytics.TrackProblemAsWritten | analytics_engine.py:62-121 | `track_problem` in its source order: stats stamped first, then streak and level-up; with an existing topic row the row is updated, achievements are checked and the problem id is returned; with a new row the result is -1, the row keeps its defaults and only the stats, streak and level-up remain (`SolvedAsWritten`) |
| Analytics.AsWrittenFirstSolveLost | analytics_engine.py:101-121 | as written, a user's first problem (whose topic row is always new) leaves the achievements as they were, so `first_solve` is not awarded although the user has one problem solved |
| Analytics.FirstProblemEarnsFirstSolve | analytics_engine.py:280-281 | with the new row counted, a user's first problem earns `first_solve` |
| Analytics.TrackedFollowsStreakRules | analytics_engine.py:62-171 | with the gap read before stamping, the streak follows the streak rules and a next-day solve increments it |
| Analytics.TrackProblem | analytics_engine.py:62-121 | the corrected `track_problem`: the problem id is returned, the topic row (new or not) is counted, and the user record is updated by `Tracked` |
| Analytics.WeaknessRecommendation | analytics_engine.py:361-368 | below 50 accuracy the flashcard advice, below 70 the practice advice, otherwise the edge-case advice |
| Analytics.ErrorAdviceFor | analytics_engine.py:539-551 | the table's advice for a known error type, the general advice otherwise |
| Database.GetDatabaseUrl | database.py:39-55 | `get_database_url` on the environment variable; see `DatabaseUrlRules` and `DatabaseUrlIdempotent` |
| Database.DatabaseUrlRules | database.py:39-55 | a leading "postgres://" is rewritten to "postgresql://", other URLs are unchanged, and no variable gives "sqlite:///chemistry_bot.db" |
| Database.DatabaseUrlIdempotent | database.py:39-55 | the result never starts with the legacy scheme, and rewriting again changes nothing |
| Database.DailyStreakAfter | database.py:958-986 | the streak update of `update_user_streak` for a calendar-day gap; see `DailyStreakRules` |
| Database.DailyStreakRules | database.py:958-986 | no date gives 1; a 1-day gap increments and takes the larger of record and streak; a longer gap resets to 1; a same-day call changes nothing |
| Database.CalendarDaysCountMidnights | database.py:976 | example: two times an hour apart across midnight differ by one calendar day but by zero whole days |
| Database.UpdateUserStreak | database.py:958-986 | a missing user is a no-op; otherwise the streak follows the daily rules by calendar-day difference, and the date is set to now |
| Database.FirstSuccess | database.py:903-918 | the first attempt number whose probe succeeds, and no success before it |
| Database.WaitForDb | database.py:890-918 | at most `max_retries` attempts; true on the first success, false after exhaustion; a sleep of `retry_delay` between attempts only |
| ContentGen.ContentGenerator.constructor | content_generator.py:54-65 | the keys are kept and the index starts at 0 |
| ContentGen.ContentGenerator.Create | content_generator.py:54-65 | an empty key list is rejected with a `ValueError` |
| ContentGen.ContentGenerator.GetNextKey | content_generator.py:97-106 | the current key is returned and the index advances modulo the key count |
| ContentGen.ContentGenerator.GeneratePracticeProblem | content_generator.py:112-172 | one key is used, the outcome of the abstract call is reported, and a parsed problem is saved as the table's last row |
| ContentGen.ProblemTable.Save | content_generator.py:290-316 | the saved problem becomes the table's last row |
| ContentGen.Candidates | content_generator.py:338-343 | exactly the rows for the topic with a difficulty within two of the one asked for |
| ContentGen.CachedProblem | content_generator.py:320-363 | no problem exactly when no row serves the request; otherwise a row that serves it |
| ContentGen.DifficultyDescription | content_generator.py:191-197 | "moderate" exactly for a difficulty outside {1, 3, 5, 7, 10} |
| ContentGen.Splice | content_generator.py:212-213 | the focus line is empty without weaknesses, and is "FOCUS ON:" with the joined weaknesses otherwise |
| ContentGen.BuildGenerationPrompt | content_generator.py:174-227 | `_build_generation_prompt`; see `Splice`, `PromptWithoutWeaknesses` and `PromptWithWeaknesses` |
| ContentGen.PromptWithoutWeaknesses | content_generator.py:174-227 | without weaknesses the prompt is the head followed by the format |
| ContentGen.PromptWithWeaknesses | content_generator.py:174-227 | with weaknesses the "FOCUS ON:" line sits between head and format |
| ContentGen.FirstStop | content_generator.py:248-268 | the lazy `.+?` stops at the first position where the lookahead holds |
| ContentGen.LazyGroupFrom | content_generator.py:248-268 | a lazy group is a non-empty span of the text |
| ContentGen.SearchLazy | content_generator.py:248-268 | no result means no position matches the section pattern |
| ContentGen.SearchLazyLeftmost | content_generator.py:248-268 | a result is the match at the leftmost start where the pattern matches, as `re.search` finds it |
| ContentGen.AnswerAt | content_generator.py:263-264 | an answer match is an option letter |
| ContentGen.AnswerFrom | content_generator.py:263-264 | the searched answer is empty or a single option letter, and empty exactly when no position matches |
| ContentGen.AnswerFromLeftmost | content_generator.py:263-264 | a found answer is the letter of the match at the leftmost matching start |
| ContentGen.AnswerLetter | content_generator.py:263-264 | the answer is empty or a single letter A-D in either case, not upper-cased, and empty exactly when the text has no answer match |
| ContentGen.AnswerLetterLeftmost | content_generator.py:263-264 | a found answer is the letter of the first answer match in the text |
| ContentGen.OptionsOf | content_generator.py:252-260 | exactly the letters that have an option text, each with that text |
| ContentGen.ParseProblem | content_generator.py:229-288 | `_parse_generated_problem` on the reply text; see `ParseProblemRules` and `MissingExplanationIsEmpty` |
| ContentGen.ParseProblemRules | content_generator.py:229-288 | success exactly when the problem text, at least one option and the answer letter are found; option keys are among A-D; the answer is a single option letter; failure is "Failed to parse problem" |
| ContentGen.MissingExplanationIsEmpty | content_generator.py:267-268 | a missing EXPLANATION section gives an empty explanation without failing |
| ContentGen.NoExplanationFrom | content_generator.py:267-268 | the search from a position with no section header finds nothing |
| ContentGen.ParseGeneratedProblem | content_generator.py:229-288 | the option loop computes the parse |
| ContentGen.Fetch | content_generator.py:390-406 | fetching one problem keeps the key index in range and the table's rows; an obtained problem serves the request and is in the table afterwards |
| ContentGen.GenerationOutcome | content_generator.py:146-172 | the outcome of `generate_practice_problem` for each kind of reply (a 200 is parsed; another status, an `asyncio.TimeoutError` and any other raised error give their handler's error text; the client's own `httpx` timeout is such an other error); a parsed problem carries the topic and difficulty asked for |
| ContentGen.FetchRules | content_generator.py:390-406 | a cache hit changes neither the key index nor the table; a miss is one generation with the current key, advances the index, and saves a parsed problem |
| ContentGen.RepeatedTopicServedFromTable | content_generator.py:158-159 | after a successful fetch, a second fetch for the same topic is served from the table and changes nothing |
| ContentGen.QuizFrom | content_generator.py:390-406 | the quiz loop keeps the key index in range and only adds rows to the table |
| ContentGen.QuizStored | content_generator.py:390-406 | every question's problem serves its topic and is in the table after the quiz |
| ContentGen.RepeatedTopicQuiz | content_generator.py:390-406 | a quiz on the same topic twice whose first problem was obtained has two questions and uses one key at most |
| ContentGen.ShapedCons | content_generator.py:390-406 | a question numbered position + 1 in front of a well-numbered rest is well numbered |
| ContentGen.QuizShape | content_generator.py:390-406 | each question carries number position + 1 and that topic, in increasing order |
| ContentGen.QuizFromStep | content_generator.py:390-406 | one loop step appends the question for the current topic, if any |
| ContentGen.QuizBounds | content_generator.py:369-419 | only `topics[:num_questions]` (a Python slice, so a negative count drops topics from the end) is used; there are never more questions than that slice, nor, for a non-negative `num_questions`, than `num_questions` |
| ContentGen.ContentGenerator.ObtainProblem | content_generator.py:390-401 | the key index and the table become `Fetch`'s: the cached problem if there is one, otherwise a generated one that is then saved |
| ContentGen.ContentGenerator.GenerateQuiz | content_generator.py:369-419 | the quiz is the loop's questions over the topic slice, with one half-second pause per topic; the key index and the table end as `QuizFrom` leaves them, so a problem generated for one topic can serve a later one |
| KnowledgeGraph.Predecessors | feature_modules/intelligence/knowledge_graph.py:84-95 | exactly the sources of edges into the concept, without repeats |
| KnowledgeGraph.EdgeLabel | feature_modules/intelligence/knowledge_graph.py:84-95 | an edge's label exists exactly when there is an edge, and it is one of its edges |
| KnowledgeGraph.PrerequisitesAmong | feature_modules/intelligence/knowledge_graph.py:90-95 | kept exactly when the edge label is "prerequisite_for" |
| KnowledgeGraph.Prerequisites | feature_modules/intelligence/knowledge_graph.py:84-95 | `find_prerequisite_concepts`; see `PrerequisitesRules` |
| KnowledgeGraph.PrerequisitesRules | feature_modules/intelligence/knowledge_graph.py:84-95 | an unknown concept has no prerequisites; otherwise exactly the predecessors along "prerequisite_for" edges |
| KnowledgeGraph.FindPrerequisiteConcepts | feature_modules/intelligence/knowledge_graph.py:84-95 | the loop computes the prerequisites |
| KnowledgeGraph.PredecessorsUnchanged | feature_modules/intelligence/knowledge_graph.py:84-95 | edges into other concepts do not change a concept's predecessors |
| KnowledgeGraph.OnePrerequisiteOfTwo | feature_modules/intelligence/knowledge_graph.py:84-95 | of two predecessors, only the one with a prerequisite edge is kept |
| KnowledgeGraph.LastEdgeLabel | feature_modules/intelligence/knowledge_graph.py:24-82 | a repeated edge takes the label of the last one added |
| KnowledgeGraph.EdgesIntoSn1 | feature_modules/intelligence/knowledge_graph.py:24-82 | only two edges of the graph end in SN1 |
| KnowledgeGraph.Sn1Predecessors | feature_modules/intelligence/knowledge_graph.py:24-82 | SN1's predecessors are reaction_mechanisms and carbocation_stability |
| KnowledgeGraph.ReactionMechanismsContainsSn1 | feature_modules/intelligence/knowledge_graph.py:24-82 | reaction_mechanisms to SN1 is not a prerequisite edge |
| KnowledgeGraph.CarbocationStabilityPrecedesSn1 | feature_modules/intelligence/knowledge_graph.py:24-82 | carbocation_stability is a prerequisite of SN1 |
| KnowledgeGraph.Sn1Known | feature_modules/intelligence/knowledge_graph.py:24-82 | SN1 is a node of the graph |
| KnowledgeGraph.Sn1Prerequisite | feature_modules/intelligence/knowledge_graph.py:84-95 | SN1's prerequisites are [carbocation_stability] |
| KnowledgeGraph.NamesClosed | feature_modules/intelligence/knowledge_graph.py:146-169 | the graph's names are closed under prerequisites, which bounds the path search |
| KnowledgeGraph.RecommendLearningPath | feature_modules/intelligence/knowledge_graph.py:146-169 | an unknown target gives []; otherwise the depth-first post-order path |
| KnowledgeGraph.RankedByEdges | feature_modules/intelligence/knowledge_graph.py:146-169 | a rank that grows along prerequisite edges ranks the prerequisite relation |
| KnowledgeGraph.ChemistryGraphRanked | feature_modules/intelligence/knowledge_graph.py:24-82 | the chemistry graph's prerequisites have no cycle |
| KnowledgeGraph.PathOf | feature_modules/intelligence/knowledge_graph.py:146-169 | the path `recommend_learning_path` builds for a known target; see `PathOfProperties` and `RecommendedPathInOrder` |
| KnowledgeGraph.PathOfProperties | feature_modules/intelligence/knowledge_graph.py:146-169 | the path has no repeats, ends with the target, holds every prerequisite of its concepts, and in an acyclic graph puts each before its dependent |
| KnowledgeGraph.RecommendedPathInOrder | feature_modules/intelligence/knowledge_graph.py:146-169 | in the chemistry graph every prerequisite comes before its dependent |
| LearningPath.Walk | feature_modules/intelligence/knowledge_graph.py:155-165 | the visited set only grows within the universe and includes the concept |
| LearningPath.WalkAll | feature_modules/intelligence/knowledge_graph.py:155-165 | after the loop every listed prerequisite has been visited |
| LearningPath.ExtendGood | feature_modules/intelligence/knowledge_graph.py:155-165 | appending a finished concept keeps the path invariant |
| LearningPath.InOrderSnoc | feature_modules/intelligence/knowledge_graph.py:155-165 | appending a concept after all its prerequisites keeps the order |
| LearningPath.WalkKeepsGood | feature_modules/intelligence/knowledge_graph.py:155-165 | a call keeps the visited/path invariant, only extends the path, appends a new concept last, and keeps prerequisites in front when acyclic |
| LearningPath.WalkAllKeepsGood | feature_modules/intelligence/knowledge_graph.py:155-165 | the loop over prerequisites keeps the same invariant |
| LearningPath.PathProperties | feature_modules/intelligence/knowledge_graph.py:146-169 | the path has no repeats, ends with the target, is closed under prerequisites, and is in order when acyclic |
| LearningPath.BuildPath | feature_modules/intelligence/knowledge_graph.py:155-165 | the recursive helper computes the walk |
| LearningPath.LearningPathFor | feature_modules/intelligence/knowledge_graph.py:146-169 | the path from nothing visited |
| KnowledgeGraph.Adj | feature_modules/intelligence/knowledge_graph.py:105-106 | the neighbours of a concept in `to_undirected()`, the graph `find_related_concepts` searches; see `FindRelatedConcepts` |
| GraphSearch.Search | feature_modules/intelligence/knowledge_graph.py:105-119 | each concept listed once, never the start, with a distance in [1, max] in non-decreasing order; each reached through a neighbour one step nearer; no neighbour within the cutoff missed |
| GraphSearch.Expand | feature_modules/intelligence/knowledge_graph.py:105-119 | expanding one concept lists its unseen neighbours at the current level |
| GraphSearch.ExpandLevel | feature_modules/intelligence/knowledge_graph.py:105-119 | expanding a level lists every neighbour of that level within one more step |
| GraphSearch.SearchLevel | feature_modules/intelligence/knowledge_graph.py:105-119 | one level of the search keeps the search invariant and its completeness |
| GraphSearch.SearchDone | feature_modules/intelligence/knowledge_graph.py:105-119 | when the frontier empties or the cutoff is reached, the list is complete |
| GraphSearch.SearchListed | feature_modules/intelligence/knowledge_graph.py:105-119 | the invariant gives the list's shape |
| GraphSearch.SearchReached | feature_modules/intelligence/knowledge_graph.py:105-119 | the invariant gives a witness for each distance |
| GraphSearch.SearchExhaustive | feature_modules/intelligence/knowledge_graph.py:105-119 | the invariant with an empty frontier gives completeness |
| KnowledgeGraph.FindRelatedConcepts | feature_modules/intelligence/knowledge_graph.py:97-119 | an unknown concept gives []; otherwise the neighbourhood within `max_distance` undirected steps, with the guarantees of `Search` |
| KnowledgeGraph.ExplainConceptRelationship | feature_modules/intelligence/knowledge_graph.py:121-144 | "Concepts not found in knowledge base." if either concept is absent; a concept and itself give the one-node path message; a direct edge is named by its relationship, the `concept1 -> concept2` edge before the reverse one; no answer exactly for two known, distinct concepts without an edge between them |
| KnowledgeGraph.InferMechanism | feature_modules/intelligence/knowledge_graph.py:171-205 | a neighbouring group gives NGP; secondary gives mixed mechanisms; tertiary gives E1 or SN1 in polar protic solvent with a good leaving group, else E2 or undetermined; primary gives SN2, else E2 or undetermined |
| KnowledgeGraph.TemperatureIrrelevant | feature_modules/intelligence/knowledge_graph.py:171-205 | the temperature never changes the answer |
| AdvancedFeatures.GetPrerequisites | feature_modules/advanced/advanced_features.py:88-97 | the static prerequisite table; see `PrerequisitesTable` |
| AdvancedFeatures.PrerequisitesTable | feature_modules/advanced/advanced_features.py:88-97 | the static list for the five known concepts, [] for any other |
| AdvancedFeatures.UniverseClosed | feature_modules/advanced/advanced_features.py:88-97 | the table's concepts plus the target are closed under prerequisites |
| AdvancedFeatures.UniverseRanked | feature_modules/advanced/advanced_features.py:88-97 | the dependency table has no cycle |
| AdvancedFeatures.GetLearningPath | feature_modules/advanced/advanced_features.py:99-117 | the recursive helper computes the learning path |
| AdvancedFeatures.LearningPathProperties | feature_modules/advanced/advanced_features.py:99-117 | no repeats, ends with the target, every prerequisite present and before its dependent |
| AdvancedFeatures.UnknownConceptPath | feature_modules/advanced/advanced_features.py:99-117 | an unknown concept's path is just [concept] |
| AdvancedFeatures.NgpLeaves | feature_modules/advanced/advanced_features.py:88-97 | worked example: NGP's basic concepts have no prerequisites |
| AdvancedFeatures.Sn1WalkFromNgp | feature_modules/advanced/advanced_features.py:104-115 | worked example, one step of the NGP path: inside NGP's walk, SN1 appends carbocation_stability, leaving_groups, kinetics, SN1 |
| AdvancedFeatures.NgpWalk | feature_modules/advanced/advanced_features.py:104-115 | worked example, one step of the NGP path: NGP's walk yields [carbocation_stability, leaving_groups, kinetics, SN1, resonance, NGP] |
| AdvancedFeatures.NgpLearningPath | feature_modules/advanced/advanced_features.py:99-117 | worked example (the general statement is `LearningPathProperties`): the path for NGP is [carbocation_stability, leaving_groups, kinetics, SN1, resonance, NGP] |
| AdvancedFeatures.VisualizeDependencyTree | feature_modules/advanced/advanced_features.py:119-126 | root, prerequisites from the table, dependents ["advanced_topics"], and depth the learning path's length (1 for an unknown concept) |
| AdvancedFeatures.TranslateExplanation | feature_modules/advanced/advanced_features.py:47-54 | "hindi" prefixes "[Hindi] ", "hinglish" appends the reminder, any other language returns the text |
| AdvancedFeatures.TranslationKeepsText | feature_modules/advanced/advanced_features.py:47-54 | the original text is always recoverable from the translation |
| AdvancedFeatures.GetBilingualTerms | feature_modules/advanced/advanced_features.py:56-63 | the table's terms for a known concept, (concept, concept) otherwise |
| AdvancedFeatures.BilingualFallback | feature_modules/advanced/advanced_features.py:56-63 | an unknown concept's English and Hindi terms are the concept itself |
| AdvancedFeatures.TotalsOfUniformItems | feature_modules/advanced/advanced_features.py:192-208 | n items of 20 problems and 5.2 MB total 20·n problems and 5.2·n MB |
| AdvancedFeatures.CacheContentForOffline | feature_modules/advanced/advanced_features.py:192-208 | cached topics = number of topics, problems = 20 per topic, size = 5.2 MB per topic, 7 days of validity |
| AdvancedFeatures.GetPersonalizedGreeting | feature_modules/advanced/advanced_features.py:143-151 | the greeting for a time of day; see `GreetingNamesUser` |
| AdvancedFeatures.GreetingNamesUser | feature_modules/advanced/advanced_features.py:143-151 | every greeting contains the user's name, and an unknown time of day gives "Hello {name}!" |
| CognitiveLoad.GetAdjustmentSuggestion | feature_modules/intelligence/cognitive_load.py:92-100 | the suggestion for a cognitive state; see `AdjustmentSuggestionRules` |
| CognitiveLoad.AdjustmentSuggestionRules | feature_modules/intelligence/cognitive_load.py:92-100 | the four states get their table suggestion; any other state, including insufficient_data and error, gets "Keep learning!" |
| CognitiveLoad.FourTemplatesPerTopic | feature_modules/intelligence/cognitive_load.py:148-167 | each known topic has four question templates |
| CognitiveLoad.GenerateSocraticQuestions | feature_modules/intelligence/cognitive_load.py:169-188 | the first `difficulty // 2` templates (Python slice semantics for negative counts), then the three meta questions; an unknown topic gets only the meta questions; for a known topic and `difficulty >= 0` the list has `min(difficulty // 2, 4) + 3` questions, is only the meta questions exactly when `difficulty < 2`, and is all four templates then the meta questions from `difficulty >= 8` |
| CognitiveLoad.ProvideGuidedHint | feature_modules/intelligence/cognitive_load.py:190-213 | the hint for a topic and level; see `GuidedHintRules` |
| CognitiveLoad.GuidedHintRules | feature_modules/intelligence/cognitive_load.py:190-213 | the table entry when topic and level exist; the default prompt for other topics and for levels outside 1-3 |
| SelfLearning.TimeBonusNonIncreasing | feature_modules/intelligence/self_learning.py:101-107 | a slower solve never earns a larger time bonus |
| SelfLearning.BonusBounds | feature_modules/intelligence/self_learning.py:101-114 | time bonus in [0, 30] and 0 from 1200 s; hint bonus in [0, 20] and 0 beyond two hints |
| SelfLearning.CalculateEffectiveness | feature_modules/intelligence/self_learning.py:92-116 | 0 when unsuccessful; otherwise 50 plus the two bonuses, in [50, 100] |
| SelfLearning.CorrectCount | feature_modules/intelligence/self_learning.py:118-132 | at most the number of problems, and 0 exactly when none is correct |
| SelfLearning.CalculateStyleScore | feature_modules/intelligence/self_learning.py:118-132 | 1 when some problem is correct and 0 otherwise, whatever the style |
| SelfLearning.FirstMax | feature_modules/intelligence/self_learning.py:81-82 | Python's `max` by key: a maximal score with every earlier one strictly smaller |
| SelfLearning.GetBestExplanationStyle | feature_modules/intelligence/self_learning.py:61-88 | always "systematic", which is also what the source returns (see "Left out" for why) |
| SelfLearning.GenerateRecommendations | feature_modules/intelligence/self_learning.py:167-187 | at most three lines: a style line only for visual, systematic or conceptual, an accuracy line only below 50 or above 80, and the speed line last exactly when the average time exceeds 1200 |
| SelfLearning.AdviceDiffersFromSpeed | feature_modules/intelligence/self_learning.py:167-187 | no other recommendation line is the speed line |
| SmartAutomation.GetCountdownStatus | feature_modules/automation/smart_automation.py:72-98 | `get_countdown_status` for the days remaining; see `CountdownBands` and `CountdownIntensifies` |
| SmartAutomation.CountdownBands | feature_modules/automation/smart_automation.py:72-98 | ≤7 days MAXIMUM, ≤30 HIGH, ≤90 MODERATE, else NORMAL; 10 daily problems exactly up to 30 days, else 5 |
| SmartAutomation.CountdownIntensifies | feature_modules/automation/smart_automation.py:72-98 | fewer days never lowers the intensity or the daily problems |
| SmartAutomation.ShouldNotify | feature_modules/automation/smart_automation.py:111-127 | `SmartNotifications.should_notify`; see `NotificationGate` |
| SmartAutomation.NotificationGate | feature_modules/automation/smart_automation.py:111-127 | false under 30 minutes since last activity; otherwise true exactly for priority ≥ 5, i.e. new_achievement and daily_quiz_ready; unknown events score 0 and missing activity counts as 999 minutes |

## Left out

- Default arguments: the source's defaults are not modelled; every member takes them as explicit parameters. These are `hint_level=1` of `provide_guided_hint` (`CognitiveLoad.ProvideGuidedHint`); `difficulty=5` and `user_weaknesses=None` of `generate_practice_problem` (`ContentGen.ContentGenerator.GeneratePracticeProblem`); `difficulty=5` of `get_cached_problem` (`ContentGen.CachedProblem`); `num_questions=5` and `difficulty=5` of `generate_quiz` (`ContentGen.ContentGenerator.GenerateQuiz`); `max_distance=2` of `find_related_concepts` (`KnowledgeGraph.FindRelatedConcepts`); `context=""` of `analyze` (`Agents.ChemistryAgent.Analyze`); `enable_debate=True` of `analyze_problem` (`Debate.MultiAgentDebateSystem.AnalyzeProblem`); and `max_retries=5`, `retry_delay=2` of `wait_for_db` (`Database.WaitForDb`). Calling with the default is calling with that value, so no behaviour is lost.
- HTTP and image handling: `_call_gemini_api` and `_prepare_image` are foreign library calls. The inference call is a parameter giving a reply or a failure, and a prepared image is an input value, either a payload or a preparation failure.
- Concurrency: `asyncio.gather` is an in-order sequential map over the agents, which share no state. `asyncio.sleep` is a returned list of durations.
- The database: sessions, queries, commits and leaderboards. Records are in-memory values or objects. The `generated_problems` table is a `ProblemTable` object whose rows the generator reads and extends.
- `ContentGen.CachedProblem`: `random.choice` among the ten least-used candidates is a draw parameter choosing among all candidates. The `times_used` ordering, its `limit(10)` and its increment are not modelled, and neither is the `from_cache` flag of a cached problem's dictionary.
- `ContentGen.ContentGenerator.GeneratePracticeProblem`: a failing save is not modelled; a parsed problem is always saved and returned. In the source, an error while building or adding the row is logged and swallowed inside `_save_generated_problem` (content_generator.py:299-316). A failing commit, though, is re-raised by `get_db_session` after the `with` body (database.py:109-114), escapes `_save_generated_problem`, and is turned by the outer handler (content_generator.py:170-172) into a failed result with that error text, after the key has advanced.
- Clocks: `datetime.utcnow()` is a parameter `now`, in integer microseconds.
- `format_result_for_telegram` and `_format_legacy_dict` are presentation code. Logging is not modelled.
- The outer `except Exception` of `analyze_problem`: there is no exception in the model.
- The agent subclasses (`SystematicAgent` and the rest) differ only in name and persona text. They are agent profiles built from the constants of `Personas`.
- `Agents.ChemistryAgent.Analyze`: a failed call's error text is the parameter's failure message, since the text of a foreign exception is not modelled.
- `ResponseExtractor.Parse`: the character rules fold case for ASCII letters and read ASCII digits only. Python's Unicode case folding and Unicode digits are not modelled. Nor is the limit of Python 3.11 and later on `int()` of a digit string longer than 4300 digits: there, the `int(...)` at multi_agent.py:372 raises ValueError, the attempt fails inside the `try` of multi_agent.py:189-211 and is retried, whereas the model clamps such a confidence to 100.
- `ContentGen.ParseProblem`, `ContentGen.SearchLazy`, `ContentGen.AnswerAt`, `ContentGen.ExplanationAt`: the `re.IGNORECASE` patterns ("PROBLEM:", "(A)" to "(D)", "ANSWER:", "EXPLANATION:") fold case for ASCII letters only. Under Python's Unicode rules a "ſ" in the text also matches the patterns' "S", and a "ı" or "İ" their "I"; those matches are not modelled.
- Floating point: accuracy, mastery and the cognitive-state ratios are reals or not modelled. Floats are real wherever the source only compares them.
- `AdvancedFeatures.CacheContentForOffline`: `total_size_mb` is the exact real 5.2 times the number of topics. The source's float `sum` accumulates rounding error (15.600000000000001 for three topics), which reals do not have.
- `SelfLearning.GenerateRecommendations`: accuracy and average time are exact reals, not floats.
- `SelfLearning.CalculateEffectiveness`: the score is an integer, because every value the source's float can take is whole. The database write of `track_explanation_success` is left out.
- `get_learning_insights`, `detect_cognitive_state`, `predict_and_warn` and `_get_baseline_performance` read the database and compute float ratios; they are left out.
- `SelfLearning.GetBestExplanationStyle`: models the method as its query evidently means it, with the recent problems given by their `is_correct` flags. As written, the query orders by `ProblemSolved.solved_at` (self_learning.py:68), a column the `ProblemSolved` table does not have (database.py:249-272), and the style score reads `problem.correct` rather than `is_correct`. The `except` branch at lines 86-88 then returns "systematic" on every call. The model's result is "systematic" in every case too, so the two agree on what is returned.
- `KnowledgeGraph.ExplainConceptRelationship`: gives `None` for two known, distinct concepts without a direct edge. There, the source renders the shortest path networkx picks (lines 136-139), or returns the `NetworkXNoPath` message "… are not directly connected in the knowledge graph." (line 141) when the concepts are not connected; neither the multi-hop path nor the no-path message is modelled. The guard for a missing concept, the one-node self path and both directions of a direct edge are modelled.
- `visualize_concept_neighborhood` and `get_encouragement` are networkx and random presentation code, not modelled.
- `get_countdown_status`: the days remaining are an input, not computed from the exam date and the clock.
- `CognitiveLoad.AdjustmentSuggestionRules`, `CognitiveLoad.GuidedHintRules`: they state the table-entry and fallback rules, but do not prove that the fallback text differs from every table entry.
- The stubs (voice, OCR, AR, parent dashboard, reminders, daily quiz, weekly report, tagging) return mock or random data and are not modelled.
- The duplicate package `feature_modules/Intelligence` is not part of this model; the lowercase `intelligence` package is modelled.

## Findings

| source | as written | input that shows it | evidently intended | confidence | as-written member | corrected member |
|---|---|---|---|---|---|---|
| analytics_engine.py:234-238 | a new `TopicStatistics(user_id=…, topic=…)` has `None` counters until its INSERT, so `stats.problems_attempted += 1` raises `TypeError`; the handler at lines 119-121 returns -1 and `_check_achievements` does not run, while the user's updates and the default row are still committed | a user's first problem on any topic: the result is -1, the attempt is not counted in the topic row, and `first_solve` is never awarded | create the row with its defaults (or treat `None` as 0), count the attempt, and check achievements | not executed | Analytics.AsWrittenFirstSolveLost | Analytics.FirstProblemEarnsFirstSolve |
| analytics_engine.py:138-159 | `_update_user_stats` sets `last_problem_date = now` before `_update_streak` computes `days_diff` from it, so the gap is always 0 and the streak never changes | a user with streak 3 who last solved a problem yesterday solves one today: the streak stays 3 | read the previous date before stamping, so a next-day solve increments the streak | not executed | Analytics.AsWrittenMissesNextDay | Analytics.TrackedFollowsStreakRules |
