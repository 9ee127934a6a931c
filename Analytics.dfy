/**
 * The gamification rules of `AnalyticsEngine` (analytics_engine.py): points for a
 * solved problem, level-up, the daily streak, per-topic counters with adaptive
 * difficulty, and achievement codes.
 *
 * `User` and `TopicStatistics` are in-memory records whose fields the engine updates
 * in place; the database session that loads and stores them is not modelled.
 * Timestamps are integers counting microseconds, and `datetime.utcnow()` is a
 * parameter `now`. The float columns are exact reals here.
 */
module Analytics {
  import opened Wrappers

  const MicrosPerDay: int := 86_400_000_000

  /** `(later - earlier).days`: whole days, rounded down like `timedelta.days`. */
  function DaysBetween(later: int, earlier: int): int {
    (later - earlier) / MicrosPerDay
  }

  // ---------------------------------------------------------------- points

  /** The speed bonus: `max(0, 30 - time_taken // 2)` under 60 seconds, else 0. */
  function SpeedBonus(timeTaken: int): (b: int)
    ensures b >= 0 && (timeTaken >= 0 ==> b <= 30)
    ensures timeTaken >= 60 ==> b == 0
  {
    if timeTaken < 60 then (if 30 - timeTaken / 2 > 0 then 30 - timeTaken / 2 else 0) else 0
  }

  /** The total of a correct answer before the floor of 5 is applied. */
  function RawPoints(difficulty: int, timeTaken: int, hintUsed: bool): int {
    10 + difficulty * 2 + SpeedBonus(timeTaken) + (if hintUsed then -10 else 0)
  }

  /** `_calculate_points`. */
  function CalculatePoints(difficulty: int, isCorrect: bool, timeTaken: int, hintUsed: bool): (p: int)
    ensures p >= 5
    ensures !isCorrect ==> p == 5
    ensures isCorrect ==> p == if RawPoints(difficulty, timeTaken, hintUsed) > 5
                                then RawPoints(difficulty, timeTaken, hintUsed) else 5
  {
    if !isCorrect then 5
    else
      var total := RawPoints(difficulty, timeTaken, hintUsed);
      if total > 5 then total else 5
  }

  /** A hint costs exactly 10 points before the floor; an answer that takes a minute
      or more earns nothing for speed; a faster answer never earns less. */
  lemma PointsRules(difficulty: int, timeTaken: int, t2: int)
    ensures RawPoints(difficulty, timeTaken, true) == RawPoints(difficulty, timeTaken, false) - 10
    ensures timeTaken >= 60 ==> RawPoints(difficulty, timeTaken, false) == 10 + difficulty * 2
    ensures timeTaken <= t2 ==> SpeedBonus(t2) <= SpeedBonus(timeTaken)
  {
  }

  // ----------------------------------------------------------------- users

  /** The `User` columns the engine reads and writes, plus the codes of the user's
      `UserAchievement` rows. */
  datatype UserRecord = UserRecord(
    totalProblemsSolved: int,
    totalCorrect: int,
    currentStreak: int,
    longestStreak: int,
    lastProblemDate: Option<int>,
    lastActive: Option<int>,
    totalScore: int,
    level: int,
    experiencePoints: int,
    achievements: seq<string>)

  /** The column defaults of a new `User`. */
  const NewUser: UserRecord := UserRecord(0, 0, 0, 0, None, None, 0, 1, 0, [])

  /** `_update_user_stats`: one more problem (and one more correct answer if it was
      correct), the activity times set to now, and the same points added to the
      experience and to the score; nothing else changes. */
  function AfterSolve(u: UserRecord, isCorrect: bool, timeTaken: int, difficulty: int,
                      hintUsed: bool, now: int): (r: UserRecord)
    ensures r.totalProblemsSolved == u.totalProblemsSolved + 1
    ensures r.totalCorrect == u.totalCorrect + (if isCorrect then 1 else 0)
    ensures r.lastProblemDate == Some(now) && r.lastActive == Some(now)
    ensures r.experiencePoints - u.experiencePoints == r.totalScore - u.totalScore
                                                      == CalculatePoints(difficulty, isCorrect, timeTaken, hintUsed)
    ensures r.(totalProblemsSolved := u.totalProblemsSolved, totalCorrect := u.totalCorrect,
               lastProblemDate := u.lastProblemDate, lastActive := u.lastActive,
               totalScore := u.totalScore, experiencePoints := u.experiencePoints) == u
  {
    var points := CalculatePoints(difficulty, isCorrect, timeTaken, hintUsed);
    u.(totalProblemsSolved := u.totalProblemsSolved + 1,
       totalCorrect := u.totalCorrect + (if isCorrect then 1 else 0),
       lastActive := Some(now),
       lastProblemDate := Some(now),
       experiencePoints := u.experiencePoints + points,
       totalScore := u.totalScore + points)
  }

  /** `_update_streak` on (current, longest), given the whole days since the last
      problem (`None` when there was none). */
  function StreakAfter(current: int, longest: int, gap: Option<int>): (int, int) {
    match gap
    case None => (1, 1)
    case Some(days) =>
      if days == 0 then (current, longest)
      else if days == 1 then (current + 1, if current + 1 > longest then current + 1 else longest)
      else (1, longest)
  }

  /** The four streak rules: a first problem starts both streaks at 1, the same day
      changes nothing, the next day extends the streak and keeps the record at least
      as long, and a longer gap (or a date in the future) restarts it at 1 with the
      record kept. */
  lemma StreakRules(current: int, longest: int, days: int)
    ensures StreakAfter(current, longest, None) == (1, 1)
    ensures days == 0 ==> StreakAfter(current, longest, Some(days)) == (current, longest)
    ensures days == 1 ==> StreakAfter(current, longest, Some(days)).0 == current + 1
    ensures days == 1 ==> StreakAfter(current, longest, Some(days)).1 >= current + 1
    ensures days == 1 ==> StreakAfter(current, longest, Some(days)).1 >= longest
    ensures days != 0 && days != 1 ==> StreakAfter(current, longest, Some(days)) == (1, longest)
  {
  }

  /** The streak never exceeds the record, once it holds; the record only shrinks
      (to 1) for a user without a last problem date. */
  lemma StreakBelowRecord(current: int, longest: int, gap: Option<int>)
    requires current <= longest && 1 <= longest
    ensures var (c, l) := StreakAfter(current, longest, gap);
      c <= l && (gap.Some? ==> longest <= l)
  {
  }

  /** The days since the user's last problem, as `_update_streak` computes them. */
  function Gap(lastProblemDate: Option<int>, now: int): Option<int> {
    match lastProblemDate
    case None => None
    case Some(d) => Some(DaysBetween(now, d))
  }

  /** `_update_streak` on a user record. */
  function StreakUpdated(u: UserRecord, now: int): UserRecord {
    var (c, l) := StreakAfter(u.currentStreak, u.longestStreak, Gap(u.lastProblemDate, now));
    u.(currentStreak := c, longestStreak := l)
  }

  /** `_check_level_up` on (level, experience): one level for `level * 100` points. */
  function LevelUpAfter(level: int, xp: int): (int, int) {
    var required := level * 100;
    if xp >= required then (level + 1, xp - required) else (level, xp)
  }

  /** A level-up raises the level by exactly one and pays for it with the old level's
      `level * 100` points, never leaving the experience negative; otherwise nothing
      changes. */
  lemma LevelUpRules(level: int, xp: int)
    ensures var (l, x) := LevelUpAfter(level, xp);
      && (l == level || l == level + 1)
      && (l == level + 1 <==> xp >= level * 100)
      && (l == level + 1 ==> x == xp - level * 100 && x >= 0)
      && (l == level ==> x == xp)
  {
  }

  function LevelUpdated(u: UserRecord): UserRecord {
    var (l, x) := LevelUpAfter(u.level, u.experiencePoints);
    u.(level := l, experiencePoints := x)
  }

  // ----------------------------------------------------------- topic stats

  /** The `TopicStatistics` columns the engine updates (`mastery_level` and
      `last_practiced` are not modelled). */
  datatype TopicRecord = TopicRecord(
    problemsAttempted: int,
    problemsCorrect: int,
    accuracy: real,
    totalTimeSeconds: int,
    averageTimeSeconds: int,
    currentDifficulty: int)

  /** The column defaults of a new `TopicStatistics` row. */
  const NewTopic: TopicRecord := TopicRecord(0, 0, 0.0, 0, 0, 5)

  predicate CountersConsistent(t: TopicRecord) {
    0 <= t.problemsCorrect <= t.problemsAttempted && 1 <= t.currentDifficulty <= 10
  }

  /** The difficulty after an attempt: up one (to at most 10) above 85% accuracy,
      down one (to at least 1) below 50%, and only from the fifth attempt on. */
  function AdjustedDifficulty(difficulty: int, accuracy: real, attempted: int): int {
    if accuracy > 85.0 && attempted >= 5 then (if difficulty + 1 < 10 then difficulty + 1 else 10)
    else if accuracy < 50.0 && attempted >= 5 then (if difficulty - 1 > 1 then difficulty - 1 else 1)
    else difficulty
  }

  /** `_update_topic_stats` on the counters. */
  function TopicAfter(t: TopicRecord, isCorrect: bool, timeTaken: int): (r: TopicRecord)
    requires t.problemsAttempted >= 0
  {
    var attempted := t.problemsAttempted + 1;
    var correct := t.problemsCorrect + (if isCorrect then 1 else 0);
    var accuracy := (correct as real / attempted as real) * 100.0;
    var total := t.totalTimeSeconds + timeTaken;
    TopicRecord(attempted, correct, accuracy, total, total / attempted,
                AdjustedDifficulty(t.currentDifficulty, accuracy, attempted))
  }

  /** One attempt adds exactly one to the attempts and one to the correct answers iff
      the answer was correct; the average is the total time floor-divided by the
      attempts; the difficulty stays in [1, 10], moves by at most one, and does not
      move before the fifth attempt; correct never exceeds attempted. */
  lemma TopicRules(t: TopicRecord, isCorrect: bool, timeTaken: int)
    requires CountersConsistent(t)
    ensures var r := TopicAfter(t, isCorrect, timeTaken);
      && r.problemsAttempted == t.problemsAttempted + 1
      && (r.problemsCorrect == t.problemsCorrect + 1 <==> isCorrect)
      && (!isCorrect ==> r.problemsCorrect == t.problemsCorrect)
      && r.totalTimeSeconds == t.totalTimeSeconds + timeTaken
      && r.averageTimeSeconds * r.problemsAttempted <= r.totalTimeSeconds
      && r.totalTimeSeconds < (r.averageTimeSeconds + 1) * r.problemsAttempted
      && CountersConsistent(r)
      && r.currentDifficulty - t.currentDifficulty in {-1, 0, 1}
      && (r.problemsAttempted < 5 ==> r.currentDifficulty == t.currentDifficulty)
  {
    var r := TopicAfter(t, isCorrect, timeTaken);
    var n, s := r.problemsAttempted, r.totalTimeSeconds;
    assert s == (s / n) * n + s % n;
    assert s < (s / n + 1) * n by {
      assert (s / n + 1) * n == (s / n) * n + n;
    }
  }

  /** Accuracy above 85% after the fifth attempt raises the difficulty unless it is
      already 10; below 50% lowers it unless it is already 1. */
  lemma DifficultyFollowsAccuracy(t: TopicRecord, isCorrect: bool, timeTaken: int)
    requires CountersConsistent(t) && t.problemsAttempted >= 4
    ensures var r := TopicAfter(t, isCorrect, timeTaken);
      && (r.accuracy > 85.0 ==> r.currentDifficulty == if t.currentDifficulty < 10 then t.currentDifficulty + 1 else 10)
      && (r.accuracy < 50.0 ==> r.currentDifficulty == if t.currentDifficulty > 1 then t.currentDifficulty - 1 else 1)
      && (50.0 <= r.accuracy <= 85.0 ==> r.currentDifficulty == t.currentDifficulty)
  {
  }

  // ---------------------------------------------------------- achievements

  /** The codes `_check_achievements` selects: at most one milestone (exactly 1, 100
      or 500 problems), at most one streak code (exactly 7, 30 or 100 days), and
      `ngp_master` for an NGP problem when every NGP attempt so far, at least ten,
      was correct (`ngp` is that topic's row, if there is one). */
  function AchievementCodes(solved: int, streak: int, topic: string, ngp: Option<TopicRecord>): seq<string> {
    MilestoneCodes(solved) + StreakCodes(streak) + MasteryCodes(topic, ngp)
  }

  function MilestoneCodes(solved: int): seq<string> {
    if solved == 1 then ["first_solve"]
    else if solved == 100 then ["hundred_club"]
    else if solved == 500 then ["quincentennial"]
    else []
  }

  function StreakCodes(streak: int): seq<string> {
    if streak == 7 then ["streak_7"]
    else if streak == 30 then ["streak_30"]
    else if streak == 100 then ["streak_100"]
    else []
  }

  function MasteryCodes(topic: string, ngp: Option<TopicRecord>): seq<string> {
    if topic == "NGP" && ngp.Some? && ngp.value.accuracy == 100.0 && ngp.value.problemsAttempted >= 10
    then ["ngp_master"] else []
  }

  /** A milestone code is chosen exactly at its count. No milestone code starts
      with the letters of the other codes. */
  lemma MilestoneFacts(solved: int)
    ensures var m := MilestoneCodes(solved);
      && |m| <= 1
      && (forall x :: x in m ==> |x| > 0 && x[0] != 's' && x[0] != 'n')
      && ("first_solve" in m <==> solved == 1)
      && ("hundred_club" in m <==> solved == 100)
      && ("quincentennial" in m <==> solved == 500)
  {
    assert "first_solve"[0] == 'f' && "hundred_club"[0] == 'h' && "quincentennial"[0] == 'q';
  }

  /** A streak code is chosen exactly at its length; all of them start with `s`. */
  lemma StreakFacts(streak: int)
    ensures var s := StreakCodes(streak);
      && |s| <= 1
      && (forall x :: x in s ==> |x| > 0 && x[0] == 's')
      && ("streak_7" in s <==> streak == 7)
      && ("streak_30" in s <==> streak == 30)
      && ("streak_100" in s <==> streak == 100)
  {
    assert "streak_7"[0] == 's' && "streak_30"[0] == 's' && "streak_100"[0] == 's';
  }

  /** The one mastery code, only ever for the NGP topic. */
  lemma MasteryFacts(topic: string, ngp: Option<TopicRecord>)
    ensures var g := MasteryCodes(topic, ngp);
      && |g| <= 1
      && (forall x :: x in g ==> x == "ngp_master")
      && (g != [] ==> topic == "NGP")
  {
  }

  /** A milestone code is chosen exactly at its count, a streak code exactly at its
      length, and at most three codes are chosen at once. */
  lemma AchievementSelection(solved: int, streak: int, topic: string, ngp: Option<TopicRecord>)
    ensures var c := AchievementCodes(solved, streak, topic, ngp);
      && |c| <= 3
      && ("first_solve" in c <==> solved == 1)
      && ("hundred_club" in c <==> solved == 100)
      && ("quincentennial" in c <==> solved == 500)
      && ("streak_7" in c <==> streak == 7)
      && ("streak_30" in c <==> streak == 30)
      && ("streak_100" in c <==> streak == 100)
      && ("ngp_master" in c ==> topic == "NGP")
  {
    var m, s, g := MilestoneCodes(solved), StreakCodes(streak), MasteryCodes(topic, ngp);
    MilestoneFacts(solved);
    StreakFacts(streak);
    MasteryFacts(topic, ngp);
    forall x ensures x in m + s + g <==> x in m || x in s || x in g {
    }
    assert "first_solve"[0] == 'f' && "hundred_club"[0] == 'h' && "quincentennial"[0] == 'q';
    assert "streak_7"[0] == 's' && "streak_30"[0] == 's' && "streak_100"[0] == 's';
    assert "ngp_master"[0] == 'n';
  }

  /** The achievements held after awarding `codes` to a user holding `held`: each code
      not yet held is added once, in order. */
  function Awarded(held: seq<string>, codes: seq<string>): (r: seq<string>)
    ensures forall x :: x in r <==> x in held || x in codes
    ensures |held| <= |r| && held == r[..|held|]
    decreases |codes|
  {
    if codes == [] then held
    else
      var h := if codes[0] in held then held else held + [codes[0]];
      Awarded(h, codes[1..])
  }

  predicate Distinct(xs: seq<string>) {
    forall i, j :: 0 <= i < j < |xs| ==> xs[i] != xs[j]
  }

  /** Awarding never duplicates an achievement, and awarding the same codes again
      changes nothing. */
  lemma {:induction false} AwardedDistinct(held: seq<string>, codes: seq<string>)
    requires Distinct(held)
    ensures Distinct(Awarded(held, codes))
    ensures Awarded(Awarded(held, codes), codes) == Awarded(held, codes)
    decreases |codes|
  {
    if codes != [] {
      var h := if codes[0] in held then held else held + [codes[0]];
      AwardedDistinct(h, codes[1..]);
      AllHeldChangesNothing(Awarded(held, codes), codes);
    }
  }

  lemma {:induction false} AllHeldChangesNothing(held: seq<string>, codes: seq<string>)
    requires forall x :: x in codes ==> x in held
    ensures Awarded(held, codes) == held
    decreases |codes|
  {
    if codes != [] {
      AllHeldChangesNothing(held, codes[1..]);
    }
  }

  function Achieved(u: UserRecord, topic: string, ngp: Option<TopicRecord>): UserRecord {
    u.(achievements := Awarded(u.achievements, AchievementCodes(u.totalProblemsSolved, u.currentStreak, topic, ngp)))
  }

  // ------------------------------------------------------------ the engine

  /** The user after `track_problem` as written: `_update_user_stats` stamps
      `last_problem_date` with now, then `_update_streak` measures the gap from that
      new date. */
  function TrackedAsWritten(u: UserRecord, topic: string, ngp: Option<TopicRecord>, isCorrect: bool,
                            timeTaken: int, difficulty: int, hintUsed: bool, now: int): UserRecord {
    Achieved(SolvedAsWritten(u, isCorrect, timeTaken, difficulty, hintUsed, now), topic, ngp)
  }

  /** The user after the first three steps of `track_problem` as written (stats,
      streak, level-up), which is all that remains when `_update_topic_stats` raises. */
  function SolvedAsWritten(u: UserRecord, isCorrect: bool, timeTaken: int, difficulty: int,
                           hintUsed: bool, now: int): UserRecord {
    LevelUpdated(StreakUpdated(AfterSolve(u, isCorrect, timeTaken, difficulty, hintUsed, now), now))
  }

  /** As written, the streak can never change: the gap measured is always 0 days. */
  lemma AsWrittenStreakFrozen(u: UserRecord, topic: string, ngp: Option<TopicRecord>, isCorrect: bool,
                              timeTaken: int, difficulty: int, hintUsed: bool, now: int)
    ensures var r := TrackedAsWritten(u, topic, ngp, isCorrect, timeTaken, difficulty, hintUsed, now);
      r.currentStreak == u.currentStreak && r.longestStreak == u.longestStreak
  {
    assert DaysBetween(now, now) == 0;
  }

  /** A user who last solved a problem exactly one day ago, on a 3-day streak, is
      still on a 3-day streak after solving one today. */
  lemma AsWrittenMissesNextDay()
    ensures var u := NewUser.(currentStreak := 3, longestStreak := 3, lastProblemDate := Some(0));
      TrackedAsWritten(u, "SN1", None, true, 100, 5, false, MicrosPerDay).currentStreak == 3
  {
    var u := NewUser.(currentStreak := 3, longestStreak := 3, lastProblemDate := Some(0));
    AsWrittenStreakFrozen(u, "SN1", None, true, 100, 5, false, MicrosPerDay);
  }

  /** As written, a user's first problem (which always opens a new topic row, so
      `_update_topic_stats` raises) keeps the achievements unchanged: `first_solve` is
      never awarded, although the user now has one problem solved. */
  lemma AsWrittenFirstSolveLost(u: UserRecord, isCorrect: bool, timeTaken: int, difficulty: int,
                                hintUsed: bool, now: int)
    requires u.totalProblemsSolved == 0 && "first_solve" !in u.achievements
    ensures var r := SolvedAsWritten(u, isCorrect, timeTaken, difficulty, hintUsed, now);
      r.totalProblemsSolved == 1 && r.achievements == u.achievements && "first_solve" !in r.achievements
  {
  }

  /** The user after `track_problem` with the streak measured from the previous
      problem's date, as the streak rules describe. */
  function Tracked(u: UserRecord, topic: string, ngp: Option<TopicRecord>, isCorrect: bool,
                   timeTaken: int, difficulty: int, hintUsed: bool, now: int): UserRecord {
    Achieved(LevelUpdated(AfterSolve(StreakUpdated(u, now), isCorrect, timeTaken, difficulty, hintUsed, now)),
             topic, ngp)
  }

  /** With the gap taken before the date is stamped, solving on the next day extends
      the streak, and every other column follows the rules above. */
  lemma TrackedFollowsStreakRules(u: UserRecord, topic: string, ngp: Option<TopicRecord>, isCorrect: bool,
                                  timeTaken: int, difficulty: int, hintUsed: bool, now: int)
    ensures var r := Tracked(u, topic, ngp, isCorrect, timeTaken, difficulty, hintUsed, now);
      && (r.currentStreak, r.longestStreak)
         == StreakAfter(u.currentStreak, u.longestStreak, Gap(u.lastProblemDate, now))
      && r.totalProblemsSolved == u.totalProblemsSolved + 1
      && r.lastProblemDate == Some(now)
      && r.totalScore == u.totalScore + CalculatePoints(difficulty, isCorrect, timeTaken, hintUsed)
      && (r.level == u.level || r.level == u.level + 1)
      && (u.lastProblemDate == Some(now - MicrosPerDay) ==> r.currentStreak == u.currentStreak + 1)
  {
    assert DaysBetween(now, now - MicrosPerDay) == 1;
  }

  /** With the new row counted, a user's first problem earns `first_solve`. */
  lemma FirstProblemEarnsFirstSolve(u: UserRecord, topic: string, isCorrect: bool, timeTaken: int,
                                    difficulty: int, hintUsed: bool, now: int)
    requires u.totalProblemsSolved == 0
    ensures var ngp := Some(TopicAfter(NewTopic, isCorrect, timeTaken));
      "first_solve" in Tracked(u, topic, ngp, isCorrect, timeTaken, difficulty, hintUsed, now).achievements
  {
    var ngp := Some(TopicAfter(NewTopic, isCorrect, timeTaken));
    var v := LevelUpdated(AfterSolve(StreakUpdated(u, now), isCorrect, timeTaken, difficulty, hintUsed, now));
    assert v.totalProblemsSolved == 1;
    var codes := AchievementCodes(v.totalProblemsSolved, v.currentStreak, topic, ngp);
    assert codes[0] == "first_solve";
  }

  class User {
    const telegramId: int
    var totalProblemsSolved: int
    var totalCorrect: int
    var currentStreak: int
    var longestStreak: int
    var lastProblemDate: Option<int>
    var lastActive: Option<int>
    var totalScore: int
    var level: int
    var experiencePoints: int
    var achievements: seq<string>

    function Record(): UserRecord
      reads this
    {
      UserRecord(totalProblemsSolved, totalCorrect, currentStreak, longestStreak, lastProblemDate,
                 lastActive, totalScore, level, experiencePoints, achievements)
    }

    constructor (telegramId: int)
      ensures this.telegramId == telegramId && Record() == NewUser
    {
      this.telegramId := telegramId;
      totalProblemsSolved, totalCorrect, currentStreak, longestStreak := 0, 0, 0, 0;
      lastProblemDate, lastActive := None, None;
      totalScore, level, experiencePoints := 0, 1, 0;
      achievements := [];
    }

    /** `_update_user_stats`. */
    method UpdateUserStats(isCorrect: bool, timeTaken: int, difficulty: int, hintUsed: bool, now: int)
      modifies this
      ensures Record() == AfterSolve(old(Record()), isCorrect, timeTaken, difficulty, hintUsed, now)
    {
      totalProblemsSolved := totalProblemsSolved + 1;
      if isCorrect {
        totalCorrect := totalCorrect + 1;
      }
      lastActive := Some(now);
      lastProblemDate := Some(now);
      var points := CalculatePoints(difficulty, isCorrect, timeTaken, hintUsed);
      experiencePoints := experiencePoints + points;
      totalScore := totalScore + points;
    }

    /** `_update_streak`. */
    method UpdateStreak(now: int)
      modifies this
      ensures Record() == StreakUpdated(old(Record()), now)
    {
      if lastProblemDate.None? {
        currentStreak := 1;
        longestStreak := 1;
        return;
      }
      var daysDiff := DaysBetween(now, lastProblemDate.value);
      if daysDiff == 0 {
      } else if daysDiff == 1 {
        currentStreak := currentStreak + 1;
        if currentStreak > longestStreak {
          longestStreak := currentStreak;
        }
      } else {
        currentStreak := 1;
      }
    }

    /** `_check_level_up`. */
    method CheckLevelUp()
      modifies this
      ensures Record() == LevelUpdated(old(Record()))
    {
      var requiredXp := level * 100;
      if experiencePoints >= requiredXp {
        level := level + 1;
        experiencePoints := experiencePoints - requiredXp;
      }
    }

    /** The award loop of `_check_achievements`: a code is added only when the user
        does not hold it yet. */
    method Award(codes: seq<string>)
      modifies this
      ensures Record() == old(Record()).(achievements := Awarded(old(achievements), codes))
    {
      var i := 0;
      while i < |codes|
        invariant 0 <= i <= |codes|
        invariant Record() == old(Record()).(achievements := achievements)
        invariant Awarded(old(achievements), codes) == Awarded(achievements, codes[i..])
      {
        assert codes[i..][1..] == codes[i + 1..];
        ghost var h := achievements;
        assert Awarded(h, codes[i..]) == Awarded(if codes[i] in h then h else h + [codes[i]], codes[i + 1..]);
        if codes[i] !in achievements {
          achievements := achievements + [codes[i]];
        }
        i := i + 1;
      }
    }
  }

  /**
   * A `TopicStatistics` row object. `loaded` tells whether its counters hold values:
   * a row read by a query has them, but an object built in the session with only
   * `user_id` and `topic` reads `None` for every counter until its INSERT writes the
   * `Column(default=…)` values, which the fields here already hold.
   */
  class TopicStatistics {
    const userId: int
    const topic: string
    var loaded: bool
    var problemsAttempted: int
    var problemsCorrect: int
    var accuracy: real
    var totalTimeSeconds: int
    var averageTimeSeconds: int
    var currentDifficulty: int

    function Record(): TopicRecord
      reads this
    {
      TopicRecord(problemsAttempted, problemsCorrect, accuracy, totalTimeSeconds, averageTimeSeconds,
                  currentDifficulty)
    }

    /** `TopicStatistics(user_id=…, topic=…)`: the counters are unset until the row is
        inserted with its column defaults. */
    constructor (userId: int, topic: string)
      ensures this.userId == userId && this.topic == topic && Record() == NewTopic && !loaded
    {
      this.userId, this.topic := userId, topic;
      loaded := false;
      problemsAttempted, problemsCorrect, accuracy := 0, 0, 0.0;
      totalTimeSeconds, averageTimeSeconds, currentDifficulty := 0, 0, 5;
    }

    /** A new row created with its column defaults set explicitly, so that its
        counters hold values at once. */
    constructor WithDefaults(userId: int, topic: string)
      ensures this.userId == userId && this.topic == topic && Record() == NewTopic && loaded
    {
      this.userId, this.topic := userId, topic;
      loaded := true;
      problemsAttempted, problemsCorrect, accuracy := 0, 0, 0.0;
      totalTimeSeconds, averageTimeSeconds, currentDifficulty := 0, 0, 5;
    }

    /** The updates of `_update_topic_stats`. On a row whose counters are unset the
        first `problems_attempted += 1` raises `TypeError` (`ok` is false) and nothing
        changes. */
    method RecordAttempt(isCorrect: bool, timeTaken: int) returns (ok: bool)
      requires problemsAttempted >= 0
      modifies this
      ensures ok == loaded && loaded == old(loaded)
      ensures ok ==> Record() == TopicAfter(old(Record()), isCorrect, timeTaken)
      ensures !ok ==> Record() == old(Record())
    {
      if !loaded {
        return false;
      }
      problemsAttempted := problemsAttempted + 1;
      if isCorrect {
        problemsCorrect := problemsCorrect + 1;
      }
      accuracy := (problemsCorrect as real / problemsAttempted as real) * 100.0;
      totalTimeSeconds := totalTimeSeconds + timeTaken;
      averageTimeSeconds := totalTimeSeconds / problemsAttempted;
      if accuracy > 85.0 && problemsAttempted >= 5 {
        currentDifficulty := if currentDifficulty + 1 < 10 then currentDifficulty + 1 else 10;
      } else if accuracy < 50.0 && problemsAttempted >= 5 {
        currentDifficulty := if currentDifficulty - 1 > 1 then currentDifficulty - 1 else 1;
      }
      return true;
    }
  }

  /** `_update_topic_stats` as written: the user's row for the topic is updated; when
      there is none, the new object's unset counters make the update raise (`ok` is
      false) and the row is left at its defaults. */
  method UpdateTopicStatsAsWritten(existing: TopicStatistics?, userId: int, topic: string, isCorrect: bool,
                                   timeTaken: int)
    returns (stats: TopicStatistics, ok: bool)
    requires existing != null ==> existing.loaded && existing.problemsAttempted >= 0
    modifies existing
    ensures ok <==> existing != null
    ensures existing != null ==> stats == existing
                                 && stats.Record() == TopicAfter(old(existing.Record()), isCorrect, timeTaken)
    ensures existing == null ==> fresh(stats) && stats.userId == userId && stats.topic == topic
                                 && stats.Record() == NewTopic && !stats.loaded
  {
    if existing == null {
      stats := new TopicStatistics(userId, topic);
    } else {
      stats := existing;
    }
    ok := stats.RecordAttempt(isCorrect, timeTaken);
  }

  /** `_update_topic_stats` with the new row's defaults set when it is created: the
      user's row for the topic is updated in place, or created and then updated. */
  method UpdateTopicStats(existing: TopicStatistics?, userId: int, topic: string, isCorrect: bool, timeTaken: int)
    returns (stats: TopicStatistics)
    requires existing != null ==> existing.loaded && existing.problemsAttempted >= 0
    modifies existing
    ensures existing != null ==> stats == existing
                                 && stats.Record() == TopicAfter(old(existing.Record()), isCorrect, timeTaken)
    ensures existing == null ==> fresh(stats) && stats.userId == userId && stats.topic == topic
                                 && stats.Record() == TopicAfter(NewTopic, isCorrect, timeTaken)
  {
    if existing == null {
      stats := new TopicStatistics.WithDefaults(userId, topic);
    } else {
      stats := existing;
    }
    var ok := stats.RecordAttempt(isCorrect, timeTaken);
  }

  /** `track_problem` as written, for a user (when there is one), the row of the topic
      (when there is one) and the id the flush gave the new problem. When the topic
      row is new, `_update_topic_stats` raises: the result is -1 and achievements
      are not checked, but the user's updates stay (the handler swallows the error,
      so the session commits). */
  method TrackProblemAsWritten(user: User?, existing: TopicStatistics?, userId: int, topic: string,
                               isCorrect: bool, timeTaken: int, difficulty: int, hintUsed: bool, now: int,
                               problemId: int)
    returns (stats: TopicStatistics, r: int)
    requires existing != null ==> existing.loaded && existing.problemsAttempted >= 0
    modifies user, existing
    ensures existing != null ==> r == problemId && stats == existing
                                 && stats.Record() == TopicAfter(old(existing.Record()), isCorrect, timeTaken)
    ensures existing == null ==> r == -1 && fresh(stats) && stats.Record() == NewTopic
    ensures user != null && existing != null ==>
      user.Record() == TrackedAsWritten(old(user.Record()), topic, Some(stats.Record()), isCorrect, timeTaken,
                                        difficulty, hintUsed, now)
    ensures user != null && existing == null ==>
      user.Record() == SolvedAsWritten(old(user.Record()), isCorrect, timeTaken, difficulty, hintUsed, now)
  {
    if user != null {
      user.UpdateUserStats(isCorrect, timeTaken, difficulty, hintUsed, now);
      user.UpdateStreak(now);
      user.CheckLevelUp();
    }
    var ok;
    stats, ok := UpdateTopicStatsAsWritten(existing, userId, topic, isCorrect, timeTaken);
    if !ok {
      return stats, -1;
    }
    if user != null {
      var codes := AchievementCodes(user.totalProblemsSolved, user.currentStreak, topic, Some(stats.Record()));
      user.Award(codes);
    }
    r := problemId;
  }

  /** `track_problem` with the streak updated before the date is stamped and the new
      topic row created with its defaults. */
  method TrackProblem(user: User?, existing: TopicStatistics?, userId: int, topic: string,
                      isCorrect: bool, timeTaken: int, difficulty: int, hintUsed: bool, now: int,
                      problemId: int)
    returns (stats: TopicStatistics, r: int)
    requires existing != null ==> existing.loaded && existing.problemsAttempted >= 0
    modifies user, existing
    ensures r == problemId
    ensures existing != null ==> stats == existing
                                 && stats.Record() == TopicAfter(old(existing.Record()), isCorrect, timeTaken)
    ensures existing == null ==> fresh(stats) && stats.Record() == TopicAfter(NewTopic, isCorrect, timeTaken)
    ensures user != null ==>
      user.Record() == Tracked(old(user.Record()), topic, Some(stats.Record()), isCorrect, timeTaken,
                               difficulty, hintUsed, now)
  {
    if user != null {
      user.UpdateStreak(now);
      user.UpdateUserStats(isCorrect, timeTaken, difficulty, hintUsed, now);
      user.CheckLevelUp();
    }
    stats := UpdateTopicStats(existing, userId, topic, isCorrect, timeTaken);
    if user != null {
      var codes := AchievementCodes(user.totalProblemsSolved, user.currentStreak, topic, Some(stats.Record()));
      user.Award(codes);
    }
    r := problemId;
  }

  // --------------------------------------------------------------- advice

  /** `_get_weakness_recommendation`. */
  function WeaknessRecommendation(accuracy: real, topic: string): (s: string)
    ensures accuracy < 50.0 ==> s == "Review fundamentals. Try /flashcard " + topic
    ensures 50.0 <= accuracy < 70.0 ==> s == "Practice more problems. Use /practice " + topic
    ensures accuracy >= 70.0 ==> s == "Almost there! Focus on tricky edge cases."
  {
    if accuracy < 50.0 then "Review fundamentals. Try /flashcard " + topic
    else if accuracy < 70.0 then "Practice more problems. Use /practice " + topic
    else "Almost there! Focus on tricky edge cases."
  }

  /** The table of `_get_error_advice`, with its text exactly as stored in the file. */
  const ErrorAdvice: map<string, string> := map[
    "ngp_distance" := "\U{e2}\U{161}\U{a0}\U{ef}\U{b8} Remember: NGP only works within 2-3 atoms!",
    "rate_law_confusion" := "\U{f0}\U{178}\U{201c} SN1 = k[RX], SN2 = k[Nu][RX]",
    "stereochemistry" := "\U{f0}\U{178}\U{201d}\U{201e} SN2 = Inversion (180\U{c2}\U{b0}), SN1 = Racemization",
    "mechanism_selection" := "\U{f0}\U{178}\U{17d}\U{af} Check substrate: 1\U{c2}\U{b0} \U{e2}\U{2020}\U{2019} SN2, 3\U{c2}\U{b0} \U{e2}\U{2020}\U{2019} SN1, 2\U{c2}\U{b0} \U{e2}\U{2020}\U{2019} check NGP!"
  ]

  const DefaultErrorAdvice: string := "Review the concept and try more practice problems"

  /** `_get_error_advice`: the table entry, or the general advice for any other error
      type. */
  function ErrorAdviceFor(errorType: string): (s: string)
    ensures errorType in ErrorAdvice ==> s == ErrorAdvice[errorType]
    ensures errorType !in ErrorAdvice ==> s == DefaultErrorAdvice
  {
    if errorType in ErrorAdvice then ErrorAdvice[errorType] else DefaultErrorAdvice
  }
}
