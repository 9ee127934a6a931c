/**
 * Three rules of database.py that do not depend on the database engine: the URL
 * normalisation of `get_database_url`, the daily-streak update of
 * `update_user_streak`, and the attempt loop of `wait_for_db`.
 *
 * The environment variable is a parameter, the `User` row is the in-memory record
 * of the `Analytics` module, and the connection probe is a function from the
 * attempt number to whether `SELECT 1` succeeded on that attempt.
 */
module Database {
  import opened Wrappers
  import opened Text
  import Analytics

  const DefaultDatabaseUrl: string := "sqlite:///chemistry_bot.db"
  const LegacyScheme: string := "postgres://"
  const Scheme: string := "postgresql://"

  /** `get_database_url`, given the value of `DATABASE_URL` (`None` when unset). */
  function GetDatabaseUrl(env: Option<string>): string {
    var url := env.GetOr(DefaultDatabaseUrl);
    if StartsWith(url, LegacyScheme) then ReplaceFirst(url, LegacyScheme, Scheme) else url
  }

  /** A leading `postgres://` becomes `postgresql://` with the rest kept; any other
      URL comes back unchanged; an unset variable gives the SQLite file. */
  lemma DatabaseUrlRules(env: Option<string>)
    ensures var url := env.GetOr(DefaultDatabaseUrl);
      && (StartsWith(url, LegacyScheme) ==> GetDatabaseUrl(env) == Scheme + url[|LegacyScheme|..])
      && (!StartsWith(url, LegacyScheme) ==> GetDatabaseUrl(env) == url)
    ensures env.None? ==> GetDatabaseUrl(env) == DefaultDatabaseUrl
  {
    var url := env.GetOr(DefaultDatabaseUrl);
    if StartsWith(url, LegacyScheme) {
      ReplaceFirstOfPrefix(url, LegacyScheme, Scheme);
    }
    if env.None? {
      assert DefaultDatabaseUrl[..|LegacyScheme|] != LegacyScheme by {
        assert DefaultDatabaseUrl[1] != LegacyScheme[1];
      }
    }
  }

  /** Normalising twice is normalising once: the result never starts with the
      legacy scheme. */
  lemma DatabaseUrlIdempotent(env: Option<string>)
    ensures !StartsWith(GetDatabaseUrl(env), LegacyScheme)
    ensures GetDatabaseUrl(Some(GetDatabaseUrl(env))) == GetDatabaseUrl(env)
  {
    DatabaseUrlRules(env);
    var r := GetDatabaseUrl(env);
    var url := env.GetOr(DefaultDatabaseUrl);
    if StartsWith(url, LegacyScheme) {
      assert r[8] == 'q' && LegacyScheme[8] == ':';
    }
  }

  // ---------------------------------------------------------------- streak

  /** The calendar day of a timestamp (`datetime.date()`). */
  function Day(t: int): int {
    t / Analytics.MicrosPerDay
  }

  /** `update_user_streak` on (current, longest), given the calendar days between the
      last problem's date and today (`None` when there was no last problem). */
  function DailyStreakAfter(current: int, longest: int, days: Option<int>): (int, int) {
    match days
    case None => (1, longest)
    case Some(d) =>
      if d == 1 then (current + 1, if longest >= current + 1 then longest else current + 1)
      else if d > 1 then (1, longest)
      else (current, longest)
  }

  /** The first problem gives a streak of 1 with the record untouched; the next
      calendar day extends the streak and sets the record to the larger of the two; a
      longer gap restarts it at 1; the same day (or a date in the future) leaves
      both alone. */
  lemma DailyStreakRules(current: int, longest: int, d: int)
    ensures DailyStreakAfter(current, longest, None) == (1, longest)
    ensures d == 1 ==> DailyStreakAfter(current, longest, Some(d)).0 == current + 1
    ensures d == 1 ==> var l := DailyStreakAfter(current, longest, Some(d)).1;
                       l >= longest && l >= current + 1 && (l == longest || l == current + 1)
    ensures d > 1 ==> DailyStreakAfter(current, longest, Some(d)) == (1, longest)
    ensures d <= 0 ==> DailyStreakAfter(current, longest, Some(d)) == (current, longest)
  {
  }

  /** Calendar days, unlike `timedelta.days`, count midnight crossings: a problem at
      23:00 followed by one at 01:00 is on the next day. */
  lemma CalendarDaysCountMidnights()
    ensures var hour := Analytics.MicrosPerDay / 24;
      Day(Analytics.MicrosPerDay + hour) - Day(23 * hour) == 1
      && Analytics.DaysBetween(Analytics.MicrosPerDay + hour, 23 * hour) == 0
  {
  }

  /** `update_user_streak`: nothing for a missing user; otherwise the streak rule and
      the last problem date set to now. */
  method UpdateUserStreak(user: Analytics.User?, now: int)
    modifies user
    ensures user != null ==>
      var days := if old(user.lastProblemDate).None? then None
                  else Some(Day(now) - Day(old(user.lastProblemDate).value));
      var (c, l) := DailyStreakAfter(old(user.currentStreak), old(user.longestStreak), days);
      user.Record() == old(user.Record()).(currentStreak := c, longestStreak := l, lastProblemDate := Some(now))
  {
    if user == null {
      return;
    }
    var lastDate := user.lastProblemDate;
    if lastDate.None? {
      user.currentStreak := 1;
    } else if Day(now) - Day(lastDate.value) == 1 {
      user.currentStreak := user.currentStreak + 1;
      user.longestStreak := if user.longestStreak >= user.currentStreak then user.longestStreak
                            else user.currentStreak;
    } else if Day(now) - Day(lastDate.value) > 1 {
      user.currentStreak := 1;
    }
    user.lastProblemDate := Some(now);
  }

  // ------------------------------------------------------------ wait_for_db

  /** The first attempt in `[from, last]` whose probe succeeds. */
  function FirstSuccess(probe: int -> bool, from: int, last: int): (r: Option<int>)
    ensures r.Some? ==> from <= r.value <= last && probe(r.value)
    ensures r.Some? ==> forall a :: from <= a < r.value ==> !probe(a)
    ensures r.None? ==> forall a :: from <= a <= last ==> !probe(a)
    decreases last - from + 1
  {
    if from > last then None
    else if probe(from) then Some(from)
    else FirstSuccess(probe, from + 1, last)
  }

  /** `wait_for_db`: attempts 1 to `max_retries` in turn; true at the first one that
      connects, false when none does; one `retry_delay` sleep after each failed
      attempt except the last. */
  method WaitForDb(maxRetries: int, retryDelay: int, probe: int -> bool)
    returns (connected: bool, attempts: nat, sleeps: seq<int>)
    ensures connected <==> FirstSuccess(probe, 1, maxRetries).Some?
    ensures connected ==> attempts == FirstSuccess(probe, 1, maxRetries).value
    ensures !connected ==> attempts == if maxRetries > 0 then maxRetries else 0
    ensures attempts <= if maxRetries > 0 then maxRetries else 0
    ensures |sleeps| == if attempts > 0 then attempts - 1 else 0
    ensures forall i :: 0 <= i < |sleeps| ==> sleeps[i] == retryDelay
  {
    sleeps := [];
    attempts := 0;
    var attempt := 1;
    while attempt <= maxRetries
      invariant 1 <= attempt <= (if maxRetries > 0 then maxRetries else 0) + 1
      invariant attempts == attempt - 1
      invariant FirstSuccess(probe, 1, maxRetries) == FirstSuccess(probe, attempt, maxRetries)
      invariant |sleeps| == if attempt <= maxRetries then attempt - 1 else if attempt > 1 then attempt - 2 else 0
      invariant forall i :: 0 <= i < |sleeps| ==> sleeps[i] == retryDelay
      decreases maxRetries - attempt + 1
    {
      attempts := attempt;
      if probe(attempt) {
        return true, attempts, sleeps;
      }
      if attempt < maxRetries {
        sleeps := sleeps + [retryDelay];
      }
      attempt := attempt + 1;
    }
    connected := false;
  }
}
