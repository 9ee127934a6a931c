/**
 * The two decision rules of smart_automation.py (feature_modules/automation): the
 * exam-countdown intensity bands and the notification gate.
 *
 * The days until the exam are an input (the source computes them from the clock),
 * and the user-activity dictionary is a map from key to minutes.
 */
module SmartAutomation {

  // --------------------------------------------------------------- countdown

  /** The dictionary `get_countdown_status` returns. */
  datatype CountdownStatus = CountdownStatus(daysRemaining: int, intensity: string, message: string,
                                             recommendedDailyProblems: int)

  /** `ExamCountdownManager.get_countdown_status`, given `days_remaining`. */
  function GetCountdownStatus(daysRemaining: int): CountdownStatus {
    var (intensity, message) :=
      if daysRemaining <= 7 then ("MAXIMUM", "🚨 Final week! Full intensity!")
      else if daysRemaining <= 30 then ("HIGH", "⚡ Last month! Step it up!")
      else if daysRemaining <= 90 then ("MODERATE", "📈 3 months to go. Stay consistent.")
      else ("NORMAL", "📚 Plenty of time. Build foundations.");
    CountdownStatus(daysRemaining, intensity, message, if daysRemaining <= 30 then 10 else 5)
  }

  /** How hard an intensity pushes, from NORMAL (0) to MAXIMUM (3). */
  function Level(intensity: string): int {
    if intensity == "MAXIMUM" then 3 else if intensity == "HIGH" then 2
    else if intensity == "MODERATE" then 1 else 0
  }

  /** The bands: up to 7 days MAXIMUM, up to 30 HIGH, up to 90 MODERATE, then NORMAL
      (a date already past counts as the final week); ten daily problems exactly in
      the last month, that is, exactly at MAXIMUM and HIGH, and five before. */
  lemma CountdownBands(daysRemaining: int)
    ensures var s := GetCountdownStatus(daysRemaining);
      && s.daysRemaining == daysRemaining
      && (s.intensity == "MAXIMUM" <==> daysRemaining <= 7)
      && (s.intensity == "HIGH" <==> 7 < daysRemaining <= 30)
      && (s.intensity == "MODERATE" <==> 30 < daysRemaining <= 90)
      && (s.intensity == "NORMAL" <==> 90 < daysRemaining)
      && (s.recommendedDailyProblems == 10 <==> s.intensity in {"MAXIMUM", "HIGH"})
      && s.recommendedDailyProblems in {5, 10}
  {
  }

  /** Intensity and the daily load never drop as the exam gets closer. */
  lemma CountdownIntensifies(d1: int, d2: int)
    requires d1 <= d2
    ensures Level(GetCountdownStatus(d1).intensity) >= Level(GetCountdownStatus(d2).intensity)
    ensures GetCountdownStatus(d1).recommendedDailyProblems >= GetCountdownStatus(d2).recommendedDailyProblems
  {
  }

  // ----------------------------------------------------------- notifications

  const PriorityScores: map<string, int> := map[
    "new_achievement" := 8, "daily_quiz_ready" := 5, "reminder" := 3, "leaderboard_update" := 2]

  /** The priority of an event, 0 for one the table does not list. */
  function Priority(eventType: string): int {
    if eventType in PriorityScores then PriorityScores[eventType] else 0
  }

  /** `get("last_active_minutes_ago", 999)`. */
  function LastActive(userActivity: map<string, int>): int {
    if "last_active_minutes_ago" in userActivity then userActivity["last_active_minutes_ago"] else 999
  }

  /** `SmartNotifications.should_notify`. */
  function ShouldNotify(eventType: string, userActivity: map<string, int>): bool {
    var score := Priority(eventType);
    var lastActive := LastActive(userActivity);
    if lastActive < 30 then false else score >= 5
  }

  /** A user active in the last half hour is never notified; otherwise an event is
      sent exactly when its priority is at least 5, which for the listed events
      means a new achievement or a ready daily quiz; an unlisted event never is; a
      record without the activity key counts as long inactive. */
  lemma NotificationGate(eventType: string, userActivity: map<string, int>)
    ensures LastActive(userActivity) < 30 ==> !ShouldNotify(eventType, userActivity)
    ensures LastActive(userActivity) >= 30 ==>
      (ShouldNotify(eventType, userActivity) <==> Priority(eventType) >= 5)
    ensures ShouldNotify(eventType, userActivity) <==>
      LastActive(userActivity) >= 30 && eventType in {"new_achievement", "daily_quiz_ready"}
    ensures "last_active_minutes_ago" !in userActivity ==>
      (ShouldNotify(eventType, userActivity) <==> eventType in {"new_achievement", "daily_quiz_ready"})
  {
  }
}
