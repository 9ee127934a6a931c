/**
 * The table-driven parts of cognitive_load.py (feature_modules/intelligence): the
 * Socratic question list for a topic and difficulty, the guided hint lookup, and
 * the suggestion attached to a detected cognitive state.
 *
 * The question templates and hints are fixed tables built in the constructors and
 * never updated, so they are constants here.
 */
module CognitiveLoad {
  import opened Text

  // ------------------------------------------------------------- suggestion

  const FallbackSuggestion: string := "Keep learning!"

  const Suggestions: map<string, string> := map[
    "fatigued" := "😴 You seem tired. Take a 10-minute break or try easier problems to rebuild confidence.",
    "struggling" := "💪 This topic seems challenging. Let's review fundamentals or try a different approach.",
    "flow" := "🔥 You're in the zone! Let's tackle some harder problems while you're sharp.",
    "normal" := "✅ Steady progress! Keep going at your pace."]

  /** `CognitiveLoadDetector._get_adjustment_suggestion`. */
  function GetAdjustmentSuggestion(state: string): string {
    if state in Suggestions then Suggestions[state] else FallbackSuggestion
  }

  /** Each of the four detected states gets its own table entry; any other state,
      the detector's `insufficient_data` and `error` results among them, gets
      "Keep learning!". */
  lemma AdjustmentSuggestionRules(state: string)
    ensures state in {"fatigued", "struggling", "flow", "normal"} ==>
      GetAdjustmentSuggestion(state) == Suggestions[state]
    ensures state !in {"fatigued", "struggling", "flow", "normal"} ==>
      GetAdjustmentSuggestion(state) == FallbackSuggestion
    ensures GetAdjustmentSuggestion("insufficient_data") == FallbackSuggestion
    ensures GetAdjustmentSuggestion("error") == FallbackSuggestion
  {
  }

  // ------------------------------------------------------- Socratic questions

  const QuestionTemplates: map<string, seq<string>> := map[
    "SN1" := [
      "What type of carbocation would form here? Is it stable?",
      "Is this substrate likely to undergo rearrangement? Why?",
      "What's the rate-determining step in SN1?",
      "Will the product be racemic or optically active?"],
    "SN2" := [
      "Can the nucleophile attack from the backside here?",
      "What's the stereochemistry of the product?",
      "Is there steric hindrance preventing SN2?",
      "Compare the nucleophile strength - which is stronger?"],
    "NGP" := [
      "Is there a neighboring group 2-3 atoms away?",
      "Can this group donate electrons to stabilize the carbocation?",
      "How much faster will this reaction be with NGP?",
      "What will the product structure look like with the bridged intermediate?"]]

  /** The meta-cognitive questions every list ends with. */
  const MetaQuestions: seq<string> := [
    "What concept is being tested here?",
    "What are the key factors that determine the mechanism?",
    "What would change if we modified the structure slightly?"]

  /** Each of the three topics has four templates. */
  lemma FourTemplatesPerTopic(topic: string)
    requires topic in QuestionTemplates
    ensures |QuestionTemplates[topic]| == 4
  {
  }

  /** `SocraticDialogueMode.generate_socratic_questions`: the first `difficulty // 2`
      templates of the topic (at most all of them; a negative count drops that many
      from the end, as a Python slice does), then the three meta questions. A topic
      without templates gets only the meta questions. */
  method GenerateSocraticQuestions(topic: string, difficulty: int) returns (questions: seq<string>)
    ensures topic !in QuestionTemplates ==> questions == MetaQuestions
    ensures topic in QuestionTemplates && difficulty >= 0 ==>
      var all := QuestionTemplates[topic];
      var n := if difficulty / 2 <= |all| then difficulty / 2 else |all|;
      |questions| == n + |MetaQuestions| && questions[..n] == all[..n] && questions[n..] == MetaQuestions
    ensures topic in QuestionTemplates && difficulty < 0 ==>
      var all := QuestionTemplates[topic];
      var n := if |all| + difficulty / 2 >= 0 then |all| + difficulty / 2 else 0;
      |questions| == n + |MetaQuestions| && questions[..n] == all[..n] && questions[n..] == MetaQuestions
    ensures topic in QuestionTemplates && difficulty >= 0 ==>
      && |questions| == (if difficulty / 2 <= 4 then difficulty / 2 else 4) + 3
      && (difficulty < 2 <==> questions == MetaQuestions)
      && (8 <= difficulty ==> questions == QuestionTemplates[topic] + MetaQuestions)
  {
    if topic in QuestionTemplates {
      FourTemplatesPerTopic(topic);
    }
    questions := [];
    if topic in QuestionTemplates {
      var all := QuestionTemplates[topic];
      var num := if difficulty / 2 <= |all| then difficulty / 2 else |all|;
      questions := SliceTo(all, num);
    }
    questions := questions + MetaQuestions;
  }

  // ------------------------------------------------------------ guided hints

  const DefaultHint: string := "💭 Take your time. What do you notice about the structure that might be important?"

  const GuidedHints: map<string, map<int, string>> := map[
    "SN1" := map[
      1 := "💭 Think: What forms first in SN1? (Hint: it's a charged species)",
      2 := "🤔 After the carbocation forms, what attacks it? From which side?",
      3 := "💡 Remember: SN1 → Carbocation → Racemic mixture (usually)"],
    "SN2" := map[
      1 := "💭 Think: Where does the nucleophile attack? (Front or back?)",
      2 := "🤔 What happens to the stereochemistry during backside attack?",
      3 := "💡 Remember: SN2 → Backside attack → Inversion of configuration"],
    "NGP" := map[
      1 := "💭 Think: Is there an atom nearby that can help stabilize the intermediate?",
      2 := "🤔 How far away should the neighboring group be? (Count atoms)",
      3 := "💡 Remember: NGP → Bridged intermediate → Unusual products + rate boost"]]

  /** `SocraticDialogueMode.provide_guided_hint`. */
  function ProvideGuidedHint(topic: string, hintLevel: int): string {
    if topic in GuidedHints && hintLevel in GuidedHints[topic] then GuidedHints[topic][hintLevel]
    else DefaultHint
  }

  /** A hint exists for the three topics at levels 1 to 3 and is the table's;
      every other topic, and every level outside 1 to 3 (0 and negative levels
      included), gets the default prompt. */
  lemma GuidedHintRules(topic: string, hintLevel: int)
    ensures topic in GuidedHints && 1 <= hintLevel <= 3 ==>
      ProvideGuidedHint(topic, hintLevel) == GuidedHints[topic][hintLevel]
    ensures topic !in {"SN1", "SN2", "NGP"} ==> ProvideGuidedHint(topic, hintLevel) == DefaultHint
    ensures !(1 <= hintLevel <= 3) ==> ProvideGuidedHint(topic, hintLevel) == DefaultHint
  {
  }
}
