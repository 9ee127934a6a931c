/**
 * `ContentGenerator` (content_generator.py): round-robin keys, the generation
 * prompt, the parser that reads a generated multiple-choice problem back out of
 * free text, and the quiz loop.
 *
 * The parser's regular expressions (all searched with `re.IGNORECASE`, most with
 * `re.DOTALL`) are modelled by the group a match at one start position yields
 * after Python's backtracking, and `re.search` by the leftmost start that
 * matches:
 *   ProblemPattern:      PROBLEM:\s*(.+?)(?=\(A\))
 *   OptionPattern(X):    \(X\)\s*(.+?)(?=\([A-D]\)|ANSWER:|$)
 *   AnswerPattern:       ANSWER:\s*\(?([A-D])\)?
 *   ExplanationPattern:  EXPLANATION:\s*(.+)
 * The HTTP call of `generate_practice_problem` is a parameter `service` from the
 * request (the URL and the inputs of the prompt) to what came back; the problem
 * cache is the `generated_problems` table, an object the generator reads and
 * extends, and its random choice is a parameter.
 */
module ContentGen {
  import opened Wrappers
  import opened Text
  import KeyRotation
  import ResponseExtractor

  const KeysRequiredError: string := "At least one API key required"
  const ParseError: string := "Failed to parse problem"
  const TimeoutError: string := "Generation timeout"

  /** The fixed topic templates of the constructor: concepts, then difficulty factors. */
  const TopicTemplates: map<string, (seq<string>, seq<string>)> := map[
    "SN1" := (["carbocation stability", "rate law", "racemization", "rearrangement"],
              ["simple tertiary", "rearrangement", "competing E1"]),
    "SN2" := (["backside attack", "inversion", "steric hindrance", "nucleophile strength"],
              ["primary substrate", "strong Nu", "crowded substrate"]),
    "NGP" := (["neighboring group", "rate enhancement", "distance", "product formation"],
              ["2 atoms away", "phenyl NGP", "oxygen NGP"]),
    "E1" := (["carbocation", "Zaitsev rule", "temperature effect"],
             ["simple", "rearrangement", "vs SN1"]),
    "E2" := (["anti-periplanar", "strong base", "Hofmann vs Zaitsev"],
             ["simple", "syn impossible", "regioselective"])
  ]

  // ---------------------------------------------------------------- prompt

  /** The difficulty wording: five named levels, "moderate" for every other value. */
  function DifficultyDescription(difficulty: int): (d: string)
    ensures difficulty !in {1, 3, 5, 7, 10} <==> d == "moderate"
  {
    if difficulty == 1 then "very easy (basic concept)"
    else if difficulty == 3 then "easy (straightforward)"
    else if difficulty == 5 then "moderate (typical JEE Mains)"
    else if difficulty == 7 then "hard (JEE Advanced level)"
    else if difficulty == 10 then "very hard (olympiad level)"
    else "moderate"
  }

  function PromptHead(topic: string, difficulty: int): string {
    "Generate a " + DifficultyDescription(difficulty) + " multiple-choice problem on " + topic
    + " for JEE Advanced chemistry.\n\nREQUIREMENTS:\n1. Create a realistic reaction scenario\n"
    + "2. Include 4 options (A, B, C, D)\n3. One clear correct answer\n"
    + "4. Test understanding, not just memorization\n5. Include common misconceptions as wrong options\n\n"
    + "TOPIC: " + topic + "\nDIFFICULTY: " + IntToString(difficulty) + "/10\n"
  }

  const PromptFormat: string :=
    "\nFORMAT:\nPROBLEM: [question text]\n(A) [option A]\n(B) [option B]\n(C) [option C]\n(D) [option D]\n"
    + "ANSWER: [letter]\nEXPLANATION: [why correct and why others wrong]\n\nGenerate the problem now:"

  /** `if weaknesses:` — neither `None` nor an empty list. */
  predicate HasWeaknesses(weaknesses: Option<seq<string>>) {
    weaknesses.Some? && weaknesses.value != []
  }

  /** The focus line: empty unless there are weaknesses. */
  function FocusLine(weaknesses: Option<seq<string>>): string {
    if HasWeaknesses(weaknesses) then "\nFOCUS ON: " + Join(weaknesses.value, ", ") + "\n" else ""
  }

  /** `_build_generation_prompt`. */
  function BuildGenerationPrompt(topic: string, difficulty: int, weaknesses: Option<seq<string>>): string {
    PromptHead(topic, difficulty) + FocusLine(weaknesses) + PromptFormat
  }

  /** Splicing the focus line between a heading and a format block. */
  lemma Splice(head: string, format: string, weaknesses: Option<seq<string>>)
    ensures !HasWeaknesses(weaknesses) ==> head + FocusLine(weaknesses) + format == head + format
    ensures HasWeaknesses(weaknesses) ==>
      head + FocusLine(weaknesses) + format == head + ("\nFOCUS ON: " + Join(weaknesses.value, ", ") + "\n") + format
  {
    assert head + "" + format == head + format;
  }

  /** Without weaknesses the prompt is the heading followed by the format block. */
  lemma PromptWithoutWeaknesses(topic: string, difficulty: int, weaknesses: Option<seq<string>>)
    requires !HasWeaknesses(weaknesses)
    ensures BuildGenerationPrompt(topic, difficulty, weaknesses) == PromptHead(topic, difficulty) + PromptFormat
  {
    Splice(PromptHead(topic, difficulty), PromptFormat, weaknesses);
  }

  /** With weaknesses a "FOCUS ON:" line listing them comes between the two. */
  lemma PromptWithWeaknesses(topic: string, difficulty: int, weaknesses: Option<seq<string>>)
    requires HasWeaknesses(weaknesses)
    ensures BuildGenerationPrompt(topic, difficulty, weaknesses)
      == PromptHead(topic, difficulty) + ("\nFOCUS ON: " + Join(weaknesses.value, ", ") + "\n") + PromptFormat
  {
    Splice(PromptHead(topic, difficulty), PromptFormat, weaknesses);
  }

  // ---------------------------------------------------------------- parser

  /** The two lookaheads of the lazy patterns. */
  datatype Lookahead =
    | OptionA     // (?=\(A\)), in either case
    | OptionEnd   // (?=\([A-D]\)|ANSWER:|$)

  /** Whether the lookahead succeeds at position `e`. `$` matches at the end and just
      before a final newline. */
  predicate Stops(t: string, look: Lookahead, e: nat) {
    match look
    case OptionA => MatchesAtIgnoringCase(t, e, "(A)")
    case OptionEnd =>
      || (e + 3 <= |t| && t[e] == '(' && ResponseExtractor.IsOptionLetter(t[e + 1]) && t[e + 2] == ')')
      || MatchesAtIgnoringCase(t, e, "ANSWER:")
      || e == |t|
      || (e + 1 == |t| && t[e] == '\n')
  }

  /** The smallest position in `[from, |t|]` where the lookahead succeeds: where a lazy
      `.+?` stops. */
  function FirstStop(t: string, look: Lookahead, from: nat): (r: Option<nat>)
    ensures r.Some? ==> from <= r.value <= |t| && Stops(t, look, r.value)
    ensures r.Some? ==> forall q :: from <= q < r.value ==> !Stops(t, look, q)
    ensures r.None? ==> forall q :: from <= q <= |t| ==> !Stops(t, look, q)
    decreases |t| + 1 - from
  {
    if from > |t| then None
    else if Stops(t, look, from) then Some(from)
    else FirstStop(t, look, from + 1)
  }

  /** `\s*(.+?)(?=look)` after position `j`, with the greedy `\s*` at `s`: the group
      takes at least one character and ends at the first stop after it; when no stop
      follows, `\s*` gives back one character at a time. The result is the group's
      bounds. */
  function LazyGroupFrom(t: string, j: nat, s: nat, look: Lookahead): (r: Option<(nat, nat)>)
    requires j <= s <= |t|
    ensures r.Some? ==> j <= r.value.0 < r.value.1 <= |t|
    decreases s - j
  {
    var e := if s < |t| then FirstStop(t, look, s + 1) else None;
    if e.Some? then Some((s, e.value))
    else if s > j then LazyGroupFrom(t, j, s - 1, look)
    else None
  }

  /** A lazy pattern `kw\s*(.+?)(?=look)` matched at `i`: the stripped group. */
  function LazyAt(t: string, i: nat, kw: string, look: Lookahead): Option<string> {
    if !MatchesAtIgnoringCase(t, i, kw) then None
    else match LazyGroupFrom(t, i + |kw|, ResponseExtractor.SkipSpaces(t, i + |kw|), look)
      case None => None
      case Some(g) => Some(Strip(t[g.0..g.1]))
  }

  /** `re.search` for a lazy pattern: the match at the leftmost start from `i` on. */
  function SearchLazy(t: string, kw: string, look: Lookahead, i: nat): (r: Option<string>)
    ensures r.None? ==> forall q :: i <= q <= |t| ==> LazyAt(t, q, kw, look).None?
    decreases |t| + 1 - i
  {
    if i > |t| then None
    else if LazyAt(t, i, kw, look).Some? then LazyAt(t, i, kw, look)
    else SearchLazy(t, kw, look, i + 1)
  }

  /** A found section is the match at the leftmost start from `i` on where the
      pattern matches. */
  lemma {:induction false} SearchLazyLeftmost(t: string, kw: string, look: Lookahead, i: nat)
    ensures var r := SearchLazy(t, kw, look, i);
      r.Some? ==> exists q :: i <= q <= |t| && LazyAt(t, q, kw, look) == r
                              && forall q' :: i <= q' < q ==> LazyAt(t, q', kw, look).None?
    decreases |t| + 1 - i
  {
    if i <= |t| {
      var here := LazyAt(t, i, kw, look);
      if here.Some? {
        assert SearchLazy(t, kw, look, i) == here;
      } else {
        SearchLazyLeftmost(t, kw, look, i + 1);
        var r := SearchLazy(t, kw, look, i + 1);
        assert SearchLazy(t, kw, look, i) == r;
        if r.Some? {
          var q :| i + 1 <= q <= |t| && LazyAt(t, q, kw, look) == r
                   && forall q' :: i + 1 <= q' < q ==> LazyAt(t, q', kw, look).None?;
          NoLazyMatchBefore(t, kw, look, i, q);
        }
      }
    }
  }

  /** No match at `i` and none in `(i, q)` is none in `[i, q)`. */
  lemma NoLazyMatchBefore(t: string, kw: string, look: Lookahead, i: nat, q: nat)
    requires LazyAt(t, i, kw, look).None?
    requires forall q' :: i + 1 <= q' < q ==> LazyAt(t, q', kw, look).None?
    ensures forall q' :: i <= q' < q ==> LazyAt(t, q', kw, look).None?
  {
  }

  /** The problem statement, or "" when the pattern does not occur. */
  function ProblemText(t: string): string {
    SearchLazy(t, "PROBLEM:", OptionA, 0).GetOr("")
  }

  /** The text of option `letter`, if its pattern occurs. */
  function OptionText(t: string, letter: char): Option<string> {
    SearchLazy(t, ['(', letter, ')'], OptionEnd, 0)
  }

  /** `ANSWER:\s*\(?([A-D])\)?` matched at `i`. Giving back characters of `\s*` only
      puts a space where `(` or a letter is needed, so the longest run decides. */
  function AnswerAt(t: string, i: nat): (r: Option<char>)
    ensures r.Some? ==> ResponseExtractor.IsOptionLetter(r.value)
  {
    if !MatchesAtIgnoringCase(t, i, "ANSWER:") then None
    else
      var k := ResponseExtractor.SkipSpaces(t, i + 7);
      if k + 1 < |t| && t[k] == '(' && ResponseExtractor.IsOptionLetter(t[k + 1]) then Some(t[k + 1])
      else if k < |t| && ResponseExtractor.IsOptionLetter(t[k]) then Some(t[k])
      else None
  }

  /** The answer letter of the leftmost match from `i` on, as written (not
      upper-cased), or "". */
  function AnswerFrom(t: string, i: nat): (a: string)
    ensures a == "" || (|a| == 1 && ResponseExtractor.IsOptionLetter(a[0]))
    ensures a == "" ==> forall q :: i <= q <= |t| ==> AnswerAt(t, q).None?
    decreases |t| + 1 - i
  {
    if i > |t| then ""
    else match AnswerAt(t, i)
      case Some(c) => [c]
      case None => AnswerFrom(t, i + 1)
  }

  /** The letter of the first `ANSWER:` match in the text, or "" when there is none. */
  function AnswerLetter(t: string): (a: string)
    ensures a == "" || (|a| == 1 && ResponseExtractor.IsOptionLetter(a[0]))
    ensures a == "" ==> forall q :: 0 <= q <= |t| ==> AnswerAt(t, q).None?
  {
    AnswerFrom(t, 0)
  }

  /** A found answer is the letter of the match at the leftmost start from `i` on. */
  lemma {:induction false} AnswerFromLeftmost(t: string, i: nat)
    ensures var a := AnswerFrom(t, i);
      a != "" ==> exists q :: i <= q <= |t| && AnswerAt(t, q) == Some(a[0])
                              && forall q' :: i <= q' < q ==> AnswerAt(t, q').None?
    decreases |t| + 1 - i
  {
    if i <= |t| {
      var here := AnswerAt(t, i);
      if here.Some? {
        assert AnswerFrom(t, i) == [here.value];
      } else {
        AnswerFromLeftmost(t, i + 1);
        var a := AnswerFrom(t, i + 1);
        assert AnswerFrom(t, i) == a;
        if a != "" {
          var q :| i + 1 <= q <= |t| && AnswerAt(t, q) == Some(a[0])
                   && forall q' :: i + 1 <= q' < q ==> AnswerAt(t, q').None?;
          NoAnswerBefore(t, i, q);
        }
      }
    }
  }

  /** No answer match at `i` and none in `(i, q)` is none in `[i, q)`. */
  lemma NoAnswerBefore(t: string, i: nat, q: nat)
    requires AnswerAt(t, i).None?
    requires forall q' :: i + 1 <= q' < q ==> AnswerAt(t, q').None?
    ensures forall q' :: i <= q' < q ==> AnswerAt(t, q').None?
  {
  }

  /** The answer letter is that of the first `ANSWER:` match in the text. */
  lemma AnswerLetterLeftmost(t: string)
    ensures var a := AnswerLetter(t);
      a != "" ==> exists q :: 0 <= q <= |t| && AnswerAt(t, q) == Some(a[0])
                              && forall q' :: 0 <= q' < q ==> AnswerAt(t, q').None?
  {
    AnswerFromLeftmost(t, 0);
  }

  /** `EXPLANATION:\s*(.+)` matched at `i`: the greedy group runs to the end; it needs
      one character, which `\s*` gives back if it reached the end. */
  function ExplanationAt(t: string, i: nat): Option<string> {
    if !MatchesAtIgnoringCase(t, i, "EXPLANATION:") then None
    else
      var k := ResponseExtractor.SkipSpaces(t, i + 12);
      if k < |t| then Some(Strip(t[k..]))
      else if k > i + 12 then Some(Strip(t[k - 1..]))
      else None
  }

  /** The explanation of the leftmost match from `i` on, or "". */
  function ExplanationFrom(t: string, i: nat): string
    decreases |t| + 1 - i
  {
    if i > |t| then ""
    else match ExplanationAt(t, i)
      case Some(e) => e
      case None => ExplanationFrom(t, i + 1)
  }

  function ExplanationText(t: string): string {
    ExplanationFrom(t, 0)
  }

  const OptionLetters: seq<char> := ['A', 'B', 'C', 'D']

  /** The options found among `letters`, in that order (the dict insertion order). */
  function OptionsOf(t: string, letters: seq<char>): (os: seq<(char, string)>)
    ensures |os| <= |letters|
    ensures forall o :: o in os ==> o.0 in letters && OptionText(t, o.0) == Some(o.1)
    ensures forall c :: c in letters && OptionText(t, c).Some? ==> exists o :: o in os && o.0 == c
    decreases |letters|
  {
    if letters == [] then []
    else
      var init := OptionsOf(t, letters[..|letters| - 1]);
      var c := letters[|letters| - 1];
      assert forall x :: x in letters <==> x in letters[..|letters| - 1] || x == c;
      match OptionText(t, c)
      case None => init
      case Some(o) => init + [(c, o)]
  }

  /** A parsed problem. `generated_at` (the clock) is not modelled. */
  datatype GeneratedProblem = GeneratedProblem(
    topic: string,
    difficulty: int,
    problemText: string,
    options: seq<(char, string)>,
    correctAnswer: string,
    explanation: string)

  /** What `_parse_generated_problem` returns. */
  function ParseProblem(t: string, topic: string, difficulty: int): Result<GeneratedProblem, string> {
    var problem := ProblemText(t);
    var options := OptionsOf(t, OptionLetters);
    var answer := AnswerLetter(t);
    if problem == "" || options == [] || answer == "" then Err(ParseError)
    else Ok(GeneratedProblem(topic, difficulty, problem, options, answer, ExplanationText(t)))
  }

  /** Success exactly when a problem statement, at least one option and an answer
      letter were found; then the options are keyed by letters of A-D and the answer
      is one letter of [A-Da-d] as written. */
  lemma ParseProblemRules(t: string, topic: string, difficulty: int)
    ensures var r := ParseProblem(t, topic, difficulty);
      && (r.Ok? <==> ProblemText(t) != "" && OptionsOf(t, OptionLetters) != [] && AnswerLetter(t) != "")
      && (r.Err? ==> r.error == ParseError)
      && (r.Ok? ==> && r.value.topic == topic && r.value.difficulty == difficulty
                    && (forall o :: o in r.value.options ==> o.0 in {'A', 'B', 'C', 'D'})
                    && |r.value.correctAnswer| == 1
                    && ResponseExtractor.IsOptionLetter(r.value.correctAnswer[0]))
  {
  }

  /** Without an `EXPLANATION:` marker the explanation is empty, and parsing does not
      fail for that reason. */
  lemma MissingExplanationIsEmpty(t: string, topic: string, difficulty: int)
    requires forall i :: 0 <= i <= |t| ==> !MatchesAtIgnoringCase(t, i, "EXPLANATION:")
    ensures ExplanationText(t) == ""
    ensures ParseProblem(t, topic, difficulty).Ok? ==> ParseProblem(t, topic, difficulty).value.explanation == ""
  {
    NoExplanationFrom(t, 0);
  }

  lemma {:induction false} NoExplanationFrom(t: string, i: nat)
    requires forall q :: i <= q <= |t| ==> !MatchesAtIgnoringCase(t, q, "EXPLANATION:")
    ensures ExplanationFrom(t, i) == ""
    decreases |t| + 1 - i
  {
    if i <= |t| {
      NoExplanationFrom(t, i + 1);
    }
  }

  /** `_parse_generated_problem` as written: a loop over the four letters filling the
      options dict. */
  method ParseGeneratedProblem(text: string, topic: string, difficulty: int)
    returns (r: Result<GeneratedProblem, string>)
    ensures r == ParseProblem(text, topic, difficulty)
  {
    var problemText := ProblemText(text);
    var options: seq<(char, string)> := [];
    var i := 0;
    while i < |OptionLetters|
      invariant 0 <= i <= |OptionLetters|
      invariant options == OptionsOf(text, OptionLetters[..i])
    {
      assert OptionLetters[..i + 1][..i] == OptionLetters[..i];
      var m := OptionText(text, OptionLetters[i]);
      if m.Some? {
        options := options + [(OptionLetters[i], m.value)];
      }
      i := i + 1;
    }
    assert OptionLetters[..i] == OptionLetters;
    var correctAnswer := AnswerLetter(text);
    var explanation := ExplanationText(text);
    if problemText == "" || options == [] || correctAnswer == "" {
      return Err(ParseError);
    }
    r := Ok(GeneratedProblem(topic, difficulty, problemText, options, correctAnswer, explanation));
  }

  // ------------------------------------------------------------ generation

  /** What the HTTP call gave back: a 200 reply's candidate text, another status
      code, an `asyncio.TimeoutError` (the "Generation timeout" branch), or the
      message of any other exception. The client's own 30-second timeout raises
      `httpx.TimeoutException`, which is not an `asyncio.TimeoutError`: it reaches the
      general handler and is a `Raised` with its `str(e)`, not a `TimedOut`. */
  datatype Reply = Ok200(text: string) | Status(code: int) | TimedOut | Raised(message: string)

  /** One call of `generate_practice_problem`: the API key it uses, and what the
      prompt is built from. The call posts `Prompt(request)` to `Url(request)`. */
  datatype GenerationRequest = GenerationRequest(
    key: string, topic: string, difficulty: int, weaknesses: Option<seq<string>>)

  function Prompt(request: GenerationRequest): string {
    BuildGenerationPrompt(request.topic, request.difficulty, request.weaknesses)
  }

  function Url(request: GenerationRequest): string {
    "https://generativelanguage.googleapis.com/v1beta/models/gemini-2.0-flash-exp:generateContent?key=" + request.key
  }

  /** The outcome of `generate_practice_problem` for what the call gave back; a
      parsed problem carries the topic and difficulty asked for. */
  function GenerationOutcome(reply: Reply, topic: string, difficulty: int): (r: Result<GeneratedProblem, string>)
    ensures r.Ok? ==> r.value.topic == topic && r.value.difficulty == difficulty
  {
    match reply
    case Ok200(text) => ParseProblem(text, topic, difficulty)
    case Status(code) => Err("API error: " + IntToString(code))
    case TimedOut => Err(TimeoutError)
    case Raised(message) => Err(message)
  }

  // ----------------------------------------------------------------- cache

  /** A cached problem serves a request when it is for the topic and its difficulty
      is within two of the one asked for. */
  predicate Serves(p: GeneratedProblem, topic: string, difficulty: int) {
    p.topic == topic && difficulty - 2 <= p.difficulty <= difficulty + 2
  }

  /** The rows of the problem table that serve a request, in table order. */
  function Candidates(rows: seq<GeneratedProblem>, topic: string, difficulty: int): (c: seq<GeneratedProblem>)
    ensures forall p :: p in c <==> p in rows && Serves(p, topic, difficulty)
  {
    if rows == [] then []
    else (if Serves(rows[0], topic, difficulty) then [rows[0]] else []) + Candidates(rows[1..], topic, difficulty)
  }

  /** `get_cached_problem`: `None` when no row serves the request, else the row that
      the random draw `draw` selects among those that do. */
  function CachedProblem(rows: seq<GeneratedProblem>, topic: string, difficulty: int, draw: nat): (r: Option<GeneratedProblem>)
    ensures r.None? <==> forall p :: p in rows ==> !Serves(p, topic, difficulty)
    ensures r.Some? ==> r.value in rows && Serves(r.value, topic, difficulty)
  {
    var c := Candidates(rows, topic, difficulty);
    if c == [] then None
    else
      assert c[0] in c;
      Some(c[draw % |c|])
  }

  /** The table after `_save_generated_problem`, which runs for a successful parse. */
  function Saved(rows: seq<GeneratedProblem>, r: Result<GeneratedProblem, string>): seq<GeneratedProblem> {
    if r.Ok? then rows + [r.value] else rows
  }

  /** What a generation or a lookup can change: the key index and the problem table. */
  datatype GenState = GenState(idx: nat, rows: seq<GeneratedProblem>)

  /** Once stored, a problem stays stored. */
  lemma StoredStays(p: GeneratedProblem, a: seq<GeneratedProblem>, b: seq<GeneratedProblem>)
    requires p in a && a <= b
    ensures p in b
  {
    var k :| 0 <= k < |a| && a[k] == p;
    assert b[k] == p;
  }

  /** A question of a quiz: its number, the topic asked for, and the problem. */
  datatype Question = Question(number: nat, topic: string, problem: GeneratedProblem)

  /** The problem for one quiz topic: a cached one if the table has one, otherwise a
      newly generated one, which takes the next key and, when it parses, is stored. */
  function Fetch(keys: seq<string>, st: GenState, topic: string, difficulty: int, draw: nat,
                 service: GenerationRequest -> Reply): (r: (Result<GeneratedProblem, string>, GenState))
    requires st.idx < |keys|
    ensures r.1.idx < |keys| && st.rows <= r.1.rows
    ensures r.0.Ok? ==> r.0.value in r.1.rows && Serves(r.0.value, topic, difficulty)
  {
    match CachedProblem(st.rows, topic, difficulty, draw)
    case Some(p) => (Ok(p), st)
    case None =>
      var outcome := GenerationOutcome(service(GenerationRequest(keys[st.idx], topic, difficulty, None)),
                                       topic, difficulty);
      (outcome, GenState(KeyRotation.Advance(st.idx, |keys|), Saved(st.rows, outcome)))
  }

  /** A cache hit changes nothing; a miss is one call with the current key. */
  lemma FetchRules(keys: seq<string>, st: GenState, topic: string, difficulty: int, draw: nat,
                   service: GenerationRequest -> Reply)
    requires st.idx < |keys|
    ensures var (p, st') := Fetch(keys, st, topic, difficulty, draw, service);
      && ((exists q :: q in st.rows && Serves(q, topic, difficulty)) ==> p.Ok? && st' == st)
      && ((forall q :: q in st.rows ==> !Serves(q, topic, difficulty)) ==>
            && p == GenerationOutcome(service(GenerationRequest(keys[st.idx], topic, difficulty, None)), topic, difficulty)
            && st'.idx == KeyRotation.Advance(st.idx, |keys|)
            && st'.rows == Saved(st.rows, p))
  {
    var c := CachedProblem(st.rows, topic, difficulty, draw);
    if c.Some? {
      assert Fetch(keys, st, topic, difficulty, draw, service) == (Ok(c.value), st);
    } else {
      var outcome := GenerationOutcome(service(GenerationRequest(keys[st.idx], topic, difficulty, None)),
                                       topic, difficulty);
      assert Fetch(keys, st, topic, difficulty, draw, service)
          == (outcome, GenState(KeyRotation.Advance(st.idx, |keys|), Saved(st.rows, outcome)));
    }
  }

  /** Asking twice for the same topic generates at most once: after a successful
      first fetch the second is served from the table, with no key used. */
  lemma RepeatedTopicServedFromTable(keys: seq<string>, st: GenState, topic: string, difficulty: int,
                                     d1: nat, d2: nat, service: GenerationRequest -> Reply)
    requires st.idx < |keys|
    ensures var (p1, st1) := Fetch(keys, st, topic, difficulty, d1, service);
      p1.Ok? ==> var (p2, st2) := Fetch(keys, st1, topic, difficulty, d2, service);
                 p2.Ok? && st2 == st1
  {
    var (p1, st1) := Fetch(keys, st, topic, difficulty, d1, service);
    if p1.Ok? {
      assert p1.value in st1.rows && Serves(p1.value, topic, difficulty);
    }
  }

  /** The question numbered `number` for `topic`, when its problem was obtained. */
  function QuestionsFor(p: Result<GeneratedProblem, string>, number: nat, topic: string): seq<Question> {
    if p.Ok? then [Question(number, topic, p.value)] else []
  }

  /** The questions for `topics[from..]`, numbered by position, keeping only the
      topics whose problem was obtained; and the state after. `draw(k)` is the random
      draw of the lookup for `topics[k]`. */
  function QuizFrom(keys: seq<string>, st: GenState, topics: seq<string>, from: nat, difficulty: int,
                    draw: nat -> nat, service: GenerationRequest -> Reply): (r: (seq<Question>, GenState))
    requires st.idx < |keys| && from <= |topics|
    ensures r.1.idx < |keys| && st.rows <= r.1.rows
    decreases |topics| - from
  {
    if from == |topics| then ([], st)
    else
      var (p, st1) := Fetch(keys, st, topics[from], difficulty, draw(from), service);
      var (rest, st2) := QuizFrom(keys, st1, topics, from + 1, difficulty, draw, service);
      (QuestionsFor(p, from + 1, topics[from]) + rest, st2)
  }

  /** Every question's problem serves its topic and is in the table after the quiz. */
  lemma {:induction false} QuizStored(keys: seq<string>, st: GenState, topics: seq<string>, from: nat,
                                      difficulty: int, draw: nat -> nat, service: GenerationRequest -> Reply)
    requires st.idx < |keys| && from <= |topics|
    ensures var (qs, st') := QuizFrom(keys, st, topics, from, difficulty, draw, service);
      forall q :: q in qs ==> q.problem in st'.rows && Serves(q.problem, q.topic, difficulty)
    decreases |topics| - from
  {
    if from < |topics| {
      var (p, st1) := Fetch(keys, st, topics[from], difficulty, draw(from), service);
      QuizStored(keys, st1, topics, from + 1, difficulty, draw, service);
      var (rest, st2) := QuizFrom(keys, st1, topics, from + 1, difficulty, draw, service);
      assert QuizFrom(keys, st, topics, from, difficulty, draw, service)
          == (QuestionsFor(p, from + 1, topics[from]) + rest, st2);
      if p.Ok? {
        StoredStays(p.value, st1.rows, st2.rows);
      }
    }
  }

  /** A quiz on the same topic twice, after a first problem that was obtained, uses
      no key for the second: the table serves it. */
  lemma RepeatedTopicQuiz(keys: seq<string>, st: GenState, topic: string, difficulty: int,
                          draw: nat -> nat, service: GenerationRequest -> Reply)
    requires st.idx < |keys|
    ensures var (p1, st1) := Fetch(keys, st, topic, difficulty, draw(0), service);
      var (qs, st2) := QuizFrom(keys, st, [topic, topic], 0, difficulty, draw, service);
      p1.Ok? ==> |qs| == 2 && st2 == st1
  {
    var topics := [topic, topic];
    var (p1, st1) := Fetch(keys, st, topic, difficulty, draw(0), service);
    RepeatedTopicServedFromTable(keys, st, topic, difficulty, draw(0), draw(1), service);
    assert QuizFrom(keys, st, topics, 0, difficulty, draw, service)
        == (QuestionsFor(p1, 1, topic) + QuizFrom(keys, st1, topics, 1, difficulty, draw, service).0,
            QuizFrom(keys, st1, topics, 1, difficulty, draw, service).1);
    var (p2, st2) := Fetch(keys, st1, topic, difficulty, draw(1), service);
    assert QuizFrom(keys, st1, topics, 1, difficulty, draw, service)
        == (QuestionsFor(p2, 2, topic) + QuizFrom(keys, st2, topics, 2, difficulty, draw, service).0,
            QuizFrom(keys, st2, topics, 2, difficulty, draw, service).1);
  }

  /** At most one question per topic of `topics[from..]`, numbered in increasing
      order within `[from + 1, |topics|]`, each for the topic at its position. */
  predicate ShapedFrom(qs: seq<Question>, topics: seq<string>, from: nat) {
    && |qs| <= |topics| - from
    && (forall k :: 0 <= k < |qs| ==> from + 1 <= qs[k].number <= |topics|
                                      && qs[k].topic == topics[qs[k].number - 1])
    && (forall k1, k2 :: 0 <= k1 < k2 < |qs| ==> qs[k1].number < qs[k2].number)
  }

  lemma ShapedCons(h: seq<Question>, rest: seq<Question>, topics: seq<string>, from: nat)
    requires from < |topics| && ShapedFrom(rest, topics, from + 1)
    requires h == [] || (|h| == 1 && h[0].number == from + 1 && h[0].topic == topics[from])
    ensures ShapedFrom(h + rest, topics, from)
  {
    var qs := h + rest;
    forall k | 0 <= k < |qs| ensures from + 1 <= qs[k].number <= |topics| && qs[k].topic == topics[qs[k].number - 1] {
      if k >= |h| {
        assert qs[k] == rest[k - |h|];
      }
    }
    forall k1, k2 | 0 <= k1 < k2 < |qs| ensures qs[k1].number < qs[k2].number {
      assert qs[k2] == rest[k2 - |h|];
      if k1 >= |h| {
        assert qs[k1] == rest[k1 - |h|];
      }
    }
  }

  /** The questions `QuizFrom` builds have that shape. */
  lemma {:induction false} QuizShape(keys: seq<string>, st: GenState, topics: seq<string>, from: nat, difficulty: int,
                                     draw: nat -> nat, service: GenerationRequest -> Reply)
    requires st.idx < |keys| && from <= |topics|
    ensures ShapedFrom(QuizFrom(keys, st, topics, from, difficulty, draw, service).0, topics, from)
    decreases |topics| - from
  {
    if from < |topics| {
      var f := Fetch(keys, st, topics[from], difficulty, draw(from), service);
      QuizShape(keys, f.1, topics, from + 1, difficulty, draw, service);
      var rest := QuizFrom(keys, f.1, topics, from + 1, difficulty, draw, service);
      assert QuizFrom(keys, st, topics, from, difficulty, draw, service).0
          == QuestionsFor(f.0, from + 1, topics[from]) + rest.0;
      ShapedCons(QuestionsFor(f.0, from + 1, topics[from]), rest.0, topics, from);
    }
  }

  /** One step of `QuizFrom`: the question for `topics[from]`, if its problem was
      obtained, before the questions for the rest. */
  lemma QuizFromStep(keys: seq<string>, st: GenState, topics: seq<string>, from: nat, difficulty: int,
                     draw: nat -> nat, service: GenerationRequest -> Reply)
    requires st.idx < |keys| && from < |topics|
    ensures var f := Fetch(keys, st, topics[from], difficulty, draw(from), service);
      var after := QuizFrom(keys, f.1, topics, from + 1, difficulty, draw, service);
      && QuizFrom(keys, st, topics, from, difficulty, draw, service).0
           == QuestionsFor(f.0, from + 1, topics[from]) + after.0
      && QuizFrom(keys, st, topics, from, difficulty, draw, service).1 == after.1
  {
  }

  lemma Regroup(a: seq<Question>, b: seq<Question>, c: seq<Question>)
    ensures a + (b + c) == (a + b) + c
  {
  }

  /** What `generate_quiz` returns; `quiz_id` and `generated_at` (the clock) are not
      modelled. */
  datatype Quiz = Quiz(numQuestions: nat, questions: seq<Question>, topics: seq<string>, difficulty: int)

  /** A quiz never has more questions than asked for, nor more than the topics
      considered, which are the first `num_questions` of the list given. */
  lemma QuizBounds(keys: seq<string>, st: GenState, topics: seq<string>, numQuestions: int, difficulty: int,
                   draw: nat -> nat, service: GenerationRequest -> Reply)
    requires st.idx < |keys|
    ensures var slice := SliceTo(topics, numQuestions);
      var qs := QuizFrom(keys, st, slice, 0, difficulty, draw, service).0;
      && |qs| <= |slice| && (numQuestions >= 0 ==> |qs| <= numQuestions)
      && slice == topics[..|slice|]
      && (forall k :: 0 <= k < |qs| ==> 1 <= qs[k].number <= |slice| && qs[k].topic == topics[qs[k].number - 1])
  {
    var slice := SliceTo(topics, numQuestions);
    QuizShape(keys, st, slice, 0, difficulty, draw, service);
    var qs := QuizFrom(keys, st, slice, 0, difficulty, draw, service).0;
    forall k | 0 <= k < |qs| ensures qs[k].topic == topics[qs[k].number - 1] {
      assert slice[qs[k].number - 1] == topics[qs[k].number - 1];
    }
  }

  /** The `generated_problems` table, as the generator reads and writes it. */
  class ProblemTable {
    var rows: seq<GeneratedProblem>

    constructor (rows: seq<GeneratedProblem>)
      ensures this.rows == rows
    {
      this.rows := rows;
    }

    /** `_save_generated_problem`: the problem becomes the table's last row. */
    method Save(p: GeneratedProblem)
      modifies this
      ensures rows == old(rows) + [p]
    {
      rows := rows + [p];
    }
  }

  class ContentGenerator {
    const apiKeys: seq<string>
    var currentKeyIndex: nat

    ghost predicate Valid()
      reads this
    {
      |apiKeys| > 0 && currentKeyIndex < |apiKeys|
    }

    constructor (apiKeys: seq<string>)
      requires apiKeys != []
      ensures Valid() && this.apiKeys == apiKeys && currentKeyIndex == 0
    {
      this.apiKeys := apiKeys;
      currentKeyIndex := 0;
    }

    /** `ContentGenerator(api_keys)`: the `ValueError` for an empty key list. */
    static method Create(apiKeys: seq<string>) returns (r: Result<ContentGenerator, string>)
      ensures apiKeys == [] <==> r.Err?
      ensures r.Err? ==> r.error == KeysRequiredError
      ensures r.Ok? ==> fresh(r.value) && r.value.Valid() && r.value.apiKeys == apiKeys
                        && r.value.currentKeyIndex == 0
    {
      if apiKeys == [] {
        return Err(KeysRequiredError);
      }
      var g := new ContentGenerator(apiKeys);
      r := Ok(g);
    }

    /** `get_next_key`. */
    method GetNextKey() returns (key: string)
      requires Valid()
      modifies this`currentKeyIndex
      ensures Valid()
      ensures key == apiKeys[old(currentKeyIndex)]
      ensures currentKeyIndex == KeyRotation.Advance(old(currentKeyIndex), |apiKeys|)
    {
      key := apiKeys[currentKeyIndex];
      currentKeyIndex := (currentKeyIndex + 1) % |apiKeys|;
    }

    /** `generate_practice_problem` with the HTTP call abstracted. */
    method GeneratePracticeProblem(topic: string, difficulty: int, weaknesses: Option<seq<string>>,
                                   table: ProblemTable, service: GenerationRequest -> Reply)
      returns (r: Result<GeneratedProblem, string>)
      requires Valid()
      modifies this`currentKeyIndex, table
      ensures Valid()
      ensures table.rows == Saved(old(table.rows), r)
      ensures r == GenerationOutcome(service(GenerationRequest(apiKeys[old(currentKeyIndex)],
                                                               topic, difficulty, weaknesses)),
                                     topic, difficulty)
      ensures currentKeyIndex == KeyRotation.Advance(old(currentKeyIndex), |apiKeys|)
    {
      var key := GetNextKey();
      var reply := service(GenerationRequest(key, topic, difficulty, weaknesses));
      match reply
      case Ok200(text) =>
        r := ParseGeneratedProblem(text, topic, difficulty);
        if r.Ok? {
          table.Save(r.value);
        }
      case Status(code) =>
        r := Err("API error: " + IntToString(code));
      case TimedOut =>
        r := Err(TimeoutError);
      case Raised(message) =>
        r := Err(message);
    }

    /** One topic of `generate_quiz`: the cached problem, or else a generated one. */
    method ObtainProblem(topic: string, difficulty: int, draw: nat, table: ProblemTable,
                         service: GenerationRequest -> Reply)
      returns (problem: Result<GeneratedProblem, string>)
      requires Valid()
      modifies this`currentKeyIndex, table
      ensures Valid()
      ensures (problem, GenState(currentKeyIndex, table.rows))
              == Fetch(apiKeys, GenState(old(currentKeyIndex), old(table.rows)), topic, difficulty, draw, service)
    {
      var c := CachedProblem(table.rows, topic, difficulty, draw);
      if c.Some? {
        problem := Ok(c.value);
      } else {
        problem := GeneratePracticeProblem(topic, difficulty, None, table, service);
      }
    }

    /** `generate_quiz`: for each of the first `num_questions` topics, the cached
        problem or a new one (which the table then holds for the later topics); a
        question for each success, numbered by position. `draw(i)` is the random draw
        of the lookup for the i-th topic. The 0.5-second pauses are returned rather
        than slept. */
    method GenerateQuiz(topics: seq<string>, numQuestions: int, difficulty: int, draw: nat -> nat,
                        table: ProblemTable, service: GenerationRequest -> Reply)
      returns (quiz: Quiz, pauses: seq<real>)
      requires Valid()
      modifies this`currentKeyIndex, table
      ensures Valid()
      ensures var slice := SliceTo(topics, numQuestions);
        var w := QuizFrom(apiKeys, GenState(old(currentKeyIndex), old(table.rows)), slice, 0, difficulty,
                          draw, service);
        && quiz == Quiz(|w.0|, w.0, slice, difficulty)
        && currentKeyIndex == w.1.idx && table.rows == w.1.rows
        && |pauses| == |slice| && (forall k :: 0 <= k < |pauses| ==> pauses[k] == 0.5)
    {
      var slice := SliceTo(topics, numQuestions);
      ghost var whole := QuizFrom(apiKeys, GenState(currentKeyIndex, table.rows), slice, 0, difficulty, draw, service);
      var questions: seq<Question> := [];
      assert questions + whole.0 == whole.0;
      pauses := [];
      var i := 0;
      while i < |slice|
        invariant 0 <= i <= |slice| && Valid()
        invariant whole.0 == questions + QuizFrom(apiKeys, GenState(currentKeyIndex, table.rows), slice, i,
                                                  difficulty, draw, service).0
        invariant whole.1 == QuizFrom(apiKeys, GenState(currentKeyIndex, table.rows), slice, i,
                                      difficulty, draw, service).1
        invariant |pauses| == i && forall k :: 0 <= k < i ==> pauses[k] == 0.5
      {
        var topic := slice[i];
        ghost var st := GenState(currentKeyIndex, table.rows);
        QuizFromStep(apiKeys, st, slice, i, difficulty, draw, service);
        ghost var f := Fetch(apiKeys, st, topic, difficulty, draw(i), service);
        ghost var before := questions;
        var problem := ObtainProblem(topic, difficulty, draw(i), table, service);
        assert problem == f.0 && GenState(currentKeyIndex, table.rows) == f.1;
        if problem.Ok? {
          questions := questions + [Question(i + 1, topic, problem.value)];
        }
        assert questions == before + QuestionsFor(problem, i + 1, topic);
        ghost var after := QuizFrom(apiKeys, GenState(currentKeyIndex, table.rows), slice, i + 1,
                                    difficulty, draw, service).0;
        Regroup(before, QuestionsFor(problem, i + 1, topic), after);
        pauses := pauses + [0.5];
        i := i + 1;
      }
      quiz := Quiz(|questions|, questions, slice, difficulty);
    }
  }
}
