/**
 * `ChemistryAgent._parse_response`: turns free model text into an answer letter and a
 * confidence through two ordered lists of regular expressions, searched with
 * `re.search(pattern, text, re.IGNORECASE)`; the first pattern that matches wins.
 *
 * Each pattern is modelled by what its match at one start position yields after
 * Python's backtracking (the value of group 1), and `re.search` by the leftmost
 * start position that matches.
 *   LetterAfter(kw):  (?:kw)[\s:]*\(?([A-D])\)?
 *   NumberAfter(kw):  (?:kw)[\s:]*(\d+)%?
 *   PercentThen(kw):  (\d+)%[\s]*kw
 */
module ResponseExtractor {
  import opened Wrappers
  import opened Text

  datatype AnswerRule = LetterAfter(keyword: string)
  datatype ConfidenceRule = NumberAfter(keyword: string) | PercentThen(keyword: string)

  /** The answer patterns, in the order they are tried. */
  const AnswerRules: seq<AnswerRule> := [LetterAfter("answer"), LetterAfter("final"), LetterAfter("option")]
  /** The confidence patterns, in the order they are tried. */
  const ConfidenceRules: seq<ConfidenceRule> := [NumberAfter("confidence"), PercentThen("confidence")]

  const UnknownAnswer: string := "Unknown"
  /** Confidence reported when no confidence pattern matches. */
  const DefaultConfidence: int := 80

  /** The character class `[\s:]`. */
  predicate IsSeparator(c: char) {
    IsSpace(c) || c == ':'
  }

  /** `[A-D]` under `re.IGNORECASE`. */
  predicate IsOptionLetter(c: char) {
    'A' <= c <= 'D' || 'a' <= c <= 'd'
  }

  /** End of the longest run of `[\s:]` starting at `j` (greedy `[\s:]*`). */
  function SkipSeparators(s: string, j: nat): (k: nat)
    requires j <= |s|
    ensures j <= k <= |s|
    ensures forall m :: j <= m < k ==> IsSeparator(s[m])
    ensures k < |s| ==> !IsSeparator(s[k])
    decreases |s| - j
  {
    if j < |s| && IsSeparator(s[j]) then SkipSeparators(s, j + 1) else j
  }

  /** End of the longest run of `\s` starting at `j` (greedy `\s*`). */
  function SkipSpaces(s: string, j: nat): (k: nat)
    requires j <= |s|
    ensures j <= k <= |s|
    ensures forall m :: j <= m < k ==> IsSpace(s[m])
    ensures k < |s| ==> !IsSpace(s[k])
    decreases |s| - j
  {
    if j < |s| && IsSpace(s[j]) then SkipSpaces(s, j + 1) else j
  }

  /** End of the longest run of digits starting at `j` (greedy `\d+`, once non-empty). */
  function SkipDigits(s: string, j: nat): (k: nat)
    requires j <= |s|
    ensures j <= k <= |s|
    ensures AllDigits(s[j..k])
    ensures k < |s| ==> !IsDigit(s[k])
    decreases |s| - j
  {
    if j < |s| && IsDigit(s[j]) then SkipDigits(s, j + 1) else j
  }

  /** Group 1 of `(?:kw)[\s:]*\(?([A-D])\)?` matched at position `i`, if it matches there.
      Backtracking into `[\s:]*` cannot help: the characters it gives back are neither
      `(` nor a letter, so only the longest separator run is worth trying. */
  function LetterAt(s: string, i: nat, rule: AnswerRule): (r: Option<char>)
    ensures r.Some? ==> IsOptionLetter(r.value)
  {
    if !MatchesAtIgnoringCase(s, i, rule.keyword) then None
    else
      var j := SkipSeparators(s, i + |rule.keyword|);
      if j < |s| && IsOptionLetter(s[j]) then Some(s[j])
      else if j + 1 < |s| && s[j] == '(' && IsOptionLetter(s[j + 1]) then Some(s[j + 1])
      else None
  }

  /** Group 1 of a confidence pattern matched at position `i`, read as a number. */
  function NumberAt(s: string, i: nat, rule: ConfidenceRule): (r: Option<nat>)
  {
    match rule
    case NumberAfter(kw) =>
      if !MatchesAtIgnoringCase(s, i, kw) then None
      else
        var j := SkipSeparators(s, i + |kw|);
        if j < |s| && IsDigit(s[j]) then Some(DecimalValue(s[j..SkipDigits(s, j)])) else None
    case PercentThen(kw) =>
      if i < |s| && IsDigit(s[i]) then
        var k := SkipDigits(s, i);
        if k < |s| && s[k] == '%' && MatchesAtIgnoringCase(s, SkipSpaces(s, k + 1), kw)
        then Some(DecimalValue(s[i..k])) else None
      else None
  }

  /** `re.search`: the leftmost start position in `[from, to]` where `f` matches, with its value. */
  function Leftmost<V>(f: nat -> Option<V>, from: nat, to: nat): (r: Option<(nat, V)>)
    ensures r.Some? ==> from <= r.value.0 <= to && f(r.value.0) == Some(r.value.1)
    ensures r.Some? ==> (forall q :: from <= q < r.value.0 ==> f(q).None?)
    ensures r.None? ==> (forall q :: from <= q <= to ==> f(q).None?)
    decreases if from > to then 0 else to - from + 1
  {
    if from > to then None
    else match f(from)
      case Some(v) => Some((from, v))
      case None => Leftmost(f, from + 1, to)
  }

  function SearchLetter(s: string, rule: AnswerRule): Option<(nat, char)> {
    Leftmost((i: nat) => LetterAt(s, i, rule), 0, |s|)
  }

  function SearchNumber(s: string, rule: ConfidenceRule): Option<(nat, nat)> {
    Leftmost((i: nat) => NumberAt(s, i, rule), 0, |s|)
  }

  /** The letter captured by the first rule in `rules` whose pattern occurs in `s`. */
  function FirstLetter(s: string, rules: seq<AnswerRule>): (r: Option<char>)
    ensures r.Some? ==> IsOptionLetter(r.value)
    decreases |rules|
  {
    if rules == [] then None
    else match SearchLetter(s, rules[0])
      case Some(m) => Some(m.1)
      case None => FirstLetter(s, rules[1..])
  }

  /** The number captured by the first rule in `rules` whose pattern occurs in `s`. */
  function FirstNumber(s: string, rules: seq<ConfidenceRule>): Option<nat>
    decreases |rules|
  {
    if rules == [] then None
    else match SearchNumber(s, rules[0])
      case Some(m) => Some(m.1)
      case None => FirstNumber(s, rules[1..])
  }

  /** `match.group(1).upper()`, or "Unknown" when no answer pattern matched. */
  function AnswerText(m: Option<char>): (a: string)
    requires m.Some? ==> IsOptionLetter(m.value)
    ensures a in {"A", "B", "C", "D", UnknownAnswer}
    ensures a == UnknownAnswer <==> m.None?
  {
    match m
    case None => UnknownAnswer
    case Some(c) => [UpperAscii(c)]
  }

  /** `min(100, max(0, int(group)))`, or 80 when no confidence pattern matched. */
  function ConfidenceValue(m: Option<nat>): (c: int)
    ensures 0 <= c <= 100
    ensures m.None? ==> c == DefaultConfidence
    ensures m.Some? ==> c == if m.value <= 100 then m.value else 100
  {
    match m
    case None => DefaultConfidence
    case Some(v) => if v > 100 then 100 else v
  }

  /** What `_parse_response` returns for `text`. */
  function Parse(text: string): (r: (string, int))
    ensures r.0 in {"A", "B", "C", "D", UnknownAnswer}
    ensures 0 <= r.1 <= 100
  {
    (AnswerText(FirstLetter(text, AnswerRules)), ConfidenceValue(FirstNumber(text, ConfidenceRules)))
  }

  /** The first rule in list order that matches decides, whatever later rules would give. */
  lemma {:induction false} FirstMatchingRuleWins(s: string, rules: seq<AnswerRule>, k: nat)
    requires k < |rules| && SearchLetter(s, rules[k]).Some?
    requires forall j :: 0 <= j < k ==> SearchLetter(s, rules[j]).None?
    ensures FirstLetter(s, rules) == Some(SearchLetter(s, rules[k]).value.1)
    decreases k
  {
    if k > 0 {
      FirstMatchingRuleWins(s, rules[1..], k - 1);
    }
  }

  /** No answer pattern anywhere in the text gives "Unknown"; no confidence pattern gives 80. */
  lemma {:induction false} NoMatchGivesDefaults(s: string, ar: seq<AnswerRule>, cr: seq<ConfidenceRule>)
    requires forall j :: 0 <= j < |ar| ==> SearchLetter(s, ar[j]).None?
    requires forall j :: 0 <= j < |cr| ==> SearchNumber(s, cr[j]).None?
    ensures FirstLetter(s, ar) == None && FirstNumber(s, cr) == None
    decreases |ar| + |cr|
  {
    if ar != [] {
      NoMatchGivesDefaults(s, ar[1..], cr);
    } else if cr != [] {
      NoMatchGivesDefaults(s, ar, cr[1..]);
    }
  }

  /** The empty reply (and any reply without the markers) parses to ("Unknown", 80). */
  lemma EmptyTextGivesDefaults()
    ensures Parse("") == (UnknownAnswer, DefaultConfidence)
  {
    forall j | 0 <= j < |AnswerRules| ensures SearchLetter("", AnswerRules[j]).None? {
      assert LetterAt("", 0, AnswerRules[j]).None?;
    }
    forall j | 0 <= j < |ConfidenceRules| ensures SearchNumber("", ConfidenceRules[j]).None? {
      assert NumberAt("", 0, ConfidenceRules[j]).None?;
    }
    NoMatchGivesDefaults("", AnswerRules, ConfidenceRules);
  }

  /** `_parse_response` as written: each pattern list is walked in order and left with
      `break` at the first pattern that matches. */
  method ParseResponse(text: string) returns (answer: string, confidence: int)
    ensures (answer, confidence) == Parse(text)
    ensures answer in {"A", "B", "C", "D", UnknownAnswer}
    ensures 0 <= confidence <= 100
  {
    answer := UnknownAnswer;
    var i := 0;
    while i < |AnswerRules|
      invariant 0 <= i <= |AnswerRules|
      invariant FirstLetter(text, AnswerRules) == FirstLetter(text, AnswerRules[i..])
      invariant answer == UnknownAnswer
    {
      var m := SearchLetter(text, AnswerRules[i]);
      if m.Some? {
        answer := [UpperAscii(m.value.1)];
        break;
      }
      assert AnswerRules[i..][1..] == AnswerRules[i + 1..];
      i := i + 1;
    }

    confidence := DefaultConfidence;
    var k := 0;
    while k < |ConfidenceRules|
      invariant 0 <= k <= |ConfidenceRules|
      invariant FirstNumber(text, ConfidenceRules) == FirstNumber(text, ConfidenceRules[k..])
      invariant confidence == DefaultConfidence
    {
      var m := SearchNumber(text, ConfidenceRules[k]);
      if m.Some? {
        confidence := if m.value.1 > 100 then 100 else m.value.1;
        break;
      }
      assert ConfidenceRules[k..][1..] == ConfidenceRules[k + 1..];
      k := k + 1;
    }
  }
}
